# Expense tracker ledgers, modelled in Dafny

The expense tracker is a single-page React front end. Its tabs keep their data in
component state (`useState`) and change it only through event handlers. This project
models the four tabs that hold records:

- **Group payments** (`GroupPayments.tsx`): a list of group payments. Each has
  per-participant shares. A payment is created from a form that holds the selected
  friends and an "include yourself" flag. In an equal split every share is
  `totalAmount / count`. The custom split is not implemented in the component, and
  it gives every selected friend 0.
- **Friend payments** (`FriendPayments.tsx`): two lists of one-to-one payments, one
  for payments the user made and one for payments friends made. Each record has a
  `settled` toggle. Two pending totals are recomputed from the unsettled records.
- **Personal expenses** (`PersonalExpenses.tsx`): add prepends, edit replaces by id,
  delete filters by id.
- **Settings** (`Settings.tsx`): three `{id, name}` lists (categories, friends, payment
  modes) chosen by a type tag. Add appends, edit replaces by id, delete filters by id.
  An entry whose name trims to nothing is refused.

Each tab is one module. Its records are datatypes. Its state cells are the fields of a
class whose methods are the handlers. Each handler assigns a new list built by a pure
function over the old one, and the properties are proved about those functions. The
`map`/`filter`/replace pattern the handlers share is defined once, in `RecordList`,
keyed by a function value (a record's `id`, its `settled` flag, or the value itself).
`Text` models `String.prototype.trim` over the exact ECMAScript white-space set.

Amounts are exact `real`s. Ids, dates and "today" are opaque strings. A fresh id
(`Date.now().toString()`) and today's date are parameters of the handler that needs
them. An amount input is `None` while it is empty and `Some(x)` once a number is
entered. A date picker is `None` until a date is picked.

Behaviours of the code that the model keeps on purpose:

- `editing?.id || Date.now().toString()` uses the fresh id both when nothing is being
  edited and when the edited record's id is the empty string. The edit then still
  replaces the records whose id is `""`.
- Resubmitting an edited group payment rebuilds its participants, so every friend's
  share becomes unsettled again (`NewPayment`: a share is settled exactly when it is
  the user's own).
- Editing a custom-split payment reads "include yourself" back as false, because a
  custom split has no "You" entry.
- The equal split is never submitted with no friends selected, because the submit
  button is disabled then (GroupPayments.tsx:317). With one friend or more the count
  is positive, so `Submit` requires a selected friend and the division is defined.
- The component shows the settle button only for participants that are not the user
  (GroupPayments.tsx:380). `toggleSettle` itself checks nothing, so `ToggleSettle` accepts
  any index, including the user's own entry, and an index out of range changes nothing.

## Model

| member | source | states |
|---|---|---|
| `RecordList.UpdateMatching` | src/components/tabs/FriendPayments.tsx:58 | same length; a record whose key matches is replaced by the update of it, every other record is unchanged and in place |
| `RecordList.ReplaceMatching` | src/components/tabs/PersonalExpenses.tsx:69 | same length; exactly the records whose key matches become the new record, every other record is unchanged and in place |
| `RecordList.RemoveMatching` | src/components/tabs/PersonalExpenses.tsx:96 | every kept record was in the list and has a different key; every record with a different key is kept; the length is unchanged exactly when no record matched |
| `RecordList.RemoveMatchingConcat` | src/components/tabs/PersonalExpenses.tsx:96 | removal distributes over concatenation, so the survivors keep their relative order |
| `RecordList.RemoveMatchingIdentity` | src/components/tabs/Settings.tsx:103 | removal gives back the list exactly when no record has the key |
| `RecordList.PrependThenRemove` | src/components/tabs/PersonalExpenses.tsx:71 | adding a record at the front under a key no other record has, then removing that key, restores the list |
| `RecordList.AppendThenRemove` | src/components/tabs/GroupPayments.tsx:121-123 | appending a record under an unused key, then removing that key, restores the list |
| `RecordList.UpdateMatchingTwice` | src/components/tabs/FriendPayments.tsx:58 | updating twice with a key-preserving involution restores the list |
| `RecordList.UpdateMatchingConcat` | src/components/tabs/FriendPayments.tsx:58 | an update distributes over concatenation |
| `RecordList.UpdateMatchingNone` | src/components/tabs/FriendPayments.tsx:58 | an update leaves a list with no matching record unchanged |
| `RecordList.RemoveMatchingOne` | src/components/tabs/GroupPayments.tsx:122 | removing the key of the one record that carries it leaves the records before and after it, in order |
| `RecordList.RemoveMatchingDistinct` | src/components/tabs/GroupPayments.tsx:122 | removing records from a list without repeats leaves a list without repeats |
| `Text.IsWhitespace` | src/components/tabs/Settings.tsx:48 | the characters `trim` strips: the ECMAScript WhiteSpace and LineTerminator code points; every property of `Trim` is stated over this set |
| `Text.SkipForward` | src/components/tabs/Settings.tsx:48 | the position reached is the first one from the start that is not white space, or the end; everything skipped is white space |
| `Text.SkipBackward` | src/components/tabs/Settings.tsx:48 | the position reached is just after the last character that is not white space, or the lower bound; everything skipped is white space |
| `Text.Trim` | src/components/tabs/Settings.tsx:52 | the result is the slice of the input between its leading and its trailing white space; when non-empty it neither starts nor ends with white space |
| `Text.TrimEmptyIffBlank` | src/components/tabs/Settings.tsx:48 | trimming leaves nothing exactly when the input is all white space |
| `Text.TrimIdempotent` | src/components/tabs/Settings.tsx:52 | trimming a trimmed string changes nothing |
| `FriendPayments.FlipSettledById` | src/components/tabs/FriendPayments.tsx:58 | same length and order; matching records have `settled` negated and every other field kept; other records unchanged |
| `FriendPayments.Unsettled` | src/components/tabs/FriendPayments.tsx:113 | the kept records are exactly the unsettled ones of the list |
| `FriendPayments.SumAmounts` | src/components/tabs/FriendPayments.tsx:113-114 | the `reduce` sum, folded from the left; `SumAmountsConcat` states that it is additive |
| `FriendPayments.Pending` | src/components/tabs/FriendPayments.tsx:113-114 | the sum of the unsettled amounts of a list; `PendingConcat` and `PendingOne` pin it down: additive over concatenation, a record counts its amount while unsettled and 0 once settled, the empty list counts 0 |
| `FriendPayments.SumAmountsConcat` | src/components/tabs/FriendPayments.tsx:113 | the `reduce` sum of two lists placed one after the other is the sum of their sums |
| `FriendPayments.PendingConcat` | src/components/tabs/FriendPayments.tsx:113-114 | the pending total of two lists placed one after the other is the sum of their pending totals |
| `FriendPayments.PendingOne` | src/components/tabs/FriendPayments.tsx:113-114 | a single record contributes its amount if unsettled and 0 if settled; an empty list totals 0 |
| `FriendPayments.SettledExcluded` | src/components/tabs/FriendPayments.tsx:113-114 | inserting a settled record anywhere leaves the pending total unchanged |
| `FriendPayments.PendingNonNegative` | src/components/tabs/FriendPayments.tsx:113 | with non-negative amounts, the pending total is non-negative |
| `FriendPayments.ToggleSplits` | src/components/tabs/FriendPayments.tsx:58 | with unique ids, toggling the id of record `k` changes that record alone and keeps the records before and after it |
| `FriendPayments.ToggleChangesPending` | src/components/tabs/FriendPayments.tsx:113-114 | with unique ids, toggling a record lowers the pending total by its amount if it was pending, and raises it by its amount if it was settled |
| `FriendPayments.ToggleTwice` | src/components/tabs/FriendPayments.tsx:58 | toggling the same id twice restores the list exactly |
| `FriendPayments.SeedTotals` | src/components/tabs/FriendPayments.tsx:17-53 | the seeded lists give 25.00 pending owed and 50.75 pending to return |
| `FriendPayments.FriendLedger.constructor` | src/components/tabs/FriendPayments.tsx:17-53 | both lists start as the seeded records |
| `FriendPayments.FriendLedger.ToggleSettled` | src/components/tabs/FriendPayments.tsx:55-65 | with `isMyPayment`, only `myPayments` changes, by `FlipSettledById`; otherwise only `otherPayments` changes |
| `FriendPayments.FriendLedger.PendingOwed` | src/components/tabs/FriendPayments.tsx:113 | `Pending` of `myPayments`; its properties are those of `Pending` |
| `FriendPayments.FriendLedger.PendingToReturn` | src/components/tabs/FriendPayments.tsx:114 | `Pending` of `otherPayments`; its properties are those of `Pending` |
| `GroupPayments.ParticipantCount` | src/components/tabs/GroupPayments.tsx:64 | `selectedFriends.length + (includeSelf ? 1 : 0)`; `EqualParticipants` states that the list has this length |
| `GroupPayments.EqualShare` | src/components/tabs/GroupPayments.tsx:65 | the share taken `count` times makes up the total |
| `GroupPayments.FriendEntries` | src/components/tabs/GroupPayments.tsx:68-73 | one entry per friend, in selection order, each with the given amount, `includeSelf = false` and `settled = false` |
| `GroupPayments.SelfEntry` | src/components/tabs/GroupPayments.tsx:74 | the user's own entry, named "You", with `includeSelf` and `settled` set; `EqualParticipants` states that it comes last exactly when the user is included |
| `GroupPayments.EqualParticipants` | src/components/tabs/GroupPayments.tsx:63-75 | the length is `selectedFriends.length + (includeSelf ? 1 : 0)`; every share times the count is the total; the friends come first in order, unsettled and not self; then one settled "You" entry exactly when `includeSelf` |
| `GroupPayments.CustomParticipants` | src/components/tabs/GroupPayments.tsx:76-83 | one entry per selected friend, with amount 0, unsettled, and no "You" entry |
| `GroupPayments.Participants` | src/components/tabs/GroupPayments.tsx:63-84 | the participant list of the chosen split; its shares add up to the total for an equal split and to 0 for a custom split |
| `GroupPayments.EqualSplitSumsToTotal` | src/components/tabs/GroupPayments.tsx:64-75 | with exact reals, the equal-split shares add up to `totalAmount` |
| `GroupPayments.CustomSplitSumsToZero` | src/components/tabs/GroupPayments.tsx:76-83 | the custom-split shares add up to 0 whatever the total |
| `GroupPayments.SplitScenario` | src/components/tabs/GroupPayments.tsx:30-37 | 120.00 split between Alice, Bob, Charlie and the user gives 30.00 each, with the user's share settled |
| `GroupPayments.NonSelfNames` | src/components/tabs/GroupPayments.tsx:134 | the names of the participants that are not the user, in order; `NonSelfNamesMembers`, `NonSelfNamesConcat` and `FriendEntriesNames` state its properties |
| `GroupPayments.NonSelfNamesMembers` | src/components/tabs/GroupPayments.tsx:134 | a name is read back exactly when some participant carrying it is not the user |
| `GroupPayments.HasSelf` | src/components/tabs/GroupPayments.tsx:133 | some participant is the user; `RebuildSelection` states that it reads back the submitted self flag of an equal split |
| `GroupPayments.NonSelfNamesConcat` | src/components/tabs/GroupPayments.tsx:134 | reading back names distributes over concatenation |
| `GroupPayments.FriendEntriesNames` | src/components/tabs/GroupPayments.tsx:134 | the names read back from friend entries are the friends, in order |
| `GroupPayments.RebuildSelection` | src/components/tabs/GroupPayments.tsx:133-134 | from a submitted participant list, `handleEdit` reads back exactly the selected friends, and the self flag when the split is equal (false when it is custom) |
| `GroupPayments.FormFromPayment` | src/components/tabs/GroupPayments.tsx:128-136 | the form `handleEdit` fills in; `EditResubmitRoundTrip` states that resubmitting it reproduces the payment |
| `GroupPayments.NewPayment` | src/components/tabs/GroupPayments.tsx:60-94 | the id is the edited payment's unless that is missing or empty; description, payer, amount and split type are the form's; the participants are `Participants` of the form's split, selection, self flag and amount; a missing date becomes today; a share is settled exactly when it is the user's; the selection and the self flag read back unchanged |
| `GroupPayments.EditResubmitRoundTrip` | src/components/tabs/GroupPayments.tsx:127-136 | editing a payment built by submit and resubmitting the unchanged form reproduces the same payment |
| `GroupPayments.FlipParticipant` | src/components/tabs/GroupPayments.tsx:150-154 | same length; only participant `i`, if there is one, has `settled` negated, with its other fields kept |
| `GroupPayments.FlipParticipantById` | src/components/tabs/GroupPayments.tsx:145-158 | same length; payments with another id are unchanged; a payment with the id changes only in its participant list, by `FlipParticipant` |
| `GroupPayments.FlipParticipantTwice` | src/components/tabs/GroupPayments.tsx:145-158 | settling the same participant twice restores the payment list |
| `GroupPayments.SelectionToggled` | src/components/tabs/GroupPayments.tsx:118-125 | a selected friend is removed everywhere by the order-keeping `RemoveMatching`, and the list shrinks; the other friends stay and nothing new appears; an unselected friend is appended at the end |
| `GroupPayments.SelectionToggledKeepsOrder` | src/components/tabs/GroupPayments.tsx:122 | deselecting a friend who appears once leaves the friends before and after it, in their order |
| `GroupPayments.SelectionToggledTwice` | src/components/tabs/GroupPayments.tsx:118-125 | toggling an unselected friend twice restores the selection |
| `GroupPayments.SelectionStaysDistinct` | src/components/tabs/GroupPayments.tsx:118-125 | toggling keeps a selection without repeats |
| `GroupPayments.GroupLedger.constructor` | src/components/tabs/GroupPayments.tsx:26-53 | the seeded payment, form hidden, nothing being edited, the empty form |
| `GroupPayments.GroupLedger.OpenForm` | src/components/tabs/GroupPayments.tsx:170 | shows the form and changes nothing else |
| `GroupPayments.GroupLedger.FillForm` | src/components/tabs/GroupPayments.tsx:194-308 | sets the form fields other than the selection and changes nothing else |
| `GroupPayments.GroupLedger.Submit` | src/components/tabs/GroupPayments.tsx:57-102 | an edit replaces the payments with the edited id by the new payment; an add puts it first; then the form is empty, hidden and not editing |
| `GroupPayments.GroupLedger.ResetForm` | src/components/tabs/GroupPayments.tsx:104-116 | the form is empty, hidden and not editing; the payments are unchanged |
| `GroupPayments.GroupLedger.ToggleFriend` | src/components/tabs/GroupPayments.tsx:118-125 | only the selection changes, by `SelectionToggled` |
| `GroupPayments.GroupLedger.HandleEdit` | src/components/tabs/GroupPayments.tsx:127-139 | the form is filled in from the payment, which becomes the one being edited; the form is shown |
| `GroupPayments.GroupLedger.HandleDelete` | src/components/tabs/GroupPayments.tsx:141-143 | the payments with the id are removed; nothing else changes |
| `GroupPayments.GroupLedger.ToggleSettle` | src/components/tabs/GroupPayments.tsx:145-158 | the payments change by `FlipParticipantById`; nothing else changes |
| `PersonalExpenses.NewExpense` | src/components/tabs/PersonalExpenses.tsx:59-66 | the form's fields, with the edited expense's id unless that is missing or empty; a missing date is stored as the empty string |
| `PersonalExpenses.FormFromExpense` | src/components/tabs/PersonalExpenses.tsx:84-90 | the form `handleEdit` fills in; `EditResubmitRoundTrip` states that resubmitting it gives back the expense |
| `PersonalExpenses.EditResubmitRoundTrip` | src/components/tabs/PersonalExpenses.tsx:83-90 | editing an expense and resubmitting the unchanged form gives back the same expense |
| `PersonalExpenses.Submitted` | src/components/tabs/PersonalExpenses.tsx:68-72 | an add puts the new expense at index 0 with the old list after it; an edit keeps the length and replaces exactly the expenses with the edited id |
| `PersonalExpenses.AddThenDelete` | src/components/tabs/PersonalExpenses.tsx:71 | adding under a fresh id and then deleting that id gives back the original list |
| `PersonalExpenses.ExpenseList.constructor` | src/components/tabs/PersonalExpenses.tsx:24-51 | the seeded expenses, form hidden, nothing being edited, the empty form |
| `PersonalExpenses.ExpenseList.OpenForm` | src/components/tabs/PersonalExpenses.tsx:109 | shows the form and changes nothing else |
| `PersonalExpenses.ExpenseList.FillForm` | src/components/tabs/PersonalExpenses.tsx:131-202 | sets the form and changes nothing else |
| `PersonalExpenses.ExpenseList.Submit` | src/components/tabs/PersonalExpenses.tsx:56-75 | the list becomes `Submitted` of the new expense; the form is empty, hidden and not editing |
| `PersonalExpenses.ExpenseList.ResetForm` | src/components/tabs/PersonalExpenses.tsx:77-81 | the form is empty, hidden and not editing; the expenses are unchanged |
| `PersonalExpenses.ExpenseList.HandleEdit` | src/components/tabs/PersonalExpenses.tsx:83-93 | the form is filled in from the expense, which becomes the one being edited; the form is shown |
| `PersonalExpenses.ExpenseList.HandleDelete` | src/components/tabs/PersonalExpenses.tsx:95-97 | the expenses with the id are removed; nothing else changes |
| `Settings.NewItem` | src/components/tabs/Settings.tsx:48-53 | no item exactly when the value is all white space; otherwise the name is the trimmed value, non-empty and with no white space at either end, and the id is the edited item's unless that is missing or empty |
| `Settings.StoredNameIsTrimmed` | src/components/tabs/Settings.tsx:52 | a stored name is unchanged by trimming again |
| `Settings.Submitted` | src/components/tabs/Settings.tsx:55-83 | an add appends the item at the end and keeps the list before it; an edit keeps the length and replaces exactly the items with the edited id |
| `Settings.SettingsLists.constructor` | src/components/tabs/Settings.tsx:18-45 | the three seeded lists, no dialog open, nothing being edited, empty form value |
| `Settings.SettingsLists.OpenDialog` | src/components/tabs/Settings.tsx:150 | opens the dialog of one list and changes nothing else |
| `Settings.SettingsLists.SetFormValue` | src/components/tabs/Settings.tsx:171 | sets the form value and changes nothing else |
| `Settings.SettingsLists.Submit` | src/components/tabs/Settings.tsx:47-92 | nothing changes when the value trims to nothing; otherwise only the list the tag selects changes, by `Submitted`, and the form is reset |
| `Settings.SettingsLists.HandleEdit` | src/components/tabs/Settings.tsx:94-98 | sets `editingItem`, `formValue = item.name` and `dialogOpen = type`; the lists are unchanged |
| `Settings.SettingsLists.HandleDelete` | src/components/tabs/Settings.tsx:100-116 | only the list the tag selects changes: the items with the id are removed |
| `Settings.SettingsLists.ResetForm` | src/components/tabs/Settings.tsx:118-122 | `formValue = ""`, `editingItem = null`, `dialogOpen = null`; the lists are unchanged |

## Left out

- Rendering, styling, icons and the card, dialog, popover, calendar and select widgets are left out. They only display state and forward user actions.
- Toast notifications (`useToast`) are left out. They are a library call with no effect on the lists. `HandleDelete` in Settings therefore drops the `name` argument, which only feeds the toast.
- Date formatting and parsing (`format`, `toISOString().split('T')`, `new Date(...)`, `toLocaleDateString`) are left out. Dates are opaque strings, and converting a picked date to a stored date and back is the identity. Time zones are not modelled.
- `parseFloat`, `toString` of amounts, NaN and `toFixed(2)` display rounding are left out. They are IEEE floating point and string conversion. Amounts are exact reals, so the sum of the equal shares is exactly the total, and the display-rounding discrepancy the split preview can show is not modelled.
- `Date.now()` id generation and "today" are parameters. The code does not enforce unique ids, so the lemmas that need them say so.
- The `required` attribute on the description fields is not modelled, so the model also admits the empty description that the browser would block. The `required` amount inputs are modelled as the precondition that an amount is entered.
- `availableFriends` and the fixed category and payment-mode options only feed the UI choices. Any friend name may be toggled.
- The `split preview` text (GroupPayments.tsx:277-287) is display only.
- `Dashboard.tsx` is not part of this model. Its inputs are hard-coded literals and its one computation is a display ratio.
- `BottomTabNav.tsx` and `ExpenseTracker.tsx` are tab switching with no data logic.
- React's batching of state updates is not modelled. Each handler's assignments take effect together, as in one render.
