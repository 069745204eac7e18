/**
 * Group bill-splitting: a list of group payments, each with its participant
 * shares, and the form from which a payment is created or edited. An equal
 * split gives every participant `totalAmount / count`; the custom split is
 * not implemented by the component and gives every selected friend 0.
 */
module GroupPayments {
  import opened Options
  import opened RecordList

  datatype SplitType = Equal | Custom

  datatype Participant = Participant(name: string, amount: real, includeSelf: bool, settled: bool)

  datatype GroupPayment = GroupPayment(
    id: string, description: string, totalAmount: real, paidBy: string,
    splitType: SplitType, participants: seq<Participant>, date: string)

  /** The form state; `totalAmount` is None while the amount input is empty, `date` while no date is picked. */
  datatype GroupForm = GroupForm(
    description: string, totalAmount: Option<real>, paidBy: string, splitType: SplitType,
    includeSelf: bool, selectedFriends: seq<string>, date: Option<string>)

  const SelfName := "You"

  /** The form `resetForm` restores. */
  const EmptyForm := GroupForm("", None, SelfName, Equal, true, [], None)

  function PaymentId(p: GroupPayment): string { p.id }

  /** `selectedFriends.length + (includeSelf ? 1 : 0)` */
  function ParticipantCount(friends: seq<string>, includeSelf: bool): nat {
    |friends| + if includeSelf then 1 else 0
  }

  /** `amountPerPerson`: the share that, taken `count` times, makes up the total. */
  function EqualShare(total: real, count: nat): (share: real)
    requires count > 0
    ensures share * count as real == total
  {
    total / count as real
  }

  /** `friends.map(friend => ({ name: friend, amount, includeSelf: false, settled: false }))` */
  function FriendEntries(friends: seq<string>, amount: real): (r: seq<Participant>)
    ensures |r| == |friends|
    ensures forall i :: 0 <= i < |friends| ==> r[i] == Participant(friends[i], amount, false, false)
  {
    if friends == [] then []
    else [Participant(friends[0], amount, false, false)] + FriendEntries(friends[1..], amount)
  }

  /** The user's own share: already settled, since the user is not in debt to themselves. */
  function SelfEntry(amount: real): Participant {
    Participant(SelfName, amount, true, true)
  }

  /**
   * The equal-split participant list: the selected friends in selection
   * order, each unsettled, then one settled "You" entry exactly when the
   * user is included; every share is `total / count`.
   */
  function EqualParticipants(friends: seq<string>, includeSelf: bool, total: real): (r: seq<Participant>)
    requires ParticipantCount(friends, includeSelf) > 0
    ensures |r| == ParticipantCount(friends, includeSelf)
    ensures forall i :: 0 <= i < |r| ==> r[i].amount * |r| as real == total
    ensures forall i :: 0 <= i < |friends| ==> r[i].name == friends[i] && !r[i].includeSelf && !r[i].settled
    ensures includeSelf ==> r[|friends|] == SelfEntry(total / |r| as real)
  {
    var share := EqualShare(total, ParticipantCount(friends, includeSelf));
    FriendEntries(friends, share) + if includeSelf then [SelfEntry(share)] else []
  }

  /** The custom-split participant list: one entry of amount 0 per selected friend, and no "You" entry. */
  function CustomParticipants(friends: seq<string>): (r: seq<Participant>)
    ensures |r| == |friends|
    ensures forall i :: 0 <= i < |r| ==> r[i] == Participant(friends[i], 0.0, false, false)
  {
    FriendEntries(friends, 0.0)
  }

  /** The participant list submit builds for the chosen split; its shares add up to the total, or to 0 for a custom split. */
  function Participants(splitType: SplitType, friends: seq<string>, includeSelf: bool, total: real): (r: seq<Participant>)
    requires splitType == Equal ==> ParticipantCount(friends, includeSelf) > 0
    ensures ShareTotal(r) == if splitType == Equal then total else 0.0
  {
    match splitType
    case Equal => EqualSplitSumsToTotal(friends, includeSelf, total); EqualParticipants(friends, includeSelf, total)
    case Custom => CustomSplitSumsToZero(friends); CustomParticipants(friends)
  }

  /** The sum of the participants' shares (the component never forms it; it states what a split means). */
  function ShareTotal(ps: seq<Participant>): real {
    if ps == [] then 0.0 else ps[0].amount + ShareTotal(ps[1..])
  }

  lemma {:induction false} ShareTotalUniform(ps: seq<Participant>, v: real)
    requires forall i :: 0 <= i < |ps| ==> ps[i].amount == v
    ensures ShareTotal(ps) == |ps| as real * v
  {
    if ps != [] {
      ShareTotalUniform(ps[1..], v);
    }
  }

  /** With exact arithmetic, the shares of an equal split add up to the total. */
  lemma EqualSplitSumsToTotal(friends: seq<string>, includeSelf: bool, total: real)
    requires ParticipantCount(friends, includeSelf) > 0
    ensures ShareTotal(EqualParticipants(friends, includeSelf, total)) == total
  {
    var n := ParticipantCount(friends, includeSelf);
    var share := EqualShare(total, n);
    var ps := EqualParticipants(friends, includeSelf, total);
    assert forall i :: 0 <= i < |ps| ==> ps[i].amount == share;
    ShareTotalUniform(ps, share);
  }

  /** A custom split assigns nothing: its shares add up to 0 whatever the total. */
  lemma CustomSplitSumsToZero(friends: seq<string>)
    ensures ShareTotal(CustomParticipants(friends)) == 0.0
  {
    ShareTotalUniform(CustomParticipants(friends), 0.0);
  }

  /** The opening example: 120.00 split between Alice, Bob, Charlie and the user is 30.00 each. */
  lemma SplitScenario()
    ensures EqualParticipants(["Alice", "Bob", "Charlie"], true, 120.00) == [
      Participant("Alice", 30.00, false, false),
      Participant("Bob", 30.00, false, false),
      Participant("Charlie", 30.00, false, false),
      SelfEntry(30.00)]
  {
    var r := EqualParticipants(["Alice", "Bob", "Charlie"], true, 120.00);
    assert r == FriendEntries(["Alice", "Bob", "Charlie"], 30.00) + [SelfEntry(30.00)];
  }

  /** `participants.filter(p => !p.includeSelf).map(p => p.name)` */
  function NonSelfNames(ps: seq<Participant>): seq<string> {
    if ps == [] then []
    else (if ps[0].includeSelf then [] else [ps[0].name]) + NonSelfNames(ps[1..])
  }

  /** A name is read back exactly when some participant carrying it is not the user. */
  lemma {:induction false} NonSelfNamesMembers(ps: seq<Participant>)
    ensures forall j :: 0 <= j < |ps| && !ps[j].includeSelf ==> ps[j].name in NonSelfNames(ps)
    ensures forall n :: n in NonSelfNames(ps) ==> exists j :: 0 <= j < |ps| && !ps[j].includeSelf && ps[j].name == n
  {
    if ps != [] {
      var tail := NonSelfNames(ps[1..]);
      var head: seq<string> := if ps[0].includeSelf then [] else [ps[0].name];
      NonSelfNamesMembers(ps[1..]);
      assert NonSelfNames(ps) == head + tail;
      forall j | 0 <= j < |ps| && !ps[j].includeSelf ensures ps[j].name in NonSelfNames(ps) {
        if j > 0 { assert ps[1..][j - 1] == ps[j]; }
      }
      forall n | n in NonSelfNames(ps) ensures exists j :: 0 <= j < |ps| && !ps[j].includeSelf && ps[j].name == n {
        if n in tail {
          var j :| 0 <= j < |ps[1..]| && !ps[1..][j].includeSelf && ps[1..][j].name == n;
          assert ps[j + 1] == ps[1..][j];
        } else {
          assert !ps[0].includeSelf && ps[0].name == n;
        }
      }
    }
  }

  /** `participants.some(p => p.includeSelf)` */
  predicate HasSelf(ps: seq<Participant>) {
    exists i :: 0 <= i < |ps| && ps[i].includeSelf
  }

  lemma {:induction false} NonSelfNamesConcat(a: seq<Participant>, b: seq<Participant>)
    ensures NonSelfNames(a + b) == NonSelfNames(a) + NonSelfNames(b)
  {
    if a == [] {
      assert a + b == b;
    } else {
      assert (a + b)[1..] == a[1..] + b;
      NonSelfNamesConcat(a[1..], b);
    }
  }

  lemma {:induction false} FriendEntriesNames(friends: seq<string>, amount: real)
    ensures NonSelfNames(FriendEntries(friends, amount)) == friends
  {
    if friends != [] {
      var r := FriendEntries(friends, amount);
      assert r[1..] == FriendEntries(friends[1..], amount);
      FriendEntriesNames(friends[1..], amount);
    }
  }

  /**
   * What `handleEdit` reads back from a participant list built by submit:
   * the selected friends, and the self flag (always false for a custom split).
   */
  lemma RebuildSelection(splitType: SplitType, friends: seq<string>, includeSelf: bool, total: real)
    requires splitType == Equal ==> ParticipantCount(friends, includeSelf) > 0
    ensures NonSelfNames(Participants(splitType, friends, includeSelf, total)) == friends
    ensures HasSelf(Participants(splitType, friends, includeSelf, total)) == (splitType == Equal && includeSelf)
  {
    var ps := Participants(splitType, friends, includeSelf, total);
    if splitType == Equal {
      var share := EqualShare(total, ParticipantCount(friends, includeSelf));
      var tail := if includeSelf then [SelfEntry(share)] else [];
      NonSelfNamesConcat(FriendEntries(friends, share), tail);
      FriendEntriesNames(friends, share);
      if includeSelf {
        assert NonSelfNames(tail) == [] by { assert tail[1..] == []; }
        assert ps[|friends|].includeSelf;
      }
    } else {
      FriendEntriesNames(friends, 0.0);
    }
  }

  /** The form `handleEdit` fills in from a payment. */
  function FormFromPayment(p: GroupPayment): GroupForm {
    GroupForm(p.description, Some(p.totalAmount), p.paidBy, p.splitType,
              HasSelf(p.participants), NonSelfNames(p.participants),
              if p.date != "" then Some(p.date) else None)
  }

  /**
   * `newPayment` in `handleSubmit`. The id is the edited payment's unless
   * that is missing or empty; a missing date becomes `today`. Only the
   * user's own share starts settled, and `handleEdit` would read back
   * exactly the submitted selection.
   */
  function NewPayment(form: GroupForm, editing: Option<GroupPayment>, freshId: string, today: string): (p: GroupPayment)
    requires form.totalAmount.Some?
    requires form.splitType == Equal ==> ParticipantCount(form.selectedFriends, form.includeSelf) > 0
    ensures p.id == if editing.Some? && editing.value.id != "" then editing.value.id else freshId
    ensures p.date == if form.date.Some? then form.date.value else today
    ensures p.description == form.description && p.paidBy == form.paidBy
    ensures p.totalAmount == form.totalAmount.value && p.splitType == form.splitType
    ensures p.participants == Participants(form.splitType, form.selectedFriends, form.includeSelf, form.totalAmount.value)
    ensures forall i :: 0 <= i < |p.participants| ==> (p.participants[i].settled <==> p.participants[i].includeSelf)
    ensures NonSelfNames(p.participants) == form.selectedFriends
    ensures HasSelf(p.participants) == (form.splitType == Equal && form.includeSelf)
  {
    RebuildSelection(form.splitType, form.selectedFriends, form.includeSelf, form.totalAmount.value);
    GroupPayment(
      if editing.Some? && editing.value.id != "" then editing.value.id else freshId,
      form.description, form.totalAmount.value, form.paidBy, form.splitType,
      Participants(form.splitType, form.selectedFriends, form.includeSelf, form.totalAmount.value),
      if form.date.Some? then form.date.value else today)
  }

  /**
   * Editing a payment that submit built and resubmitting the form unchanged
   * reproduces the payment: same id, same participants, same self flag.
   */
  lemma EditResubmitRoundTrip(p: GroupPayment, friends: seq<string>, includeSelf: bool, freshId: string, today: string)
    requires p.id != "" && p.date != ""
    requires p.splitType == Equal ==> ParticipantCount(friends, includeSelf) > 0
    requires p.participants == Participants(p.splitType, friends, includeSelf, p.totalAmount)
    ensures NewPayment(FormFromPayment(p), Some(p), freshId, today) == p
  {
    RebuildSelection(p.splitType, friends, includeSelf, p.totalAmount);
  }

  /** The new participant list of `toggleSettle`: participant `i`, if there is one, has `settled` negated. */
  function FlipParticipant(ps: seq<Participant>, i: int): (r: seq<Participant>)
    ensures |r| == |ps|
    ensures forall j :: 0 <= j < |ps| && j != i ==> r[j] == ps[j]
    ensures 0 <= i < |ps| ==> r[i].settled == !ps[i].settled && r[i].(settled := ps[i].settled) == ps[i]
  {
    if 0 <= i < |ps| then ps[i := ps[i].(settled := !ps[i].settled)] else ps
  }

  /** The new payment list of `toggleSettle(paymentId, i)`. */
  function FlipParticipantById(payments: seq<GroupPayment>, paymentId: string, i: int): (r: seq<GroupPayment>)
    ensures |r| == |payments|
    ensures forall j :: 0 <= j < |payments| && payments[j].id != paymentId ==> r[j] == payments[j]
    ensures forall j :: 0 <= j < |payments| && payments[j].id == paymentId ==>
      r[j] == payments[j].(participants := FlipParticipant(payments[j].participants, i))
  {
    UpdateMatching(payments, PaymentId, paymentId, (p: GroupPayment) => p.(participants := FlipParticipant(p.participants, i)))
  }

  /** Settling the same participant twice restores the payment list. */
  lemma FlipParticipantTwice(payments: seq<GroupPayment>, paymentId: string, i: int)
    ensures FlipParticipantById(FlipParticipantById(payments, paymentId, i), paymentId, i) == payments
  {
    var r := FlipParticipantById(FlipParticipantById(payments, paymentId, i), paymentId, i);
    forall j | 0 <= j < |payments| ensures r[j] == payments[j] {
      if payments[j].id == paymentId {
        var ps := payments[j].participants;
        assert FlipParticipant(FlipParticipant(ps, i), i) == ps;
      }
    }
  }

  /** `toggleFriend`'s new selection: drop every occurrence of a selected friend, or append an unselected one. */
  function SelectionToggled(selected: seq<string>, friend: string): (r: seq<string>)
    ensures friend in selected ==> r == RemoveMatching(selected, Identity, friend)
    ensures friend in selected ==> friend !in r && |r| < |selected|
    ensures friend in selected ==> forall i :: 0 <= i < |selected| && selected[i] != friend ==> selected[i] in r
    ensures friend in selected ==> forall i :: 0 <= i < |r| ==> r[i] in selected
    ensures friend !in selected ==> r == selected + [friend]
  {
    if friend in selected then RemoveMatching(selected, Identity, friend) else selected + [friend]
  }

  /** Deselecting a friend keeps the other friends in their order: only that friend's entry goes. */
  lemma SelectionToggledKeepsOrder(a: seq<string>, friend: string, b: seq<string>)
    requires friend !in a && friend !in b
    ensures SelectionToggled(a + [friend] + b, friend) == a + b
  {
    assert (a + [friend] + b)[|a|] == friend;
    assert NoneMatch(a, Identity, friend) by {
      forall i | 0 <= i < |a| ensures Identity(a[i]) != friend { assert a[i] in a; }
    }
    assert NoneMatch(b, Identity, friend) by {
      forall i | 0 <= i < |b| ensures Identity(b[i]) != friend { assert b[i] in b; }
    }
    RemoveMatchingOne(a, friend, b, Identity);
  }

  /** Toggling an unselected friend twice restores the selection. */
  lemma SelectionToggledTwice(selected: seq<string>, friend: string)
    requires friend !in selected
    ensures SelectionToggled(SelectionToggled(selected, friend), friend) == selected
  {
    AppendThenRemove(selected, friend, Identity);
  }

  /** Toggling keeps a selection free of repeats. */
  lemma SelectionStaysDistinct(selected: seq<string>, friend: string)
    requires Distinct(selected)
    ensures Distinct(SelectionToggled(selected, friend))
  {
    if friend in selected {
      RemoveMatchingDistinct(selected, Identity, friend);
    }
  }

  const SeedPayments := [
    GroupPayment("1", "Team dinner", 120.00, SelfName, Equal, [
      Participant("Alice", 30.00, false, false),
      Participant("Bob", 30.00, false, true),
      Participant("Charlie", 30.00, false, false),
      SelfEntry(30.00)], "2024-01-20")
  ]

  /** The component's state cells and its handlers. */
  class GroupLedger {
    var payments: seq<GroupPayment>
    var showForm: bool
    var editingPayment: Option<GroupPayment>
    var form: GroupForm

    constructor ()
      ensures payments == SeedPayments && !showForm && editingPayment == None && form == EmptyForm
    {
      payments := SeedPayments;
      showForm := false;
      editingPayment := None;
      form := EmptyForm;
    }

    /** The "Add" button. */
    method OpenForm()
      modifies this
      ensures showForm
      ensures payments == old(payments) && editingPayment == old(editingPayment) && form == old(form)
    {
      showForm := true;
    }

    /** The form's field bindings (description, amount, payer, split type, self checkbox, date picker). */
    method FillForm(description: string, totalAmount: Option<real>, paidBy: string, splitType: SplitType,
                    includeSelf: bool, date: Option<string>)
      modifies this
      ensures form == old(form).(description := description, totalAmount := totalAmount, paidBy := paidBy,
                                 splitType := splitType, includeSelf := includeSelf, date := date)
      ensures payments == old(payments) && showForm == old(showForm) && editingPayment == old(editingPayment)
    {
      form := form.(description := description, totalAmount := totalAmount, paidBy := paidBy,
                    splitType := splitType, includeSelf := includeSelf, date := date);
    }

    /**
     * `handleSubmit`, reachable only with a friend selected (the submit
     * button is disabled otherwise) and an amount entered (the input is
     * required). An edit replaces the payments carrying the edited id; an
     * add puts the new payment first. The form is then reset.
     */
    method Submit(freshId: string, today: string)
      requires |form.selectedFriends| > 0
      requires form.totalAmount.Some?
      modifies this
      ensures var p := NewPayment(old(form), old(editingPayment), freshId, today);
        payments == if old(editingPayment).Some?
                    then ReplaceMatching(old(payments), PaymentId, old(editingPayment).value.id, p)
                    else [p] + old(payments)
      ensures form == EmptyForm && !showForm && editingPayment == None
    {
      var p := NewPayment(form, editingPayment, freshId, today);
      if editingPayment.Some? {
        payments := ReplaceMatching(payments, PaymentId, editingPayment.value.id, p);
      } else {
        payments := [p] + payments;
      }
      ResetForm();
    }

    /** `resetForm`, also the "Cancel" button. */
    method ResetForm()
      modifies this
      ensures form == EmptyForm && !showForm && editingPayment == None
      ensures payments == old(payments)
    {
      form := EmptyForm;
      showForm := false;
      editingPayment := None;
    }

    /** `toggleFriend` */
    method ToggleFriend(friend: string)
      modifies this
      ensures form == old(form).(selectedFriends := SelectionToggled(old(form.selectedFriends), friend))
      ensures payments == old(payments) && showForm == old(showForm) && editingPayment == old(editingPayment)
    {
      form := form.(selectedFriends := SelectionToggled(form.selectedFriends, friend));
    }

    /** `handleEdit`: the form is filled in from the payment, which becomes the one being edited. */
    method HandleEdit(payment: GroupPayment)
      modifies this
      ensures form == FormFromPayment(payment) && editingPayment == Some(payment) && showForm
      ensures payments == old(payments)
    {
      form := FormFromPayment(payment);
      editingPayment := Some(payment);
      showForm := true;
    }

    /** `handleDelete` */
    method HandleDelete(id: string)
      modifies this
      ensures payments == RemoveMatching(old(payments), PaymentId, id)
      ensures form == old(form) && showForm == old(showForm) && editingPayment == old(editingPayment)
    {
      payments := RemoveMatching(payments, PaymentId, id);
    }

    /** `toggleSettle` */
    method ToggleSettle(paymentId: string, participantIndex: int)
      modifies this
      ensures payments == FlipParticipantById(old(payments), paymentId, participantIndex)
      ensures form == old(form) && showForm == old(showForm) && editingPayment == old(editingPayment)
    {
      payments := FlipParticipantById(payments, paymentId, participantIndex);
    }
  }
}
