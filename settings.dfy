/**
 * The settings screen: three reference lists of `{id, name}` items
 * (categories, friends, payment modes) managed through one naming dialog.
 * The list a handler touches is chosen by a type tag; the other two are
 * never changed.
 */
module Settings {
  import opened Options
  import opened RecordList
  import opened Text

  datatype ListType = Categories | Friends | PaymentModes

  datatype SettingsItem = SettingsItem(id: string, name: string)

  function ItemId(x: SettingsItem): string { x.id }

  /**
   * `newItem` in `handleSubmit`, or None when the trimmed form value is
   * empty and submit returns early. A stored name is the trimmed value, so
   * it is non-empty and has no white space at either end.
   */
  function NewItem(editing: Option<SettingsItem>, formValue: string, freshId: string): (r: Option<SettingsItem>)
    ensures r.None? <==> AllWhitespace(formValue)
    ensures r.Some? ==> r.value.name == Trim(formValue) && r.value.name != ""
    ensures r.Some? ==> !IsWhitespace(r.value.name[0]) && !IsWhitespace(r.value.name[|r.value.name| - 1])
    ensures r.Some? ==> r.value.id == if editing.Some? && editing.value.id != "" then editing.value.id else freshId
  {
    TrimEmptyIffBlank(formValue);
    var name := Trim(formValue);
    if name == "" then None
    else Some(SettingsItem(if editing.Some? && editing.value.id != "" then editing.value.id else freshId, name))
  }

  /** A stored name is already trimmed: trimming it again changes nothing. */
  lemma StoredNameIsTrimmed(editing: Option<SettingsItem>, formValue: string, freshId: string)
    requires NewItem(editing, formValue, freshId).Some?
    ensures Trim(NewItem(editing, formValue, freshId).value.name) == NewItem(editing, formValue, freshId).value.name
  {
    TrimIdempotent(formValue);
  }

  /** The selected list after a successful submit: an edit replaces the items carrying the edited id, an add appends. */
  function Submitted(items: seq<SettingsItem>, editing: Option<SettingsItem>, x: SettingsItem): (r: seq<SettingsItem>)
    ensures editing.None? ==> |r| == |items| + 1 && r[|items|] == x && r[..|items|] == items
    ensures editing.Some? ==> |r| == |items|
    ensures editing.Some? ==> forall i :: 0 <= i < |r| ==> r[i] == if items[i].id == editing.value.id then x else items[i]
  {
    if editing.Some? then ReplaceMatching(items, ItemId, editing.value.id, x) else items + [x]
  }

  const SeedCategories := [
    SettingsItem("1", "Food"), SettingsItem("2", "Transport"), SettingsItem("3", "Entertainment"),
    SettingsItem("4", "Shopping"), SettingsItem("5", "Bills"), SettingsItem("6", "Healthcare")]

  const SeedFriends := [
    SettingsItem("1", "Alice"), SettingsItem("2", "Bob"), SettingsItem("3", "Charlie"),
    SettingsItem("4", "Diana"), SettingsItem("5", "Eve")]

  const SeedPaymentModes := [
    SettingsItem("1", "Cash"), SettingsItem("2", "Credit Card"), SettingsItem("3", "Debit Card"),
    SettingsItem("4", "UPI"), SettingsItem("5", "Bank Transfer")]

  /** The component's state cells and its handlers. */
  class SettingsLists {
    var categories: seq<SettingsItem>
    var friends: seq<SettingsItem>
    var paymentModes: seq<SettingsItem>
    var dialogOpen: Option<ListType>
    var editingItem: Option<SettingsItem>
    var formValue: string

    constructor ()
      ensures categories == SeedCategories && friends == SeedFriends && paymentModes == SeedPaymentModes
      ensures dialogOpen == None && editingItem == None && formValue == ""
    {
      categories, friends, paymentModes := SeedCategories, SeedFriends, SeedPaymentModes;
      dialogOpen, editingItem, formValue := None, None, "";
    }

    /** The list the tag selects. */
    function Items(t: ListType): seq<SettingsItem>
      reads this
    {
      match t
      case Categories => categories
      case Friends => friends
      case PaymentModes => paymentModes
    }

    /** The "Add ..." button of one section. */
    method OpenDialog(t: ListType)
      modifies this
      ensures dialogOpen == Some(t)
      ensures categories == old(categories) && friends == old(friends) && paymentModes == old(paymentModes)
      ensures editingItem == old(editingItem) && formValue == old(formValue)
    {
      dialogOpen := Some(t);
    }

    /** The name input's binding. */
    method SetFormValue(v: string)
      modifies this
      ensures formValue == v
      ensures categories == old(categories) && friends == old(friends) && paymentModes == old(paymentModes)
      ensures editingItem == old(editingItem) && dialogOpen == old(dialogOpen)
    {
      formValue := v;
    }

    /**
     * `handleSubmit(type)`: nothing at all happens when the trimmed form
     * value is empty; otherwise only the list `t` selects changes, and the
     * form is reset.
     */
    method Submit(t: ListType, freshId: string)
      modifies this
      ensures AllWhitespace(old(formValue)) ==> unchanged(this)
      ensures !AllWhitespace(old(formValue)) ==>
        var x := NewItem(old(editingItem), old(formValue), freshId).value;
        && categories == (if t == Categories then Submitted(old(categories), old(editingItem), x) else old(categories))
        && friends == (if t == Friends then Submitted(old(friends), old(editingItem), x) else old(friends))
        && paymentModes == (if t == PaymentModes then Submitted(old(paymentModes), old(editingItem), x) else old(paymentModes))
        && formValue == "" && editingItem == None && dialogOpen == None
    {
      var item := NewItem(editingItem, formValue, freshId);
      if item.None? {
        return;
      }
      var x := item.value;
      match t {
        case Categories => categories := Submitted(categories, editingItem, x);
        case Friends => friends := Submitted(friends, editingItem, x);
        case PaymentModes => paymentModes := Submitted(paymentModes, editingItem, x);
      }
      ResetForm();
    }

    /** `handleEdit(item, type)` */
    method HandleEdit(item: SettingsItem, t: ListType)
      modifies this
      ensures editingItem == Some(item) && formValue == item.name && dialogOpen == Some(t)
      ensures categories == old(categories) && friends == old(friends) && paymentModes == old(paymentModes)
    {
      editingItem := Some(item);
      formValue := item.name;
      dialogOpen := Some(t);
    }

    /** `handleDelete(id, type)`: only the list `t` selects changes. */
    method HandleDelete(id: string, t: ListType)
      modifies this
      ensures Items(t) == RemoveMatching(old(Items(t)), ItemId, id)
      ensures categories == (if t == Categories then RemoveMatching(old(categories), ItemId, id) else old(categories))
      ensures friends == (if t == Friends then RemoveMatching(old(friends), ItemId, id) else old(friends))
      ensures paymentModes == (if t == PaymentModes then RemoveMatching(old(paymentModes), ItemId, id) else old(paymentModes))
      ensures dialogOpen == old(dialogOpen) && editingItem == old(editingItem) && formValue == old(formValue)
    {
      match t {
        case Categories => categories := RemoveMatching(categories, ItemId, id);
        case Friends => friends := RemoveMatching(friends, ItemId, id);
        case PaymentModes => paymentModes := RemoveMatching(paymentModes, ItemId, id);
      }
    }

    /** `resetForm`: the "Cancel" button and closing the dialog. */
    method ResetForm()
      modifies this
      ensures formValue == "" && editingItem == None && dialogOpen == None
      ensures categories == old(categories) && friends == old(friends) && paymentModes == old(paymentModes)
    {
      formValue := "";
      editingItem := None;
      dialogOpen := None;
    }
  }
}
