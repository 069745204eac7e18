/**
 * The friend settlement ledger: two lists of one-to-one payments (those the
 * user made for friends, and those friends made for the user), a per-record
 * `settled` toggle, and the two pending totals recomputed from the lists.
 */
module FriendPayments {
  import opened RecordList

  datatype Payment = Payment(id: string, friend: string, amount: real, description: string, date: string, settled: bool)

  function PaymentId(p: Payment): string { p.id }

  function IsSettled(p: Payment): bool { p.settled }

  /** `{ ...p, settled: !p.settled }` */
  function FlipSettled(p: Payment): Payment { p.(settled := !p.settled) }

  /** The new list `toggleSettled` assigns: only records with the given id have `settled` negated. */
  function FlipSettledById(s: seq<Payment>, id: string): (r: seq<Payment>)
    ensures |r| == |s|
    ensures forall i :: 0 <= i < |s| && s[i].id == id ==> r[i].settled == !s[i].settled && r[i].(settled := s[i].settled) == s[i]
    ensures forall i :: 0 <= i < |s| && s[i].id != id ==> r[i] == s[i]
  {
    UpdateMatching(s, PaymentId, id, FlipSettled)
  }

  /** `s.reduce((sum, p) => sum + p.amount, 0)`, folding from the left as `reduce` does. */
  function SumAmounts(s: seq<Payment>): real {
    if s == [] then 0.0 else SumAmounts(s[..|s| - 1]) + s[|s| - 1].amount
  }

  /** `s.filter(p => !p.settled)` */
  function Unsettled(s: seq<Payment>): (r: seq<Payment>)
    ensures forall i :: 0 <= i < |r| ==> r[i] in s && !r[i].settled
    ensures forall i :: 0 <= i < |s| && !s[i].settled ==> s[i] in r
  {
    RemoveMatching(s, IsSettled, true)
  }

  /** `pendingOwed` / `pendingToReturn`: the sum of the unsettled amounts of one list. */
  function Pending(s: seq<Payment>): real {
    SumAmounts(Unsettled(s))
  }

  predicate UniqueIds(s: seq<Payment>) {
    forall i, j :: 0 <= i < j < |s| ==> s[i].id != s[j].id
  }

  lemma {:induction false} SumAmountsConcat(a: seq<Payment>, b: seq<Payment>)
    ensures SumAmounts(a + b) == SumAmounts(a) + SumAmounts(b)
  {
    if b == [] {
      assert a + b == a;
    } else {
      assert (a + b)[..|a + b| - 1] == a + b[..|b| - 1];
      SumAmountsConcat(a, b[..|b| - 1]);
    }
  }

  /** The pending total of two lists placed one after the other is the sum of their pending totals. */
  lemma PendingConcat(a: seq<Payment>, b: seq<Payment>)
    ensures Pending(a + b) == Pending(a) + Pending(b)
  {
    RemoveMatchingConcat(a, b, IsSettled, true);
    SumAmountsConcat(Unsettled(a), Unsettled(b));
  }

  /**
   * A record contributes its amount while pending and nothing once settled;
   * an empty list has a pending total of 0.
   */
  lemma PendingOne(p: Payment)
    ensures Pending([p]) == if p.settled then 0.0 else p.amount
    ensures Pending([]) == 0.0
  {
    assert [p][1..] == [];
    if !p.settled {
      assert Unsettled([p]) == [p];
      assert SumAmounts([p]) == SumAmounts([]) + p.amount by { assert [p][..0] == []; }
    }
  }

  /** Settled records never reach a pending total: inserting one anywhere leaves it unchanged. */
  lemma SettledExcluded(a: seq<Payment>, p: Payment, b: seq<Payment>)
    requires p.settled
    ensures Pending(a + [p] + b) == Pending(a + b)
  {
    PendingConcat(a + [p], b);
    PendingConcat(a, [p]);
    PendingConcat(a, b);
    PendingOne(p);
  }

  /** With non-negative amounts, a pending total is non-negative. */
  lemma {:induction false} PendingNonNegative(s: seq<Payment>)
    requires forall i :: 0 <= i < |s| ==> s[i].amount >= 0.0
    ensures Pending(s) >= 0.0
  {
    if s != [] {
      var init := s[..|s| - 1];
      assert s == init + [s[|s| - 1]];
      PendingNonNegative(init);
      PendingConcat(init, [s[|s| - 1]]);
      PendingOne(s[|s| - 1]);
    }
  }

  /** With unique ids, toggling the id of record `k` changes that record alone. */
  lemma ToggleSplits(s: seq<Payment>, k: nat)
    requires k < |s| && UniqueIds(s)
    ensures FlipSettledById(s, s[k].id) == s[..k] + [FlipSettled(s[k])] + s[k + 1..]
  {
    var r, t := FlipSettledById(s, s[k].id), s[..k] + [FlipSettled(s[k])] + s[k + 1..];
    forall i | 0 <= i < |s| ensures r[i] == t[i] {
      if i < k { assert t[i] == s[i]; } else if i > k { assert t[i] == s[i]; }
    }
  }

  /**
   * With unique ids, toggling record `k` lowers the pending total by its
   * amount when it was pending, and raises it by its amount when it was
   * settled.
   */
  lemma ToggleChangesPending(s: seq<Payment>, k: nat)
    requires k < |s| && UniqueIds(s)
    ensures Pending(FlipSettledById(s, s[k].id))
         == if s[k].settled then Pending(s) + s[k].amount else Pending(s) - s[k].amount
  {
    var a, b, q := s[..k], s[k + 1..], FlipSettled(s[k]);
    ToggleSplits(s, k);
    assert s == a + [s[k]] + b;
    PendingConcat(a + [q], b);
    PendingConcat(a, [q]);
    PendingConcat(a + [s[k]], b);
    PendingConcat(a, [s[k]]);
    PendingOne(q);
    PendingOne(s[k]);
  }

  /** Toggling the same id twice restores the list exactly. */
  lemma ToggleTwice(s: seq<Payment>, id: string)
    ensures FlipSettledById(FlipSettledById(s, id), id) == s
  {
    UpdateMatchingTwice(s, PaymentId, id, FlipSettled);
  }

  const SeedMyPayments := [
    Payment("1", "Alice", 25.00, "Movie tickets", "2024-01-20", false),
    Payment("2", "Bob", 15.50, "Lunch split", "2024-01-19", true)
  ]

  const SeedOtherPayments := [
    Payment("3", "Charlie", 30.75, "Groceries", "2024-01-18", false),
    Payment("4", "Diana", 20.00, "Dinner split", "2024-01-17", false)
  ]

  /** The seeded lists: 25.00 is owed to the user (Bob's 15.50 is settled) and 50.75 is to be returned. */
  lemma SeedTotals()
    ensures Pending(SeedMyPayments) == 25.00
    ensures Pending(SeedOtherPayments) == 50.75
  {
    var my, other := SeedMyPayments, SeedOtherPayments;
    assert my == [my[0]] + [my[1]];
    assert other == [other[0]] + [other[1]];
    PendingConcat([my[0]], [my[1]]);
    PendingConcat([other[0]], [other[1]]);
    PendingOne(my[0]);
    PendingOne(my[1]);
    PendingOne(other[0]);
    PendingOne(other[1]);
  }

  /** The component's state: the two `useState` lists. */
  class FriendLedger {
    var myPayments: seq<Payment>
    var otherPayments: seq<Payment>

    constructor ()
      ensures myPayments == SeedMyPayments && otherPayments == SeedOtherPayments
    {
      myPayments := SeedMyPayments;
      otherPayments := SeedOtherPayments;
    }

    /** `toggleSettled(id, isMyPayment)`: only the chosen list changes. */
    method ToggleSettled(id: string, isMyPayment: bool)
      modifies this
      ensures isMyPayment ==> myPayments == FlipSettledById(old(myPayments), id) && otherPayments == old(otherPayments)
      ensures !isMyPayment ==> otherPayments == FlipSettledById(old(otherPayments), id) && myPayments == old(myPayments)
    {
      if isMyPayment {
        myPayments := FlipSettledById(myPayments, id);
      } else {
        otherPayments := FlipSettledById(otherPayments, id);
      }
    }

    /** `pendingOwed`: what friends still owe the user. */
    function PendingOwed(): real
      reads this
    {
      Pending(myPayments)
    }

    /** `pendingToReturn`: what the user still owes friends. */
    function PendingToReturn(): real
      reads this
    {
      Pending(otherPayments)
    }
  }
}
