/**
 * The payments store: the signed-in user's payment records (`users/{uid}/payments`), keyed by the
 * external payment id, and a local list kept newest first. Recording checks for the id first and does
 * nothing when it is already there; the processed check looks for a succeeded record with the id.
 */
module Payments {
  import opened Common
  import Auth

  const Succeeded := "succeeded"
  const NotAuthenticatedMessage := "User not authenticated"
  const UnknownErrorMessage := "An unknown error occurred"

  /** A payment as the application holds it; `createdAt` is in milliseconds, absent when unknown. */
  datatype Payment = Payment(id: string, amount: int, createdAt: Option<nat>, status: string)

  /** A stored payment document: its store-assigned document id and the fields written to it, any of `id`/`createdAt` possibly missing. */
  datatype PaymentDoc = PaymentDoc(docId: string, id: Option<string>, amount: int, createdAt: Option<nat>, status: string)

  /** What the caller hands to `AddPayment`: a payment without its creation time. */
  datatype NewPayment = NewPayment(id: string, amount: int, status: string)

  /** The error text kept in `paymentsError`. */
  function ErrorText(t: Thrown): string {
    match t
    case ErrorObject(m) => m
    case NonError => UnknownErrorMessage
  }

  // ---------------------------------------------------------------------------------------------
  // Newest-first order
  // ---------------------------------------------------------------------------------------------

  /** The sort key: the creation time, 0 when there is none. */
  function TimeOf(p: Payment): nat {
    p.createdAt.GetOr(0)
  }

  predicate NewestFirst(ps: seq<Payment>) {
    forall i, j :: 0 <= i < j < |ps| ==> TimeOf(ps[j]) <= TimeOf(ps[i])
  }

  /** Puts `p` into a newest-first list after every record at least as new (so ties keep their order). */
  function InsertByDate(sorted: seq<Payment>, p: Payment): (r: seq<Payment>)
    requires NewestFirst(sorted)
    ensures NewestFirst(r)
    ensures multiset(r) == multiset(sorted) + multiset{p}
    ensures forall x :: x in r ==> x in sorted || x == p
    decreases |sorted|
  {
    if sorted == [] || TimeOf(sorted[|sorted| - 1]) >= TimeOf(p) then
      sorted + [p]
    else
      var init, last := sorted[..|sorted| - 1], sorted[|sorted| - 1];
      assert sorted == init + [last];
      DropOldest(sorted);
      var front := InsertByDate(init, p);
      assert forall x :: x in front ==> TimeOf(last) <= TimeOf(x);
      AppendOldest(front, last);
      front + [last]
  }

  /** Without its last (oldest) element a newest-first list is still newest first, and no element is older. */
  lemma DropOldest(ps: seq<Payment>)
    requires NewestFirst(ps) && ps != []
    ensures NewestFirst(ps[..|ps| - 1])
    ensures forall x :: x in ps[..|ps| - 1] ==> TimeOf(ps[|ps| - 1]) <= TimeOf(x)
  {
    var init := ps[..|ps| - 1];
    forall x | x in init
      ensures TimeOf(ps[|ps| - 1]) <= TimeOf(x)
    {
      var i :| 0 <= i < |init| && init[i] == x;
      assert x == ps[i];
    }
  }

  /** Appending an element no newer than any other keeps a list newest first. */
  lemma AppendOldest(ps: seq<Payment>, p: Payment)
    requires NewestFirst(ps)
    requires forall x :: x in ps ==> TimeOf(p) <= TimeOf(x)
    ensures NewestFirst(ps + [p])
  {
    forall i, j | 0 <= i < j < |ps| + 1
      ensures TimeOf((ps + [p])[j]) <= TimeOf((ps + [p])[i])
    {
      assert (ps + [p])[i] == ps[i];
      if j == |ps| {
        assert ps[i] in ps;
      }
    }
  }

  /** `sortPaymentsByDate`: a newest-first permutation of a copy of the list (the input is a value, so it is untouched). */
  function SortByDate(ps: seq<Payment>): (r: seq<Payment>)
    ensures NewestFirst(r)
    ensures multiset(r) == multiset(ps)
    decreases |ps|
  {
    if ps == [] then []
    else
      assert ps == ps[..|ps| - 1] + [ps[|ps| - 1]];
      InsertByDate(SortByDate(ps[..|ps| - 1]), ps[|ps| - 1])
  }

  /** A list already newest first is left as it is. */
  lemma {:induction false} SortByDateSorted(ps: seq<Payment>)
    requires NewestFirst(ps)
    ensures SortByDate(ps) == ps
    decreases |ps|
  {
    if ps != [] {
      var init := ps[..|ps| - 1];
      SortByDateSorted(init);
      if init != [] {
        assert TimeOf(init[|init| - 1]) >= TimeOf(ps[|ps| - 1]);
      }
      assert init + [ps[|ps| - 1]] == ps;
    }
  }

  /** Sorting a newest-first list with one record appended inserts that record. */
  lemma AppendThenSort(ps: seq<Payment>, p: Payment)
    requires NewestFirst(ps)
    ensures SortByDate(ps + [p]) == InsertByDate(ps, p)
  {
    assert (ps + [p])[..|ps|] == ps;
    SortByDateSorted(ps);
  }

  /** A record newer than all others goes to the front. */
  lemma {:induction false} NewestGoesFirst(ps: seq<Payment>, p: Payment)
    requires NewestFirst(ps)
    requires forall q :: q in ps ==> TimeOf(q) < TimeOf(p)
    ensures InsertByDate(ps, p) == [p] + ps
    decreases |ps|
  {
    if ps != [] {
      var init, last := ps[..|ps| - 1], ps[|ps| - 1];
      assert ps == init + [last];
      assert TimeOf(last) < TimeOf(p) by {
        assert last in ps;
      }
      assert NewestFirst(init) by {
        forall i, j | 0 <= i < j < |init|
          ensures TimeOf(init[j]) <= TimeOf(init[i])
        {
          assert init[i] == ps[i] && init[j] == ps[j];
        }
      }
      forall q | q in init
        ensures TimeOf(q) < TimeOf(p)
      {
        assert q in ps;
      }
      NewestGoesFirst(init, p);
      assert InsertByDate(ps, p) == InsertByDate(init, p) + [last];
    }
  }

  // ---------------------------------------------------------------------------------------------
  // Queries over a user's collection
  // ---------------------------------------------------------------------------------------------

  /** Some record carries this payment id, whatever its status (`where("id", "==", id)` is not empty). */
  predicate HasId(coll: seq<PaymentDoc>, id: string) {
    exists i :: 0 <= i < |coll| && coll[i].id == Some(id)
  }

  /** How many records carry this payment id. */
  function CountId(coll: seq<PaymentDoc>, id: string): nat
    decreases |coll|
  {
    if coll == [] then 0 else (if coll[0].id == Some(id) then 1 else 0) + CountId(coll[1..], id)
  }

  lemma {:induction false} CountIdZero(coll: seq<PaymentDoc>, id: string)
    ensures CountId(coll, id) == 0 <==> !HasId(coll, id)
    decreases |coll|
  {
    if coll != [] {
      CountIdZero(coll[1..], id);
      if HasId(coll[1..], id) {
        var i :| 0 <= i < |coll[1..]| && coll[1..][i].id == Some(id);
        assert coll[i + 1].id == Some(id);
      }
      if HasId(coll, id) && coll[0].id != Some(id) {
        var i :| 0 <= i < |coll| && coll[i].id == Some(id);
        assert coll[1..][i - 1].id == Some(id);
      }
    }
  }

  lemma {:induction false} CountIdAppend(coll: seq<PaymentDoc>, d: PaymentDoc, id: string)
    ensures CountId(coll + [d], id) == CountId(coll, id) + (if d.id == Some(id) then 1 else 0)
    decreases |coll|
  {
    if coll == [] {
      assert [d][1..] == [];
    } else {
      assert (coll + [d])[1..] == coll[1..] + [d];
      CountIdAppend(coll[1..], d, id);
    }
  }

  /** The record answers the processed query: it carries the id and has succeeded. */
  predicate Matches(d: PaymentDoc, id: string) {
    d.id == Some(id) && d.status == Succeeded
  }

  /** The record as the processed query returns it. */
  function AsPayment(d: PaymentDoc): Payment {
    Payment(d.id.GetOr(""), d.amount, d.createdAt, d.status)
  }

  /** The first succeeded record with this id, or nothing when there is none. */
  function FindSucceeded(coll: seq<PaymentDoc>, id: string): (r: Option<Payment>)
    ensures r.None? <==> forall i :: 0 <= i < |coll| ==> !Matches(coll[i], id)
    ensures r.Some? ==> r.value.id == id && r.value.status == Succeeded
    ensures r.Some? ==> exists i :: 0 <= i < |coll| && Matches(coll[i], id) && r.value == AsPayment(coll[i])
                                    && forall j :: 0 <= j < i ==> !Matches(coll[j], id)
    decreases |coll|
  {
    if coll == [] then None
    else if Matches(coll[0], id) then Some(AsPayment(coll[0]))
    else
      var r := FindSucceeded(coll[1..], id);
      assert forall i :: 1 <= i < |coll| ==> coll[i] == coll[1..][i - 1];
      r
  }

  /** Round trip: a succeeded record appended under a fresh id is what the processed query then finds. */
  lemma {:induction false} FindRecorded(coll: seq<PaymentDoc>, d: PaymentDoc, id: string)
    requires !HasId(coll, id)
    requires Matches(d, id)
    ensures FindSucceeded(coll + [d], id) == Some(AsPayment(d))
    ensures AsPayment(d) == Payment(id, d.amount, d.createdAt, Succeeded)
    decreases |coll|
  {
    if coll != [] {
      assert (coll + [d])[1..] == coll[1..] + [d];
      assert !Matches(coll[0], id);
      assert !HasId(coll[1..], id) by {
        forall i | 0 <= i < |coll[1..]|
          ensures coll[1..][i].id != Some(id)
        {
          assert coll[1..][i] == coll[i + 1];
        }
      }
      FindRecorded(coll[1..], d, id);
    }
  }

  /** A loaded record: the `id` field, or the document id when that is missing or empty. */
  function LoadPayment(d: PaymentDoc): (r: Payment)
    ensures d.id.Some? && d.id.value != "" ==> r.id == d.id.value
    ensures d.id.None? || d.id.value == "" ==> r.id == d.docId
    ensures r.amount == d.amount && r.createdAt == d.createdAt && r.status == d.status
  {
    Payment(OrElse(OrEmpty(d.id), d.docId), d.amount, d.createdAt, d.status)
  }

  /** The records the ordered query sees, in collection order: those that have a creation time. */
  function LoadTimed(coll: seq<PaymentDoc>): (r: seq<Payment>)
    ensures |r| <= |coll|
    ensures forall p :: p in r ==> p.createdAt.Some?
    ensures forall p :: p in r ==> exists d :: d in coll && d.createdAt.Some? && p == LoadPayment(d)
    ensures forall d :: d in coll && d.createdAt.Some? ==> LoadPayment(d) in r
    decreases |coll|
  {
    if coll == [] then []
    else
      var rest := LoadTimed(coll[1..]);
      assert forall d :: d in coll[1..] ==> d in coll;
      assert forall d :: d in coll ==> d == coll[0] || d in coll[1..];
      (if coll[0].createdAt.Some? then [LoadPayment(coll[0])] else []) + rest
  }

  /** A single document loads to its record when it has a creation time, and to nothing otherwise. */
  lemma LoadTimedSingle(d: PaymentDoc)
    ensures LoadTimed([d]) == if d.createdAt.Some? then [LoadPayment(d)] else []
  {
    assert [d][1..] == [];
  }

  /**
   * Loading keeps collection order and multiplicity: the records of two runs of documents are those of the
   * first followed by those of the second. With `LoadTimedSingle`, this fixes the loaded list exactly.
   */
  lemma {:induction false} LoadTimedConcat(a: seq<PaymentDoc>, b: seq<PaymentDoc>)
    ensures LoadTimed(a + b) == LoadTimed(a) + LoadTimed(b)
    decreases |a|
  {
    if a != [] {
      assert (a + b)[1..] == a[1..] + b;
      LoadTimedConcat(a[1..], b);
    } else {
      assert a + b == b;
    }
  }

  // ---------------------------------------------------------------------------------------------
  // The store
  // ---------------------------------------------------------------------------------------------

  /** A user's collection in the store's map; a user without one has none. */
  function CollectionOf(byUid: map<string, seq<PaymentDoc>>, uid: string): seq<PaymentDoc> {
    if uid in byUid then byUid[uid] else []
  }

  /** The `users/{uid}/payments` collections of the document store, each in insertion order. */
  class PaymentCollections {
    var byUid: map<string, seq<PaymentDoc>>

    constructor (init: map<string, seq<PaymentDoc>>)
      ensures byUid == init
    {
      byUid := init;
    }

    /** A user's collection; a user without one has none. */
    function Of(uid: string): seq<PaymentDoc>
      reads this
    {
      CollectionOf(byUid, uid)
    }
  }

  /** The payments store: the local list with its loading and error flags, and the user's payment collection. */
  class PaymentsStore {
    var payments: seq<Payment>
    var paymentsLoading: bool
    var paymentsError: Option<string>
    const auth: Auth.AuthStore
    const collections: PaymentCollections

    /** The local list is always newest first. */
    ghost predicate Valid()
      reads this
    {
      NewestFirst(payments)
    }

    constructor (auth: Auth.AuthStore, collections: PaymentCollections)
      ensures Valid()
      ensures payments == [] && !paymentsLoading && paymentsError == None
      ensures this.auth == auth && this.collections == collections
    {
      payments := [];
      paymentsLoading := false;
      paymentsError := None;
      this.auth := auth;
      this.collections := collections;
    }

    /**
     * Loads the user's payments, newest first, in place of the local list. Signed out, it only reports
     * that; a failed query (call 0) keeps the list and records the error.
     */
    method FetchPayments(fault: Fault)
      requires Valid()
      modifies this
      ensures Valid() && !paymentsLoading
      ensures auth.state.uid == "" ==> payments == old(payments) && paymentsError == Some(NotAuthenticatedMessage)
      ensures auth.state.uid != "" && fault.FailsAt(0) ==>
                payments == old(payments) && paymentsError == Some(ErrorText(fault.thrown))
      ensures auth.state.uid != "" && !fault.FailsAt(0) ==>
                payments == SortByDate(LoadTimed(collections.Of(auth.state.uid))) && paymentsError == None
    {
      var u := auth.state.uid;
      if u == "" {
        paymentsError, paymentsLoading := Some(NotAuthenticatedMessage), false;
        return;
      }
      paymentsLoading, paymentsError := true, None;
      if fault.FailsAt(0) {
        paymentsError, paymentsLoading := Some(ErrorText(fault.thrown)), false;
        return;
      }
      payments, paymentsLoading := SortByDate(LoadTimed(collections.Of(u))), false;
    }

    /**
     * Records a payment at most once per id: the existence query (call 0) finds any record with the id,
     * whatever its status, and then nothing is written; otherwise one record stamped `now` is added (call 1)
     * and to the local list. Signed out, nothing happens. A failure is rethrown (`raised`) after recording
     * the error. `inserted` tells whether a record was added.
     */
    method AddPayment(payment: NewPayment, now: nat, autoId: string, fault: Fault) returns (raised: bool, inserted: bool)
      requires Valid()
      modifies this, collections
      ensures Valid()
      ensures var u, coll := auth.state.uid, old(collections.Of(auth.state.uid));
        && (inserted <==> u != "" && !fault.FailsAt(0) && !HasId(coll, payment.id) && !fault.FailsAt(1))
        && (raised <==> u != "" && (fault.FailsAt(0) || (!HasId(coll, payment.id) && fault.FailsAt(1))))
      ensures auth.state.uid == "" ==>
                payments == old(payments) && paymentsLoading == old(paymentsLoading) && paymentsError == old(paymentsError)
      ensures auth.state.uid != "" ==> !paymentsLoading
      ensures inserted ==>
                var u, coll := auth.state.uid, old(collections.Of(auth.state.uid));
                var record := Payment(payment.id, payment.amount, Some(now), payment.status);
                && collections.byUid == old(collections.byUid)[u := coll + [PaymentDoc(autoId, Some(payment.id), payment.amount, Some(now), payment.status)]]
                && payments == InsertByDate(old(payments), record)
      ensures !inserted ==> collections.byUid == old(collections.byUid) && payments == old(payments)
      ensures raised ==> paymentsError == Some(ErrorText(fault.thrown))
      ensures !raised ==> paymentsError == old(paymentsError)
    {
      raised, inserted := false, false;
      var u := auth.state.uid;
      if u == "" {
        return;
      }
      paymentsLoading := true;
      if fault.FailsAt(0) {
        paymentsError, paymentsLoading, raised := Some(ErrorText(fault.thrown)), false, true;
        return;
      }
      var coll := collections.Of(u);
      if HasId(coll, payment.id) {
        paymentsLoading := false;
        return;
      }
      if fault.FailsAt(1) {
        paymentsError, paymentsLoading, raised := Some(ErrorText(fault.thrown)), false, true;
        return;
      }
      collections.byUid := collections.byUid[u := coll + [PaymentDoc(autoId, Some(payment.id), payment.amount, Some(now), payment.status)]];
      var record := Payment(payment.id, payment.amount, Some(now), payment.status);
      AppendThenSort(payments, record);
      payments, paymentsLoading := SortByDate(payments + [record]), false;
      inserted := true;
    }

    /**
     * The processed check: the first succeeded record with the id, as stored. Signed out, or when the
     * query fails (call 0; the error is swallowed), the answer is nothing.
     */
    method CheckIfPaymentProcessed(paymentId: string, fault: Fault) returns (r: Option<Payment>)
      ensures auth.state.uid == "" || fault.FailsAt(0) ==> r.None?
      ensures auth.state.uid != "" && !fault.FailsAt(0) ==> r == FindSucceeded(collections.Of(auth.state.uid), paymentId)
    {
      var u := auth.state.uid;
      if u == "" || fault.FailsAt(0) {
        return None;
      }
      r := FindSucceeded(collections.Of(u), paymentId);
    }
  }
}
