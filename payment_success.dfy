/**
 * The payment confirmation page: given a payment intent that the payment processor has validated, it
 * checks whether the payment was already recorded, records it, credits the paid amount plus a bonus, and
 * reports the outcome through `message`, `paymentData`, a toast and the `loading` flag.
 */
module PaymentSuccess {
  import opened Common
  import Auth
  import Payments
  import Profiles

  const NoIntentMessage := "No payment intent found"
  const SignInMessage := "Please sign in to view payment status"
  const AlreadyProcessedMessage := "Payment has already been processed."
  const SuccessMessage := "Payment successful"
  const ValidationFailedMessage := "Payment validation failed"
  const ErrorMessage := "Error validating payment. Please contact support."

  /** Credits granted on top of the paid amount. */
  const BonusCredits: int := 1

  /** A validated payment intent; `created` is in seconds. */
  datatype PaymentIntent = PaymentIntent(id: string, amount: int, created: nat, status: string)

  /** The payment shown on the page; `created` is in milliseconds. */
  datatype PaymentData = PaymentData(id: string, amount: int, created: nat, status: string)

  /** The toast raised after crediting: the credits added, or the request to contact support. */
  datatype Toast = CreditsAdded(credits: int) | RecordedNotCredited

  /** The store failures of one confirmation: the processed check, the recording, the crediting. */
  datatype Faults = Faults(lookup: Fault, record: Fault, credit: Fault)

  function ShownIntent(data: PaymentIntent): PaymentData {
    PaymentData(data.id, data.amount, data.created * 1000, data.status)
  }

  function ShownRecord(p: Payments.Payment): PaymentData {
    PaymentData(p.id, p.amount, Payments.TimeOf(p), p.status)
  }

  /** The document recorded for an intent. */
  function RecordOf(data: PaymentIntent, now: nat, autoId: string): Payments.PaymentDoc {
    Payments.PaymentDoc(autoId, Some(data.id), data.amount, Some(now), data.status)
  }

  // ---------------------------------------------------------------------------------------------
  // The confirmation as a function of the document store
  // ---------------------------------------------------------------------------------------------

  /** What a confirmation reads and writes: every user's payment collection and profile document. */
  datatype Ledger = Ledger(payments: map<string, seq<Payments.PaymentDoc>>, profiles: map<string, Profiles.ProfileDoc>)
  {
    /** A user's payment collection; a user without one has none. */
    function Records(uid: string): seq<Payments.PaymentDoc> {
      Payments.CollectionOf(payments, uid)
    }

    /** A user's stored balance; a user without a document has none. */
    function Balance(uid: string): int {
      if uid in profiles then Profiles.Balance(profiles[uid]) else 0
    }
  }

  /** What the page ends up showing, and the ledger it leaves behind. */
  datatype Outcome = Outcome(message: string, shown: Option<PaymentData>, toast: Option<Toast>, ledger: Ledger)

  /**
   * The checks before anything is written: the outcome when the page stops there, nothing when the
   * payment is to be recorded. A failed processed check reads as "not processed".
   */
  function Precheck(intent: string, uid: string, validation: Option<PaymentIntent>, lookup: Fault, l: Ledger): (r: Option<Outcome>)
    ensures r.Some? ==> r.value.ledger == l && r.value.toast.None? && r.value.message != SuccessMessage
    ensures intent == "" ==> r == Some(Outcome(NoIntentMessage, None, None, l))
    ensures intent != "" && uid == "" ==> r == Some(Outcome(SignInMessage, None, None, l))
    ensures intent != "" && uid != "" && validation.None? ==> r == Some(Outcome(ErrorMessage, None, None, l))
    ensures intent != "" && uid != "" && validation.Some? && validation.value.status != Payments.Succeeded ==>
              r == Some(Outcome(ValidationFailedMessage, None, None, l))
    ensures intent != "" && uid != "" && validation.Some? && validation.value.status == Payments.Succeeded
            && !lookup.FailsAt(0) && Payments.FindSucceeded(l.Records(uid), validation.value.id).Some? ==>
              r == Some(Outcome(AlreadyProcessedMessage, Some(ShownRecord(Payments.FindSucceeded(l.Records(uid), validation.value.id).value)), None, l))
    ensures r.None? <==>
              && intent != "" && uid != "" && validation.Some? && validation.value.status == Payments.Succeeded
              && (lookup.FailsAt(0) || Payments.FindSucceeded(l.Records(uid), validation.value.id).None?)
  {
    if intent == "" then Some(Outcome(NoIntentMessage, None, None, l))
    else if uid == "" then Some(Outcome(SignInMessage, None, None, l))
    else if validation.None? then Some(Outcome(ErrorMessage, None, None, l))
    else if validation.value.status != Payments.Succeeded then Some(Outcome(ValidationFailedMessage, None, None, l))
    else if lookup.FailsAt(0) then None
    else
      var found := Payments.FindSucceeded(l.Records(uid), validation.value.id);
      if found.Some? then Some(Outcome(AlreadyProcessedMessage, Some(ShownRecord(found.value)), None, l)) else None
  }

  /** The recording is rethrown when the existence query fails, or the insert of a new id does. */
  predicate RecordRaises(coll: seq<Payments.PaymentDoc>, id: string, fault: Fault) {
    fault.FailsAt(0) || (!Payments.HasId(coll, id) && fault.FailsAt(1))
  }

  /** The ledger with the intent's record appended to the user's collection. */
  function Recorded(l: Ledger, uid: string, data: PaymentIntent, now: nat, autoId: string): (r: Ledger)
    ensures r.profiles == l.profiles
    ensures r.Records(uid) == l.Records(uid) + [RecordOf(data, now, autoId)]
    ensures forall v :: v != uid ==> r.Records(v) == l.Records(v)
  {
    l.(payments := l.payments[uid := l.Records(uid) + [RecordOf(data, now, autoId)]])
  }

  /** The crediting step and the success report; a failed increment or a missing document credits nothing. */
  function Credit(l: Ledger, uid: string, data: PaymentIntent, fault: Fault): (o: Outcome)
    ensures o.message == SuccessMessage && o.shown == Some(ShownIntent(data)) && o.ledger.payments == l.payments
    ensures var credited := uid in l.profiles && !fault.FailsAt(0);
      && o.ledger.profiles == (if credited then l.profiles[uid := Profiles.Increment(l.profiles[uid], data.amount + BonusCredits)] else l.profiles)
      && o.toast == Some(if credited && !fault.FailsAt(1) then CreditsAdded(data.amount + BonusCredits) else RecordedNotCredited)
    ensures uid in l.profiles && !fault.FailsAt(0) ==> o.ledger.Balance(uid) == l.Balance(uid) + data.amount + BonusCredits
    ensures forall v :: v != uid ==> o.ledger.Balance(v) == l.Balance(v)
  {
    var amount := data.amount + BonusCredits;
    var credited := uid in l.profiles && !fault.FailsAt(0);
    var profiles := if credited then l.profiles[uid := Profiles.Increment(l.profiles[uid], amount)] else l.profiles;
    Outcome(SuccessMessage, Some(ShownIntent(data)), Some(if credited && !fault.FailsAt(1) then CreditsAdded(amount) else RecordedNotCredited),
            l.(profiles := profiles))
  }

  /**
   * What follows the checks, as written: the recording, then the crediting. An id already on record is
   * not recorded again, but still credited.
   */
  function Settle(uid: string, data: PaymentIntent, faults: Faults, now: nat, autoId: string, l: Ledger): (o: Outcome)
    ensures RecordRaises(l.Records(uid), data.id, faults.record) ==> o == Outcome(ErrorMessage, None, None, l)
    ensures !RecordRaises(l.Records(uid), data.id, faults.record) ==>
              && o.message == SuccessMessage && o.shown == Some(ShownIntent(data))
              && o.ledger.Records(uid) == (if Payments.HasId(l.Records(uid), data.id) then l.Records(uid)
                                           else l.Records(uid) + [RecordOf(data, now, autoId)])
              && (uid in l.profiles && !faults.credit.FailsAt(0) ==> o.ledger.Balance(uid) == l.Balance(uid) + data.amount + BonusCredits)
    ensures forall v :: v != uid ==> o.ledger.Records(v) == l.Records(v) && o.ledger.Balance(v) == l.Balance(v)
  {
    var coll := l.Records(uid);
    if RecordRaises(coll, data.id, faults.record) then Outcome(ErrorMessage, None, None, l)
    else if Payments.HasId(coll, data.id) then Credit(l, uid, data, faults.credit)
    else Credit(Recorded(l, uid, data, now, autoId), uid, data, faults.credit)
  }

  /** What follows the checks, crediting at most once: an id already on record is reported as processed. */
  function SettleOnce(uid: string, data: PaymentIntent, faults: Faults, now: nat, autoId: string, l: Ledger): (o: Outcome)
    ensures RecordRaises(l.Records(uid), data.id, faults.record) ==> o == Outcome(ErrorMessage, None, None, l)
    ensures !faults.record.FailsAt(0) && Payments.HasId(l.Records(uid), data.id) ==>
              o == Outcome(AlreadyProcessedMessage, Some(ShownIntent(data)), None, l)
    ensures !RecordRaises(l.Records(uid), data.id, faults.record) && !Payments.HasId(l.Records(uid), data.id) ==>
              && o.message == SuccessMessage && o.shown == Some(ShownIntent(data))
              && o.ledger.Records(uid) == l.Records(uid) + [RecordOf(data, now, autoId)]
              && (uid in l.profiles && !faults.credit.FailsAt(0) ==> o.ledger.Balance(uid) == l.Balance(uid) + data.amount + BonusCredits)
    ensures forall v :: v != uid ==> o.ledger.Records(v) == l.Records(v) && o.ledger.Balance(v) == l.Balance(v)
  {
    var coll := l.Records(uid);
    if RecordRaises(coll, data.id, faults.record) then Outcome(ErrorMessage, None, None, l)
    else if Payments.HasId(coll, data.id) then Outcome(AlreadyProcessedMessage, Some(ShownIntent(data)), None, l)
    else Credit(Recorded(l, uid, data, now, autoId), uid, data, faults.credit)
  }

  /** The confirmation as written. */
  function ConfirmAsWritten(intent: string, uid: string, validation: Option<PaymentIntent>, faults: Faults, now: nat, autoId: string, l: Ledger): (o: Outcome)
    ensures o.message == SuccessMessage <==>
              && Precheck(intent, uid, validation, faults.lookup, l).None?
              && !RecordRaises(l.Records(uid), validation.value.id, faults.record)
    ensures o.ledger != l ==> o.message == SuccessMessage && validation.Some? && validation.value.status == Payments.Succeeded
    ensures forall v :: v != uid ==> o.ledger.Records(v) == l.Records(v) && o.ledger.Balance(v) == l.Balance(v)
  {
    var early := Precheck(intent, uid, validation, faults.lookup, l);
    if early.Some? then early.value else Settle(uid, validation.value, faults, now, autoId, l)
  }

  /** The confirmation with at-most-once crediting. */
  function Confirm(intent: string, uid: string, validation: Option<PaymentIntent>, faults: Faults, now: nat, autoId: string, l: Ledger): (o: Outcome)
    ensures o.message == SuccessMessage <==>
              && Precheck(intent, uid, validation, faults.lookup, l).None?
              && !RecordRaises(l.Records(uid), validation.value.id, faults.record)
              && !Payments.HasId(l.Records(uid), validation.value.id)
    ensures o.ledger != l ==>
              && o.message == SuccessMessage && validation.Some? && validation.value.status == Payments.Succeeded
              && !Payments.HasId(l.Records(uid), validation.value.id)
              && o.ledger.Records(uid) == l.Records(uid) + [RecordOf(validation.value, now, autoId)]
    ensures forall v :: v != uid ==> o.ledger.Records(v) == l.Records(v) && o.ledger.Balance(v) == l.Balance(v)
  {
    var early := Precheck(intent, uid, validation, faults.lookup, l);
    if early.Some? then early.value else SettleOnce(uid, validation.value, faults, now, autoId, l)
  }

  /** For a payment not yet on record the two confirmations agree. */
  lemma ConfirmAgreesOnNewPayments(intent: string, uid: string, data: PaymentIntent, faults: Faults, now: nat, autoId: string, l: Ledger)
    requires !Payments.HasId(l.Records(uid), data.id)
    ensures Confirm(intent, uid, Some(data), faults, now, autoId, l) == ConfirmAsWritten(intent, uid, Some(data), faults, now, autoId, l)
  {
  }

  /**
   * The success path: when nothing fails, a succeeded payment whose id is not on record is recorded once
   * and credited by exactly the amount plus the bonus, in both confirmations; a second run then finds the
   * record and reports the payment as processed, changing nothing.
   */
  lemma FreshPaymentConfirmed(intent: string, uid: string, data: PaymentIntent, now1: nat, now2: nat, autoId1: string, autoId2: string, l: Ledger)
    requires intent != "" && uid != "" && data.status == Payments.Succeeded
    requires !Payments.HasId(l.Records(uid), data.id) && uid in l.profiles
    ensures var o := ConfirmAsWritten(intent, uid, Some(data), NoFaults, now1, autoId1, l);
      && o == Confirm(intent, uid, Some(data), NoFaults, now1, autoId1, l)
      && o.message == SuccessMessage && o.shown == Some(ShownIntent(data))
      && o.toast == Some(CreditsAdded(data.amount + BonusCredits))
      && o.ledger.Records(uid) == l.Records(uid) + [RecordOf(data, now1, autoId1)]
      && o.ledger.Balance(uid) == l.Balance(uid) + data.amount + BonusCredits
    ensures var l1 := Confirm(intent, uid, Some(data), NoFaults, now1, autoId1, l).ledger;
      && ConfirmAsWritten(intent, uid, Some(data), NoFaults, now2, autoId2, l1)
         == Outcome(AlreadyProcessedMessage, Some(ShownRecord(Payments.AsPayment(RecordOf(data, now1, autoId1)))), None, l1)
      && Confirm(intent, uid, Some(data), NoFaults, now2, autoId2, l1)
         == Outcome(AlreadyProcessedMessage, Some(ShownRecord(Payments.AsPayment(RecordOf(data, now1, autoId1)))), None, l1)
  {
    var coll, rec := l.Records(uid), RecordOf(data, now1, autoId1);
    assert Payments.FindSucceeded(coll, data.id).None?;
    ConfirmAgreesOnNewPayments(intent, uid, data, NoFaults, now1, autoId1, l);
    var l1 := Confirm(intent, uid, Some(data), NoFaults, now1, autoId1, l).ledger;
    assert l1.Records(uid) == coll + [rec];
    Payments.FindRecorded(coll, rec, data.id);
  }

  /**
   * A confirmation that changes a balance has just recorded the payment: the id was not on record
   * before, and its one record is appended; the balance grows by the amount plus the bonus.
   */
  lemma ConfirmCreditsOnlyNewRecords(intent: string, uid: string, data: PaymentIntent, faults: Faults, now: nat, autoId: string, l: Ledger)
    requires Confirm(intent, uid, Some(data), faults, now, autoId, l).ledger.profiles != l.profiles
    ensures !Payments.HasId(l.Records(uid), data.id)
    ensures var o := Confirm(intent, uid, Some(data), faults, now, autoId, l);
      && o.ledger.Records(uid) == l.Records(uid) + [RecordOf(data, now, autoId)]
      && o.ledger.Balance(uid) == l.Balance(uid) + data.amount + BonusCredits
  {
  }

  /**
   * Running the confirmation twice for one succeeded payment, whatever fails in either run, credits it
   * at most once, by the amount plus the bonus, and leaves at most one record of a new id; a payment
   * already on record is neither recorded again nor credited.
   */
  lemma {:induction false} ConfirmTwiceCreditsOnce(
    intent: string, uid: string, data: PaymentIntent, first: Faults, second: Faults,
    now1: nat, now2: nat, autoId1: string, autoId2: string, l: Ledger)
    requires data.status == Payments.Succeeded
    ensures var l2 := Confirm(intent, uid, Some(data), second, now2, autoId2, Confirm(intent, uid, Some(data), first, now1, autoId1, l).ledger).ledger;
      && (l2.profiles == l.profiles
          || (uid in l.profiles && l2.profiles == l.profiles[uid := Profiles.Increment(l.profiles[uid], data.amount + BonusCredits)]))
      && (Payments.HasId(l.Records(uid), data.id) ==> l2.profiles == l.profiles && l2.Records(uid) == l.Records(uid))
      && (Payments.CountId(l.Records(uid), data.id) == 0 ==> Payments.CountId(l2.Records(uid), data.id) <= 1)
  {
    var o1 := Confirm(intent, uid, Some(data), first, now1, autoId1, l);
    var l1 := o1.ledger;
    var l2 := Confirm(intent, uid, Some(data), second, now2, autoId2, l1).ledger;
    var coll := l.Records(uid);
    Payments.CountIdZero(coll, data.id);
    if l1.Records(uid) != coll {
      // The first run recorded the payment, so the second finds the id and credits nothing.
      var rec := RecordOf(data, now1, autoId1);
      assert l1.Records(uid) == coll + [rec];
      assert l1.Records(uid)[|coll|].id == Some(data.id);
      assert Payments.HasId(l1.Records(uid), data.id);
      assert l2.profiles == l1.profiles && l2.Records(uid) == l1.Records(uid);
      Payments.CountIdAppend(coll, rec, data.id);
    } else {
      assert l1.profiles == l.profiles;
      if l2.Records(uid) != l1.Records(uid) {
        Payments.CountIdAppend(coll, RecordOf(data, now2, autoId2), data.id);
      }
    }
  }

  /**
   * The as-written confirmation is idempotent when nothing with the id was on record and the second
   * run's processed check answers: a second run after one that recorded the payment reports it as
   * processed, so the payment is credited at most once and recorded at most once.
   */
  lemma AsWrittenTwiceWhenLookupAnswers(
    intent: string, uid: string, data: PaymentIntent, first: Faults, second: Faults,
    now1: nat, now2: nat, autoId1: string, autoId2: string, l: Ledger)
    requires data.status == Payments.Succeeded
    requires !Payments.HasId(l.Records(uid), data.id)
    requires !second.lookup.FailsAt(0)
    ensures var o1 := ConfirmAsWritten(intent, uid, Some(data), first, now1, autoId1, l);
            var o2 := ConfirmAsWritten(intent, uid, Some(data), second, now2, autoId2, o1.ledger);
      && (o1.ledger.Records(uid) != l.Records(uid) ==>
            o2.message == AlreadyProcessedMessage && o2.ledger == o1.ledger)
      && (o2.ledger.profiles == l.profiles
          || (uid in l.profiles && o2.ledger.profiles == l.profiles[uid := Profiles.Increment(l.profiles[uid], data.amount + BonusCredits)]))
      && Payments.CountId(o2.ledger.Records(uid), data.id) <= 1
  {
    var coll := l.Records(uid);
    var o1 := ConfirmAsWritten(intent, uid, Some(data), first, now1, autoId1, l);
    var o2 := ConfirmAsWritten(intent, uid, Some(data), second, now2, autoId2, o1.ledger);
    Payments.CountIdZero(coll, data.id);
    if o1.ledger.Records(uid) != coll {
      var rec := RecordOf(data, now1, autoId1);
      assert o1.ledger.Records(uid) == coll + [rec];
      Payments.FindRecorded(coll, rec, data.id);
      Payments.CountIdAppend(coll, rec, data.id);
    } else {
      assert o1.ledger.profiles == l.profiles;
      ConfirmAgreesOnNewPayments(intent, uid, data, second, now2, autoId2, o1.ledger);
      if o2.ledger.Records(uid) != coll {
        Payments.CountIdAppend(coll, RecordOf(data, now2, autoId2), data.id);
      }
    }
  }

  /** A payment whose validated status is not "succeeded" is neither recorded nor credited. */
  lemma UnsucceededChangesNothing(intent: string, uid: string, data: PaymentIntent, faults: Faults, now: nat, autoId: string, l: Ledger)
    requires intent != "" && uid != "" && data.status != Payments.Succeeded
    ensures ConfirmAsWritten(intent, uid, Some(data), faults, now, autoId, l) == Outcome(ValidationFailedMessage, None, None, l)
    ensures Confirm(intent, uid, Some(data), faults, now, autoId, l) == Outcome(ValidationFailedMessage, None, None, l)
  {
  }

  /**
   * The as-written confirmation credits a payment that is already on record whenever the processed check
   * misses it: when that check fails, or when the record has not succeeded.
   */
  lemma AsWrittenCreditsRecordedPayment(intent: string, uid: string, data: PaymentIntent, faults: Faults, now: nat, autoId: string, l: Ledger)
    requires intent != "" && uid != "" && data.status == Payments.Succeeded
    requires Payments.HasId(l.Records(uid), data.id)
    requires faults.lookup.FailsAt(0) || Payments.FindSucceeded(l.Records(uid), data.id).None?
    requires !faults.record.FailsAt(0) && !faults.credit.FailsAt(0) && uid in l.profiles
    ensures var o := ConfirmAsWritten(intent, uid, Some(data), faults, now, autoId, l);
      && o.message == SuccessMessage
      && o.ledger.payments == l.payments
      && o.ledger.Balance(uid) == l.Balance(uid) + data.amount + BonusCredits
    ensures Confirm(intent, uid, Some(data), faults, now, autoId, l).ledger == l
  {
  }

  class PaymentSuccessPage {
    var message: string
    var loading: bool
    var paymentData: Option<PaymentData>
    var toast: Option<Toast>
    const auth: Auth.AuthStore
    const payments: Payments.PaymentsStore
    const profiles: Profiles.ProfileStore

    /** Both stores answer to the same signed-in user. */
    ghost predicate Valid()
      reads this, payments
    {
      payments.auth == auth && profiles.auth == auth && payments.Valid()
    }

    /** A freshly mounted page is loading and shows nothing yet. */
    constructor (auth: Auth.AuthStore, payments: Payments.PaymentsStore, profiles: Profiles.ProfileStore)
      requires payments.auth == auth && profiles.auth == auth && payments.Valid()
      ensures Valid()
      ensures message == "" && loading && paymentData.None? && toast.None?
      ensures this.auth == auth && this.payments == payments && this.profiles == profiles
    {
      message, loading, paymentData, toast := "", true, None, None;
      this.auth, this.payments, this.profiles := auth, payments, profiles;
    }

    /**
     * The checks before anything is written (the intent, the signed-in user, the validation answer, its
     * status, the processed check). `proceed` when the payment is to be recorded; otherwise the page
     * shows the outcome of the checks and stops loading.
     */
    method Screen(paymentIntent: string, validation: Option<PaymentIntent>, lookup: Fault) returns (proceed: bool)
      requires Valid()
      modifies this
      ensures Valid()
      ensures var e := Precheck(paymentIntent, auth.state.uid, validation, lookup, Ledger(payments.collections.byUid, profiles.docs.byUid));
        && (proceed <==> e.None?)
        && (proceed ==> message == old(message) && loading == old(loading) && paymentData == old(paymentData))
        && (!proceed ==> message == e.value.message && !loading
                          && paymentData == (if e.value.shown.Some? then e.value.shown else old(paymentData)))
        && toast == old(toast)
    {
      if paymentIntent == "" {
        message, loading := NoIntentMessage, false;
        return false;
      }
      if auth.state.uid == "" {
        message, loading := SignInMessage, false;
        return false;
      }
      if validation.None? {
        message, loading := ErrorMessage, false;
        return false;
      }
      var data := validation.value;
      if data.status != Payments.Succeeded {
        message, loading := ValidationFailedMessage, false;
        return false;
      }
      var existing := payments.CheckIfPaymentProcessed(data.id, lookup);
      if existing.Some? {
        message, paymentData, loading := AlreadyProcessedMessage, Some(ShownRecord(existing.value)), false;
        return false;
      }
      return true;
    }

    /** Records the payment, then credits the amount plus the bonus, as written. */
    method RecordAndCredit(data: PaymentIntent, faults: Faults, now: nat, autoId: string)
      requires Valid() && auth.state.uid != ""
      modifies this, payments, payments.collections, profiles, profiles.docs
      ensures Valid() && !loading
      ensures var o := Settle(auth.state.uid, data, faults, now, autoId, old(Ledger(payments.collections.byUid, profiles.docs.byUid)));
        && message == o.message
        && paymentData == (if o.shown.Some? then o.shown else old(paymentData))
        && toast == (if o.toast.Some? then o.toast else old(toast))
        && payments.collections.byUid == o.ledger.payments
        && profiles.docs.byUid == o.ledger.profiles
    {
      ghost var l, u := Ledger(payments.collections.byUid, profiles.docs.byUid), auth.state.uid;
      ghost var o := Settle(u, data, faults, now, autoId, l);
      var raised, inserted := payments.AddPayment(Payments.NewPayment(data.id, data.amount, data.status), now, autoId, faults.record);
      assert payments.collections.byUid == if inserted then Recorded(l, u, data, now, autoId).payments else l.payments;
      if raised {
        message, loading := ErrorMessage, false;
        return;
      }
      var creditsToAdd := data.amount + BonusCredits;
      var creditRaised := profiles.AddCredits(creditsToAdd, faults.credit);
      toast := Some(if creditRaised then RecordedNotCredited else CreditsAdded(creditsToAdd));
      message, paymentData, loading := SuccessMessage, Some(ShownIntent(data)), false;
    }

    /**
     * Records the payment and credits it only when this run inserted the record; a recording that found
     * the id already present is reported as processed.
     */
    method RecordAndCreditOnce(data: PaymentIntent, faults: Faults, now: nat, autoId: string)
      requires Valid() && auth.state.uid != ""
      modifies this, payments, payments.collections, profiles, profiles.docs
      ensures Valid() && !loading
      ensures var o := SettleOnce(auth.state.uid, data, faults, now, autoId, old(Ledger(payments.collections.byUid, profiles.docs.byUid)));
        && message == o.message
        && paymentData == (if o.shown.Some? then o.shown else old(paymentData))
        && toast == (if o.toast.Some? then o.toast else old(toast))
        && payments.collections.byUid == o.ledger.payments
        && profiles.docs.byUid == o.ledger.profiles
    {
      ghost var l, u := Ledger(payments.collections.byUid, profiles.docs.byUid), auth.state.uid;
      ghost var o := SettleOnce(u, data, faults, now, autoId, l);
      var raised, inserted := payments.AddPayment(Payments.NewPayment(data.id, data.amount, data.status), now, autoId, faults.record);
      assert payments.collections.byUid == if inserted then Recorded(l, u, data, now, autoId).payments else l.payments;
      if raised {
        message, loading := ErrorMessage, false;
        return;
      }
      if !inserted {
        message, paymentData, loading := AlreadyProcessedMessage, Some(ShownIntent(data)), false;
        return;
      }
      var creditsToAdd := data.amount + BonusCredits;
      var creditRaised := profiles.AddCredits(creditsToAdd, faults.credit);
      toast := Some(if creditRaised then RecordedNotCredited else CreditsAdded(creditsToAdd));
      message, paymentData, loading := SuccessMessage, Some(ShownIntent(data)), false;
    }

    /**
     * The confirmation as written. `validation` is the processor's answer for `paymentIntent` (nothing when
     * the validation call fails). A failed processed check counts as "not processed"; an existing record
     * makes the recording a silent no-op, and the crediting still follows.
     */
    method HandlePaymentSuccess(paymentIntent: string, validation: Option<PaymentIntent>, faults: Faults, now: nat, autoId: string)
      requires Valid()
      modifies this, payments, payments.collections, profiles, profiles.docs
      ensures Valid() && !loading
      ensures var o := ConfirmAsWritten(paymentIntent, auth.state.uid, validation, faults, now, autoId,
                          old(Ledger(payments.collections.byUid, profiles.docs.byUid)));
        && message == o.message
        && paymentData == (if o.shown.Some? then o.shown else old(paymentData))
        && toast == (if o.toast.Some? then o.toast else old(toast))
        && payments.collections.byUid == o.ledger.payments
        && profiles.docs.byUid == o.ledger.profiles
    {
      var proceed := Screen(paymentIntent, validation, faults.lookup);
      if proceed {
        RecordAndCredit(validation.value, faults, now, autoId);
      }
    }

    /**
     * The confirmation with at-most-once crediting: a recording that found the id already present is
     * treated as "already processed", so credits follow only the run that inserted the record.
     */
    method HandlePaymentSuccessOnce(paymentIntent: string, validation: Option<PaymentIntent>, faults: Faults, now: nat, autoId: string)
      requires Valid()
      modifies this, payments, payments.collections, profiles, profiles.docs
      ensures Valid() && !loading
      ensures var o := Confirm(paymentIntent, auth.state.uid, validation, faults, now, autoId,
                          old(Ledger(payments.collections.byUid, profiles.docs.byUid)));
        && message == o.message
        && paymentData == (if o.shown.Some? then o.shown else old(paymentData))
        && toast == (if o.toast.Some? then o.toast else old(toast))
        && payments.collections.byUid == o.ledger.payments
        && profiles.docs.byUid == o.ledger.profiles
    {
      var proceed := Screen(paymentIntent, validation, faults.lookup);
      if proceed {
        RecordAndCreditOnce(validation.value, faults, now, autoId);
      }
    }
  }

  /** One user, `u1`, with a profile document holding no credits and no payments on record. */
  const Start := Ledger(map[], map["u1" := Profiles.AsDoc(Profiles.DefaultProfile)])

  /** A succeeded payment of 10000. */
  const Paid := PaymentIntent("pi_abc", 10000, 1700000000, Payments.Succeeded)

  const NoFaults := Faults(NoFault, NoFault, NoFault)

  /** The second run's processed check fails. */
  const LookupFails := Faults(Fails(0, NonError), NoFault, NoFault)

  /**
   * The double credit of the confirmation as written: the first run records `pi_abc` and credits
   * 10000 + 1; in a second run the processed check fails and reads as "not processed", the recording
   * finds the id and does nothing, and the credit is applied again.
   */
  lemma DoubleCreditAsWritten()
    ensures var o1 := ConfirmAsWritten("pi_abc", "u1", Some(Paid), NoFaults, 1000, "d1", Start);
            var o2 := ConfirmAsWritten("pi_abc", "u1", Some(Paid), LookupFails, 2000, "d2", o1.ledger);
            && o1.ledger.Balance("u1") == 10001
            && o2.ledger.Balance("u1") == 20002 && o2.toast == Some(CreditsAdded(10001))
            && Payments.CountId(o2.ledger.Records("u1"), "pi_abc") == 1
  {
    var o1 := ConfirmAsWritten("pi_abc", "u1", Some(Paid), NoFaults, 1000, "d1", Start);
    assert !Payments.HasId(Start.Records("u1"), "pi_abc");
    assert o1.ledger.Records("u1") == [RecordOf(Paid, 1000, "d1")];
    assert Payments.HasId(o1.ledger.Records("u1"), "pi_abc") by {
      assert o1.ledger.Records("u1")[0].id == Some("pi_abc");
    }
    assert Payments.CountId(o1.ledger.Records("u1"), "pi_abc") == 1 by {
      assert o1.ledger.Records("u1")[1..] == [];
    }
  }

  /** The same two runs with at-most-once crediting: the second reports the payment as processed and credits nothing. */
  lemma SingleCreditOnce()
    ensures var o1 := Confirm("pi_abc", "u1", Some(Paid), NoFaults, 1000, "d1", Start);
            var o2 := Confirm("pi_abc", "u1", Some(Paid), LookupFails, 2000, "d2", o1.ledger);
            && o1.ledger.Balance("u1") == 10001
            && o2.ledger.Balance("u1") == 10001 && o2.message == AlreadyProcessedMessage
            && Payments.CountId(o2.ledger.Records("u1"), "pi_abc") == 1
  {
    var o1 := Confirm("pi_abc", "u1", Some(Paid), NoFaults, 1000, "d1", Start);
    assert !Payments.HasId(Start.Records("u1"), "pi_abc");
    assert o1.ledger.Records("u1") == [RecordOf(Paid, 1000, "d1")];
    assert Payments.HasId(o1.ledger.Records("u1"), "pi_abc") by {
      assert o1.ledger.Records("u1")[0].id == Some("pi_abc");
    }
    assert Payments.CountId(o1.ledger.Records("u1"), "pi_abc") == 1 by {
      assert o1.ledger.Records("u1")[1..] == [];
    }
  }
}
