/**
 * The profile store and the credit ledger: each user's profile document (`users/{uid}/profile/userData`)
 * holds the authoritative credit balance, and the store keeps an in-memory mirror `profile` for display.
 * A debit is one atomic read-check-decrement; a credit is one atomic increment followed by a re-read.
 */
module Profiles {
  import opened Common
  import Auth

  /** A profile as the application shows it. */
  datatype Profile = Profile(
    email: string,
    contactEmail: string,
    displayName: string,
    photoUrl: string,
    emailVerified: bool,
    credits: int)

  const DefaultProfile := Profile("", "", "", "", false, 0)

  /** The balance a profile starts with, and the one shown in place of a stored balance below `KeptCreditsFloor`. */
  const StartingCredits: int := 1000

  /** The smallest stored balance that a fetched profile shows as it is. */
  const KeptCreditsFloor: int := 100

  /** A stored profile document, or an update to one (`Partial<ProfileType>`): any field may be absent. */
  datatype ProfileDoc = ProfileDoc(
    email: Option<string>,
    contactEmail: Option<string>,
    displayName: Option<string>,
    photoUrl: Option<string>,
    emailVerified: Option<bool>,
    credits: Option<int>)

  /** `{ ...p, ...d }`: the fields present in `d` replace those of `p`. */
  function Overlay(p: Profile, d: ProfileDoc): (r: Profile)
    ensures Auth.Patched(d.email, p.email, r.email) && Auth.Patched(d.contactEmail, p.contactEmail, r.contactEmail)
    ensures Auth.Patched(d.displayName, p.displayName, r.displayName) && Auth.Patched(d.photoUrl, p.photoUrl, r.photoUrl)
    ensures Auth.Patched(d.emailVerified, p.emailVerified, r.emailVerified) && Auth.Patched(d.credits, p.credits, r.credits)
  {
    Profile(
      d.email.GetOr(p.email),
      d.contactEmail.GetOr(p.contactEmail),
      d.displayName.GetOr(p.displayName),
      d.photoUrl.GetOr(p.photoUrl),
      d.emailVerified.GetOr(p.emailVerified),
      d.credits.GetOr(p.credits))
  }

  /** The document holding every field of `p`. */
  function AsDoc(p: Profile): ProfileDoc {
    ProfileDoc(Some(p.email), Some(p.contactEmail), Some(p.displayName), Some(p.photoUrl), Some(p.emailVerified), Some(p.credits))
  }

  /** Writing a whole profile and reading it back over anything gives the profile back. */
  lemma OverlayAsDoc(p: Profile, q: Profile)
    ensures Overlay(q, AsDoc(p)) == p
  {
  }

  /**
   * The profile shown for a stored document: a stored balance is kept only when it is at least
   * `KeptCreditsFloor`, otherwise `StartingCredits` is shown; `email` prefers the signed-in address,
   * `contactEmail`, `displayName` and `photoUrl` prefer the stored values; `emailVerified` is the stored flag.
   */
  function MergeProfileWithDefaults(stored: ProfileDoc, a: Auth.AuthState): (r: Profile)
    ensures r.credits >= KeptCreditsFloor
    ensures stored.credits.Some? && stored.credits.value >= KeptCreditsFloor ==> r.credits == stored.credits.value
    ensures !(stored.credits.Some? && stored.credits.value >= KeptCreditsFloor) ==> r.credits == StartingCredits
    ensures a.authEmail != "" ==> r.email == a.authEmail
    ensures a.authEmail == "" ==> r.email == OrEmpty(stored.email)
    ensures OrEmpty(stored.contactEmail) != "" ==> r.contactEmail == stored.contactEmail.value
    ensures OrEmpty(stored.contactEmail) == "" ==> r.contactEmail == a.authEmail
    ensures OrEmpty(stored.displayName) != "" ==> r.displayName == stored.displayName.value
    ensures OrEmpty(stored.displayName) == "" ==> r.displayName == a.authDisplayName
    ensures OrEmpty(stored.photoUrl) != "" ==> r.photoUrl == stored.photoUrl.value
    ensures OrEmpty(stored.photoUrl) == "" ==> r.photoUrl == a.authPhotoUrl
    ensures r.emailVerified == stored.emailVerified.GetOr(false)
  {
    var base := Overlay(DefaultProfile, stored);
    base.(
      credits := if stored.credits.Some? && stored.credits.value != 0 && stored.credits.value >= KeptCreditsFloor
                 then stored.credits.value else StartingCredits,
      email := OrElse(OrElse(a.authEmail, OrEmpty(stored.email)), ""),
      contactEmail := OrElse(OrElse(OrEmpty(stored.contactEmail), a.authEmail), ""),
      displayName := OrElse(OrElse(OrEmpty(stored.displayName), a.authDisplayName), ""),
      photoUrl := OrElse(OrElse(OrEmpty(stored.photoUrl), a.authPhotoUrl), ""))
  }

  /** Normalising is stable: merging an already merged profile again changes nothing. */
  lemma MergeProfileStable(stored: ProfileDoc, a: Auth.AuthState)
    ensures MergeProfileWithDefaults(AsDoc(MergeProfileWithDefaults(stored, a)), a) == MergeProfileWithDefaults(stored, a)
  {
  }

  /**
   * The shown balance and the stored one part ways below the floor: the mirror shows `StartingCredits`
   * while the document (which fetching does not rewrite) keeps the lower balance that debits are checked against.
   */
  lemma FetchedCreditsDivergeBelowFloor(stored: ProfileDoc, a: Auth.AuthState)
    requires Balance(stored) < KeptCreditsFloor
    ensures MergeProfileWithDefaults(stored, a).credits == StartingCredits
    ensures MergeProfileWithDefaults(stored, a).credits > Balance(stored)
  {
  }

  /** The profile created for a user without a document: the auth details, no contact e-mail, the starting balance. */
  function NewProfile(a: Auth.AuthState): (r: Profile)
    ensures r.credits == StartingCredits && r.contactEmail == ""
    ensures r.email == a.authEmail && r.displayName == a.authDisplayName && r.photoUrl == a.authPhotoUrl
    ensures r.emailVerified == a.authEmailVerified
  {
    Profile(OrElse(a.authEmail, ""), "", OrElse(a.authDisplayName, ""), OrElse(a.authPhotoUrl, ""), a.authEmailVerified, StartingCredits)
  }

  // ---------------------------------------------------------------------------------------------
  // The ledger on one document
  // ---------------------------------------------------------------------------------------------

  /** The stored balance, a missing field counting as 0 (`credits || 0`). */
  function Balance(d: ProfileDoc): (r: int)
    ensures d.credits.Some? ==> r == d.credits.value
    ensures d.credits.None? ==> r == 0
  {
    d.credits.GetOr(0)
  }

  /** The store's atomic increment of `credits` (a missing field counts as 0); nothing else changes. */
  function Increment(d: ProfileDoc, delta: int): (r: ProfileDoc)
    ensures r.credits.Some? && Balance(r) == Balance(d) + delta
    ensures r.(credits := d.credits) == d
  {
    d.(credits := Some(Balance(d) + delta))
  }

  /** The guarded debit: refused when the balance is below `amount`, otherwise exactly `amount` less. */
  function Debit(d: ProfileDoc, amount: int): (r: Option<ProfileDoc>)
    ensures r.Some? <==> Balance(d) >= amount
    ensures r.Some? ==> Balance(r.value) == Balance(d) - amount && Balance(r.value) >= 0
    ensures r.Some? ==> r.value.(credits := d.credits) == d
  {
    if Balance(d) < amount then None else Some(Increment(d, -amount))
  }

  /** With 1000 credits, a debit of 1500 is refused and one of 400 leaves 600. */
  lemma DebitExamples()
    ensures Debit(AsDoc(DefaultProfile.(credits := 1000)), 1500).None?
    ensures var r := Debit(AsDoc(DefaultProfile.(credits := 1000)), 400);
      r.Some? && Balance(r.value) == 600
  {
  }

  function Sum(xs: seq<int>): int
    decreases |xs|
  {
    if xs == [] then 0 else xs[0] + Sum(xs[1..])
  }

  lemma {:induction false} SumConcat(a: seq<int>, b: seq<int>)
    ensures Sum(a + b) == Sum(a) + Sum(b)
    decreases |a|
  {
    if a == [] {
      assert a + b == b;
    } else {
      assert (a + b)[1..] == a[1..] + b;
      SumConcat(a[1..], b);
    }
  }

  lemma {:induction false} SumRemove(ys: seq<int>, k: nat)
    requires k < |ys|
    ensures Sum(ys) == ys[k] + Sum(ys[..k] + ys[k + 1..])
  {
    assert ys == ys[..k] + ([ys[k]] + ys[k + 1..]);
    SumConcat(ys[..k], [ys[k]] + ys[k + 1..]);
    SumConcat(ys[..k], ys[k + 1..]);
    assert ([ys[k]] + ys[k + 1..])[1..] == ys[k + 1..];
  }

  lemma MultisetRemove(ys: seq<int>, k: nat)
    requires k < |ys|
    ensures multiset(ys[..k] + ys[k + 1..]) == multiset(ys) - multiset{ys[k]}
  {
    assert ys == ys[..k] + [ys[k]] + ys[k + 1..];
  }

  /** A permutation of a non-empty list has its first element somewhere, and the rests are permutations too. */
  lemma MatchFirst(xs: seq<int>, ys: seq<int>) returns (k: nat)
    requires xs != [] && multiset(xs) == multiset(ys)
    ensures k < |ys| && ys[k] == xs[0]
    ensures multiset(xs[1..]) == multiset(ys[..k] + ys[k + 1..])
  {
    assert xs[0] in ys by {
      assert xs[0] in multiset(xs);
    }
    k :| 0 <= k < |ys| && ys[k] == xs[0];
    assert multiset(xs[1..]) == multiset(xs) - multiset{xs[0]} by {
      MultisetRemove(xs, 0);
      assert xs[..0] + xs[1..] == xs[1..];
    }
    MultisetRemove(ys, k);
  }

  /** The sum of a list does not depend on its order. */
  lemma {:induction false} SumPermutation(xs: seq<int>, ys: seq<int>)
    requires multiset(xs) == multiset(ys)
    ensures Sum(xs) == Sum(ys)
    decreases |xs|
  {
    if xs == [] {
      assert |ys| == |multiset(ys)| == 0;
    } else {
      var k := MatchFirst(xs, ys);
      SumPermutation(xs[1..], ys[..k] + ys[k + 1..]);
      SumRemove(ys, k);
    }
  }

  /** A run of credits, one increment after another. */
  function CreditSeries(d: ProfileDoc, amounts: seq<int>): ProfileDoc
    decreases |amounts|
  {
    if amounts == [] then d else CreditSeries(Increment(d, amounts[0]), amounts[1..])
  }

  /** A run of credits adds exactly their sum. */
  lemma {:induction false} CreditSeriesBalance(d: ProfileDoc, amounts: seq<int>)
    ensures Balance(CreditSeries(d, amounts)) == Balance(d) + Sum(amounts)
    decreases |amounts|
  {
    if amounts != [] {
      CreditSeriesBalance(Increment(d, amounts[0]), amounts[1..]);
    }
  }

  /** Credits commute: any reordering of the same credits ends at the same balance. */
  lemma CreditsCommute(d: ProfileDoc, xs: seq<int>, ys: seq<int>)
    requires multiset(xs) == multiset(ys)
    ensures Balance(CreditSeries(d, xs)) == Balance(CreditSeries(d, ys))
  {
    CreditSeriesBalance(d, xs);
    CreditSeriesBalance(d, ys);
    SumPermutation(xs, ys);
  }

  /** A run of debit attempts: the final document and the amounts that were accepted, in order. */
  function DebitSeries(d: ProfileDoc, amounts: seq<int>): (ProfileDoc, seq<int>)
    decreases |amounts|
  {
    if amounts == [] then (d, [])
    else match Debit(d, amounts[0])
      case None => DebitSeries(d, amounts[1..])
      case Some(next) =>
        var rest := DebitSeries(next, amounts[1..]);
        (rest.0, [amounts[0]] + rest.1)
  }

  /**
   * After any run of debit attempts the balance is the starting one less the accepted amounts, and a
   * balance that started non-negative is still non-negative: debits never overdraw.
   */
  lemma {:induction false} DebitSeriesBalance(d: ProfileDoc, amounts: seq<int>)
    ensures Balance(DebitSeries(d, amounts).0) == Balance(d) - Sum(DebitSeries(d, amounts).1)
    ensures Balance(d) >= 0 ==> Balance(DebitSeries(d, amounts).0) >= 0
    ensures multiset(DebitSeries(d, amounts).1) <= multiset(amounts)
    decreases |amounts|
  {
    if amounts != [] {
      assert amounts == [amounts[0]] + amounts[1..];
      match Debit(d, amounts[0])
      case None =>
        DebitSeriesBalance(d, amounts[1..]);
      case Some(next) =>
        DebitSeriesBalance(next, amounts[1..]);
    }
  }

  // ---------------------------------------------------------------------------------------------
  // The store
  // ---------------------------------------------------------------------------------------------

  /** The `users/{uid}/profile/userData` documents of the document store. */
  class ProfileDocuments {
    var byUid: map<string, ProfileDoc>

    constructor (init: map<string, ProfileDoc>)
      ensures byUid == init
    {
      byUid := init;
    }
  }

  /** The profile store: the mirror `profile` and the signed-in user's profile document. */
  class ProfileStore {
    var profile: Profile
    const auth: Auth.AuthStore
    const docs: ProfileDocuments

    constructor (auth: Auth.AuthStore, docs: ProfileDocuments)
      ensures profile == DefaultProfile && this.auth == auth && this.docs == docs
    {
      profile := DefaultProfile;
      this.auth := auth;
      this.docs := docs;
    }

    /**
     * Loads the profile into the mirror, normalised; creates the document first when there is none.
     * Calls: 0 reads the document, 1 creates it. A failure is swallowed and leaves everything as it was.
     */
    method FetchProfile(fault: Fault)
      modifies this, docs
      ensures var u, before := auth.state.uid, old(docs.byUid);
        if u == "" || fault.FailsAt(0) then profile == old(profile) && docs.byUid == before
        else if u in before then profile == MergeProfileWithDefaults(before[u], auth.state) && docs.byUid == before
        else if fault.FailsAt(1) then profile == old(profile) && docs.byUid == before
        else profile == NewProfile(auth.state) && docs.byUid == before[u := AsDoc(profile)]
    {
      var u := auth.state.uid;
      if u == "" {
        return;
      }
      if fault.FailsAt(0) {
        return;
      }
      var newProfile;
      if u in docs.byUid {
        newProfile := MergeProfileWithDefaults(docs.byUid[u], auth.state);
      } else {
        newProfile := NewProfile(auth.state);
        if fault.FailsAt(1) {
          return;
        }
        docs.byUid := docs.byUid[u := AsDoc(newProfile)];
      }
      profile := newProfile;
    }

    /**
     * Writes the mirror overlaid with `patch` to the document and to the mirror. The update fails (and is
     * rethrown, `raised`) when the store call fails or the document does not exist.
     */
    method UpdateProfile(patch: ProfileDoc, fault: Fault) returns (raised: bool)
      modifies this, docs
      ensures var u, before := auth.state.uid, old(docs.byUid);
        raised <==> u != "" && (fault.FailsAt(0) || u !in before)
      ensures var u, before, updated := auth.state.uid, old(docs.byUid), Overlay(old(profile), patch);
        if u != "" && !raised then profile == updated && docs.byUid == before[u := AsDoc(updated)]
        else profile == old(profile) && docs.byUid == before
    {
      raised := false;
      var u := auth.state.uid;
      if u == "" {
        return;
      }
      var updated := Overlay(profile, patch);
      if fault.FailsAt(0) || u !in docs.byUid {
        raised := true;
        return;
      }
      docs.byUid := docs.byUid[u := AsDoc(updated)];
      profile := updated;
    }

    /**
     * Spends `amount` credits in one transaction: refused (false, nothing changes) when signed out, when the
     * transaction fails, when the document is missing or when its balance is below `amount`; otherwise the
     * stored balance and the mirror both drop by exactly `amount`.
     */
    method UseCredits(amount: int, fault: Fault) returns (ok: bool)
      modifies this, docs
      ensures var u, before := auth.state.uid, old(docs.byUid);
        ok <==> u != "" && !fault.FailsAt(0) && u in before && Balance(before[u]) >= amount
      ensures ok ==> var u, before := auth.state.uid, old(docs.byUid);
        && docs.byUid == before[u := Debit(before[u], amount).value]
        && Balance(docs.byUid[u]) == Balance(before[u]) - amount >= 0
        && profile == old(profile).(credits := old(profile).credits - amount)
      ensures !ok ==> docs.byUid == old(docs.byUid) && profile == old(profile)
    {
      var u := auth.state.uid;
      if u == "" {
        return false;
      }
      if fault.FailsAt(0) || u !in docs.byUid {
        return false;
      }
      var debited := Debit(docs.byUid[u], amount);
      if debited.None? {
        return false;
      }
      docs.byUid := docs.byUid[u := debited.value];
      profile := profile.(credits := profile.credits - amount);
      ok := true;
    }

    /**
     * Adds `amount` credits with an atomic increment (call 0), then re-reads the document (call 1) and
     * replaces the mirror's balance by the stored one. A failure is rethrown (`raised`); the increment
     * fails on a missing document; a failed re-read leaves the increment applied and the mirror as it was.
     */
    method AddCredits(amount: int, fault: Fault) returns (raised: bool)
      modifies this, docs
      ensures var u, before := auth.state.uid, old(docs.byUid);
        raised <==> u != "" && (fault.FailsAt(0) || u !in before || fault.FailsAt(1))
      ensures var u, before := auth.state.uid, old(docs.byUid);
        if u != "" && !fault.FailsAt(0) && u in before then
          && docs.byUid == before[u := Increment(before[u], amount)]
          && Balance(docs.byUid[u]) == Balance(before[u]) + amount
          && profile == (if fault.FailsAt(1) then old(profile) else old(profile).(credits := Balance(docs.byUid[u])))
        else
          docs.byUid == before && profile == old(profile)
    {
      raised := false;
      var u := auth.state.uid;
      if u == "" {
        return;
      }
      if fault.FailsAt(0) || u !in docs.byUid {
        raised := true;
        return;
      }
      docs.byUid := docs.byUid[u := Increment(docs.byUid[u], amount)];
      if fault.FailsAt(1) {
        raised := true;
        return;
      }
      profile := profile.(credits := Balance(docs.byUid[u]));
    }
  }
}
