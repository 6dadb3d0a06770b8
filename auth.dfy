/**
 * The authentication state container: the signed-in user's details, a merge-update that also writes a
 * sanitised copy to the user's document, and a reset to the signed-out defaults. Its `uid` gates every
 * operation of the credit ledger.
 */
module Auth {
  import opened Common

  /** The container's fields; `lastSignIn` is a timestamp in milliseconds. */
  datatype AuthState = AuthState(
    uid: string,
    firebaseUid: string,
    authEmail: string,
    authDisplayName: string,
    authPhotoUrl: string,
    authEmailVerified: bool,
    authReady: bool,
    authPending: bool,
    isAdmin: bool,
    isAllowed: bool,
    isInvited: bool,
    lastSignIn: Option<nat>,
    premium: bool,
    credits: int)

  /** The signed-out state: empty strings, false flags, no last sign-in, no credits. */
  const DefaultAuthState := AuthState("", "", "", "", "", false, false, false, false, false, false, None, false, 0)

  /** An update that names some of the fields (`Partial<AuthState>`); an absent field is left alone. */
  datatype AuthPatch = AuthPatch(
    uid: Option<string>,
    firebaseUid: Option<string>,
    authEmail: Option<string>,
    authDisplayName: Option<string>,
    authPhotoUrl: Option<string>,
    authEmailVerified: Option<bool>,
    authReady: Option<bool>,
    authPending: Option<bool>,
    isAdmin: Option<bool>,
    isAllowed: Option<bool>,
    isInvited: Option<bool>,
    lastSignIn: Option<Option<nat>>,
    premium: Option<bool>,
    credits: Option<int>)

  const EmptyPatch := AuthPatch(None, None, None, None, None, None, None, None, None, None, None, None, None, None)

  /** The document written to `users/{uid}`: every field but `uid`, with `lastSignIn` set by the server. */
  datatype UserDoc = UserDoc(
    firebaseUid: string,
    authEmail: string,
    authDisplayName: string,
    authPhotoUrl: string,
    authEmailVerified: bool,
    authReady: bool,
    authPending: bool,
    isAdmin: bool,
    isAllowed: bool,
    isInvited: bool,
    premium: bool,
    credits: int,
    lastSignIn: nat)

  /** A patched field: the patch's value when it names one, the old value otherwise. */
  predicate Patched<T(==)>(patch: Option<T>, before: T, after: T) {
    after == if patch.Some? then patch.value else before
  }

  /** `{ ...s, ...p }`: the state with the patch's fields spread over it. */
  function Merge(s: AuthState, p: AuthPatch): AuthState
  {
    AuthState(
      p.uid.GetOr(s.uid),
      p.firebaseUid.GetOr(s.firebaseUid),
      p.authEmail.GetOr(s.authEmail),
      p.authDisplayName.GetOr(s.authDisplayName),
      p.authPhotoUrl.GetOr(s.authPhotoUrl),
      p.authEmailVerified.GetOr(s.authEmailVerified),
      p.authReady.GetOr(s.authReady),
      p.authPending.GetOr(s.authPending),
      p.isAdmin.GetOr(s.isAdmin),
      p.isAllowed.GetOr(s.isAllowed),
      p.isInvited.GetOr(s.isInvited),
      p.lastSignIn.GetOr(s.lastSignIn),
      p.premium.GetOr(s.premium),
      p.credits.GetOr(s.credits))
  }

  /** Every field the patch names takes the new value, every other field keeps its old one. */
  lemma MergePatches(s: AuthState, p: AuthPatch)
    ensures Patched(p.uid, s.uid, Merge(s, p).uid)
    ensures Patched(p.firebaseUid, s.firebaseUid, Merge(s, p).firebaseUid)
    ensures Patched(p.authEmail, s.authEmail, Merge(s, p).authEmail)
    ensures Patched(p.authDisplayName, s.authDisplayName, Merge(s, p).authDisplayName)
    ensures Patched(p.authPhotoUrl, s.authPhotoUrl, Merge(s, p).authPhotoUrl)
    ensures Patched(p.authEmailVerified, s.authEmailVerified, Merge(s, p).authEmailVerified)
    ensures Patched(p.authReady, s.authReady, Merge(s, p).authReady)
    ensures Patched(p.authPending, s.authPending, Merge(s, p).authPending)
    ensures Patched(p.isAdmin, s.isAdmin, Merge(s, p).isAdmin)
    ensures Patched(p.isAllowed, s.isAllowed, Merge(s, p).isAllowed)
    ensures Patched(p.isInvited, s.isInvited, Merge(s, p).isInvited)
    ensures Patched(p.lastSignIn, s.lastSignIn, Merge(s, p).lastSignIn)
    ensures Patched(p.premium, s.premium, Merge(s, p).premium)
    ensures Patched(p.credits, s.credits, Merge(s, p).credits)
  {
  }

  /** The patch that names every field with the value it has in `s`. */
  function FullPatch(s: AuthState): AuthPatch {
    AuthPatch(
      Some(s.uid), Some(s.firebaseUid), Some(s.authEmail), Some(s.authDisplayName), Some(s.authPhotoUrl),
      Some(s.authEmailVerified), Some(s.authReady), Some(s.authPending), Some(s.isAdmin), Some(s.isAllowed),
      Some(s.isInvited), Some(s.lastSignIn), Some(s.premium), Some(s.credits))
  }

  /** `q` applied after `p`: the fields `q` names win. */
  function Then(p: AuthPatch, q: AuthPatch): AuthPatch {
    AuthPatch(
      if q.uid.Some? then q.uid else p.uid,
      if q.firebaseUid.Some? then q.firebaseUid else p.firebaseUid,
      if q.authEmail.Some? then q.authEmail else p.authEmail,
      if q.authDisplayName.Some? then q.authDisplayName else p.authDisplayName,
      if q.authPhotoUrl.Some? then q.authPhotoUrl else p.authPhotoUrl,
      if q.authEmailVerified.Some? then q.authEmailVerified else p.authEmailVerified,
      if q.authReady.Some? then q.authReady else p.authReady,
      if q.authPending.Some? then q.authPending else p.authPending,
      if q.isAdmin.Some? then q.isAdmin else p.isAdmin,
      if q.isAllowed.Some? then q.isAllowed else p.isAllowed,
      if q.isInvited.Some? then q.isInvited else p.isInvited,
      if q.lastSignIn.Some? then q.lastSignIn else p.lastSignIn,
      if q.premium.Some? then q.premium else p.premium,
      if q.credits.Some? then q.credits else p.credits)
  }

  /** An update naming no field changes nothing. */
  lemma MergeEmpty(s: AuthState)
    ensures Merge(s, EmptyPatch) == s
  {
  }

  /** Repeating an update changes nothing more. */
  lemma MergeIdempotent(s: AuthState, p: AuthPatch)
    ensures Merge(Merge(s, p), p) == Merge(s, p)
  {
  }

  /** Two updates in a row are one update with the later one's fields winning. */
  lemma MergeThen(s: AuthState, p: AuthPatch, q: AuthPatch)
    ensures Merge(Merge(s, p), q) == Merge(s, Then(p, q))
  {
  }

  /** Setting every field to its default is the same as the reset. */
  lemma MergeFullDefaultIsReset(s: AuthState)
    ensures Merge(s, FullPatch(DefaultAuthState)) == DefaultAuthState
  {
  }

  /** The sanitised copy written to the user's document. */
  function SanitizedDetails(s: AuthState, serverTime: nat): (r: UserDoc)
    ensures r.lastSignIn == serverTime
    ensures r.firebaseUid == s.firebaseUid && r.authEmail == s.authEmail && r.authDisplayName == s.authDisplayName
    ensures r.authPhotoUrl == s.authPhotoUrl && r.authEmailVerified == s.authEmailVerified
    ensures r.authReady == s.authReady && r.authPending == s.authPending && r.isAdmin == s.isAdmin
    ensures r.isAllowed == s.isAllowed && r.isInvited == s.isInvited && r.premium == s.premium
    ensures r.credits == s.credits
  {
    UserDoc(
      s.firebaseUid, s.authEmail, s.authDisplayName, s.authPhotoUrl, s.authEmailVerified, s.authReady,
      s.authPending, s.isAdmin, s.isAllowed, s.isInvited, s.premium, s.credits, serverTime)
  }

  /** The written document depends neither on `uid` nor on the `lastSignIn` the state holds. */
  lemma SanitizedIgnoresUidAndLastSignIn(s: AuthState, uid: string, lastSignIn: Option<nat>, serverTime: nat)
    ensures SanitizedDetails(s.(uid := uid, lastSignIn := lastSignIn), serverTime) == SanitizedDetails(s, serverTime)
  {
  }

  /** The `users/{uid}` documents of the document store. */
  class UserDocuments {
    var byUid: map<string, UserDoc>

    constructor (init: map<string, UserDoc>)
      ensures byUid == init
    {
      byUid := init;
    }
  }

  /** The authentication store. */
  class AuthStore {
    var state: AuthState
    const users: UserDocuments

    /** A new store starts signed out. */
    constructor (users: UserDocuments)
      ensures state == DefaultAuthState && this.users == users
    {
      state := DefaultAuthState;
      this.users := users;
    }

    /**
     * Merges `details` into the state, then, when the merged state has a `uid`, writes its sanitised copy
     * (merged into `users/{uid}`, every field given). A failed write is swallowed: the state stays updated.
     */
    method SetAuthDetails(details: AuthPatch, serverTime: nat, fault: Fault)
      modifies this, users
      ensures state == Merge(old(state), details)
      ensures users.byUid == if state.uid != "" && !fault.FailsAt(0)
                             then old(users.byUid)[state.uid := SanitizedDetails(state, serverTime)]
                             else old(users.byUid)
    {
      state := Merge(state, details);
      if state.uid != "" {
        if !fault.FailsAt(0) {
          users.byUid := users.byUid[state.uid := SanitizedDetails(state, serverTime)];
        }
      }
    }

    /** Signs out: every field returns to its default; no document is written. */
    method ClearAuthDetails()
      modifies this
      ensures state == DefaultAuthState
    {
      state := DefaultAuthState;
    }
  }
}
