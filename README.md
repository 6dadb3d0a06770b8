# Credit ledger and payment confirmation of ragie-api-demo, in Dafny

ragie-api-demo is a Next.js demo built around the Ragie retrieval API. Its users hold a credit balance. They buy credits with a card payment and spend them on queries. This project models the client-side logic behind that balance, plus two small self-contained pieces:

- **Auth store** (`Auth`): the signed-in user's details. It has a merge-update that also writes a sanitised copy to the user's document, and a reset to the signed-out defaults. Its `uid` gates every ledger operation.
- **Profile store** (`Profiles`): the credit ledger. It covers:
  - the persisted profile document, and the in-memory `profile` mirror of it;
  - the normalisation of a fetched profile, including the rule that resets a balance below 100 to 1000;
  - profile updates;
  - the guarded debit `useCredits`;
  - the increment `addCredits`, after which the mirror takes the re-read balance.
- **Payments store** (`Payments`): the per-user payment log. It covers:
  - the local list, kept newest first;
  - loading the log;
  - recording a payment at most once per id;
  - the "already processed" query.
- **Payment confirmation page** (`PaymentSuccess`): the `handlePaymentSuccess` effect. In order it:
  1. checks the validated status;
  2. stops if the payment was already processed;
  3. records the payment;
  4. credits the amount plus a bonus of 1;
  5. reports one of the distinct outcomes.
- **Ragie error classification** (`RagieErrors`): pure functions. They map an HTTP status to an error code and a user message, pick the detail text from a JSON body or the raw text, and truncate strings.

## How the system is modelled

- **Stores.** Each store is a `class` whose fields are the store's fields. Its methods update them in place, with `modifies` clauses.
- **Document collections.** The document store's collections are small classes holding maps keyed by user id: `Auth.UserDocuments`, `Profiles.ProfileDocuments` and `Payments.PaymentCollections`.
- **Store call failures.** Each store call that can fail is numbered from 0 within its operation. A `Fault` parameter says which call throws, and with what. The model follows the source's `try`/`catch` on every path:
  - a rethrown error becomes a `raised` out-parameter;
  - a swallowed error leaves the state as the code leaves it.
- **Parameters.** The following become parameters: the server clock (`Timestamp.now()`, `serverTimestamp()`), auto-generated document ids, and the payment processor's validation of the intent.
- **Pure specifications.** `ConfirmAsWritten` and `Confirm` describe the confirmation as pure functions over a `Ledger` value (the checks in `Precheck`, then `Settle` or `SettleOnce`): every user's payment collection and profile document. The page's methods are proved to leave exactly the state those functions describe. The lemmas about idempotence and double crediting are stated over those functions.

Where the code and the behaviour one would expect from it differ, the model follows the code:

- **`extractDetail`** (src/lib/ragie-errors.ts:51-59) takes the first of `detail`, `message`, `error` that is a string, even when it is empty. An empty `detail` therefore does not hand over to `message`: the trimmed body text is used instead (`RagieErrors.EmptyDetailSkipsMessage`).
- **`checkIfPaymentProcessed`** swallows its errors and answers "not processed" (src/zustand/usePaymentsStore.ts:150-153). On the page, a failed lookup therefore never gives the "Error validating payment" outcome: the run goes on to record the payment.
- **Confirming twice** records and credits at most once when the second run's processed check answers (`PaymentSuccess.AsWrittenTwiceWhenLookupAnswers`); with nothing failing, the first run records and credits exactly once and the second reports "already processed" (`PaymentSuccess.FreshPaymentConfirmed`). When the second processed check fails, the payment is credited twice; see "## Findings".
- **`addCredits`** uses `updateDoc`, which fails on a missing profile document. The page then raises its "recorded but not credited" toast.
- **A stored balance below 100** is shown as 1000 by `mergeProfileWithDefaults`, but the document keeps its own value. The mirror and the persisted balance then disagree (`Profiles.FetchedCreditsDivergeBelowFloor`).
- **`fetchPayments`** sorts with `orderBy("createdAt", "desc")`. That query leaves out documents without `createdAt`, so the loaded list is `LoadTimed` of the collection, sorted newest first.

## Model

| member | source | states |
|---|---|---|
| RagieErrors.SafeTruncate | src/lib/ragie-errors.ts:13-16 | input of length <= maxLen comes back unchanged; a longer one becomes its first maxLen characters followed by the ellipsis; the result is never longer than maxLen + 1 |
| RagieErrors.Trim | src/lib/ragie-errors.ts:62 | the result is a contiguous piece of the text with only white space before and after it; it is empty exactly when the text is all white space, and otherwise neither starts nor ends with white space |
| RagieErrors.ToLower | src/lib/ragie-errors.ts:72 | same length, every character lower-cased (ASCII letters) and every other character kept |
| RagieErrors.IntToString | src/lib/ragie-errors.ts:95 | the decimal rendering of the status is non-empty and starts with '-' exactly for negative numbers |
| RagieErrors.ParseNatToString | src/lib/ragie-errors.ts:95 | reading the digits of a rendered natural number gives the number back |
| RagieErrors.IntToStringInjective | src/lib/ragie-errors.ts:95 | two statuses with the same rendering are equal |
| RagieErrors.ChosenField | src/lib/ragie-errors.ts:49-58 | the `detail` string if there is one, else the `message` string, else the `error` string |
| RagieErrors.ExtractDetail | src/lib/ragie-errors.ts:48-64 | a returned detail is never empty; a non-empty chosen field is returned as it is; otherwise the answer is nothing exactly when the body text is blank, and else the trimmed text truncated to 2000 characters |
| RagieErrors.DetailFieldWins | src/lib/ragie-errors.ts:51-59 | a non-empty `detail` string is the detail, whatever `message`, `error` and the body text hold |
| RagieErrors.EmptyDetailSkipsMessage | src/lib/ragie-errors.ts:51-63 | an empty `detail` string sends extraction to the body text, not to `message` |
| RagieErrors.CodeFor | src/lib/ragie-errors.ts:116-129 | 401, 403, 413, 415 and 429 each have their own code, >= 500 is the server error, and every other status is the request failure, each in both directions |
| RagieErrors.CodeNamesDistinct | src/lib/ragie-errors.ts:116-129 | no two codes carry the same `RAGIE_...` string |
| RagieErrors.ToUserMessage | src/lib/ragie-errors.ts:66-96 | the fixed message of each code; for 403 the detail verbatim exactly when its lower-cased text contains "account" and "disabled"; for every other status the generic message with the status in decimal |
| RagieErrors.MessageFollowsCode | src/lib/ragie-errors.ts:66-96 | two statuses with the same code other than the request failure get the same message |
| RagieErrors.GenericMessageDeterminesStatus | src/lib/ragie-errors.ts:95 | two different statuses never share a generic message |
| RagieErrors.DisabledAccountShownVerbatim | src/lib/ragie-errors.ts:71-75 | a 403 whose detail mentions a disabled account shows that detail |
| RagieErrors.MixedCaseDisabledAccount | src/lib/ragie-errors.ts:72-74 | "Account is DISABLED" is shown verbatim: the match ignores case |
| RagieErrors.RagieErrorResult | src/lib/ragie-errors.ts:98-150 | the result is always the failure shape, with the response status, the code of that status, the extracted detail, the message for that status and detail, and the request id |
| Auth.MergePatches | src/zustand/useAuthStore.ts:49-52 | every field the update names takes its new value; every other field keeps its old one |
| Auth.MergeEmpty | src/zustand/useAuthStore.ts:49-52 | an update naming no field changes nothing |
| Auth.MergeIdempotent | src/zustand/useAuthStore.ts:49-52 | repeating an update changes nothing more |
| Auth.MergeThen | src/zustand/useAuthStore.ts:49-52 | two updates in a row equal one update in which the later one's fields win |
| Auth.MergeFullDefaultIsReset | src/zustand/useAuthStore.ts:29-44 | setting every field to its default gives the signed-out state |
| Auth.SanitizedDetails | src/zustand/useAuthStore.ts:67-82 | the written document copies the twelve listed fields and carries the server time as `lastSignIn` |
| Auth.SanitizedIgnoresUidAndLastSignIn | src/zustand/useAuthStore.ts:67-82 | the written document depends neither on `uid` nor on the `lastSignIn` held in the state |
| Auth.AuthStore.constructor | src/zustand/useAuthStore.ts:46-47 | a new store holds the signed-out defaults |
| Auth.AuthStore.SetAuthDetails | src/zustand/useAuthStore.ts:49-91 | the state becomes the merge; the sanitised copy is written to `users/{uid}` exactly when the merged `uid` is non-empty and the write succeeds; a failed write leaves the state updated |
| Auth.AuthStore.ClearAuthDetails | src/zustand/useAuthStore.ts:56 | every field returns to its default |
| Profiles.Overlay | src/zustand/useProfileStore.ts:104 | every field the update holds takes the update's value; every other field keeps the profile's |
| Profiles.Balance | src/zustand/useProfileStore.ts:129 | the stored balance, or 0 when the document has none (also the re-read at line 166) |
| Profiles.OverlayAsDoc | src/zustand/useProfileStore.ts:104-107 | a profile written whole over any other profile reads back as itself |
| Profiles.MergeProfileWithDefaults | src/zustand/useProfileStore.ts:46-57 | credits are at least 100: stored credits of 100 or more are kept, anything else becomes 1000; `email` prefers the auth email; `contactEmail`, `displayName` and `photoUrl` prefer the stored value, falling back to the auth value; `emailVerified` comes from the stored document, default false |
| Profiles.MergeProfileStable | src/zustand/useProfileStore.ts:46-57 | normalising a normalised profile changes nothing |
| Profiles.FetchedCreditsDivergeBelowFloor | src/zustand/useProfileStore.ts:52 | a stored balance below 100 is shown as 1000, more than the stored balance |
| Profiles.NewProfile | src/zustand/useProfileStore.ts:81-88 | a created profile has 1000 credits, an empty contact email and the auth details |
| Profiles.Increment | src/zustand/useProfileStore.ts:159 | the balance, a missing one counting as 0, grows by exactly the delta; no other field changes |
| Profiles.Debit | src/zustand/useProfileStore.ts:129-135 | refused exactly when the balance, a missing one counting as 0, is below the amount; otherwise the balance drops by exactly the amount, stays >= 0, and no other field changes |
| Profiles.DebitExamples | src/zustand/useProfileStore.ts:129-135 | with 1000 credits a debit of 1500 is refused and one of 400 leaves 600 |
| Profiles.CreditSeriesBalance | src/zustand/useProfileStore.ts:159 | after any series of credits the balance is the starting one plus their sum |
| Profiles.CreditsCommute | src/zustand/useProfileStore.ts:159 | credits applied in any order give the same balance |
| Profiles.DebitSeriesBalance | src/zustand/useProfileStore.ts:123-136 | after any series of debit attempts the balance is the starting one minus the accepted amounts; a non-negative balance never goes negative; the accepted amounts are among the attempted ones |
| Profiles.ProfileStore.constructor | src/zustand/useProfileStore.ts:59-60 | a new store's mirror is the default profile |
| Profiles.ProfileStore.FetchProfile | src/zustand/useProfileStore.ts:62-96 | signed out or on a failed read nothing changes; an existing document is normalised into the mirror and left as it is; a missing one is created with the new profile, which also becomes the mirror; a failed create changes nothing |
| Profiles.ProfileStore.UpdateProfile | src/zustand/useProfileStore.ts:98-112 | signed in, it raises exactly when the write fails or the document is missing; otherwise the mirror overlaid with the patch becomes both the document and the mirror; a signed-out or failed update changes nothing |
| Profiles.ProfileStore.UseCredits | src/zustand/useProfileStore.ts:115-149 | true exactly when signed in, the transaction runs, the document exists and its balance covers the amount; then the document is debited by exactly the amount (>= 0) and the mirror's credits drop by the amount; on false nothing changes |
| Profiles.ProfileStore.AddCredits | src/zustand/useProfileStore.ts:152-173 | signed in, it raises exactly when the increment fails, the document is missing or the re-read fails; an applied increment adds exactly the amount; the mirror's credits then become the re-read stored balance (not mirror + amount), and stay as they were when the re-read fails |
| Payments.InsertByDate | src/zustand/usePaymentsStore.ts:32-38 | inserting into a newest-first list gives a newest-first list holding the old elements and the new one |
| Payments.SortByDate | src/zustand/usePaymentsStore.ts:32-38 | the result is newest first (a missing time counts as 0) and a permutation of the input |
| Payments.SortByDateSorted | src/zustand/usePaymentsStore.ts:32-38 | a list already newest first is returned as it is |
| Payments.AppendThenSort | src/zustand/usePaymentsStore.ts:113-116 | sorting a newest-first list with one payment appended inserts that payment |
| Payments.NewestGoesFirst | src/zustand/usePaymentsStore.ts:98-116 | a payment newer than every listed one goes to the front |
| Payments.CountIdZero | src/zustand/usePaymentsStore.ts:86-96 | no record carries an id exactly when the id's count is 0 |
| Payments.CountIdAppend | src/zustand/usePaymentsStore.ts:99-104 | appending a record raises its id's count by one and leaves other counts alone |
| Payments.FindSucceeded | src/zustand/usePaymentsStore.ts:130-149 | nothing exactly when no record has the id and status "succeeded"; otherwise the first such record |
| Payments.FindRecorded | src/zustand/usePaymentsStore.ts:99-104 | a succeeded record appended under a fresh id is what the processed query then returns, with its amount |
| Payments.LoadPayment | src/zustand/usePaymentsStore.ts:60-65 | a loaded payment takes the stored `id` field, or the document id when that is missing or empty, and the stored amount, creation time and status |
| Payments.LoadTimed | src/zustand/usePaymentsStore.ts:55-65 | as a set, the loaded list is the loaded form of the records that have a creation time: every such record is there and nothing else is; it is no longer than the collection |
| Payments.LoadTimedSingle | src/zustand/usePaymentsStore.ts:55-65 | one document loads to its record when it has a creation time and to nothing otherwise |
| Payments.LoadTimedConcat | src/zustand/usePaymentsStore.ts:55-65 | loading keeps collection order and multiplicity: two runs of documents load to the first run's records followed by the second's |
| Payments.PaymentsStore.constructor | src/zustand/usePaymentsStore.ts:40-43 | a new store has an empty list, is not loading and has no error |
| Payments.PaymentsStore.FetchPayments | src/zustand/usePaymentsStore.ts:45-74 | signed out: "User not authenticated" and the list kept; on a failed query the error text and the list kept; otherwise the collection's timed records newest first and no error; never left loading |
| Payments.PaymentsStore.AddPayment | src/zustand/usePaymentsStore.ts:76-124 | signed out nothing changes; an id already on record (any status) inserts nothing; otherwise exactly one record stamped `now` is appended and the local list becomes the old one with that payment inserted newest first; a failure records its text and is rethrown; never left loading |
| Payments.PaymentsStore.CheckIfPaymentProcessed | src/zustand/usePaymentsStore.ts:126-154 | nothing when signed out or when the query fails; otherwise the first succeeded record with the id |
| PaymentSuccess.Precheck | src/components/PaymentSuccessPage.tsx:34-63 | the page stops before recording, writing nothing and raising no toast, exactly when the intent is missing ("No payment intent found"), the user is signed out ("Please sign in ..."), validation fails (the support message), the status is not "succeeded" ("Payment validation failed") or the processed check finds the payment ("already processed", showing the stored record it found) |
| PaymentSuccess.Recorded | src/components/PaymentSuccessPage.tsx:65-70 | recording appends exactly one record to the user's collection and touches nothing else |
| PaymentSuccess.Credit | src/components/PaymentSuccessPage.tsx:72-88 | the outcome is "Payment successful" with the intent's data; the user's document is incremented by amount + 1 exactly when it exists and the increment succeeds, and is otherwise left alone; the toast is "credits added" exactly when the increment and the re-read succeed, and the contact-support toast otherwise; no other user's balance changes |
| PaymentSuccess.Settle | src/components/PaymentSuccessPage.tsx:65-91 | a rethrown recording error shows the support message and changes nothing; otherwise the page reports success with the intent's data, the record is appended only when its id is new, and an existing document is credited amount + 1 when the increment succeeds; other users are untouched |
| PaymentSuccess.SettleOnce | src/components/PaymentSuccessPage.tsx:65-91 | the same, except that an id already on record gives "already processed" with nothing changed, so crediting follows only an appended record |
| PaymentSuccess.ConfirmAsWritten | src/components/PaymentSuccessPage.tsx:33-101 | the page reports success exactly when no check stops it and the recording does not raise; it changes the ledger only for a succeeded payment it reports as successful, and only for the signed-in user |
| PaymentSuccess.Confirm | src/components/PaymentSuccessPage.tsx:33-101 | the page reports success exactly when no check stops it, the recording does not raise and the id was not on record; any change to the ledger is that success, with exactly one new record appended |
| PaymentSuccess.FreshPaymentConfirmed | src/components/PaymentSuccessPage.tsx:46-91 | with nothing failing, a succeeded payment whose id is not on record is recorded once and credited exactly amount + 1 with the credits-added toast, by both confirmations; a second run then reports "already processed", shows the stored record and changes nothing |
| PaymentSuccess.ConfirmAgreesOnNewPayments | src/components/PaymentSuccessPage.tsx:52-88 | for a payment id not yet on record, the at-most-once confirmation behaves exactly as the code does |
| PaymentSuccess.ConfirmCreditsOnlyNewRecords | src/components/PaymentSuccessPage.tsx:52-75 | under at-most-once crediting, a balance changes only in the run that appends the payment's record, and by amount + 1 |
| PaymentSuccess.ConfirmTwiceCreditsOnce | src/components/PaymentSuccessPage.tsx:52-75 | two at-most-once confirmations of one succeeded payment, whatever fails, credit at most once, by amount + 1, and leave at most one record of a new id; an id already on record is neither recorded nor credited |
| PaymentSuccess.AsWrittenTwiceWhenLookupAnswers | src/components/PaymentSuccessPage.tsx:52-75 | as written, with no earlier record of the id and a second processed check that answers, a second run after a recording one reports "already processed" and changes nothing, so the payment is credited and recorded at most once |
| PaymentSuccess.UnsucceededChangesNothing | src/components/PaymentSuccessPage.tsx:50-91 | a validated status other than "succeeded" gives "Payment validation failed", no record and no credit |
| PaymentSuccess.AsWrittenCreditsRecordedPayment | src/components/PaymentSuccessPage.tsx:52-75 | as written, a payment already on record that the processed check misses is credited again, while the at-most-once confirmation changes nothing |
| PaymentSuccess.PaymentSuccessPage.constructor | src/components/PaymentSuccessPage.tsx:17-24 | a mounted page is loading, with no message, no payment shown and no toast |
| PaymentSuccess.PaymentSuccessPage.Screen | src/components/PaymentSuccessPage.tsx:34-63 | the page goes on to record exactly when `Precheck` finds nothing to stop for; otherwise it shows that outcome's message (and the stored payment when one was found) and stops loading, writing nothing |
| PaymentSuccess.PaymentSuccessPage.RecordAndCredit | src/components/PaymentSuccessPage.tsx:65-91 | the page's fields, the payment collections and the profile documents are what `Settle` gives: a rethrown recording error shows the support message; otherwise the credit follows, whether or not a record was added |
| PaymentSuccess.PaymentSuccessPage.RecordAndCreditOnce | src/components/PaymentSuccessPage.tsx:65-91 | the same for `SettleOnce`: a recording that finds the id already present reports "already processed" and credits nothing |
| PaymentSuccess.PaymentSuccessPage.HandlePaymentSuccess | src/components/PaymentSuccessPage.tsx:33-101 | the message, shown payment, toast, payment collections and profile documents are exactly what `ConfirmAsWritten` gives for the user, the validation answer and the faults; loading ends false on every path |
| PaymentSuccess.PaymentSuccessPage.HandlePaymentSuccessOnce | src/components/PaymentSuccessPage.tsx:52-88 | the same, for the confirmation that credits only after inserting the record (`Confirm`) |
| PaymentSuccess.DoubleCreditAsWritten | src/components/PaymentSuccessPage.tsx:52-75 | as written: `pi_abc` for 10000 credits 10001 and is recorded once; a second run whose processed check fails credits 10001 again (balance 20002), still with one record |
| PaymentSuccess.SingleCreditOnce | src/components/PaymentSuccessPage.tsx:52-75 | with at-most-once crediting the same two runs leave 10001 and one record, and the second reports "already processed" |

## Left out

- Concurrency. Transactions, their retries, and interleaved debits, credits or confirmations are not modelled: each store call is one atomic step. That includes the check-then-insert race in `addPayment`, for which the code has no uniqueness constraint. Interleavings are covered only as orders of whole operations (`CreditsCommute`, `DebitSeriesBalance`).
- The payment processor's `validatePaymentIntent`: it is not part of this model. Its answer is the `validation` parameter, which is nothing when the call throws.
- Clocks and ids: `Timestamp.now()`, `serverTimestamp()` and generated document ids are parameters, and timestamps are natural numbers of milliseconds.
- Error values: which store call throws, and what, is a `Fault` parameter. Only the text kept in `paymentsError` depends on the thrown value.
- `readResponseBody`, the request-id header lookups and `redactUrl` are not part of this model. The parsed body, the raw text and the request id are parameters of `RagieErrorResult`.
- Logging, `console.*`, the 500-character truncation used only for logging, and the toast texts: the page's two toast kinds are modelled, the texts are not.
- The JSX and the effect's dependency list: a re-run of the effect is modelled as a second run of the confirmation on a freshly mounted page.
- JavaScript numbers: amounts and credits are unbounded integers. Floating point, `NaN` and precision loss are not modelled, nor is the dollar display.
- Strings are sequences of characters, not UTF-16 code units, so `length` and `slice` in `safeTruncate` count characters.
- RagieErrors.ToLower: lower-cases ASCII letters only, where `toLowerCase` covers all of Unicode.
- Query result order: the processed query's first match is the first in insertion order, where the document store orders matches by document id; the tie order among equal `createdAt` values in `fetchPayments` is not modelled either.
- Explicit `undefined` values inside a `Partial<...>` update, which a JavaScript spread copies over the old value, are not modelled: an update either names a field with a value or leaves it out.
- PaymentSuccess.PaymentSuccessPage.HandlePaymentSuccess: states the page's fields, the payment collections and the profile documents, not the stores' local list and mirror; `AddPayment` and `AddCredits` state those.
- PaymentSuccess.PaymentSuccessPage.HandlePaymentSuccessOnce: the same.
- PaymentSuccess.PaymentSuccessPage.RecordAndCredit: the same.
- PaymentSuccess.PaymentSuccessPage.RecordAndCreditOnce: the same.

## Findings

| source | as written | input that shows it | evidently intended | confidence | as-written member | corrected member |
|---|---|---|---|---|---|---|
| src/components/PaymentSuccessPage.tsx:52-75 | The processed check swallows its errors and answers "not processed". `addPayment` then finds the id and silently returns, and `addCredits` still runs: a payment already on record is credited again. The same happens when the record with that id has a status other than "succeeded". | A user with 0 credits confirms `pi_abc` for 10000: balance 10001, one record. The page runs again and its processed query fails: balance 20002, still one record. | Credit only in the run whose `addPayment` inserted the record; otherwise report "already processed". | medium, not executed | PaymentSuccess.DoubleCreditAsWritten | PaymentSuccess.ConfirmTwiceCreditsOnce |
