# Campus dining wrapped: a Dafny model of its core

The app shows a student a "wrapped" summary of their dining history for one semester. This
project models, in Dafny, the parts of it whose behaviour can be stated exactly:

- **Transaction normaliser** (`src/lib/normalize.ts`). An ordered exclusion list and an ordered
  keyword table map free-text location names to display names, or drop the record. A filtering
  pass keeps the surviving records in order, each with its location replaced by the display
  name. Modules `LocationNames`, `CanonicalFixedPoints` and `Normalize`.
- **Plan-savings calculator** (the `useMemo` block and the section flags of
  `src/components/wrapped/slides/MoneySavedSlide.tsx`). Each transaction is booked under at most
  one plan category. Spending and refunds are summed per category, and the plan-cost constants
  (3395 for either required plan, a flex pool of 2595) turn the nets into savings figures. Module
  `MoneySaved`. The loop is a method proved equal to reference sums over the list.
- **Credential and session lifecycle**:
  - `src/lib/storage.ts` becomes module `Storage`: a class `CredentialStore` over a key-value map with three slots.
  - `src/lib/api.ts` becomes module `Api`. Its three endpoints are oracle functions. The class `Platform` logs every request.
  - `src/context/AuthContext.tsx` becomes module `Auth`: a class `AuthContext` holding the device id, PIN and session id in memory, mirrored into the store.
  - `src/hooks/useTransactions.ts` becomes module `Transactions`: the fetch with one refresh and one retry.
  - `src/lib/ids.ts` becomes module `Ids`: the formatting half of the device-id and PIN generators.

Modules `Wrappers` (Option, Result, JavaScript truthiness of an optional string), `Strings`
(ASCII case mapping, substring search), `Types` (the transaction record) and `RequestCounts` (counting a request log by endpoint) are shared.

How the model represents things:
- Amounts are exact reals. A transaction amount that is not a JavaScript number is `NotANumber` and counts as 0.
- The endpoints' answers, the 16 random bytes of a device id and the PIN draw are parameters.
  Properties are therefore stated for every reply, every byte string and every draw.
- `Step` records what `fetchTransactions` does in the order it does it. Each reply function receives its request's position in the log, so every answer is tied to the request it answers.
- `Transactions.RunFrom` is the fetch as a function of the state before it: the credential, the held session, the store and the request log. The method `Transactions.FetchTransactions` is proved to leave exactly the log, held session and store that `RunFrom` computes, and the properties of the fetch are lemmas about `RunFrom`.

Behaviour of the code worth noting:
- When `authenticatePin` throws after `createPin` succeeded, enrollment leaves the session id
  as it was before. It does not clear it. The credential stays persisted
  (`src/context/AuthContext.tsx:96-104`).
- `createPin` answering `false` is not an error, so enrollment carries on
  (`Auth.AuthContext.EnrollmentOutcome`).
- The count that `fetchTransactions` reports is the length of the normalised list. The
  platform's own `totalCount` is ignored.
- In `ensureSessionId`, the stored-session branch is reached only when memory and storage
  disagree. `Auth.AuthContext.Consistent` states that agreement, and every operation preserves it.
- `standardPlanSaved` is computed by the same expression as `standardOverPlanSpending`
  (`src/components/wrapped/slides/MoneySavedSlide.tsx:118-121`), so they are always equal.
- A standard-plan net of exactly 3395 makes both the saving and the overspend 0. The
  required-plan section is then hidden (`MoneySaved.RequiredSectionShown`).

## Model

| member | source | states |
|---|---|---|
| LocationNames.IsExcluded | src/lib/normalize.ts:8-16 | a lower-cased name is excluded exactly when it contains one of the five keywords "papercut", "dining services", "deposit", "get location", "card services" |
| LocationNames.ExcludedInAnyCase | src/lib/normalize.ts:4-16 | a raw name containing an excluded keyword written in any mix of ASCII cases is dropped |
| LocationNames.MappedName | src/lib/normalize.ts:19-37 | the mapped name is one of the fifteen display names or the original spelling, and a name no rule matches keeps its original spelling |
| LocationNames.Canonicalize | src/lib/normalize.ts:3-38 | the record is excluded exactly when the name is empty or its lower-case form contains an excluded keyword; a kept name is non-empty, and a kept name that matches no rule comes back unchanged |
| LocationNames.BlendExpressBeforeBlend | src/lib/normalize.ts:19-21 | a non-excluded name containing "blend express" becomes "The Blend Express", because that rule is tried before the plain "blend" rule |
| LocationNames.BlendWithApartExpressIsNotTheBlend | src/lib/normalize.ts:19-21 | a name with "blend" and "express" apart becomes neither Blend name: both rules fail and a later rule decides |
| CanonicalFixedPoints.CanonicalizeIdempotent | src/lib/normalize.ts:19-37 | canonicalising a kept name's display name yields that display name again: each display name re-matches its own rule and no exclusion or earlier rule |
| Normalize.NormalizeTransactions | src/lib/normalize.ts:40-49 | the loop's output (empty for an empty input) is the record-by-record normalisation of the input |
| Normalize.KeptIndicesShape | src/lib/normalize.ts:43-47 | there is one surviving index per output record, and the indices increase and lie within the input |
| Normalize.KeptIndicesMembership | src/lib/normalize.ts:45 | an input record survives exactly when its location canonicalises to a name |
| Normalize.KeptIndicesImage | src/lib/normalize.ts:47 | output record k is the k-th surviving input record with only its location replaced by the display name |
| Normalize.NormalizedIsSubsequence | src/lib/normalize.ts:40-49 | the output is an order-preserving subsequence of the input, keeping exactly the records whose location is not excluded |
| Normalize.NormalizedNoLonger | src/lib/normalize.ts:40-49 | the output is never longer than the input |
| Normalize.ExcludedRecordDropped | src/lib/normalize.ts:4-16 | a record with an empty or excluded location is not among the survivors |
| Normalize.NormalizedAppend | src/lib/normalize.ts:43-47 | normalising a concatenation is the concatenation of the normalised parts |
| Normalize.SurvivorsAreCanonical | src/lib/normalize.ts:19-37 | every surviving location is a fixed point of canonicalisation |
| Normalize.NormalizeIdempotent | src/lib/normalize.ts:40-49 | normalising twice gives the same list as normalising once |
| MoneySaved.Classify | src/components/wrapped/slides/MoneySavedSlide.tsx:28-84 | the category a transaction is booked under, stated by the keywords of its lower-cased account name alone: standard when it says "standard", or "meal" without "flex"; flex when it says "flex" and not "standard"; neighbourhood, flyer express and unclassified when none of the earlier categories' words occur and "neighborhood", then "flyer", occurs or not |
| MoneySaved.FlyerExpressSaysFlyer | src/components/wrapped/slides/MoneySavedSlide.tsx:41-43 | the flyer-express test holds exactly when the name contains "flyer": its "flyer express" alternative is subsumed |
| MoneySaved.MealFlexAccountIsFlex | src/components/wrapped/slides/MoneySavedSlide.tsx:31-37 | a "meal" account that also says "flex" but not "standard" is booked as flex, not standard |
| MoneySaved.Spent | src/components/wrapped/slides/MoneySavedSlide.tsx:59-84 | the spending booked under a category is never negative |
| MoneySaved.Refunds | src/components/wrapped/slides/MoneySavedSlide.tsx:59-84 | the refunds booked under a category are never negative |
| MoneySaved.PreCash | src/components/wrapped/slides/MoneySavedSlide.tsx:72-80 | the neighbourhood cash estimate is never negative |
| MoneySaved.Derive | src/components/wrapped/slides/MoneySavedSlide.tsx:87-144 | the required plan is standard exactly when standard spending exceeds its refunds, and flex exactly when that fails and flex spending exceeds its refunds; a required plan costs 3395 with positive spend on it, and no plan means 0 for both; the saving if not required lies in [0, 3395], the flex remainder in [0, 2595], the saving from spending all flex is 800; the overspend equals the standard saving, is non-negative and is 0 unless the plan is standard; the saving and the overspend are never both positive; the flyer-only flag holds exactly when the flyer net is positive and the other three nets are 0 |
| MoneySaved.ComputePlanSavings | src/components/wrapped/slides/MoneySavedSlide.tsx:27-145 | the one-pass accumulation loop and its derivations give the figures that the per-category sums over the whole list determine |
| MoneySaved.NeutralTransactionIgnored | src/components/wrapped/slides/MoneySavedSlide.tsx:60-84 | a transaction with a zero or non-numeric amount, or with an account no classifier recognises, changes no total |
| MoneySaved.OnlyOwnCategoryChanges | src/components/wrapped/slides/MoneySavedSlide.tsx:62-84 | a transaction changes the spending and refunds of its own category only |
| MoneySaved.PreCashSplit | src/components/wrapped/slides/MoneySavedSlide.tsx:72-80 | the cash estimate is the neighbourhood spending plus one ninth of the spending outside the Emporium |
| MoneySaved.NeighborhoodSavingsIsANinth | src/components/wrapped/slides/MoneySavedSlide.tsx:125-126 | without neighbourhood refunds, the discount saving is one ninth of the discounted neighbourhood spending |
| MoneySaved.DiscountedSpentBounds | src/components/wrapped/slides/MoneySavedSlide.tsx:72-80 | the discounted neighbourhood spending lies between 0 and the whole neighbourhood spending |
| MoneySaved.NinetyDollarsAtTenPercentOff | src/components/wrapped/slides/MoneySavedSlide.tsx:72-80 | a single $90 neighbourhood purchase outside the Emporium has a cash equivalent of $100 and a saving of $10 |
| MoneySaved.RequiredPlanFromNets | src/components/wrapped/slides/MoneySavedSlide.tsx:87-105 | the required plan is standard if the standard net is positive, else flex if the flex net is positive, else none; the amount spent on it is that net; the flyer-only flag holds exactly when only the flyer net is positive |
| MoneySaved.SavingsFigures | src/components/wrapped/slides/MoneySavedSlide.tsx:87-143 | with refunds counted, each figure is fixed by the per-category net sums over the list. The neighbourhood and flyer spending are their nets. The cash estimate is the pre-discount sum. The neighbourhood saving is the estimate less the neighbourhood net, floored at 0. The saving if not required is 3395 less the standard net when that is positive, else 3395 less the flex net when that is positive, else 0, floored at 0. The flex remainder is 2595 less the flex net for a flex plan, else 2595. The overspend is the standard net beyond 3395 for a standard plan, else 0 |
| MoneySaved.StandardSavingOrOverspend | src/components/wrapped/slides/MoneySavedSlide.tsx:115-121 | with the standard plan required, the saving if not required plus the overspend equals the distance between the net standard spending and 3395 |
| MoneySaved.VisibleSections | src/components/wrapped/slides/MoneySavedSlide.tsx:147-158 | at most one of the required, neighbourhood and flyer-only sections is shown, and none when there is no data |
| MoneySaved.RequiredSectionShown | src/components/wrapped/slides/MoneySavedSlide.tsx:155-156 | the required section is shown exactly when there is data and either the plan is flex, or it is standard with a net other than 3395 |
| Storage.CredentialStore.constructor | src/lib/storage.ts:1-5 | the store starts with the given contents |
| Storage.CredentialStore.SaveCredentials | src/lib/storage.ts:7-10 | both credential slots are written and no other key changes |
| Storage.CredentialStore.LoadCredentials | src/lib/storage.ts:12-17 | the credential is returned only when both slots hold non-empty strings |
| Storage.CredentialStore.ClearCredentials | src/lib/storage.ts:19-22 | both credential slots are removed and no other key changes |
| Storage.CredentialStore.SaveSessionId | src/lib/storage.ts:24-26 | the session slot is written and no other key changes |
| Storage.CredentialStore.LoadSessionId | src/lib/storage.ts:28-30 | the session slot's value is returned, or nothing when it is absent |
| Storage.CredentialStore.ClearSessionId | src/lib/storage.ts:32-34 | the session slot is removed and no other key changes |
| Storage.SaveThenLoadCredentials | src/lib/storage.ts:7-17 | a non-empty credential once saved is the one loaded |
| Storage.LoadCredentialsNeedsBothSlots | src/lib/storage.ts:15 | nothing is loaded exactly when either slot is absent or empty |
| Storage.ClearThenLoadCredentials | src/lib/storage.ts:12-22 | after clearing, no credential is loaded |
| Storage.SaveThenLoadSession | src/lib/storage.ts:24-30 | a saved session id is the one loaded |
| Storage.ClearThenLoadSession | src/lib/storage.ts:28-34 | after clearing, no session id is loaded |
| Storage.CredentialOpsKeepSession | src/lib/storage.ts:7-22 | saving or clearing the credential leaves the session slot as it was |
| Storage.SessionOpsKeepCredentials | src/lib/storage.ts:24-34 | saving or clearing the session leaves the loadable credential as it was |
| Api.Platform.constructor | src/lib/api.ts:8-22 | a platform starts with an empty request log and the given reply functions |
| Api.Platform.CreatePin | src/lib/api.ts:24-43 | the request is logged and answered by the reply function at its log position; a `false` answer is a value, not an error |
| Api.Platform.AuthenticatePin | src/lib/api.ts:45-67 | the request is logged and answered by the reply function at its log position |
| Api.Platform.RetrieveTransactions | src/lib/api.ts:71-105 | the request is logged and answered by the reply function at its log position |
| Auth.AuthContext.constructor | src/context/AuthContext.tsx:30-34 | the initial credential is the one storage yields, or none; the initial session is the stored one; the context starts authenticated exactly when storage holds a credential, and consistent with storage |
| Auth.AuthContext.SetSessionId | src/context/AuthContext.tsx:47-54 | memory holds the argument; a non-empty id is saved, anything else clears the slot; the credential is untouched and consistency with storage is kept |
| Auth.AuthContext.SetCredentials | src/context/AuthContext.tsx:56-60 | both halves are saved and held in memory, the session is untouched, and the context is authenticated exactly when both halves are non-empty |
| Auth.AuthContext.ClearCredentials | src/context/AuthContext.tsx:62-67 | the credential and the session are gone from memory and storage, and the context is no longer authenticated |
| Auth.AuthContext.Authenticate | src/context/AuthContext.tsx:78-80 | exactly one authentication request; a returned id goes through setSessionId, and a thrown error changes nothing |
| Auth.AuthContext.EnsureSessionId | src/context/AuthContext.tsx:69-81 | a session in memory is returned with no request; else a stored one is adopted with no request; else, without a credential, the call fails with "Missing device credentials" and no request; else exactly one authentication request is made and its id is saved; on success memory holds the returned id |
| Auth.AuthContext.RefreshSessionId | src/context/AuthContext.tsx:83-88 | without a credential the call fails with "Missing device credentials" and no request; otherwise exactly one authentication request, whose id is held in memory and saved |
| Auth.AuthContext.CreateCredentialsWithValidatorSession | src/context/AuthContext.tsx:90-107 | the new identifiers are the formatted random bytes and the padded PIN draw, and the enrollment proceeds as Enroll states |
| Auth.AuthContext.Enroll | src/context/AuthContext.tsx:96-104 | if createPin throws, nothing is stored or held and no authentication happens; otherwise the credential is persisted and held, and exactly one authentication request follows; the credential stays persisted and held if that request throws |
| Auth.AuthContext.IsAuthenticated | src/context/AuthContext.tsx:114 | the context is authenticated exactly when device id and PIN are both present and non-empty |
| Auth.SavedSession | src/context/AuthContext.tsx:47-54 | the store after `setSessionId`: a non-empty id is the loadable session, an empty one leaves none, and the loadable credential is unchanged |
| Auth.AuthenticateEffect | src/context/AuthContext.tsx:78-79 | one authentication request with the held credential; a returned id is held and saved, a thrown error leaves memory and store as they were |
| Auth.EnsureEffect | src/context/AuthContext.tsx:69-81 | `ensureSessionId` makes no request exactly when a session is in memory or storage or the credential is missing, and otherwise one authentication request with the held credential; an error leaves memory and store as they were, and a returned id is held |
| Auth.RefreshEffect | src/context/AuthContext.tsx:83-88 | `refreshSessionId` makes one authentication request exactly when the credential is held, fails with "Missing device credentials" otherwise, and saves and holds a returned id itself; an error leaves memory and store as they were |
| Auth.CredentialsSavedAreLoaded | src/context/AuthContext.tsx:56-60 | a saved credential is the one loaded afterwards, or none when either half is empty |
| Ids.GenerateUuidV4 | src/lib/ids.ts:9-29 | bytes 6 and 8 are masked in place and the identifier is the upper-cased template over the masked bytes |
| Ids.Masked | src/lib/ids.ts:25-26 | the masked buffer still has 16 bytes |
| Ids.FormatUuidLayout | src/lib/ids.ts:27-29 | the identifier has 36 characters, dashes at 8, 13, 18 and 23, and upper-case hex digits elsewhere (section 3 of RFC 4122) |
| Ids.FormatUuidByte | src/lib/ids.ts:27-29 | byte k appears as its two upper-case hex digits, high nibble first, at its position in the layout |
| Ids.FormatUuidDigits | src/lib/ids.ts:27-29 | every byte appears as its two hex digits at its position in the layout |
| Ids.ByteHexDigits | src/lib/ids.ts:27 | a byte is padded to exactly its two lower-case hex digits |
| Ids.MaskedNibbles | src/lib/ids.ts:25-26 | after masking, byte 6 has high nibble 4 and byte 8 has a high nibble between 8 and 11 |
| Ids.VersionDigit | src/lib/ids.ts:25-28 | the character at index 14 is always '4' (section 4.4 of RFC 4122) |
| Ids.VariantDigit | src/lib/ids.ts:26-28 | the character at index 19 is always 8, 9, A or B (section 4.4 of RFC 4122) |
| Ids.DecodeFormatUuid | src/lib/ids.ts:27-29 | reading the 32 hex digits back gives the bytes the identifier was formatted from |
| Ids.UuidKeepsUnmaskedBytes | src/lib/ids.ts:25-29 | decoding the identifier returns every random byte except the masked bytes 6 and 8 |
| Ids.GeneratePin4 | src/lib/ids.ts:32-35 | for every draw the PIN has at least four characters, all decimal digits, and spells the draw |
| Ids.FormatUuid | src/lib/ids.ts:27-29 | the formatted identifier has 36 characters |
| Ids.Pin4Format | src/lib/ids.ts:32-35 | for every draw in [0, 9999] the PIN is four decimal digits whose value is the draw |
| Ids.NumberToStringValue | src/lib/ids.ts:27 | the digits `toString` writes in a radix spell the number back |
| Ids.NumberToStringLength | src/lib/ids.ts:34 | a number below radix^k has at most k digits |
| Transactions.RetrieveWindow | src/hooks/useTransactions.ts:32-37 | one request for the fixed window with at most 100 records is appended to the log, answered by the platform's reply at its log position |
| Transactions.EnsureSession | src/hooks/useTransactions.ts:30 | the ensure callback's answer, requests, held session and store are those `Auth.EnsureEffect` computes from the state before the call; the credential is untouched and consistency with storage is kept |
| Transactions.RefreshSession | src/hooks/useTransactions.ts:42 | the refresh callback's answer, requests, held session and store are those `Auth.RefreshEffect` computes from the state before the call; the credential is untouched and consistency with storage is kept |
| Transactions.RunFrom | src/hooks/useTransactions.ts:30-53 | every fetch follows the retry policy (ensure; retrieve with the ensured id; only after a throw, refresh; only after a successful refresh, retrieve with the refreshed id; only after that succeeds, save it), and only appends to the log |
| Transactions.RetryRun | src/hooks/useTransactions.ts:40-53 | the fetch after a thrown first retrieval follows the retry policy and only appends to the log |
| Transactions.FetchTransactions | src/hooks/useTransactions.ts:30-53 | the result is the outcome of `RunFrom` from the state before the call, and the whole request log, the held session and the store after the call are the ones `RunFrom` computes, on the error paths as on success; the credential is untouched and consistency with storage is kept |
| Transactions.RetryWithFreshSession | src/hooks/useTransactions.ts:40-53 | the `catch` branch leaves exactly the result, log, held session and store of `RetryRun`: refreshSessionId (which saves the refreshed id itself), at most one more retrieval, and the hook's own save of the id only after that retrieval succeeds |
| Transactions.EnsureFirstAndOnce | src/hooks/useTransactions.ts:30-32 | the session is ensured once, as the first step; its at most one request opens the log extension, and the first retrieval request for the ensured id follows it; if the ensure fails, its error is the outcome, the log gains only its requests, and memory and store are as before |
| Transactions.FirstSuccessNoRefresh | src/hooks/useTransactions.ts:31-39 | after a successful first retrieval the log gains exactly the ensure's requests and that retrieval, no refresh is made, the outcome is the normalised page, and memory holds the ensured id |
| Transactions.RefreshFailurePropagates | src/hooks/useTransactions.ts:40-42 | a failed refresh ends the fetch with its error; the log gains no second retrieval, and memory and store are as the ensure left them |
| Transactions.SecondFailurePropagates | src/hooks/useTransactions.ts:43-50 | a failed retry ends the fetch with its error and the hook's own save is skipped; memory and store hold the refreshed id, which refreshSessionId already saved |
| Transactions.RetrySucceedsSavesSession | src/hooks/useTransactions.ts:42-52 | a successful retry makes the retry's normalised page the outcome, ends the log with the retry request, and leaves the refreshed id held and stored |
| Transactions.SessionHeldOnSuccess | src/hooks/useTransactions.ts:30-52 | whenever the fetch succeeds, memory holds the id of the retrieval that succeeded |
| Transactions.RetryBounds | src/hooks/useTransactions.ts:30-53 | for every platform behaviour, the requests a fetch adds to the log are at most two retrievals, all for the fixed window, and at most two authentications, all with the held credential, and nothing else; its steps hold at most two retrievals and one refresh |
| Transactions.PolicyBounds | src/hooks/useTransactions.ts:30-53 | any run the retry policy allows has at most two retrievals and at most one refresh |
| Transactions.CountIsNormalizedLength | src/hooks/useTransactions.ts:38-39 | the count returned is the length of the normalised list and never exceeds the number of records received |
| Api.RequestsToAppend | src/lib/api.ts:24-105 | the requests of a log sent to one endpoint split over concatenation of logs, so a log's requests can be counted piece by piece |
| RequestCounts.FourPieceCounts | src/lib/api.ts:45-105 | a log of at most one authentication, one retrieval, one authentication and one retrieval has at most two requests to each of those endpoints and none to `createPin` |
| Strings.LowerIdempotent | src/lib/normalize.ts:5 | a lower-cased string holds no ASCII capital, and lower-casing it again changes nothing |
| Strings.LowerOfUpper | src/lib/normalize.ts:5 | lower-casing after upper-casing gives the lower-cased string, and the other way round |
| Strings.LowerCharFixesNonCapitals | src/lib/normalize.ts:5 | the character mapping changes exactly the ASCII capitals and never yields one |
| Strings.ContainsLowered | src/lib/normalize.ts:5-16 | lower-casing keeps every occurrence: a word found in a string is found, lowered, in the lowered string |

## Left out

- The native `crypto.randomUUID` branch of `generateUuidV4`, and the random sources (`getRandomValues`, `Math.random`). They are foreign calls and randomness. The bytes and the PIN draw are parameters.
- Ids.GenerateUuidV4: the loop that fills the buffer with `Math.random` bytes when `getRandomValues` is missing is not modelled. The buffer arrives filled.
- Auth.AuthContext.CreateCredentialsWithValidatorSession: it takes the random bytes as a sequence and formats them with the function that `Ids.GenerateUuidV4` is proved to return. It does not call that method on an array of its own.
- `sha256Hex` and the PostHog `identify` effect (`src/context/AuthContext.tsx:37-45`, `125-145`). They are a cryptographic digest and an asynchronous analytics side channel.
- The `?mock=` branch of `fetchTransactions` (`src/hooks/useTransactions.ts:15-29`). It reads the page URL, and its mock data builder is not part of this model.
- HTTP, JSON and error plumbing of `src/lib/api.ts`. Each endpoint is an oracle that answers or throws.
- React state and `useCallback` closures, `useQuery` caching and `staleTime`. The context is one sequential object whose methods run one at a time.
- Concurrent or overlapping `ensureSessionId` and refresh calls. The source does not guard them.
- Transactions.FetchTransactions: two other ways the first `try` can throw are not modelled, so in the model only a thrown retrieval starts the retry. An exception from `normalizeTransactions` is left out because the model's normaliser cannot fail. A platform answer with no response body is left out because the model's `Reply<TransactionPage>` value always carries a list. In the app, `retrieveTransactions` returns `json.response` (src/lib/api.ts:104), which may be null, and reading `result.transactions` from it (src/hooks/useTransactions.ts:38) throws, which also starts the refresh and retry.
- IEEE double rounding and `Intl.NumberFormat`. Amounts are exact reals.
- Strings.Lower: non-ASCII case mapping of `toLowerCase` is not modelled; only ASCII letters change case. This is exact for the hex digits of the identifier, but not for every location or account name: `toLowerCase` maps U+212A KELVIN SIGN to 'k', so a name spelling "VW" followed by the Kelvin sign matches the "vwk" rule in the app and not in the model.
- `null` or non-object elements of the transaction list, and a `null` list. The list is a sequence of records.
- Transaction fields other than the id, amount, location and account name.
- Presentation code: the slides, pages, onboarding URL parsing, routing and the placeholder slides.
