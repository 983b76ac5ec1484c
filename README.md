# Legal-intake application: a verified model of its core

The application lets a person describe a legal problem, submit it as a case,
and see their cases on a dashboard. This project models, in Dafny, the parts
of it that decide things:

- the intake page (`app/case/new/page.tsx`): its field rules, the
  impact-tag toggle, and how a submission is packed into a form and posted;
- the case API (`app/api/cases/route.ts`): the bearer-header check, token
  verification, the case record built from the form, and the owner-only
  listing;
- the dashboard's case list (`components/dashboard/CaseList.tsx`): the
  status filter, the three sort orders and the fetch state;
- one case on the dashboard (`components/dashboard/CaseItem.tsx`);
- the navigation bar (`components/common/Navbar.tsx`);
- `cn` and the route guard `middleware` (`lib/utils.ts`);
- the environment check (`lib/config.ts`);
- the cached database connection (`lib/mongodb.ts`);
- the login and signup endpoints (`app/api/login/route.tsx`,
  `app/api/signup/page.tsx`);
- the user and case models (`models/User.ts`, `models/Case.ts`).

Each source file is one module (`Intake`, `CasesRoute`, `CaseList`,
`CaseItem`, `Navbar`, `Utils`, `Config`, `MongoConnection`, `LoginRoute`,
`SignupRoute`, `UserModel`, `CaseModel`). Shared material has modules of its
own:

- `Common`: `Option`, and `Step`, which is a value or a thrown error.
- `Text`: JavaScript's `split`, `join`, `lastIndexOf`, `toLowerCase` and
  `replace` on `seq<char>`.
- `FormData`: the multipart body as an ordered list of entries.
- `CaseTypes`: the `Case` record of `types/case.ts`.
- `IntakeRoundTrip`: proofs that span the page and the route.

Code that changes state step by step is imperative here. The page, the case
list, the case item and the navigation bar are classes whose fields are the
component's state. The case and user collections are classes over a
sequence of records. The connection cache is a class with the two cached
fields. The environment check and the form building are loops. The sort
works in place on an array.

Everything outside the code is a parameter. This covers the identity
provider, the token verifier, bcrypt, `jsonwebtoken`, the database's answers
and the network. Each is a function, or a `Step` value that either carries a
result or a thrown error, so every error path is modelled.

## Model

| member | source | states |
|---|---|---|
| Intake.Validate | app/case/new/page.tsx:17-38 | a field is reported, with its own message, exactly when its rule rejects it |
| Intake.AcceptedIff | app/case/new/page.tsx:17-38 | a form is accepted iff issueDescription has at least 10 characters, partiesInvolved at least 5, desiredResolution at least 10, and zipCode is exactly five digits; the incident date plays no part |
| Intake.IncidentDateAccepted | app/case/new/page.tsx:24-31 | the incident-date refinement accepts every string, since constructing a Date never throws |
| Intake.RemoveAllMembers | app/case/new/page.tsx:71 | filtering removes every occurrence of the tag and keeps the presence of every other tag |
| Intake.ToggleImpact | app/case/new/page.tsx:66-76 | the toggled tag's presence flips; other tags keep theirs; an absent tag is appended at the end |
| Intake.ToggleTwiceRestores | app/case/new/page.tsx:66-76 | toggling twice a tag the list lacks restores the list |
| Intake.NewCasePage.HandleImpactChange | app/case/new/page.tsx:66-76 | the form's tag list (none counts as empty) becomes its toggle |
| Intake.GetAllImpactEntries | app/case/new/page.tsx:99-101 | the tag entries read back, under issueImpact, as the tag list in order, and nothing under other names |
| Intake.PackFormReadBack | app/case/new/page.tsx:89-101 | reading the packed form gives every field back; otherImpact only when non-empty; all tags in order |
| Intake.BuildFormData | app/case/new/page.tsx:89-101 | the successive appends, including the loop over the tags, build exactly the packed form |
| Intake.CasePath | app/case/new/page.tsx:123 | the template literal writes a missing field as "undefined" |
| Intake.CaseLink | app/case/new/page.tsx:123 | the corrected link reads the case's "id"; Intake.NewCasePage.OnSubmit navigates to it |
| Intake.SubmitOutcome | app/case/new/page.tsx:78-142 | no token: no request and the one missing-token toast; otherwise a POST to /api/cases with "Bearer " + token and the packed form; navigation iff the answer is ok with a readable body, then to the corrected case link with the success toast only; an ok answer with an unreadable body shows success then network error; a failed answer shows its message or the default; no answer shows network error |
| Intake.NewCasePage.OnSubmit | app/case/new/page.tsx:78-142 | the appends-based submit has exactly the effect SubmitOutcome describes, and loading is false at the end |
| Intake.NewCasePage.HandleSubmit | app/case/new/page.tsx:158 | a rejected form yields its errors, sends nothing and leaves loading alone; an accepted one has exactly onSubmit's effect (SubmitOutcome) and ends with loading false |
| Intake.NewCasePage.constructor | app/case/new/page.tsx:45-54 | the form starts with no impact list and the page not loading |
| Intake.CaseLinkAsWritten | app/case/new/page.tsx:123 | the link as the code writes it reads "_id", and is "/case/undefined" whenever the answer's case has no "_id" |
| FormData.Append | app/case/new/page.tsx:90-100 | append adds exactly one entry at the end |
| FormData.GetIsFirstOfGetAll | app/api/cases/route.ts:48-54 | get is the first value of getAll, and null iff getAll is empty |
| FormData.GetAllConcat | app/api/cases/route.ts:53 | getAll over two forms laid end to end is the concatenation |
| FormData.GetAt | app/api/cases/route.ts:48-52 | get returns the first entry with that name |
| Text.TakeUntil | app/api/cases/route.ts:27 | the prefix before the first separator: contains none, and is followed by one when shorter |
| Text.SplitHead | app/api/cases/route.ts:27 | the first piece of split is that prefix |
| Text.SplitAfterPiece | app/api/cases/route.ts:27 | splitting "p c rest" gives p followed by the pieces of rest |
| Text.JoinSplit | lib/utils.ts:9 | joining the pieces of a split gives the string back |
| Text.SplitJoin | lib/utils.ts:9 | splitting a join of separator-free pieces gives the pieces back |
| Text.LastIndexOf | components/dashboard/CaseItem.tsx:206 | the last index holding the character, or -1 when none does |
| Text.ReplaceFirstAbsent | components/common/Navbar.tsx:38 | replace changes nothing when the pattern does not occur |
| Text.ReplaceFirstSplit | components/common/Navbar.tsx:38 | replace changes the first occurrence only and keeps everything after it |
| CasesRoute.ExtractToken | app/api/cases/route.ts:18-27 | no token iff the header is missing or lacks the case-sensitive "Bearer " prefix; otherwise element [1] of the split, the text after the prefix up to the next space |
| CasesRoute.DoubleSpaceGivesEmptyToken | app/api/cases/route.ts:27 | "Bearer  x" yields the empty token |
| CasesRoute.Authenticate | app/api/cases/route.ts:18-44 | every refusal is 401; a bad header is refused with the plain message; admitted iff the verifier accepts the token, as the uid it returns |
| CasesRoute.BuildCaseData | app/api/cases/route.ts:47-77 | owner is the verified uid; each field is the form's first value; all issueImpact values in order; both timestamps are the server sentinel |
| CasesRoute.OwnerComesFromToken | app/api/cases/route.ts:44-67 | no form content can change the owner |
| CasesRoute.ResolveTimestamps | app/api/cases/route.ts:75-76 | the server sentinels become the commit time; nothing else changes |
| CasesRoute.OwnedByMembers | app/api/cases/route.ts:141-148 | a document is listed iff it is in the store and owned by the caller |
| CasesRoute.Isolation | app/api/cases/route.ts:141-148 | adding a case changes no other user's list and appends it to its owner's |
| CasesRoute.CaseCollection.AddDoc | app/api/cases/route.ts:83 | a failed write leaves the collection unchanged; a successful one appends one document under the new id |
| CasesRoute.HandlePost | app/api/cases/route.ts:14-106 | 401 before any write when unauthorised; 500 with the message on a bad body; 500 "Database error" on a failed write; 201 with the id and the record otherwise, the store changed only then |
| CasesRoute.HandleGet | app/api/cases/route.ts:108-161 | 401 when unauthorised; 500 on a failed query; otherwise 200 with exactly the caller's cases, the store untouched |
| IntakeRoundTrip.SubmittedCaseRoundTrip | app/api/cases/route.ts:47-77 | the route reads back every field the page packed, with the owner from the token |
| IntakeRoundTrip.AcceptedZipIsStored | app/case/new/page.tsx:32 | a form the page accepts is stored with a five-digit zip code |
| IntakeRoundTrip.CaseObject | app/api/cases/route.ts:88 | the created case object carries the new id under "id" and has no "_id" |
| IntakeRoundTrip.CreatedCaseLink | app/case/new/page.tsx:123 | the link as written is "/case/undefined" for every created case; the corrected link leads to the new id |
| CaseList.FilterByStatus | components/dashboard/CaseList.tsx:64-67 | "all" keeps every case; any other value keeps exactly the cases with that status |
| CaseList.SortedMeaning | components/dashboard/CaseList.tsx:68-76 | sorted by "createdAt" is newest first, by "priority" highest first, by anything else earliest due date first |
| CaseList.CompareIsKeyDifference | components/dashboard/CaseList.tsx:68-76 | each comparator is the difference of one integer key |
| CaseList.SwapStep | components/dashboard/CaseList.tsx:68 | one swap of an out-of-order neighbour keeps the insertion pass's invariant |
| CaseList.SwapPermutes | components/dashboard/CaseList.tsx:68 | a swap keeps the multiset of cases |
| CaseList.InsertDone | components/dashboard/CaseList.tsx:68 | a finished pass leaves the prefix sorted |
| CaseList.InsertionSort | components/dashboard/CaseList.tsx:68-76 | the array ends sorted by the key and is a permutation of what it was |
| CaseList.FilteredCases | components/dashboard/CaseList.tsx:63-77 | the result is sorted by the chosen order and is a permutation of exactly the filtered cases; the state list is not reordered |
| CaseList.CaseListState.constructor | components/dashboard/CaseList.tsx:33-36 | no cases, filter "all", sort "createdAt", loading |
| CaseList.CaseListState.SetFilterStatus | components/dashboard/CaseList.tsx:98 | the status select sets the filter to the chosen value and changes nothing else |
| CaseList.CaseListState.SetSortBy | components/dashboard/CaseList.tsx:105 | the sort select sets the sort key to the chosen value and changes nothing else |
| CaseList.CaseListState.FetchCompleted | components/dashboard/CaseList.tsx:46-57 | a successful fetch replaces the cases; a failed one leaves them; loading stops either way |
| CaseList.CaseListState.Visible | components/dashboard/CaseList.tsx:63-77 | the rendered list is the filtered, sorted state |
| CaseList.FailedFirstFetch | components/dashboard/CaseList.tsx:46-57 | a failed first fetch leaves no cases and stops loading |
| Config.MissingMessage | lib/config.ts:11-14 | the error message names the missing key |
| Config.FirstMissing | lib/config.ts:8-15 | the first key, in list order, whose value is unset or empty |
| Config.ValidateEnvironment | lib/config.ts:3-20 | throws on the first missing key and returns no partial record; otherwise the record has exactly the required keys, each with its environment value |
| Config.EmptyRequirement | lib/config.ts:3-20 | an empty list gives an empty record |
| MongoConnection.ConnectionCache.constructor | lib/mongodb.ts:11-14 | the cache starts with no connection and no pending attempt |
| MongoConnection.Rethrown | lib/mongodb.ts:52-54 | an Error is rethrown as is; anything else becomes "Failed to connect to MongoDB" |
| MongoConnection.ConnectionCache.DbConnect | lib/mongodb.ts:22-56 | a set connection returns at once; an attempt starts only when none is cached; a rejection clears the promise and leaves no connection; a resolve stores the connection, and a not-ready state fails and clears the promise but keeps the connection |
| MongoConnection.NotReadyThenCached | lib/mongodb.ts:25-47 | after a not-ready failure, the next call succeeds at once |
| MongoConnection.RetryAfterRejection | lib/mongodb.ts:30-51 | after a rejection, the next call starts a new attempt |
| Utils.Render | lib/utils.ts:9 | join writes a kept string as itself and true as "true" |
| Utils.KeptNonEmpty | lib/utils.ts:9 | every kept value is written as a non-empty string |
| Utils.Cn | lib/utils.ts:8-10 | the result is empty iff no argument is truthy |
| Utils.KeptConcat | lib/utils.ts:9 | filtering keeps argument order |
| Utils.FalsyIgnored | lib/utils.ts:9 | a falsy argument makes no difference wherever it stands |
| Utils.CnSplitsBack | lib/utils.ts:9 | splitting the result on spaces gives the kept names back |
| Utils.SetHeader | lib/utils.ts:29-30 | setting a header replaces every header whose name matches it ignoring case, keeps every other header and its value, and stores the new value |
| Utils.ForgedIdReplaced | lib/utils.ts:29-30 | an incoming "X-User-Id" header is dropped when the guard sets x-user-id |
| Utils.Middleware | lib/utils.ts:15-44 | no token on a protected prefix: redirect to /login; no token elsewhere: pass unchanged; a token is always verified, failure redirects; success passes with x-user-id set, any header of that name in another case dropped, and every other header kept |
| Utils.IdentityOnlyFromVerifiedToken | lib/utils.ts:26-41 | a request carries an identity only after the verifier accepted its token |
| Utils.ProtectedExamples | lib/utils.ts:17-21 | both prefixes and their sub-paths are guarded, "/" is not |
| LoginRoute.SigningSecret | app/api/login/route.tsx:58 | JWT_SECRET, or the fallback secret when it is unset or empty |
| LoginRoute.Login | app/api/login/route.tsx:23-76 | 400 iff a field is missing, before any lookup; 401 iff the email is unknown or the password wrong; success carries the matched user's id and email and the one-day token over the id; a throw from the connection, the body parse, the lookup, the comparison or the signing gives 500 "Internal server error", and every 500 is that answer |
| LoginRoute.UnknownEmailLooksLikeWrongPassword | app/api/login/route.tsx:38-54 | an unknown email and a wrong password get the same answer |
| LoginRoute.MissingFieldsCheckedFirst | app/api/login/route.tsx:29-34 | a body missing a field is answered without consulting the store, the comparison or the signing |
| LoginRoute.HashNotDisclosed | app/api/login/route.tsx:62-68 | the stored hash has no influence on the success answer |
| LoginRoute.RegisteredUserLogsIn | app/api/login/route.tsx:38-68 | with unique emails, a stored user with the right password is let in as that user |
| UserModel.MissingPaths | models/User.ts:16-21 | a document is complete iff firstName, lastName, email and passwordHash are all given |
| UserModel.ComparePassword | models/User.ts:36-40 | the plain-text candidate is checked by the hashing library against the stored hash, and no other field of the user |
| UserModel.GenerateToken | models/User.ts:42-46 | the token is signed over the user's id with a 24-hour expiry; signing without a secret throws |
| UserModel.FindByEmail | models/User.ts:19 | a match is a stored user with that email; no match means no user has it |
| UserModel.FindUnique | models/User.ts:19 | under the unique index the lookup finds exactly that user |
| UserModel.UserDocument.constructor | models/User.ts:16-21 | a new document marks every given path as modified |
| UserModel.UserDocument.PreSave | models/User.ts:23-34 | an unmodified hash is left alone; a modified one becomes the hash of its old value under a new salt; a salt or hash failure aborts with that error and changes nothing |
| SignupRoute.NewUserFields | app/api/signup/page.tsx:23-28 | the password is placed, as given, in passwordHash |
| SignupRoute.SaveOutcome | app/api/signup/page.tsx:30 | a save succeeds, storing the hash, exactly when the document is complete and the salt, the hash and the insert all succeed |
| SignupRoute.UserCollection.Signup | app/api/signup/page.tsx:8-40 | a throw from the connection, the body parse or the lookup gives 500 with the store unchanged; a registered email gives 400 with the store unchanged; a save that fails validation, hashing or the insert gives 500 with the store unchanged; otherwise exactly one user is added, with its fields and the hashed password, and the answer is 201 with its token, or 500 if signing throws; emails stay unique |
| SignupRoute.SignupThenLogin | app/api/signup/page.tsx:8-40 | a user who has signed up can log in with the same email and password |
| CaseModel.MissingPaths | models/Case.ts:10-17 | a path is reported iff it is required and not given |
| CaseModel.NewCase | models/Case.ts:9-29 | refused iff a required path is missing; otherwise given values kept, array paths default to [], optional paths stay absent, timestamps default to now |
| CaseModel.RebuildIsIdentity | models/Case.ts:15-28 | defaults only fill gaps: rebuilding a stored record gives it back |
| CaseModel.TimeOnlyFillsTimestamps | models/Case.ts:27-28 | the time of construction matters only for timestamps not given |
| CaseItem.AllDocuments | components/dashboard/CaseItem.tsx:197-198 | the listed documents are the case's own, then the supporting ones if any |
| CaseItem.DocumentCount | components/dashboard/CaseItem.tsx:116-117 | the document count shown equals the number of documents listed, and is the case's own count when there are no supporting documents |
| CaseItem.CaseItemView.constructor | components/dashboard/CaseItem.tsx:32 | an item starts collapsed |
| CaseItem.DisplayName | components/dashboard/CaseItem.tsx:206 | the shown name is a suffix without '/', preceded by '/' when shorter, and the whole path when it has none |
| CaseItem.DisplayedNames | components/dashboard/CaseItem.tsx:197-206 | one name per listed document, each the display name of that document |
| CaseItem.NextDeadline | components/dashboard/CaseItem.tsx:102-110 | shown only for a present, non-empty deadline list, and then its first entry |
| CaseItem.CaseItemView.ToggleExpanded | components/dashboard/CaseItem.tsx:70 | the button negates isExpanded |
| CaseItem.PressTwice | components/dashboard/CaseItem.tsx:32-70 | from the collapsed start, one press expands and a second collapses |
| Navbar.NavLinks | components/common/Navbar.tsx:16-18 | signed out: About, Services, Contact; signed in: Dashboard, New Case, Ask AI |
| Navbar.Href | components/common/Navbar.tsx:38 | every href starts with '/' and is one longer than the label |
| Navbar.HrefOneWord | components/common/Navbar.tsx:38 | a label without a space leads to '/' and its lower-cased self |
| Navbar.HrefWords | components/common/Navbar.tsx:38 | only the first space becomes '-'; the rest of the label keeps its spaces |
| Navbar.NewCaseHref | components/common/Navbar.tsx:38 | "New Case" leads to "/new-case" |
| Navbar.SecondSpaceKept | components/common/Navbar.tsx:38 | a second space in a label is kept |
| Navbar.NavbarState.constructor | components/common/Navbar.tsx:9-10 | signed out, menu closed |
| Navbar.NavbarState.Logout | components/common/Navbar.tsx:12-14 | logout signs out and shows the signed-out links |
| Navbar.NavbarState.ToggleMenu | components/common/Navbar.tsx:72 | the menu button flips the menu |
| Navbar.NavbarState.MobileLinkClick | components/common/Navbar.tsx:99 | a mobile link closes the menu |
| Navbar.NavbarState.MobileLogout | components/common/Navbar.tsx:123-126 | the mobile logout signs out and closes the menu |

## Findings

| source | as written | input that shows it | evidently intended | confidence | as-written member | corrected member |
|---|---|---|---|---|---|---|
| app/case/new/page.tsx:123 | after a case is created the page navigates to `/case/${data.case._id}`, but the case route's answer names the id `id` (app/api/cases/route.ts:88), so `_id` is undefined | any successful submission, e.g. a created case with id "abc": IntakeRoundTrip.CreatedCaseLink shows the link is "/case/undefined" | navigate to "/case/abc" | high; not executed | Intake.CaseLinkAsWritten | Intake.CaseLink |

## Left out

- Identity provider, token verification (`verifyIdToken`, `jwtVerify`), bcrypt and `jsonwebtoken`: these are oracles passed in as parameters. Signatures, expiry checks and hashing are not modelled.
- The database and the document store are sequences of records held by a class. Their answers, including write and query failures, are parameters. Query planning, indexes and the store's id generation are not modelled.
- Network `fetch`, toasts, router navigation, `setTimeout` delays and cookies are not modelled. The page's effect is returned as a value: the request, the toasts in order, and the navigation target.
- React scheduling (`useEffect`, `useMemo`) is not modelled. Each handler is a method on the component's state.
- MongoConnection.ConnectionCache.DbConnect: callers that share one pending promise at the same time are not modelled. Calls are taken one after another, and each call's settlement is a parameter.
- The matcher configuration in lib/utils.ts:46-48 is not modelled. It only tells the framework which paths run the guard.
- The import-time throws when `MONGODB_URI` (lib/mongodb.ts:16-20) or `JWT_SECRET` (app/api/login/route.tsx:17-21) is unset are not modelled. A module that throws there never serves a request.
- Dates are integer timestamps. `new Date(...)` parsing and its NaN comparisons in the due-date sort are not modelled.
- `priority` is an integer, so a sort key that is not a number is not modelled.
- CaseList.InsertionSort: the result is stated as sorted and a permutation. Stability is not stated, although the insertion sort swaps only strictly out-of-order neighbours.
- Text.Lower: only ASCII letters are lower-cased; full Unicode case mapping is not modelled.
- String lengths are counted in characters, not in UTF-16 code units.
- UserModel.MissingPaths: "required" is modelled as "given". Mongoose's own rule that an empty string also fails `required` belongs to the library and is not modelled.
- UserModel.FindByEmail: a missing email matches no user. How Mongoose treats an `undefined` filter value is not modelled.
- SignupRoute.UserCollection.Signup: two signups racing on one email are not modelled as interleaved calls. The unique index rejecting the second insert is a failure of the `insert` parameter, and the store keeps the invariant that emails stay unique.
- `lib/api-utils.ts`, the landing and layout components, the Firebase wrappers and the case-analysis route are not part of this model.
- The case route (Firebase ID tokens) and the guard, login and signup (JWTs signed with `JWT_SECRET`) use two separate sign-in designs. They are kept separate here.
- The `userId` query parameter that the dashboard sends is ignored by the route, which filters by the token's uid. That uid is what the model uses.
