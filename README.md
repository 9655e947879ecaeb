# Assignment Hub front end: a verified model of its decision logic

Assignment Hub is a React single-page front end for an assignment marketplace.
Clients post assignments. Helpers accept them and submit the work. Clients
review it, and admins set and record helper payouts. Most of the front end
renders JSX and makes HTTP calls. Under the page components sits a body of
decision logic, and this project models that logic in Dafny and proves
properties of it:

- **Category suggester** of the create-assignment form. It does
  case-insensitive keyword matching over a fixed table of 39 keywords. The
  longest match wins, and the first one in table order wins a tie. The form
  also groups the catalog by handler type, applies a suggestion, and resets
  the form after a create.
- **Form checks and payloads**:
  - helper registration, with its submit rule, ordered checks, payload and
    payment-field reset;
  - the create-assignment required fields;
  - the set-payout guard;
  - the payout transaction id.
- **Routing and the session** (`App`):
  - where a login lands;
  - the `authenticate` effect, with its stored session and one-shot
    `isLoggingOutFlag`;
  - logout and the bearer header;
  - the route table with its guards;
  - the header's dashboard link.
- **Workflow gating**:
  - accept eligibility;
  - review eligibility;
  - the payout form and the local "paid" update;
  - per-status action buttons on the admin, helper and client dashboards.
- **List and string helpers**:
  - the role toggle;
  - the available and owned list filters;
  - `isSummarizable`;
  - the status label;
  - `getStatusColor`.

Each page's component state is a `class` whose fields mirror its `useState`
variables, and each handler is a `method`. A page with many fields exposes a
`Current()` view and ties every handler to a pure function of the old view and
the inputs. Those functions carry the detailed contracts, and lemmas relate
them to one another. The outside world enters only as parameters:

- HTTP replies are datatypes;
- `JSON.parse` is a function `string -> Option<UserData>`, where `None` means
  it threw; `JSON.stringify` is a function the other way;
- `localStorage` is a `map<string, string>`, or a `Browser.LocalStorage`
  object for handlers that change it;
- the `code` query parameter and the clock reading are plain values;
- every navigation is a returned path.

Files, one module each:

- `wrappers.dfy`: `Option`, `Result` and `message || fallback`.
- `domain.dfy`: status, the cached user, the assignment record, access outcomes.
- `browser.dfy`: `localStorage`.
- `text.dfy`: lower/upper case, trimming, `split('.').pop()`, `replace`.
- `seqs.dfy`: `filter` and its laws.
- `app.dfy`: `src/App.tsx`.
- `authenticated_layout.dfy`: `src/AuthenticatedLayout.tsx`.
- `category_keywords.dfy`: the keyword table of `suggestCategory`.
- `create_assignment.dfy`: `src/CreateAssignmentForm.tsx`.
- `helper_registration.dfy`: `src/HelperRegistrationPage.tsx`.
- `admin_dashboard.dfy`: `src/AdminDashboardPage.tsx`.
- `accept_assignment.dfy`: `src/AcceptAssignmentPage.tsx`.
- `review_assignment.dfy`: `src/ReviewAssignmentPage.tsx`.
- `pay_helper.dfy`: `src/PayHelperPage.tsx`.
- `helper_dashboard.dfy`: `src/HelperDashboardPage.tsx`.
- `client_dashboard.dfy`: `src/ClientDashboardPage.tsx`.

## Model

| member | source | states |
|---|---|---|
| Wrappers.MessageOr | src/App.tsx:155 | a present, non-empty backend message is shown; an absent or empty one falls back to the page's default text |
| Domain.ParseStatus | src/App.tsx:56 | reading a wire status gives the status whose name it is; any other text is no status |
| Domain.StatusNameRoundTrip | src/App.tsx:56 | every status's wire name reads back as that status, so no two statuses share a name |
| Domain.StatusLabel | src/ReviewAssignmentPage.tsx:109 | the label has the raw status's length; each `_` becomes a space and every other character is upper-cased |
| Domain.StatusLabelShape | src/ReviewAssignmentPage.tsx:109 | no label contains `_` or a lower-case letter |
| Browser.Get | src/App.tsx:183-186 | `getItem` yields a value exactly when the key is stored, and then the stored value |
| Browser.LocalStorage.constructor | src/App.tsx:183 | the storage starts with the given items |
| Browser.LocalStorage.SetItem | src/App.tsx:143-144 | `setItem` maps the key to the value and leaves every other key alone |
| Browser.LocalStorage.RemoveItem | src/App.tsx:200-201 | `removeItem` drops exactly that key |
| Text.LowerChar | src/CreateAssignmentForm.tsx:53 | upper-case ASCII letters move to lower case; every other character is unchanged |
| Text.UpperChar | src/ReviewAssignmentPage.tsx:109 | lower-case ASCII letters move to upper case; every other character is unchanged |
| Text.ToLower | src/CreateAssignmentForm.tsx:53 | `toLowerCase` keeps the length and lower-cases each character in place |
| Text.ToUpper | src/ReviewAssignmentPage.tsx:109 | `toUpperCase` keeps the length and upper-cases each character in place |
| Text.ToLowerIdempotent | src/CreateAssignmentForm.tsx:107 | a lower-cased string has no upper-case letter, and lower-casing it again changes nothing |
| Text.LowerOfUpper | src/ReviewAssignmentPage.tsx:198 | lower-casing an upper-cased string gives the lower-cased original |
| Text.Contains | src/CreateAssignmentForm.tsx:105 | `includes` holds exactly when the text occurs at some position |
| Text.ContainsWithin | src/CreateAssignmentForm.tsx:105 | a text placed between any two strings is included in the result |
| Text.TrimStart | src/PayHelperPage.tsx:72 | only leading JavaScript white space is removed, and the result does not start with white space |
| Text.TrimEnd | src/PayHelperPage.tsx:72 | only trailing JavaScript white space is removed, and the result does not end with white space |
| Text.TrimEmptyIff | src/PayHelperPage.tsx:72 | `trim()` is empty exactly when every character is white space |
| Text.LastSegment | src/ReviewAssignmentPage.tsx:198 | `split(sep).pop()` is a suffix without the separator, preceded by the separator unless it is the whole text |
| Text.LastSegmentOfJoin | src/ReviewAssignmentPage.tsx:198 | the last segment of `base + sep + ext` is `ext` when `ext` has no separator |
| Text.LastSegmentNoSep | src/ReviewAssignmentPage.tsx:198 | text without the separator is its own last segment |
| Text.ToLowerSnoc | src/ReviewAssignmentPage.tsx:198 | lower-casing distributes over appending a character |
| Text.LastSegmentOfLower | src/ReviewAssignmentPage.tsx:198 | for a separator that is not a letter, splitting commutes with lower-casing |
| Text.ReplaceChar | src/ReviewAssignmentPage.tsx:109 | `replace(/x/g, y)` keeps the length and replaces exactly the occurrences of `x` |
| Seqs.Filter | src/HelperDashboardPage.tsx:66 | `filter` keeps exactly the elements satisfying the test and is no longer than its input |
| Seqs.FilterCount | src/HelperDashboardPage.tsx:66 | each kept element occurs as often as in the input; every dropped one never |
| Seqs.FilterConcat | src/ClientDashboardPage.tsx:53 | filtering keeps order: the filter of two batches is the two filtered batches |
| Seqs.FilterAll | src/HelperDashboardPage.tsx:66 | a list whose every element passes the test is returned whole |
| Seqs.FilterNone | src/AdminDashboardPage.tsx:245 | a list none of whose elements pass the test filters to nothing |
| Seqs.DropsOne | src/AdminDashboardPage.tsx:245 | a single failing element between passing ones is the only one removed, and the rest keep their order |
| Seqs.FilterIdempotent | src/ClientDashboardPage.tsx:53 | filtering twice is filtering once |
| App.PostLoginTarget | src/App.tsx:147-153 | admins land on /admin-dashboard before anything else; then helpers on /helper-dashboard; everyone else on /login |
| App.AcceptLogin | src/App.tsx:139-162 | a 200 reply with a user stores token and user, logs in and navigates to the login target; another 2xx reply sets the backend message or the failure text; a non-2xx status or a failed request sets the backend message or the error text; storage is kept on every failure and loading ends either way |
| App.StoredUser | src/App.tsx:183-199 | a stored session logs in exactly when both keys are non-empty and the user data parses to a user with an id |
| App.AfterStoredCheck | src/App.tsx:196-202 | both credentials are removed exactly when they are present and the user data does not parse; otherwise storage is untouched |
| App.LocalLogin | src/App.tsx:130-163 | no contract of its own: a local login starts loading, clears the error and then reacts to the reply as `AcceptLogin` does with the local-login texts; `LoginSurvivesReload` and `LoginAuthorizes` state what a successful one leaves |
| App.Authenticate | src/App.tsx:167-243 | no contract of its own: the whole `authenticate` effect (flag, stored session, code exchange); `FlagConsumed`, `ReloadAfterLogout`, `StoredSessionRestores`, `CorruptStorageCleared` and `LoginSurvivesReload` state its cases |
| App.Logout | src/App.tsx:250-264 | no contract of its own: `handleLogout`; `LogoutClears`, `ReloadAfterLogout` and `LoginAuthorizes` state what it leaves in storage and in the session |
| App.FlagConsumed | src/App.tsx:170-178 | with the flag raised, `authenticate` removes it, sends no request, establishes no session and navigates nowhere |
| App.LogoutClears | src/App.tsx:250-264 | logout raises the flag, removes user data and token, clears the session and keeps every other stored key |
| App.ReloadAfterLogout | src/App.tsx:170-178 | the reload after logout consumes the flag and logs nobody in; a second run no longer sees the flag and, with no code, still logs nobody in |
| App.StoredSessionRestores | src/App.tsx:183-195 | a stored token plus a parseable stored user with an id log in with no request and no storage change |
| App.CorruptStorageCleared | src/App.tsx:196-202 | unparseable stored user data removes both keys; without a code the session stays as it was, with no error and no request |
| App.LoginSurvivesReload | src/App.tsx:130-203 | after a successful local login, the next `authenticate` restores the same user from storage without a request, given that parse reads back what stringify wrote |
| App.AuthorizationHeader | src/App.tsx:97-105 | `Authorization: Bearer <token>` is added exactly when a non-empty token is stored |
| App.LoginAuthorizes | src/App.tsx:97-105 | after a successful login every request carries the new token; after logout none carries any |
| App.LoginPageRedirect | src/App.tsx:284-299 | no contract of its own: the login page's redirect of a stored admin or helper; `LoginPageRedirectAgrees` ties it to the login target |
| App.LoginPageRedirectAgrees | src/App.tsx:284-299 | the login page redirects a stored admin or helper exactly where a fresh login would, and keeps everyone else |
| App.Match | src/App.tsx:440-529 | the three parameter routes yield exactly the `assignmentId` parameter; every other route yields none |
| App.Render | src/App.tsx:440-529 | no contract of its own: the screen of each route for a session; the guard lemmas below state what each route shows |
| App.Show | src/App.tsx:440-529 | no contract of its own: the screen a path shows, through `Match` and `Render`; `LayoutNeedsLogin`, the two dashboard guards, `RootAgreesWithLoginTarget` and `UnknownPathsShowLogin` state its properties |
| App.LayoutNeedsLogin | src/App.tsx:447-504 | no path shows the authenticated layout without a logged-in user |
| App.AdminDashboardGuard | src/App.tsx:476-484 | the admin dashboard shows only to a logged-in admin, and always does at its own path |
| App.HelperDashboardGuard | src/App.tsx:496-504 | the helper dashboard shows only to a logged-in helper, and always does at its own path |
| App.RootAgreesWithLoginTarget | src/App.tsx:507-525 | once loaded, `/` shows the same screen as the page a login lands on |
| App.UnknownPathsShowLogin | src/App.tsx:528 | every path outside the table shows the login page |
| App.AppShell.constructor | src/App.tsx:124-127 | the shell starts logged out, with no user or error, and loading |
| App.AppShell.RunAuthenticate | src/App.tsx:167-243 | the effect's storage, session, navigation and request all agree with `Authenticate` of the old state |
| App.AppShell.TryStoredSession | src/App.tsx:183-203 | restores exactly when `StoredUser` finds a user, and then logs it in; otherwise leaves the session and applies `AfterStoredCheck` to storage |
| App.AppShell.ApplyLoginReply | src/App.tsx:139-162 | storage, session and navigation are those of `AcceptLogin` |
| App.AppShell.HandleLocalLogin | src/App.tsx:130-163 | storage, session and navigation are those of a local login from a loading, error-free state |
| App.AppShell.HandleLogout | src/App.tsx:250-264 | storage and session are those of `Logout`, and the reload goes to /login |
| App.AppShell.ScreenAt | src/App.tsx:447-504 | the authenticated layout is rendered only while logged in with a user |
| AuthenticatedLayout.DashboardLink | src/AuthenticatedLayout.tsx:17-28 | no user, no link; admin before helper before client; any other user gets none |
| AuthenticatedLayout.LinkAgreesWithLogin | src/AuthenticatedLayout.tsx:20-23 | for a logged-in admin or helper the link goes where a login lands and opens their dashboard |
| AuthenticatedLayout.ClientLinkShowsLogin | src/AuthenticatedLayout.tsx:24-25 | the client link points at a path with no route, so it shows the login page |
| CategoryKeywords.KeywordsNonEmpty | src/CreateAssignmentForm.tsx:57-102 | every keyword of the table is non-empty, so each match scores at least 1 |
| CreateAssignment.FindCategory | src/CreateAssignmentForm.tsx:107 | the case-insensitive `find` gives the first matching catalog index, or none when no entry matches |
| CreateAssignment.Resolve | src/CreateAssignmentForm.tsx:107-113 | a resolved candidate is spelled as a matching catalog entry's name; none means no entry matches |
| CreateAssignment.FirstCatalogued | src/CreateAssignmentForm.tsx:106-115 | the result is the catalog spelling of the first candidate the catalog has, or none when no candidate is catalogued |
| CreateAssignment.ScanCandidates | src/CreateAssignmentForm.tsx:106-116 | no contract of its own: the inner loop over one keyword's candidates; `ScanCandidatesFirst` states what it can install |
| CreateAssignment.ScanKeywords | src/CreateAssignmentForm.tsx:104-119 | no contract of its own: the outer loop over the keyword table; `ScanKeywordsWinner` and `ScanKeywordsFromCatalog` state its result |
| CreateAssignment.Suggest | src/CreateAssignmentForm.tsx:52-119 | no contract of its own: `suggestCategory` on the lower-cased description; `SuggestNoneIff`, `SuggestWinner` and `SuggestFromCatalog` state its result |
| CreateAssignment.ScanCandidatesFirst | src/CreateAssignmentForm.tsx:106-116 | one keyword's inner loop can only install its first catalogued candidate, and only if its score beats the best so far |
| CreateAssignment.WinnerExtends | src/CreateAssignmentForm.tsx:111 | a winner stays the winner when an appended keyword cannot beat it |
| CreateAssignment.WinnerNew | src/CreateAssignmentForm.tsx:111 | an appended keyword longer than every earlier participant becomes the winner |
| CreateAssignment.StepIneligible | src/CreateAssignmentForm.tsx:105-108 | a keyword that does not occur, or has no catalogued candidate, keeps the outer-loop invariant without changing the best |
| CreateAssignment.StepShorter | src/CreateAssignmentForm.tsx:111 | under strict `>` a participating keyword no longer than the best so far changes nothing |
| CreateAssignment.StepLonger | src/CreateAssignmentForm.tsx:110-113 | a longer participating keyword takes over with its length and its first catalogued candidate |
| CreateAssignment.DescribesStep | src/CreateAssignmentForm.tsx:104-118 | one iteration of the outer loop keeps the invariant |
| CreateAssignment.ScanKeywordsWinner | src/CreateAssignmentForm.tsx:104-119 | the result is null exactly when no keyword participates; otherwise it is the first catalogued candidate of the longest participating keyword, the first in table order on a tie |
| CreateAssignment.WinnerUnique | src/CreateAssignmentForm.tsx:111 | at most one keyword is the winner |
| CreateAssignment.SuggestNoneIff | src/CreateAssignmentForm.tsx:104-119 | `suggestCategory` is null exactly when no table keyword occurs in the lower-cased text with a catalogued candidate |
| CreateAssignment.SuggestWinner | src/CreateAssignmentForm.tsx:110-114 | a suggestion is the first catalogued candidate of the winning keyword |
| CreateAssignment.ScanKeywordsFromCatalog | src/CreateAssignmentForm.tsx:113 | a scan's result is spelled exactly as some catalog entry's name |
| CreateAssignment.SuggestFromCatalog | src/CreateAssignmentForm.tsx:113 | a non-null suggestion is spelled exactly as some catalog entry's name |
| CreateAssignment.ScanTable | src/CreateAssignmentForm.tsx:104-118 | the nested loops leave `highestScore` and `bestMatch` equal to the functional scan of the table |
| CreateAssignment.SuggestCategory | src/CreateAssignmentForm.tsx:52-120 | the method returns exactly the suggestion of the functional specification |
| CreateAssignment.SuggestionFor | src/CreateAssignmentForm.tsx:188-197 | a description of at most ten characters clears the suggestion; a longer one suggests `suggestCategory`'s result |
| CreateAssignment.Grouped | src/CreateAssignmentForm.tsx:150-156 | no contract of its own: the `reduce` into groups by handler type; `GroupedMembers`, `GroupedEntries` and `GroupedByHandler` state its contents |
| CreateAssignment.GroupKeys | src/CreateAssignmentForm.tsx:160-161 | no contract of its own: `Object.keys` of the groups, in first-occurrence order; `GroupKeysDistinct` and `GroupDefaults` state its properties |
| CreateAssignment.GroupedMembers | src/CreateAssignmentForm.tsx:150-156 | a group exists exactly for each handler type that occurs, and the key list names exactly those groups |
| CreateAssignment.GroupedEntries | src/CreateAssignmentForm.tsx:150-156 | each group holds exactly the categories of its handler type, in catalog order |
| CreateAssignment.GroupKeysDistinct | src/CreateAssignmentForm.tsx:151-153 | no handler type is listed twice among `Object.keys` |
| CreateAssignment.GroupedByHandler | src/CreateAssignmentForm.tsx:150-156 | every category is in exactly the group of its handler type, in catalog order, and the keys are those groups without repeats |
| CreateAssignment.GroupDefaults | src/CreateAssignmentForm.tsx:160-165 | for a non-empty catalog the first key is the first category's group, and that group starts with that category |
| CreateAssignment.GroupByHandlerType | src/CreateAssignmentForm.tsx:150-156 | the reduce loop builds exactly the specified groups and key order |
| CreateAssignment.FindByName | src/CreateAssignmentForm.tsx:201 | the exact, case-sensitive `find` gives the first entry with that name, or none when there is no such entry |
| CreateAssignment.ApplySuggestion | src/CreateAssignmentForm.tsx:199-208 | no suggestion, or one not in the catalog, changes nothing; otherwise the topic becomes the suggestion, the group a catalog entry of that name's handler type, and the suggestion is cleared |
| CreateAssignment.SuggestionApplies | src/CreateAssignmentForm.tsx:192-202 | every suggestion the suggester makes names a catalog entry, so applying it takes effect |
| CreateAssignment.SyncCategoryAsWritten | src/CreateAssignmentForm.tsx:178-184 | as written, the effect always selects the group's first topic, or clears the topic when the group is empty or unknown |
| CreateAssignment.SyncCategory | src/CreateAssignmentForm.tsx:178-184 | the intended effect keeps a topic already in the new group and otherwise selects its first one |
| CreateAssignment.AppliedSuggestionLostAsWritten | src/CreateAssignmentForm.tsx:178-208 | for a concrete catalog, as written, applying "Graphic Design" ends with "Essay Writing" selected |
| CreateAssignment.AppliedSuggestionKept | src/CreateAssignmentForm.tsx:199-208 | with the intended effect, applying a catalogued suggestion selects its handler type's group and exactly that topic, and clears the suggestion |
| CreateAssignment.SubmitError | src/CreateAssignmentForm.tsx:218-222 | submission is refused, with the one fixed message, exactly when title, description, category or deadline is empty or the amount is at most 0 |
| CreateAssignment.ResetSelection | src/CreateAssignmentForm.tsx:256-265 | with no groups both group and topic are cleared; otherwise the defaults are chosen again |
| CreateAssignment.DefaultIsFirstCategory | src/CreateAssignmentForm.tsx:160-165 | loading a non-empty catalog selects its first category and that category's group |
| CreateAssignment.AfterCreate | src/CreateAssignmentForm.tsx:247-277 | success shows the message, clears the inputs and resets the selection; failure keeps every input and shows the backend message or the default; submitting ends either way |
| CreateAssignment.CreatedResetsToFirstCategory | src/CreateAssignmentForm.tsx:256-261 | after a success on a non-empty catalog the form again shows the first category and its group |
| CreateAssignment.CreateAssignmentForm.constructor | src/CreateAssignmentForm.tsx:124-139 | the form starts empty, with complexity low, no catalog, loading and no suggestion |
| CreateAssignment.CreateAssignmentForm.LoadCategories | src/CreateAssignmentForm.tsx:143-175 | a loaded catalog is stored and grouped and the defaults are selected; a failure keeps everything and sets the fixed error; loading ends |
| CreateAssignment.CreateAssignmentForm.DescriptionChange | src/CreateAssignmentForm.tsx:188-197 | the description is replaced and the suggestion is `SuggestionFor` the new text over the catalog |
| CreateAssignment.CreateAssignmentForm.ApplySuggestionClick | src/CreateAssignmentForm.tsx:199-208 | group, topic and suggestion are those of applying the suggestion followed by the topic effect as written, so a group change replaces the applied topic with the group's first; only the form and the suggestion may change |
| CreateAssignment.CreateAssignmentForm.SelectMainCategory | src/CreateAssignmentForm.tsx:178-184 | a new group selects its first topic, or clears the topic for an empty or unknown group, as the effect is written; picking the same group changes nothing; only the form may change |
| CreateAssignment.CreateAssignmentForm.Submit | src/CreateAssignmentForm.tsx:211-278 | a request is sent exactly when the validation passes; a refusal sets its error and ends submitting; a sent request leaves the form as `AfterCreate` says |
| CreateAssignment.CreateAssignmentForm.ReplyToCreate | src/CreateAssignmentForm.tsx:247-277 | the form becomes `AfterCreate` of the reply |
| HelperRegistration.PaymentComplete | src/HelperRegistrationPage.tsx:157-195 | no contract of its own: the region's payment details are all filled in; `ValidateSubmission` states that the checks pass exactly with it and matching passwords |
| HelperRegistration.Details | src/HelperRegistrationPage.tsx:157-195 | no contract of its own: the payment fields added to the payload; `PayloadDetails` states which keys a local or foreign payload carries |
| HelperRegistration.ValidateSubmission | src/HelperRegistrationPage.tsx:137-196 | the client checks pass exactly when the passwords match and the region's payment details are complete; the payload then holds the four base fields and the chosen method's details |
| HelperRegistration.ValidationOrder | src/HelperRegistrationPage.tsx:137-196 | mismatch, then missing region, then the region- and wallet-specific field: the first failed check names the error |
| HelperRegistration.PayloadDetails | src/HelperRegistrationPage.tsx:149-195 | a local payload carries exactly the bank fields, a foreign one exactly the chosen wallet's, and every detail is non-empty |
| HelperRegistration.IsFormInvalid | src/HelperRegistrationPage.tsx:221-235 | no contract of its own: the submit button's rule; `FormInvalidIff` and `EnabledSubmitPasses` relate it to the submit checks |
| HelperRegistration.FormInvalidIff | src/HelperRegistrationPage.tsx:221-235 | the button rule disables exactly while loading, with fewer than three categories, or when some submit check fails |
| HelperRegistration.EnabledSubmitPasses | src/HelperRegistrationPage.tsx:137-196 | an enabled button never leads to a client-side error |
| HelperRegistration.ResetPaymentFields | src/HelperRegistrationPage.tsx:86-123 | local clears every foreign field; foreign clears the bank fields and keeps only the chosen wallet's fields; no region clears every payment field and the wallet type |
| HelperRegistration.ResetIdempotent | src/HelperRegistrationPage.tsx:86-123 | running the effect again changes nothing |
| HelperRegistration.ResetKeepsSubmission | src/HelperRegistrationPage.tsx:86-196 | the reset only clears fields the submit handler ignores, so the outcome of submitting is the same |
| HelperRegistration.HelperRegistrationPage.constructor | src/HelperRegistrationPage.tsx:44-67 | the form starts empty with no region or wallet, categories loading, and no message or error |
| HelperRegistration.HelperRegistrationPage.ChangeRegion | src/HelperRegistrationPage.tsx:309 | a new region is set and the reset effect follows; the same region changes nothing |
| HelperRegistration.HelperRegistrationPage.ChangeWalletType | src/HelperRegistrationPage.tsx:362 | a new wallet type is set and the reset effect follows; the same type changes nothing |
| HelperRegistration.HelperRegistrationPage.ChangeCategories | src/HelperRegistrationPage.tsx:126-129 | the selected options replace the chosen categories |
| HelperRegistration.HelperRegistrationPage.HandleSubmit | src/HelperRegistrationPage.tsx:131-218 | a failed check sets its error and sends nothing; otherwise the payload is sent; a 201 stores token and user and goes to /helper-dashboard; another 2xx reply sets the backend message or "Registration failed."; a non-2xx status or a failed request sets the backend message or "An error occurred during registration."; only the submit flag, the messages and storage may change |
| HelperRegistration.HelperRegistrationPage.LoadCategories | src/HelperRegistrationPage.tsx:69-83 | loaded names are stored; a failure sets the backend message or the default; loading ends |
| HelperRegistration.HelperRegistrationPage.SubmitDisabled | src/HelperRegistrationPage.tsx:480 | an enabled button means not submitting, categories loaded, at least three chosen, and every submit check passing |
| AdminDashboard.AdminAccess | src/AdminDashboardPage.tsx:82-98 | no stored user goes to /login; unparseable data aborts the effect; any other redirect goes to /login; a kept user is the parsed stored user and is an admin |
| AdminDashboard.AdminAccessAgreesWithRouter | src/AdminDashboardPage.tsx:82-98 | an admin kept by the page is one the router shows the admin dashboard to |
| AdminDashboard.AssignmentActions | src/AdminDashboardPage.tsx:489-504 | Set Payout exactly for pending rows, Process Payout exactly for ready-for-payout rows, at most one button |
| AdminDashboard.ProcessPayoutOpensPayHelper | src/AdminDashboardPage.tsx:497-501 | Process Payout on a one-segment id opens the pay-helper route with that id |
| AdminDashboard.DeleteOffered | src/AdminDashboardPage.tsx:567 | no contract of its own: the Delete button's guard; `NoSelfDelete` states it is offered exactly on the other users' rows |
| AdminDashboard.NoSelfDelete | src/AdminDashboardPage.tsx:567 | the admin's own row never offers Delete, and every other row does |
| AdminDashboard.PrefillPayout | src/AdminDashboardPage.tsx:195 | the input shows the current payout, or `''` exactly when it is null or undefined |
| AdminDashboard.SetPayoutCheck | src/AdminDashboardPage.tsx:202-205 | refused with the fixed message exactly when no assignment is selected or the amount is `''`; otherwise the request carries both |
| AdminDashboard.PayoutSubmitDisabled | src/AdminDashboardPage.tsx:611 | no contract of its own: the payout modal's disabled rule; `EnabledPayoutSubmitPasses` states that an enabled button passes the handler's guard |
| AdminDashboard.EnabledPayoutSubmitPasses | src/AdminDashboardPage.tsx:611 | an enabled submit in the open modal always passes the guard with a positive amount for the selected assignment |
| AdminDashboard.ToggleRole | src/AdminDashboardPage.tsx:242-248 | toggling flips membership of the role and no other; an absent role is appended at the end |
| AdminDashboard.ToggleKeepsOthers | src/AdminDashboardPage.tsx:244-246 | every other role keeps its count; a present role loses every copy |
| AdminDashboard.RemoveSingleCopy | src/AdminDashboardPage.tsx:245 | removing a role held once leaves the other roles in their order |
| AdminDashboard.ToggleTwiceRestores | src/AdminDashboardPage.tsx:242-248 | checking and then unchecking an absent role restores the list |
| AdminDashboard.AdminDashboardPage.constructor | src/AdminDashboardPage.tsx:37-79 | no user, no selection, blank amount, registration closed, no editor and no messages |
| AdminDashboard.AdminDashboardPage.Mount | src/AdminDashboardPage.tsx:82-98 | the user is kept exactly when `AdminAccess` grants; a redirect goes to /login; a parse failure does nothing |
| AdminDashboard.AdminDashboardPage.DeleteOfferedFor | src/AdminDashboardPage.tsx:567 | Delete is offered exactly for rows other than the logged-in admin's |
| AdminDashboard.AdminDashboardPage.SetPayoutClick | src/AdminDashboardPage.tsx:193-198 | selects the assignment, prefills the payout and clears both messages |
| AdminDashboard.AdminDashboardPage.PayoutInput | src/AdminDashboardPage.tsx:602 | the amount input replaces the amount; the frame allows no other field to change |
| AdminDashboard.AdminDashboardPage.PayoutButtonDisabled | src/AdminDashboardPage.tsx:611 | an enabled button with a selection means the guard passes with a positive amount |
| AdminDashboard.AdminDashboardPage.SetPayout | src/AdminDashboardPage.tsx:200-230 | a refused guard sets the error and sends nothing; a 200 shows success and clears the selection and the amount; another 2xx reply keeps selection and amount and sets the backend message or "Failed to set payout amount."; a non-2xx status or a failed request sets the backend message or "An error occurred while setting payout." |
| AdminDashboard.AdminDashboardPage.ToggleRegistration | src/AdminDashboardPage.tsx:176-191 | requests the opposite of the current setting; success adopts the backend's answer and message; failure keeps the setting and sets the error |
| AdminDashboard.AdminDashboardPage.EditUserClick | src/AdminDashboardPage.tsx:233-240 | the editor opens on the user, a copy of their roles and their active status, with no messages |
| AdminDashboard.AdminDashboardPage.RoleChange | src/AdminDashboardPage.tsx:242-248 | the edited roles become `ToggleRole` of the old ones, so the role's membership flips |
| AcceptAssignment.NotPendingText | src/AcceptAssignmentPage.tsx:85 | the not-pending refusal is 48 characters longer than the label it names |
| AcceptAssignment.AssignmentIdParam | src/App.tsx:447 | the id is found exactly when the route supplies `assignmentId`, and is its value |
| AcceptAssignment.AssignmentIdParamAsWritten | src/AcceptAssignmentPage.tsx:46 | the lookup as written finds an id exactly when the route supplies `id` |
| AcceptAssignment.IdNeverFoundAsWritten | src/AcceptAssignmentPage.tsx:46 | on the accept route, the written lookup never finds an id |
| AcceptAssignment.AcceptPathGivesId | src/App.tsx:447-455 | `/accept-assignment/<id>` with a one-segment id matches the accept route with that id |
| AcceptAssignment.Eligibility | src/AcceptAssignmentPage.tsx:81-93 | the assignment is kept exactly for a helper, pending status, no helper yet and a positive payout; a non-helper is refused first |
| AcceptAssignment.NotPendingLength | src/AcceptAssignmentPage.tsx:85 | the not-pending refusal is 48 characters longer than the raw status |
| AcceptAssignment.StatusNameLength | src/AcceptAssignmentPage.tsx:32 | raw statuses are 3, 4, 7, 8, 9, 16 or 21 characters long |
| AcceptAssignment.RefusalLengths | src/AcceptAssignmentPage.tsx:82-91 | the three fixed refusals are 58, 60 and 86 characters long |
| AcceptAssignment.NotPendingTextDistinct | src/AcceptAssignmentPage.tsx:82-91 | a not-pending refusal around a label of a status's length differs from the three fixed refusals |
| AcceptAssignment.NotPendingDistinct | src/AcceptAssignmentPage.tsx:82-91 | no status's not-pending refusal equals a fixed refusal |
| AcceptAssignment.RefusalsDistinct | src/AcceptAssignmentPage.tsx:82-91 | the four refusals are pairwise different texts |
| AcceptAssignment.PayoutReady | src/AcceptAssignmentPage.tsx:90 | no contract of its own: the payout is defined, not null and positive; `Eligibility` and `UnsetPayoutBlocks` state that acceptance needs it |
| AcceptAssignment.EligibilityNamesFirstFailure | src/AcceptAssignmentPage.tsx:81-93 | each refusal is shown exactly when its check is the first to fail in the order role, status, helper, payout |
| AcceptAssignment.UnsetPayoutBlocks | src/AcceptAssignmentPage.tsx:90-92 | an undefined, null or non-positive payout always blocks, and with the earlier checks passed it is reported as not ready |
| AcceptAssignment.Screened | src/AcceptAssignmentPage.tsx:78-93 | the fetched assignment is kept exactly when it is present and eligible; otherwise the error is the eligibility refusal, or the load error for a missing body past the role check |
| AcceptAssignment.FetchAssignment | src/AcceptAssignmentPage.tsx:55-106 | no stored user: error and go to `/`; a missing id: error and no request; otherwise the request is for the id, the user is kept, and the reply is screened or its error shown; loading ends |
| AcceptAssignment.PathIdIsRequested | src/AcceptAssignmentPage.tsx:67-77 | with the route's own parameter name, a signed-in visit requests the id in the path |
| AcceptAssignment.IdMissingAsWritten | src/AcceptAssignmentPage.tsx:46-71 | as written, every signed-in visit to the accept route stops at "Assignment ID is missing." with no request |
| AcceptAssignment.AcceptAssignment | src/AcceptAssignmentPage.tsx:111-139 | without a user or an assignment nothing is sent and an error is set; otherwise the kept assignment's id is posted; success shows the message and returns to `/`; failure sets the error |
| AcceptAssignment.KeptAssignmentIsAccepted | src/AcceptAssignmentPage.tsx:78-127 | an assignment kept by the fetch is exactly the one the accept button posts |
| AcceptAssignment.AcceptAssignmentPage.constructor | src/AcceptAssignmentPage.tsx:48-53 | no user or assignment, loading, no messages, not submitting |
| AcceptAssignment.AcceptAssignmentPage.Load | src/AcceptAssignmentPage.tsx:55-109 | the state, request and navigation are those of `FetchAssignment` with the id read under `id`, as the page is written |
| AcceptAssignment.AcceptAssignmentPage.AcceptClick | src/AcceptAssignmentPage.tsx:111-139 | the state, request and navigation are those of `AcceptAssignment` |
| ReviewAssignment.ExtensionLengths | src/ReviewAssignmentPage.tsx:199 | each accepted extension is three or four characters long |
| ReviewAssignment.IsSummarizable | src/ReviewAssignmentPage.tsx:197-200 | a summarizable name ends in a dot-free segment of three or four characters; the copy at src/ClientDashboardPage.tsx:116-119 is the same test |
| ReviewAssignment.SummarizableByExtension | src/ReviewAssignmentPage.tsx:197-200 | a name ending in `.ext` is summarizable exactly when lower-cased `ext` is txt, pdf, doc or docx |
| ReviewAssignment.SummarizableWithoutDot | src/ReviewAssignmentPage.tsx:198 | a name without a dot is tested as a whole |
| ReviewAssignment.SummarizableIgnoresCase | src/ReviewAssignmentPage.tsx:198 | names that agree after lower-casing get the same answer |
| ReviewAssignment.SummarizableUpperCase | src/ReviewAssignmentPage.tsx:198 | upper-casing a name does not change the answer |
| ReviewAssignment.ReviewGate | src/ReviewAssignmentPage.tsx:101-112 | the review is allowed exactly for the owner and status pending_client_review; a non-owner gets Forbidden; an owner gets the status refusal |
| ReviewAssignment.NotReviewableIsNotForbidden | src/ReviewAssignmentPage.tsx:102-109 | the status refusal is 65 characters longer than the raw status, so it is never the ownership refusal |
| ReviewAssignment.OwnerCheckedFirst | src/ReviewAssignmentPage.tsx:101-105 | a non-owner gets Forbidden whatever the status |
| ReviewAssignment.FetchAssignmentAndUser | src/ReviewAssignmentPage.tsx:65-124 | unparseable data is removed with the auth error; no user or no id schedules /login with its error; otherwise the user is kept, the assignment fetched and gated; a failed fetch sets the backend message or "Failed to load assignment details.", an empty body sets that text; the assignment is set only when the gate passes |
| ReviewAssignment.ShownOnlyToOwner | src/ReviewAssignmentPage.tsx:101-114 | an error-free load shows an assignment owned by the user and awaiting review |
| ReviewAssignment.HandleReview | src/ReviewAssignmentPage.tsx:126-158 | without a user or an id nothing is sent and an error is set; otherwise the decision and notes are posted for the id; success shows the message and returns to `/` |
| ReviewAssignment.ReviewAssignmentPage.constructor | src/ReviewAssignmentPage.tsx:48-56 | the id is the route's `assignmentId`; no user or assignment; empty notes; loading |
| ReviewAssignment.ReviewAssignmentPage.Load | src/ReviewAssignmentPage.tsx:65-124 | state, storage, request and navigation are those of `FetchAssignmentAndUser` |
| ReviewAssignment.ReviewAssignmentPage.NotesChange | src/ReviewAssignmentPage.tsx:358 | only the notes change |
| ReviewAssignment.ReviewAssignmentPage.ReviewClick | src/ReviewAssignmentPage.tsx:364-373 | state, request and navigation are those of `HandleReview` |
| PayHelper.TransactionIdValid | src/PayHelperPage.tsx:72 | no contract of its own: the trimmed transaction id is not empty; `TransactionIdValidIff` states it character by character |
| PayHelper.PaySubmitDisabled | src/PayHelperPage.tsx:207 | no contract of its own: the button's disabled rule; `EnabledPaySends` states that an enabled button sends the request |
| PayHelper.TransactionIdValidIff | src/PayHelperPage.tsx:72 | a transaction id passes exactly when it has a character that is not white space |
| PayHelper.MarkPaid | src/PayHelperPage.tsx:87 | the status becomes paid and `paidAt` the given time; every other field is unchanged |
| PayHelper.MarkPaidOnlyStatusAndTime | src/PayHelperPage.tsx:87 | marking paid changes exactly status and time, and marking again at the same time changes nothing |
| PayHelper.ShowFullPageError | src/PayHelperPage.tsx:110 | no contract of its own: the full-page error replaces the page only with an error and no assignment; `FullPageErrorIffNothingLoaded` states when that happens |
| PayHelper.ShowPayoutForm | src/PayHelperPage.tsx:176 | no contract of its own: the form shows for a loaded assignment ready for payout; `FormAndNoticeExclusive` and `PaidHidesForm` relate it to the notice |
| PayHelper.ShowPaidNotice | src/PayHelperPage.tsx:214 | no contract of its own: the "already paid" notice shows for a paid assignment; `FormAndNoticeExclusive` states it never shows with the form |
| PayHelper.FormAndNoticeExclusive | src/PayHelperPage.tsx:176-218 | the payout form and the "already paid" notice never show together, and either needs a loaded assignment |
| PayHelper.FetchDetails | src/PayHelperPage.tsx:29-59 | a missing id sets the error and sends nothing; a loaded assignment is kept, with the not-ready warning exactly when its status is not ready_for_payout; an empty body or a failure sets its error |
| PayHelper.WrongStatusKeepsPage | src/PayHelperPage.tsx:44-46 | a loaded assignment in the wrong state shows with the warning, and never the full-page error or the form |
| PayHelper.FullPageErrorIffNothingLoaded | src/PayHelperPage.tsx:110 | on a fresh page the full-page error shows exactly when no assignment was loaded |
| PayHelper.HandlePayout | src/PayHelperPage.tsx:61-100 | a request is sent exactly with an id and a non-blank transaction id; a 200 marks the assignment paid and clears the inputs; every other outcome keeps assignment and inputs; another 2xx reply sets the backend message or the record-failure text, a non-2xx status or a failed request the backend message or the payout-error text |
| PayHelper.PaidHidesForm | src/PayHelperPage.tsx:84-90 | a recorded payout hides the form and shows the paid notice with the new time |
| PayHelper.EnabledPaySends | src/PayHelperPage.tsx:207 | an enabled button with an id always sends the id, transaction id and notes |
| PayHelper.PayHelperPage.constructor | src/PayHelperPage.tsx:18-27 | the id is the route's `assignmentId`; no assignment; loading; empty inputs |
| PayHelper.PayHelperPage.Load | src/PayHelperPage.tsx:29-59 | state and request are those of `FetchDetails` |
| PayHelper.PayHelperPage.TransactionIdChange | src/PayHelperPage.tsx:187 | only the transaction id changes |
| PayHelper.PayHelperPage.NotesChange | src/PayHelperPage.tsx:200 | only the notes change |
| PayHelper.PayHelperPage.MarkAsPaid | src/PayHelperPage.tsx:61-100 | state and request are those of `HandlePayout` |
| HelperDashboard.HelperAccess | src/HelperDashboardPage.tsx:43-56 | kept exactly for a parsed helper or admin; no user or anyone else goes to /login; unparseable data aborts |
| HelperDashboard.AdminWithoutHelperRoleIsRouted | src/HelperDashboardPage.tsx:47 | an admin without the helper role is let in by the page but shown the login page by the router |
| HelperDashboard.Available | src/HelperDashboardPage.tsx:66 | the available list holds exactly the fetched assignments with no helper |
| HelperDashboard.AvailableCounts | src/HelperDashboardPage.tsx:66 | each unassigned assignment appears as often as fetched, every other never |
| HelperDashboard.AvailableKeepsOrder | src/HelperDashboardPage.tsx:66 | filtering keeps the fetched order |
| HelperDashboard.AvailableOfUnassigned | src/HelperDashboardPage.tsx:63-66 | a list the backend already restricted is shown unchanged |
| HelperDashboard.MyAssignmentActions | src/HelperDashboardPage.tsx:320-336 | Submit Work exactly for accepted or due; one badge each for pending_client_review, ready_for_payout and paid; at most one item |
| HelperDashboard.ColorOf | src/HelperDashboardPage.tsx:145-166 | no contract of its own: the class of each status; `StatusColorsDistinct` states the eight classes differ and none is gray |
| HelperDashboard.StatusColor | src/HelperDashboardPage.tsx:145-166 | a known status gets its class; any other text gets gray; the copy at src/AdminDashboardPage.tsx:307-328 is the same mapping |
| HelperDashboard.StatusColorsDistinct | src/HelperDashboardPage.tsx:145-166 | the eight statuses get eight different classes, none of them gray |
| HelperDashboard.SubmitWorkReady | src/HelperDashboardPage.tsx:113 | no contract of its own: the guard of `handleSubmitWork`; `HelperDashboardPage.SubmitWork` states what it does on either side of it |
| HelperDashboard.SubmitWorkDisabled | src/HelperDashboardPage.tsx:377 | no contract of its own: the modal's disabled rule; `EnabledSubmitWorkPasses` states that an enabled button passes the guard |
| HelperDashboard.EnabledSubmitWorkPasses | src/HelperDashboardPage.tsx:377 | an enabled submit in the open modal always passes the handler's guard |
| HelperDashboard.BuildCompletedWorkForm | src/HelperDashboardPage.tsx:122-125 | exactly one `completedWorkAttachments` entry per file, in order |
| HelperDashboard.HelperDashboardPage.constructor | src/HelperDashboardPage.tsx:25-40 | empty lists, loading, no messages, modal closed |
| HelperDashboard.HelperDashboardPage.Mount | src/HelperDashboardPage.tsx:43-56 | lists are fetched exactly when `HelperAccess` grants, keeping the user; a redirect goes to /login |
| HelperDashboard.HelperDashboardPage.FetchAssignments | src/HelperDashboardPage.tsx:58-78 | the available list is the unassigned filter of the reply; a failed request keeps what was not replaced and sets the error |
| HelperDashboard.HelperDashboardPage.AcceptClick | src/HelperDashboardPage.tsx:80-95 | the row's id is posted; success shows the message and refreshes; failure sets the error |
| HelperDashboard.HelperDashboardPage.OpenSubmitWork | src/HelperDashboardPage.tsx:103-109 | opens the modal on the assignment with no files and no messages |
| HelperDashboard.HelperDashboardPage.FileChange | src/HelperDashboardPage.tsx:97-101 | a chosen file list replaces the old one; no list keeps it |
| HelperDashboard.HelperDashboardPage.SubmitButtonDisabled | src/HelperDashboardPage.tsx:377 | an enabled button with a selection passes the handler's guard |
| HelperDashboard.HelperDashboardPage.SubmitWork | src/HelperDashboardPage.tsx:111-143 | without an assignment or files the error is set and nothing is sent; otherwise one entry per file is posted for the assignment; success closes the modal |
| ClientDashboard.ClientAccess | src/ClientDashboardPage.tsx:32-45 | no stored user goes to /login; unparseable data aborts; a parsed non-client goes to `/`; only a client is kept |
| ClientDashboard.ClientAccessGrantsClients | src/ClientDashboardPage.tsx:36-40 | every kept user is the parsed stored user and has the client role |
| ClientDashboard.Owned | src/ClientDashboardPage.tsx:53 | exactly the fetched assignments owned by the user are kept |
| ClientDashboard.OwnedKeepsOrder | src/ClientDashboardPage.tsx:53 | the owner filter keeps the backend's order |
| ClientDashboard.OwnedCounts | src/ClientDashboardPage.tsx:53 | each owned assignment is kept as often as sent, nobody else's ever |
| ClientDashboard.OwnedOfOwn | src/ClientDashboardPage.tsx:53 | a list of the client's own assignments is shown whole |
| ClientDashboard.ReviewTarget | src/ClientDashboardPage.tsx:76-78 | the target is the review prefix followed by exactly the assignment's id |
| ClientDashboard.ReviewTargetRoutes | src/ClientDashboardPage.tsx:76-78 | a one-segment id's review path matches the review route with that id |
| ClientDashboard.ReviewOffered | src/ClientDashboardPage.tsx:229 | no contract of its own: "Review Work" shows only for an assignment awaiting review; `ReviewButtonPassesGate` states the review page then allows it |
| ClientDashboard.ReviewButtonPassesGate | src/ClientDashboardPage.tsx:229-234 | a Review Work button on the client's own list always leads to a review the review page allows |
| ClientDashboard.SameSummarizableFiles | src/ClientDashboardPage.tsx:116-119 | `isSummarizable` at these lines is the same code as the review page's, so the model uses one function, `ReviewAssignment.IsSummarizable`, for both; the lemma restates its extension rule for `base.ext` |
| ClientDashboard.ClientLogout | src/ClientDashboardPage.tsx:62-66 | both credentials are removed; every other key and value is kept |
| ClientDashboard.ClientLogoutEndsStoredSession | src/ClientDashboardPage.tsx:62-66 | no stored session remains, and the logout flag is exactly as before |
| ClientDashboard.ClientDashboardPage.constructor | src/ClientDashboardPage.tsx:19-22 | no user, no assignments, loading, no error |
| ClientDashboard.ClientDashboardPage.Mount | src/ClientDashboardPage.tsx:32-45 | a granted client is kept and their id fetched for; a redirect navigates; a parse failure does nothing |
| ClientDashboard.ClientDashboardPage.FetchAssignments | src/ClientDashboardPage.tsx:47-60 | success stores the owner filter of the reply; failure keeps the list and sets the error; loading ends |
| ClientDashboard.ClientDashboardPage.ReviewClick | src/ClientDashboardPage.tsx:229-234 | an offered Review Work button navigates to the assignment's review path |
| ClientDashboard.ClientDashboardPage.HandleLogout | src/ClientDashboardPage.tsx:62-66 | storage becomes `ClientLogout` of the old storage and the page goes to /login |

## Left out

- `setTimeout` delays, React effect scheduling and async ordering. Each handler is one atomic step. A delayed navigation is the returned target, and the 3-second message clear on the client dashboard is not modelled.
- axios and the backend. Replies are inputs. axios's default `validateStatus` is modelled by `Domain.Resolves`: a reply whose status is outside 2xx takes the handler's `catch` path. The backend's own status transitions are not modelled; the only client-side status change is the local "paid" update.
- `JSON.parse` and `JSON.stringify` are parameters. `LoginSurvivesReload` assumes that one reads back what the other wrote.
- JSX, CSS classes other than the status colours, the detail modals, the summary modal, and the header's "Welcome" text.
- Summarization requests (`handleSummarizeDescription`, `handleSummarizeDocument`): they only call the network.
- Admin dashboard fetches of assignments, users, the financial summary and the registration status: they copy replies into state with no decision.
- `handleSaveUserChanges`, `handleDeleteUserClick` and `handleDeleteUser`: network calls. Only the Delete button's self-row guard is modelled.
- `handleAssignmentCreated` on the client dashboard: a re-fetch and a timed message.
- Re-fetches after accepting or submitting work on the helper dashboard, and after setting a payout: the model returns a `refresh` flag or nothing.
- Text.ToLower, Text.ToUpper: only ASCII letters change case. JavaScript's full Unicode case mapping is not modelled.
- The length checks (`description.length > 10`, `keyword.length`) count characters, not UTF-16 code units.
- `null` and `undefined` are one `None`, and a missing backend `message` and an empty one are treated alike, as `||` does.
- Amounts are `real`. `parseFloat`, `NaN` and `toFixed` are not modelled, and the payout input is either blank or a number.
- Timestamps are opaque strings, so `new Date().toISOString()` is a parameter.
- `FileList` and `FormData` are sequences of file names. The create form's attachments loop is not modelled separately from the file list it sends.
- The router itself is modelled only as the one table in `App.Match`, with an exact path comparison and one-segment parameters. Query strings, trailing slashes and URL decoding are not modelled.
- `window.history.replaceState` and `window.location.replace` are not modelled; logout returns the reload target.
- The client dashboard's route is commented out in the route table. Its page is modelled on its own, and `AuthenticatedLayout.ClientLinkShowsLogin` shows where its link leads.
- The client dashboard's own logout removes both credentials but does not raise `isLoggingOutFlag`, unlike the shell's logout. The model keeps that difference (`ClientDashboard.ClientLogoutEndsStoredSession`).
- CreateAssignment.CreateAssignmentForm: the form's inputs, messages and submit status are one record field instead of separate fields, to keep the field updates small.
- CreateAssignment.CreateAssignmentForm.ApplySuggestionClick groups the stored catalog itself rather than reading the grouped field; the two agree after the constructor and after every `LoadCategories`.
- The public service worker and the Tailwind configuration hold no logic.

## Findings

The page classes follow the code as written: `AcceptAssignment.AcceptAssignmentPage.Load` reads `id`, and the create form's topic effect always picks the group's first topic. The corrected definitions, `AssignmentIdParam` and `SyncCategory`, are kept beside them with the intended property proved.

| source | as written | input that shows it | evidently intended | confidence | as-written member | corrected member |
|---|---|---|---|---|---|---|
| src/AcceptAssignmentPage.tsx:46 | the page reads its id as `useParams().id`, but the route at src/App.tsx:447 names the parameter `assignmentId` | any signed-in helper opening `/accept-assignment/abc` | the page reads `assignmentId` and fetches `abc` | not executed | AcceptAssignment.IdMissingAsWritten | AcceptAssignment.PathIdIsRequested |
| src/CreateAssignmentForm.tsx:178-184 | after "Apply" sets the group and the topic, the effect on the group change replaces the topic with the group's first entry | catalog Programming (comp_sci_helpers), Essay Writing (ai_misc), Graphic Design (ai_misc); group comp_sci_helpers; suggestion "Graphic Design" | the applied topic "Graphic Design" stays selected | not executed | CreateAssignment.AppliedSuggestionLostAsWritten | CreateAssignment.AppliedSuggestionKept |
