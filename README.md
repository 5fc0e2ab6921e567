# Student 360 client-side logic, modelled in Dafny

Student 360 is a React front end over Supabase. Students record their
achievements; faculty review them; administrators manage users and view
analytics. This project models the decision and data-handling code of those
pages, with server calls and browser APIs turned into parameters:

- **The achievement workflow.** There are four statuses: `pending`,
  `under_review`, `verified` and `rejected`. The model covers which review
  actions each status offers, the rule that a rejection needs a non-blank
  comment, the lock on verified records, and the edit lock (only pending and
  rejected records may be edited). It also covers the verification queue and
  the reviewer's filter pipeline.
- **CSV import of students.** This covers the line/comma parser, the
  conversion to profiles, the insert loop in batches of 100, and the
  per-student achievement counts.
- **Small validators and state updates.**
  - the upload rules: at most 5 files, each at most 10 MB;
  - the dashboard's role gate;
  - the analytics status fold;
  - the user and student searches;
  - profile initials and the profile save.
- **The in-memory key/value store** behind the session storage adapter.

Each page's state disappears into a class. The toasts and redirects a page
issues are appended to an `effects` log of `Toast(title)` and
`Navigate(path)` values. Server answers are parameters of the page's methods:
an `Option` for an error, a `Result` for a query, `insertError(k)` for the
`k`-th batch insert, and `uuid(i)` for the id of the `i`-th imported
profile. Pure computations are functions. Loops in the source are methods
with loop invariants, proved against a specification function.

Module layout:
- `Achievements` holds the status vocabulary.
- `Text` and `Seqs` stand in for the JavaScript string and array methods.
- `Wrappers` and `Ui` hold the option and result types and the effect log.
- Every other module is named after the page or file it models.

The review page offers only `pending`→`under_review`, `under_review`→`verified`
and `under_review`→`rejected`. A direct reject from `pending` and a return
from `rejected` to `pending` are neither offered nor modelled
(`ReviewAchievement.Transition`).

## Model

| member | source | states |
|---|---|---|
| Achievements.ParseStatus | src/pages/student/AchievementsList.tsx:84 | a status string names at most one of the four statuses, and it is unknown exactly when no status has that name |
| Achievements.NameInjective | src/pages/student/AchievementsList.tsx:84 | distinct statuses have distinct names |
| ReviewAchievement.OfferedTargets | src/pages/faculty/ReviewAchievement.tsx:65-75 | the actions offered for a known status are exactly its code-level transitions; an unknown status gets none; no action targets the current status or `pending`; the actions are distinct |
| ReviewAchievement.NextAction | src/pages/faculty/ReviewAchievement.tsx:65-75 | a primary action exists exactly for pending and under_review; it is always one of the transitions, and never the rejection |
| ReviewAchievement.ButtonsPerStatus | src/pages/faculty/ReviewAchievement.tsx:65-134 | pending offers only "Start Review" to under_review and no Reject button; under_review offers Approve (verified) and Reject; verified and rejected offer nothing; verified's comment box is disabled, rejected's is not |
| ReviewAchievement.StatusBadge | src/pages/faculty/ReviewAchievement.tsx:94 | every status other than verified and rejected gets the "secondary" badge; verified gets "success" and rejected gets "destructive" |
| ReviewAchievement.RunsAreShort | src/pages/faculty/ReviewAchievement.tsx:65-75 | a chain of offered moves has at most three statuses; one of length three is pending, under_review, then a final decision |
| ReviewAchievement.RunRanks | src/pages/faculty/ReviewAchievement.tsx:65-75 | along a chain of offered moves, each step strictly advances the workflow |
| ReviewAchievement.LacksRejectionCommentIffBlank | src/pages/faculty/ReviewAchievement.tsx:47-50 | the comment guard fires exactly for a rejection whose comment is empty or all whitespace |
| ReviewAchievement.ReviewPage.HandleStatusUpdate | src/pages/faculty/ReviewAchievement.tsx:44-62 | with no route id nothing changes; a blank rejection only shows the toast; otherwise one status call goes out with the flag set, the flag is clear afterwards, and the redirect to the queue happens only on success |
| AchievementsList.StatusVariant | src/pages/student/AchievementsList.tsx:49-57 | pending shows "default", under_review "secondary", verified "success" and rejected "destructive"; exactly the values outside the vocabulary show "outline" |
| AchievementsList.StatusVariantInjective | src/pages/student/AchievementsList.tsx:49-57 | the four statuses get four different badges |
| AchievementsList.CanEdit | src/pages/student/AchievementsList.tsx:67 | editing is allowed exactly for records whose status reads as pending or rejected, and never for one the review page locks |
| AchievementsList.ReviewActionsLockEditing | src/pages/student/AchievementsList.tsx:67 | editing is allowed exactly for pending and rejected; every review move locks the record except a rejection; a locked (verified) record is not editable |
| AchievementsList.Filtered | src/pages/student/AchievementsList.tsx:59-65 | the list is an order-preserving subsequence keeping each matching record as often as it occurs; kept records match every active filter, the search being a case-blind title substring test; no search and both filters "all" give the list unchanged |
| AchievementsList.CategoryOptions | src/pages/student/AchievementsList.tsx:83 | the options are exactly the categories present, without duplicates, in order of first occurrence |
| AchievementsList.Categories | src/pages/student/AchievementsList.tsx:83 | one category per record, in order |
| EditAchievement.Validate | src/pages/student/EditAchievement.tsx:15-20 | the form is valid exactly when title and category are non-empty and neither description nor file URL is null; each missing field gives its own message, and a null gives the type error |
| EditAchievement.ValidationIgnoresOptional | src/pages/student/EditAchievement.tsx:15-20 | any non-null description and file URL validate as if they were unset; a null in either makes validation fail |
| EditAchievement.FormOf | src/pages/student/EditAchievement.tsx:48-49 | the form reset copies title, category, description and file URL from the record, a null column arriving as null |
| EditAchievement.FieldOf | src/pages/student/EditAchievement.tsx:49 | a nullable column becomes null in the form exactly when it is null in the record, and otherwise its text |
| EditAchievement.LoadedRecordValid | src/pages/student/EditAchievement.tsx:15-20 | a loaded record can be submitted exactly when its title and category are non-empty and neither its description nor its file URL is null |
| EditAchievement.FindById | src/pages/student/EditAchievement.tsx:42 | the lookup finds the first record with the id, and finds none exactly when no record has it |
| EditAchievement.EditPage.FetchAchievement | src/pages/student/EditAchievement.tsx:39-54 | with no id, or when the fetch fails, nothing changes; an absent record gives "Error" and a redirect; a found record is stored and loaded into the form, and a locked one also gives "Cannot Edit" and a redirect |
| EditAchievement.EditPage.EnterValues | src/pages/student/EditAchievement.tsx:81-120 | typing sets title, description and category; the file URL, which has no input, keeps its loaded value |
| EditAchievement.EditPage.Submit | src/pages/student/EditAchievement.tsx:58-67 | with no id, or invalid values (including a null description or file URL), nothing is sent; otherwise the values go out unchanged, with no status re-check; success redirects to the list, failure only toasts |
| VerificationQueue.Queue | src/pages/faculty/VerificationQueue.tsx:22-24 | the queue is a subsequence of the fetched list holding every pending and under_review record as often as fetched; it holds no verified or rejected record and is no longer than the list |
| VerificationQueue.QueueIdempotent | src/pages/faculty/VerificationQueue.tsx:22-24 | filtering the queue again gives the same queue |
| VerificationQueue.QueueIsActionable | src/pages/faculty/VerificationQueue.tsx:22-24 | a record is queued exactly when the review page offers it some action |
| VerificationQueue.StatusVariant | src/pages/faculty/VerificationQueue.tsx:44-57 | pending shows "default", under_review "secondary", verified "success" and rejected "destructive"; exactly the values outside the vocabulary show "outline" |
| VerificationQueue.StatusVariantAgrees | src/pages/faculty/VerificationQueue.tsx:44-57 | the queue draws every status with the same badge as the student's list |
| ReviewSubmissions.InitialList | src/pages/faculty/ReviewSubmissions.tsx:24 | the first list shown is the subsequence of exactly the pending records |
| ReviewSubmissions.ApplyFilters | src/pages/faculty/ReviewSubmissions.tsx:33-43 | the three sequential filters, each skipped when its control is empty or "all", give one filter by the conjunction of the three tests; the result is a subsequence of the input |
| ReviewSubmissions.ReverseOrderSameResult | src/pages/faculty/ReviewSubmissions.tsx:33-43 | applying the filters in reverse order gives the same result |
| ReviewSubmissions.DefaultFiltersShowPending | src/pages/faculty/ReviewSubmissions.tsx:17-43 | under the default filters (empty search, "all", "pending") the pipeline gives the initial pending list |
| ReviewSubmissions.OpenFiltersKeepAll | src/pages/faculty/ReviewSubmissions.tsx:33-43 | empty search and both filters "all" keep every record |
| ReviewSubmissions.HandleFilterChange | src/pages/faculty/ReviewSubmissions.tsx:46-48 | a change sets the named field and leaves the other two as they were |
| ReviewSubmissions.FilterChangesCommute | src/pages/faculty/ReviewSubmissions.tsx:46-48 | changes to different fields commute, and of two changes to one field the later wins |
| StudentImport.RowOf | src/integrations/supabase/studentImport.ts:37-44 | a record has exactly the headers as keys; a header maps to the value in its column, or "" when the line is short |
| StudentImport.FillRow | src/integrations/supabase/studentImport.ts:40-42 | the header loop builds exactly that record, a repeated header keeping its last column |
| StudentImport.LastIndex | src/integrations/supabase/studentImport.ts:40-42 | the column a header reads from is its last position among the headers |
| StudentImport.ParseStudentCSV | src/integrations/supabase/studentImport.ts:32-46 | there is one record per line after the header line of the trimmed text, in order; their number equals the line breaks in the trimmed text |
| StudentImport.FillRows | src/integrations/supabase/studentImport.ts:36-45 | the loop over data lines builds one record per line, in order |
| StudentImport.HeaderOnlyGivesNoRows | src/integrations/supabase/studentImport.ts:33-36 | a text that is one line after trimming yields no records |
| StudentImport.CellsAreTrimmed | src/integrations/supabase/studentImport.ts:34-37 | no header name and no value starts or ends with whitespace |
| StudentImport.Fields | src/integrations/supabase/studentImport.ts:37 | a line splits into one more field than it has commas, each field trimmed |
| StudentImport.ConvertToStudentProfile | src/integrations/supabase/studentImport.ts:52-60 | the profile keeps the row's name and email (absent when the column is missing), gets the fresh id, role "student" and no avatar |
| StudentImport.BatchesCover | src/integrations/supabase/studentImport.ts:71-77 | the batches are non-empty, hold at most 100 each, and together give back all profiles in order |
| StudentImport.TallyCoversBatches | src/integrations/supabase/studentImport.ts:89-94 | every profile of the batches sent is counted once, as a success or a failure |
| StudentImport.InsertBatches | src/integrations/supabase/studentImport.ts:71-97 | the loop sends exactly those batches; success plus failed equals the number of profiles; each failed batch adds one "Batch n: message" error, numbered from 1 |
| StudentImport.ImportStudents | src/integrations/supabase/studentImport.ts:65-102 | the import sends the parsed and converted profiles in batches; success plus failed equals the number of data lines |
| StudentImport.VerifiedAtMostTotal | src/integrations/supabase/studentImport.ts:136-143 | a student's verified count never exceeds their total |
| StudentImport.TotalPositiveIffPresent | src/integrations/supabase/studentImport.ts:136-143 | a student has a positive total exactly when some achievement row is theirs |
| StudentImport.CountAchievements | src/integrations/supabase/studentImport.ts:133-144 | the map has an entry exactly for each student with an achievement; each entry holds that student's total and verified counts, verified at most total |
| StudentImport.WithCounts | src/integrations/supabase/studentImport.ts:147-156 | each profile is returned in order with its counts; a student with no achievements, or a failed achievement fetch, gives zero counts |
| StudentImport.GetAllStudents | src/integrations/supabase/studentImport.ts:107-161 | a profile error becomes "Error fetching students: ..."; no profiles gives an empty list; otherwise every profile comes back in order with its id, name, email and counts |
| StudentImport.SearchStudents | src/integrations/supabase/studentImport.ts:166-216 | the same as listing all students (id, name, email and counts per profile), with the error "Error searching students: ..." |
| AddAchievement.EachFileAcceptedOrReported | src/pages/student/AddAchievement.tsx:56-66 | every chosen file is either accepted or reported by one "File too large" toast |
| AddAchievement.SelectFiles | src/pages/student/AddAchievement.tsx:54-66 | the files of at most 10 MB are kept in order, with one toast per larger file |
| AddAchievement.AddAchievementPage.HandleFileUpload | src/pages/student/AddAchievement.tsx:51-81 | if the accepted files would take the list past 5, the list stays as it was and a "Too many files" toast is shown; otherwise they are appended in order; starting at 5 or fewer, the list never exceeds 5 |
| AddAchievement.AddAchievementPage.EnterDetails | src/pages/student/AddAchievement.tsx:162-202 | typing sets title, category, date and description and keeps the documents, the flag and the effects |
| AddAchievement.WithoutIndex | src/pages/student/AddAchievement.tsx:86 | a valid index removes exactly that element and keeps the rest in order; any other index changes nothing |
| AddAchievement.RemovePreservesLimit | src/pages/student/AddAchievement.tsx:83-88 | removing a file keeps the list within 5 |
| AddAchievement.AddAchievementPage.RemoveFile | src/pages/student/AddAchievement.tsx:83-88 | only the documents list changes, by that removal |
| AddAchievement.AddAchievementPage.HandleSubmit | src/pages/student/AddAchievement.tsx:90-112 | an empty title, category, date or description only toasts; documents are not required; otherwise the flag is clear at the end and the page toasts and returns to the list |
| AddAchievement.CategoryColor | src/pages/student/AddAchievement.tsx:114-125 | the colour is "" exactly for categories outside the seven listed |
| DashboardLayout.Decide | src/components/layout/DashboardLayout.tsx:19-36 | no decision while loading; a missing user or profile goes to sign-in; a required role that differs from the profile's is denied; nothing else |
| DashboardLayout.Renders | src/components/layout/DashboardLayout.tsx:55 | the content renders exactly when a page without a required role grants access, that is when for every required role the decision is granted or denied |
| DashboardLayout.RedirectsExactly | src/components/layout/DashboardLayout.tsx:19-36 | the effect redirects to /login exactly when the session is known and the user or profile is missing or lacks the required role; with no required role access is never denied |
| DashboardLayout.WrongRoleStillRenders | src/components/layout/DashboardLayout.tsx:26-55 | a signed-in user with a profile of the wrong role is denied by the effect, yet the render guard still shows the content |
| DashboardLayout.LogoutEffects | src/components/layout/DashboardLayout.tsx:38-53 | logout redirects to /login exactly when signing out succeeds |
| DashboardLayout.Layout.CheckAccess | src/components/layout/DashboardLayout.tsx:19-36 | the effect issues the toast and redirect of that decision |
| DashboardLayout.Layout.HandleLogout | src/components/layout/DashboardLayout.tsx:38-53 | the success toast and redirect, or the failure toast alone |
| AnalyticsDashboard.LastRow | src/pages/admin/AnalyticsDashboard.tsx:28-31 | the row whose count a status keeps is the last row with that status |
| AnalyticsDashboard.FormatStats | src/pages/admin/AnalyticsDashboard.tsx:28-33 | the keys are the statuses present plus "total"; each status holds the count of its last row; "total" holds the sum of all counts |
| AnalyticsDashboard.Display | src/pages/admin/AnalyticsDashboard.tsx:65-77 | a status missing from the data shows 0 |
| AnalyticsDashboard.ParticipationBars | src/pages/admin/AnalyticsDashboard.tsx:36 | the rows keep their number, and each is labelled with its month |
| AnalyticsDashboard.DistributionBars | src/pages/admin/AnalyticsDashboard.tsx:37 | the rows keep their number, and each is labelled with its category |
| AnalyticsDashboard.BarsKeepRows | src/pages/admin/AnalyticsDashboard.tsx:36-37 | removing the label gives back the original rows with all their fields |
| AnalyticsDashboard.AnalyticsPage.FetchData | src/pages/admin/AnalyticsDashboard.tsx:18-56 | a failure shows the error instead of the stats and keeps the old data; a success stores the formatted stats and labelled rows; loading ends either way |
| AdminUsers.FilteredUsers | src/pages/admin/AdminUsers.tsx:47-50 | a subsequence keeping exactly the users whose name or email contains the term, ignoring case; an empty term keeps everyone |
| AdminUsers.SearchIgnoresCase | src/pages/admin/AdminUsers.tsx:47-50 | typing the term in upper case gives the same result |
| AdminUsers.RoleColor | src/pages/admin/AdminUsers.tsx:52-63 | admin is red, faculty blue, student green, and exactly the other roles are gray |
| AdminUsers.RoleBadgeVariant | src/pages/admin/AdminUsers.tsx:65-76 | admin gets "destructive", faculty "secondary", student "default", and exactly the other roles get "outline" |
| AdminUsers.RoleStylesAgree | src/pages/admin/AdminUsers.tsx:52-76 | colour and badge tell roles apart in the same way; the three known roles get three badges |
| AdminUsers.UsersPage.LoadUsers | src/pages/admin/AdminUsers.tsx:24-45 | an error sets "Failed to load users" and keeps the list; a null result becomes the empty list; loading ends either way |
| ManageStudents.MockStudentsConsistent | src/pages/faculty/ManageStudents.tsx:17-56 | the initial list has five students with distinct ids, none with more verified than total achievements |
| ManageStudents.FilteredStudents | src/pages/faculty/ManageStudents.tsx:59-61 | a subsequence keeping exactly the students whose name contains the term, ignoring case; an empty term keeps everyone |
| ManageStudents.EmailNotSearched | src/pages/faculty/ManageStudents.tsx:59-61 | students with the same name are kept or dropped together, whatever their email |
| StudentProfile.FirstChars | src/pages/student/StudentProfile.tsx:137-140 | one character per non-empty word, that word's first, in order |
| StudentProfile.Initials | src/pages/student/StudentProfile.tsx:137-142 | the initials are the upper-cased first characters, cut to at most two |
| StudentProfile.InitialsAreWordHeads | src/pages/student/StudentProfile.tsx:137-142 | the k-th initial is the upper-cased first character of the k-th word, a word having no spaces; no initial is a lower-case letter |
| StudentProfile.EmptyWordsIgnored | src/pages/student/StudentProfile.tsx:138-140 | extra spaces do not change the initials |
| StudentProfile.FormOf | src/pages/student/StudentProfile.tsx:58-62 | each form field takes the profile's value, with null becoming "" |
| StudentProfile.ProfilePage.LoadProfile | src/pages/student/StudentProfile.tsx:31-73 | no user asks to log in; a query error other than "no rows" is a load failure; a returned row becomes the profile and fills the form; loading ends in every case |
| StudentProfile.ProfilePage.EditForm | src/pages/student/StudentProfile.tsx:190-216 | typing sets the form's name and bio and changes nothing else on the page |
| StudentProfile.ProfilePage.SaveProfile | src/pages/student/StudentProfile.tsx:75-106 | with no profile nothing happens; only name and bio are sent, never the email; success replaces only name and bio; failure keeps the profile and sets the error; saving ends false |
| Storage.Lookup | src/integrations/supabase/storage.ts:14 | a key reads as its value when stored and non-empty, and as null otherwise |
| Storage.UnsetReadsNull | src/integrations/supabase/storage.ts:14 | a key never set reads as null |
| Storage.ReadAfterSet | src/integrations/supabase/storage.ts:14-21 | after storing a non-empty value it reads back; a stored empty string reads back as null |
| Storage.ReadAfterRemove | src/integrations/supabase/storage.ts:14-28 | a removed key reads as null |
| Storage.OtherKeysUnchanged | src/integrations/supabase/storage.ts:21-28 | storing or removing one key leaves every other key's reading unchanged |
| Storage.MemoryStorage.GetItem | src/integrations/supabase/storage.ts:10-16 | reads the stored non-empty value or null, and changes nothing |
| Storage.MemoryStorage.SetItem | src/integrations/supabase/storage.ts:17-23 | the key holds the new value, and every other key is unchanged |
| Storage.MemoryStorage.RemoveItem | src/integrations/supabase/storage.ts:24-30 | the key is gone, and every other key is unchanged |
| Text.Includes | src/pages/student/AchievementsList.tsx:61 | `includes` holds exactly when the term occurs as a contiguous piece |
| Text.Trim | src/integrations/supabase/studentImport.ts:33-37 | the trimmed string is no longer than the input, and neither of its ends is whitespace |
| Text.TrimCutsWhitespace | src/integrations/supabase/studentImport.ts:33-37 | trimming keeps one slice of the input and cuts only whitespace on either side |
| Text.TrimEmptyIffBlank | src/pages/faculty/ReviewAchievement.tsx:47 | trimming gives "" exactly for all-whitespace strings |
| Text.Split | src/integrations/supabase/studentImport.ts:33-37 | there is one more piece than separators, no piece contains the separator, and joining the pieces gives back the input |
| Text.LowerOfUpper | src/pages/admin/AdminUsers.tsx:48-49 | lower-casing forgets how the input was cased |
| Seqs.FilterSpec | src/pages/student/AchievementsList.tsx:59-65 | `filter` gives a subsequence keeping each accepted element as often as the input does, and no rejected one |
| Seqs.FilterFuse | src/pages/faculty/ReviewSubmissions.tsx:33-43 | two filters in a row equal one filter by the conjunction |
| Seqs.FilterAppend | src/pages/student/AddAchievement.tsx:56-66 | filtering a concatenation filters each part |

## Left out

- Rendering is left out: JSX, styling classes beyond the returned class strings, icons, toast descriptions and variants. The `/student/achievements` redirect and other routes appear only as `Navigate` tags.
- The server-side status change is out of scope. It is the `update_achievement_status` RPC behind `api.ts`, whose body is not part of this model. The review page's fetch plumbing and the `api.ts`, `portfolio.ts` and `analytics.ts` wrappers are left out too. Their results are parameters.
- `await`, `Promise.all`, the simulated 2-second delay in the add form and the 3-second `setTimeout` that hides the profile's success flag are concurrency and timing. Every operation is one sequential step.
- `crypto.randomUUID` is the parameter `uuid(i)`. Each batch insert's outcome is the parameter `insertError(k)`.
- Server-side querying is left out. That includes the `ilike` search and the 50-row limit of `searchStudents`, and the role filter and name ordering of `getAllStudents`. The model takes the returned profile list as given.
- The `localStorage` branch of the storage adapter is a browser API, so only the `memoryStorage` branch is modelled.
- Inherited `Object.prototype` keys of the JavaScript record are not modelled. A key such as "constructor" has no special meaning in the map.
- `toLowerCase`, `toUpperCase` and `trim` are modelled over ASCII. Full Unicode case mapping and whitespace are not.
- `File` objects are reduced to a name and a size in bytes.
- The add form's submission saves nothing in the source, and the model keeps it that way. `HandleSubmit` leaves the form unchanged.
- The `catch` around `importStudents` only re-throws. A failed insert is a returned error, not an exception, so nothing in the model reaches that `catch`.
- Console logging is left out, and so is the unused `achievementError` branch of `getAllStudents`. A failed achievement fetch becomes "no rows", written `None`.
- `AddAchievement.CategoryColor`: the contract states only which categories get a non-empty colour, not the class text each one gets.
