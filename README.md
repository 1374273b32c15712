# QA review dashboard: review and user record lifecycle

This project models the logic inside the pages of a QA-tracking dashboard.
The dashboard keeps a list of QA reviews and a list of users in page state.

- The QA reviews page saves an edited review in place by id and appends a new one. It shows the list through a status filter with an `all` card, and it counts the reviews per status for the filter cards.
- The admin page flips a user between Active and Inactive and counts users.
- The technical director's page starts an approval queue from the Completed reviews. Approving or rejecting removes the entry. The page also picks out high-risk reviews by their current grading.
- The dashboard counts reviews per status and lists the first five.
- Around these sit the closed vocabularies of the record types, the badge's text and colour lookups, and the review form's field rules and default values.

Module by source file:

| module | file | what it holds |
|---|---|---|
| `Results` | (helper) | `Option`, `Result` |
| `Seqs` | (helper) | `Filter` and `Map` as JavaScript's `filter` and `map`, the subsequence relation and lemmas about them |
| `Types` | types/qaReview.ts | the record shapes, one datatype per string-literal union with the literal as `Label()`, `ByStatus` |
| `Constants` | lib/constants.ts | option lists, `STATUS_COLORS`, `SHORT_LABELS`, `COUNTRIES`, `GRADINGS` |
| `StatusBadge` | components/ui/status-badge.tsx | display text and colour class, total with fallback |
| `ReviewForm` | components/drawer/qa-review-drawer.tsx | raw form values, per-field rules, errors keyed by field, add and edit defaults |
| `QaReviews` | app/qa-reviews/page.tsx | save (edit or append), filter, card counts; the page state as class `QaReviewsPage` |
| `Admin` | app/admin/page.tsx | status toggle, overview counts, toast wording, role colours; class `AdminPage` |
| `TechnicalDirector` | app/technical-director/page.tsx | approval queue and high-risk selection; class `TechnicalDirectorPage` |
| `Dashboard` | app/dashboard/page.tsx | stat counts, recent reviews, the fixed pie data |

Pages whose state changes are classes. Each class has one field per piece of React state the page updates, and one method per handler.
Filters, counts and lookups are functions.

How some things are represented:
- A review is `QAReview(id, fields)`. `ReviewFields` is the record without its id, which is what the form submits.
- The TypeScript field `type` is called `firmType`, because `type` is a reserved word in Dafny.
- The blocked glyph is written `"\U{26D4}"`.
- Inputs the model cannot compute are parameters:
  - the clock reading that becomes a new review's id (`newId`);
  - the form library's email check (`isEmail`);
  - the mock data each page starts from.

Behaviour the model keeps as the program has it:
- Saving an edit for an id that is not in the list does nothing, and no error is reported.
- Country and gradings only have to be non-empty. They are not checked against `COUNTRIES` or `GRADINGS`.
- No ordering between the planned date and the end date is checked.
- Only the user status has a toggle. No toggle exists for the blocked/active reviewer or partner fields.
- Errors are reported as an object keyed by field name, which is what the form reads them from. They are not a list.

## Model

| member | source | states |
|---|---|---|
| Types.QaStatusFromLabel | types/qaReview.ts:14 | the review status accepts exactly its three literals, and reading a literal back gives the status that shows it |
| Types.FirmTypeFromLabel | types/qaReview.ts:4 | the firm type accepts exactly Prospect and Current Members, inverse of `Label` |
| Types.ReviewerStatusFromLabel | types/qaReview.ts:8 | the reviewer status accepts exactly the blocked glyph and Active, inverse of `Label` |
| Types.PartnerStatusFromLabel | types/qaReview.ts:9 | the partner status accepts exactly the blocked glyph and Approved, inverse of `Label` |
| Types.EnumerationsAreClosed | types/qaReview.ts:4-14 | each of the four form unions has its listed literals and no others |
| Types.ByStatus | app/qa-reviews/page.tsx:302 | the status selection is a subsequence of the list that holds every review of that status as many times as the list does and no other review; its length is the number of positions with that status |
| Types.ByStatusPartition | types/qaReview.ts:14 | the three status selections together have as many reviews as the list, since the status has exactly three values |
| Types.Ids | types/qaReview.ts:2 | the id list has the reviews' ids position by position |
| Constants.OptionListsMatchUnions | lib/constants.ts:1-9 | each option list is its union's literals in order, and a string is in the list iff the union accepts it |
| Constants.StatusColorsCoverEnumerations | lib/constants.ts:11-21 | every value of every enumerated status and type field, `Inactive` included, has a non-empty colour entry |
| Constants.ShortLabelsCoverage | lib/constants.ts:23-29 | short labels exist for the firm types and review statuses, not for Active, Inactive, the glyph or Approved |
| Constants.GradingsShape | lib/constants.ts:36 | 11 pairwise distinct grades, `A+` first and `F` last |
| Constants.CountriesShape | lib/constants.ts:31-34 | 10 pairwise distinct countries |
| StatusBadge.DisplayText | components/ui/status-badge.tsx:10-12 | the default variant shows the status verbatim; the short variant shows the short label when one exists, the status otherwise |
| StatusBadge.ColorClass | components/ui/status-badge.tsx:19 | any string gets a non-empty colour: its table entry when present and non-empty, the gray fallback when absent |
| StatusBadge.ColorIsTableEntryOrFallback | components/ui/status-badge.tsx:19 | with the program's table the colour is exactly the entry if present, else the fallback |
| StatusBadge.ShortLabelsOfReviewStatuses | components/ui/status-badge.tsx:10-12 | short texts: Completed is Done, In Progress is In Prog, Not Started is unchanged, Pros and Curr for firm types |
| StatusBadge.UnabbreviatedStatusesShowFullText | components/ui/status-badge.tsx:10-12 | the glyph, Approved, Active and Inactive show their full text in either variant |
| StatusBadge.EnumeratedValuesUseTableColors | components/ui/status-badge.tsx:19 | every review and user status takes its table colour; blocked and Inactive are red, Prospect yellow |
| ReviewForm.Errors | components/drawer/qa-review-drawer.tsx:30-43 | a field has an error iff its own rule fails, and that error is the field's own message; every field is checked |
| ReviewForm.FieldOk | components/drawer/qa-review-drawer.tsx:30-43 | the seven text fields need a non-empty value, the contact must pass the email check, and each enumerated field must be one of its union's literals |
| ReviewForm.IssueKindOf | components/drawer/qa-review-drawer.tsx:31-42 | the text and email rules report a non-empty schema message; the four enumerated fields report the library's enumeration check |
| ReviewForm.IssueMessagesDistinct | components/drawer/qa-review-drawer.tsx:31-42 | no two fields share a message |
| ReviewForm.Parse | components/drawer/qa-review-drawer.tsx:30-43 | a form passing every rule reads as a typed review that shows as that same form |
| ReviewForm.Validate | components/drawer/qa-review-drawer.tsx:30-45 | success iff every per-field rule holds; on success the result shows as the submitted form; on failure the non-empty errors of all failing fields |
| ReviewForm.AcceptedIffAcceptable | components/drawer/qa-review-drawer.tsx:30-43 | a form is accepted iff it shows a review with non-empty required text and an email contact |
| ReviewForm.EditRoundTrip | components/drawer/qa-review-drawer.tsx:64-78 | submitting the edit form of an acceptable review unchanged gives that review back |
| ReviewForm.EditDefaults | components/drawer/qa-review-drawer.tsx:64-78 | the edit defaults are the edited review's twelve non-id fields |
| ReviewForm.AddDefaultsShape | components/drawer/qa-review-drawer.tsx:79-92 | the add defaults leave the seven text fields and the contact empty and preset Current Members, Active, Approved and Not Started |
| ReviewForm.BlankFormFails | components/drawer/qa-review-drawer.tsx:79-92 | the untouched add form fails on exactly the seven required text fields, plus the contact unless "" passes the email check; the preset enums pass |
| ReviewForm.NoVocabularyOrDateOrderCheck | components/drawer/qa-review-drawer.tsx:35-41 | a country outside `COUNTRIES`, grades outside `GRADINGS` (all three shown absent) and an end date before the planned date are accepted |
| ReviewForm.OnlyBadEmailReported | components/drawer/qa-review-drawer.tsx:33 | with the seven required text fields filled in and a contact the email check rejects, there is exactly one error, on the contact, with its message |
| QaReviews.FilterCardsCoverFilters | app/qa-reviews/page.tsx:126-131 | the four cards offer `all` and each status, each exactly once; the first card's value is "all" and each status card's value is its own title |
| QaReviews.UpdateById | app/qa-reviews/page.tsx:147-153 | the record with the edited id takes the submitted fields and keeps its id; all others, the length, the order and the ids are unchanged |
| QaReviews.UpdateAbsentIdIsNoOp | app/qa-reviews/page.tsx:148-151 | saving an edit for an id not in the list leaves the list unchanged |
| QaReviews.UpdateKeepsUniqueIds | app/qa-reviews/page.tsx:147-153 | saving an edit keeps ids unique |
| QaReviews.AppendFreshKeepsUniqueIds | app/qa-reviews/page.tsx:157-161 | appending a review whose id is fresh keeps ids unique |
| QaReviews.Filtered | app/qa-reviews/page.tsx:299-302 | `all` gives the list unchanged; a status gives a subsequence holding each review of that status as often as the list does and nothing else |
| QaReviews.NewReviewShownUnderItsStatusOnly | app/qa-reviews/page.tsx:299-302 | a newly appended review is visible under its own status card and under no other status card |
| QaReviews.CardCount | app/qa-reviews/page.tsx:336-342 | each card's number is the size of its filtered view: the list length for `all`, the number of positions with that status otherwise |
| QaReviews.CardCountsSumToTotal | app/qa-reviews/page.tsx:336-342 | the three status cards add up to the `all` card |
| QaReviews.QaReviewsPage.constructor | app/qa-reviews/page.tsx:134-138 | the page starts with the given list, no review being edited, filter `all`, drawer closed |
| QaReviews.QaReviewsPage.FilteredData | app/qa-reviews/page.tsx:299-302 | the table rows are a subsequence of the list: the whole list under `all`, and under a status every review of that status, with its multiplicity, and nothing else |
| QaReviews.QaReviewsPage.HandleSave | app/qa-reviews/page.tsx:144-165 | an edit replaces by id, a new review is appended with the clock id; afterwards nothing is being edited; unique ids stay unique when the new id is fresh; filter and drawer untouched |
| QaReviews.QaReviewsPage.HandleEdit | app/qa-reviews/page.tsx:167-170 | the row becomes the review being edited and the drawer opens; the list is untouched |
| QaReviews.QaReviewsPage.HandleAdd | app/qa-reviews/page.tsx:374-377 | nothing is being edited and the drawer opens |
| QaReviews.QaReviewsPage.HandleClose | app/qa-reviews/page.tsx:384-387 | the drawer closes and nothing is being edited; the list is untouched |
| QaReviews.QaReviewsPage.SelectCard | app/qa-reviews/page.tsx:350-355 | selecting a card sets the filter to its value and changes nothing else |
| Admin.Flipped | app/admin/page.tsx:34 | flipping always changes the status |
| Admin.Toggled | app/admin/page.tsx:33-35 | a user with the toggled id gets only its status flipped; any other user is unchanged |
| Admin.ToggleStatus | app/admin/page.tsx:31-37 | the toggle maps every user through `Toggled`, keeping length and order |
| Admin.ToggleTwiceRestores | app/admin/page.tsx:33-34 | toggling the same id twice gives the original list back |
| Admin.ToggleAbsentIsNoOp | app/admin/page.tsx:32-36 | toggling an id no user has leaves the list unchanged |
| Admin.ToggleMovesActiveCountByOne | app/admin/page.tsx:31-37 | with unique ids, a toggle lowers the active count by one for an Active user and raises it by one otherwise |
| Admin.ActiveCount | app/admin/page.tsx:127 | the active count is the number of positions holding an Active user |
| Admin.AdminCount | app/admin/page.tsx:128 | the admin count is the number of positions holding an Admin |
| Admin.OverviewOf | app/admin/page.tsx:126-128 | the total is the list length, the active card is the active count and the admin card the admin count, neither above the total |
| Admin.ToastMessage | app/admin/page.tsx:38 | the toast says deactivated iff the user was Active before the toggle, activated otherwise |
| Admin.RoleColorsCoverRoles | app/admin/page.tsx:41-46 | each of the four roles has a colour entry, and there are no other entries |
| Admin.AdminPage.constructor | app/admin/page.tsx:23 | the page starts with the given user list |
| Admin.AdminPage.Cards | app/admin/page.tsx:126-128 | the cards of the current list: its length, its active count and its admin count |
| Admin.AdminPage.HandleToggleStatus | app/admin/page.tsx:30-39 | the list becomes its toggled copy, the toast is chosen from the row's old status, and with unique ids the active card moves by one |
| TechnicalDirector.InitialQueue | app/technical-director/page.tsx:13-15 | the initial queue is a subsequence of the list holding every Completed review as often as the list does and nothing else |
| TechnicalDirector.RemoveId | app/technical-director/page.tsx:19 | removal leaves a subsequence with no entry of the id and every other entry as often as before |
| TechnicalDirector.RemoveAbsentIsNoOp | app/technical-director/page.tsx:19 | removing an absent id leaves the queue unchanged |
| TechnicalDirector.RemoveIdempotent | app/technical-director/page.tsx:24 | removing the same id twice is the same as removing it once |
| TechnicalDirector.IsHighRiskGrade | app/technical-director/page.tsx:28 | a grade is high risk iff some character of it is C or D, or it is exactly F |
| TechnicalDirector.HighRiskReviews | app/technical-director/page.tsx:27-29 | the high-risk list is a subsequence holding every review whose grade contains C or D or equals F, as often as the list does, and nothing else |
| TechnicalDirector.HighRiskGradings | app/technical-director/page.tsx:28 | over `GRADINGS`, a grade is high risk iff it is one of the last five, C+, C, C-, D, F |
| TechnicalDirector.HighRiskSelectionOfGradings | lib/constants.ts:36 | selecting the high-risk grades of the vocabulary yields C+, C, C-, D, F in order |
| TechnicalDirector.OnlyExactFIsHighRisk | app/technical-director/page.tsx:28 | F is high risk; F-, F+ and E are not; a grade containing C or D is |
| TechnicalDirector.TechnicalDirectorPage.constructor | app/technical-director/page.tsx:13-15 | the queue starts as the Completed reviews and the invariant holds |
| TechnicalDirector.TechnicalDirectorPage.HandleApprove | app/technical-director/page.tsx:17-20 | the queue loses every entry with the id, never grows, and stays a subsequence of the Completed reviews |
| TechnicalDirector.TechnicalDirectorPage.HandleReject | app/technical-director/page.tsx:22-25 | the same effect on the queue as approving |
| TechnicalDirector.TechnicalDirectorPage.QueueBounded | app/technical-director/page.tsx:13-25 | the queue is never longer than the Completed reviews |
| Dashboard.StatsOf | app/dashboard/page.tsx:46-49 | the total is the list length; each status card is the number of positions holding that status; the three add up to the total |
| Dashboard.Recent | app/dashboard/page.tsx:181 | the recent list is a prefix of the reviews of length min(5, n) |
| Dashboard.PieChartIndependentOfReviews | app/dashboard/page.tsx:30-34 | the fixed pie values equal the stat counts iff the list has exactly 2, 2 and 1 reviews per status |

## Left out

- Rendering: JSX, Tailwind class strings other than the lookup tables, dialogs, dropdowns, cards, animation, the bar and pie charts. The monthly numbers are left out too.
- Free-text search. It lives in the data-table component, which is not part of this model.
- The member-firm and reviewer pages. Their handlers only show toasts.
- The review detail dialog (`handleView`) and `handleExport`. They only open a dialog or show a toast.
- The drawer's `onSubmit`: its one-second simulated delay, the loading flag, and the reset and close. This is timer and async plumbing.
- The email grammar of the validation library. It is the parameter `isEmail`.
- The wording of the library's enumeration error. It is `InvalidEnumValue`, with no text.
- `Date.now()`: a new review's id is the parameter `newId`. The source does not check that this id is unique, so the model only proves uniqueness is kept when the caller passes a fresh id.
- Toasts other than the admin toggle's wording, and `console.log`. These are side effects.
- Date formatting with `toLocaleDateString` and the rounded completion percentage, which is floating point.
- The mock dataset. Every initial list is a parameter.
- JavaScript's `in` also finds keys inherited from `Object.prototype` (for example `'toString' in SHORT_LABELS`). The badge model treats both tables as plain maps, so such keys fall back like any unknown string.
- Each `Label()` string is compared as a sequence of Unicode characters. JavaScript compares UTF-16 code units. Non-emptiness and equality agree for every string the program uses.
- Reviewer and member-firm records have no operations here. `assignedReviews` and `totalReviews` are stored numbers, and nothing in the model derives or updates them.
- TechnicalDirector.TechnicalDirectorPage.HandleReject: having "the same effect as approving" is stated as the same `ensures`, not as a lemma, because a lemma cannot call a method.
