# Complaint tracker: record lifecycle model

A Dafny model of the complaint-record lifecycle in a client-side complaint
tracking web app. A signed-in user submits a complaint through a form. The
form checks five text fields, encodes the picked media files, builds a
`pending` record and appends it to the stored list. The "My Complaints" page
shows the user's own records and can mark them resolved. The home dashboard
counts all stored records by status and resolves pending ones.

Browser storage is replaced by an explicit `seq<Complaint>`, the stored list.
Each page's own copy of that list is a second sequence, and the model proves
how the two stay in step.

Modules, one per source file plus shared parts:

- `Records` (`records.dfy`): the `Complaint` record, `Status` and `Priority`
  with their texts and parsers, the session `User`, and `StartsWith`.
- `ComplaintList` (`complaint_list.dfy`): the list operations both pages
  perform. These are resolve-by-id, the owner filter and the status counts,
  with their framing, idempotence, commutation and counting lemmas.
- `ComplaintForm` (`complaint_form.dfy`): the submit handler
  (`components/complaint-form.tsx`).
- `ComplaintsPage` (`complaints_page.dfy`): the user's view, the badge
  classes, media kinds and "Mark as Resolved" (`app/complaints/page.tsx`).
- `HomePage` (`home_page.dfy`): the dashboard counters, resolve, and the
  submit callback (`app/home/page.tsx`).

Ids are strings. `resolveComplaint` in `app/home/page.tsx:48` declares its
parameter as a number, but it is called with a record's string id and compares
with `===`, so at run time it compares strings. Ids come from the millisecond
clock, so nothing makes them unique. Every lemma that says a count moves by
exactly one assumes `UniqueIds`. `ComplaintForm.SameTickIdsResolveTogether` shows what
happens without it: two records with one id resolve together.

Notes on the program's own behaviour:

- A failed validation shows one fixed message
  (`components/complaint-form.tsx:55`); it does not name the missing fields.
- The category picker's last option value is `"other"`, in lower case
  (`components/complaint-form.tsx:145`).
- Category and priority are free text in the record. The handler accepts any
  non-empty value (`components/complaint-form.tsx:54`).

Mounting the home page (`HomePage.Mount`, `app/home/page.tsx:17-20`) loads
the stored list into the page's copy; it is the definition of the starting
state that `HomePage.Synced` describes.

## Model

| member | source | states |
|---|---|---|
| Records.ParseStatus | components/complaint-form.tsx:20 | reading a status text gives the status with that text, and gives nothing exactly when no status has that text |
| Records.ParsePriority | components/complaint-form.tsx:164-167 | reading a priority text gives the level with that text, and gives nothing exactly when no level has that text |
| Records.TextRoundTrip | components/complaint-form.tsx:20 | reading back the text of any status or priority gives the same value |
| ComplaintList.ResolveById | app/complaints/page.tsx:85-87 | the resolved list is as long as the list it came from |
| ComplaintList.ResolveByIdEffect | app/complaints/page.tsx:85-87 | record by record, in order: every record with the id becomes resolved; no other field of any record changes; records with other ids stay as they were |
| ComplaintList.ForOwner | app/complaints/page.tsx:38 | a user's view is never longer than the stored list |
| ComplaintList.ForOwnerMembers | app/complaints/page.tsx:38 | the view holds exactly the stored records whose owner is the user |
| ComplaintList.ForOwnerKeepsAllIffOwned | app/complaints/page.tsx:38 | the view is as long as the stored list exactly when the user owns every stored record |
| ComplaintList.CountStatus | app/home/page.tsx:44-45 | a status count never exceeds the list length |
| ComplaintList.CountExtremes | app/home/page.tsx:44-45 | a status count is zero exactly when no record has the status, and equals the length exactly when every record has it |
| ComplaintList.CountIdStatus | app/home/page.tsx:48-52 | the number of records with a given id and status is zero exactly when no record has both |
| ComplaintList.ResolveAbsentIsIdentity | app/complaints/page.tsx:92-94 | resolving an id that no record carries leaves the list unchanged |
| ComplaintList.ResolveIdempotent | app/complaints/page.tsx:85-87 | resolving an id twice gives the same list as resolving it once |
| ComplaintList.ResolveAppend | app/complaints/page.tsx:92-94 | resolving works record by record, so it distributes over concatenation |
| ComplaintList.ResolveCommutesWithOwner | app/complaints/page.tsx:84-95 | filtering the resolved list by owner equals resolving the filtered view |
| ComplaintList.ResolveResolvedIsIdentity | app/home/page.tsx:49 | with unique ids, resolving an already resolved record leaves the list unchanged |
| ComplaintList.ResolveChangesIffUnresolved | app/complaints/page.tsx:93 | with unique ids, resolving a record's id changes the list exactly when that record is not yet resolved |
| ComplaintList.ForOwnerAppend | app/complaints/page.tsx:38 | the owner filter keeps stored order: filtering a concatenation concatenates the filtered parts |
| ComplaintList.OwnerCountBounded | app/home/page.tsx:18-19 | a user's view never holds more records of a status than the whole list |
| ComplaintList.CountAppend | app/home/page.tsx:44-45 | the count of a concatenation is the sum of the parts' counts |
| ComplaintList.CountsPartition | app/home/page.tsx:43-45 | the pending, in-progress and resolved counts add up to the list's length |
| ComplaintList.ResolveDrainsUnresolved | app/home/page.tsx:49 | resolving an id lowers the pending and in-progress counts by the number of that id's records in each |
| ComplaintList.ResolveFillsResolved | app/home/page.tsx:49 | resolving an id raises the resolved count by the number of that id's pending and in-progress records |
| ComplaintList.UniqueIdCounts | app/home/page.tsx:48-52 | with unique ids, a record is the only one carrying its id |
| ComplaintList.ResolvePendingMovesOne | app/home/page.tsx:48-52 | with unique ids, resolving a pending record lowers the pending count by one and raises the resolved count by one; the length and the in-progress count stay the same |
| ComplaintList.AppendFreshKeepsUnique | components/complaint-form.tsx:74 | appending a record whose id no stored record carries keeps the ids unique; the program never checks this, so `HomePage.OnSubmit` states it only for such a record |
| ComplaintForm.ChooseFiles | components/complaint-form.tsx:43-47 | a present file selection replaces the file list and nothing else; an absent one changes nothing |
| ComplaintForm.EncodeAll | components/complaint-form.tsx:61-68 | encoding succeeds exactly when every file encodes; the result has one entry per file, in file order, each being that file's encoding |
| ComplaintForm.NewComplaint | components/complaint-form.tsx:73-84 | a new record is pending; it copies title, description, category, priority and location verbatim; it holds the encoded media; its owner is the session user's id, or "" with no session user |
| ComplaintForm.HandleSubmit | components/complaint-form.tsx:49-105 | a record is submitted exactly when all five fields are filled, every file encodes and storage works; then the store becomes the old store plus that record, and the form is cleared and shows success; otherwise the store is unchanged and only the message and flags change; the fill-in message appears exactly when a field is empty; a filled form that is not submitted shows the "Failed to submit complaint" message; a filled form is never left mid-submit, and a form that was not mid-submit is never left mid-submit |
| ComplaintForm.SameTickIdsResolveTogether | components/complaint-form.tsx:74 | two records built with the same clock value share an id, so a list holding both does not have unique ids, and resolving that id lowers the pending count by two |
| ComplaintForm.HandleSubmitAsWritten | components/complaint-form.tsx:54-72 | as written, an encoding failure on a filled form leaves the form mid-submit with no message, no success flag, the fields and picked files as they were, and the store unchanged; every other case behaves as the corrected handler |
| ComplaintForm.EncodingFailureLocksForm | components/complaint-form.tsx:59-72 | for any filled form with a picked file that fails to encode, the as-written form stays mid-submit with no message, while the corrected one is re-enabled and shows the failure message; neither touches the store |
| ComplaintForm.SubmitAppendsOne | components/complaint-form.tsx:86-97 | a successful submit grows the store by exactly one pending record at the end, with one media entry per file; the earlier records keep their order; the form is cleared |
| ComplaintsPage.StatusColor | app/complaints/page.tsx:56-67 | the badge is gray exactly when the text is not one of the three statuses; otherwise it is the yellow, blue or green class |
| ComplaintsPage.PriorityColor | app/complaints/page.tsx:69-82 | the badge is gray exactly when the text is not one of the four levels; otherwise it is the red, orange, yellow or green class |
| ComplaintsPage.ColorsDistinguish | app/complaints/page.tsx:56-82 | different statuses get different badge classes, and so do different priority levels |
| ComplaintsPage.StatusLabel | app/complaints/page.tsx:133 | the label is "Resolved" exactly for a resolved record; any other status shows its stored text |
| ComplaintsPage.KindOf | app/complaints/page.tsx:145 | a media entry is shown as a video exactly when it starts with "data:video"; for a data URL, exactly when the file type it embeds starts with "video" |
| ComplaintsPage.DataUrlKind | app/complaints/page.tsx:145 | a data URL starts with "data:video" exactly when the file type it embeds starts with "video" |
| ComplaintsPage.OfferedExactlyWhenEffective | app/complaints/page.tsx:154 | with unique ids, the button is offered exactly when pressing it would change the stored list |
| ComplaintsPage.Open | app/complaints/page.tsx:35-41 | a page exists exactly when there is a session user; its view holds exactly that user's stored records and is consistent with the store |
| ComplaintsPage.MarkResolved | app/complaints/page.tsx:84-96 | in the view and in the store, every record carrying the id becomes resolved, including other users' records in the store that share it; records with other ids stay as they were; both keep their lengths; only statuses change; a view consistent with the store stays consistent |
| ComplaintsPage.MarkResolvedKeepsView | app/complaints/page.tsx:84-96 | resolving a record from the view keeps the view consistent and its length, marks that record resolved, and leaves the user's record count in the store unchanged |
| HomePage.Dashboard | app/home/page.tsx:43-45 | the total is the list length; pending plus resolved never exceeds it, and equals it exactly when nothing is in progress; each counter is zero exactly when no record has its status |
| HomePage.DashboardCountsEveryOwner | app/home/page.tsx:18-19 | the counters cover every owner: a user's own records never count for more, and the totals agree only when that user owns every record |
| HomePage.DashboardOffersFewer | app/home/page.tsx:126 | the dashboard offers "Mark Resolved" only where the complaints page does, and never for an in-progress record |
| HomePage.ResolveComplaint | app/home/page.tsx:48-52 | every record carrying the id becomes resolved and records with other ids stay as they were; the copy and storage agree afterwards; the length and total stay the same; an absent id changes nothing |
| HomePage.ResolvePendingCounters | app/home/page.tsx:48-52 | with unique ids, resolving an offered record lowers pending by one, raises resolved by one and keeps the total |
| HomePage.ResolveResolvedCounters | app/home/page.tsx:49 | with unique ids, resolving an already resolved record leaves all three counters unchanged |
| HomePage.OnSubmit | app/home/page.tsx:104-109 | the new record goes at the end and earlier records are kept; the total grows by one; for a pending record, pending grows by one and resolved stays; a record whose id is not yet stored keeps the ids unique |
| HomePage.SubmitFromHome | app/home/page.tsx:103-109 | with the form's handler as written: after a submit, storage holds the page's copy plus the new record, overwriting the form's own append; with the copy in step with storage, the record is stored once and total and pending each grow by one; a failed submit leaves the page as it was and the form as the as-written handler leaves it |
| HomePage.PotholeScenario | components/complaint-form.tsx:73-88 | submitting "Pothole" as u1 on an empty store gives one pending record owned by u1; after resolving it, the record is resolved and u1's view still holds one record |

## Left out

- Browser storage and JSON are not modelled. The stored list is a sequence, and the JSON round trip is taken as identity. A missing key, or an empty string under it, reads as the empty list.
- Storage failures are reduced to one flag. Any throw from reading or writing the list inside the handler's `try` becomes the `persistOk` parameter; a malformed stored value is not modelled apart from that.
- File encoding is not modelled. The file reader's data-URL encoding is a per-file `encode` parameter, where `None` means that file fails.
- `DataUrl` gives the data-URL layout only to state `DataUrlKind`. Base64 itself is not modelled.
- `Date.now()` and the ISO creation date are parameters of the record's construction.
- The 1-second artificial delay and the 3-second success-banner timer are left out. They only affect timing.
- React state, hooks, re-rendering and the Next.js redirect to login are left out. The page model starts after a session user is known, or yields no page without one.
- Optional fields are not modelled as optional. `location` and `media` are optional in the record's type, but the only producer always sets them.
- The form's `onSubmit` callback is optional in the source. The model always has one: `Submission.submitted` is the record passed to it, and the home page always supplies the callback.
- The category picker's fixed choices are not enforced. The handler only checks that category is non-empty, so the model does the same.
- The session context, navigation bar, profile page and notifications page are left out. They hold only markup and a mocked session load.
- All markup and CSS is left out, apart from the status and priority badge classes.

## Findings

| source | as written | input that shows it | evidently intended | confidence | as-written member | corrected member |
|---|---|---|---|---|---|---|
| components/complaint-form.tsx:61-72 | the media files are encoded and awaited before the `try` block, so a rejected encoding escapes the handler. `isSubmitting` stays true, every input and the submit button stay disabled, and no error is shown | all five fields filled and one picked file whose reader fails | an encoding failure is caught like any other submit failure: the "Failed to submit complaint" message is shown and the form is re-enabled | not executed | ComplaintForm.HandleSubmitAsWritten | ComplaintForm.HandleSubmit |
