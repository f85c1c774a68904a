# Karibu Safariz, modelled in Dafny

Karibu Safariz is a tour operator's web site: a public home page that
shows featured tours, a photo gallery, special trips and popular
destinations, sign-in and password pages for customers and
administrators, and an administration area where staff manage tours,
blog posts, travel information, destinations, bookings, enquiries,
reviews and users and see a dashboard of totals.

This project models the logic of those screens, one Dafny module per
source file:

- the shared list filters and the form validation rules;
- the edit forms: loading a stored record, the itinerary editor, the
  slug derivation and the insert-or-update call;
- the management screens: search and filter, delete, and the toggles
  and status changes that patch one row;
- the dashboard: its counts, its revenue and the error list of the
  sources that failed;
- the home-page sections: the slider's navigation and timer, the
  hero's destination list and search query, the gallery, special trips
  and popular destinations with their fixed fallbacks;
- the breadcrumb trail, the password forms, and the sign-in and
  fetch-on-mount hooks.

Screens whose state the source changes step by step are classes.
Their methods take the answers of the backend calls as parameters:
a `Reply` with `data` and `error`, an `Outcome` that either threw or
returned, and the `confirm` answer as a `bool`. The pure helpers are
functions, with lemmas about them.

Shared modules:

- `Options`: nullable values.
- `Text`: ASCII case mapping, `includes`, `split` and `join`.
- `Seqs`: `filter`, `find`, `slice` and `Array.from(new Set(...))`.
- `Rows`: the row removal and row patching every management screen
  applies.
- `FormValues`: the loop that copies a record into a form.
- `Slug`: the slug expression the three content forms share.

## Model

| member | source | states |
|---|---|---|
| FilterUtils.Heading | src/lib/filterUtils.ts:17 | the title when it is non-empty, else the name, else "" |
| FilterUtils.FilterByCategory | src/lib/filterUtils.ts:1-7 | a missing, empty or "all" category returns the list itself; otherwise exactly the items of that category, in order, each as often as in the input |
| FilterUtils.FilterBySearch | src/lib/filterUtils.ts:9-21 | a blank term returns the list itself; otherwise exactly the items whose heading or description contains the term ignoring case, in order, each as often as in the input |
| FilterUtils.FilterByMultiple | src/lib/filterUtils.ts:23-30 | an item survives iff it passes both filters, as often as it occurs in the input; the result keeps the input's order |
| FilterUtils.FiltersCommute | src/lib/filterUtils.ts:23-30 | searching first and filtering by category second gives the same list |
| FilterUtils.UntrimmedTerm | src/lib/filterUtils.ts:13-15 | the term is only checked for blankness, not trimmed: " safari" misses a "Safari" title that "safari" finds |
| FilterUtils.TrimmedTermHits | src/lib/filterUtils.ts:15-19 | the lowercased term "safari" is found in the title "Safari" |
| FilterUtils.UntrimmedTermMisses | src/lib/filterUtils.ts:15-19 | " safari", with its leading space kept, is found in no field of that item |
| ValidationSchemas.MinLength | src/lib/validationSchemas.ts:5 | `z.string().min(n, message)`: no issue iff the string has at least n characters, else one issue at the field with the message |
| ValidationSchemas.AtLeast | src/lib/validationSchemas.ts:30 | `z.number().min(n, message)`: no issue iff the value is at least n |
| ValidationSchemas.OneOf | src/lib/validationSchemas.ts:29 | `z.enum`: no issue iff the value is one of the options |
| ValidationSchemas.Format | src/lib/validationSchemas.ts:4 | a format check (`.email`, `.url`): no issue iff the check accepts the string |
| ValidationSchemas.EachNonEmpty | src/lib/validationSchemas.ts:21 | `z.array(z.string().min(1))`: no issue iff every entry is non-empty; at most one issue per entry, each under the field |
| ValidationSchemas.EachFormat | src/lib/validationSchemas.ts:36 | `z.array(z.string().url())`: no issue iff every entry is a URL |
| ValidationSchemas.LoginIssues | src/lib/validationSchemas.ts:3-6 | a login is accepted iff the email is valid and the password has at least 6 characters; a short password always reports its message |
| ValidationSchemas.RegisterIssues | src/lib/validationSchemas.ts:8-12 | accepted iff the login rules hold and the full name has at least 2 characters; its issues are the login issues followed by the name issue |
| ValidationSchemas.BlogIssues | src/lib/validationSchemas.ts:14-23 | a post is accepted iff title ≥ 5, excerpt ≥ 20, content ≥ 100 characters, the image is a URL, author ≥ 2, category ≥ 1 and no tag is empty |
| ValidationSchemas.TourNumberIssues | src/lib/validationSchemas.ts:30-35 | the duration, both prices and both participant counts are each at least 1 |
| ValidationSchemas.TourListIssues | src/lib/validationSchemas.ts:36-39 | at least one image, every image a URL, and no empty includes, excludes or requirements entry |
| ValidationSchemas.TourIssues | src/lib/validationSchemas.ts:25-43 | a tour is accepted iff every field rule holds: the lengths, both enumerations, the numbers, the lists and best time ≥ 5 |
| ValidationSchemas.ParticipantBoundsUnrelated | src/lib/validationSchemas.ts:34-35 | the schema never compares the two participant counts: an accepted tour stays accepted with its minimum above its maximum |
| ValidationSchemas.QuickFactIssues | src/lib/validationSchemas.ts:52-56 | no issue iff every quick fact has a non-empty label and value |
| ValidationSchemas.TravelInfoIssues | src/lib/validationSchemas.ts:45-60 | a guide is accepted iff its lengths, image URL, category, tags, quick facts and (when present) checklist entries are all valid |
| ValidationSchemas.IconIgnored | src/lib/validationSchemas.ts:55 | changing a quick fact's icon never changes whether the guide is accepted |
| TourFormPage.NewDay | src/pages/admin/TourForm.tsx:132-139 | the day `addItineraryDay` appends: numbered as given, every text empty, one empty activity and one empty meal |
| TourFormPage.Without | src/pages/admin/TourForm.tsx:150 | the filter drops exactly the day at `index` (one shorter, earlier days kept, later days moved up); an index out of range drops nothing |
| TourFormPage.Renumbered | src/pages/admin/TourForm.tsx:152-154 | each day keeps its fields and gets its position plus one as its number |
| TourFormPage.AddKeepsNumbering | src/pages/admin/TourForm.tsx:131-141 | appending the new day numbered `length + 1` keeps days numbered 1..n |
| TourFormPage.RemoveNumbers | src/pages/admin/TourForm.tsx:149-156 | after a removal the days are numbered 1..n whatever their numbers were before |
| TourFormPage.RemoveKeepsOthers | src/pages/admin/TourForm.tsx:149-156 | every day other than the removed one survives, at its position or one earlier, with only its number changed |
| TourFormPage.EditKeepsNumbering | src/pages/admin/TourForm.tsx:143-147 | editing a field other than `day` keeps the numbering |
| TourFormPage.Edit | src/pages/admin/TourForm.tsx:143-147 | the edited field takes the new value and every other field of the day is kept |
| TourFormPage.Located | src/pages/admin/TourForm.tsx:69-74 | the package found is the first row with the route id; nothing is found only when no row has the id (or there is no list) |
| TourFormPage.Payload | src/pages/admin/TourForm.tsx:100-104 | the saved record carries the form data and itinerary, and its slug is the slug of the title, which is its own slug |
| TourFormPage.TourForm.constructor | src/pages/admin/TourForm.tsx:12-16 | editing iff an id is present; the initial spinner shows only when editing; the itinerary starts empty |
| TourFormPage.TourForm.AddItineraryDay | src/pages/admin/TourForm.tsx:131-141 | the itinerary becomes the old one plus the blank next day, and stays numbered |
| TourFormPage.TourForm.UpdateItineraryDay | src/pages/admin/TourForm.tsx:143-147 | only the day at `index` changes, and only in the edited field |
| TourFormPage.TourForm.RemoveItineraryDay | src/pages/admin/TourForm.tsx:149-156 | the loop leaves the other days renumbered 1..n in order (proved against `Renumbered(Without(..))`) |
| TourFormPage.TourForm.FetchTour | src/pages/admin/TourForm.tsx:57-91 | only when editing: one list call; on a failed call or a missing id an alert and a return to the list; otherwise the form is overlaid with every field but id and timestamps and the itinerary loaded (`[]` when absent); the spinner always stops |
| TourFormPage.TourForm.HandleSubmit | src/pages/admin/TourForm.tsx:177 | the schema's issues are shown; data with issues makes no call, valid data goes on to saving |
| TourFormPage.TourForm.OnSubmit | src/pages/admin/TourForm.tsx:93-129 | one save call with the payload, the success or failure alert, a return to the list only on success, and the saving flag cleared |
| TourFormPage.TourForm.SaveCall | src/pages/admin/TourForm.tsx:109-120 | update by id when editing, create otherwise |
| BlogFormPage.Payload | src/pages/admin/BlogForm.tsx:91-95 | the saved record carries the data, the slug of the title, and a publication time exactly when the post is published, and that time is the current one |
| BlogFormPage.PreviewIsSaved | src/pages/admin/BlogForm.tsx:93 | for data the schema accepts, the preview shows exactly the slug that is saved |
| BlogFormPage.Located | src/pages/admin/BlogForm.tsx:65-70 | the post found is the first row with the route id; none is found only when no row has the id |
| BlogFormPage.BlogForm.constructor | src/pages/admin/BlogForm.tsx:12-15 | editing iff an id is present; the initial spinner shows only when editing |
| BlogFormPage.BlogForm.FetchPost | src/pages/admin/BlogForm.tsx:53-85 | only when editing: one list call; a failed call or a missing id alerts and returns to the list; otherwise the form takes every field except id, timestamps and slug; the spinner always stops |
| BlogFormPage.BlogForm.HandleSubmit | src/pages/admin/BlogForm.tsx:185 | the schema's issues are shown; data with issues makes no call, valid data is saved |
| BlogFormPage.BlogForm.OnSubmit | src/pages/admin/BlogForm.tsx:87-114 | one save call, the success or failure alert, a return to the list only on success, the saving flag cleared |
| BlogFormPage.BlogForm.SaveCall | src/pages/admin/BlogForm.tsx:97-105 | update by id when editing, create otherwise |
| TravelInfoFormPage.Checklist | src/pages/admin/TravelInfoForm.tsx:126 | the saved checklist keeps exactly the entries that are not blank after trimming, in order; a missing list saves `[]`; how many copies are kept is stated by `ChecklistMultiset` |
| TravelInfoFormPage.ChecklistMultiset | src/pages/admin/TravelInfoForm.tsx:126 | every filled entry is saved as many times as it was entered; blank entries not at all |
| TravelInfoFormPage.ChecklistKeepsFilled | src/pages/admin/TravelInfoForm.tsx:126 | a checklist with no blank entry is saved unchanged |
| TravelInfoFormPage.ChecklistIdempotent | src/pages/admin/TravelInfoForm.tsx:126 | cleaning an already cleaned checklist changes nothing |
| TravelInfoFormPage.Payload | src/pages/admin/TravelInfoForm.tsx:123-127 | the saved record carries the data, the slug of the title and the cleaned checklist |
| TravelInfoFormPage.PreviewIsSaved | src/pages/admin/TravelInfoForm.tsx:125 | for data the schema accepts, the preview shows exactly the slug that is saved |
| TravelInfoFormPage.Located | src/pages/admin/TravelInfoForm.tsx:97-102 | the guide found is the first row with the route id; none is found only when no row has the id |
| TravelInfoFormPage.TravelInfoForm.constructor | src/pages/admin/TravelInfoForm.tsx:31-34 | editing iff an id is present; the initial spinner shows only when editing |
| TravelInfoFormPage.TravelInfoForm.FetchTravelInfo | src/pages/admin/TravelInfoForm.tsx:85-117 | only when editing: one list call; failure or a missing id alerts and returns to the list; otherwise the form takes every field except id, timestamps and slug; the spinner always stops |
| TravelInfoFormPage.TravelInfoForm.HandleSubmit | src/pages/admin/TravelInfoForm.tsx:217 | the schema's issues are shown; data with issues makes no call |
| TravelInfoFormPage.TravelInfoForm.OnSubmit | src/pages/admin/TravelInfoForm.tsx:119-146 | one save call, the success or failure alert, a return to the list only on success, the saving flag cleared |
| TravelInfoFormPage.TravelInfoForm.SaveCall | src/pages/admin/TravelInfoForm.tsx:129-137 | update by id when editing, create otherwise |
| DestinationFormPage.ArrayItems | src/pages/admin/DestinationForm.tsx:83 | the list keeps exactly the lines that are not blank after trimming, untrimmed, in their order and as often as they occur, and none holds a line break |
| DestinationFormPage.ArrayItemsRoundTrip | src/pages/admin/DestinationForm.tsx:313 | the text area shows `items.join('\n')`; reading it back gives the same list when every item is non-blank and on one line |
| DestinationFormPage.LocationKey | src/pages/admin/DestinationForm.tsx:66-67 | a key exists iff the name starts with `location.`; it is the text after the prefix up to the next `.` (all of it when there is none) |
| DestinationFormPage.SplitAfterPrefix | src/pages/admin/DestinationForm.tsx:67 | `name.split('.')[1]` of a `location.` name is the first piece of what follows the prefix |
| DestinationFormPage.Located | src/pages/admin/DestinationForm.tsx:45-51 | the destination found is the first row with the route id; none is found only when no row has the id |
| DestinationFormPage.DestinationForm.constructor | src/pages/admin/DestinationForm.tsx:8-37 | the default record and location, loading iff an id is present, no error |
| DestinationFormPage.DestinationForm.FetchDestination | src/pages/admin/DestinationForm.tsx:39-62 | only with an id: one list call; a failed call or a missing id alerts and returns to the list; otherwise the whole record is replaced by the stored one; loading stops |
| DestinationFormPage.DestinationForm.HandleInputChange | src/pages/admin/DestinationForm.tsx:64-75 | a `location.` input sets that location key (to the number when the text is numeric, else to the text); any other input sets its own field; nothing else changes |
| DestinationFormPage.DestinationForm.HandleCheckboxChange | src/pages/admin/DestinationForm.tsx:77-80 | sets the named flag and nothing else |
| DestinationFormPage.DestinationForm.HandleArrayInput | src/pages/admin/DestinationForm.tsx:82-85 | sets the named list to the non-blank lines of the text and nothing else |
| DestinationFormPage.DestinationForm.HandleSubmit | src/pages/admin/DestinationForm.tsx:87-109 | one save call with the record as it stands; success alerts and returns to the list with no error; failure shows the error's message or the fallback and stays; the submitting flag is cleared |
| DestinationFormPage.DestinationForm.SaveCall | src/pages/admin/DestinationForm.tsx:93-101 | update by id when editing, create otherwise |
| TourManagementPage.Shown | src/pages/admin/TourManagement.tsx:33-41 | a package is shown iff its title or description contains the term (ignoring case) and it passes the category, difficulty and featured filters; list order is kept; a shown row appears as many times as in the list |
| TourManagementPage.ClearedShowsAll | src/pages/admin/TourManagement.tsx:180-186 | with an empty term, both selects on "all" and featured-only off, every package is shown |
| TourManagementPage.ToggleFeaturedTwice | src/pages/admin/TourManagement.tsx:72-84 | toggling a package's featured flag twice, each time from its shown value, gives the list back |
| TourManagementPage.ToggleActiveTwice | src/pages/admin/TourManagement.tsx:58-70 | toggling a package's active flag twice gives the list back |
| TourManagementPage.DifficultyColor | src/pages/admin/TourManagement.tsx:86-94 | the gray badge is used exactly for difficulties outside the four known ones |
| TourManagementPage.CategoryColor | src/pages/admin/TourManagement.tsx:96-103 | the gray badge is used exactly for categories outside the three known ones |
| TourManagementPage.TourManagement.constructor | src/pages/admin/TourManagement.tsx:8-13 | an empty list, loading, no search, both selects on "all", featured-only off |
| TourManagementPage.TourManagement.Filtered | src/pages/admin/TourManagement.tsx:194 | the shown packages are a subsequence of the loaded ones, so "Showing X of Y" has X at most Y |
| TourManagementPage.TourManagement.FetchTours | src/pages/admin/TourManagement.tsx:19-31 | one list call; success replaces the list (`[]` without data), failure keeps it and alerts; loading stops; filters untouched |
| TourManagementPage.TourManagement.HandleDelete | src/pages/admin/TourManagement.tsx:43-56 | declined: nothing at all; confirmed: one delete call, and on success exactly the rows with that id leave the list, with the matching alert either way |
| TourManagementPage.TourManagement.ToggleActive | src/pages/admin/TourManagement.tsx:58-70 | one call with the negated flag; on success only the rows with that id get it; on failure the list stays and an alert is shown |
| TourManagementPage.TourManagement.ToggleFeatured | src/pages/admin/TourManagement.tsx:72-84 | the same for the featured flag |
| TourManagementPage.TourManagement.ClearFilters | src/pages/admin/TourManagement.tsx:180-186 | resets all four filters and nothing else; afterwards every loaded package is shown |
| BlogManagementPage.Shown | src/pages/admin/BlogManagement.tsx:42-50 | a post is shown iff its title, excerpt or author contains the term (ignoring case) and it passes the category and published-only filters; order kept; a shown row appears as many times as in the list |
| BlogManagementPage.ClearedShowsAll | src/pages/admin/BlogManagement.tsx:157-161 | with the filters cleared every post is shown |
| BlogManagementPage.TogglePublishedRows | src/pages/admin/BlogManagement.tsx:67-79 | after a successful toggle the post with that id has the negated flag and a publication time exactly when it is now published, its other fields unchanged; every other post is unchanged |
| BlogManagementPage.DisplayDate | src/pages/admin/BlogManagement.tsx:258-261 | a row shows its publication time when it has a non-empty one, else its creation time |
| BlogManagementPage.BlogManagement.constructor | src/pages/admin/BlogManagement.tsx:8-12 | an empty list, loading, no search, category "all", published-only off |
| BlogManagementPage.BlogManagement.Filtered | src/pages/admin/BlogManagement.tsx:170 | the shown posts are a subsequence of the loaded ones |
| BlogManagementPage.BlogManagement.FetchPosts | src/pages/admin/BlogManagement.tsx:28-40 | one list call; success replaces the list, failure keeps it and alerts; loading stops |
| BlogManagementPage.BlogManagement.HandleDelete | src/pages/admin/BlogManagement.tsx:52-65 | declined: nothing; confirmed: one delete call, on success exactly the rows with that id leave, with the matching alert |
| BlogManagementPage.BlogManagement.TogglePublished | src/pages/admin/BlogManagement.tsx:67-84 | one call with the negated flag and the time (or null); on success only the rows with that id are patched with both; on failure an alert |
| BlogManagementPage.BlogManagement.ClearFilters | src/pages/admin/BlogManagement.tsx:157-161 | resets the three filters and nothing else; afterwards every post is shown |
| TravelInfoManagementPage.Shown | src/pages/admin/TravelInfoManagement.tsx:42-49 | a guide is shown iff its title or excerpt contains the term (ignoring case) and it passes the category and featured-only filters; order kept; a shown row appears as many times as in the list |
| TravelInfoManagementPage.ClearedShowsAll | src/pages/admin/TravelInfoManagement.tsx:175-179 | with the filters cleared every guide is shown |
| TravelInfoManagementPage.ToggleActiveTwice | src/pages/admin/TravelInfoManagement.tsx:66-78 | toggling a guide's active flag twice gives the list back |
| TravelInfoManagementPage.ToggleFeaturedTwice | src/pages/admin/TravelInfoManagement.tsx:80-92 | toggling a guide's featured flag twice gives the list back |
| TravelInfoManagementPage.CategoryLabel | src/pages/admin/TravelInfoManagement.tsx:107-110 | a known category shows its table label; an unknown one shows itself |
| TravelInfoManagementPage.LabelIn | src/pages/admin/TravelInfoManagement.tsx:107-110 | on any table: the label of an entry with that value when there is one, the value itself otherwise |
| TravelInfoManagementPage.Badges | src/pages/admin/TravelInfoManagement.tsx:252-261 | the row shows the first three tags (fewer if there are fewer) and a "+N more" badge exactly when there are more than three, N being the rest |
| TravelInfoManagementPage.TravelInfoManagement.constructor | src/pages/admin/TravelInfoManagement.tsx:8-12 | an empty list, loading, no search, category "all", featured-only off |
| TravelInfoManagementPage.TravelInfoManagement.Filtered | src/pages/admin/TravelInfoManagement.tsx:188 | the shown guides are a subsequence of the loaded ones |
| TravelInfoManagementPage.TravelInfoManagement.FetchTravelInfo | src/pages/admin/TravelInfoManagement.tsx:28-40 | one list call; success replaces the list, failure keeps it and alerts; loading stops |
| TravelInfoManagementPage.TravelInfoManagement.HandleDelete | src/pages/admin/TravelInfoManagement.tsx:51-64 | declined: nothing; confirmed: one delete call, on success exactly the rows with that id leave, with the matching alert |
| TravelInfoManagementPage.TravelInfoManagement.ToggleActive | src/pages/admin/TravelInfoManagement.tsx:66-78 | one call with the negated flag; on success only the rows with that id change; on failure an alert |
| TravelInfoManagementPage.TravelInfoManagement.ToggleFeatured | src/pages/admin/TravelInfoManagement.tsx:80-92 | the same for the featured flag |
| TravelInfoManagementPage.TravelInfoManagement.ClearFilters | src/pages/admin/TravelInfoManagement.tsx:175-179 | resets the three filters and nothing else; afterwards every guide is shown |
| BookingsManagementPage.Shown | src/pages/admin/BookingsManagement.tsx:28-36 | a booking is shown iff the customer name, tour title or email (missing ones as "") contains the term ignoring case, and the status filter is "all" or equals its status; order kept; a shown row appears as many times as in the list |
| BookingsManagementPage.UnfilteredShowsAll | src/pages/admin/BookingsManagement.tsx:8-9 | with the initial empty term and status "all" every booking is shown |
| BookingsManagementPage.BookingsManagement.constructor | src/pages/admin/BookingsManagement.tsx:6-10 | an empty list, loading, no search, status "all", no error |
| BookingsManagementPage.BookingsManagement.Filtered | src/pages/admin/BookingsManagement.tsx:28 | the shown bookings are a subsequence of the loaded ones |
| BookingsManagementPage.BookingsManagement.FetchBookings | src/pages/admin/BookingsManagement.tsx:12-26 | one list call; a failure empties the list and shows the error's message or "Failed to load bookings"; success shows `data \|\| []` with no error; loading stops |
| BookingsManagementPage.BookingsManagement.UpdateStatus | src/pages/admin/BookingsManagement.tsx:38-45 | one call; on failure an alert with the message or "Failed to update status" and the list stays; on success only the rows with that id get the status |
| InquiriesManagementPage.Shown | src/pages/admin/InquiriesManagement.tsx:28-33 | an inquiry is shown iff the lower-cased "name email phone subject" text contains the lower-cased term and the status filter is "all" or its status; order kept; a shown row appears as many times as in the list |
| InquiriesManagementPage.MatchAcrossFields | src/pages/admin/InquiriesManagement.tsx:29-30 | because the fields are searched as one joined text, a term spanning the name, a space and the email still matches |
| InquiriesManagementPage.InquiriesManagement.constructor | src/pages/admin/InquiriesManagement.tsx:6-10 | an empty list, loading, no search, status "all", no error |
| InquiriesManagementPage.InquiriesManagement.Filtered | src/pages/admin/InquiriesManagement.tsx:28 | the shown inquiries are a subsequence of the loaded ones |
| InquiriesManagementPage.InquiriesManagement.FetchInquiries | src/pages/admin/InquiriesManagement.tsx:12-26 | one list call; a failure empties the list and shows the message or "Failed to load inquiries"; success shows `data \|\| []`; loading stops |
| InquiriesManagementPage.InquiriesManagement.UpdateStatus | src/pages/admin/InquiriesManagement.tsx:35-42 | one call; on failure an alert and the list stays; on success only the rows with that id get the status |
| InquiriesManagementPage.InquiriesManagement.DeleteInquiryRow | src/pages/admin/InquiriesManagement.tsx:44-52 | declined: nothing; confirmed: one call, on failure an alert and the list stays, on success exactly the rows with that id leave |
| ReviewsManagementPage.Shown | src/pages/admin/ReviewsManagement.tsx:28-31 | a review is shown iff the lower-cased "title content reviewer tour" text contains the lower-cased term; order kept; a shown row appears as many times as in the list |
| ReviewsManagementPage.ContentFound | src/pages/admin/ReviewsManagement.tsx:29-30 | a term found in the content alone is enough for the review to be shown |
| ReviewsManagementPage.ReviewsManagement.constructor | src/pages/admin/ReviewsManagement.tsx:6-10 | an empty list, loading, no search, verified-only off, no error |
| ReviewsManagementPage.ReviewsManagement.Filtered | src/pages/admin/ReviewsManagement.tsx:28 | the shown reviews are a subsequence of the loaded ones |
| ReviewsManagementPage.ReviewsManagement.FetchReviews | src/pages/admin/ReviewsManagement.tsx:12-26 | one list call carrying the verified-only flag; a failure empties the list and shows the message or "Failed to load reviews"; success shows `data \|\| []` |
| ReviewsManagementPage.ReviewsManagement.SetShowVerifiedOnly | src/pages/admin/ReviewsManagement.tsx:26 | sets the flag and nothing else; the list is fetched again exactly when the flag changed |
| ReviewsManagementPage.ReviewsManagement.SetVerified | src/pages/admin/ReviewsManagement.tsx:33-40 | one call; on failure an alert and the list stays; on success only the rows with that id get the flag |
| ReviewsManagementPage.ReviewsManagement.DeleteReviewRow | src/pages/admin/ReviewsManagement.tsx:42-50 | declined: nothing; confirmed: one call, on failure an alert, on success exactly the rows with that id leave |
| UsersManagementPage.Shown | src/pages/admin/UsersManagement.tsx:27-30 | a user is shown iff the lower-cased "name email phone" text contains the lower-cased term; order kept; a shown row appears as many times as in the list |
| UsersManagementPage.EmailFound | src/pages/admin/UsersManagement.tsx:28-29 | searching for a user's own email always finds that user |
| UsersManagementPage.ToggleAdminTwice | src/pages/admin/UsersManagement.tsx:32-39 | toggling a user's admin flag twice gives the list back |
| UsersManagementPage.UsersManagement.constructor | src/pages/admin/UsersManagement.tsx:6-9 | an empty list, loading, no search, no error |
| UsersManagementPage.UsersManagement.Filtered | src/pages/admin/UsersManagement.tsx:27 | the shown users are a subsequence of the loaded ones |
| UsersManagementPage.UsersManagement.FetchUsers | src/pages/admin/UsersManagement.tsx:11-25 | one list call; a failure empties the list and shows the message or "Failed to load users"; success shows `data \|\| []` |
| UsersManagementPage.UsersManagement.ToggleAdmin | src/pages/admin/UsersManagement.tsx:32-39 | one call with the negated flag; on failure an alert and the list stays; on success only the rows with that id change |
| DestinationManagementPage.Shown | src/pages/admin/DestinationManagement.tsx:28-31 | a destination is shown iff the lower-cased "name description category" text contains the lower-cased term; order kept; a shown row appears as many times as in the list |
| DestinationManagementPage.NamePrefixFound | src/pages/admin/DestinationManagement.tsx:29-30 | typing the start of a destination's name always shows it |
| DestinationManagementPage.DestinationManagement.constructor | src/pages/admin/DestinationManagement.tsx:7-10 | an empty list, loading, no search, no error |
| DestinationManagementPage.DestinationManagement.Filtered | src/pages/admin/DestinationManagement.tsx:28 | the shown destinations are a subsequence of the loaded ones |
| DestinationManagementPage.DestinationManagement.FetchDestinations | src/pages/admin/DestinationManagement.tsx:12-26 | one list call; a failure empties the list and shows the message or "Failed to load destinations"; success shows `data \|\| []` |
| DestinationManagementPage.DestinationManagement.ToggleActive | src/pages/admin/DestinationManagement.tsx:33-40 | one call with the negated flag; on failure an alert; on success only the rows with that id change |
| DestinationManagementPage.DestinationManagement.DeleteDestinationRow | src/pages/admin/DestinationManagement.tsx:42-50 | declined: nothing; confirmed: one call, on failure an alert, on success exactly the rows with that id leave |
| DashboardPage.DataOf | src/pages/admin/Dashboard.tsx:49-54 | a rejected load or one that answered with an error gives no rows; any other load gives the data it answered with |
| DashboardPage.MessagesDistinct | src/pages/admin/Dashboard.tsx:58-92 | two sources get the same error entry only if they are the same source |
| DashboardPage.Errors | src/pages/admin/Dashboard.tsx:56-92 | there is an error entry for a source exactly when its load was rejected or answered with an error, and it reads "Failed to load <source>" |
| DashboardPage.AllEntriesIffAllFailed | src/pages/admin/Dashboard.tsx:124-126 | the record holds six entries exactly when all six loads failed, so the fatal message appears exactly then |
| DashboardPage.CountWhere | src/pages/admin/Dashboard.tsx:100-102 | `rows?.filter(p).length \|\| 0`: 0 without rows, otherwise the number of positions whose row passes |
| DashboardPage.Revenue | src/pages/admin/Dashboard.tsx:105-110 | with no negative amount among the payments, the revenue is not negative |
| DashboardPage.Total | src/pages/admin/Dashboard.tsx:113-117 | `rows?.length \|\| 0`: the number of rows, 0 without rows |
| DashboardPage.RevenueAppend | src/pages/admin/Dashboard.tsx:105-110 | the revenue `reduce` adds up: the revenue of two lists is the sum of their revenues |
| DashboardPage.RevenueOnlyCompleted | src/pages/admin/Dashboard.tsx:106 | only payments that are "completed" with a non-zero amount contribute: dropping all others leaves the revenue unchanged |
| DashboardPage.StatsOf | src/pages/admin/Dashboard.tsx:100-122 | each pending, unverified or new count is at most its total; every figure of a failed source is 0; the figures of the sources that loaded are stated by `StatsOfTotals` and `StatsOfCounts` |
| DashboardPage.StatsOfTotals | src/pages/admin/Dashboard.tsx:112-117 | the total of each source that loaded is its number of rows (0 when it answered without rows) |
| DashboardPage.StatsOfCounts | src/pages/admin/Dashboard.tsx:100-110 | for a source that loaded, the pending, unverified and new figures count the rows in that status, and the revenue is the revenue of the payments loaded |
| DashboardPage.RecordSource | src/pages/admin/Dashboard.tsx:58-62 | one `if rejected … else if error …` step adds the entry of that source exactly when it failed |
| DashboardPage.CollectErrors | src/pages/admin/Dashboard.tsx:56-92 | the six steps in order build exactly the error record `Errors` describes |
| DashboardPage.Dashboard.constructor | src/pages/admin/Dashboard.tsx:17-30 | all figures 0, loading, no error, no entries |
| DashboardPage.Dashboard.FetchDashboardData | src/pages/admin/Dashboard.tsx:32-134 | after a refresh: not loading, the entries of exactly the failed sources (old entries cleared), the figures of `StatsOf`, and the fatal message exactly when all six loads failed |
| FeaturedTripsSliderSection.FirstImage | src/components/home/FeaturedTripsSlider.tsx:45 | the tour's first image when there is a non-empty one, otherwise the fallback image |
| FeaturedTripsSliderSection.Teaser | src/components/home/FeaturedTripsSlider.tsx:44 | the short description when non-empty, otherwise the first 150 characters of the description (all of it when shorter) |
| FeaturedTripsSliderSection.TourSlide | src/components/home/FeaturedTripsSlider.tsx:40-49 | the slide of the tour at position `index` has id `index + 1`, the tour's title, id and category, and links to `/tours/<category>/<slug>` |
| FeaturedTripsSliderSection.TourSlides | src/components/home/FeaturedTripsSlider.tsx:40-49 | one slide per tour, in list order |
| FeaturedTripsSliderSection.BuildSlides | src/components/home/FeaturedTripsSlider.tsx:27-63 | between one and five slides, the welcome slide first; a failed load leaves the welcome slide alone |
| FeaturedTripsSliderSection.TourSlidesInOrder | src/components/home/FeaturedTripsSlider.tsx:30-52 | after a good load, slide `i` (for i ≥ 1) is the slide of tour `i - 1`, which is among the first four, and has id `i` |
| FeaturedTripsSliderSection.FirstFourShown | src/components/home/FeaturedTripsSlider.tsx:30-52 | after a good load there is one slide per tour up to four, plus the welcome slide |
| FeaturedTripsSliderSection.NextIndex | src/components/home/FeaturedTripsSlider.tsx:75 | the next index is in range |
| FeaturedTripsSliderSection.PrevIndex | src/components/home/FeaturedTripsSlider.tsx:82 | the previous index is in range: one less, or the last slide from the first |
| FeaturedTripsSliderSection.PrevUndoesNext | src/components/home/FeaturedTripsSlider.tsx:72-84 | "previous" undoes "next" and "next" undoes "previous" |
| FeaturedTripsSliderSection.Advance | src/components/home/FeaturedTripsSlider.tsx:86-93 | the index after k autoplay ticks stays in range |
| FeaturedTripsSliderSection.AdvanceFromFirst | src/components/home/FeaturedTripsSlider.tsx:86-93 | k advances from the first slide land on slide k mod n: autoplay cycles through every slide |
| FeaturedTripsSliderSection.Slider.constructor | src/components/home/FeaturedTripsSlider.tsx:19-22 | no slides, index 0, no transition, loading |
| FeaturedTripsSliderSection.Slider.Load | src/components/home/FeaturedTripsSlider.tsx:24-70 | the slides become `BuildSlides(reply)`, loading ends, the index stays 0 and in range |
| FeaturedTripsSliderSection.Slider.Next | src/components/home/FeaturedTripsSlider.tsx:72-77 | ignored during a transition; otherwise starts one and moves to the next index |
| FeaturedTripsSliderSection.Slider.Prev | src/components/home/FeaturedTripsSlider.tsx:79-84 | ignored during a transition; otherwise starts one and moves to the previous index |
| FeaturedTripsSliderSection.Slider.Indicator | src/components/home/FeaturedTripsSlider.tsx:224-229 | ignored during a transition; otherwise starts one and jumps to the chosen slide |
| FeaturedTripsSliderSection.Slider.TransitionEnd | src/components/home/FeaturedTripsSlider.tsx:76 | ends the transition and changes nothing else |
| FeaturedTripsSliderSection.Slider.Tick | src/components/home/FeaturedTripsSlider.tsx:86-93 | with slides and no transition it moves to the next slide; otherwise nothing changes |
| HeroSection.CategoryLabel | src/components/home/HeroNew.tsx:26-28 | the three known categories get their display names; any other category is shown as it is |
| HeroSection.ToOptions | src/components/home/HeroNew.tsx:24-29 | one option per category, in order, valued by the category and labelled by its display name |
| HeroSection.DestinationOptions | src/components/home/HeroNew.tsx:17-43 | a failed load gives the three fallback options; a good load gives no more options than tours, each labelled from its value |
| HeroSection.OptionsAreDistinctCategories | src/components/home/HeroNew.tsx:23 | after a good load every category of a tour has an option and every option is such a category, no category twice, in order of first occurrence |
| HeroSection.DistinctNoLonger | src/components/home/HeroNew.tsx:23 | removing repeats never lengthens the list |
| HeroSection.WithField | src/components/home/HeroNew.tsx:81-86 | only the named field takes the new value |
| HeroSection.QueryParams | src/components/home/HeroNew.tsx:50-66 | each of category, from, to and guests is set exactly when its field is non-empty; no parameter has an empty value; none at all iff every field is empty |
| HeroSection.SetParam | src/components/home/HeroNew.tsx:52-66 | a non-empty value appends its one name/value pair; an empty value leaves the list as it is |
| HeroSection.Param | src/components/home/HeroNew.tsx:52-66 | at most one pair, named `name`, present exactly when the value is non-empty; never an empty value |
| HeroSection.QueryString | src/components/home/HeroNew.tsx:68 | the query text is empty exactly when there are no parameters |
| HeroSection.SearchTarget | src/components/home/HeroNew.tsx:69-73 | a chosen destination opens `/tours/<destination>`, otherwise `/tours`; the query is appended only when there is one |
| HeroSection.QuickDestination | src/components/home/HeroNew.tsx:200-209 | the three shortcuts pick their category; "Beach" (and anything else) clears the destination |
| HeroSection.QuickSearchesAreOptions | src/components/home/HeroNew.tsx:200-209 | every shortcut but "Beach" picks the value of one of the fallback options |
| HeroSection.Hero.constructor | src/components/home/HeroNew.tsx:7-14 | the initial form (one guest), no options, not searching |
| HeroSection.Hero.FetchDestinations | src/components/home/HeroNew.tsx:17-43 | the options become `DestinationOptions(reply)` and nothing else changes |
| HeroSection.Hero.HandleInputChange | src/components/home/HeroNew.tsx:81-86 | only the named field of the form changes |
| HeroSection.Hero.QuickSearch | src/components/home/HeroNew.tsx:204-209 | only the destination changes, to the shortcut's category |
| HeroSection.Hero.HandleSearchSubmit | src/components/home/HeroNew.tsx:45-79 | the parameters built step by step are `QueryParams(form)`; exactly one navigation, to `SearchTarget(form)`; searching ends |
| TourGallerySection.TourImages | src/components/home/TourGallery.tsx:21-25 | at most the first two images of a tour (none when it has no list), each with id `<tour id>-<position>`, its source and the tour's title as alternative text |
| TourGallerySection.Flatten | src/components/home/TourGallery.tsx:20-26 | the `flatMap` gives at most two images per tour |
| TourGallerySection.FlattenAppend | src/components/home/TourGallery.tsx:20-26 | the images of two lists of tours are those of the first followed by those of the second |
| TourGallerySection.FlattenFrom | src/components/home/TourGallery.tsx:20-26 | every image is the first or second image of one of the tours, with that tour's id and title |
| TourGallerySection.Gallery | src/components/home/TourGallery.tsx:12-45 | at most nine images; a failed load shows the nine fixed images; a good load shows the first nine images (or all, when fewer) of the first nine tours, in order |
| TourGallerySection.GalleryFromFirstNine | src/components/home/TourGallery.tsx:18-27 | every image of a loaded gallery is one of the first two images of one of the first nine tours |
| SpecialTripsSection.Subtitle | src/components/home/SpecialTrips.tsx:20-22 | "Peak Adventure" for climbing, "Wildlife Safari" for safari, "Unique Experience" otherwise |
| SpecialTripsSection.SizeAt | src/components/home/SpecialTrips.tsx:24 | the first card is large, the second medium, every later one small |
| SpecialTripsSection.CoverImage | src/components/home/SpecialTrips.tsx:23 | the first image when there is a non-empty one, else the fallback |
| SpecialTripsSection.ToTrip | src/components/home/SpecialTrips.tsx:17-25 | the card keeps the tour's id and title and takes its subtitle, image and size from the rules above |
| SpecialTripsSection.Trips | src/components/home/SpecialTrips.tsx:12-36 | at most six cards, one per tour of the first six in order; a failed load leaves no cards |
| PopularLocationsSection.Locations | src/components/home/PopularLocations.tsx:12-55 | a good load keeps the first four destinations (all, when fewer) in order; a failed load shows the four fixed ones |
| PopularLocationsSection.ToCard | src/components/home/PopularLocations.tsx:77-83 | the card is keyed by the slug, is featured exactly for the first two positions, and shows "Destination" when the category is missing or empty |
| PopularLocationsSection.Cards | src/components/home/PopularLocations.tsx:69-87 | no cards while loading; afterwards one card per destination, in order |
| BreadcrumbsComponent.Segments | src/components/common/Breadcrumbs.tsx:16 | every segment is non-empty and holds no `/` |
| BreadcrumbsComponent.Capitalize | src/components/common/Breadcrumbs.tsx:25 | same length; the first character is upper-cased and the rest kept |
| BreadcrumbsComponent.CapitalizeAll | src/components/common/Breadcrumbs.tsx:25 | every word capitalised, in order |
| BreadcrumbsComponent.LabelFrom | src/components/common/Breadcrumbs.tsx:23-26 | same length as the segment; every `-` becomes a space and every other character is kept or upper-cased |
| BreadcrumbsComponent.Label | src/components/common/Breadcrumbs.tsx:23-26 | same length as the segment, every `-` becomes a space, and a segment starting with a letter starts its label in upper case |
| BreadcrumbsComponent.LabelFromWords | src/components/common/Breadcrumbs.tsx:23-26 | splitting on `-`, capitalising each word and joining with spaces equals the character-by-character label |
| BreadcrumbsComponent.WordsLabelIsLabel | src/components/common/Breadcrumbs.tsx:23-26 | the component's label of a segment is its character-by-character label |
| BreadcrumbsComponent.PathUpTo | src/components/common/Breadcrumbs.tsx:19-21 | the accumulated path is empty exactly before the first segment |
| BreadcrumbsComponent.PathUpToJoin | src/components/common/Breadcrumbs.tsx:19-21 | the path of the n-th crumb is `/` followed by the first n segments joined by `/` |
| BreadcrumbsComponent.PathsNested | src/components/common/Breadcrumbs.tsx:19-21 | each crumb's path is a prefix of every later crumb's path |
| BreadcrumbsComponent.TrailOf | src/components/common/Breadcrumbs.tsx:19-33 | one crumb per segment, labelled with its segment and linked to the path up to it |
| BreadcrumbsComponent.Trail | src/components/common/Breadcrumbs.tsx:16-33 | one crumb per non-empty segment of the path, each linking to a non-empty path and labelled as long as its segment |
| BreadcrumbsComponent.GenerateBreadcrumbs | src/components/common/Breadcrumbs.tsx:15-36 | the loop produces exactly the trail: one crumb per segment, in order |
| BreadcrumbsComponent.OnlySlashesNoCrumbs | src/components/common/Breadcrumbs.tsx:16 | a path made only of slashes, the home page included, has no crumbs |
| BreadcrumbsComponent.SplitOnlySeparators | src/components/common/Breadcrumbs.tsx:16 | splitting a string of separators gives only empty pieces |
| ResetPasswordForm.ResetPassword.constructor | src/components/auth/ResetPassword.tsx:8-12 | empty fields, not loading, no error and no message |
| ResetPasswordForm.ResetPassword.HandleSubmit | src/components/auth/ResetPassword.tsx:14-31 | a mismatch sets "Passwords do not match" and makes no call; otherwise one update with the password, then its error or the success message with the move to `/login` scheduled, and loading cleared |
| ResetPasswordForm.ResetPassword.TimerFires | src/components/auth/ResetPassword.tsx:28 | the scheduled navigation happens once and nothing else changes |
| ResetPasswordForm.SuccessLeadsToLogin | src/components/auth/ResetPassword.tsx:18-29 | matching passwords and a successful update end on `/login` with the success message |
| ForgotPasswordForm.RedirectFor | src/components/auth/ForgotPassword.tsx:16 | the link target is the page's origin followed by `/reset-password` |
| ForgotPasswordForm.ForgotPassword.constructor | src/components/auth/ForgotPassword.tsx:6-9 | empty address, not loading, no message, no error |
| ForgotPasswordForm.ForgotPassword.HandleSubmit | src/components/auth/ForgotPassword.tsx:11-24 | one request with the address and the reset link; then the call's error or the "check your email" message, and loading cleared |
| LoginHook.Login.constructor | src/hooks/useLogin.ts:11-14 | not loading and no error |
| LoginHook.Login.HandleLogin | src/hooks/useLogin.ts:16-47 | navigation to the target happens exactly when sign-in succeeds and, for administrators, the check says yes, and the error is empty exactly then; a sign-in error shows its message; a refused administrator is signed out; anything thrown shows the generic message; the calls made are listed in order |
| FetchDataHook.AsError | src/hooks/useFetchData.ts:27 | an `Error` is kept as it is, anything else becomes "An error occurred" |
| FetchDataHook.FetchData.constructor | src/hooks/useFetchData.ts:15-17 | no data, loading, no error |
| FetchDataHook.FetchData.Run | src/hooks/useFetchData.ts:20-31 | a resolved run stores its value and clears the error; a rejected one keeps the old data and stores the error; loading ends cleared |
| FetchDataHook.FetchData.Render | src/hooks/useFetchData.ts:19-34 | the effect runs again exactly when the dependency list differs |
| FetchDataHook.StaleDataKept | src/hooks/useFetchData.ts:20-31 | after a success and then a failure the hook shows the old data and the new error |
| Slug.CollapseRuns | src/pages/admin/TourForm.tsx:103 | the result uses only `a`-`z`, `0`-`9` and `-`, has no `--`, is empty only for an empty input, and keeps a leading slug character |
| Slug.DropSeparators | src/pages/admin/TourForm.tsx:102 | skipping the rest of a separator run leaves nothing or a slug character first, and never lengthens |
| Slug.StripEdgeHyphens | src/pages/admin/TourForm.tsx:102 | `replace(/(^-\|-$)/g, '')`: at most one character cut at each end, what remains is a piece of the input, and an input with no edge hyphen is kept |
| Slug.Slugify | src/pages/admin/BlogForm.tsx:116-118 | every derived slug uses only `a`-`z`, `0`-`9` and `-`, neither starts nor ends with `-`, has no `--`, and is no longer than the title |
| Slug.SlugifyKeepsLetters | src/pages/admin/TravelInfoForm.tsx:148-150 | the slug holds the letters and digits of the lower-cased title, all of them and in order; every other character of the slug is a `-` |
| Slug.CollapseKeepsLetters | src/pages/admin/TourForm.tsx:102 | replacing runs of other characters by `-` keeps the letters and digits, in order |
| Slug.SlugPreview | src/pages/admin/BlogForm.tsx:204-208 | the slug line is shown exactly while the title is non-empty, and shows the slug of the title |
| Slug.SlugifyKeepsSlug | src/pages/admin/TourForm.tsx:103 | a slug is its own slug |
| Slug.SlugifyIdempotent | src/pages/admin/BlogForm.tsx:116-118 | deriving a slug twice gives the slug of deriving it once |
| Slug.SlugifyExample | src/pages/admin/BlogForm.tsx:116-118 | "Go Now!" gives "go-now" |
| Slug.KilimanjaroSlugIsFixed | src/pages/admin/TourForm.tsx:102 | the stored slug "mount-kilimanjaro-trek" is its own slug |
| Rows.DropId | src/pages/admin/TourManagement.tsx:49 | exactly the rows with another id are kept, in order; a list without the id is unchanged |
| Rows.PatchId | src/pages/admin/TourManagement.tsx:63-65 | same length; the rows with the id are patched and the others kept |
| Rows.PatchIdUndone | src/pages/admin/TourManagement.tsx:58-70 | a patch followed by its undoing gives the list back |
| FormValues.Lookup | src/pages/admin/TourForm.tsx:77-81 | no value exactly when the record has no such key; otherwise a value the record gives the key |
| FormValues.Overlay | src/pages/admin/TourForm.tsx:77-81 | skipped keys keep their form values; every other key of the record takes the record's value; keys the record lacks are untouched |
| FormValues.Form.constructor | src/pages/admin/TourForm.tsx:12-16 | the form starts with its defaults |
| FormValues.Form.Populate | src/pages/admin/TourForm.tsx:77-81 | the loop leaves the form as the overlay of the record on the old values |
| Remote.MessageOr | src/pages/admin/DestinationForm.tsx:105 | the error's message when it is non-empty, else the fallback |
| Remote.RowsOr | src/pages/admin/TourForm.tsx:83 | the list when there is one, else the empty list |
| Seqs.Filter | src/lib/filterUtils.ts:6 | exactly the elements that pass, in their original order; how many copies survive is stated by `Seqs.FilterMultiset` |
| Seqs.FilterMultiset | src/lib/filterUtils.ts:6 | a filter keeps every element that passes exactly as many times as it occurs, and no other element |
| Seqs.FilterAppend | src/lib/filterUtils.ts:6 | filtering a list with an element added at the end is filtering the list, then that element |
| Seqs.FilterCountsPassing | src/pages/admin/Dashboard.tsx:100-102 | the length of a filtered list is the number of positions whose element passes |
| Seqs.FilterFilter | src/lib/filterUtils.ts:28-29 | two filters in a row are one filter by the conjunction of the tests |
| Seqs.MapWhere | src/pages/admin/TourManagement.tsx:63-65 | same length; picked elements rewritten, the others kept |
| Seqs.Find | src/pages/admin/TourForm.tsx:69 | nothing exactly when no element passes; otherwise the first element that passes |
| Seqs.Take | src/components/home/PopularLocations.tsx:16 | a prefix of length `min(n, length)` |
| Seqs.Distinct | src/components/home/HeroNew.tsx:23 | each element of the input exactly once, in the order of first occurrence |
| Text.Lower | src/lib/filterUtils.ts:15-18 | same length, each ASCII capital lowered |
| Text.ContainsAt | src/lib/filterUtils.ts:19 | `includes` holds exactly when the needle occurs at some position |
| Options.OrEmpty | src/lib/filterUtils.ts:18 | `value \|\| ''` on an optional string: the value when there is one, `""` otherwise |
| Options.OrString | src/lib/filterUtils.ts:17 | `a \|\| b` on strings: `a` unless it is empty, then `b` |
| Text.Split | src/components/common/Breadcrumbs.tsx:16 | at least one piece, none holding the separator |
| Text.JoinSplit | src/pages/admin/DestinationForm.tsx:313 | joining the pieces of a split gives the string back |
| Text.SplitJoin | src/pages/admin/DestinationForm.tsx:83 | splitting a join of separator-free pieces gives the pieces back |

## Left out

- Rendering, styling and the React render cycle are not modelled.
  The model keeps the state each screen holds and the guards that
  decide what is drawn.
- Calls to the hosted backend are not modelled. Each call's answer,
  `window.confirm`, `window.location.origin` and the timers are
  parameters or events of the methods that use them.
- Console logging is not modelled. Each `alert` is recorded as its
  message, in order.
- Concurrency is not modelled. Each awaited call settles before the
  next event, so two overlapping loads never interleave.
- Upper- and lower-casing cover ASCII letters only.
- String lengths are counted in characters, not in UTF-16 code units.
- The browser encodes search parameters with `URLSearchParams`; the
  model builds the query from the raw values, without percent-encoding.
- The last breadcrumb's label goes through `decodeURIComponent`; the
  model keeps that label as it is. `BreadcrumbsComponent.GenerateBreadcrumbs`
  is weaker than the source here.
- Prices, durations, ratings and revenue are integers. `Number(...)`,
  `parseFloat` and floating-point sums are not modelled.
- The `url` and `email` checks of the validation library are
  parameters. The library's own default messages are `None`.
- The dashboard's outer `catch` ("An unexpected error occurred") cannot
  be reached in the model, because every call's answer is a value.
- `FeaturedTripsSliderSection.Slider.Next` and
  `FeaturedTripsSliderSection.Slider.Prev` require loaded slides. The
  source only shows the buttons when there are slides, and the modulo
  of an empty list is not a number.
- `TourFormPage.TourForm.UpdateItineraryDay` requires an index inside
  the itinerary. The source only calls it from a day it is showing.
- `removeItineraryDay` renumbers the surviving day objects in place, so
  an aliased day would change. The model renumbers copies.
- `ResetPasswordForm.ResetPassword.HandleSubmit` does not model an update
  call that throws. The source would then leave loading set.
- The activities text area of the tour form (splitting on new lines
  while typing) is input glue and is not modelled.
- The travel-information form's local schema is field for field the same
  as the shared one, so the model defines it once in `ValidationSchemas`.
- The travel-information screen's `getCategoryColor` is a styling lookup
  and is not modelled.
- The blog screen's `formatDate` depends on the browser's locale and
  clock, so the model keeps the stored date string as it is.
- The application's other pages and components are not part of this
  model: routing, the settings page, the static home sections, cards,
  animation and parallax hooks, lazy images and the newsletter form.
