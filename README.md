# Tool catalogue: a verified model

The system is a web catalogue of downloadable tools. Visitors browse the
tools, search and filter them by tag, and open a tool's page. A signed-in
user can record a download and leave one review per tool, rated 1 to 5.
An administrator creates, edits and deletes tools and their download
buttons, and sees totals over the whole catalogue.

Behind it is an Express server that talks to a Postgres datastore through
Supabase. The Dafny project models these parts:

- **Schema**: the tables and the validation rules of the insert schemas
  (`Schema`, `schema.dfy`).
- **Guards**: the bearer-token check and the admin check in front of
  protected routes (`Auth`, `auth.dfy`).
- **Routes**: every REST handler, over an in-memory datastore (`Routes`,
  `store.dfy`). The datastore is a class `Store` with one `seq` per table.
  The datastore's constraints are the invariant `Valid`: primary keys,
  unique slug, username and e-mail, one review per user and tool, and
  foreign keys whose delete cascades. `Valid` also keeps every rating
  from 1 to 5. The `reviews` table has no such constraint (its `rating`
  is only `integer not null`); the range holds because the only write to
  that table, the review route, first passes the review schema.
- **Request log and error handler**: the logging middleware and the final
  error handler of the bundled server (`RequestLog`, `request_log.dfy`).
- **Admin form**: the tool editor of the admin page (`AdminForm`,
  `admin_form.dfy`).
- **Catalogue page**: the tag bar, the search-and-tag filter and the
  listing (`Catalogue`, `catalogue.dfy`).
- **Tool card**: what a catalogue card shows for one tool (`ToolCard`,
  `tool_card.dfy`).
- **Tool detail page**: the popups shown once per session, the download
  and review guards, and the gallery (`ToolDetail`, `tool_detail.dfy`).

Helper modules:

- `Wrappers`: Option and Result.
- `Text`: white space, trimming, ASCII lower case, substring search,
  decimal rendering and JavaScript's default string order.
- `Sorting`: the newest-first order the datastore applies.
- `Lists`: order-preserving filtering.
- `Tables`: row selection by tool, distinctness and key lookup.

## How the model departs from the source

Inputs that the code cannot see are parameters:

- URL and e-mail syntax (`isUrl`, `isEmail`);
- the identity provider that resolves a token (`provider`);
- the current time (`now`);
- `JSON.stringify` (`stringify`);
- whether the slug query fails for a reason other than a missing row
  (`queryFails`).

Other departures:

- Identifiers are natural numbers handed out by a counter (`nextId`),
  where the source uses `gen_random_uuid()`.
- Page state is a class whose fields are the page's `useState` values.
  Session storage is a `map`. The URLs passed to `window.open` are
  recorded in `tabs`, and the shown toasts in `toasts`.

## Model

| member | source | states |
|---|---|---|
| Schema.ParseTool | shared/schema.ts:69-80 | a tool payload is accepted exactly when title and slug are non-empty, the short description has at least 10 and the description at least 20 characters, and every image is a URL; a rejection carries at least one issue; on acceptance images and tags default to empty lists and the other fields pass through |
| Schema.ImageIssues | shared/schema.ts:78 | no image issue is reported exactly when every image from the position on is a URL; every image issue names the images field and a position |
| Schema.ImageIssuesAreAboutImages | shared/schema.ts:78 | an issue among the image issues is about the images field |
| Schema.TitleIssueIff | shared/schema.ts:74 | the title issue is reported exactly when the title is empty |
| Schema.SlugIssueIff | shared/schema.ts:75 | the slug issue is reported exactly when the slug is empty |
| Schema.ShortDescIssueIff | shared/schema.ts:76 | the short-description issue is reported exactly when it has fewer than 10 characters |
| Schema.DescriptionIssueIff | shared/schema.ts:77 | the description issue is reported exactly when it has fewer than 20 characters |
| Schema.ParseReview | shared/schema.ts:94-100 | a review is accepted exactly when its rating is an integer from 1 to 5 and its text has at least 10 characters; the accepted rating equals the sent number |
| Schema.ParseUser | shared/schema.ts:61-67 | a user is accepted exactly when the username has at least 3 characters and the e-mail is valid; the admin flag defaults to false |
| Schema.ParseDownloadButton | shared/schema.ts:82-87 | a button is accepted exactly when its label is non-empty and its URL valid; the order defaults to 0 |
| Auth.BearerToken | server/lib/supabase.ts:49-54 | a token exists exactly when the header is present and starts with `Bearer `; the header is the prefix followed by the token |
| Auth.BearerTokenRoundTrip | server/lib/supabase.ts:50-54 | the header built from a token gives that token back |
| Auth.ValidateAuthToken | server/lib/supabase.ts:19-31 | succeeds exactly for a non-empty token the provider resolves, with that user; otherwise fails with "No token provided" or "Invalid or expired token" |
| Auth.IsUserAdmin | server/lib/supabase.ts:34-43 | true exactly for a row whose flag is true; an error or a missing row counts as not an admin |
| Auth.AuthDecision | server/lib/supabase.ts:72-88 | every rejection is a 401, and a missing or malformed header is "Unauthorized"; the request continues exactly when the bearer token is non-empty and resolves, with the resolved user attached |
| Auth.AdminDecision | server/lib/supabase.ts:46-69 | an authentication rejection is passed through; the request continues exactly when it is authenticated and the user is an admin; a 403 is "Forbidden" and only follows a passed authentication |
| Auth.EmptyTokenRejected | server/lib/supabase.ts:20-22 | the header `Bearer ` alone is refused by both guards with 401 "No token provided" |
| Auth.RejectedTokenRejected | server/lib/supabase.ts:26-28 | a token the provider does not accept is refused by both guards with 401 "Invalid or expired token" |
| Auth.Exchange.RequireAuth | server/lib/supabase.ts:72-88 | `next` is called exactly when the decision continues, and then the user is attached; otherwise the status is 401 with the decision's message and no user is attached |
| Auth.Exchange.RequireAdmin | server/lib/supabase.ts:46-69 | `next` is called exactly when the admin decision continues; otherwise the status and message are the decision's and no user is attached |
| Auth.ClientAuthToken | client/src/lib/supabase.ts:18-21 | the session's access token, or nothing when the session is missing or its token empty |
| Auth.ClientIsUserAdmin | client/src/lib/supabase.ts:24-36 | false without a session; otherwise it agrees with the server-side admin check on the same lookup |
| Sorting.InsertDescSorted | server/routes.ts:19 | inserting into a newest-first list keeps it newest first |
| Sorting.SortDesc | server/routes.ts:19 | the result is newest first and a permutation of the input |
| Sorting.Take | server/routes.ts:65 | the first `n` entries, or all when there are fewer |
| Routes.SumBounds | server/routes.ts:36-38 | the sum of ratings from 1 to 5 lies between the count and five times the count |
| Routes.AverageInRange | server/routes.ts:36-38 | a non-empty list of ratings from 1 to 5 averages from 1 to 5 |
| Routes.AssembleStats | server/routes.ts:24-47 | the tool is served with its buttons and all three stats present; the download count is the counted rows, or 0 when the count is missing; the review count is the number of ratings fetched and the average is their mean; with no ratings fetched both are 0; with valid ratings and some reviews the average lies between 1 and 5 |
| Routes.TakeNewest | server/routes.ts:62-65 | every tool left out of the first `n` newest is no newer than every tool served |
| Routes.UsernameOf | server/routes.ts:150-153 | a username is found exactly when a user with that id exists, and it is that user's |
| Routes.UserLookup | server/lib/supabase.ts:35-41 | the lookup never errors on the in-memory table, and it finds no row exactly when no user has the id |
| Routes.UserLookupRow | server/lib/supabase.ts:35-42 | the flag the lookup answers is the flag of the user with that id |
| Routes.MakeButtons | server/routes.ts:326-333 | one row per sent button, each under the tool, with consecutive fresh ids |
| Routes.ConsistentRatings | shared/schema.ts:98 | in a consistent datastore, where every stored review passed the review schema, every rating, and every rating of one tool, is from 1 to 5 |
| Routes.DeleteKeepsConsistent | shared/schema.ts:31-58 | removing a tool together with its buttons, downloads and reviews leaves the datastore consistent |
| Routes.ReplaceButtons | server/routes.ts:367-387 | after replacing tool `id`'s buttons, `id` has exactly the new buttons and every other tool keeps its own |
| Routes.DeleteLeavesNoRows | shared/schema.ts:33 | after the cascading delete no tool, button, download or review refers to the deleted id |
| Routes.UpdateRowKeepsConsistent | shared/schema.ts:16-28 | rewriting one tool with the same id and a slug no other tool has keeps the datastore consistent |
| Routes.Store.constructor | shared/schema.ts:7-58 | an empty catalogue over distinct users is consistent |
| Routes.Store.ToolStats | server/routes.ts:24-47 | the tool with exactly its own buttons; its download count is the number of its download rows, its review count the number of its reviews and its average the mean of their ratings; in a consistent datastore a tool with reviews averages from 1 to 5 |
| Routes.Store.ConsistentRatingsIfValid | shared/schema.ts:98 | in a consistent store, where every review passed the review schema, the ratings of any tool are from 1 to 5 |
| Routes.Store.WithStatsAll | server/routes.ts:24-47 | every tool of the list, in order, with its stats |
| Routes.Store.ListTools | server/routes.ts:11-53 | 200 with every tool exactly once (as a multiset), newest first, each with its current stats |
| Routes.Store.FeaturedTools | server/routes.ts:56-98 | 200 with the six newest tools (all when fewer), newest first, with stats; every tool left out is no newer than any served one |
| Routes.Store.FindSlug | server/routes.ts:105-111 | the position of the first tool with the slug, or the table length exactly when there is none |
| Routes.Store.ToolBySlug | server/routes.ts:101-141 | as written: a failing query gives 500; no tool with the slug also gives 500, because `.single()` reports the missing row as an error that the handler throws; the 404 is never answered; otherwise 200 with the stored tool of that slug and its stats |
| Routes.Store.ToolBySlugMaybeSingle | server/routes.ts:114-115 | corrected: a failing query gives 500; 404 "Tool not found" exactly when no tool has the slug; otherwise 200 with the stored tool of that slug and its stats |
| Routes.SlugRouteDeadBranch | server/routes.ts:111-115 | on an empty catalogue the route as written answers 500 where the corrected route answers 404 |
| Routes.Store.ReviewsForTool | server/routes.ts:144-163 | 200 with exactly the tool's reviews (as a multiset), newest first, each joined with its author's username |
| Routes.Store.JoinUsernames | server/routes.ts:150-153 | each review, in order, paired with its author's username |
| Routes.Store.TrackDownload | server/routes.ts:168-187 | 401 with the guard's message when not authenticated; 500 and no change for an unknown tool or user; otherwise 201 and exactly one new download row for that user, tool and label; the store stays consistent |
| Routes.Store.SubmitReview | server/routes.ts:190-213 | 401 when not authenticated; 400 with the issues for an invalid review; 400 "You have already reviewed this tool" for a second review of the same tool; 400 for an unknown tool or user; 201 exactly when the caller is authenticated, the review is valid, the caller has not reviewed that tool and tool and caller are stored; the review is stored under the caller's own id with an integer rating from 1 to 5; no change unless 201 |
| Routes.Store.AdminTestLogin | server/routes.ts:218-229 | the admin guard's rejection, or 200 with the admin's e-mail |
| Routes.Store.AdminListTools | server/routes.ts:232-273 | the admin guard's rejection, or 200 with the same newest-first list, with stats, as the public route |
| Routes.Store.AdminStatistics | server/routes.ts:276-307 | the admin guard's rejection, or 200 with the row counts of tools, downloads and reviews and the mean of all ratings, which is 0 without reviews and from 1 to 5 otherwise |
| Routes.Store.InsertTool | server/routes.ts:317-324 | appends one tool with a fresh id, both timestamps `now`, and null for an omitted URL; the store stays consistent |
| Routes.Store.InsertButtons | server/routes.ts:335-339 | appends exactly the button rows of the payload under an existing tool; the store stays consistent |
| Routes.Store.DeleteButtonsOf | server/routes.ts:368-371 | removes exactly the buttons of the tool; the store stays consistent |
| Routes.Store.UpdateToolRow | server/routes.ts:358-365 | rewrites only that tool: it keeps its id and creation time, an omitted URL keeps its value and `null` clears it |
| Routes.Store.DeleteToolCascade | server/routes.ts:399-402 | removes the tool and, by the cascading foreign keys, its buttons, downloads and reviews; nothing else changes |
| Routes.Store.FindTool | server/routes.ts:361-363 | the position of the tool with the id, or the table length exactly when there is none |
| Routes.Store.SlugTakenByOther | shared/schema.ts:19 | true exactly when a tool other than the one at the position has the slug |
| Routes.Store.CreateTool | server/routes.ts:310-346 | the guard's rejection, with the guard's status and message, a 400 with the schema's issues, or a 400 unique violation for a slug already taken, leaves the store unchanged; 201 exactly for an admin, a valid payload and a free slug, with the tool appended and its buttons stored with `order` or 0 |
| Routes.Store.UpdateTool | server/routes.ts:349-393 | the guard's rejection, with its status and message; 400 with the issues for an invalid payload; 400 for an unknown id; 400 for a slug another tool already has; all of these before any write; 200 exactly when the caller is an admin, the payload is valid, the id is stored and no other tool has the slug; on 200 only that tool changes and its buttons are exactly the sent ones |
| Routes.Store.DeleteTool | server/routes.ts:396-411 | the guard's rejection, with its status and message, and no change, or 200 with the tool and every row that refers to it removed |
| RequestLog.Truncate | index.js:549-551 | a line over 80 characters becomes its first 79 characters and an ellipsis; a shorter one is kept; no result exceeds 80 |
| RequestLog.FullLine | index.js:545-548 | the line is the method, the path, the status and `in {duration}ms`, separated by single spaces; when the captured body is truthy it is followed by ` :: ` and the body's JSON and by nothing else, and otherwise nothing follows |
| RequestLog.LogLine | index.js:542-553 | a line is logged exactly for a path under `/api`; it has at most 80 characters, and it is the full line or the full line's first 79 characters and an ellipsis |
| RequestLog.HeadSurvivesTruncation | index.js:545-551 | when the method and path fit in 79 characters, the logged line starts with them |
| RequestLog.ResponseLog.constructor | index.js:533-537 | nothing is captured when the middleware starts |
| RequestLog.ResponseLog.Json | index.js:538-541 | the last body passed to `res.json` is the captured one |
| RequestLog.ResponseLog.Finish | index.js:542-554 | appends this request's line when one is logged, and nothing otherwise |
| RequestLog.ErrorStatus | index.js:560 | the error's `status`, else its `statusCode`, else 500, skipping missing or zero values; never 0 |
| RequestLog.ErrorMessage | index.js:561 | the error's message, or "Internal Server Error" when it is missing or empty |
| AdminForm.FilledIffNotBlank | client/src/pages/AdminPage.tsx:148-150 | a field counts as filled exactly when it has a character that is not white space |
| AdminForm.KeepFilled | client/src/pages/AdminPage.tsx:148-149 | only filled entries remain, no more than there were |
| AdminForm.KeepFilledButtons | client/src/pages/AdminPage.tsx:150 | only buttons with both label and URL filled remain |
| AdminForm.KeepFilledSpec | client/src/pages/AdminPage.tsx:148-150 | an entry is kept exactly when it is filled, and a button exactly when label and URL both are; the filter distributes over concatenation and applying it twice changes nothing |
| AdminForm.SubmittedButtons | client/src/pages/AdminPage.tsx:150-161 | the kept buttons, in order, with their label and URL and order 0, 1, 2, ... |
| AdminForm.SubmittedButtonsStoredInOrder | client/src/pages/AdminPage.tsx:161 | the server stores the submitted buttons with orders equal to their positions |
| AdminForm.NullIfEmpty | client/src/pages/AdminPage.tsx:159-160 | an empty URL is sent as `null`, any other as given |
| AdminForm.CollapseSpacesShape | client/src/pages/AdminPage.tsx:354 | replacing white-space runs leaves no white space and keeps lower-case text lower case; together with CollapseSpacesRun, which says what each run becomes, this fixes the transform |
| AdminForm.TrimStartBlank | client/src/pages/AdminPage.tsx:354 | a run of white space in front of a text that does not start with white space is removed entirely |
| AdminForm.CollapseSpacesRun | client/src/pages/AdminPage.tsx:354 | a word, one maximal run of white space of any length, and the rest become the word, a single `-`, and the transformed rest |
| AdminForm.CollapseSpacesNoSpace | client/src/pages/AdminPage.tsx:354 | a text without white space is left as it is |
| AdminForm.SlugTransformIdempotent | client/src/pages/AdminPage.tsx:354 | the slug transform yields lower-case text without white space, and applying it again changes nothing |
| AdminForm.RemoveAt | client/src/pages/AdminPage.tsx:172 | removes the entry at an index inside the list and nothing else; an index outside changes nothing |
| AdminForm.RemoveKeepsNonEmpty | client/src/pages/AdminPage.tsx:414 | removing from a list of more than one entry, the only case offered, leaves it non-empty |
| AdminForm.SetPart | client/src/pages/AdminPage.tsx:191-195 | only the chosen one of label and URL changes, and the order is kept |
| AdminForm.FormButtons | client/src/pages/AdminPage.tsx:86 | each stored button becomes a form row with the same label, URL and order |
| AdminForm.ToolForm.constructor | client/src/pages/AdminPage.tsx:36-46 | the whole form equals the blank form: blank fields, one blank row per list, no tool being edited, dialog closed |
| AdminForm.ToolForm.ResetForm | client/src/pages/AdminPage.tsx:61-72 | the whole form becomes the blank form (blank fields, one blank row in each list, no tool being edited), except that the dialog flag is untouched |
| AdminForm.ToolForm.OpenCreateModal | client/src/pages/AdminPage.tsx:211-214 | the whole form becomes the blank form with the dialog open |
| AdminForm.ToolForm.OpenEditModal | client/src/pages/AdminPage.tsx:74-90 | every field is set: the tool's fields, an empty list shown as one blank row, a missing URL as `''`; the tool is marked as edited and the dialog opens |
| AdminForm.ToolForm.OnSaved | client/src/pages/AdminPage.tsx:99-105 | after a save the whole form equals the blank form with the dialog closed |
| AdminForm.ToolForm.SetSlug | client/src/pages/AdminPage.tsx:354 | the slug becomes the transformed input, lower case and without white space; every other field is kept |
| AdminForm.ToolForm.AddImage | client/src/pages/AdminPage.tsx:171 | one blank image row is appended; every other field is kept |
| AdminForm.ToolForm.RemoveImage | client/src/pages/AdminPage.tsx:172 | the image at the index is removed; every other field is kept |
| AdminForm.ToolForm.UpdateImage | client/src/pages/AdminPage.tsx:173-177 | only the image at the index changes, to the value; every other field is kept |
| AdminForm.ToolForm.AddTag | client/src/pages/AdminPage.tsx:179 | one blank tag row is appended; every other field is kept |
| AdminForm.ToolForm.RemoveTag | client/src/pages/AdminPage.tsx:180 | the tag at the index is removed; every other field is kept |
| AdminForm.ToolForm.UpdateTag | client/src/pages/AdminPage.tsx:181-185 | only the tag at the index changes, to the value; every other field is kept |
| AdminForm.ToolForm.AddDownloadButton | client/src/pages/AdminPage.tsx:187-188 | one blank button row is appended whose order is the old length; every other field is kept |
| AdminForm.ToolForm.RemoveDownloadButton | client/src/pages/AdminPage.tsx:189-190 | the button at the index is removed; every other field is kept |
| AdminForm.ToolForm.UpdateDownloadButton | client/src/pages/AdminPage.tsx:191-195 | only that row's label or URL changes; every other field is kept |
| AdminForm.ToolForm.Payload | client/src/pages/AdminPage.tsx:147-162 | the payload carries the text fields as typed, the filled images and tags, `null` for empty URLs, and the kept buttons renumbered |
| AdminForm.ToolForm.Submit | client/src/pages/AdminPage.tsx:164-168 | an update of the edited tool exactly when a tool is being edited, a create otherwise, with the form's payload |
| Catalogue.TagsOfMembers | client/src/pages/ToolsPage.tsx:20 | a tag is in the flattened list exactly when some tool carries it |
| Catalogue.StrictlySortedDistinct | client/src/pages/ToolsPage.tsx:19-21 | a strictly ascending tag list has no duplicate |
| Catalogue.InsertUniqueMembers | client/src/pages/ToolsPage.tsx:19-21 | after insertion the list holds the old entries and the new one, nothing else |
| Catalogue.InsertUniqueSorted | client/src/pages/ToolsPage.tsx:19-21 | insertion keeps the list strictly ascending |
| Catalogue.SortUniqueSpec | client/src/pages/ToolsPage.tsx:19-21 | the result is strictly ascending and holds exactly the input's entries |
| Catalogue.AllTagsSpec | client/src/pages/ToolsPage.tsx:19-21 | the tag bar is strictly ascending, so free of duplicates, and holds a tag exactly when the tools are loaded and some tool carries it |
| Catalogue.FilteredTools | client/src/pages/ToolsPage.tsx:24-34 | every shown tool matches the search and the tag, and no more tools are shown than listed |
| Catalogue.FilteredToolsSpec | client/src/pages/ToolsPage.tsx:24-34 | a tool is shown exactly when it is listed and matches both filters; the filter keeps list order |
| Catalogue.EmptyFilterShowsAll | client/src/pages/ToolsPage.tsx:26-31 | an empty search and no tag show every tool, in order |
| Catalogue.TagNarrowsSearch | client/src/pages/ToolsPage.tsx:31-33 | with a tag selected the result is the tag-less search result filtered by the tag |
| Catalogue.TagNeverAdds | client/src/pages/ToolsPage.tsx:31-33 | a tool shown with a tag selected is also shown without it |
| Catalogue.SearchIgnoresCase | client/src/pages/ToolsPage.tsx:27-29 | lower-casing the search term changes nothing |
| Catalogue.CountCaption | client/src/pages/ToolsPage.tsx:109 | "Showing 1 tool" for one tool; otherwise "Showing", the count in decimal and "tools" |
| Catalogue.CountCaptionInjective | client/src/pages/ToolsPage.tsx:109 | different counts give different captions |
| Catalogue.ToolsListing | client/src/pages/ToolsPage.tsx:100-126 | the skeleton exactly while loading; the grid exactly when some loaded tool matches, showing the filtered tools with their count; "No tools found" otherwise, including when loading failed |
| ToolCard.PrimaryImage | src/components/ToolCard.tsx:12 | the first image when present and non-empty, otherwise the placeholder; never empty |
| ToolCard.Stats | src/components/ToolCard.tsx:13-15 | each shown stat is the tool's value, or 0 when missing |
| ToolCard.ServedRatingInRange | src/components/ToolCard.tsx:39 | for a tool as the server assembles it, no rating is drawn without reviews, and a drawn rating lies from 1 to 5 when the stored ratings do |
| ToolCard.ShownTags | src/components/ToolCard.tsx:62 | at most the first three tags, in order |
| ToolCard.HiddenTagCount | src/components/ToolCard.tsx:69 | the number of tags not drawn |
| ToolCard.OverflowBadge | src/components/ToolCard.tsx:67-71 | a `+n` badge exactly when there are more than three tags, with `n` the number left out |
| ToolCard.TagsAccounted | src/components/ToolCard.tsx:60-71 | the drawn tags followed by the rest are all the tags; the badge appears exactly when some tag is hidden |
| ToolCard.Href | src/components/ToolCard.tsx:18 | the link is `/tool/` followed by the slug |
| ToolCard.HrefInjective | src/components/ToolCard.tsx:18 | two cards with the same link have the same slug |
| ToolDetail.DonateKey | src/pages/ToolDetailPage.tsx:121 | the donate key starts with `donate-shown-` |
| ToolDetail.TelegramKey | src/pages/ToolDetailPage.tsx:140 | the Telegram key starts with `telegram-shown-` |
| ToolDetail.KeysIndependent | src/pages/ToolDetailPage.tsx:45-46 | each tool has its own keys, and no donate key is a Telegram key |
| ToolDetail.GalleryImages | src/pages/ToolDetailPage.tsx:211 | the tool's images, or the placeholder alone when there are none; never empty |
| ToolDetail.DetailPage.constructor | src/pages/ToolDetailPage.tsx:24-30 | the first image selected, five stars, empty review text, no popup flags |
| ToolDetail.DetailPage.ToolLoaded | src/pages/ToolDetailPage.tsx:43-55 | the tool is stored; each "already shown" flag is raised when session storage holds its key and is never lowered; every other field is kept |
| ToolDetail.DetailPage.DonateClick | src/pages/ToolDetailPage.tsx:117-134 | without a tool nothing changes; on the first click of the session the key is stored, the flags are raised and the popup opens, and nothing else changes; later clicks only open the donation URL when there is one; the key is stored afterwards |
| ToolDetail.DetailPage.TelegramClick | src/pages/ToolDetailPage.tsx:136-153 | the same rule with the Telegram key, flags and URL; every other field, the donate state included, is kept |
| ToolDetail.DetailPage.ConfirmDonate | src/pages/ToolDetailPage.tsx:472-477 | opens the donation URL when there is one and closes the popup; every other field is kept |
| ToolDetail.DetailPage.ConfirmTelegram | src/pages/ToolDetailPage.tsx:502-507 | opens the Telegram URL when there is one and closes the popup; every other field is kept |
| ToolDetail.DetailPage.Download | src/pages/ToolDetailPage.tsx:98-115 | without a user only the login toast; without a tool nothing changes; otherwise only one download request for the tool, label and URL is added |
| ToolDetail.DetailPage.DownloadSucceeded | src/pages/ToolDetailPage.tsx:62-65 | the button's URL opens in a new tab; every other field is kept |
| ToolDetail.DetailPage.SetRating | src/pages/ToolDetailPage.tsx:370 | the rating becomes the chosen star; every other field is kept |
| ToolDetail.DetailPage.SetReviewText | src/pages/ToolDetailPage.tsx:390 | the review text becomes the input; every other field is kept |
| ToolDetail.DetailPage.SubmitReview | src/pages/ToolDetailPage.tsx:155-179 | without a user only the login toast; without a tool or with fewer than 10 characters only the invalid-review toast; otherwise only one review request with the rating and text is added; a request is sent exactly in that last case |
| ToolDetail.DetailPage.ReviewSucceeded | src/pages/ToolDetailPage.tsx:79-88 | the text is emptied, the rating returns to 5, and the success toast is shown; every other field is kept |
| ToolDetail.DetailPage.SelectImage | src/pages/ToolDetailPage.tsx:239 | the clicked thumbnail becomes the selected image and is the one drawn large; every other field is kept |
| ToolDetail.DetailPage.MainImage | src/pages/ToolDetailPage.tsx:227 | an image exactly when the selected index is inside the gallery, and then the gallery image at that index |
| ToolDetail.MountSync | src/pages/ToolDetailPage.tsx:43-55 | on a fresh page each flag is set exactly when session storage holds that popup's key |
| ToolDetail.DonateTwice | src/pages/ToolDetailPage.tsx:117-134 | in a fresh session the first donate click shows the popup and opens nothing; the second opens the donation URL |
| ToolDetail.DonateKeepsTelegramKeys | src/pages/ToolDetailPage.tsx:125 | storing a donate key leaves every Telegram key, and every other tool's donate key, as it was |

## Left out

- Routes.AssembleStats: the average is an exact rational number. The source divides floating-point numbers, and the client rounds the result with `toFixed` for display.
- Routes.Store.AdminStatistics: the same exact average. The counts use the in-memory tables; the source's `count || 0` is only visible when a count query fails, which is not modelled.
- Routes.Store.ToolBySlug: a failing query other than a missing row is the parameter `queryFails`; the missing row is modelled from the tables.
- Routes.Store.TrackDownload: the foreign-key failures are the only insert errors modelled. Other datastore failures (the catch giving 500) are left out; the same holds for every handler.
- Routes.Store.CreateTool: a failure of the button insert after the tool insert (the tool stays stored and the answer is 400) is not modelled; the button insert always succeeds on an existing tool.
- Routes.Store.UpdateTool: the same partial failure between deleting and inserting the buttons is not modelled. An unknown id answers 400, because `.single()` on the update reports an error.
- Routes.Store.CreateTool and Routes.Store.UpdateTool: the unique-slug rule is checked before the write. The source leaves it to the datastore, which refuses the same inputs.
- Routes.Store.SubmitReview: the duplicate-review check and the foreign-key checks on tool and user are made before the insert. The source lets the datastore refuse these inserts (code 23505 for the duplicate) and answers with the same statuses.
- JSON payloads whose fields have the wrong type (a string where a number is expected, say) are not modelled. Every payload is typed.
- Identifiers are natural numbers from a counter, not random UUIDs. The session-storage keys write them in decimal.
- Primary-key uniqueness of buttons, downloads and reviews is not part of `Valid`; only their foreign keys, the review pair and the ratings are.
- URL and e-mail syntax, the identity provider, the clock and `JSON.stringify` are parameters. Each handler's own `Date.now()` and ISO timestamps are the `now` and `start` inputs.
- Text.Lower and the search: case mapping is ASCII only. JavaScript's `toLowerCase` maps all of Unicode.
- Text.StrLess: compares code points. JavaScript's default `sort` compares UTF-16 code units, so the two can differ outside the Basic Multilingual Plane.
- RequestLog.Truncate: lengths count code points, where JavaScript counts UTF-16 code units.
- Schema.ParseTool, Schema.ParseReview, Schema.ParseUser and ToolDetail.DetailPage.SubmitReview: the minimum lengths count code points. Zod's `.min` and JavaScript's `.length` count UTF-16 code units, so a text with characters outside the Basic Multilingual Plane can pass here and fail there.
- RequestLog.LogLine: the line is what the middleware hands to `log`. `log` itself (index.js:461-468) adds a local time and `[express]` in front of it before printing, and that is not modelled.
- RequestLog: the error handler's `throw err` after answering, the JSON body parser, the static file server, the development server and `listen` are not modelled. So is the admin-startup code elsewhere in the bundle.
- The handlers' `Promise.all` over the tools is taken one tool after another. No concurrency is modelled.
- AdminForm.ToolForm.UpdateImage, UpdateTag and UpdateDownloadButton: an index past the end is excluded by a precondition. In JavaScript, writing past the end of an array copy would lengthen it, and the page's inputs only offer existing indices.
- AdminForm.ToolForm.UpdateDownloadButton: the source writes into the row object it shares with the old list (`newButtons[index][field] = value`). The model replaces the row with a new value, so aliasing is not captured.
- AdminForm: the redirect of non-admins to `/`, the delete confirmation, the statistics cards, the toasts and the query-cache invalidation are not modelled. The remove buttons appear only for lists of more than one row; that rule is the lemma RemoveKeepsNonEmpty rather than a precondition.
- ToolDetail: closing a popup by dismissing its dialog (`onOpenChange`, src/pages/ToolDetailPage.tsx:459 and 489) is not modelled; no DetailPage method lowers the show flags that way. Rendering, the loading screen, the review list, `window.open` (recorded as `tabs`), the error toasts of failed requests and query invalidation are not modelled. The user comes from the auth context as an input.
- ToolDetail.DetailPage.SetRating: only the star values 1 to 5 the page offers are allowed.
- ToolCard: `toLocaleString` and `toFixed(1)` formatting of the stats are not modelled.
- Catalogue: the search input and tag clicks are the parameters `term` and `selected`; rendering of the grid and the cards is not modelled.

## Findings

| source | as written | input that shows it | evidently intended | confidence | as-written member | corrected member |
|---|---|---|---|---|---|---|
| server/routes.ts:111-115 | the slug query ends in `.single()`, which reports zero rows as an error; `if (error) throw error` sends that to the 500 catch, so `if (!tool)` never runs | `GET /api/tools/x` on a catalogue with no tool of slug `x`: 500 instead of 404 "Tool not found" | a missing slug answers 404 "Tool not found", as with `.maybeSingle()` | not executed | Routes.Store.ToolBySlug, Routes.SlugRouteDeadBranch | Routes.Store.ToolBySlugMaybeSingle |
