# TaleemEdge front-end logic in Dafny

TaleemEdge is a Next.js learning portal with a student dashboard and an
admin area. Every page fetches JSON, keeps it in component state and renders
it. This project models the deterministic logic behind those pages and proves
what it guarantees:

- **Credential and session layer.** The HTTP client's interceptors attach the
  stored bearer token and perform the single 401 refresh-and-retry
  (`components/axiosInstance.ts`). The authentication provider restores,
  signs in and signs out a session in `localStorage`
  (`components/auth-provider.tsx`). The sign-in and registration forms
  validate input and store the session (`app/auth/*/page.tsx`).
- **Admin list management.** Mentors, books, blog posts, videos, workshops,
  scholarships and site settings each support:
  - required-field validation before any request;
  - add (appended or prepended), update by id and delete by id;
  - form reset to fixed defaults;
  - form serialisation, including `FormData` bodies.
- **Search, filter and sort** on the listing pages:
  - case-insensitive substring search with "All" sentinels;
  - first-occurrence distinct option lists;
  - the library's filter-then-sort pipeline.
- **Small decision functions:**
  - 12-hour time formatting;
  - text truncation;
  - the eligibility fallback;
  - the deadline round-trip;
  - button label and enablement chains;
  - status, priority and activity colour mappings;
  - query-parameter building.
- **Chatbot session bookkeeping:**
  - which session to restore;
  - the optimistic temporary message and its replacement by the server's pair;
  - clean-up after a failed send;
  - starting a new chat.

How the model is built:

- The browser is a `Browser.Window` object that holds `localStorage` as a
  `map<string, string>` and the location it was last sent to.
- Each network call becomes an input: a handler receives the server's
  outcome as a `Reply<T>` parameter (`Ok(data)` or `Err(status, message)`).
- Pages whose handlers change component state step by step are classes whose
  fields are that state. Their methods state the whole new state in terms of
  specification functions, and lemmas prove what those functions guarantee.
- Pure helpers (filters, mappings, formatting) are functions with lemmas.

Shared modules:

| module | contents |
|---|---|
| `Wrappers` | `Option`, `Reply`, and `OrElse` for JavaScript's logical-or fallback on strings |
| `Text` | ASCII `Lower`/`Upper`, `IsSubstring`, `Split`/`Join`, `Trim` over JavaScript's white space (the ECMAScript WhiteSpace and LineTerminator characters), integer ↔ decimal text with JavaScript `parseInt` (sign, `0x` prefix, `NaN`), UTF-16 code units as `length` and `substring` count them, and the code-point order `LexLe` |
| `Collections` | `Filter`, first-occurrence `Distinct`, `Flatten`, `Take`, `MapWhere`/`ReplaceWhere`, `FirstIndex`, and an insertion `SortBy` |
| `Search` | the generic case-insensitive `Matches(term, fields)` and the "All" sentinel |
| `Multipart` | `FormData` parts and `String(value)` |
| `Palette` | the colour tones the pages choose between |

## Model

| member | source | states |
|---|---|---|
| ApiClient.WithBearer | components/axiosInstance.ts:12-18 | With a non-empty stored `access_token`, `Authorization` becomes "Bearer " + token. Every other header is kept. Without a token the headers are returned as they are. |
| ApiClient.InterceptRequest | components/axiosInstance.ts:12-18 | The request's headers become `WithBearer` of the store and the old headers; `_retry` is untouched. |
| ApiClient.InterceptError | components/axiosInstance.ts:23-40 | The caller's outcome, store, location, headers, `_retry` flag, resent requests and refresh body equal the error-branch function `OnError` of the old state. |
| ApiClient.Send | components/axiosInstance.ts:12-40 | One request through both interceptors leaves exactly the trace `Run` describes. |
| ApiClient.FirstRequestCarriesToken | components/axiosInstance.ts:12-18 | Every call sends the request at least once. The first send carries the bearer token when one is stored, and the caller's headers unchanged otherwise. |
| ApiClient.SuccessPassesThrough | components/axiosInstance.ts:22 | A successful reply comes back unchanged. There is no store write, no navigation, no refresh and exactly one send. |
| ApiClient.RefreshOnlyOnFirst401 | components/axiosInstance.ts:26-30 | A refresh happens iff the first reply is a 401 and `_retry` was unset. It posts whatever `refresh_token` holds, including `null`, and leaves `_retry` set. |
| ApiClient.AtMostOneResend | components/axiosInstance.ts:26-33 | At most two requests go out. A second one implies `_retry` is set and a refresh was made. |
| ApiClient.RetriedNeverRefreshes | components/axiosInstance.ts:26-39 | A request already marked `_retry` is never refreshed. It is sent once, and its outcome, store and location pass through. |
| ApiClient.RefreshSuccess | components/axiosInstance.ts:30-33 | After a successful refresh, only `access_token` changes in the store, to the new token. The resent request carries that token, and the caller gets the resent request's outcome. |
| ApiClient.RefreshFailure | components/axiosInstance.ts:34-39 | A failed refresh empties the whole store and navigates to `/auth/login`. The caller gets the original 401 error. |
| ApiClient.OtherErrorsPassThrough | components/axiosInstance.ts:26-39 | A non-401 error, or a 401 on a retried request, is rejected unchanged, with no refresh and no change to the store or location. |
| AuthProvider.SignedIn | components/auth-provider.tsx:56-61 | Sign-in writes exactly `access_token`, `refresh_token` and `user_data`. Every other key keeps its value. |
| AuthProvider.SignedOut | components/auth-provider.tsx:86-91 | Sign-out removes exactly the three session keys. Every other key survives with its value. |
| AuthProvider.Restored | components/auth-provider.tsx:35-40 | A user is restored iff both `user_data` and `access_token` are stored and non-empty, and it is the saved profile. |
| AuthProvider.SignInThenRestore | components/auth-provider.tsx:35-61 | A signed-in session is restored on reload iff its access token is non-empty, and then it is the same user. |
| AuthProvider.SignOutThenRestore | components/auth-provider.tsx:35-91 | After sign-out nothing is restored. |
| AuthProvider.OAuthRestoredOnlyWithToken | components/auth-provider.tsx:35-83 | An OAuth sign-in survives a reload iff an access token from an earlier sign-in is still stored. |
| AuthProvider.Provider.constructor | components/auth-provider.tsx:30-31 | The user starts as null and `isLoading` as true. |
| AuthProvider.Provider.Restore | components/auth-provider.tsx:33-42 | The user becomes the restored profile when there is one, and is otherwise unchanged. `isLoading` becomes false in every case. |
| AuthProvider.Provider.Login | components/auth-provider.tsx:44-68 | Returns true iff the reply is OK and carries tokens. On success the store is `SignedIn` and the user is set. On failure the store and the user are unchanged. |
| AuthProvider.Provider.LoginWithOAuth | components/auth-provider.tsx:70-84 | Always returns true. It sets the mock user and writes only `user_data`. |
| AuthProvider.Provider.Logout | components/auth-provider.tsx:86-91 | The user becomes null and the store becomes `SignedOut` of the old store. |
| LoginPage.RedirectFor | app/auth/login/page.tsx:78-84 | `admin` goes to `/admin` and `student` to `/dashboard`, each iff; any other role causes no navigation. |
| LoginPage.Failure | app/auth/login/page.tsx:67-88 | An OK reply missing tokens or user gives "Invalid respone from server". A request error gives its message, or the fixed fallback. The result is never empty. |
| LoginPage.InputsDisabled | app/auth/login/page.tsx:153-171 | The inputs and the submit button are disabled while a request is in flight and whenever a success message is shown. They are enabled when idle with no success message. |
| LoginPage.Page.constructor | app/auth/login/page.tsx:18-23 | The form starts empty and idle, with no error and no success message. |
| LoginPage.Page.HandleSubmit | app/auth/login/page.tsx:46-92 | An accepted reply writes exactly the three session keys, sets the user and the success text (server message or "Login successful!"), and schedules `RedirectFor(role)`. Any other reply that the shared client passes through without its 401 branch stores nothing and sets the error. Loading ends false. Afterwards the inputs are disabled iff the reply was accepted. |
| LoginPage.AcceptedSessionRestores | app/auth/login/page.tsx:58-62 | An accepted sign-in is restored on reload iff its access token is non-empty. |
| SignupPage.Validate | app/auth/signup/page.tsx:61-71 | A password mismatch is reported first, even with empty fields. Otherwise any empty full name, email, password or school is reported. The form passes iff neither holds; the confirmation and role are never checked for emptiness. |
| SignupPage.WithRole | app/auth/signup/page.tsx:118-123 | `handleRoleChange` sets the role and changes no other field. |
| SignupPage.Failure | app/auth/signup/page.tsx:44-88 | The error text is the server's or the network error's message when non-empty, otherwise the fixed fallback. It is never empty. |
| SignupPage.Page.constructor | app/auth/signup/page.tsx:18-28 | The form starts empty with role "student", idle and without an error. |
| SignupPage.Page.HandleSubmit | app/auth/signup/page.tsx:56-92 | A failed check sets its error and sends nothing: the loading flag, store and redirect are unchanged. Otherwise a reply with tokens writes the three session keys and redirects to `/dashboard`. Every failure leaves the store untouched and sets its error. Loading ends false. |
| AdminMentorship.FilteredMentorsSpec | app/admin/mentorship/page.tsx:124-131 | The list shown is an order-preserving subsequence of the mentors. It holds exactly the mentors whose name, company or job title contains the term case-insensitively and whose status passes the "All"-or-equal filter. An empty term with "All" keeps every mentor. |
| AdminMentorship.ActiveMentorsAfterAdd | app/admin/mentorship/page.tsx:421 | The "Active Mentors" count (approved mentors) rises by one on an add exactly when the new mentor is approved. |
| AdminMentorship.StatusTone | app/admin/mentorship/page.tsx:326-337 | approved is green, rejected red and pending yellow, each iff. Gray is used iff the status is none of these. |
| AdminMentorship.PictureProblem | app/admin/mentorship/page.tsx:75-86 | A type not starting with "image/" is refused first. Otherwise a size over 5*1024*1024 is refused. The picture is accepted iff it is an image of at most 5 MB. |
| AdminMentorship.EditThenSaveSendsSameMentor | app/admin/mentorship/page.tsx:145-200 | Editing a mentor and saving unchanged sends its name, email and job title back. The experience is sent as text that `parseInt`s to the stored number, and a missing LinkedIn profile as "". |
| AdminMentorship.FormOf | app/admin/mentorship/page.tsx:187-200 | The edit form's experience text is non-empty and parseInts back to the mentor's years of experience. A missing LinkedIn profile becomes "". |
| AdminMentorship.ExperienceText | app/admin/mentorship/page.tsx:192 | The experience text the edit form gets from a fetched mentor is never empty, so the fallback to "0" never applies, and it parses back to the stored number. |
| AdminMentorship.EmptyExperienceSentAsZero | app/admin/mentorship/page.tsx:149-226 | An empty `years_of_experience` is sent as "0". |
| AdminMentorship.UpdateReplacesOnlyEdited | app/admin/mentorship/page.tsx:247-249 | With distinct ids, the update map replaces exactly the entry being edited and keeps the others in place. |
| AdminMentorship.UpdateWithoutEditingKeepsList | app/admin/mentorship/page.tsx:240-249 | With `editingMentor` null, the update map changes nothing. |
| AdminMentorship.DeleteRemovesOnlyThat | app/admin/mentorship/page.tsx:268 | With distinct ids, delete removes exactly that mentor and keeps the order of the rest. |
| AdminMentorship.Page.constructor | app/admin/mentorship/page.tsx:43-66 | The page starts with no mentors, an empty term, status "All", and a reset form. |
| AdminMentorship.Page.ResetForm | app/admin/mentorship/page.tsx:297-317 | Clears every field, the file, the preview, the adding flag, the editing id and the error. |
| AdminMentorship.Page.HandleFileSelect | app/admin/mentorship/page.tsx:71-95 | No file changes nothing. A refused file sets its error and keeps the selection. An accepted file becomes the selection. |
| AdminMentorship.Page.HandleAddMentor | app/admin/mentorship/page.tsx:133-179 | Missing name, email or job title sets the error and sends nothing, with no other change. Otherwise the twelve fields are sent, plus the picture when chosen. On success the mentor is appended and the form reset. On failure the list is kept and the error set. |
| AdminMentorship.Page.HandleEditMentor | app/admin/mentorship/page.tsx:181-214 | On success the form is filled from the mentor, the editing id is set and a non-empty picture URL becomes the preview. On failure only the error changes. The list is untouched. |
| AdminMentorship.Page.HandleUpdateMentor | app/admin/mentorship/page.tsx:216-256 | Sends the form with no field check. On success only the edited entry is replaced and the form reset. On failure the list and form are kept and the error set. |
| AdminMentorship.Page.HandleDeleteMentor | app/admin/mentorship/page.tsx:259-276 | A refused confirmation changes nothing. On success exactly the entries with that id are removed. On failure the list is kept and the error set. |
| AdminLibrary.FilteredBooksSpec | app/admin/library/page.tsx:90-97 | The list shown is an order-preserving subsequence. It holds exactly the books whose title, author or description contains the term case-insensitively and whose category passes the "All"-or-equal filter. An empty term with "All" keeps every book. |
| AdminLibrary.CategoryOptions | app/admin/library/page.tsx:256 | The options are "All" followed by every category label, in server order. |
| AdminLibrary.StatusTone | app/admin/library/page.tsx:243-254 | available is green and maintenance yellow, each iff. Archived and anything else are gray. |
| AdminLibrary.FormOf | app/admin/library/page.tsx:141-153 | The edit form never carries a chosen file. |
| AdminLibrary.EditThenSaveSendsSameBook | app/admin/library/page.tsx:103-153 | Editing a book and saving unchanged sends exactly the nine text fields in order. `pages` and `publish_year` go as text that `parseInt`s back to the stored numbers. |
| AdminLibrary.TextKeys | app/admin/library/page.tsx:104-112 | The text fields of a book body go out under the keys title, author, description, category, pages, publish_year, language, status and isbn, in that order. |
| AdminLibrary.WithFile | app/admin/library/page.tsx:234-241 | A chosen file goes into the named field and nothing else changes. With no file the form is unchanged. |
| AdminLibrary.UpdateReplacesOnlyEdited | app/admin/library/page.tsx:187 | With distinct ids, the update map replaces exactly the edited book. |
| AdminLibrary.DeleteRemovesOnlyThat | app/admin/library/page.tsx:200 | With distinct ids, delete removes exactly that book and keeps the order of the rest. |
| AdminLibrary.Page.constructor | app/admin/library/page.tsx:41-60 | The page starts with no books or categories, an empty term, category "All", and the default form. |
| AdminLibrary.Page.ResetForm | app/admin/library/page.tsx:209-225 | Restores the defaults: language "English", status "available", no files, not adding, not editing. |
| AdminLibrary.Page.HandleAddBook | app/admin/library/page.tsx:99-136 | A missing title or author sends nothing and changes nothing. Otherwise the nine fields are sent, plus each chosen file. On success the book is appended and the form reset. On failure nothing changes. |
| AdminLibrary.Page.HandleEditBook | app/admin/library/page.tsx:138-156 | An unknown id changes nothing. Otherwise the form is filled from the first book with that id and the editing id is set. |
| AdminLibrary.Page.HandleUpdateBook | app/admin/library/page.tsx:158-194 | The form is sent iff the title and author are non-empty and a book is being edited. On success only the edited entry is replaced and the form reset. Otherwise nothing changes. |
| AdminLibrary.Page.HandleDeleteBook | app/admin/library/page.tsx:196-207 | A confirmed, successful delete removes exactly the books with that id. Otherwise the list is unchanged. |
| AdminLibrary.Page.HandleFileChange | app/admin/library/page.tsx:234-241 | The form becomes `WithFile` of the old form. |
| AdminBlogs.RoleAfterFetch | app/admin/blogs/page.tsx:64-76 | The role is the server's answer. A failed role request yields role "public" with `is_admin` and `is_student` false. |
| AdminBlogs.PostsEndpoint | app/admin/blogs/page.tsx:87-104 | Nothing is fetched before the role is known. The admin endpoint is used iff the role is admin, and the public endpoint iff it is not. |
| AdminBlogs.ViewFor | app/admin/blogs/page.tsx:228-245 | The spinner shows iff loading. Access denied shows iff not loading and a known role is not admin. |
| AdminBlogs.FailedRoleDeniesAccess | app/admin/blogs/page.tsx:69-242 | After a failed role request the public list is fetched and the access-denied view is shown. |
| AdminBlogs.TagMatchLists | app/admin/blogs/page.tsx:107-112 | A post whose tag contains the term is listed. |
| AdminBlogs.FilteredBlogsSpec | app/admin/blogs/page.tsx:107-112 | The posts shown are an order-preserving sub-list; a post is shown iff its title, author or a tag contains the term, case-insensitively. |
| AdminBlogs.EmptySearchListsAll | app/admin/blogs/page.tsx:107-112 | The empty term lists every post, in order. |
| AdminBlogs.FormOf | app/admin/blogs/page.tsx:143-152 | The edit form copies title, author and status. A missing content or Medium link becomes "". |
| AdminBlogs.UpdateReplacesOnlyEdited | app/admin/blogs/page.tsx:168 | With distinct ids, the update map replaces exactly the edited post. |
| AdminBlogs.DeleteRemovesOnlyThat | app/admin/blogs/page.tsx:186 | With distinct ids, delete removes exactly that post and keeps the order of the rest. |
| AdminBlogs.Page.constructor | app/admin/blogs/page.tsx:44-61 | The page starts with no posts, an unknown role, an empty term, and the reset form. |
| AdminBlogs.Page.FetchUserRole | app/admin/blogs/page.tsx:65-74 | The role becomes `RoleAfterFetch` of the reply. |
| AdminBlogs.Page.ResetForm | app/admin/blogs/page.tsx:196-210 | Clears the fields, sets status "draft", and clears the editing state and the error. |
| AdminBlogs.Page.HandleAddBlog | app/admin/blogs/page.tsx:114-138 | A missing title or author sets "Title and Author are required" and sends nothing, with no other change. Otherwise the form is sent. On success the new post is prepended and the form reset. On failure the list and form are kept and the error set. |
| AdminBlogs.Page.HandleEditBlog | app/admin/blogs/page.tsx:140-155 | An unknown id changes nothing. Otherwise the form is filled from the post and the editing id is set. |
| AdminBlogs.Page.HandleUpdateBlog | app/admin/blogs/page.tsx:157-179 | The form is sent iff the title and author are non-empty and a post is being edited; otherwise the same error is set with no other change. On success only the edited post is replaced. On failure the list and form are kept. |
| AdminBlogs.Page.HandleDeleteBlog | app/admin/blogs/page.tsx:181-194 | A refused confirmation changes nothing. On success exactly the posts with that id are removed. On failure the error is set. |
| AdminYoutube.UpdatePayload | app/admin/youtube/page.tsx:124-131 | The update body carries title, description, category, duration, views and thumbnail URL, each equal to the form's. |
| AdminYoutube.UpdateIgnoresVideoId | app/admin/youtube/page.tsx:124-131 | Changing the form's `youtube_video_id` never changes the update body. |
| AdminYoutube.FormOf | app/admin/youtube/page.tsx:102-110 | The edit form copies the video's fields. A missing thumbnail becomes "". |
| AdminYoutube.EditThenSaveSendsSameVideo | app/admin/youtube/page.tsx:102-131 | Editing a video and saving unchanged sends its own six fields back, with a missing thumbnail as "". |
| AdminYoutube.FailureText | app/admin/youtube/page.tsx:93-140 | The error is the server's `detail` when it is non-empty, otherwise the page's fallback. |
| AdminYoutube.UpdateReplacesOnlyEdited | app/admin/youtube/page.tsx:133-135 | With distinct ids, the update map replaces exactly the edited video. |
| AdminYoutube.DeleteRemovesOnlyThat | app/admin/youtube/page.tsx:153 | With distinct ids, delete removes exactly that video and keeps the order of the rest. |
| AdminYoutube.Page.constructor | app/admin/youtube/page.tsx:41-55 | The page starts with no videos, no add or edit in progress, no error, and the default form. |
| AdminYoutube.Page.ResetForm | app/admin/youtube/page.tsx:167-178 | Restores the default form (views "0") and clears the error. The add and edit flags are left alone. |
| AdminYoutube.Page.CancelForm | app/admin/youtube/page.tsx:180-184 | Also clears the add and edit flags. |
| AdminYoutube.Page.HandleAddVideo | app/admin/youtube/page.tsx:78-97 | A missing title or video id sets the required-fields error and sends nothing. Otherwise the form is sent. On success the video is prepended and the form reset and closed. On failure the list and form are kept and the error set. |
| AdminYoutube.Page.HandleEditVideo | app/admin/youtube/page.tsx:99-113 | An unknown id changes nothing. Otherwise the form is filled from the video and the editing id is set. |
| AdminYoutube.Page.HandleUpdateVideo | app/admin/youtube/page.tsx:115-144 | The update body is sent iff the title and video id are non-empty and a video is being edited; otherwise the error is set with no other change. On success only the edited video is replaced and editing ends. On failure the list and form are kept. |
| AdminYoutube.Page.HandleDeleteVideo | app/admin/youtube/page.tsx:146-158 | A refused confirmation changes nothing. On success exactly the videos with that id are removed. On failure the error is set. |
| AdminWorkshops.FilteredWorkshopsSpec | app/admin/workshops/page.tsx:138-143 | The workshops shown are an order-preserving sub-list; a workshop is shown iff its title, instructor or category contains the term, case-insensitively. |
| AdminWorkshops.EmptySearchListsAll | app/admin/workshops/page.tsx:138-143 | The empty term lists every workshop, in order. There is no status filter. |
| AdminWorkshops.StatusTone | app/admin/workshops/page.tsx:299-312 | upcoming is blue, ongoing green and cancelled red, each iff. Completed and anything else are gray. |
| AdminWorkshops.TextParts | app/admin/workshops/page.tsx:153-157 | The first pass yields at most one part per entry. Each is a text field and never `main_image` or `video`. |
| AdminWorkshops.AppendTextParts | app/admin/workshops/page.tsx:153-157 | The `forEach` loop appends exactly `TextParts` of the entries, in order. |
| AdminWorkshops.BuildBody | app/admin/workshops/page.tsx:150-165 | The body built step by step equals `WorkshopParts` of the form. |
| AdminWorkshops.TextPartsAppend | app/admin/workshops/page.tsx:153-158 | The text pass over two runs of entries is the pass over the first run followed by the pass over the second. |
| AdminWorkshops.TextPartsAllText | app/admin/workshops/page.tsx:153-158 | Entries that all hold text under non-file keys are all sent, each as its own text, in order. |
| AdminWorkshops.TextPartsSplit | app/admin/workshops/page.tsx:153-157 | The text pass over a list is the pass over its first k entries followed by the pass over the rest. |
| AdminWorkshops.TextEntriesSent | app/admin/workshops/page.tsx:153-157 | The twelve text entries of the form are all sent, each as its own text and in form order. |
| AdminWorkshops.FileEntriesNotText | app/admin/workshops/page.tsx:153-157 | The `main_image` and `video` entries never go out as text, whether a file is chosen or not. |
| AdminWorkshops.BodyShape | app/admin/workshops/page.tsx:150-165 | The body is the twelve text fields in form order, each as its own text, then `main_image` and `video`, each only when chosen. |
| AdminWorkshops.FileSentIffChosen | app/admin/workshops/page.tsx:159-165 | A file part is in the body iff that file is chosen. |
| AdminWorkshops.DisplayHour | app/admin/workshops/page.tsx:319 | For hours 0..23 the display hour is in 1..12. It is hour-12 above 12, 12 at 0, and the hour itself from 1 to 12. |
| AdminWorkshops.FormatTime | app/admin/workshops/page.tsx:314-321 | The formatted time always ends in " AM" or " PM". |
| AdminWorkshops.FormatTimeSpec | app/admin/workshops/page.tsx:314-324 | For "HH:MM" with hour below 24 the text is the display hour, ":", the minutes verbatim, then "AM" iff hour < 12, else "PM". |
| AdminWorkshops.Twelve | app/admin/workshops/page.tsx:319-320 | Hour 12 is written "12", both as two digits and as the display hour. |
| AdminWorkshops.Noon | app/admin/workshops/page.tsx:318-320 | "12:MM" reads "12:MM PM". |
| AdminWorkshops.MorningHour | app/admin/workshops/page.tsx:316-320 | "0H:MM" for H from 1 to 9 reads "H:MM AM", without the leading zero. |
| AdminWorkshops.NineThirty | app/admin/workshops/page.tsx:316-320 | "09:30" reads "9:30 AM". |
| AdminWorkshops.Midnight | app/admin/workshops/page.tsx:318-320 | "00:MM" reads "12:MM AM". |
| AdminWorkshops.SetText | app/admin/workshops/page.tsx:291-296 | A text input sets exactly the named field. Every other text field and both files are unchanged. |
| AdminWorkshops.SetFile | app/admin/workshops/page.tsx:284-290 | A file input sets the named file field to the first file, or null when none is chosen. Every other field is unchanged. |
| AdminWorkshops.FormOf | app/admin/workshops/page.tsx:188-203 | The edit form copies the fields and carries no files. |
| AdminWorkshops.EditThenSaveSendsSameWorkshop | app/admin/workshops/page.tsx:150-203 | Editing a workshop and saving unchanged sends exactly its twelve text fields. The capacity goes as text that `parseInt`s back to the number. |
| AdminWorkshops.Page.constructor | app/admin/workshops/page.tsx:75-98 | The page starts with no workshops, an empty term, and the reset form. |
| AdminWorkshops.Page.ResetForm | app/admin/workshops/page.tsx:260-279 | Restores the defaults: level "beginner", location "online", status "upcoming", no files, not adding, not editing. |
| AdminWorkshops.Page.FetchWorkshops | app/admin/workshops/page.tsx:108-118 | The list becomes the fetched one. A failed fetch keeps it. |
| AdminWorkshops.Page.HandleTextChange | app/admin/workshops/page.tsx:281-297 | The form becomes `SetText` of the old form. |
| AdminWorkshops.Page.HandleFileChange | app/admin/workshops/page.tsx:281-297 | The form becomes `SetFile` of the old form. |
| AdminWorkshops.Page.HandleAddWorkshop | app/admin/workshops/page.tsx:145-181 | A body is sent iff title, instructor and date are non-empty; otherwise nothing changes. On success the list is re-fetched rather than edited, and the form reset. A failed request keeps the list and form. |
| AdminWorkshops.Page.HandleEditWorkshop | app/admin/workshops/page.tsx:183-208 | A successful detail request fills the form and sets the editing id. A failed one changes nothing. |
| AdminWorkshops.Page.HandleUpdateWorkshop | app/admin/workshops/page.tsx:210-246 | A body is sent iff title and instructor are non-empty and a workshop is being edited; the date is not checked. On success the list is re-fetched and the form reset. |
| AdminWorkshops.Page.HandleDeleteWorkshop | app/admin/workshops/page.tsx:248-258 | A confirmed, successful delete re-fetches the list. Otherwise the list is unchanged. |
| AdminScholarships.FilteredScholarshipsSpec | app/admin/scholarships/page.tsx:104-111 | The list shown is an order-preserving subsequence. It holds exactly the scholarships whose title, provider or present description contains the term case-insensitively and whose status passes the "All"-or-equal filter. An empty term with "All" keeps all of them. |
| AdminScholarships.StatusTone | app/admin/scholarships/page.tsx:258-271 | active is green, upcoming blue and expired red, each iff. Closed and anything else are gray. |
| AdminScholarships.SentDeadline | app/admin/scholarships/page.tsx:126-191 | The deadline sent is the date followed by "T23:59:59Z". |
| AdminScholarships.EditedDeadline | app/admin/scholarships/page.tsx:160 | The date the edit form shows (the text before the first "T") contains no "T". |
| AdminScholarships.DeadlineRoundTrip | app/admin/scholarships/page.tsx:126-160 | A date without "T" survives being sent and opened for editing again. |
| AdminScholarships.MaxApplicants | app/admin/scholarships/page.tsx:128-193 | An empty applicant limit is sent as null, and any other text as its `parseInt`. |
| AdminScholarships.MaxApplicantsText | app/admin/scholarships/page.tsx:169 | The edit form shows "" iff there is no limit. |
| AdminScholarships.MaxApplicantsRoundTrip | app/admin/scholarships/page.tsx:128-169 | Every applicant limit, including none, survives the edit form and the payload. |
| AdminScholarships.PayloadOf | app/admin/scholarships/page.tsx:121-136 | The payload carries the form's texts, the end-of-day deadline and the parsed limit. |
| AdminScholarships.FormOf | app/admin/scholarships/page.tsx:155-170 | The edit form cuts the deadline at "T", shows the limit as text, and turns missing texts into "". |
| AdminScholarships.EditThenSave | app/admin/scholarships/page.tsx:121-170 | Saving an opened scholarship unchanged sends its date at end of day and its own applicant limit. |
| AdminScholarships.TrimAll | app/admin/scholarships/page.tsx:290 | Each item is trimmed of JavaScript white space, and the count is kept. |
| AdminScholarships.EligibilityTrimsIdeographicSpace | app/admin/scholarships/page.tsx:290 | "a,\u3000b" yields the criteria "a" and "b": the ideographic space is trimmed. |
| AdminScholarships.EligibilityDisplay | app/admin/scholarships/page.tsx:285-293 | A non-empty criteria list is shown as is. Otherwise the result is empty iff the criteria text is missing or empty. |
| AdminScholarships.EligibilityFromText | app/admin/scholarships/page.tsx:289-291 | From the text form there is one criterion per comma plus one. None contains a comma, and each is already trimmed: it neither starts nor ends with JavaScript white space, ideographic and no-break spaces included. |
| AdminScholarships.Badges | app/admin/scholarships/page.tsx:639-648 | At most the first two criteria are shown. "+N more" appears iff there are more than two, and then shown + N = total. |
| AdminScholarships.DeadlineTone | app/admin/scholarships/page.tsx:615-621 | Red iff daysLeft ≤ 7, yellow iff 7 < daysLeft ≤ 30, green iff daysLeft > 30. |
| AdminScholarships.DeadlineText | app/admin/scholarships/page.tsx:623 | "Expired" iff daysLeft ≤ 0. Otherwise the text is "N days left". |
| AdminScholarships.ExpiredIsRed | app/admin/scholarships/page.tsx:615-623 | An expired tag is always red. |
| AdminScholarships.Page.constructor | app/admin/scholarships/page.tsx:61-81 | The page starts with no scholarships, an empty term, status "All", and the reset form. |
| AdminScholarships.Page.ResetForm | app/admin/scholarships/page.tsx:230-249 | Restores the defaults: academic level "all", status "upcoming", other fields empty, not adding, not editing. |
| AdminScholarships.Page.FetchScholarships | app/admin/scholarships/page.tsx:86-98 | The list becomes the fetched one. A failed fetch keeps it. |
| AdminScholarships.Page.HandleAddScholarship | app/admin/scholarships/page.tsx:113-148 | The payload is sent iff title, provider and deadline are non-empty; otherwise nothing changes. The list changes only through the re-fetch after a successful POST, and then the form is reset. |
| AdminScholarships.Page.HandleEditScholarship | app/admin/scholarships/page.tsx:150-176 | A successful detail request fills the form and sets the editing id. A failed one changes nothing. |
| AdminScholarships.Page.HandleUpdateScholarship | app/admin/scholarships/page.tsx:178-213 | The payload is sent iff title and provider are non-empty and a scholarship is being edited; the deadline is not checked. On success the list is re-fetched and the form reset. |
| AdminScholarships.Page.HandleDeleteScholarship | app/admin/scholarships/page.tsx:215-228 | A confirmed, successful delete re-fetches the list. Otherwise it is unchanged. |
| AdminSettings.KeysOf | app/admin/settings/page.tsx:116 | The key list has one key per entry, in entry order. |
| AdminSettings.Get | app/admin/settings/page.tsx:92-104 | A key is absent iff it is not among the keys. Otherwise the value found belongs to an entry with that key. |
| AdminSettings.Put | app/admin/settings/page.tsx:92-97 | Writing an existing key keeps the key order. Writing a new key appends it at the end, as a JavaScript object spread does. |
| AdminSettings.PutGetSame | app/admin/settings/page.tsx:92-97 | After a write, reading the same key gives the written value. |
| AdminSettings.PutGetOther | app/admin/settings/page.tsx:92-97 | A write leaves every other key's value as it was. |
| AdminSettings.PutUnique | app/admin/settings/page.tsx:92-104 | Writes keep every key unique. |
| AdminSettings.GetAt | app/admin/settings/page.tsx:42-66 | Reading the key at position k gives that entry's value when no earlier entry has the same key. |
| AdminSettings.GetPrefix | app/admin/settings/page.tsx:42-66 | A key found in the front part of a list is read from there, whatever follows. |
| AdminSettings.GetSuffix | app/admin/settings/page.tsx:42-66 | A key absent from the front part is read from the back part. |
| AdminSettings.GetIn | app/admin/settings/page.tsx:42-66 | A key in a middle group, absent from the front and earlier in the group, reads that group's value. |
| AdminSettings.DefaultPrimaryColour | app/admin/settings/page.tsx:45 | Before the first fetch the primary colour is #10B981. |
| AdminSettings.DefaultSecondaryColour | app/admin/settings/page.tsx:46 | Before the first fetch the secondary colour is #3B82F6. |
| AdminSettings.DefaultMaintenance | app/admin/settings/page.tsx:49 | Before the first fetch maintenance mode is off. |
| AdminSettings.DefaultRegistrations | app/admin/settings/page.tsx:50 | Before the first fetch new registrations are allowed. |
| AdminSettings.DefaultAnnouncement | app/admin/settings/page.tsx:57 | Before the first fetch the announcement type is "info". |
| AdminSettings.PartOf | app/admin/settings/page.tsx:117-125 | A logo, favicon or hero-image entry becomes a file part iff its value is a file; otherwise nothing is sent for it. Every other entry becomes a text field holding its stringified value. |
| AdminSettings.SavePartsSpec | app/admin/settings/page.tsx:116-126 | A part is in the save body iff some entry produces it. |
| AdminSettings.FileKeysSentOnlyAsFiles | app/admin/settings/page.tsx:117-125 | A text field is never sent under a file key. A file part is only sent under a file key, for a file the settings hold. |
| AdminSettings.NoChosenFileNoUpload | app/admin/settings/page.tsx:119-122 | When no file was chosen, the body carries only text fields. Existing image URLs are never sent back. |
| AdminSettings.AppendEntry | app/admin/settings/page.tsx:117-125 | One loop step appends exactly what its entry produces. |
| AdminSettings.SavePartsStep | app/admin/settings/page.tsx:116-126 | The parts of a suffix are the first entry's parts followed by the rest's parts. |
| AdminSettings.BuildBody | app/admin/settings/page.tsx:113-126 | The loop over the entries builds exactly the specified save body. |
| AdminSettings.CurrentFileName | app/admin/settings/page.tsx:252-253 | A name is shown iff the value is a non-empty string. The name is a slash-free suffix of the URL. |
| AdminSettings.Page.constructor | app/admin/settings/page.tsx:42-71 | The page starts with the default settings, loading, not saving, and no messages. |
| AdminSettings.Page.FetchSettings | app/admin/settings/page.tsx:78-90 | On success the settings become the fetched ones. On failure they are kept and the server error, or "Failed to fetch settings", is shown. Loading ends either way. |
| AdminSettings.Page.HandleSettingsChange | app/admin/settings/page.tsx:92-97 | The settings become the old ones with that one key written. |
| AdminSettings.Page.HandleFileUpload | app/admin/settings/page.tsx:99-104 | The key holds the chosen file, or null when none was chosen. |
| AdminSettings.Page.SaveSettings | app/admin/settings/page.tsx:106-145 | The body sent is the specified save body of the old settings. On success the settings become the reply and the success message is shown. On failure they are kept and the error is shown. Saving ends either way. |
| AdminOverview.ActivityTypeProps | app/admin/page.tsx:122-137 | Each of the five known activity types maps to its fixed kind and caption. Any other type maps to kind "user" with the raw type string as its caption. |
| AdminOverview.UnknownActivityShownRaw | app/admin/page.tsx:134-136 | An unknown activity shows its raw type and a blue dot. |
| AdminOverview.KindTone | app/admin/page.tsx:293-302 | The dot is blue, orange, purple or yellow exactly for kinds user, workshop, library and scholarship. Every other kind gets indigo. |
| AdminOverview.IndigoOnlyForMentors | app/admin/page.tsx:122-137 | An activity gets the indigo dot iff it is a mentor application. |
| AdminOverview.ActivityRows | app/admin/page.tsx:284-285 | At most five rows are shown: the first five activities, or all of them when there are fewer. Each row is its activity mapped through the kind and caption table. |
| AdminOverview.PriorityColor | app/admin/page.tsx:140-151 | After lower-casing, "high priority" gives high and "low priority" gives low. Anything else, including unknown strings, gives medium. |
| AdminOverview.PriorityIgnoresCase | app/admin/page.tsx:140-141 | The priority ignores letter case. |
| AdminOverview.TaskDot | app/admin/page.tsx:337-341 | A task's dot is red, yellow or green exactly for high, medium or low priority. |
| AdminOverview.GreenOnlyForLow | app/admin/page.tsx:140-151 | A task is green iff its priority reads "low priority" in any case. Unknown priorities are yellow. |
| DashboardLibrary.BeforeTotal | app/dashboard/library/page.tsx:263-273 | Each sort comparator orders any two books one way or the other. |
| DashboardLibrary.BeforeTransitive | app/dashboard/library/page.tsx:263-273 | Each sort comparator is transitive. |
| DashboardLibrary.FilteredBooksPermutation | app/dashboard/library/page.tsx:254-274 | The shown list is a permutation of the filtered books. A book is shown iff it is in the catalogue, its title, author or description contains the term in any case, and the category is "all" or equal. |
| DashboardLibrary.CountSortNonIncreasing | app/dashboard/library/page.tsx:264-270 | Sorted by read count, download count or publish year, no book is followed by one with a larger value. |
| DashboardLibrary.TitleSortAscending | app/dashboard/library/page.tsx:271-272 | The default sort puts titles in ascending order. |
| DashboardLibrary.EmptySearchShowsAll | app/dashboard/library/page.tsx:255-262 | With no term and category "all", every book is shown, each as often as in the catalogue. |
| DashboardLibrary.ActionsDisabled | app/dashboard/library/page.tsx:528-538 | Read and Download are enabled iff nothing is loading and the book has a non-empty PDF. |
| DashboardLibrary.DownloadName | app/dashboard/library/page.tsx:190 | The download name is the title followed by ".pdf". |
| DashboardLibrary.DownloadNameInjective | app/dashboard/library/page.tsx:190 | Two different titles never get the same download name. |
| DashboardLibrary.RecentActivities | app/dashboard/library/page.tsx:394 | The first five activities are shown, or all of them when there are fewer. |
| DashboardMentorship.AreaLists | app/dashboard/mentorship/page.tsx:140 | One area list per mentor, in directory order. |
| DashboardMentorship.ExpertiseAreasSpec | app/dashboard/mentorship/page.tsx:139-141 | The options are "All", then every area some mentor lists, each once, ordered by first occurrence. |
| DashboardMentorship.OwnAreaSelects | app/dashboard/mentorship/page.tsx:151-153 | Selecting one of a mentor's own areas keeps that mentor for any term its fields match. |
| DashboardMentorship.AreaMatchFinds | app/dashboard/mentorship/page.tsx:143-149 | A term found in any expertise area, in any case, finds the mentor. |
| DashboardMentorship.FilteredMentorsSpec | app/dashboard/mentorship/page.tsx:143-156 | The shown mentors keep directory order. With no term and "All", every mentor is shown. |
| DashboardMentorship.AuthToken | app/dashboard/mentorship/page.tsx:37-45 | With no window the token is null. Otherwise it is the first truthy value of authToken and access_token, else whatever token holds. |
| DashboardMentorship.AuthTokenFound | app/dashboard/mentorship/page.tsx:39-43 | A non-empty value under any of the three keys yields a truthy token. The token is always one of the three stored values. |
| DashboardMentorship.AuthHeaders | app/dashboard/mentorship/page.tsx:48-62 | The JSON content type is always set. Authorization is set iff the token is truthy, and then it is "Bearer " followed by the token. No other header is set. |
| DashboardMentorship.Page.constructor | app/dashboard/mentorship/page.tsx:66-72 | The page starts with no mentors, no term, expertise "All" and nobody connected. |
| DashboardMentorship.Page.HandleConnect | app/dashboard/mentorship/page.tsx:158-163 | The id is appended. Afterwards it is connected, and every mentor connected before stays connected. |
| DashboardMentorship.Page.ConnectLabel | app/dashboard/mentorship/page.tsx:311-318 | The label reads "Connected" iff the mentor is connected, and "Connect" otherwise. |
| DashboardScholarships.FilteredScholarshipsSpec | app/dashboard/scholarships/page.tsx:153-160 | The list keeps server order. It holds exactly the scholarships whose title or provider contains the term in any case and whose category and level are "All" or equal. With no term and both selects on "All", it is the whole list. |
| DashboardScholarships.ApplyLabelOf | app/dashboard/scholarships/page.tsx:560-571 | "Applied" wins over "Full", which wins over "Expired" (days left at most 0). Otherwise the label is "Apply". |
| DashboardScholarships.ApplyDisabled | app/dashboard/scholarships/page.tsx:558 | The button is enabled iff the user has not applied, it is not full, and days are left. |
| DashboardScholarships.EnabledIffApply | app/dashboard/scholarships/page.tsx:558-571 | The button can be pressed iff it reads "Apply". |
| DashboardScholarships.ApplyTarget | app/dashboard/scholarships/page.tsx:163-167 | Apply opens the application URL, or "#" when it is empty. |
| DashboardScholarships.ApplyNowAgreesWithCard | app/dashboard/scholarships/page.tsx:389-567 | The details never offer "Apply Now" for a scholarship whose card button reads "Applied". When they offer it for an open scholarship that is not full, the card's button reads "Apply" and can be pressed. |
| DashboardScholarships.StatusTone | app/dashboard/scholarships/page.tsx:179-186 | Active, upcoming and expired get green, blue and red. Every other status gets gray. |
| DashboardScholarships.ApplicationTone | app/dashboard/scholarships/page.tsx:189-196 | Pending, approved and rejected get yellow, green and red. Null and every other status get gray. |
| DashboardWorkshops.QueryParams | app/dashboard/workshops/page.tsx:105-109 | The search parameter is present iff the term is non-empty. The category parameter is present iff the category is not "All". The lower-cased level is present iff the level is not "All". Nothing else is sent. |
| DashboardWorkshops.BuildParams | app/dashboard/workshops/page.tsx:105-109 | The appends build exactly the specified parameter list. |
| DashboardWorkshops.NoFilterNoParams | app/dashboard/workshops/page.tsx:105-109 | With no term and both selects on "All", no parameter is sent. |
| DashboardWorkshops.AuthToken | app/dashboard/workshops/page.tsx:59-61 | The token is authToken when that is truthy, otherwise whatever access_token holds. |
| DashboardWorkshops.LoggedInIff | app/dashboard/workshops/page.tsx:65-68 | The user is logged in iff authToken or access_token is non-empty. |
| DashboardWorkshops.IsEnrolled | app/dashboard/workshops/page.tsx:195-200 | Without enrolment data, or without recent enrolments, the answer is false. Otherwise it holds iff some recent enrolment's workshop id, as a string, equals the id. |
| DashboardWorkshops.IsEnrolledNumber | app/dashboard/workshops/page.tsx:197-199 | Comparing the decimal string of a number finds it iff that number is among the enrolled ids. |
| DashboardWorkshops.EnrollLabelOf | app/dashboard/workshops/page.tsx:419-427 | The label priority is "Login to Enroll", then "Enrolled", then "Full" (count at capacity or above), then "Enrolling...", then "Enroll Now". |
| DashboardWorkshops.EnrollDisabled | app/dashboard/workshops/page.tsx:409-414 | The button is enabled iff the user is logged in, not enrolled, below capacity, and this workshop is not enrolling. |
| DashboardWorkshops.EnabledIffEnrollNow | app/dashboard/workshops/page.tsx:409-427 | The button can be pressed iff it reads "Enroll Now". |
| DashboardWorkshops.FormatLevel | app/dashboard/workshops/page.tsx:233-235 | The length is kept. The first character is upper-cased and the rest lower-cased. |
| DashboardWorkshops.FormatLevelIdempotent | app/dashboard/workshops/page.tsx:233-235 | Formatting twice equals formatting once. |
| DashboardWorkshops.FormatLevelIgnoresCase | app/dashboard/workshops/page.tsx:233-235 | Formatting ignores the level's letter case. |
| DashboardWorkshops.EnrollCountsOnlyThat | app/dashboard/workshops/page.tsx:168-176 | With distinct ids, a successful enrolment raises that one workshop's count by 1 and changes no other workshop. |
| DashboardWorkshops.EnrollFailure | app/dashboard/workshops/page.tsx:180-188 | A refused request shows the server's error text, or "Failed to enroll in workshop" when it has none. A network failure always shows the fixed message. |
| DashboardWorkshops.Page.constructor | app/dashboard/workshops/page.tsx:51-56 | The page starts with no workshops, no enrolment data, no error and nothing enrolling. |
| DashboardWorkshops.Page.HandleEnroll | app/dashboard/workshops/page.tsx:151-192 | Without a token an error is set and nothing is sent. Otherwise, on success, the matching workshop's count rises by 1, the enrolment data is refreshed and the error is cleared. On failure the list is kept and the error is shown. Enrolling ends either way. |
| DashboardBlogs.TagLists | app/dashboard/blogs/page.tsx:50 | One tag list per blog, in order. |
| DashboardBlogs.AllTagsSpec | app/dashboard/blogs/page.tsx:50 | The tag list has no duplicates. A tag is in it iff some blog carries it. |
| DashboardBlogs.FilteredBlogsSpec | app/dashboard/blogs/page.tsx:91-98 | The posts shown are an order-preserving sub-list. A post is shown iff its title, excerpt or author contains the term, case-insensitively, and it carries the selected tag when a non-empty tag is selected. With no term and no tag, every post is shown. |
| DashboardBlogs.ReadCountsOnlyThat | app/dashboard/blogs/page.tsx:106-108 | With distinct ids, reading raises the views of that one blog by 1 and changes no other blog. |
| DashboardBlogs.MediumLink | app/dashboard/blogs/page.tsx:111-120 | A link is opened iff the blog has a non-empty Medium URL, and it is that URL. |
| DashboardBlogs.ReadDisabled | app/dashboard/blogs/page.tsx:306 | The read button is disabled iff there is no Medium link. |
| DashboardBlogs.ReadLabel | app/dashboard/blogs/page.tsx:306-309 | The button reads "Coming Soon" iff it is disabled, and "Read on Medium" otherwise. |
| DashboardBlogs.Page.constructor | app/dashboard/blogs/page.tsx:41-47 | The page starts with no blogs, no term and no tag. |
| DashboardBlogs.Page.HandleReadBlog | app/dashboard/blogs/page.tsx:101-122 | The Medium link is opened whether or not the view increment succeeds. On success only the read blog's views rise by 1. On failure the views are kept. |
| DashboardYoutube.CategoryList | app/dashboard/youtube/page.tsx:48 | One category per video, in order. |
| DashboardYoutube.CategoriesSpec | app/dashboard/youtube/page.tsx:48 | The list is "All", then every non-empty category of some video, each once. |
| DashboardYoutube.AllCanRepeat | app/dashboard/youtube/page.tsx:48 | A video filed under "All" makes "All" appear twice, because the set does not cover the leading entry. |
| DashboardYoutube.ShowCategoryButtons | app/dashboard/youtube/page.tsx:207 | The buttons are drawn iff the list has more than one entry. |
| DashboardYoutube.ButtonsIffSomeCategory | app/dashboard/youtube/page.tsx:48-207 | The buttons are drawn iff some video has a non-empty category. |
| DashboardYoutube.FilterEffect | app/dashboard/youtube/page.tsx:65-81 | Narrowing by the term when it is non-empty, then by the category when it is not "All", gives exactly the visible videos. Visible means the title or description contains the term in any case, and the category is equal. |
| DashboardYoutube.FreshListAllVisible | app/dashboard/youtube/page.tsx:44-45 | With no term and "All", the filters keep the whole list, as the fetch sets it. |
| DashboardYoutube.Thumbnail | app/dashboard/youtube/page.tsx:230 | The thumbnail is the stored one when non-empty, else YouTube's maxresdefault still of the video id. |
| DashboardYoutube.Page.constructor | app/dashboard/youtube/page.tsx:26-33 | The page starts empty, with categories ["All"], no term, "All" selected, no video and no error. |
| DashboardYoutube.Page.FetchVideos | app/dashboard/youtube/page.tsx:36-57 | On success the list and the shown list both become the fetched videos, and the categories are rebuilt from them. On failure only the error changes. |
| DashboardYoutube.Page.ApplyFilters | app/dashboard/youtube/page.tsx:65-81 | The shown list becomes the visible videos of the current list, term and category. |
| DashboardYoutube.Page.HandleVideoPlay | app/dashboard/youtube/page.tsx:84-100 | The video opens whether or not the view is counted. A counted view re-fetches the list. A failed one changes nothing else. |
| Chatbot.SessionToRestore | app/dashboard/chatbot/page.tsx:99-110 | A session is restored iff the list is non-empty. The saved id is used when it is non-empty and listed. Otherwise the first, most recent, session is used. |
| Chatbot.RestoredIsListed | app/dashboard/chatbot/page.tsx:99-112 | Whatever is restored is one of the listed sessions. |
| Chatbot.Placeholder | app/dashboard/chatbot/page.tsx:211-216 | The placeholder is a user message with the typed content, and its id starts with "temp-". |
| Chatbot.ReplacePlaceholder | app/dashboard/chatbot/page.tsx:224-225 | Removing the placeholder by id gives back the earlier messages in order, when none of them shares its id. |
| Chatbot.SendAppendsPair | app/dashboard/chatbot/page.tsx:218-243 | A successful send leaves the earlier messages in order, followed by the server's user message and then the bot reply. |
| Chatbot.FailureDropsPlaceholders | app/dashboard/chatbot/page.tsx:254-255 | A failure drops the placeholder and every other temporary message. The remaining messages keep their order. |
| Chatbot.BlankMeansSpaces | app/dashboard/chatbot/page.tsx:200 | Input is ignored iff every character is JavaScript white space. |
| Chatbot.IdeographicSpaceBlank | app/dashboard/chatbot/page.tsx:200 | Input made of ideographic spaces (U+3000) is ignored, and one such space leaves the send button disabled. |
| Chatbot.SendDisabled | app/dashboard/chatbot/page.tsx:458 | The send button is enabled iff nothing is loading and the input has a character that is not JavaScript white space. |
| Chatbot.TruncateText | app/dashboard/chatbot/page.tsx:293-295 | Lengths are in UTF-16 code units. Text within the limit is kept. Longer text becomes its first limit-many code units followed by the three units of "...". |
| Chatbot.TruncateIdempotent | app/dashboard/chatbot/page.tsx:293-295 | Truncating twice equals truncating once. |
| Chatbot.TruncateInBmp | app/dashboard/chatbot/page.tsx:293-295 | For text below U+10000, code units are characters: the result is the first limit-many characters followed by "...", or the text itself. |
| Chatbot.TruncateAllAstral | app/dashboard/chatbot/page.tsx:293-295 | For text of astral characters only (emoji, say) and an even limit it exceeds, the result keeps only half the limit in characters, followed by "...". |
| Chatbot.TruncateSplitsPair | app/dashboard/chatbot/page.tsx:293-295 | For text of astral characters only and an odd limit it exceeds, the last unit kept is a lone high surrogate. |
| Chatbot.Page.constructor | app/dashboard/chatbot/page.tsx:67-74 | The page starts with no messages, empty input, no session, no title, no error, no sessions, and sessions loading. |
| Chatbot.Page.LoadSessionMessages | app/dashboard/chatbot/page.tsx:140-155 | On success the session becomes current with its title and messages, missing messages count as none, and its id is saved in storage. On failure the session is untouched and "Failed to load chat history" is shown. Storage is untouched unless the shared client's 401 branch ran. |
| Chatbot.Page.LoadSessions | app/dashboard/chatbot/page.tsx:91-138 | On success the list is stored and the restored session is loaded and saved. With no session to restore, or when the list fails, a single welcome message is shown. Loading ends either way. The storage clauses assume the shared client's 401 branch did not run. |
| Chatbot.Page.HandleSendMessage | app/dashboard/chatbot/page.tsx:199-259 | Blank input changes nothing. A first message opens a session from the server's reply and saves its id. Later messages append a placeholder, which is then replaced by the server's pair. On failure the temporary messages are dropped, the input is kept and the error is shown. Loading ends either way. The storage clauses assume the shared client's 401 branch did not run. |
| Chatbot.Page.HandleNewChat | app/dashboard/chatbot/page.tsx:261-278 | The session id and title are cleared, the saved id is removed from storage, a single welcome message is shown, and the error is cleared. |
| Chatbot.Page.HandleSelectSession | app/dashboard/chatbot/page.tsx:280-284 | Choosing the current session again changes nothing. Any other session is loaded and saved, with the storage clauses of `LoadSessionMessages`. |
| AdminLibrary.Labels | app/admin/library/page.tsx:256 | One label per category, in server order. |
| AdminMentorship.Page.RemoveSelectedFile | app/admin/mentorship/page.tsx:98-101 | The chosen picture and its preview are both cleared. |
| ApiClient.RequestConfig.constructor | components/axiosInstance.ts:12-18 | A request starts with the given headers and has not been retried. |
| Browser.Window.constructor | components/auth-provider.tsx:35-36 | A window starts with the given storage and no navigation. |
| Browser.Window.GetItem | components/axiosInstance.ts:13 | A read finds a value iff the key is stored, and it is the stored value. |
| Browser.Window.SetItem | components/auth-provider.tsx:56-61 | A write sets that one key and leaves the location alone. |
| Browser.Window.RemoveItem | components/auth-provider.tsx:88-90 | A removal drops that one key and leaves the location alone. |
| Browser.Window.Clear | components/axiosInstance.ts:35 | Clearing empties the storage and leaves the location alone. |
| Browser.Window.Navigate | components/axiosInstance.ts:36 | Navigating sets the location and leaves the storage alone. |
| Wrappers.OrElse | app/dashboard/scholarships/page.tsx:166 | The logical-or fallback on strings gives the first string when it is non-empty, and the second otherwise. |
| Multipart.Stringify | app/admin/settings/page.tsx:124 | String(value) gives a string as it is, "true" or "false" for a flag, and for a number a decimal string that parses back to it. |
| Multipart.Keys | app/admin/workshops/page.tsx:153-165 | One key per appended part, in append order. |
| Multipart.KeysAppend | app/admin/workshops/page.tsx:153-165 | The keys of two bodies appended one after the other are the two key lists concatenated. |
| Search.EmptyTermMatches | app/admin/library/page.tsx:90-97 | An empty term matches every item, because every string includes "". |
| Search.MatchesIgnoresTermCase | app/admin/library/page.tsx:92-94 | Because the term is lower-cased before matching, its letter case never matters. |
| Search.FieldMatchesItself | app/admin/library/page.tsx:92-94 | Searching for a field's own text finds the item. |
| Text.Lower | app/admin/library/page.tsx:92-94 | toLowerCase keeps the length and lower-cases each character. |
| Text.Upper | app/dashboard/workshops/page.tsx:234 | toUpperCase keeps the length and upper-cases each character. |
| Text.LowerIdempotent | app/admin/library/page.tsx:92-94 | Lower-casing twice equals lower-casing once. |
| Text.LowerAppend | app/dashboard/workshops/page.tsx:234 | Lower-casing distributes over concatenation. |
| Text.SubstringAt | app/admin/library/page.tsx:92-94 | includes holds iff the term occurs at some position. |
| Text.EmptyIsSubstring | app/admin/library/page.tsx:92-94 | Every string includes the empty string. |
| Text.SubstringReflexive | app/dashboard/mentorship/page.tsx:153 | Every string includes itself. |
| Text.TrimStartShape | app/dashboard/chatbot/page.tsx:200 | Trimming the start removes a prefix made only of white space and stops at the first other character. |
| Text.TrimStartSuffix | app/dashboard/chatbot/page.tsx:200 | Trimming the start leaves a suffix of the string. |
| Text.TrimStartDropsSpace | app/dashboard/chatbot/page.tsx:200 | Every character that trimming the start removes is white space. |
| Text.TrimStartStops | app/dashboard/chatbot/page.tsx:200 | What trimming the start keeps does not begin with white space. |
| Text.TrimEndShape | app/dashboard/chatbot/page.tsx:200 | Trimming the end removes a suffix made only of white space and stops at the last other character. |
| Text.BlankIffAllSpace | app/dashboard/chatbot/page.tsx:200 | A string trims to "" iff every character is white space. |
| Text.TrimKeepsOut | app/admin/scholarships/page.tsx:290 | Trimming never brings in a character the string did not have. |
| Text.TrimIdempotent | app/admin/scholarships/page.tsx:290 | Trimming twice equals trimming once. |
| Text.Trim | app/admin/scholarships/page.tsx:290 | trim never lengthens a string, and a non-empty result neither starts nor ends with JavaScript white space. |
| Text.Split | app/admin/scholarships/page.tsx:160 | split always returns at least one piece. |
| Text.SplitJoin | app/admin/scholarships/page.tsx:160-290 | Joining the pieces with the separator gives back the string. There is one more piece than separators, and no piece contains the separator. |
| Text.SplitThenJoin | app/admin/scholarships/page.tsx:160-290 | Joining the pieces with the separator gives back the string. |
| Text.JoinExtendFirst | app/admin/scholarships/page.tsx:160-290 | Putting a character in front of the first piece puts it in front of the joined string. |
| Text.SplitCount | app/admin/scholarships/page.tsx:290 | There is one more piece than separators. |
| Text.SplitPieceClean | app/admin/scholarships/page.tsx:290 | No piece contains the separator. |
| Text.SplitFirstPiece | app/admin/scholarships/page.tsx:160 | The first piece is the text before the first separator. |
| Text.SplitTwoPieces | app/admin/scholarships/page.tsx:160 | Two separator-free texts joined by one separator split back into exactly those two. |
| Text.SplitNoSeparator | app/admin/scholarships/page.tsx:290 | A string without the separator splits into itself alone. |
| Text.LastSegmentIsSuffix | app/admin/settings/page.tsx:253 | The segment after the last separator is a separator-free suffix of the string. |
| Text.JoinEndsWithLast | app/admin/settings/page.tsx:253 | A joined string ends with its last piece. |
| Text.DigitChar | app/admin/library/page.tsx:146-147 | Every digit value gives a digit character. |
| Text.DigitRun | app/admin/scholarships/page.tsx:128 | The run parseInt reads is the longest leading run of digits: it ends at the first non-digit. |
| Text.NatToStringDigits | app/admin/library/page.tsx:146-147 | toString of a natural number is a non-empty digit string whose value is the number. |
| Text.ParseDigits | app/admin/scholarships/page.tsx:128 | parseInt of a non-empty digit string is its value. |
| Text.ParseIntToString | app/admin/scholarships/page.tsx:128-169 | parseInt of toString gives back the integer, negatives included. |
| Text.ParseInt | app/admin/workshops/page.tsx:317 | parseInt of a string that is empty after leading white space is NaN. A negative result comes only from a string whose first non-space character is '-'. |
| Text.HexValue | app/admin/workshops/page.tsx:317 | A hexadecimal digit of either case is worth less than 16. |
| Text.HexRun | app/admin/workshops/page.tsx:317 | The base-16 run parseInt reads after `0x` is the longest leading run of hexadecimal digits. |
| Text.ParseHex | app/admin/workshops/page.tsx:317 | parseInt of "0x" followed by hexadecimal digits is their base-16 value. |
| Text.ParseHexExample | app/admin/workshops/page.tsx:317 | parseInt("0x1A") is 26. |
| Text.UnitsOf | app/dashboard/chatbot/page.tsx:293-295 | A character below U+10000 is one code unit. Any other is two, a high surrogate and then a low one. |
| Text.Utf16Append | app/dashboard/chatbot/page.tsx:293-295 | The code units of a concatenation are those of each part, in order. |
| Text.Utf16InBmp | app/dashboard/chatbot/page.tsx:293-295 | For text below U+10000 the code units are the characters one for one. |
| Text.Utf16AllAstral | app/dashboard/chatbot/page.tsx:293-295 | For text of astral characters only there are twice as many units as characters, and the first 2k units are the units of the first k characters. |
| Text.TwoDigitsParse | app/admin/workshops/page.tsx:314-324 | A two-digit field parses back to its number. |
| Text.IntToStringHasNo | app/admin/scholarships/page.tsx:159-160 | The decimal form of an integer holds only digits and a minus sign. |
| Text.LexLeTotal | app/dashboard/library/page.tsx:272 | The title order relates any two titles one way or the other. |
| Text.LexLeTrans | app/dashboard/library/page.tsx:272 | The title order is transitive. |
| Text.LexLeAntisymmetric | app/dashboard/library/page.tsx:272 | Two titles that are each at most the other are equal. |
| Collections.Filter | app/admin/library/page.tsx:90-97 | filter keeps only items that pass and keeps every item that passes. It never grows the list. |
| Collections.FilterIsSubsequence | app/admin/library/page.tsx:200 | filter keeps the order of what it keeps. |
| Collections.FilterAll | app/admin/library/page.tsx:90-97 | When every item passes, filter returns the list unchanged. |
| Collections.FilterSame | app/dashboard/youtube/page.tsx:65-81 | Two tests that agree on every item filter alike. |
| Collections.FilterFilter | app/dashboard/youtube/page.tsx:65-81 | Filtering twice equals filtering once by both tests. |
| Collections.FilterAppend | app/dashboard/chatbot/page.tsx:218-255 | Filtering a concatenation filters each part. |
| Collections.CountWhereAppend | app/admin/mentorship/page.tsx:421 | Appending an item raises the count by one iff the item passes. |
| Collections.Find | app/dashboard/chatbot/page.tsx:103 | find returns nothing iff no item passes. Otherwise it returns the first item that passes. |
| Collections.ReplaceWhere | app/admin/library/page.tsx:187 | map with a conditional replaces exactly the hit items and keeps the rest. |
| Collections.MapWhere | app/dashboard/workshops/page.tsx:170-174 | map with a conditional update changes exactly the hit items and keeps the rest. |
| Collections.ReplaceOnlyOne | app/admin/library/page.tsx:187 | With one hit, the update replaces that item only. |
| Collections.RemoveOnlyOne | app/admin/library/page.tsx:200 | With one failing item, filter removes that item only. |
| Collections.ReplaceNone | app/admin/library/page.tsx:187 | With no hit, the list is unchanged. |
| Collections.FirstIndex | app/dashboard/blogs/page.tsx:50 | The first index holds the item, and nothing before it does. |
| Collections.FirstIndexExtend | app/dashboard/blogs/page.tsx:50 | Appending does not move an existing first occurrence. |
| Collections.FirstIndexLast | app/dashboard/blogs/page.tsx:50 | An item first seen at the end has its first index there. |
| Collections.Distinct | app/dashboard/blogs/page.tsx:50 | new Set keeps each item once, in first-occurrence order, and loses none. |
| Collections.DistinctOfDistinct | app/dashboard/blogs/page.tsx:50 | A list without repeats is its own set. |
| Collections.InFlatten | app/dashboard/blogs/page.tsx:50 | An item is in the flattened list iff it is in one of the lists. |
| Collections.DistinctFlatten | app/dashboard/blogs/page.tsx:50 | The set of the flattened lists holds each item of any list, once. |
| Collections.Take | app/admin/page.tsx:284 | slice(0, n) holds the first n items, or all of them when there are fewer. |
| Collections.Insert | app/dashboard/library/page.tsx:263-273 | Inserting adds the item once and keeps a sorted list sorted. |
| Collections.SortBy | app/dashboard/library/page.tsx:263-273 | sort returns a permutation, and a sorted one for a total comparator. |
| Collections.SortedPairwise | app/dashboard/library/page.tsx:263-273 | In a list sorted by a transitive comparator, every earlier item stands before every later one. |

## Behaviour of the code worth noting

The model follows the code in each case.

- A failed token refresh rejects the caller's promise with the original 401 error, not with the refresh error (`components/axiosInstance.ts:34-39`). `ApiClient.RefreshFailure` states this.
- The refresh request is posted even when no `refresh_token` is stored. The stored `null` is sent as the refresh token (`components/axiosInstance.ts:29-30`). It is not skipped. `ApiClient.RefreshOnlyOnFirst401` states this.
- A failed refresh empties the whole of `localStorage`, not only the credential keys and the cached profile (`components/axiosInstance.ts:35`).
- The student workshops page reads the token and builds its own `Authorization` header for `fetch`, instead of going through the shared client (`app/dashboard/workshops/page.tsx:59-61`, `:130-139`, `:158-166`). `DashboardWorkshops.AuthToken` models its token helper.
- The student mentorship page defines `getAuthToken` and `getAuthHeaders` (`app/dashboard/mentorship/page.tsx:38-63`), but it fetches through the shared client (`:85`, `:123`), and the only calls to those helpers are commented out (`:81-83`, `:110-112`). `DashboardMentorship.AuthToken` and `DashboardMentorship.AuthHeaders` model helpers that nothing calls.

## Left out

- Rendering, styling, routing components, icons, toasts and `alert` pop-ups are not modelled. The messages the handlers set are modelled.
- Network I/O is not modelled. Every request's outcome is a `Reply` parameter, and requests that run in parallel or are started without being awaited are not interleaved. The chatbot's `loadSessions` reloads after a send or a new session are fire-and-forget, and are not part of those steps. `handleVideoPlay`'s `fetchVideos` is not awaited, and the model applies it at once.
- HandleSubmit (`LoginPage.Page.HandleSubmit`): the sign-in request goes through the shared client (`app/auth/login/page.tsx:31`). Its clauses on storage and location hold only for a reply on which the client's 401 branch did not run. On a 401 whose refresh fails, that branch empties `localStorage` and navigates to `/auth/login` before the page's `catch` runs (`components/axiosInstance.ts:26-39`). That is always the case when signed out, since the stored refresh token is null. On a 401 whose refresh succeeds, it rewrites `access_token`. `ApiClient.RefreshFailure` and `ApiClient.RefreshSuccess` state those effects. The page model takes the reply after the client, not the client's trace.
- LoadSessionMessages (`Chatbot.Page.LoadSessionMessages`): the same holds for its request through the shared client (`app/dashboard/chatbot/page.tsx:142`). "Storage unchanged" on failure, and "storage plus the session id" on success, hold only when the client's 401 branch did not run. Otherwise the client has also cleared the store and navigated to `/auth/login`, or rewritten `access_token`.
- LoadSessions (`Chatbot.Page.LoadSessions`): the same holds for both of its requests (`app/dashboard/chatbot/page.tsx:94`, `:142`).
- HandleSendMessage (`Chatbot.Page.HandleSendMessage`): the same holds for the session-create and send requests (`app/dashboard/chatbot/page.tsx:159`, `:187`).
- HandleSelectSession (`Chatbot.Page.HandleSelectSession`): it inherits the storage clauses of `LoadSessionMessages`, with the same 401 gap.
- Timers are not modelled: the 300 ms search debounce on the workshops page, the 3-second clearing of the settings success message, the admin mentorship page's 3-second clearing of its success message and 5-second clearing of its error (`app/admin/mentorship/page.tsx:342`, `:349`), and the delayed redirects after a login (`app/auth/login/page.tsx:78`, `:103`). `LoginPage.Page.HandleSubmit` records the redirect it schedules.
- Clock readings are not modelled. `Date.now()`, `new Date().toISOString()` and the deadline's days-left count are integer or string inputs. `getDaysUntilDeadline` and date formatting (`toLocaleDateString`, `toLocaleTimeString`) are left out.
- Days left are an integer, so the `NaN` that `getDaysUntilDeadline` returns for an unparseable deadline is not modelled. With `NaN`, every comparison is false. The admin card then shows "Expired" on a green tag (`app/admin/scholarships/page.tsx:615-623`). The student card shows a green "Expired" tag next to an enabled "Apply" button (`app/dashboard/scholarships/page.tsx:506-513`, `:558-567`). `AdminScholarships.DeadlineTone`, `AdminScholarships.ExpiredIsRed`, `DashboardScholarships.ApplyDisabled` and `DashboardScholarships.ApplyLabelOf` hold for numeric days only.
- `FileReader` previews and `File` objects are not modelled beyond a name, a MIME type and a size. `window.confirm` is a boolean parameter of the delete handlers.
- JSON is not modelled. `JSON.stringify` of the user profile is kept as the stored text. A malformed `user_data` value, which makes `JSON.parse` throw on restore, is not modelled.
- `Collections.SortBy` does not state stability: that items the comparator ties keep their input order, as `Array.prototype.sort` guarantees, is not proved.
- `Text.ParseInt` returns an exact integer, whereas `parseInt` returns a double. Rounding above 2^53 and the result -0 of "-0" are not modelled.
- `toLowerCase` and `toUpperCase` are modelled on ASCII letters only. `localeCompare` is modelled as code-point order (`Text.LexLe`), without the locale's collation.
- `URLSearchParams` encoding is not modelled. `DashboardWorkshops.QueryParams` gives the key-value pairs before encoding.
- The choice between a reply's `results` and its `data` between a paginated and a plain list reply is not modelled. Every list reply is the list itself.
- The list and detail loaders that only copy a reply into state are not modelled. They are the admin dashboard's `fetchStats` and stats cards, and the library and workshop categories with their fallback lists. They are also the admin `fetchMentors`, `fetchBooks` and `fetchVideos`, and the admin `fetchBlogs` beyond its endpoint choice (`AdminBlogs.PostsEndpoint`). On the student side they are the blogs page's `fetchData`, which sets the lists only when all three requests succeed, the scholarship and mentor list and detail loaders, the library's `fetchBooks`, `fetchLibraryStats` and `fetchActivities`, and the workshops page's `fetchWorkshops`. The admin workshop and scholarship list loaders are modelled (`FetchWorkshops`, `FetchScholarships`). `getLevelVariant` is not modelled either.
- The `loading` flags of the book, blog, video, workshop and scholarship pages are not modelled, because no property depends on them. The mentor and settings pages keep theirs.
- `handleInputChange` and the select handlers of the mentor, book, blog, video and scholarship forms are not modelled. They are the generic single-field update that `AdminWorkshops.Page.HandleTextChange` models for workshops.
- `handleApproveMentor` is not modelled. It posts the approval and re-fetches the list, so it never edits the local list.
- The scholarship `amount` (`parseFloat`) and `formatAmount` are not modelled. The amount is carried as text.
- `handleReadBook` and `handleDownloadBook` on the student library page are not modelled beyond the button state and the file name, because they are I/O (blob download, new tab).
- `DashboardYoutube.AllCanRepeat` records that a video filed under "All" puts "All" twice in the category list. The model keeps that behaviour and does not correct it.
- Ids are integers throughout, except where the source compares them as strings: workshop ids, chat session ids and message ids.
- The update handlers refuse to run when the editing id is falsy (`!editingX`), so a record whose id is 0 cannot be updated. The model keeps this (`NotEditing`). Server ids start at 1, so it is not listed as a finding.
- The settings page's tabs and the admin dashboard's quick-action links are not modelled, because they are static data.
