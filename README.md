# Tutoring-site core in Dafny

This project models the logic behind a tutoring business's website:

- **Content store.** The site content lives in two tables, content and images. Each table is keyed by (page, section key). A hook loads one page's rows, looks values up with a fallback, and refetches after every write the store accepts.
- **Admin editors.** The newer editor keeps unsaved edits in a drafts overlay. It stores repeatable list items under flat keys `L_i_f` and finds their number with a scan that stops at the first gap. The older editor is a plain key/value form with trim guards. A static page schema describes what the editors offer.
- **Lead pipeline.** Admission applications, enquiries, demo bookings and contact messages are handled in the same order: an optional check of the fields, then one document saved under its schema, then a best-effort e-mail to the admin, then a status code. A hosted form function stores general form submissions.
- **Admin identity.**
  - Login gives one error for an unknown email and for a wrong password, and issues a one-hour token (the `exp` claim of section 4.1.4 of RFC 7519).
  - Profile update changes only the fields that are given.
  - Seeding and setup are find-or-create.
  - The browser session sends the token as a bearer credential (section 2.1 of RFC 6750).
  - The database handle's connect/close lifecycle is modelled.
- **Page helpers.** These are the CMS-or-default list choice, the facility cards that cycle icons and colours by index, gallery category parsing and filtering, the testimonial carousel, and the admission-page request bodies.

Some parts of the real system are replaced by parameters:

- **Not modelled at all:** the network, the database driver, SMTP, bcrypt, token signing and the clock.
  - Hashing, password comparison and signing are uninterpreted function parameters.
  - A store or transport failure is a `bool` or `Option` parameter of the operation that meets it.
  - The current time is a `now: nat` parameter.
- **What each component becomes:**
  - Remote tables and collections are classes whose fields are `seq`s.
  - Pure helpers are functions with the lemmas that state what they mean.
  - The React components are classes whose fields are their state variables.
- **Shared JavaScript semantics:** module `Js` models truthiness, `a || b`, `trim`, `split`, `startsWith` and `${n}`.
- **Variants:** the typed TypeScript variants of the e-mail service, the auth routes and the seed script behave exactly like the JavaScript files, so one member models both. The contact and enquiry routes differ between the two variants, and each variant has its own member.

## Model

| member | source | states |
|---|---|---|
| Js.Trim | backend/server.js:24 | `trim` leaves no white space at either end, and its result is no longer than its input. |
| Js.TrimEmptyIffBlank | backend/server.js:24 | The result of `trim` is empty exactly when the input is all white space. |
| Js.TrimIsSlice | backend/server.js:24 | The result of `trim` is a contiguous slice of its input, and everything it drops before and after that slice is white space. |
| Js.TrimIdempotent | src/pages/AdminDashboard.tsx:49-51 | Trimming an already trimmed string changes nothing. |
| Js.Split | frontend/src/pages/Gallery.tsx:40 | `split` always returns at least one piece, and no piece contains the separator. |
| Js.JoinSplit | frontend/src/pages/Gallery.tsx:40 | Joining the pieces of a split with the separator gives back the original string, so splitting loses nothing. |
| Js.NatToStringInjective | frontend/src/pages/AdminDashboard.tsx:197 | Distinct indices render as distinct decimals, so the prefixes `L_i_` and `L_j_` differ when i ≠ j. |
| CmsStore.UpsertSpec | src/hooks/useCms.ts:57-60 | After an upsert on (page, key), exactly one row has that key and it holds the new value. Every row with another key is unchanged, in order. |
| CmsStore.UpsertKeepsValid | src/hooks/useCms.ts:57-60 | An upsert keeps the table's invariant: keys unique, ids unique, ids below the next fresh id. |
| CmsStore.UpsertLookupOther | src/hooks/useCms.ts:57-60 | An upsert does not change the lookup of any other key. |
| CmsStore.UpsertExistingInPlace | src/hooks/useCms.ts:57-60 | Upserting an existing key rewrites that one row in place and keeps its id. |
| CmsStore.DeleteById | src/hooks/useCms.ts:76 | Deleting by id removes every row with that id and keeps every other row. |
| CmsStore.RemoveThenDelete | src/hooks/useCms.ts:76 | Deleting ids one after another equals removing the whole set of ids at once. |
| CmsStore.RemoveKeepsValid | src/hooks/useCms.ts:76 | Removing rows keeps the table's invariant. |
| CmsStore.RowsOfPage | src/hooks/useCms.ts:30-33 | Loading returns exactly the rows of the given page. With no page, or an empty page name, it returns all rows. |
| CmsStore.Find | src/hooks/useCms.ts:46 | `find` returns a row with the key (and the hook's page when one is set), and returns none exactly when no row matches. |
| CmsStore.FindFirst | src/hooks/useCms.ts:46 | `find` returns the first matching row. |
| CmsStore.TargetPage | src/hooks/useCms.ts:56 | The page of a write is `targetPage`, else the hook's page, else `"home"`. It is never empty. |
| CmsStore.UpsertAllLastWins | src/hooks/useCms.ts:57-60 | In a sequence of upserts, the last write to a key decides its value. |
| CmsStore.UpsertAllOther | src/hooks/useCms.ts:57-60 | A sequence of upserts leaves every key it does not write unchanged. |
| CmsStore.UpsertAllKeepsValid | src/hooks/useCms.ts:57-60 | A sequence of upserts keeps the table's invariant. |
| CmsStore.FirstFault | frontend/src/pages/AdminDashboard.tsx:153-154 | Returns the index of the first failing write; every write before it succeeds. |
| CmsStore.PublicUrlInjective | src/hooks/useCms.ts:92 | A public URL starts with the bucket's base, and distinct paths give distinct URLs. |
| CmsStore.CmsHook.GetContent | src/hooks/useCms.ts:45-48 | In any loaded state: the value of the first row with the key (on the hook's page, when it has one) if that value is non-empty, otherwise the fallback. No matching row gives the fallback. |
| CmsStore.CmsHook.GetImage | src/hooks/useCms.ts:50-53 | The same over the image rows: the first matching row's non-empty `image_url`, otherwise the fallback. |
| CmsStore.FindFirstMatch | src/hooks/useCms.ts:46 | `find` returns the row that matches with no matching row before it. |
| CmsStore.CmsHook.FetchContent | src/hooks/useCms.ts:25-39 | The loaded rows are the page's rows of each table, an empty list for a failed query, and loading ends. |
| CmsStore.CmsHook.UpsertContent | src/hooks/useCms.ts:55-63 | Returns the store's error unchanged. On error, nothing changes; otherwise the table is the upsert on (target page, key) and the hook holds what the refetch returned, an empty list for each of its queries that failed. |
| CmsStore.CmsHook.UpsertImage | src/hooks/useCms.ts:65-73 | The same for image rows, with `display_order` given by the caller. |
| CmsStore.CmsHook.DeleteContent | src/hooks/useCms.ts:75-79 | Returns the store's error unchanged. On error, nothing changes; otherwise exactly the row with the id is gone and the hook holds what the refetch returned, failed queries included. |
| CmsStore.CmsHook.DeleteImage | src/hooks/useCms.ts:81-85 | The same for image rows. |
| CmsStore.CmsHook.BatchUpsertContent | frontend/src/pages/AdminDashboard.tsx:153 | The items before the first failing write are upserted in order. The error reported is that failure's error. After at least one write, the hook holds what the last refetch returned. |
| CmsStore.CmsHook.UploadImage | src/hooks/useCms.ts:87-94 | On error, there is no URL and the bucket is unchanged. Otherwise the file is stored under its path and the URL is the bucket's public URL of that path. |
| CmsStore.GetContentReadsStore | src/hooks/useCms.ts:45-48 | On a loaded page, `getContent` returns the stored value of (page, key) when it is non-empty, and otherwise the fallback. |
| CmsStore.GetImageReadsStore | src/hooks/useCms.ts:50-53 | On a loaded page, `getImage` returns the stored URL of (page, key) when it is non-empty, and otherwise the fallback. |
| CmsStore.FindIsLookup | src/hooks/useCms.ts:46 | On a page's rows, `find` and the table's key lookup agree. |
| CmsConfig.GetPageConfig | src/config/cmsConfig.ts:531-533 | Returns a configured page with the given id, or none exactly when no page has that id. |
| CmsConfig.GetPageConfigFindsEachPage | src/config/cmsConfig.ts:531-533 | Every configured page is found under its own id. |
| CmsConfig.PageIdsDistinct | src/config/cmsConfig.ts:42 | The page ids are global, home, about, courses, facilities, results, gallery, admission and contact, in that order, and they are pairwise distinct. |
| CmsConfig.DataViewIsNotPage | src/config/cmsConfig.ts:531-533 | The dashboard views `enquiries`, `contacts` and `profile` are not configured pages. |
| CmsConfig.DistinctFromSpec | src/config/cmsConfig.ts:93-195 | The index-by-index distinctness check means that no two present entries are equal. |
| CmsConfig.PageWellFormedSpec | src/config/cmsConfig.ts:93-195 | On a well-formed page, section ids are pairwise distinct and list keys are pairwise distinct. |
| CmsConfig.ConfigWellFormed | src/config/cmsConfig.ts:114-155 | Every page is well formed. A section has a `listKey` exactly when it has a `listItem`, and then it also has a label, a `maxItems` between 1 and 30, and pairwise distinct field keys. |
| ListEditor.ListItemCount | frontend/src/pages/AdminDashboard.tsx:194-202 | The count is at most 50. Every index below it has a stored row or a draft under `L_i_`, and the count itself, when below 50, has neither. |
| ListEditor.CountUnique | frontend/src/pages/AdminDashboard.tsx:194-202 | Those three properties determine the count uniquely. |
| ListEditor.GapEndsScan | frontend/src/pages/AdminDashboard.tsx:198 | The count never passes a missing index, so items after a gap are not counted. |
| ListEditor.ItemPrefixesDisjoint | frontend/src/pages/AdminDashboard.tsx:197 | A key lies under at most one item prefix `L_i_`. |
| ListEditor.NewItemRows | frontend/src/pages/AdminDashboard.tsx:208-213 | There is one row per field, with key `L_count_field`, value `placeholder` or `""`, type text, on the active page. |
| ListEditor.AddDisabled | frontend/src/pages/AdminDashboard.tsx:448 | "Add" is disabled exactly when something is being saved or a positive `maxItems` has been reached: enabled only when neither holds, and enabled whenever neither holds. |
| ListEditor.AddedItemIsCounted | frontend/src/pages/AdminDashboard.tsx:204-217 | After an item is added at the first gap, the count grows past the old count. |
| ListEditor.OldItemStays | frontend/src/pages/AdminDashboard.tsx:204-217 | Adding an item keeps every item that was already present. |
| ListEditor.EnabledAddIsCounted | frontend/src/pages/AdminDashboard.tsx:448 | When "Add" is enabled and the batch succeeds, the new item is counted and the count stays within `maxItems`. |
| ListEditor.BatchStoresEach | frontend/src/pages/AdminDashboard.tsx:208-214 | A successful batch stores every new row's value under its own key. |
| ListEditor.RowsWithPrefix | frontend/src/pages/AdminDashboard.tsx:223 | Keeps exactly the rows whose key starts with the prefix. |
| ListEditor.DeleteItemRemovesExactly | frontend/src/pages/AdminDashboard.tsx:222-230 | Deleting item i removes exactly the rows under `L_i_` and keeps every row under another index, so nothing is renumbered. |
| ListEditor.DeleteHidesLaterItems | frontend/src/pages/AdminDashboard.tsx:198 | After item i is deleted, the count stops at i while no draft covers it, so later items drop out of the count. |
| ListEditor.ProfileRequestOf | frontend/src/pages/AdminDashboard.tsx:96-111 | A non-empty password that differs from its confirmation gives "Passwords do not match". Otherwise the request holds the email, and the password only when it is non-empty. |
| ListEditor.SaveFieldLosesEditOnError | frontend/src/pages/AdminDashboard.tsx:138-145 | Counterexample: a refused save that drops the draft keeps the edit nowhere. |
| ListEditor.Dashboard.ActiveCms | frontend/src/pages/AdminDashboard.tsx:41 | The active hook is the global hook or the page hook. |
| ListEditor.Dashboard.SelectPage | frontend/src/pages/AdminDashboard.tsx:57-58 | Switching to another page switches the page hook and clears the drafts. Selecting the page already shown changes nothing, so its drafts stay. |
| ListEditor.Dashboard.GetDraftOrValue | frontend/src/pages/AdminDashboard.tsx:129-132 | Returns the draft when there is one, otherwise the active hook's `getContent`. |
| ListEditor.Dashboard.SetDraft | frontend/src/pages/AdminDashboard.tsx:134-136 | Only that key's draft changes. |
| ListEditor.Dashboard.SaveField | frontend/src/pages/AdminDashboard.tsx:138-145 | As written: without a draft nothing happens. With one, the value is upserted on the active page, and the draft is removed whether or not the write succeeded. A refused write leaves the store and the hook's loaded rows unchanged; an accepted one upserts and loads the refetch. |
| ListEditor.Dashboard.SaveFieldKeepingDraft | frontend/src/pages/AdminDashboard.tsx:138-145 | Corrected: the draft is removed only after a successful write, so the edit is always either stored or still drafted. A refused write leaves the store and the hook unchanged; an accepted one upserts the draft on the active page and loads the refetch. |
| ListEditor.Dashboard.SaveAllDrafts | frontend/src/pages/AdminDashboard.tsx:147-161 | Without drafts nothing happens. Otherwise the drafts are batch-saved and cleared exactly when no error is reported; then every draft is stored. On an error, as many drafts as the store accepted are stored. Either way no other row and no image changes. |
| ListEditor.SendDrafts | frontend/src/pages/AdminDashboard.tsx:150-153 | The batch of drafts stores one set of drafts, as many as the writes before the first refusal, and nothing else. With no refusal every draft is stored and the hook holds the refetch. |
| ListEditor.DraftPrefixWritten | frontend/src/pages/AdminDashboard.tsx:150-153 | The first f items of a batch of drafts store exactly f of the drafts, each with its value, and leave every other (page, key) as it was. |
| ListEditor.Dashboard.HandleUpdateProfile | frontend/src/pages/AdminDashboard.tsx:94-123 | A password mismatch sends nothing. Otherwise the request is sent, and the password fields are cleared only when it succeeds. |
| ListEditor.Dashboard.GetListItemCount | frontend/src/pages/AdminDashboard.tsx:194-202 | The loop with a break returns `ListItemCount` over the active hook's rows and the drafts. |
| ListEditor.Dashboard.AddListItem | frontend/src/pages/AdminDashboard.tsx:204-217 | A section without a list is untouched. Otherwise the new item's rows are batch-upserted at the current count. |
| ListEditor.Dashboard.DeleteListItem | frontend/src/pages/AdminDashboard.tsx:219-234 | Without a list key or confirmation nothing changes. Otherwise every content and image row under `L_i_` that the store accepts to delete is gone, the rest stay, and the hook holds what the final refetch returned. |
| ListEditor.DeleteContentRows | frontend/src/pages/AdminDashboard.tsx:224-226 | The loop removes exactly the listed rows the store did not refuse. |
| ListEditor.DeleteImageRows | frontend/src/pages/AdminDashboard.tsx:228-230 | The same for image rows. |
| ListEditor.DraftItems | frontend/src/pages/AdminDashboard.tsx:150-152 | Builds one text item per draft key on the active page. |
| LegacyEditor.UploadPath | src/pages/AdminDashboard.tsx:80 | The upload path lies under the page's folder. |
| LegacyEditor.Editor.SelectPage | src/pages/AdminDashboard.tsx:134 | A sidebar button makes the chosen page active with that page's hook, over the same store. Choosing the page already shown keeps the hook. |
| LegacyEditor.Editor.HandleAddContent | src/pages/AdminDashboard.tsx:48-55 | A blank key or value after trimming does nothing. Otherwise the trimmed pair is upserted on the active page and both fields are cleared. A refused write leaves the store and the hook's loaded rows unchanged. |
| LegacyEditor.Editor.AddPair | src/pages/AdminDashboard.tsx:50-54 | The write step of `handleAddContent` for non-blank inputs: both fields are cleared and saving ends. A refused write leaves the store and the hook unchanged; an accepted one upserts the pair on the active page and loads the refetch. |
| LegacyEditor.Editor.HandleSaveEdit | src/pages/AdminDashboard.tsx:57-62 | Upserts under the edited row's own key, type and page, then leaves edit mode. A refused write leaves the store and the hook unchanged. |
| LegacyEditor.SaveEditRewritesRow | src/pages/AdminDashboard.tsx:59 | Saving an edit rewrites exactly that row in place. |
| LegacyEditor.Editor.HandleDeleteContent | src/pages/AdminDashboard.tsx:64-68 | Without confirmation, or on a refused delete, neither the store nor the hook changes. Otherwise exactly the row with the id is deleted and the refetch is loaded. |
| LegacyEditor.Editor.HandleDeleteImage | src/pages/AdminDashboard.tsx:70-74 | The same for an image row. |
| LegacyEditor.Editor.HandleFileUpload | src/pages/AdminDashboard.tsx:76-88 | Without a file or a pending key nothing happens. Otherwise an image row is recorded only when the upload returned a URL, and the pending key is always cleared. A refused upload or upsert leaves the store and the hook unchanged. |
| LegacyEditor.Editor.StartImageUpload | src/pages/AdminDashboard.tsx:90-93 | The pending key becomes the chosen key. |
| LegacyEditor.Editor.HandleAddNewImage | src/pages/AdminDashboard.tsx:95-100 | A blank key does nothing. Otherwise the pending key is the trimmed input and the field is cleared. |
| EmailService.Rows | backend/services/email.js:32-37 | One row per entry; no entries give no rows. |
| EmailService.AdminEmailTemplate | backend/services/email.js:31-58 | The notification opens with the fixed head, the title and the table header, and closes with the fixed tail, whatever the entries. |
| EmailService.TakeUntil | backend/services/email.js:34-35 | Returns the longest prefix free of the character. |
| EmailService.ParseRowsOfRows | backend/services/email.js:32-37 | Reading the rows back gives exactly the entries, in order. |
| EmailService.TemplateRoundTrip | backend/services/email.js:31-58 | From a notification built from markup-free text, the `h2` title and exactly the entries, in order and verbatim, read back. |
| EmailService.FramedRoundTrip | backend/services/email.js:39-57 | The title and the rows are recovered from between the fixed frame pieces. |
| EmailService.TemplateFrame | backend/services/email.js:39-57 | Two notifications with the same title share the same frame, including the `Field`/`Details` header, and differ only in their rows. |
| EmailService.Mailer.SendEmail | backend/services/email.js:15-29 | Returns true exactly when the transport succeeds; only a sent mail is added to the outbox. Nothing is thrown. |
| LeadModels.Pick | backend/routes/contact.ts:9-17 | A destructured-and-rebuilt body keeps exactly the listed fields it had. |
| LeadModels.AdmissionValidIff | backend/models/Admission.js:4-11 | An admission is valid exactly when its seven required fields are present and non-empty. |
| LeadModels.AdmissionOptionalFields | backend/models/Admission.js:7-12 | `email` and `previousSchool` never decide validity. |
| LeadModels.AdmissionDefaults | backend/models/Admission.js:13-14 | `status` defaults to `pending`, and `date` is the creation time. |
| LeadModels.EnquiryValidIff | backend/models/Enquiry.js:4-6 | An enquiry is valid exactly when `name` and `phone` are given. |
| LeadModels.EnquiryOptionalFields | backend/models/Enquiry.js:5-9 | `email`, `message`, `class` and `preferredDate` never decide validity. |
| LeadModels.EnquiryDefaults | backend/models/Enquiry.js:10-11 | `type` defaults to `general`, and `date` is the creation time. |
| LeadModels.DemoValidIff | backend/models/Demo.js:4-7 | A demo booking is valid exactly when its four fields are given. |
| LeadModels.DemoKeepsOnlyItsFields | backend/models/Demo.js:3-9 | A demo keeps only its four fields and the creation time; it has no status or type. |
| LeadModels.ContactValidIff | backend/routes/contact.js:11-12 | A contact message is valid exactly when `name`, `email` and `message` are given. The Contact model is not part of this model, so its fields are assumed. |
| LeadModels.SchemasAreStrict | backend/routes/admission.js:11 | Fields outside a schema never reach the document. |
| LeadModels.SortNewestFirst | backend/routes/demo.js:44 | The listing is a permutation of the documents, sorted by date, newest first. |
| LeadModels.Collection.Save | backend/routes/admission.js:11-12 | A schema rejection or a database error stores nothing. Otherwise exactly the document is appended. |
| LeadModels.Collection.FindNewestFirst | backend/routes/enquiry.js:24 | Returns all documents newest first, and none exactly when the query fails. |
| LeadRoutes.DemoCheckIsSchema | backend/routes/demo.js:14 | The demo route's own check is exactly the schema's required fields. |
| LeadRoutes.SubmitDemo | backend/routes/demo.js:9-39 | A missing field gives 400 `{msg}` and nothing is saved. A save failure gives 500. Otherwise one Demo of the four fields is saved and 201 `{success, data}` is returned; the mail is tried but never changes the answer. |
| LeadRoutes.SubmitAdmission | backend/routes/admission.js:9-36 | The whole body goes to the schema. Rejection or a database error gives 500. Otherwise 201 with the record; the mail cannot change the answer. |
| LeadRoutes.SubmitContact | backend/routes/contact.js:9-33 | The same sequence for a contact message, answered 201. |
| LeadRoutes.SubmitContactTs | backend/routes/contact.ts:8-25 | Only name, email, subject and message are saved; the answer is 200 or 500. |
| LeadRoutes.ContactTsDropsPhone | backend/routes/contact.ts:9-17 | The typed route stores the JavaScript route's document without its phone. |
| LeadRoutes.SubmitEnquiry | backend/routes/enquiry.js:8-19 | The whole body is saved as one Enquiry; the answer is 201 or 500. |
| LeadRoutes.SubmitEnquiryTs | backend/routes/enquiry.ts:8-28 | The seven picked fields are saved; the answer is 200 or 500. |
| LeadRoutes.EnquiryTsStoresSame | backend/routes/enquiry.ts:9-20 | The explicit pick keeps every schema field, `class` included, so both enquiry routes store the same document. |
| LeadRoutes.ListNewestFirst | backend/routes/demo.js:42-50 | A list route returns 200 with every document newest first, or 500 when the query fails. |
| LeadRoutes.DemoNoticeShowsBooking | backend/routes/demo.js:23-28 | The demo notification shows the four booked fields in order. |
| LeadRoutes.AdmissionNoticeEmail | backend/routes/admission.js:16-25 | The admission notification has eight rows, and its Email row shows `N/A` for a missing or empty email. |
| LeadRoutes.ContactNoticeDefaults | backend/routes/contact.js:16-22 | The contact notification has five rows, showing `N/A` for a missing phone and `Website Contact` for a missing subject. |
| FormEmail.OrNull | backend/supabase/functions/send-form-email/index.ts:32-36 | `v || null` is null exactly when the field is absent or empty. |
| FormEmail.SubmissionNulls | backend/supabase/functions/send-form-email/index.ts:29-37 | An absent optional field is stored as null. |
| FormEmail.Serve | backend/supabase/functions/send-form-email/index.ts:9-58 | OPTIONS answers at once. An unparsable body gives 500, and a missing name or form type gives 400 with nothing inserted. Otherwise one row is inserted (unless the insert fails) and success is answered either way. Every answer carries the CORS headers. |
| AuthRoutes.ClaimsFor | backend/routes/auth.js:27-37 | The token payload is `{user: {id, role}}`, with `exp` one hour after `iat`. |
| AuthRoutes.FindByEmail | backend/routes/auth.js:15 | Returns the first user with the email. An `undefined` email matches the first user. |
| AuthRoutes.FindById | backend/routes/auth.js:55 | Returns a user with the id, or none exactly when there is none. |
| AuthRoutes.Login | backend/routes/auth.js:10-47 | An unknown email and a wrong password give the same 400 `Invalid credentials`. A token is issued exactly when the user exists, the password matches and signing succeeds. A database error, a missing password for a known user and a failed signing each give 500. |
| AuthRoutes.Updated | backend/routes/auth.js:60-64 | The email is replaced only by a non-empty email. The password is re-hashed with a cost-10 salt only for a non-empty password. |
| AuthRoutes.EmptyUpdateIsIdentity | backend/routes/auth.js:60-67 | An update without a new email or password leaves the user as it was. |
| AuthRoutes.UpdateProfile | backend/routes/auth.js:50-72 | 404 for a missing user and 500 on a database error, with nothing changed. Otherwise only that user is replaced by its update, and 200 is answered. |
| AuthRoutes.Public | backend/routes/auth.js:77 | The public view keeps id, email and role, and drops the password. |
| AuthRoutes.Me | backend/routes/auth.js:75-83 | Returns the user without the password, `null` when no user has the id, and 500 on a database error. |
| AdminSeed.SeedCount | backend/scripts/seedAdmin.js:16-36 | After seeding there is at least one account with the admin email, and a new one only if there was none. |
| AdminSeed.SeedTwice | backend/scripts/seedAdmin.js:16 | A second run adds no user and no account with the email. |
| AdminSeed.CountEmailUpdate | backend/scripts/seedAdmin.js:20-22 | Re-hashing the found user's password does not change the number of accounts with the email. |
| AdminSeed.SeedAdmin | backend/scripts/seedAdmin.js:8-43 | An error exits with 1 and writes nothing. Otherwise an existing admin gets only its password reset, and otherwise one admin is created. |
| SetupAdmin.FindEmail | supabase/functions/setup-admin/index.ts:23 | Returns the first user with the email, or none exactly when there is none. |
| SetupAdmin.UpsertRole | supabase/functions/setup-admin/index.ts:40-42 | The role row is present afterwards, and no row is lost or invented. |
| SetupAdmin.UpsertRoleOnce | supabase/functions/setup-admin/index.ts:40-42 | The upsert on (user id, role) leaves exactly one admin-role row for the user. |
| SetupAdmin.Setup | supabase/functions/setup-admin/index.ts:8-60 | OPTIONS answers at once. An existing admin's id is reused; otherwise one user is created. The role is upserted, success returns the credentials, and any error gives 500 with its message. |
| AuthClient.GetAuthHeader | frontend/src/services/api.ts:7-10 | The header has at most one key. It is empty exactly when no non-empty token is stored, and otherwise it is `Authorization: Bearer <token>`. |
| AuthClient.HeaderCarriesToken | frontend/src/services/api.ts:9 | The credentials read back out of the header are the stored token. |
| AuthClient.StoredToken | frontend/src/services/api.ts:8 | A token is read exactly when the `token` item is stored. |
| AuthClient.Session.HasSession | frontend/src/hooks/useAuth.ts:84 | `session` is present exactly while signed in, and a session always has a stored token behind it: the class invariant `isAdmin ==> token stored` holds after the constructor and is kept by Mount, LoadCurrentUser, SignIn and SignOut. |
| AuthClient.Session.Mount | frontend/src/hooks/useAuth.ts:8-33 | Loading ends. Without a token nothing else changes. An accepted token signs in with a session, and a rejected token is removed and leaves no session. |
| AuthClient.Session.LoadCurrentUser | frontend/src/hooks/useAuth.ts:41-51 | When signed in with a token, whatever the `/me` body parses to becomes the current user, whatever the status: an error body too. A body that does not parse, or no token or no sign-in, leaves the current user as it was. |
| AuthClient.Session.SignIn | frontend/src/hooks/useAuth.ts:53-73 | A thrown fetch gives "Network error". A refused login gives the server message or "Login failed" and stores nothing. A successful one stores the token and opens a session. |
| AuthClient.Session.SignOut | frontend/src/hooks/useAuth.ts:75-80 | The token and the user are dropped, the session signs out, and later requests carry no header. |
| AuthClient.SignInThenHeader | frontend/src/hooks/useAuth.ts:67 | After a token is stored, every protected request carries it. |
| MongoClient.Connection.GetDb | backend/mongo-client.ts:21-24 | Returns the handle when one exists, otherwise the "not connected" error. |
| MongoClient.Connection.Connect | backend/mongo-client.ts:9-19 | The first call creates a client; later calls reuse it without creating another. The handle names the configured database. |
| MongoClient.Connection.Close | backend/mongo-client.ts:26-32 | The client and the handle are reset, and `getDb` refuses afterwards. |
| MongoClient.Lifecycle | backend/mongo-client.ts:9-32 | `getDb` refuses before connect, returns the handle after it, and refuses again after close. |
| ServerConfig.TrimmedNonEmptyMembers | backend/server.js:24 | An origin survives exactly when it is the non-empty trim of some comma-separated piece. |
| ServerConfig.EntriesTrimmed | backend/server.js:24 | Every surviving origin is non-empty and already trimmed. |
| ServerConfig.AllowedOrigins | backend/server.js:24-29 | The origins are the trimmed non-empty pieces of `FRONTEND_URL` in order, or the two local origins when none is left. They are never empty and contain no comma. |
| ServerConfig.UnsetGivesDefaults | backend/server.js:24-29 | An unset `FRONTEND_URL` leaves no piece, so the defaults are used. |
| ServerConfig.Port | backend/server.js:19 | The port is `PORT` when it is a non-zero number, otherwise 5000. |
| ServerConfig.StartServer | backend/server.js:50-61 | The server listens on all interfaces once connected, and exits with 1 exactly when connecting fails. |
| AdmissionPage.EnquiryBody | frontend/src/pages/Admission.tsx:67 | Sends the four form fields under their names plus `type: general`: every enquiry schema key but email and preferred date. |
| AdmissionPage.DemoBody | frontend/src/pages/Admission.tsx:88-95 | Sends the four booked fields plus `type: demo` and `message: Demo Class Request`: every enquiry schema key but email. |
| AdmissionPage.AdmissionBody | frontend/src/pages/Admission.tsx:116 | Sends the nine form fields under their names: every admission schema key but the defaulted `status`. |
| AdmissionPage.ChooseList | frontend/src/pages/Admission.tsx:54-58 | The CMS list is used when non-empty, otherwise the defaults. |
| AdmissionPage.IconsCycle | frontend/src/pages/Admission.tsx:147 | Step icons repeat every four steps and start with the four icons in order. |
| AdmissionPage.DemoBookingIsDemoEnquiry | frontend/src/pages/Admission.tsx:85-95 | A demo booking reaches the enquiry schema as type `demo` with message `Demo Class Request`, and is valid exactly when name and phone are filled. |
| AdmissionPage.EnquiryFormIsGeneral | frontend/src/pages/Admission.tsx:67 | The enquiry form is stored as type `general`. |
| AdmissionPage.BlankEmailShowsNA | backend/routes/admission.js:20 | A blank email in the admission form becomes `N/A` in the notification. |
| AdmissionPage.AdmissionPageState.HandleEnquiry | frontend/src/pages/Admission.tsx:60-79 | Posts the form plus `type: general`. Only an ok answer resets the form and marks it submitted; the submitting flag is cleared on both paths. |
| AdmissionPage.AdmissionPageState.HandleDemo | frontend/src/pages/Admission.tsx:81-107 | The same for the demo form and its six-field body. |
| AdmissionPage.AdmissionPageState.HandleAdmission | frontend/src/pages/Admission.tsx:109-131 | The same for the admission form. |
| FacilitiesPage.Highlights | frontend/src/pages/Faculty.tsx:98 | An absent or empty value gives no highlights; otherwise there is one trimmed highlight per comma-separated piece. |
| FacilitiesPage.ImageAt | frontend/src/pages/Faculty.tsx:99 | A card uses the non-empty CMS image at its index, else fallback `i mod 8`. |
| FacilitiesPage.Facilities | frontend/src/pages/Faculty.tsx:91-103 | Defaults are used only without CMS items. Otherwise there is one card per item, in order, built from that item and its index. |
| FacilitiesPage.CardsCycle | frontend/src/pages/Faculty.tsx:100-101 | Icon, colours and fallback image repeat every eight cards. |
| FacilitiesPage.Stats | frontend/src/pages/Faculty.tsx:88-89 | CMS stats are used when present, otherwise the four defaults. |
| GalleryPages.Categories | frontend/src/pages/Gallery.tsx:39-40 | There is one trimmed category per comma-separated piece of the stored string. |
| GalleryPages.Paired | frontend/src/pages/Gallery.tsx:47-50 | The CMS items are paired with the image at the same index, or `""`. |
| GalleryPages.WithImageMembers | frontend/src/pages/Gallery.tsx:51 | Exactly the pairs with a non-empty image are kept. |
| GalleryPages.BlankImagesShowNothing | frontend/src/pages/Gallery.tsx:45-52 | With CMS items but only blank images, the gallery is empty; the defaults are not used. |
| GalleryPages.OfCategoryMembers | frontend/src/pages/Gallery.tsx:54 | A category filter keeps exactly the images of that category. |
| GalleryPages.FilteredIsSubsequence | src/pages/Gallery.tsx:37 | The filtered list is a subsequence of the images, and `All` returns all of them. |
| GalleryPages.UnusedCategoryIsEmpty | src/pages/Gallery.tsx:37 | A category no image has gives an empty list. |
| GalleryPages.StaticFilter | src/pages/Gallery.tsx:15-37 | `All` shows all twelve static images, and a filter that is no known category shows none. |
| Carousel.Prev | src/pages/Index.tsx:180 | "Previous" from 0 goes to `length - 1`, otherwise one back; it stays in range. |
| Carousel.Next | src/pages/Index.tsx:195 | "Next" from `length - 1` goes to 0, otherwise one forward; it stays in range. |
| Carousel.StepsAreRotation | src/pages/Index.tsx:180-195 | Next is `+1 mod length` and Prev is `-1 mod length`. |
| Carousel.PrevNextInverse | src/pages/Index.tsx:180-195 | Prev and Next undo each other. |
| Carousel.NextTimesIsShift | src/pages/Index.tsx:195 | k presses of Next (k < length) advance by k, wrapping once. |
| Carousel.FullTurn | src/pages/Index.tsx:195 | `length` presses of Next return to the start. |
| Carousel.TestimonialCarousel.ShowPrevious | src/pages/Index.tsx:180 | The left arrow moves to `Prev` of the shown index and stays in range. |
| Carousel.TestimonialCarousel.ShowNext | src/pages/Index.tsx:195 | The right arrow moves to `Next` of the shown index and stays in range. |
| Carousel.TestimonialCarousel.Select | src/pages/Index.tsx:189 | A dot selects its own index, which is in range. |

## Left out

- I/O, networking, SMTP, the database driver and storage upload are abstract. Their outcomes are parameters: failure flags, a `FetchOutcome`, or a `Refetch` saying which queries of a refetch failed.
- A batch of writes (a list item's rows, the drafts, a list item's deletes) refetches after each accepted write. Each refetch replaces the whole loaded state, so the model gives only the last refetch's outcome.
- bcrypt hashing and comparison, and token signing, are uninterpreted function parameters. The JWT secret and token verification are not modelled.
- `Date.now()` is the parameter `now`. The `date` a client may send in a body is not modelled; the stored date is always `now`.
- Fixed e-mail addresses and passwords in the seed script, the setup function and the notification fallback are parameters. They are not reproduced as constants.
- React rendering, routing, toasts, the scroll animation, `AnimatedCounter`, `PopupBanner` and the login page components have no statable behaviour here.
- Request bodies are maps from strings to strings. Non-string JSON values are not modelled.
- The auth middleware, the User model and the Contact model are not part of this model.
  - Users are records `(id, email, password, role)`.
  - Contact's required fields (name, email, message) and its optional phone and subject are assumed.
- SetupAdmin.Setup: `listUsers()` (supabase/functions/setup-admin/index.ts:22-23) is called without paging arguments. The model takes it to return every user, and `FindEmail` searches that whole list; a user beyond the first page is not modelled.
- `getListItems` and `getListImages` are not part of this model; the pages take the list items and images they return as inputs.
- CmsStore.CmsHook.BatchUpsertContent: `batchUpsertContent` is not part of this model. It is modelled as upserts in order that stop at the first failure, because its callers rely only on the error it returns.
- The two queries of `fetchContent` run in parallel in the source. They are modelled one after the other.
- Concurrent edits and interleaved requests are not modelled.
- The CORS middleware, express wiring, DNS setup, `backend/server.ts` and `backend/config/db.js` are connection setup.
  - Only the origin list, the port and the exit on a failed connection are modelled.
  - `backend/server.js` mounts only the auth, enquiry and contact routers (lines 41-43); the demo and admission routes are modelled on their own.
- The list routes sit behind the auth middleware, which is not part of this model. `ListNewestFirst` models the route body only.
- AuthRoutes.Login: an error thrown inside the signing callback is answered 500. In the source it may escape the surrounding `try`.
- The newer editor's own image upload and image delete handlers (frontend/src/pages/AdminDashboard.tsx:163-192) are not modelled. They repeat the older editor's `handleFileUpload`, `startImageUpload` and `handleDeleteImage`, which are modelled.
- The console warning for a missing API URL (frontend/src/services/api.ts:3-5) has no effect on the model.
- The default facility, stat and gallery texts are parameters or short constants. Icons, colours and fallback images are named constants, not asset files.
- CmsConfig.ConfigWellFormed: distinctness is checked within each page's sections and within each list item. It is not checked across the static keys of different sections.
- ServerConfig.Port: the parsed `PORT` is an integer. A fractional value, which `Number(...)` keeps and `listen` then receives, is not modelled.
- Integers are unbounded. No operation of the core depends on a machine-width integer.

## Findings

| source | as written | input that shows it | evidently intended | confidence | as-written member | corrected member |
|---|---|---|---|---|---|---|
| frontend/src/pages/AdminDashboard.tsx:138-145 | `saveField` removes the draft after `upsertContent` whether or not the store returned an error, and it still reports "Saved!" | An empty store, the draft `hero_title := "New title"` on page `home`, and a refused write: afterwards the value is neither stored nor drafted | Keep the draft when the write fails, so that an edit is never lost | medium, not executed | ListEditor.Dashboard.SaveField, ListEditor.SaveFieldLosesEditOnError | ListEditor.Dashboard.SaveFieldKeepingDraft |
