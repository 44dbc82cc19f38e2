# Normandie Coiffure site: the data hooks and their screens, in Dafny

The salon's website keeps all its data in a hosted Postgres backend: services, gallery images, opening hours, the contact record and the editable site texts. It reads and writes that data through five React hooks, and shows it on public sections and admin screens. This project models these parts:

- the five hooks (`useServices`, `useGallery`, `useOpeningHours`, `useContactInfo`, `useSiteContent`);
- the gallery carousel;
- the public contact and services sections;
- the five admin managers (hours, content, services, gallery, contact).

It then proves what they promise.

How the model is built:

- **Backend.** Each remote table is a sequence of rows held beside the hook's own state. Every remote call takes a `Status`: `Ok`, or `Err(Failure(code, message, isError))`.
  - When the call succeeds, the backend's effect is a function of the table. A `select ... order(key)` is the table's rows sorted by `key` (`Remote.SortBy`). An update by id rewrites the matching rows. A delete removes them. An insert appends. An upsert on `(section, key)` updates the matching row or inserts one.
  - `isError` says whether the thrown value is an `Error` instance. It decides whether the hook stores the backend's message or its own fallback text.
- **Hooks.** Each hook is a class with the hook's state variables as fields, plus the remote table. Each hook function is a method, stated against a pure transition function on a `Cache` value: `ensures State() == Fetch(old(State()), read)`.
  - The transition functions compose into `Run` over a sequence of calls `Op`. The invariants about whole sessions are proved over `Run`: the error is sticky, the public list is ordered and active, the content table stays unique, and at most one contact row exists.
- **Managers.** Each manager is a class holding its form or buffer state and a reference to the hook it drives. Its handlers are methods that change the form and call the hook's methods.
- **Pure helpers** are functions with lemmas about them: `getDayName`, `formatTime`, the file extension, `getContent`, `getGradientClass`, the hours display rule and the carousel arithmetic.
- **Sticky errors.** No fetch clears `error` on success: `useServices.ts:19` and the other fetches set only the data. `ErrorNeverCleared` proves the consequence for every hook: once an error is shown, it stays until the page reloads.

The admin services screen reuses the public hook, which keeps only active services. So a service saved with `is_active = false` disappears from the admin list too (`ServicesHook.DeactivatedHidden`).

## Model

| member | source | states |
|---|---|---|
| Wrappers.OrElse | src/hooks/useSiteContent.ts:60 | JavaScript's logical or of a nullable string with a default `d`: the value when it is present and non-empty, `d` when it is `null` or `''`, and nothing else |
| Remote.Caught | src/hooks/useServices.ts:20-21 | a caught failure always sets `error` to a non-null text: the thrown message for an `Error` instance, the hook's fallback otherwise |
| Remote.SortBy | src/hooks/useServices.ts:16 | `order(key, ascending)` returns a permutation of the rows (same multiset) that is non-decreasing in the key |
| Remote.InsertBySorted | src/hooks/useGallery.ts:15 | inserting a row into a sorted result keeps it sorted (the proof step behind `SortBy`) |
| ServicesHook.Active | src/hooks/useServices.ts:15 | `.eq('is_active', true)` keeps exactly the active rows |
| ServicesHook.ActiveByOrder | src/hooks/useServices.ts:12-16 | the public query returns exactly the active rows, ordered by `order_index`, as a permutation of the active rows |
| ServicesHook.UpdateById | src/hooks/useServices.ts:33-36 | the update rewrites every row with the id and leaves every other row as it was, at the same position |
| ServicesHook.DeleteById | src/hooks/useServices.ts:60-63 | the delete removes exactly the rows with the id and keeps every other row |
| ServicesHook.FetchOutcomes | src/hooks/useServices.ts:9-25 | success lists exactly the active rows in order and leaves `error` as it was; failure keeps the list and sets the message or `Une erreur est survenue`; `loading` ends false either way |
| ServicesHook.ServicesStayPublic | src/hooks/useServices.ts:5-25 | from the initial state, after any sequence of calls and outcomes, the cached list holds only active services in `order_index` order |
| ServicesHook.PublicViewKept | src/hooks/useServices.ts:9-70 | every call preserves "active and ordered" for the cached list |
| ServicesHook.ErrorNeverCleared | src/hooks/useServices.ts:19 | once `error` is set, no later call of any kind clears it |
| ServicesHook.SuccessesKeepError | src/hooks/useServices.ts:18-19 | calls whose remote steps all succeed leave `error` exactly as it was, whether set or not |
| ServicesHook.CreatedShownIffActive | src/hooks/useServices.ts:45-56 | after a successful create and refetch, the new service is listed if and only if it is active |
| ServicesHook.DeactivatedHidden | src/hooks/useServices.ts:31-43 | after a successful update with `is_active = false`, no service with that id is listed |
| ServicesHook.DeletedHidden | src/hooks/useServices.ts:58-70 | after a successful delete, the list holds exactly the active rows with another id |
| ServicesHook.ServicesCache.constructor | src/hooks/useServices.ts:5-7 | the hook starts with `services = []`, `loading = true`, `error = null` |
| ServicesHook.ServicesCache.FetchServices | src/hooks/useServices.ts:9-25 | the new state is `Fetch` of the old one; `loading` is false and the table unchanged; a failure keeps the list and sets `error` |
| ServicesHook.ServicesCache.UpdateService | src/hooks/useServices.ts:31-43 | the new state is `Update` of the old one: on success update by id then refetch; on failure the list and table are kept and `Erreur lors de la mise à jour` or the message is set, with no refetch |
| ServicesHook.ServicesCache.CreateService | src/hooks/useServices.ts:45-56 | the new state is `Create` of the old one: on success insert then refetch; on failure only `error` changes, to `Erreur lors de la création` or the message |
| ServicesHook.ServicesCache.DeleteService | src/hooks/useServices.ts:58-70 | the new state is `Delete` of the old one: on success delete by id then refetch; on failure only `error` changes, to `Erreur lors de la suppression` or the message |
| GalleryHook.Extension | src/hooks/useGallery.ts:33 | `split('.').pop()` contains no dot, and is the whole name when the name has no dot |
| GalleryHook.ExtensionIsLastSegment | src/hooks/useGallery.ts:33 | the extension is a suffix of the name and, when the name has a dot, is preceded by one: it is the text after the last dot |
| GalleryHook.ExtensionAfterDot | src/hooks/useGallery.ts:33-34 | for a dot-free `e`, the extension of `t + "." + e` is `e`, whatever `t` holds |
| GalleryHook.StoragePath | src/hooks/useGallery.ts:33-35 | the upload goes under the `gallery/` folder; that it keeps the file's extension is `StoredFileKeepsExtension` |
| GalleryHook.StoredFileKeepsExtension | src/hooks/useGallery.ts:33-35 | the storage path `gallery/<token>.<ext>` has the uploaded file's extension, even though the random token itself contains a dot |
| GalleryHook.UpdateById | src/hooks/useGallery.ts:62-65 | the metadata update rewrites the rows with the id and keeps their `image_url`; other rows are unchanged |
| GalleryHook.DeleteById | src/hooks/useGallery.ts:76-79 | the delete removes exactly the rows with the id |
| GalleryHook.FetchOutcomes | src/hooks/useGallery.ts:9-24 | success lists every row, with no filter, in `order_index` order (a permutation of the table), and leaves `error` alone; failure keeps `images` and sets `error`; `loading` ends false |
| GalleryHook.OrderedAndFilesKept | src/hooks/useGallery.ts:9-86 | after any sequence of calls the images stay in `order_index` order, and no stored file is ever removed, not even by a row delete |
| GalleryHook.ErrorNeverCleared | src/hooks/useGallery.ts:18 | once `error` is set, no later call clears it |
| GalleryHook.UploadFailureKeepsRows | src/hooks/useGallery.ts:37-57 | when the storage upload fails, nothing is stored, inserted or refetched, and `error` is set; when only the insert fails, the file stays stored, no row is added, and `error` is set |
| GalleryHook.UploadedImageListed | src/hooks/useGallery.ts:30-54 | when every step succeeds, the file is stored at the path, and the row built from the metadata and the resolved public URL is listed after the refetch |
| GalleryHook.ImagesCache.constructor | src/hooks/useGallery.ts:5-7 | `images = []`, `loading = true`, `error = null` |
| GalleryHook.ImagesCache.FetchImages | src/hooks/useGallery.ts:9-24 | the new state is `Fetch` of the old one; `loading` false; table and bucket unchanged; a failure keeps `images` and sets `error` |
| GalleryHook.ImagesCache.UploadImage | src/hooks/useGallery.ts:30-58 | the new state is `Upload` of the old one: the file is stored at `StoragePath(token, name)`, then the row is inserted with the resolved URL, then the images are refetched; the first failing step ends the call with `Erreur lors de l'upload` or the message |
| GalleryHook.ImagesCache.UpdateImage | src/hooks/useGallery.ts:60-72 | the new state is `Update` of the old one; a failure keeps rows and images and sets `error` |
| GalleryHook.ImagesCache.DeleteImage | src/hooks/useGallery.ts:74-86 | the new state is `Delete` of the old one; the bucket is never touched; a failure keeps rows and images and sets `error` |
| OpeningHoursHook.UpdateDay | src/hooks/useOpeningHours.ts:32-35 | `.update(p).eq('day_of_week', d)` patches every row of day `d` (each present property replaces its column) and leaves the other rows unchanged |
| OpeningHoursHook.DayName | src/hooks/useOpeningHours.ts:44-47 | `days[d]` is defined exactly for `0 <= d < 7` |
| OpeningHoursHook.DayNamesDistinct | src/hooks/useOpeningHours.ts:45 | the seven weekdays get seven different names, `Dimanche` for 0 and `Samedi` for 6 |
| OpeningHoursHook.FormatTime | src/hooks/useOpeningHours.ts:49-52 | `''` for `null` or `''`; otherwise a prefix of the time of length at most 5: the first five characters of a longer string, a shorter one whole |
| OpeningHoursHook.FormatTimeIdempotent | src/hooks/useOpeningHours.ts:49-52 | formatting an already formatted time changes nothing |
| OpeningHoursHook.FetchOutcomes | src/hooks/useOpeningHours.ts:9-24 | success holds every row in weekday order (a permutation of the table) and leaves `error` alone; failure keeps `hours` and sets `error`; `loading` ends false |
| OpeningHoursHook.OrderedAndDaysKept | src/hooks/useOpeningHours.ts:9-42 | after any sequence of calls, `hours` is in weekday order, the table has the same number of rows, and each row keeps its weekday |
| OpeningHoursHook.ErrorNeverCleared | src/hooks/useOpeningHours.ts:18 | once `error` is set, no later call clears it |
| OpeningHoursHook.HoursCache.constructor | src/hooks/useOpeningHours.ts:5-7 | `hours = []`, `loading = true`, `error = null` |
| OpeningHoursHook.HoursCache.FetchHours | src/hooks/useOpeningHours.ts:9-24 | the new state is `Fetch` of the old one; `loading` false; a failure keeps `hours` and sets `error` |
| OpeningHoursHook.HoursCache.UpdateHours | src/hooks/useOpeningHours.ts:30-42 | the new state is `Update` of the old one: patch day `d` then refetch; a failure sets `error` and does not refetch |
| ContactInfoHook.Displayed | src/components/Contact.tsx:41 | a record field with its fallback, as the screens display it: the record's field when there is a record and the field is non-empty, the fallback otherwise |
| ContactInfoHook.Single | src/hooks/useContactInfo.ts:12-16 | `limit(1).single()` returns the first row without error when the call succeeds on a non-empty table, `PGRST116` for an empty table, and the call's own failure otherwise |
| ContactInfoHook.UpdateById | src/hooks/useContactInfo.ts:35-38 | the update rewrites only the rows with the cached record's id |
| ContactInfoHook.FetchOutcomes | src/hooks/useContactInfo.ts:9-25 | `PGRST116` (an empty table, or that code reported for the call) stores `null` and leaves `error` alone; any other failure keeps the record and sets `error`; a row read becomes the record; `loading` ends false |
| ContactInfoHook.WriteTargets | src/hooks/useContactInfo.ts:33-48 | with a record cached, the write changes only rows with its id and inserts nothing; with none cached, it appends exactly one row built from the fields |
| ContactInfoHook.ErrorNeverCleared | src/hooks/useContactInfo.ts:19 | once `error` is set, no later call clears it |
| ContactInfoHook.SaveAfterFailedFetchInserts | src/hooks/useContactInfo.ts:18-47 | used on its own, the hook can create a second contact row: a failed first fetch leaves nothing cached, so the next save inserts |
| ContactInfoHook.ContactCache.constructor | src/hooks/useContactInfo.ts:5-7 | `contactInfo = null`, `loading = true`, `error = null` |
| ContactInfoHook.ContactCache.FetchContactInfo | src/hooks/useContactInfo.ts:9-25 | the new state is `Fetch` of the old one; `loading` false; table unchanged |
| ContactInfoHook.ContactCache.UpdateContactInfo | src/hooks/useContactInfo.ts:31-53 | the new state is `Update` of the old one: update by the cached id or insert, then refetch; a failed write keeps table and record and sets `error` |
| SiteContentHook.LastValue | src/hooks/useSiteContent.ts:19-25 | reference for "later rows overwrite": defined exactly when some row has `(s, k)`, and then it is the value of a row with `(s, k)` after which no row has `(s, k)` |
| SiteContentHook.Organize | src/hooks/useSiteContent.ts:19-25 | groups the rows by section, a later row overwriting an earlier one for the same key; its meaning is stated by `OrganizeIsLastValue` and `OrganizeSections` |
| SiteContentHook.OrganizeIsLastValue | src/hooks/useSiteContent.ts:19-25 | the grouped map holds `(s, k)` if and only if some row has it, and then it holds the last such row's value |
| SiteContentHook.OrganizeSections | src/hooks/useSiteContent.ts:19-25 | a section is in the grouped map if and only if some row has that section |
| SiteContentHook.OrganizeContent | src/hooks/useSiteContent.ts:19-25 | the `forEach` loop builds exactly the grouped map `Organize(rows)` |
| SiteContentHook.GetContent | src/hooks/useSiteContent.ts:59-61 | the stored value when the pair is present and non-empty; the default when the pair is absent or its value is empty |
| SiteContentHook.GetContentOfRows | src/hooks/useSiteContent.ts:59-61 | after a fetch, `getContent(s, k, d)` is the last row's value when it is non-empty and `d` otherwise, and `d` for a pair no row has |
| SiteContentHook.SetValue | src/hooks/useSiteContent.ts:43-50 | the conflict branch of the upsert gives the rows of `(s, k)` the new value and type `text`, and leaves every other row unchanged |
| SiteContentHook.Upsert | src/hooks/useSiteContent.ts:41-50 | the table keeps its length exactly when a row of `(s, k)` exists, and grows by one row otherwise; the rest is `UpsertSpec` |
| SiteContentHook.UpsertSpec | src/hooks/useSiteContent.ts:41-50 | after the upsert, `(s, k)` has a row; every row of it has the value and type `text`; other rows are unchanged; only a row of `(s, k)` can be added; a table with one row per pair keeps one row per pair |
| SiteContentHook.SetValueLastValue | src/hooks/useSiteContent.ts:43-50 | the conflict update changes the lookup of `(s, k)` to the new value and no other lookup |
| SiteContentHook.UpsertLastValue | src/hooks/useSiteContent.ts:41-53 | after the upsert, `(s, k)` reads the new value and every other pair reads what it read before |
| SiteContentHook.UpdatedContentIsServed | src/hooks/useSiteContent.ts:39-61 | after a successful update and refetch, `getContent(s, k, d)` is the value when it is non-empty (and `d` when it is empty), and every other pair is served as before |
| SiteContentHook.TableStaysUnique | src/hooks/useSiteContent.ts:41-50 | no sequence of calls gives the table two rows for one `(section, key)` |
| SiteContentHook.ErrorNeverCleared | src/hooks/useSiteContent.ts:27 | once `error` is set, no later call clears it |
| SiteContentHook.ContentCache.constructor | src/hooks/useSiteContent.ts:5-7 | `content = {}`, `loading = true`, `error = null` |
| SiteContentHook.ContentCache.FetchContent | src/hooks/useSiteContent.ts:9-33 | the new state is `Fetch` of the old one; `loading` false; a failure keeps `content` and sets `error` |
| SiteContentHook.ContentCache.UpdateContent | src/hooks/useSiteContent.ts:39-57 | the new state is `Update` of the old one; a failed upsert keeps table and content and sets `error`; when both calls succeed, `getContent(section, key)` returns the value |
| Carousel.EightItems | src/components/Gallery.tsx:10-59 | `galleryItems` has exactly eight entries, all of type `salon` |
| Carousel.JsRem | src/components/Gallery.tsx:62 | JavaScript's `%`: for a non-negative dividend, the Euclidean remainder in `[0, n)`; for a negative one, a value in `(-n, 0]` |
| Carousel.NextIndex | src/components/Gallery.tsx:62 | the next arrow's index stays in `[0, N)` from any non-negative index; the wrap-around is `ArrowsStayInRange` |
| Carousel.PrevIndex | src/components/Gallery.tsx:66 | the previous arrow's index stays in `[0, N)` from any non-negative index; the wrap-around is `ArrowsStayInRange` |
| Carousel.ArrowsStayInRange | src/components/Gallery.tsx:61-67 | from an index in `[0, N)`, both arrows stay in `[0, N)`; next wraps `N-1` to 0, prev wraps 0 to `N-1`, and otherwise they add or subtract one |
| Carousel.PrevUndoesNext | src/components/Gallery.tsx:61-67 | prev after next, and next after prev, is the identity on `[0, N)` |
| Carousel.NextTimesAdvances | src/components/Gallery.tsx:62 | pressing next `k` times from `i` gives `(i + k) mod N` |
| Carousel.FullTurn | src/components/Gallery.tsx:62 | `N` presses of next come back to the starting slide |
| Carousel.Title | src/components/Gallery.tsx:75 | the heading is never empty, and is the stored `gallery.title` when that is non-empty |
| Carousel.Description | src/components/Gallery.tsx:79 | the text is never empty, and is the stored `gallery.description` when that is non-empty |
| Carousel.ReachableInBounds | src/components/Gallery.tsx:88-100 | any sequence of arrow presses and indicator or thumbnail clicks keeps the index inside `galleryItems`, so the main picture and captions always exist |
| Carousel.Slides.constructor | src/components/Gallery.tsx:7 | `currentSlide` starts at 0 |
| Carousel.Slides.NextSlide | src/components/Gallery.tsx:61-63 | `currentSlide` becomes `(prev + 1) % N` and stays in range |
| Carousel.Slides.PrevSlide | src/components/Gallery.tsx:65-67 | `currentSlide` becomes `(prev - 1 + N) % N` and stays in range |
| Carousel.Slides.Shown | src/components/Gallery.tsx:88-100 | the picture on screen is one of `galleryItems` |
| Carousel.Slides.SelectSlide | src/components/Gallery.tsx:130-133 | a click on the indicator or thumbnail at `index` sets `currentSlide` to that index |
| HoursManager.Toggled | src/components/admin/HoursManager.tsx:9-19 | toggling sets `is_open`; opening keeps a non-empty buffered time and fills `09:00` or `18:00` otherwise, without looking at the stored row; closing nulls both times |
| HoursManager.ToggleOffThenOn | src/components/admin/HoursManager.tsx:14-16 | closing and then reopening a day resets its times to `09:00` and `18:00` |
| HoursManager.WithTime | src/components/admin/HoursManager.tsx:21-29 | a time change sets only the chosen field of the day's buffer and keeps its other fields |
| HoursManager.FindDay | src/components/admin/HoursManager.tsx:48 | `hours.find` returns a row of that day when there is one, and nothing exactly when no row has that day |
| HoursManager.CurrentValue | src/components/admin/HoursManager.tsx:43-50 | the buffered field when the buffer defines it; otherwise the stored row's field for that day; `null` when there is no such row |
| HoursManager.TimeChangeShown | src/components/admin/HoursManager.tsx:21-29 | after a time change, that input shows the new time, and every other day and field shows what it showed before |
| HoursManager.SavedDayShown | src/components/admin/HoursManager.tsx:31-50 | after a save in which both calls succeed, each field the buffer held is what the screen shows for that day, now read from the refetched rows |
| HoursManager.HoursEditor.constructor | src/components/admin/HoursManager.tsx:7 | the buffer starts empty |
| HoursManager.HoursEditor.ToggleDay | src/components/admin/HoursManager.tsx:9-19 | only day `d` of the buffer changes, to `Toggled` of its previous buffer |
| HoursManager.HoursEditor.TimeChange | src/components/admin/HoursManager.tsx:21-29 | only day `d` of the buffer changes, to `WithTime` of its previous buffer |
| HoursManager.HoursEditor.Save | src/components/admin/HoursManager.tsx:31-41 | with no buffer for `d`, nothing changes; otherwise the hook runs `updateHours(d, buffer)` and only `d` is dropped from the buffer, whatever the outcome |
| ContentManager.EditKey | src/components/admin/ContentManager.tsx:57 | the buffer key is the section, one dot, then the key; `EditKeyInjective` and `EditKeyCollision` state when it identifies the field |
| ContentManager.IsEditing | src/components/admin/ContentManager.tsx:92-94 | a field is being edited when the buffer has its key; `ContentEditor.Edit` makes it true; `ContentEditor.Cancel` and `ContentEditor.Save` make it false |
| ContentManager.EditKeyInjective | src/components/admin/ContentManager.tsx:57 | for dot-free sections, `section + "." + key` determines both section and key |
| ContentManager.EditKeyCollision | src/components/admin/ContentManager.tsx:57 | for every `a`, `b` and `k`, section `a.b` with key `k` and section `a` with key `b.k` are different fields that share one buffer key |
| ContentManager.OfferedFieldsHaveOwnEntries | src/components/admin/ContentManager.tsx:9-51 | the fields the screen offers never share a buffer entry |
| ContentManager.EditingValue | src/components/admin/ContentManager.tsx:96-98 | the buffered value when the field is being edited, `''` otherwise |
| ContentManager.ContentEditor.constructor | src/components/admin/ContentManager.tsx:7 | the buffer starts empty |
| ContentManager.ContentEditor.Edit | src/components/admin/ContentManager.tsx:53-59 | only that field's entry changes, to `getContent(section, key)` with default `''`, and `isEditing` becomes true |
| ContentManager.ContentEditor.Change | src/components/admin/ContentManager.tsx:84-90 | only that field's entry changes, to the typed value |
| ContentManager.ContentEditor.Cancel | src/components/admin/ContentManager.tsx:75-82 | only that field's entry is removed |
| ContentManager.ContentEditor.Save | src/components/admin/ContentManager.tsx:61-73 | with no entry, nothing changes; otherwise the hook upserts the buffered value and only that entry is dropped; when both calls succeed, the page then reads the new value |
| ServicesManager.DefaultFormCreatesVisibleService | src/components/admin/ServicesManager.tsx:10-18 | a service added from the untouched form is active, so it is listed once the create and refetch succeed |
| ServicesManager.ServiceForm.constructor | src/components/admin/ServicesManager.tsx:8-18 | no id being edited, form hidden, fields at their defaults (`Scissors`, `general`, active, price and order 0) |
| ServicesManager.ServiceForm.OpenAddForm | src/components/admin/ServicesManager.tsx:77 | only `showAddForm` changes, to true |
| ServicesManager.ServiceForm.Edit | src/components/admin/ServicesManager.tsx:20-23 | `editingId` becomes the service's id and the form takes its columns |
| ServicesManager.ServiceForm.Save | src/components/admin/ServicesManager.tsx:25-42 | exactly one write: an update of `editingId` when it is set, a create otherwise; then the reset, whatever the outcome |
| ServicesManager.ServiceForm.Cancel | src/components/admin/ServicesManager.tsx:44-56 | the same reset, with no remote call |
| ServicesManager.ServiceForm.Delete | src/components/admin/ServicesManager.tsx:58-62 | the delete runs only when confirmed; otherwise the hook is unchanged |
| GalleryManager.PickedFile | src/components/admin/GalleryManager.tsx:52-56 | the first picked file when there is one; otherwise the current selection |
| GalleryManager.SaveDisabled | src/components/admin/GalleryManager.tsx:146 | the upload form's save button is disabled exactly when no file is selected; `ImageForm.Save` uploads when it is enabled and leaves the hook unchanged when it is disabled |
| GalleryManager.ImageForm.constructor | src/components/admin/GalleryManager.tsx:8-17 | no id being edited, form hidden, fields at their defaults (`salon`, not featured, order 0), no file |
| GalleryManager.ImageForm.OpenUploadForm | src/components/admin/GalleryManager.tsx:71 | only `showUploadForm` changes, to true |
| GalleryManager.ImageForm.Edit | src/components/admin/GalleryManager.tsx:19-22 | `editingId` becomes the image's id and the form takes its metadata |
| GalleryManager.ImageForm.FileChange | src/components/admin/GalleryManager.tsx:52-56 | `selectedFile` becomes the first picked file when there is one and is kept otherwise |
| GalleryManager.ImageForm.Save | src/components/admin/GalleryManager.tsx:24-31 | an update when an image is being edited, else an upload when the save button is enabled (`SaveDisabled` false), else no remote call; then the full reset |
| GalleryManager.ImageForm.Cancel | src/components/admin/GalleryManager.tsx:33-44 | the reset: nothing edited, form hidden, default fields, no file |
| GalleryManager.ImageForm.Delete | src/components/admin/GalleryManager.tsx:46-50 | the delete runs only when confirmed |
| ContactManager.DisplayedNeverEmpty | src/components/admin/ContactManager.tsx:135-155 | the displayed phone, email and address are never blank; without a record the phone and email read `Non défini` and the address `Non définie` |
| ContactManager.ConsistentKept | src/components/admin/ContactManager.tsx:44-50 | when saves happen only from the rendered form (neither loading nor in error), the table keeps at most one row, and whenever the form shows, the cached record is that row |
| ContactManager.SingleContactRow | src/components/admin/ContactManager.tsx:28-50 | starting from at most one contact row, saving through the screen never creates a second one |
| ContactManager.ContactForm.constructor | src/components/admin/ContactManager.tsx:7-12 | `editing` false and three empty fields |
| ContactManager.ContactForm.SyncFromContactInfo | src/components/admin/ContactManager.tsx:14-22 | a record copies its phone, email and address into the form; `null` leaves the form unchanged |
| ContactManager.ContactForm.Edit | src/components/admin/ContactManager.tsx:24-26 | `editing` becomes true and nothing else changes |
| ContactManager.ContactForm.Save | src/components/admin/ContactManager.tsx:28-31 | the hook runs `updateContactInfo(formData)`, then `editing` is false, whatever the outcome |
| ContactManager.ContactForm.Cancel | src/components/admin/ContactManager.tsx:33-42 | the form is restored from the record when there is one and kept otherwise; `editing` becomes false |
| ContactSection.HoursLabel | src/components/Contact.tsx:84-87 | the hours text is never empty; when it reads `Fermé` and when it shows the times is `HoursLabelRule` |
| ContactSection.HoursLabelRule | src/components/Contact.tsx:84-87 | a row reads `Fermé` if and only if the day is closed or a time is missing or empty; otherwise it is both formatted times, non-empty, around ` - ` |
| ContactSection.ContactFallbacks | src/components/Contact.tsx:41-61 | without a record the salon's fixed address, phone and email are shown; a stored non-empty field shows itself; no field is ever blank |
| ContactSection.Title | src/components/Contact.tsx:16 | never empty; the stored `contact.title` when that is non-empty |
| ContactSection.Description | src/components/Contact.tsx:20 | never empty; the stored `contact.description` when that is non-empty |
| ServicesSection.GradientClass | src/components/Services.tsx:9-18 | a known category gets its own gradient, and any other category the default |
| ServicesSection.GradientTable | src/components/Services.tsx:10-17 | the five categories map to their fixed gradients, and everything else maps to `from-amber-500 to-amber-600` |
| ServicesSection.CoupeLooksLikeDefault | src/components/Services.tsx:11-17 | a `coupe` card cannot be told apart from an unknown category |

## Left out

- Network, timeouts and the hosted SDK: each remote call is reduced to its outcome (`Status`), and its effect on the table is a function of the table.
- Concurrency: overlapping fetches, a fetch racing a write, and state updates after unmount are not modelled. Each hook call runs to completion before the next one starts. `loading` is set to true only inside the call, so its transient `true` is not observable in the model.
- React effects: the mount-time fetch of each hook, and the `contactInfo` effect of the contact screen, are methods that the caller invokes. The render gate (`if (loading)` and `if (error)` in every manager) is modelled for the contact screen only (`ContactManager.ManagedStep`), where it decides a property. On the other screens it changes no state.
- Values the program gets from outside are parameters:
  - the `Math.random()` token of the upload path;
  - the public URL returned by `getPublicUrl` (`resolve`);
  - the id the backend gives an inserted row (`newId`);
  - the answer of the `confirm()` dialog (`confirmed`);
  - the file list of the file input.
- Timestamps (`created_at`, `updated_at`) and the `data || []` and `null`-data cases of a successful query: the model's successful read always returns the table's rows.
- `price_from` is an `int`. The `parseFloat` of the price input is not modelled, because it is floating point.
- Partial records: `updateService`, `updateImage` and `updateContactInfo` are modelled with the full field records their screens always send. The hours buffer is the one truly partial record, and it is modelled as one (`Field`).
- Sort ties: the backend leaves the order of equal `order_index` values open. The model keeps table order for them.
- The message text of the backend's `PGRST116` failure: only its code is looked at.
- `PGRST116` for a failing call: `ContactManager.ConsistentKept` and `ContactManager.SingleContactRow` assume that a call failing for another reason does not report the "no rows" code (`NoSpuriousNoRows`).
- JavaScript prototype keys (for instance a category named `constructor` in `getGradientClass`, or a section named `__proto__`): lookups are modelled as plain map membership.
- `Carousel.Slides.SelectSlide` requires an index inside `galleryItems`, because the indicators and thumbnails are rendered only for those indices.
- Inline `onChange` setters of the admin forms, which only copy an input into `formData` or the hours buffer: they are plain field assignments.
- Lucide icon lookup, the JSX markup and styling, `AdminPanel.tsx` authentication, the Supabase client setup (`src/lib/supabase.ts`), and the static components (`Header`, `Hero`, `About`, `Footer`, `App` routing): none of them holds logic beyond layout or a foreign call.
