# Dental clinic site: API server and client rules, modelled in Dafny

The system is a dental clinic's website. The server stores gallery images as blobs with
French titles and captions. It also stores appointment requests and one administrator
account. A signed session cookie guards the admin routes. The browser side has a booking
form with a validation schema, an admin dashboard, a clinical-cases page built from the
gallery, and a before/after image slider.

This project models:

- **The API server** (`server.dfy`, module `Server`). The Image, Appointment and AdminUser
  tables are maps in class `Api`, and each has an auto-increment counter (`Listing.Table`).
  The routes that write are methods of `Api`: admin seeding, upload, caption edit, delete,
  booking, status change. Each method states its whole new state, and a response other
  than 200 leaves every table unchanged. The read-only routes are functions of the tables:
  login, logout, `/api/me`, the gallery listing, image fetch and the appointment listing.
  The export is a read-only method whose loop builds the spreadsheet rows. The token
  library, the password hasher and `new Date(...)` are function values supplied from
  outside (`verifyToken`, `hashPassword`/`compare`, `parseDate`). Creation times are
  parameters.
- **Listing order** (`listing.dfy`). Both listings sort by creation time descending, then
  id descending. This is an insertion sort, proved to list every row exactly once in that
  order. The order is unique.
- **Identifiers in text** (`decimal.dfy`). `String(id)` and the `/api/image/<id>` URL,
  with a parse that reads them back.
- **Calendar** (`calendar.dfy`). Dates are (year, month, day) triples. A day number counts
  days from 1970-01-01, and JavaScript's `getDay()` is computed from it. The `yyyy-mm-dd`
  text form has a format and a parse that round-trip.
- **The booking form schema** (`booking_form.dfy`). Name lengths, the phone pattern
  `^[+\d][\d\s-]{5,}$` (a small matcher), the `oui`/`non` choice, the "not a Friday" and
  "not before today" rules, and the calendar picker's `disabled` callback.
- **The admin dashboard's rules** (`admin_dashboard.dfy`). The upload pre-check, the
  "unsaved edits" flag of a gallery card, and the status selector's options.
- **The clinical-cases page** (`clinical_cases.dfy`). Gallery items become case stories,
  there is a placeholder on failure, and at most five cases are shown.
- **The before/after slider** (`before_after.dfy`). Class `Slider` has one position that
  stays within 0..100 across keyboard and pointer events.

Some code facts the model follows:

- The allowed CORS origins are a hard-coded list. The `CORS_ORIGINS` setting is read
  into a constant but never used.
- Editing or deleting a row that does not exist answers 500, not 404. The database
  client's "record not found" error lands in the route's catch block.
- A file the upload limits refuse (wrong type or over 10 MiB) is answered by Express's
  default error handler. Multer's errors carry no HTTP status, so that answer is a 500.
  It is not a 4xx.
- The booking route never sets `status`. PENDING comes from the column default in the
  database schema, and the model takes that default as given.
- The server does not apply the "no Fridays, no past days" rules to bookings. Only the
  form does.

## Model

| member | source | states |
|---|---|---|
| `Decimal.NatToDecimal` | server/index.js:154-155 | `String(id)` of an id is a non-empty run of digits with no leading zero |
| `Decimal.ParseNatToDecimal` | server/index.js:154-155 | the `public_id` text of an id reads back as exactly that id |
| `Decimal.NatToDecimalInjective` | server/index.js:154 | distinct ids get distinct `public_id` strings |
| `Listing.Table.Insert` | server/index.js:188-193 | an insert stores the row under a fresh id, never one in use, keeps every existing row as it was, adds exactly that key and advances the counter by one |
| `Listing.SortNewestFirst` | server/index.js:151 | sorting gives the same ids, each once, every earlier one created later or, at equal time, with the larger id |
| `Listing.NewestFirstIds` | server/index.js:149-152 | a table's listing order holds every row id exactly once (no repeats), ordered by (createdAt desc, id desc) |
| `Listing.NewestFirstUnique` | server/index.js:151 | two lists of the same ids both in that order are equal: the order fully determines the listing |
| `JsValues.Utf16Length` | src/pages/RendezVous.tsx:22-23 | a string's JavaScript length counts UTF-16 code units: at least its number of characters, at most twice that, and zero only for the empty string |
| `JsValues.Utf16LengthBmp` | src/pages/RendezVous.tsx:34-35 | on strings of Basic Multilingual Plane characters, the JavaScript length is the number of characters |
| `JsValues.LowerCase` | server/index.js:241 | lower-casing keeps the length and maps each character through the ASCII case mapping |
| `Server.CorsOrigin` | server/index.js:66-71 | a refused origin is always a present one, refused with "Not allowed by CORS: " plus the origin |
| `Server.DeployedCorsPolicy` | server/index.js:64-71 | with the hard-coded list, a request passes iff it has no origin (or an empty one) or comes from the deployed site |
| `Server.Authorized` | server/index.js:103-107 | the gate's test: a `token` cookie that is present, non-empty and accepted by the token verifier (no ensures; `GateFailure` and `MeAgreesWithGate` state what depends on it) |
| `Server.GateFailure` | server/index.js:103-109 | `requireAuth` lets a request through iff the `token` cookie is present, non-empty and verified; otherwise it answers 401 and leaves the cookie alone |
| `Server.Me` | server/index.js:140-144 | `/api/me` always answers 200 with an authentication flag and never touches the cookie |
| `Server.MeAgreesWithGate` | server/index.js:140-144 | `/api/me` says authenticated exactly when the gate would let a request through |
| `Server.Login` | server/index.js:123-133 | missing or empty email or password gives 400; an unknown email or a failed password check gives 401 with no cookie; success is 200 and the only path that sets the cookie |
| `Server.Logout` | server/index.js:135-138 | logout answers 200 and clears the cookie |
| `Server.LoginThenMe` | server/index.js:123-144 | after a successful login, `/api/me` with the cookie the browser now holds reports authenticated |
| `Server.FailedLoginKeepsCookie` | server/index.js:125-129 | a failed login leaves the browser's cookie as it was |
| `Server.LogoutThenMe` | server/index.js:135-144 | after logout, `/api/me` reports not authenticated, whatever token was held before |
| `Server.SeededAdminLogsIn` | server/index.js:46-58 | the seeded admin can log in with the configured password, given that the hasher's check accepts a password against its own hash |
| `Server.MulterCheck` | server/index.js:112-120 | an upload passes the limits iff its type is one of jpeg/png/webp and it has at most 10·1024·1024 bytes; a wrong type is reported as such even when oversized |
| `Server.NewImageRow` | server/index.js:185-189 | the stored row has the file's type and bytes, the upload time, and '' for a missing title or caption |
| `Server.GalleryItemOf` | server/index.js:153-159 | a listing item carries no bytes; its `public_id` reads back as the row id, `secure_url` is `/api/image/` + `public_id`, and a null title or caption becomes '' |
| `Server.ListGallery` | server/index.js:147-160 | every listed item is the item of a stored row, and the items are strictly ordered by (createdAt desc, id desc) |
| `Server.GalleryListsEveryImage` | server/index.js:149-159 | every stored image appears in the listing |
| `Server.FetchImage` | server/index.js:167-180 | a non-integer id gives 400 and an absent id gives 404; otherwise 200 with the stored type as Content-Type, the long-lived cache header and the stored bytes |
| `Server.UploadThenFetch` | server/index.js:167-198 | fetching the `public_id` an upload returned yields exactly the uploaded type and bytes, and the listed title is '' when none was sent |
| `Server.PatchedRow` | server/index.js:207-213 | the caption edit writes only the fields sent as strings; type, bytes, creation time and any field not sent as a string are unchanged |
| `Server.FirstTimeBool` | server/index.js:241 | a string flag is compared lower-cased with "oui", anything else by its truthiness (no ensures; `FirstTimeFromString` and `FirstTimeExamples` state its meaning) |
| `Server.RequiredPresent` | server/index.js:238 | the five required body fields are all truthy (no ensures; `Api.CreateAppointment` answers 400 exactly when it fails) |
| `Server.FirstTimeFromString` | server/index.js:241 | a string first-visit flag is stored as true iff it is "oui" in any mix of upper and lower case |
| `Server.FirstTimeExamples` | server/index.js:241 | "OUI" and "oui" give true; "non", "yes" and "" give false; a non-string gives its truthiness |
| `Server.StoredAppointment` | server/index.js:241-251 | a booking is storable iff names and phone are strings and both dates read; the row keeps the fields, has the normalised flag, status PENDING and the creation time |
| `Server.ParseStatus` | server/index.js:273-274 | a status is accepted iff it is exactly the string "PENDING" or "DONE", and it is read as the status of that name |
| `Server.StatusRoundTrip` | server/index.js:274 | each status's name is accepted back as that status |
| `Server.AppointmentOrder` | server/index.js:261 | the appointment order holds every row once, ordered by (createdAt desc, id desc) |
| `Server.ListAppointments` | server/index.js:259-267 | without a valid session the gate's 401 is returned; otherwise every item is a stored row with its id, strictly in (createdAt desc, id desc) order |
| `Server.ListingHasEveryAppointment` | server/index.js:261-262 | every stored appointment appears in the authorised listing |
| `Server.ExportRowOf` | server/index.js:300-310 | an export row carries the row's id, time, names, dates and phone, and a first-visit column that is "oui" or "non" |
| `Server.ExportRowReadsBack` | server/index.js:307-309 | the export's first-visit and status columns read back, by the server's own rules, as the stored flag and status |
| `Server.Api.InitDb` | server/index.js:46-58 | one admin (email, hash of the password) is seeded iff the admin table is empty and a non-empty password is configured; nothing else changes |
| `Server.Api.UploadImage` | server/index.js:182-203 | the gate comes first, so an unauthenticated upload gets 401 whatever the file; then the limits (500), a missing file (400); only success inserts one row with the file's type and bytes and returns its id and URL; any other answer changes nothing |
| `Server.Api.PatchImage` | server/index.js:205-219 | 401 without a session; 400 for a non-integer id; 500 for an absent row; otherwise only that row changes, by the partial update; failures change nothing |
| `Server.Api.DeleteImage` | server/index.js:221-232 | 401 without a session; 400 for a non-integer id; 500 for an absent row; otherwise exactly that row is removed |
| `Server.Api.CreateAppointment` | server/index.js:235-257 | a falsy required field gives 400 and stores nothing; data the database refuses gives 500 and stores nothing; otherwise one row is inserted and its id returned |
| `Server.Api.UpdateAppointmentStatus` | server/index.js:269-281 | 401 without a session; 400 for a non-integer id or a status other than PENDING/DONE; 500 for an absent row; otherwise only that row's status changes |
| `Server.Api.ExportAppointments` | server/index.js:283-311 | without a session, the gate's 401; otherwise one export row per appointment, in listing order |
| `Calendar.Weekday` | src/pages/RendezVous.tsx:18 | `getDay()` of a date is in 0..6, Sunday being 0 |
| `Calendar.NextDayWeekday` | src/pages/RendezVous.tsx:18 | from one calendar day to the next, including month and year ends and leap days, the weekday advances by one modulo seven |
| `Calendar.KnownWeekdays` | src/pages/RendezVous.tsx:18 | 1970-01-01 is day 0 and a Thursday; 2025-03-14 is a Friday |
| `Calendar.DayNumberOrder` | src/pages/RendezVous.tsx:19 | comparing the midnights of two days is comparing the dates in calendar order |
| `Calendar.ParseYmd` | src/pages/RendezVous.tsx:24 | a date that reads is a real calendar day with a four-digit year |
| `Calendar.FormatYmd` | src/pages/RendezVous.tsx:142 | the picker's `yyyy-MM-dd` text has ten characters with dashes at positions 4 and 7 |
| `Calendar.ParseFormatYmd` | src/pages/RendezVous.tsx:142 | a day picked in the calendar and written as `yyyy-MM-dd` reads back as the same day |
| `BookingForm.IsFriday` | src/pages/RendezVous.tsx:18 | `getDay() === 5` (no ensures; `DayAfterFriday` and `Calendar.KnownWeekdays` state its meaning) |
| `BookingForm.IsPast` | src/pages/RendezVous.tsx:19 | the day's midnight is before today's (no ensures; `PastIsCalendarOrder` and `TodayNotPast` state its meaning) |
| `BookingForm.CalendarDisabled` | src/pages/RendezVous.tsx:143 | the picker greys out past days and Fridays (no ensures; `CalendarMatchesSchema` relates it to the schema) |
| `BookingForm.MatchesPhonePattern` | src/pages/RendezVous.tsx:35 | the regular expression `^[+\d][\d\s-]{5,}$` (no ensures; `PhonePatternChars` characterises it) |
| `BookingForm.PhoneOk` | src/pages/RendezVous.tsx:32-35 | `.min(6)` and the pattern (no ensures; `PhoneMinLengthRedundant` shows the pattern alone decides) |
| `BookingForm.Accepts` | src/pages/RendezVous.tsx:21-36 | the whole schema (no ensures; `ShortNameRefused` and `AcceptedFormPassesServer` state its consequences) |
| `BookingForm.ShortNameRefused` | src/pages/RendezVous.tsx:22-23 | a first or last name shorter than two UTF-16 code units is refused, and every accepted form has both names at least that long |
| `BookingForm.NameLengthInCodeUnits` | src/pages/RendezVous.tsx:22 | a single character outside the Basic Multilingual Plane passes `.min(2)`, as its JavaScript length is 2; a single letter does not |
| `BookingForm.BirthDateAnyDay` | src/pages/RendezVous.tsx:24 | the schema's birthDate rule accepts any real date, Fridays and past days included |
| `BookingForm.DayAfterFriday` | src/pages/RendezVous.tsx:18 | the day after a Friday is a Saturday, so it is not refused as a Friday |
| `BookingForm.TodayNotPast` | src/pages/RendezVous.tsx:19 | today is not in the past, and the day before today is |
| `BookingForm.PastIsCalendarOrder` | src/pages/RendezVous.tsx:19 | a date is past exactly when it comes before today in calendar order |
| `BookingForm.CalendarMatchesSchema` | src/pages/RendezVous.tsx:143 | the picker disables exactly the days the schema refuses as an appointment date |
| `BookingForm.DefaultFirstTimeAccepted` | src/pages/RendezVous.tsx:48-51 | the first-visit default 'oui' is a value the schema accepts |
| `BookingForm.MatchesRepeatChars` | src/pages/RendezVous.tsx:35 | `[\d\s-]{5,}$` matches the rest iff it has at least five characters, all digits, white space or '-' |
| `BookingForm.PhonePatternChars` | src/pages/RendezVous.tsx:35 | a phone matches iff it starts with '+' or a digit and is followed by at least five characters, each a digit, white space or '-' |
| `BookingForm.PhoneMinLengthRedundant` | src/pages/RendezVous.tsx:34-35 | every matching phone already has six code units, so `.min(6)` never decides |
| `BookingForm.PhonePlusOnlyFirst` | src/pages/RendezVous.tsx:35 | a '+' can appear only in the first position of an accepted phone |
| `BookingForm.PhoneExamples` | src/pages/RendezVous.tsx:35 | "+21350" is accepted; "+21+35" (a second '+') and "12345" (too short) are refused |
| `BookingForm.BookingBody` | src/pages/RendezVous.tsx:55-62 | the booking sent carries all six form fields, each as the string the form holds |
| `BookingForm.AcceptedFormPassesServer` | src/pages/RendezVous.tsx:21-36 | a form the schema accepts passes the server's required-field check, and is stored as a first visit iff it said 'oui' |
| `AdminDashboard.PreCheck` | src/pages/Admin.tsx:82-87 | the upload goes ahead iff the file has at most 10·1024·1024 bytes and a jpeg/png/webp type; an oversized file is reported as too large |
| `AdminDashboard.SubmitUpload` | src/pages/Admin.tsx:136 | without a selected file nothing is submitted; a submitted file is sent only if it passes the pre-check |
| `AdminDashboard.SizeCheckedFirst` | src/pages/Admin.tsx:83-85 | an oversized file is reported as too large whatever its type |
| `AdminDashboard.SentFilesPassServerLimits` | src/pages/Admin.tsx:83-85 | every file the dashboard sends passes the server's type allow-list and size cap |
| `AdminDashboard.Dirty` | src/pages/Admin.tsx:182 | a card is dirty when its title or caption differs from the stored one, '' standing for a missing one (no ensures; `FreshCardClean` and `SavedCardClean` state its meaning) |
| `AdminDashboard.SaveEnabled` | src/pages/Admin.tsx:192 | Save is enabled exactly when the card is dirty (no ensures) |
| `AdminDashboard.FreshCardClean` | src/pages/Admin.tsx:180-182 | a card starts with the stored values ('' when missing), so it has no unsaved edits |
| `AdminDashboard.SavedCardClean` | src/pages/Admin.tsx:180-192 | once the server has applied a save, the listed item matches the card's fields and Save is disabled again |
| `AdminDashboard.StatusOptionsMatchServer` | src/pages/Admin.tsx:244-251 | the selector offers exactly the statuses the server accepts, PENDING and DONE |
| `ClinicalCases.CaseOf` | src/pages/CasCliniques.tsx:45-51 | a case has the item's id as id and its URL as image; the story is the caption or '', and the patient is '' |
| `ClinicalCases.CaseTitleFallback` | src/pages/CasCliniques.tsx:47 | the case title is the title if non-empty, else the caption if non-empty, else 'Cas clinique'; it is never empty |
| `ClinicalCases.LoadedCases` | src/pages/CasCliniques.tsx:41-60 | a loaded listing maps item by item, in order, to cases; a failed load gives exactly the one placeholder case |
| `ClinicalCases.FallbackCase` | src/pages/CasCliniques.tsx:57 | the placeholder case, with its picture under the site's base path (no ensures; `FailureShowsPlaceholder` states when it is shown) |
| `ClinicalCases.ShownCases` | src/pages/CasCliniques.tsx:63 | nothing is shown before loading; after it, the first five cases, or all when there are fewer |
| `ClinicalCases.ShownAreFirstFive` | src/pages/CasCliniques.tsx:45-63 | at most five cases are shown, the first ones in server order, each with its item's id and image |
| `ClinicalCases.FailureShowsPlaceholder` | src/pages/CasCliniques.tsx:54-59 | when the listing fails, exactly the placeholder case is shown |
| `ClinicalCases.ShownCasesFromServer` | src/pages/CasCliniques.tsx:45-50 | fed the server's listing, each shown case's image is the fetch URL of a stored image whose id its id names |
| `BeforeAfter.Clamp` | src/components/BeforeAfter.tsx:12 | `clamp` returns a value in [0, 100], is the identity on values in range, and gives 0 below and 100 above |
| `BeforeAfter.ClampIdempotent` | src/components/BeforeAfter.tsx:12 | clamping twice is clamping once |
| `BeforeAfter.ClampMonotone` | src/components/BeforeAfter.tsx:12 | clamping keeps the order of values |
| `BeforeAfter.Slider.constructor` | src/components/BeforeAfter.tsx:14-16 | the slider starts at `clamp(initial)`, with `initial` 50 when it is not given, and not dragging |
| `BeforeAfter.Slider.KeyDown` | src/components/BeforeAfter.tsx:47-52 | ArrowLeft moves to clamp(pos-2) and ArrowRight to clamp(pos+2); Home sets 0 and End sets 100; any other key changes nothing; the position stays in [0, 100] |
| `BeforeAfter.Slider.StartDrag` | src/components/BeforeAfter.tsx:35-40 | pressing a mounted slider starts a drag and moves to the clamped pointer position |
| `BeforeAfter.Slider.PointerMove` | src/components/BeforeAfter.tsx:20-25 | a pointer move follows the clamped pointer only while dragging a mounted slider; the position stays in [0, 100] |
| `BeforeAfter.Slider.PointerUp` | src/components/BeforeAfter.tsx:26 | releasing ends the drag and keeps the position |

## Left out

- Express plumbing is not modelled: middleware wiring, `app.listen`, logging, the 1 MB
  JSON body limit and the rate limiter (100 requests per minute). The limiter's window
  state lives inside express-rate-limit, which is not part of this model.
- Token signing and verification and password hashing are function values. Token expiry
  is whatever the verifier decides, and a freshly signed token is a parameter of `Login`.
- The database is in-memory maps. Failures other than "record not found" (connection
  errors and the like) are not modelled, so the 500 answers of the listings and of
  `/api/image/:id` for such failures are absent. Concurrent requests are not modelled.
- Server.StoredAppointment: a name or phone that is not a string, or a date `new Date(...)`
  cannot read, is taken to make the database client refuse the insert, which the route
  answers with 500. That validation is the database client's, not code in this model.
- Multer: only the type filter and the size cap are modelled. Other multer errors (a file
  under another field name, several files, other limits) are not. Both modelled errors are
  taken to reach Express's default error handler, which answers 500.
- `Number(...)` and `Number.isInteger` on ids are abstracted. A route receives the id
  already read as an optional integer (`None`: not an integer). Quirks such as `Number("")`
  being 0 are not modelled.
- Server.Login: the body fields are optional strings. A non-string email makes the database
  lookup throw outside any try/catch, and that path is not modelled. The e-mail lookup is an
  exact match on the stored address. Under a case-insensitive collation in the database,
  `ADMIN@...` would find the admin too; the database schema is not part of this model.
- Server.Api.InitDb: `ADMIN_EMAIL` is taken to be set. Seeding with an undefined email, which
  makes startup fail, is not modelled.
- JsValues.LowerCase: only A-Z are lower-cased. This gives the same answer as full Unicode
  lower-casing for the one comparison it serves (`=== 'oui'`). JSON numbers are reals, and
  NaN does not occur in JSON.
- Dates: Calendar.ParseYmd models `Date.parse` only for the `yyyy-mm-dd` form, which is what
  the date input and the picker produce. Other formats JavaScript accepts are refused, and
  so are non-existent days such as 2025-02-30. Local time zones are not modelled. The model
  takes the local calendar day of a parsed `yyyy-mm-dd` to be that day. That holds at or
  east of UTC and not west of it.
- The export's workbook bytes (ExcelJS, xlsx) and `toISOString` rendering are not modelled.
  Export rows keep the creation time as a number and the dates as calendar triples.
- BookingForm.BirthDateAnyDay: the birth-date input's `max` attribute (today, at
  src/pages/RendezVous.tsx:118) lets the browser refuse a future birth date before the
  schema runs. That browser-side limit is not modelled; only the schema's rule is.
- The WhatsApp message and `window.open` after booking, the fetch wrappers of the client,
  and all presentation components are not modelled.
- Slider geometry (`getBoundingClientRect`, the division by the width) is a parameter: the
  raw pointer percentage. A zero-width container, which would give a non-finite value, is
  not modelled. `clamp` is modelled with its default bounds only, the only ones it is
  called with.
- The dashboard's view state (resetting its inputs after an upload) and its login view are
  not modelled. The appointment table's rendering is not modelled either.
