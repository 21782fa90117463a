/**
 * The API server: the Image, Appointment and AdminUser tables and the routes over them.
 *
 * Routes that only read (login, logout, me, gallery listing, image fetch, appointment
 * listing) are functions of the tables; routes that write (admin seeding, upload,
 * caption edit, delete, booking, status change) are methods of `Api`, which holds
 * the tables. The database, the token library, the password hasher and JavaScript's
 * `new Date(...)` are not modelled: the tables are maps, identifiers come from a
 * counter, creation times are parameters, and the three libraries are function
 * values supplied from outside.
 */
module Server {
  import opened Wrappers
  import opened Decimal
  import opened Calendar
  import opened JsValues
  import opened Listing

  /** The upload size cap, 10 MiB. */
  const MaxFileSize: nat := 10 * 1024 * 1024
  const AllowedMimes: seq<string> := ["image/jpeg", "image/png", "image/webp"]
  const ImageUrlPrefix: string := "/api/image/"
  const ImageCacheControl: string := "public, max-age=31536000, immutable"
  /** The origins that may send credentials; the `CORS_ORIGINS` setting is never read. */
  const AllowedOrigins: seq<string> := ["https://djazaier-cabinet.vercel.app"]

  type Byte = b: int | 0 <= b < 256

  datatype Status = Pending | Done

  function StatusName(s: Status): string {
    match s
    case Pending => "PENDING"
    case Done => "DONE"
  }

  /** An Image row; the title and caption columns are nullable. */
  datatype ImageRow = ImageRow(
    mime: string, data: seq<Byte>, titleFr: Option<string>, captionFr: Option<string>, createdAt: int)

  /** An Appointment row; `status` starts as PENDING, the column default. */
  datatype AppointmentRow = AppointmentRow(
    firstName: string, lastName: string, birthDate: Date, appointmentDate: Date,
    firstTime: bool, phone: string, status: Status, createdAt: int)

  /** The file part of a multipart upload. */
  datatype UploadedFile = UploadedFile(mime: string, data: seq<Byte>)

  /** An item of the gallery listing; `None` is a field missing from the JSON. */
  datatype GalleryItem = GalleryItem(
    publicId: string, secureUrl: string, titleFr: Option<string>, captionFr: Option<string>, createdAt: int)

  /** An item of the appointment listing: the whole row with its id. */
  datatype AppointmentItem = AppointmentItem(id: int, row: AppointmentRow)

  /** The values of one spreadsheet row of the export (before rendering). */
  datatype ExportRow = ExportRow(
    id: int, createdAt: int, firstName: string, lastName: string, birthDate: Date,
    appointmentDate: Date, firstTime: string, phone: string, status: string)

  datatype Body =
    | Error(message: string)
    | Ok
    | AuthState(authenticated: bool)
    | Gallery(items: seq<GalleryItem>)
    | Uploaded(publicId: string, secureUrl: string, captionFr: string)
    | Created(id: int)
    | Appointments(appointments: seq<AppointmentItem>)
    | Image(contentType: string, cacheControl: string, data: seq<Byte>)
    | Text(text: string)
    | ErrorPage(reason: string)
    | Workbook(rows: seq<ExportRow>)

  /** What a response does to the browser's `token` cookie. */
  datatype CookieChange = Keep | SetToken(token: string) | ClearToken

  datatype Response = Response(status: int, body: Body, cookie: CookieChange)

  function Reply(status: int, body: Body): Response {
    Response(status, body, Keep)
  }

  /** The browser's `token` cookie after it receives a response. */
  function StoredCookie(jar: Option<string>, change: CookieChange): Option<string> {
    match change
    case Keep => jar
    case SetToken(t) => Some(t)
    case ClearToken => None
  }

  // ---------------------------------------------------------------- cross-origin policy

  datatype CorsVerdict = Allow | Reject(message: string)

  /** The `origin` callback given to the CORS middleware. */
  function CorsOrigin(origin: Option<string>, allowed: seq<string>): (v: CorsVerdict)
    ensures v.Reject? ==> origin.Some? && v.message == "Not allowed by CORS: " + origin.value
  {
    if origin.None? || origin.value == "" then Allow
    else if |allowed| == 0 then Allow
    else if origin.value in allowed then Allow
    else Reject("Not allowed by CORS: " + origin.value)
  }

  /** With the hard-coded list, a request is let through iff it has no origin or the deployed one. */
  lemma DeployedCorsPolicy(origin: Option<string>)
    ensures CorsOrigin(origin, AllowedOrigins) == Allow
        <==> origin in {None, Some(""), Some("https://djazaier-cabinet.vercel.app")}
  {
  }

  // ---------------------------------------------------------------- session gate

  /** The `token` cookie is present, non-empty and accepted by the token verifier. */
  predicate Authorized(cookie: Option<string>, verify: string -> bool) {
    cookie.Some? && cookie.value != "" && verify(cookie.value)
  }

  /** `requireAuth`: the 401 response it sends, or `None` when it lets the request through. */
  function GateFailure(cookie: Option<string>, verify: string -> bool): (r: Option<Response>)
    ensures r.None? <==> Authorized(cookie, verify)
    ensures r.Some? ==> r.value.status == 401 && r.value.cookie == Keep && r.value.body.Error?
  {
    if cookie.None? || cookie.value == "" then Some(Reply(401, Error("Not authenticated")))
    else if !verify(cookie.value) then Some(Reply(401, Error("Invalid token")))
    else None
  }

  /** GET /api/me. */
  function Me(cookie: Option<string>, verify: string -> bool): (r: Response)
    ensures r.status == 200 && r.cookie == Keep && r.body.AuthState?
  {
    Reply(200, AuthState(cookie.Some? && cookie.value != "" && verify(cookie.value)))
  }

  /** /api/me reports authenticated exactly when the gate would let a request through. */
  lemma MeAgreesWithGate(cookie: Option<string>, verify: string -> bool)
    ensures Me(cookie, verify).body.authenticated <==> GateFailure(cookie, verify).None?
  {
  }

  // ---------------------------------------------------------------- login and logout

  /** A body field that is present and not empty (`!x` is false). */
  predicate Present(v: Option<string>) {
    v.Some? && v.value != ""
  }

  /**
   * POST /api/login. `admins` maps e-mail to password hash, `compare` is the
   * password hasher's check, `token` the freshly signed session token.
   */
  function Login(admins: map<string, string>, compare: (string, string) -> bool,
                 email: Option<string>, password: Option<string>, token: string): (r: Response)
    ensures r.status == 200 <==>
      Present(email) && Present(password) && email.value in admins
      && compare(password.value, admins[email.value])
    ensures r.status == 200 ==> r == Response(200, Ok, SetToken(token))
    ensures r.status != 200 ==> r.cookie == Keep
    ensures !(Present(email) && Present(password)) ==> r == Reply(400, Error("Email and password required"))
    ensures Present(email) && Present(password) && r.status != 200 ==> r == Reply(401, Error("Invalid credentials"))
  {
    if !Present(email) || !Present(password) then Reply(400, Error("Email and password required"))
    else if email.value !in admins then Reply(401, Error("Invalid credentials"))
    else if !compare(password.value, admins[email.value]) then Reply(401, Error("Invalid credentials"))
    else Response(200, Ok, SetToken(token))
  }

  /** POST /api/logout: clears the cookie; the token itself stays valid until it expires. */
  function Logout(): (r: Response)
    ensures r.status == 200 && r.cookie == ClearToken
  {
    Response(200, Ok, ClearToken)
  }

  /** After a successful login, /api/me with the cookie the browser now holds is authenticated. */
  lemma LoginThenMe(admins: map<string, string>, compare: (string, string) -> bool, verify: string -> bool,
                    email: Option<string>, password: Option<string>, token: string, jar: Option<string>)
    requires Login(admins, compare, email, password, token).status == 200
    requires token != "" && verify(token)
    ensures Me(StoredCookie(jar, Login(admins, compare, email, password, token).cookie), verify).body
            == AuthState(true)
  {
  }

  /** A failed login leaves the browser's cookie as it was. */
  lemma FailedLoginKeepsCookie(admins: map<string, string>, compare: (string, string) -> bool,
                               email: Option<string>, password: Option<string>, token: string, jar: Option<string>)
    requires Login(admins, compare, email, password, token).status != 200
    ensures StoredCookie(jar, Login(admins, compare, email, password, token).cookie) == jar
  {
  }

  /** After logout, /api/me is not authenticated, whatever token the browser held. */
  lemma LogoutThenMe(jar: Option<string>, verify: string -> bool)
    ensures Me(StoredCookie(jar, Logout().cookie), verify).body == AuthState(false)
  {
  }

  /** The admin seeded from a password can log in with that password. */
  lemma SeededAdminLogsIn(email: string, password: string, hash: string -> string,
                          compare: (string, string) -> bool, token: string)
    requires email != "" && password != ""
    requires compare(password, hash(password))
    ensures Login(map[email := hash(password)], compare, Some(email), Some(password), token)
            == Response(200, Ok, SetToken(token))
  {
  }

  // ---------------------------------------------------------------- images

  /** The upload limits: the file filter first (type allow-list), then the size cap. */
  function MulterCheck(file: UploadedFile): (r: Option<string>)
    ensures r.None? <==> file.mime in AllowedMimes && |file.data| <= MaxFileSize
    ensures file.mime !in AllowedMimes ==> r == Some("Only JPG/PNG/WebP allowed")
  {
    if file.mime !in AllowedMimes then Some("Only JPG/PNG/WebP allowed")
    else if |file.data| > MaxFileSize then Some("File too large")
    else None
  }

  function ImageUrl(id: nat): string {
    ImageUrlPrefix + NatToDecimal(id)
  }

  /** The row an accepted upload stores; a missing title or caption is stored as ''. */
  function NewImageRow(file: UploadedFile, titleFr: Option<string>, captionFr: Option<string>, now: int): (row: ImageRow)
    ensures row.mime == file.mime && row.data == file.data && row.createdAt == now
    ensures row.titleFr == Some(OrEmpty(titleFr)) && row.captionFr == Some(OrEmpty(captionFr))
  {
    ImageRow(file.mime, file.data, Some(OrEmpty(titleFr)), Some(OrEmpty(captionFr)), now)
  }

  function ImageStamps(rows: map<int, ImageRow>): (m: map<int, int>)
    ensures m.Keys == rows.Keys
    ensures forall id :: id in rows ==> m[id] == rows[id].createdAt
  {
    map id | id in rows :: rows[id].createdAt
  }

  /** One listing item: no binary data; a null title or caption reads as ''. */
  function GalleryItemOf(id: nat, row: ImageRow): (item: GalleryItem)
    ensures ParseDecimal(item.publicId) == Some(id)
    ensures item.secureUrl == ImageUrlPrefix + item.publicId
    ensures item.titleFr == Some(OrEmpty(row.titleFr)) && item.captionFr == Some(OrEmpty(row.captionFr))
    ensures item.createdAt == row.createdAt
  {
    ParseNatToDecimal(id);
    GalleryItem(NatToDecimal(id), ImageUrl(id), Some(OrEmpty(row.titleFr)), Some(OrEmpty(row.captionFr)), row.createdAt)
  }

  /** The image id a listing item names. */
  function ItemId(item: GalleryItem): int {
    match ParseDecimal(item.publicId)
    case Some(n) => n
    case None => -1
  }

  /** GET /api/gallery. */
  function ListGallery(images: Table<ImageRow>): (r: Response)
    requires images.WellFormed()
    ensures r.status == 200 && r.cookie == Keep && r.body.Gallery?
    ensures forall k :: 0 <= k < |r.body.items| ==>
      ItemId(r.body.items[k]) in images.rows
      && r.body.items[k] == GalleryItemOf(ItemId(r.body.items[k]), images.rows[ItemId(r.body.items[k])])
    ensures forall i, j :: 0 <= i < j < |r.body.items| ==>
      Precedes(r.body.items[i].createdAt, ItemId(r.body.items[i]), r.body.items[j].createdAt, ItemId(r.body.items[j]))
  {
    var ids := NewestFirstIds(images, ImageStamps(images.rows));
    Reply(200, Gallery(seq(|ids|, k requires 0 <= k < |ids| => GalleryItemOf(ids[k], images.rows[ids[k]]))))
  }

  /** Every stored image appears in the listing. */
  lemma GalleryListsEveryImage(images: Table<ImageRow>, id: int)
    requires images.WellFormed() && id in images.rows
    ensures GalleryItemOf(id, images.rows[id]) in ListGallery(images).body.items
  {
    var ids := NewestFirstIds(images, ImageStamps(images.rows));
    var k :| 0 <= k < |ids| && ids[k] == id;
    assert ListGallery(images).body.items[k] == GalleryItemOf(id, images.rows[id]);
  }

  /** GET /api/image/:id, with the id already read as an integer (`None`: not an integer). */
  function FetchImage(images: Table<ImageRow>, id: Option<int>): (r: Response)
    ensures r.cookie == Keep
    ensures r.status == 200 <==> id.Some? && id.value in images.rows
    ensures id.None? ==> r == Reply(400, Text("Invalid id"))
    ensures id.Some? && id.value !in images.rows ==> r == Reply(404, Text("Not found"))
    ensures r.status == 200 ==>
      r.body == Image(images.rows[id.value].mime, ImageCacheControl, images.rows[id.value].data)
  {
    if id.None? then Reply(400, Text("Invalid id"))
    else if id.value !in images.rows then Reply(404, Text("Not found"))
    else
      var row := images.rows[id.value];
      Reply(200, Image(row.mime, ImageCacheControl, row.data))
  }

  /**
   * Upload then fetch: following the `public_id` an upload returns yields exactly
   * the uploaded type and bytes, and the new row lists with '' for a missing title.
   */
  lemma {:induction false} UploadThenFetch(images: Table<ImageRow>, file: UploadedFile,
                                           titleFr: Option<string>, captionFr: Option<string>, now: int)
    requires images.WellFormed()
    ensures var after := images.Insert(NewImageRow(file, titleFr, captionFr, now));
            FetchImage(after, ParseDecimal(NatToDecimal(images.nextId)))
            == Reply(200, Image(file.mime, ImageCacheControl, file.data))
            && GalleryItemOf(images.nextId, after.rows[images.nextId]).titleFr == Some(OrEmpty(titleFr))
  {
    ParseNatToDecimal(images.nextId);
  }

  /** The caption edit: only the fields sent as strings are written. */
  function PatchedRow(row: ImageRow, captionFr: JsVal, titleFr: JsVal): (r: ImageRow)
    ensures r.mime == row.mime && r.data == row.data && r.createdAt == row.createdAt
    ensures r.captionFr == (if captionFr.Str? then Some(captionFr.s) else row.captionFr)
    ensures r.titleFr == (if titleFr.Str? then Some(titleFr.s) else row.titleFr)
  {
    var withCaption := if captionFr.Str? then row.(captionFr := Some(captionFr.s)) else row;
    if titleFr.Str? then withCaption.(titleFr := Some(titleFr.s)) else withCaption
  }

  // ---------------------------------------------------------------- appointments

  /** The stored first-visit flag: a string is compared case-insensitively with "oui". */
  function FirstTimeBool(v: JsVal): bool {
    if v.Str? then LowerCase(v.s) == "oui" else Truthy(v)
  }

  /** A string means a first visit exactly when it is "oui" in any mix of cases. */
  lemma FirstTimeFromString(s: string)
    ensures FirstTimeBool(Str(s)) <==>
      |s| == 3 && s[0] in {'o', 'O'} && s[1] in {'u', 'U'} && s[2] in {'i', 'I'}
  {
    var l := LowerCase(s);
    if |s| == 3 && s[0] in {'o', 'O'} && s[1] in {'u', 'U'} && s[2] in {'i', 'I'} {
      assert l == [l[0], l[1], l[2]];
    }
    if FirstTimeBool(Str(s)) {
      assert l[0] == 'o' && l[1] == 'u' && l[2] == 'i';
    }
  }

  lemma FirstTimeExamples()
    ensures FirstTimeBool(Str("OUI")) && FirstTimeBool(Str("oui"))
    ensures !FirstTimeBool(Str("non")) && !FirstTimeBool(Str("yes")) && !FirstTimeBool(Str(""))
    ensures FirstTimeBool(Bool(true)) && !FirstTimeBool(Bool(false)) && !FirstTimeBool(Undefined)
    ensures FirstTimeBool(Num(1.0)) && !FirstTimeBool(Num(0.0))
  {
    FirstTimeFromString("OUI");
    FirstTimeFromString("oui");
    FirstTimeFromString("non");
    FirstTimeFromString("yes");
    FirstTimeFromString("");
  }

  /** The JSON body of POST /api/appointments. */
  datatype AppointmentInput = AppointmentInput(
    firstName: JsVal, lastName: JsVal, birthDate: JsVal, appointmentDate: JsVal,
    firstTime: JsVal, phone: JsVal)

  /** All five required fields are truthy. */
  predicate RequiredPresent(input: AppointmentInput) {
    Truthy(input.firstName) && Truthy(input.lastName) && Truthy(input.birthDate)
    && Truthy(input.appointmentDate) && Truthy(input.phone)
  }

  /**
   * The row the database stores for a booking, or `None` when it refuses the data:
   * a name or the phone that is not a string, or a date `parseDate` cannot read.
   */
  function StoredAppointment(input: AppointmentInput, parseDate: JsVal -> Option<Date>, now: int): (r: Option<AppointmentRow>)
    ensures r.Some? <==>
      input.firstName.Str? && input.lastName.Str? && input.phone.Str?
      && parseDate(input.birthDate).Some? && parseDate(input.appointmentDate).Some?
    ensures r.Some? ==>
      && r.value.firstName == input.firstName.s && r.value.lastName == input.lastName.s
      && r.value.phone == input.phone.s
      && r.value.birthDate == parseDate(input.birthDate).value
      && r.value.appointmentDate == parseDate(input.appointmentDate).value
      && r.value.firstTime == FirstTimeBool(input.firstTime)
      && r.value.status == Pending && r.value.createdAt == now
  {
    if input.firstName.Str? && input.lastName.Str? && input.phone.Str?
       && parseDate(input.birthDate).Some? && parseDate(input.appointmentDate).Some?
    then
      Some(AppointmentRow(input.firstName.s, input.lastName.s, parseDate(input.birthDate).value,
                          parseDate(input.appointmentDate).value, FirstTimeBool(input.firstTime),
                          input.phone.s, Pending, now))
    else None
  }

  /** The status a PATCH body asks for: exactly "PENDING" or "DONE". */
  function ParseStatus(v: JsVal): (r: Option<Status>)
    ensures r.Some? <==> v == Str("PENDING") || v == Str("DONE")
    ensures r.Some? ==> v == Str(StatusName(r.value))
  {
    if v == Str("PENDING") then Some(Pending)
    else if v == Str("DONE") then Some(Done)
    else None
  }

  /** Every status name is accepted back as that status. */
  lemma StatusRoundTrip(s: Status)
    ensures ParseStatus(Str(StatusName(s))) == Some(s)
  {
  }

  function AppointmentStamps(rows: map<int, AppointmentRow>): (m: map<int, int>)
    ensures m.Keys == rows.Keys
    ensures forall id :: id in rows ==> m[id] == rows[id].createdAt
  {
    map id | id in rows :: rows[id].createdAt
  }

  /** The appointment ids, newest first. */
  function AppointmentOrder(appointments: Table<AppointmentRow>): (ids: seq<int>)
    requires appointments.WellFormed()
    ensures forall id :: id in ids <==> id in appointments.rows
    ensures forall i, j :: 0 <= i < j < |ids| ==>
      ids[i] in appointments.rows && ids[j] in appointments.rows
      && Precedes(appointments.rows[ids[i]].createdAt, ids[i], appointments.rows[ids[j]].createdAt, ids[j])
  {
    NewestFirstIds(appointments, AppointmentStamps(appointments.rows))
  }

  /** GET /api/appointments. */
  function ListAppointments(appointments: Table<AppointmentRow>, cookie: Option<string>, verify: string -> bool): (r: Response)
    requires appointments.WellFormed()
    ensures !Authorized(cookie, verify) ==> r == GateFailure(cookie, verify).value
    ensures Authorized(cookie, verify) ==> r.status == 200 && r.body.Appointments?
    ensures r.status == 200 ==>
      (forall k :: 0 <= k < |r.body.appointments| ==>
         r.body.appointments[k].id in appointments.rows
         && r.body.appointments[k].row == appointments.rows[r.body.appointments[k].id])
      && (forall i, j :: 0 <= i < j < |r.body.appointments| ==>
         Precedes(r.body.appointments[i].row.createdAt, r.body.appointments[i].id,
                  r.body.appointments[j].row.createdAt, r.body.appointments[j].id))
  {
    if !Authorized(cookie, verify) then GateFailure(cookie, verify).value
    else
      var ids := AppointmentOrder(appointments);
      assert forall k :: 0 <= k < |ids| ==> ids[k] in ids;
      Reply(200, Appointments(seq(|ids|, k requires 0 <= k < |ids| => AppointmentItem(ids[k], appointments.rows[ids[k]]))))
  }

  /** Every stored appointment appears in the (authorized) listing. */
  lemma ListingHasEveryAppointment(appointments: Table<AppointmentRow>, cookie: Option<string>,
                                   verify: string -> bool, id: int)
    requires appointments.WellFormed() && id in appointments.rows && Authorized(cookie, verify)
    ensures AppointmentItem(id, appointments.rows[id])
            in ListAppointments(appointments, cookie, verify).body.appointments
  {
    var ids := AppointmentOrder(appointments);
    var k :| 0 <= k < |ids| && ids[k] == id;
    assert ListAppointments(appointments, cookie, verify).body.appointments[k]
           == AppointmentItem(id, appointments.rows[id]);
  }

  /** One export row: first visit as "oui"/"non", status by name. */
  function ExportRowOf(id: int, row: AppointmentRow): (e: ExportRow)
    ensures e.id == id && e.createdAt == row.createdAt
    ensures e.firstName == row.firstName && e.lastName == row.lastName && e.phone == row.phone
    ensures e.birthDate == row.birthDate && e.appointmentDate == row.appointmentDate
    ensures e.firstTime in {"oui", "non"}
  {
    ExportRow(id, row.createdAt, row.firstName, row.lastName, row.birthDate, row.appointmentDate,
              if row.firstTime then "oui" else "non", row.phone, StatusName(row.status))
  }

  /** An export row's text columns read back, by the server's own rules, as the stored flag and status. */
  lemma ExportRowReadsBack(id: int, row: AppointmentRow)
    ensures FirstTimeBool(Str(ExportRowOf(id, row).firstTime)) == row.firstTime
    ensures ParseStatus(Str(ExportRowOf(id, row).status)) == Some(row.status)
  {
    FirstTimeFromString("oui");
    FirstTimeFromString("non");
  }

  // ---------------------------------------------------------------- the server's tables

  class Api {
    var images: Table<ImageRow>
    var appointments: Table<AppointmentRow>
    /** AdminUser: e-mail (unique) to password hash. */
    var admins: map<string, string>
    /** The token library's verification: signature and expiry. */
    const verifyToken: string -> bool
    /** The password hasher (salted; cost 12). */
    const hashPassword: string -> string
    /** `new Date(v)` as the database accepts it: `None` for an invalid date. */
    const parseDate: JsVal -> Option<Date>

    ghost predicate Valid()
      reads this
    {
      images.WellFormed() && appointments.WellFormed()
    }

    constructor (verifyToken: string -> bool, hashPassword: string -> string, parseDate: JsVal -> Option<Date>)
      ensures Valid()
      ensures images == Table(map[], 1) && appointments == Table(map[], 1) && admins == map[]
      ensures this.verifyToken == verifyToken && this.hashPassword == hashPassword
      ensures this.parseDate == parseDate
    {
      images := Table(map[], 1);
      appointments := Table(map[], 1);
      admins := map[];
      this.verifyToken := verifyToken;
      this.hashPassword := hashPassword;
      this.parseDate := parseDate;
    }

    /** `initDb`: seeds one admin when the table is empty and a password is configured. */
    method InitDb(adminEmail: string, adminPassword: Option<string>)
      requires Valid()
      modifies this
      ensures Valid()
      ensures images == old(images) && appointments == old(appointments)
      ensures admins == if |old(admins)| == 0 && Present(adminPassword)
                        then map[adminEmail := hashPassword(adminPassword.value)]
                        else old(admins)
    {
      if |admins| == 0 {
        if Present(adminPassword) {
          var hash := hashPassword(adminPassword.value);
          admins := admins[adminEmail := hash];
        }
      }
    }

    /** POST /api/gallery: gate, then the multipart limits, then one insert. */
    method UploadImage(cookie: Option<string>, file: Option<UploadedFile>,
                       captionFr: Option<string>, titleFr: Option<string>, now: int) returns (res: Response)
      requires Valid()
      modifies this
      ensures Valid()
      ensures res.status != 200 ==> unchanged(this)
      ensures appointments == old(appointments) && admins == old(admins)
      ensures !Authorized(cookie, verifyToken) ==> res == GateFailure(cookie, verifyToken).value
      ensures Authorized(cookie, verifyToken) && file.Some? && MulterCheck(file.value).Some? ==>
        res == Reply(500, ErrorPage(MulterCheck(file.value).value))
      ensures Authorized(cookie, verifyToken) && file.None? ==> res == Reply(400, Error("File required"))
      ensures res.status == 200 <==> Authorized(cookie, verifyToken) && file.Some? && MulterCheck(file.value).None?
      ensures res.status == 200 ==>
        images == old(images).Insert(NewImageRow(file.value, titleFr, captionFr, now))
        && res.body == Uploaded(NatToDecimal(old(images).nextId), ImageUrl(old(images).nextId), OrEmpty(captionFr))
    {
      var denied := GateFailure(cookie, verifyToken);
      if denied.Some? {
        return denied.value;
      }
      if file.Some? && MulterCheck(file.value).Some? {
        return Reply(500, ErrorPage(MulterCheck(file.value).value));
      }
      if file.None? {
        return Reply(400, Error("File required"));
      }
      var id := images.nextId;
      images := images.Insert(NewImageRow(file.value, titleFr, captionFr, now));
      res := Reply(200, Uploaded(NatToDecimal(id), ImageUrl(id), OrEmpty(captionFr)));
    }

    /** PATCH /api/gallery: writes the title and caption fields sent as strings. */
    method PatchImage(cookie: Option<string>, publicId: Option<int>, captionFr: JsVal, titleFr: JsVal)
      returns (res: Response)
      requires Valid()
      modifies this
      ensures Valid()
      ensures res.status != 200 ==> unchanged(this)
      ensures appointments == old(appointments) && admins == old(admins)
      ensures !Authorized(cookie, verifyToken) ==> res == GateFailure(cookie, verifyToken).value
      ensures Authorized(cookie, verifyToken) && publicId.None? ==> res == Reply(400, Error("public_id required"))
      ensures Authorized(cookie, verifyToken) && publicId.Some? && publicId.value !in old(images).rows ==>
        res == Reply(500, Error("Failed to update caption"))
      ensures res.status == 200 <==>
        Authorized(cookie, verifyToken) && publicId.Some? && publicId.value in old(images).rows
      ensures res.status == 200 ==>
        res.body == Ok
        && images == old(images).(rows := old(images).rows[publicId.value :=
                                      PatchedRow(old(images).rows[publicId.value], captionFr, titleFr)])
    {
      var denied := GateFailure(cookie, verifyToken);
      if denied.Some? {
        return denied.value;
      }
      if publicId.None? {
        return Reply(400, Error("public_id required"));
      }
      var id := publicId.value;
      if id !in images.rows {
        return Reply(500, Error("Failed to update caption"));
      }
      images := images.(rows := images.rows[id := PatchedRow(images.rows[id], captionFr, titleFr)]);
      res := Reply(200, Ok);
    }

    /** DELETE /api/gallery: removes the named row and no other. */
    method DeleteImage(cookie: Option<string>, publicId: Option<int>) returns (res: Response)
      requires Valid()
      modifies this
      ensures Valid()
      ensures res.status != 200 ==> unchanged(this)
      ensures appointments == old(appointments) && admins == old(admins)
      ensures !Authorized(cookie, verifyToken) ==> res == GateFailure(cookie, verifyToken).value
      ensures Authorized(cookie, verifyToken) && publicId.None? ==> res == Reply(400, Error("public_id required"))
      ensures Authorized(cookie, verifyToken) && publicId.Some? && publicId.value !in old(images).rows ==>
        res == Reply(500, Error("Failed to delete"))
      ensures res.status == 200 <==>
        Authorized(cookie, verifyToken) && publicId.Some? && publicId.value in old(images).rows
      ensures res.status == 200 ==>
        res.body == Ok && images == old(images).(rows := old(images).rows - {publicId.value})
    {
      var denied := GateFailure(cookie, verifyToken);
      if denied.Some? {
        return denied.value;
      }
      if publicId.None? {
        return Reply(400, Error("public_id required"));
      }
      var id := publicId.value;
      if id !in images.rows {
        return Reply(500, Error("Failed to delete"));
      }
      images := images.(rows := images.rows - {id});
      res := Reply(200, Ok);
    }

    /** POST /api/appointments (public). */
    method CreateAppointment(input: AppointmentInput, now: int) returns (res: Response)
      requires Valid()
      modifies this
      ensures Valid()
      ensures res.status != 200 ==> unchanged(this)
      ensures images == old(images) && admins == old(admins)
      ensures !RequiredPresent(input) ==> res == Reply(400, Error("Missing required fields"))
      ensures RequiredPresent(input) && StoredAppointment(input, parseDate, now).None? ==>
        res == Reply(500, Error("Failed to create appointment"))
      ensures res.status == 200 <==> RequiredPresent(input) && StoredAppointment(input, parseDate, now).Some?
      ensures res.status == 200 ==>
        res.body == Created(old(appointments).nextId)
        && appointments == old(appointments).Insert(StoredAppointment(input, parseDate, now).value)
    {
      if !RequiredPresent(input) {
        return Reply(400, Error("Missing required fields"));
      }
      var row := StoredAppointment(input, parseDate, now);
      if row.None? {
        return Reply(500, Error("Failed to create appointment"));
      }
      var id := appointments.nextId;
      appointments := appointments.Insert(row.value);
      res := Reply(200, Created(id));
    }

    /** PATCH /api/appointments/:id: only the status of that row changes. */
    method UpdateAppointmentStatus(cookie: Option<string>, id: Option<int>, status: JsVal) returns (res: Response)
      requires Valid()
      modifies this
      ensures Valid()
      ensures res.status != 200 ==> unchanged(this)
      ensures images == old(images) && admins == old(admins)
      ensures !Authorized(cookie, verifyToken) ==> res == GateFailure(cookie, verifyToken).value
      ensures Authorized(cookie, verifyToken) && id.None? ==> res == Reply(400, Error("Invalid id"))
      ensures Authorized(cookie, verifyToken) && id.Some? && ParseStatus(status).None? ==>
        res == Reply(400, Error("Invalid status"))
      ensures Authorized(cookie, verifyToken) && id.Some? && ParseStatus(status).Some?
              && id.value !in old(appointments).rows ==>
        res == Reply(500, Error("Failed to update appointment"))
      ensures res.status == 200 <==>
        Authorized(cookie, verifyToken) && id.Some? && ParseStatus(status).Some?
        && id.value in old(appointments).rows
      ensures res.status == 200 ==>
        res.body == Ok
        && appointments == old(appointments).(rows := old(appointments).rows[id.value :=
             old(appointments).rows[id.value].(status := ParseStatus(status).value)])
    {
      var denied := GateFailure(cookie, verifyToken);
      if denied.Some? {
        return denied.value;
      }
      if id.None? {
        return Reply(400, Error("Invalid id"));
      }
      var wanted := ParseStatus(status);
      if wanted.None? {
        return Reply(400, Error("Invalid status"));
      }
      if id.value !in appointments.rows {
        return Reply(500, Error("Failed to update appointment"));
      }
      var row := appointments.rows[id.value];
      appointments := appointments.(rows := appointments.rows[id.value := row.(status := wanted.value)]);
      res := Reply(200, Ok);
    }

    /** GET /api/appointments/export: one row of values per appointment, newest first. */
    method ExportAppointments(cookie: Option<string>) returns (res: Response)
      requires Valid()
      ensures !Authorized(cookie, verifyToken) ==> res == GateFailure(cookie, verifyToken).value
      ensures Authorized(cookie, verifyToken) ==> res.status == 200 && res.body.Workbook?
      ensures res.status == 200 ==>
        var order := AppointmentOrder(appointments);
        |res.body.rows| == |order|
        && forall k :: 0 <= k < |order| ==>
             order[k] in appointments.rows
             && res.body.rows[k] == ExportRowOf(order[k], appointments.rows[order[k]])
    {
      var denied := GateFailure(cookie, verifyToken);
      if denied.Some? {
        return denied.value;
      }
      var order := AppointmentOrder(appointments);
      var rows: seq<ExportRow> := [];
      var i := 0;
      while i < |order|
        invariant 0 <= i <= |order|
        invariant |rows| == i
        invariant forall k :: 0 <= k < i ==>
          order[k] in appointments.rows && rows[k] == ExportRowOf(order[k], appointments.rows[order[k]])
      {
        assert order[i] in order;
        rows := rows + [ExportRowOf(order[i], appointments.rows[order[i]])];
        i := i + 1;
      }
      res := Reply(200, Workbook(rows));
    }
  }
}
