/**
 * `GET` and `PUT /api/profile` (src/app/api/profile/route.ts): the profile
 * row is shaped into the reply with defaults, a `PUT` body is validated, the
 * upsert payload is built from the fields the body has, and the upsert is
 * retried once with a narrower select list when the `username` column is
 * missing.
 *
 * Authentication, the database and the clock are parameters: the signed-in
 * user, the row the `select` returned, the ISO time stamp, and `upsert`,
 * which answers a payload and a select list.
 */
module ProfileRoute {
  import opened Wrappers
  import opened Text

  /** The signed-in user; `email` may be absent. */
  datatype User = User(id: string, email: Option<string>)

  /** A row of `profiles`; SQL `null` and a column the select did not name are `None`. */
  datatype ProfileRow = ProfileRow(firstName: Option<string>, lastName: Option<string>, phone: Option<string>,
                                   birthDate: Option<string>, username: Option<string>)

  /** The profile in a reply. */
  datatype ProfileView = ProfileView(firstName: string, lastName: string, phone: string, birthDate: string,
                                     username: string, email: Option<string>)

  /** `(email || '').split('@')[0]`. */
  function DefaultUsername(email: Option<string>): string {
    BeforeFirst(email.GetOr(""), '@')
  }

  /** `value || fallback` for a nullable text column. */
  function OrText(value: Option<string>, fallback: string): string {
    if value.Some? && value.value != "" then value.value else fallback
  }

  /** The reply's profile: every column or "", the user name or the default one. */
  function Shape(profile: Option<ProfileRow>, defaultUsername: string, email: Option<string>): ProfileView {
    match profile
    case None => ProfileView("", "", "", "", defaultUsername, email)
    case Some(p) =>
      ProfileView(OrText(p.firstName, ""), OrText(p.lastName, ""), OrText(p.phone, ""), OrText(p.birthDate, ""),
                  OrText(p.username, defaultUsername), email)
  }

  // ---------------------------------------------------------------------------
  // GET
  // ---------------------------------------------------------------------------

  datatype GetReply = GetUnauthorized | GetProfile(profile: ProfileView)

  /**
   * `GET`: 401 without a user; otherwise the row (`None` when the select found
   * none or failed, which the route logs and answers with defaults) shaped,
   * with the email or "".
   */
  function Get(user: Option<User>, profile: Option<ProfileRow>): GetReply {
    match user
    case None => GetUnauthorized
    case Some(u) => GetProfile(Shape(profile, DefaultUsername(u.email), Some(u.email.GetOr(""))))
  }

  // ---------------------------------------------------------------------------
  // PUT: validation and the payload
  // ---------------------------------------------------------------------------

  /** A field of the JSON body: missing, `null`, or a string. */
  datatype BodyValue = Undefined | Null | Text(text: string)

  /** JavaScript truthiness of a body field. */
  predicate Truthy(v: BodyValue) { v.Text? && v.text != "" }

  datatype ProfileBody = ProfileBody(firstName: BodyValue, lastName: BodyValue, phone: BodyValue,
                                     birthDate: BodyValue, username: BodyValue)

  /** `/^\d{4}-\d{2}-\d{2}$/`: four digits, a dash, two digits, a dash, two digits, and nothing else. */
  predicate IsDateShape(s: string) {
    && |s| == 10
    && IsDigit(s[0]) && IsDigit(s[1]) && IsDigit(s[2]) && IsDigit(s[3]) && s[4] == '-'
    && IsDigit(s[5]) && IsDigit(s[6]) && s[7] == '-' && IsDigit(s[8]) && IsDigit(s[9])
  }

  const DateError: string := "Неверный формат даты. Используйте YYYY-MM-DD"
  const UsernameError: string := "Username может содержать только буквы, цифры, подчеркивание и дефис (3-20 символов)"

  /** The 400 answer of the validation, if any: the date is checked before the user name. */
  function Validate(body: ProfileBody): Option<string> {
    if Truthy(body.birthDate) && !IsDateShape(body.birthDate.text) then Some(DateError)
    else if Truthy(body.username) && !IsSlug(body.username.text) then Some(UsernameError)
    else None
  }

  /** The keys of the upsert payload. */
  datatype Column = Id | UpdatedAt | FirstName | LastName | Phone | BirthDate | Username

  /** The JSON key of a column. */
  function Name(column: Column): string {
    match column
    case Id => "id"
    case UpdatedAt => "updated_at"
    case FirstName => "first_name"
    case LastName => "last_name"
    case Phone => "phone"
    case BirthDate => "birth_date"
    case Username => "username"
  }

  /** The columns a body may set. */
  predicate BodyColumn(column: Column) { !column.Id? && !column.UpdatedAt? }

  /** The body field that goes into a column; `id` and `updated_at` come from elsewhere. */
  function BodyField(body: ProfileBody, column: Column): BodyValue {
    match column
    case FirstName => body.firstName
    case LastName => body.lastName
    case Phone => body.phone
    case BirthDate => body.birthDate
    case Username => body.username
    case _ => Undefined
  }

  /** The upsert payload: `id` and `updated_at`, and every column the body gives a value, `null` included. */
  function UpdateData(userId: string, now: string, body: ProfileBody): map<Column, BodyValue> {
    map column: Column | !BodyColumn(column) || BodyField(body, column) != Undefined ::
      match column
      case Id => Text(userId)
      case UpdatedAt => Text(now)
      case _ => BodyField(body, column)
  }

  /** `updateData`, built field by field. */
  method BuildUpdateData(userId: string, now: string, body: ProfileBody) returns (data: map<Column, BodyValue>)
    ensures data == UpdateData(userId, now, body)
  {
    data := map[Id := Text(userId), UpdatedAt := Text(now)];
    if body.firstName != Undefined { data := data[FirstName := body.firstName]; }
    if body.lastName != Undefined { data := data[LastName := body.lastName]; }
    if body.phone != Undefined { data := data[Phone := body.phone]; }
    if body.birthDate != Undefined { data := data[BirthDate := body.birthDate]; }
    if body.username != Undefined { data := data[Username := body.username]; }
    var spec := UpdateData(userId, now, body);
    forall column: Column ensures (column in data <==> column in spec) && (column in data ==> data[column] == spec[column]) {
      match column {
        case Id =>
        case UpdatedAt =>
        case FirstName =>
        case LastName =>
        case Phone =>
        case BirthDate =>
        case Username =>
      }
    }
    assert data.Keys == spec.Keys;
  }

  // ---------------------------------------------------------------------------
  // PUT: the upsert and the answer
  // ---------------------------------------------------------------------------

  datatype DbError = DbError(code: string, message: string)

  /** What `upsert(...).select(...).single()` answers. */
  datatype UpsertResult = UpsertResult(data: Option<ProfileRow>, error: Option<DbError>)

  const WithUsername: string := "first_name, last_name, phone, birth_date, username"
  const WithoutUsername: string := "first_name, last_name, phone, birth_date"

  /** The code PostgREST reports for a column missing from its schema cache. */
  const MissingColumn: string := "PGRST204"

  /** The code PostgreSQL reports for an undefined column. */
  const UndefinedColumn: string := "42703"

  predicate HasCode(result: UpsertResult, code: string) {
    result.error.Some? && result.error.value.code == code
  }

  /** The result the route goes on with: the first upsert's, or the retry's after `PGRST204`. */
  function Upserted(data: map<Column, BodyValue>, upsert: (map<Column, BodyValue>, string) -> UpsertResult): UpsertResult {
    var first := upsert(data, WithUsername);
    if HasCode(first, MissingColumn) then upsert(data, WithoutUsername) else first
  }

  /** The upsert and its retry; `selects` lists the select lists sent, in order. */
  method UpsertProfile(data: map<Column, BodyValue>, upsert: (map<Column, BodyValue>, string) -> UpsertResult)
    returns (result: UpsertResult, selects: seq<string>)
    ensures result == Upserted(data, upsert)
    ensures selects == if HasCode(upsert(data, WithUsername), MissingColumn) then [WithUsername, WithoutUsername] else [WithUsername]
  {
    var selectFields := WithUsername;
    selects := [selectFields];
    result := upsert(data, selectFields);
    if result.error.Some? && result.error.value.code == MissingColumn {
      selectFields := WithoutUsername;
      selects := selects + [selectFields];
      result := upsert(data, selectFields);
    }
  }

  datatype PutReply =
    | PutUnauthorized
    | BadRequest(error: string)
    | UpdateFailed(error: string, details: string)
    | Updated(message: string, profile: ProfileView)

  /** The answer to the upsert's result: 500 for an error other than `42703`, else the shaped profile. */
  function Answer(result: UpsertResult, email: Option<string>): PutReply {
    if result.error.Some? && result.error.value.code != UndefinedColumn then
      UpdateFailed("Ошибка при обновлении профиля", result.error.value.message)
    else Updated("Профиль успешно обновлен", Shape(result.data, DefaultUsername(email), email))
  }

  /** `PUT /api/profile`. */
  function Put(user: Option<User>, body: ProfileBody, now: string,
               upsert: (map<Column, BodyValue>, string) -> UpsertResult): PutReply
  {
    match user
    case None => PutUnauthorized
    case Some(u) =>
      match Validate(body)
      case Some(error) => BadRequest(error)
      case None => Answer(Upserted(UpdateData(u.id, now, body), upsert), u.email)
  }

  /** The handler, step by step. */
  method HandlePut(user: Option<User>, body: ProfileBody, now: string,
                   upsert: (map<Column, BodyValue>, string) -> UpsertResult) returns (reply: PutReply)
    ensures reply == Put(user, body, now, upsert)
  {
    if user.None? {
      return PutUnauthorized;
    }
    var u := user.value;
    if Truthy(body.birthDate) && !IsDateShape(body.birthDate.text) {
      return BadRequest(DateError);
    }
    if Truthy(body.username) && !IsSlug(body.username.text) {
      return BadRequest(UsernameError);
    }
    var data := BuildUpdateData(u.id, now, body);
    var result, _ := UpsertProfile(data, upsert);
    if result.error.Some? && result.error.value.code != UndefinedColumn {
      return UpdateFailed("Ошибка при обновлении профиля", result.error.value.message);
    }
    var defaultUsername := DefaultUsername(u.email);
    reply := Updated("Профиль успешно обновлен", Shape(result.data, defaultUsername, u.email));
  }

  // ---------------------------------------------------------------------------
  // Properties
  // ---------------------------------------------------------------------------

  /** The default user name is the start of the email up to its first `@`, or "" without an email. */
  lemma DefaultUsernameSpec(email: Option<string>)
    ensures email.None? ==> DefaultUsername(email) == ""
    ensures email.Some? ==> StartsWith(email.value, DefaultUsername(email)) && '@' !in DefaultUsername(email)
    ensures email.Some? && |DefaultUsername(email)| < |email.value| ==> email.value[|DefaultUsername(email)|] == '@'
    ensures email.Some? && '@' !in email.value ==> DefaultUsername(email) == email.value
  {
    if email.Some? && '@' !in email.value {
      SplitFirst(email.value, '@');
    }
  }

  /** Every field of the reply is the row's value when it has a non-empty one, and the default otherwise. */
  lemma ShapeSpec(profile: Option<ProfileRow>, defaultUsername: string, email: Option<string>)
    ensures var v := Shape(profile, defaultUsername, email);
      && v.email == email
      && (profile.Some? && profile.value.username.Some? && profile.value.username.value != "" ==> v.username == profile.value.username.value)
      && (profile.None? || profile.value.username.None? || profile.value.username.value == "" ==> v.username == defaultUsername)
      && (profile.Some? && profile.value.firstName.Some? ==> v.firstName == profile.value.firstName.value)
      && (profile.None? || profile.value.firstName.None? ==> v.firstName == "")
      && (profile.Some? && profile.value.lastName.Some? ==> v.lastName == profile.value.lastName.value)
      && (profile.None? || profile.value.lastName.None? ==> v.lastName == "")
      && (profile.Some? && profile.value.phone.Some? ==> v.phone == profile.value.phone.value)
      && (profile.None? || profile.value.phone.None? ==> v.phone == "")
      && (profile.Some? && profile.value.birthDate.Some? ==> v.birthDate == profile.value.birthDate.value)
      && (profile.None? || profile.value.birthDate.None? ==> v.birthDate == "")
  {
  }

  /** `GET` answers a user with the email or "", and the user name from the row or from the email. */
  lemma GetSpec(user: Option<User>, profile: Option<ProfileRow>)
    ensures Get(user, profile).GetUnauthorized? <==> user.None?
    ensures user.Some? ==> Get(user, profile).profile.email == Some(user.value.email.GetOr(""))
    ensures user.Some? && (profile.None? || profile.value.username.None?) ==>
      Get(user, profile).profile.username == DefaultUsername(user.value.email)
  {
  }

  /** A `PUT` that stored a row answers with the profile a `GET` of that row answers, when the user has an email. */
  lemma PutAnswersAsGet(user: Option<User>, body: ProfileBody, now: string,
                        upsert: (map<Column, BodyValue>, string) -> UpsertResult)
    requires user.Some? && user.value.email.Some?
    requires Put(user, body, now, upsert).Updated?
    ensures Get(user, Upserted(UpdateData(user.value.id, now, body), upsert).data).profile
      == Put(user, body, now, upsert).profile
  {
  }

  /** Any four, two and two digits joined by dashes pass the date check, whatever the month and day. */
  lemma AnyDigitsPass(year: string, month: string, day: string)
    requires |year| == 4 && |month| == 2 && |day| == 2
    requires AllDigits(year) && AllDigits(month) && AllDigits(day)
    ensures IsDateShape(year + "-" + month + "-" + day)
  {
    var s := year + "-" + month + "-" + day;
    assert s[..4] == year && s[5..7] == month && s[8..] == day;
  }

  /** A text that passes the date check is four, two and two digits joined by dashes. */
  lemma DateShapeParts(s: string)
    requires IsDateShape(s)
    ensures s == s[..4] + "-" + s[5..7] + "-" + s[8..]
    ensures AllDigits(s[..4]) && AllDigits(s[5..7]) && AllDigits(s[8..]) && |s[8..]| == 2
  {
    assert s == s[..4] + [s[4]] + s[5..7] + [s[7]] + s[8..];
  }

  /** An illustration: an impossible month and day pass the date check, a one-digit month does not. */
  lemma DateFormatOnly(s: string, t: string)
    requires s == "2024-13-45" && t == "2024-1-05"
    ensures IsDateShape(s) && !IsDateShape(t)
  {
  }

  /**
   * The body passes exactly when an empty-or-missing date or a well-formed one
   * meets an empty-or-missing user name or a well-formed one; a bad date is
   * reported even when the user name is bad too.
   */
  lemma ValidateSpec(body: ProfileBody)
    ensures Validate(body).None? <==>
      (!Truthy(body.birthDate) || IsDateShape(body.birthDate.text)) && (!Truthy(body.username) || IsSlug(body.username.text))
    ensures Truthy(body.birthDate) && !IsDateShape(body.birthDate.text) ==> Validate(body) == Some(DateError)
  {
  }

  /** A user name that passes has 3 to 20 characters from `[A-Za-z0-9_-]`: never an `@`, a space or a `/`. */
  lemma ValidUsernameHasNoSeparators(body: ProfileBody)
    requires Validate(body).None? && Truthy(body.username)
    ensures var name := body.username.text; 3 <= |name| <= 20 && '@' !in name && '/' !in name && NoSpace(name)
  {
    var name := body.username.text;
    assert IsSlug(name);
    assert forall i :: 0 <= i < |name| ==> name[i] != '@' && name[i] != '/' && !IsSpace(name[i]);
  }

  /** The payload holds `id` and `updated_at` and exactly the columns the body gives, with the body's values. */
  lemma UpdateDataSpec(userId: string, now: string, body: ProfileBody)
    ensures Id in UpdateData(userId, now, body) && UpdateData(userId, now, body)[Id] == Text(userId)
    ensures UpdatedAt in UpdateData(userId, now, body) && UpdateData(userId, now, body)[UpdatedAt] == Text(now)
    ensures forall column :: BodyColumn(column) ==>
      (column in UpdateData(userId, now, body) <==> BodyField(body, column) != Undefined)
    ensures forall column :: BodyColumn(column) && column in UpdateData(userId, now, body) ==>
      UpdateData(userId, now, body)[column] == BodyField(body, column)
  {
  }

  /** Every column has its own key in the JSON payload. */
  lemma NamesDistinct(a: Column, b: Column)
    requires a != b
    ensures Name(a) != Name(b)
  {
  }

  /**
   * At most two upserts are sent, with the same payload; the second, without
   * `username` in the select list, only after `PGRST204`.
   */
  lemma RetryOnlyAfterMissingColumn(data: map<Column, BodyValue>, upsert: (map<Column, BodyValue>, string) -> UpsertResult)
    ensures !HasCode(upsert(data, WithUsername), MissingColumn) ==> Upserted(data, upsert) == upsert(data, WithUsername)
    ensures HasCode(upsert(data, WithUsername), MissingColumn) ==> Upserted(data, upsert) == upsert(data, WithoutUsername)
  {
  }

  /** `PUT` fails with 500 exactly when the remaining error is not `42703`; an undefined-column error still answers the profile. */
  lemma PutOutcome(user: Option<User>, body: ProfileBody, now: string,
                   upsert: (map<Column, BodyValue>, string) -> UpsertResult)
    requires user.Some? && Validate(body).None?
    ensures var result := Upserted(UpdateData(user.value.id, now, body), upsert);
      && (Put(user, body, now, upsert).UpdateFailed? <==> result.error.Some? && result.error.value.code != UndefinedColumn)
      && (Put(user, body, now, upsert).Updated? <==> result.error.None? || result.error.value.code == UndefinedColumn)
  {
  }

  /** Nothing is written unless the user is signed in and the body is valid. */
  lemma NoWriteWhenRejected(user: Option<User>, body: ProfileBody, now: string,
                            upsert: (map<Column, BodyValue>, string) -> UpsertResult)
    ensures user.None? <==> Put(user, body, now, upsert).PutUnauthorized?
    ensures user.Some? && Validate(body).Some? <==> Put(user, body, now, upsert).BadRequest?
  {
  }
}
