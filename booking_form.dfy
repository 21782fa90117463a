/**
 * The booking form's validation schema: what the form accepts before it sends
 * a booking, and the days the calendar picker greys out. `today` is the
 * browser's current calendar day.
 */
module BookingForm {
  import opened Wrappers
  import opened Decimal
  import opened Calendar
  import opened JsValues
  import Server

  /** The form's fields as the browser holds them; `firstTime` is the radio choice, if any. */
  datatype FormValues = FormValues(
    firstName: string, lastName: string, birthDate: string, appointmentDate: string,
    firstTime: Option<string>, phone: string)

  /** The radio button's initial value. */
  const DefaultFirstTime: Option<string> := Some("oui")

  /** `isFriday`: `getDay() === 5`. */
  predicate IsFriday(d: Date)
    requires ValidDate(d)
  {
    Weekday(d) == 5
  }

  /** `isPast`: midnight of `d` is strictly earlier than midnight today. */
  predicate IsPast(d: Date, today: Date)
    requires ValidDate(d) && ValidDate(today)
  {
    DayNumber(d) < DayNumber(today)
  }

  /** The picker's `disabled` callback. */
  predicate CalendarDisabled(d: Date, today: Date)
    requires ValidDate(d) && ValidDate(today)
  {
    IsPast(d, today) || IsFriday(d)
  }

  /** First and last name: `.min(2)`, a length of at least two UTF-16 code units. */
  predicate NameOk(s: string) {
    Utf16Length(s) >= 2
  }

  /** Birth date: non-empty and a readable date; no weekday or past rule. */
  predicate BirthDateOk(s: string) {
    Utf16Length(s) >= 1 && ParseYmd(s).Some?
  }

  /** Appointment date: non-empty, readable, not a Friday, not before today. */
  predicate AppointmentDateOk(s: string, today: Date)
    requires ValidDate(today)
  {
    Utf16Length(s) >= 1
    && match ParseYmd(s)
       case None => false
       case Some(d) => !IsFriday(d) && !IsPast(d, today)
  }

  predicate FirstTimeOk(v: Option<string>) {
    v == Some("oui") || v == Some("non")
  }

  /** `[+\d]`, the first character of a phone number. */
  predicate PhoneLead(c: char) {
    c == '+' || IsDigit(c)
  }

  /** JavaScript's `\s`: the white-space and line-terminator characters. */
  predicate IsJsSpace(c: char) {
    var n := c as int;
    n == 0x09 || n == 0x0A || n == 0x0B || n == 0x0C || n == 0x0D || n == 0x20
    || n == 0xA0 || n == 0x1680 || (0x2000 <= n <= 0x200A) || n == 0x2028 || n == 0x2029
    || n == 0x202F || n == 0x205F || n == 0x3000 || n == 0xFEFF
  }

  /** `[\d\s-]`, every later character of a phone number. */
  predicate PhoneBody(c: char) {
    IsDigit(c) || IsJsSpace(c) || c == '-'
  }

  /**
   * Matching `[\d\s-]{5,}$` against the rest `t` of the input, having already
   * matched `seen` repetitions.
   */
  predicate MatchesRepeat(t: string, seen: nat)
    decreases |t|
  {
    if t == [] then seen >= 5 else PhoneBody(t[0]) && MatchesRepeat(t[1..], seen + 1)
  }

  /** The phone pattern `^[+\d][\d\s-]{5,}$`. */
  predicate MatchesPhonePattern(s: string) {
    |s| >= 1 && PhoneLead(s[0]) && MatchesRepeat(s[1..], 0)
  }

  /** Phone: at least six UTF-16 code units and the pattern. */
  predicate PhoneOk(s: string) {
    Utf16Length(s) >= 6 && MatchesPhonePattern(s)
  }

  /** The whole schema accepts the form. */
  predicate Accepts(form: FormValues, today: Date)
    requires ValidDate(today)
  {
    NameOk(form.firstName) && NameOk(form.lastName) && BirthDateOk(form.birthDate)
    && AppointmentDateOk(form.appointmentDate, today) && FirstTimeOk(form.firstTime)
    && PhoneOk(form.phone)
  }

  lemma {:induction false} MatchesRepeatChars(t: string, seen: nat)
    ensures MatchesRepeat(t, seen) <==>
      |t| + seen >= 5 && forall i :: 0 <= i < |t| ==> PhoneBody(t[i])
    decreases |t|
  {
    if t != [] {
      MatchesRepeatChars(t[1..], seen + 1);
      assert forall i :: 1 <= i < |t| ==> t[i] == t[1..][i - 1];
    }
  }

  /**
   * A phone matches the pattern iff its first character is '+' or a digit and it is
   * followed by at least five characters, each a digit, white space or '-'.
   */
  lemma PhonePatternChars(s: string)
    ensures MatchesPhonePattern(s) <==>
      |s| >= 6 && PhoneLead(s[0]) && forall i :: 1 <= i < |s| ==> PhoneBody(s[i])
  {
    if |s| >= 1 {
      MatchesRepeatChars(s[1..], 0);
      assert forall i :: 1 <= i < |s| ==> s[i] == s[1..][i - 1];
    }
  }

  /** The `.min(6)` check adds nothing to the pattern. */
  lemma PhoneMinLengthRedundant(s: string)
    ensures PhoneOk(s) <==> MatchesPhonePattern(s)
  {
    PhonePatternChars(s);
  }

  /** A '+' can only come first. */
  lemma PhonePlusOnlyFirst(s: string, i: int)
    requires MatchesPhonePattern(s) && 1 <= i < |s|
    ensures s[i] != '+'
  {
    PhonePatternChars(s);
    assert PhoneBody(s[i]);
  }

  lemma PhoneExamples()
    ensures MatchesPhonePattern("+21350")
    ensures !MatchesPhonePattern("+21+35")
    ensures !MatchesPhonePattern("12345")
  {
    var good, bad := "+21350", "+21+35";
    assert PhoneBody(good[1]) && PhoneBody(good[2]) && PhoneBody(good[3]) && PhoneBody(good[4]);
    assert PhoneBody(good[5]);
    PhonePatternChars(good);
    PhonePatternChars(bad);
    assert !PhoneBody(bad[3]);
    PhonePatternChars("12345");
  }

  /** Today is bookable unless it is a Friday; yesterday never is. */
  lemma TodayNotPast(today: Date)
    requires ValidDate(today)
    ensures !IsPast(today, today)
    ensures forall d :: ValidDate(d) && NextDay(d) == today ==> IsPast(d, today)
  {
    forall d | ValidDate(d) && NextDay(d) == today
      ensures IsPast(d, today)
    {
      NextDayNumber(d);
    }
  }

  /** A date is in the past exactly when it comes earlier in the calendar than today. */
  lemma PastIsCalendarOrder(d: Date, today: Date)
    requires ValidDate(d) && ValidDate(today)
    ensures IsPast(d, today) <==> Before(d, today)
  {
    DayNumberOrder(d, today);
  }

  /** A Friday is followed by a bookable Saturday, never by another Friday. */
  lemma DayAfterFriday(d: Date)
    requires ValidDate(d) && IsFriday(d)
    ensures !IsFriday(NextDay(d)) && Weekday(NextDay(d)) == 6
  {
    NextDayWeekday(d);
  }

  /**
   * The picker greys out exactly the days the schema refuses as an appointment
   * date: a day picked in the calendar, written as `yyyy-MM-dd`, passes the date
   * rules iff it was not disabled.
   */
  lemma CalendarMatchesSchema(d: Date, today: Date)
    requires ValidDate(d) && 0 <= d.year <= 9999 && ValidDate(today)
    ensures AppointmentDateOk(FormatYmd(d), today) <==> !CalendarDisabled(d, today)
  {
    ParseFormatYmd(d);
  }

  /** The birth date is not held to the Friday or past rules. */
  lemma BirthDateAnyDay(d: Date)
    requires ValidDate(d) && 0 <= d.year <= 9999
    ensures BirthDateOk(FormatYmd(d))
  {
    ParseFormatYmd(d);
  }

  /** The radio button starts on a value the schema accepts. */
  lemma DefaultFirstTimeAccepted()
    ensures FirstTimeOk(DefaultFirstTime)
  {
  }

  /** A first or last name shorter than two code units is refused; an accepted form has both. */
  lemma ShortNameRefused(form: FormValues, today: Date)
    requires ValidDate(today)
    ensures Utf16Length(form.firstName) < 2 || Utf16Length(form.lastName) < 2 ==> !Accepts(form, today)
    ensures Accepts(form, today) ==> Utf16Length(form.firstName) >= 2 && Utf16Length(form.lastName) >= 2
  {
  }

  /**
   * Lengths are JavaScript's: a single character outside the Basic Multilingual
   * Plane is two code units, so it passes as a name, while one plain letter does not.
   */
  lemma NameLengthInCodeUnits()
    ensures |"\U{1F600}"| == 1 && NameOk("\U{1F600}")
    ensures !NameOk("A") && NameOk("Al")
  {
  }

  /** The booking body the form sends: every field as the string it holds. */
  function BookingBody(form: FormValues): (input: Server.AppointmentInput)
    requires form.firstTime.Some?
    ensures input.firstName == Str(form.firstName) && input.lastName == Str(form.lastName)
    ensures input.birthDate == Str(form.birthDate) && input.appointmentDate == Str(form.appointmentDate)
    ensures input.firstTime == Str(form.firstTime.value) && input.phone == Str(form.phone)
  {
    Server.AppointmentInput(Str(form.firstName), Str(form.lastName), Str(form.birthDate),
                            Str(form.appointmentDate), Str(form.firstTime.value), Str(form.phone))
  }

  /**
   * A form the schema accepts is never refused by the server's required-field
   * check, and the server stores a first visit exactly when the form said "oui".
   */
  lemma AcceptedFormPassesServer(form: FormValues, today: Date)
    requires ValidDate(today) && Accepts(form, today)
    ensures Server.RequiredPresent(BookingBody(form))
    ensures Server.FirstTimeBool(BookingBody(form).firstTime) <==> form.firstTime == Some("oui")
  {
    Server.FirstTimeFromString("oui");
    Server.FirstTimeFromString("non");
  }
}
