/** Shared vocabulary of the ledger model: optional values, results, per-field
    validation errors, the application configuration and the injected clock. */
module Common {

  datatype Option<+T> = None | Some(value: T)

  datatype Result<+T, +E> = Ok(value: T) | Err(error: E)

  /** One entry of a record's error list: the attribute it is reported on and
      its message, as the record layer collects them. */
  datatype FieldError = FieldError(attribute: string, message: string)

  /** The immutable application configuration (the `config.x` settings). */
  datatype Config = Config(
    auditRetentionYears: nat,
    financialPrecision: nat,
    supportedCurrencies: seq<string>)

  const AppConfig: Config := Config(7, 2, ["NZD", "AUD", "USD", "GBP", "EUR"])

  const SecondsPerHour: int := 3600
  const SecondsPerDay: int := 86400

  /** Bounds on `n` calendar years from an instant, in seconds: each year has
      365 or 366 days, and a daylight-saving change may shift the same wall
      time by one hour either way. */
  predicate CalendarYearsApart(from: int, to: int, n: nat) {
    n * 365 * SecondsPerDay - SecondsPerHour <= to - from <= n * 366 * SecondsPerDay + SecondsPerHour
  }

  /** The clock the engine reads. Instants are seconds, dates are day numbers
      in the application's time zone. The calendar-shifted instants are read
      off the calendar by the caller; the model only relies on their order. */
  datatype Clock = Clock(
    now: int,                 // Time.current
    today: int,               // Date.current
    monthAgo: int,            // 1.month.ago
    threeMonthsAgo: int,      // 3.months.ago
    yearAgoDay: int,          // the date of 1.year.ago
    lastMonthStart: int,      // 1.month.ago.beginning_of_month
    lastMonthEnd: int,        // 1.month.ago.end_of_month
    retentionExpiry: int)     // now advanced by the audit retention period (7.years.from_now)
  {
    ghost predicate Valid() {
      threeMonthsAgo <= monthAgo <= now &&
      CalendarYearsApart(now, retentionExpiry, AppConfig.auditRetentionYears) &&
      yearAgoDay < today &&
      lastMonthStart < lastMonthEnd < now
    }
  }

  /** Characters that `blank?` treats as white space: the POSIX `[[:space:]]`
      class on Unicode strings, that is the ASCII white space, NEXT LINE,
      NO-BREAK SPACE, OGHAM SPACE MARK, the spaces U+2000 to U+200A, the line
      and paragraph separators, NARROW NO-BREAK SPACE, MEDIUM MATHEMATICAL
      SPACE and IDEOGRAPHIC SPACE. */
  predicate IsSpace(c: char) {
    c == ' ' || '\t' <= c <= '\r'
    || c == '\U{0085}' || c == '\U{00A0}' || c == '\U{1680}'
    || '\U{2000}' <= c <= '\U{200A}'
    || c == '\U{2028}' || c == '\U{2029}' || c == '\U{202F}' || c == '\U{205F}' || c == '\U{3000}'
  }

  /** `blank?` on a string: empty or only white space. */
  predicate Blank(s: string) {
    forall i :: 0 <= i < |s| ==> IsSpace(s[i])
  }

  /** The standard "can't be blank" error of a presence validation. */
  function PresenceErrors(attribute: string, value: string): (errs: seq<FieldError>)
    ensures errs == [] <==> !Blank(value)
    ensures Blank(value) ==> errs == [FieldError(attribute, "can't be blank")]
  {
    if Blank(value) then [FieldError(attribute, "can't be blank")] else []
  }

  /** The standard error of an inclusion validation. */
  function InclusionErrors(attribute: string, value: string, allowed: seq<string>, message: string): (errs: seq<FieldError>)
    ensures errs == [] <==> value in allowed
    ensures value !in allowed ==> errs == [FieldError(attribute, message)]
  {
    if value in allowed then [] else [FieldError(attribute, message)]
  }

  /** Does `errs` hold an error on `attribute`? */
  predicate HasErrorOn(errs: seq<FieldError>, attribute: string) {
    exists i :: 0 <= i < |errs| && errs[i].attribute == attribute
  }

  /** First position of `c` in `s`. */
  function IndexOf(s: string, c: char): (i: nat)
    requires c in s
    ensures i < |s| && s[i] == c && c !in s[..i]
  {
    if s[0] == c then 0 else 1 + IndexOf(s[1..], c)
  }

  predicate IsAlphanumeric(c: char) {
    'a' <= c <= 'z' || 'A' <= c <= 'Z' || '0' <= c <= '9'
  }

  predicate IsDigit(c: char) {
    '0' <= c <= '9'
  }

  /** Characters allowed before the `@` of an address. */
  predicate IsAtext(c: char) {
    IsAlphanumeric(c) || c in ".!#$%&'*+/=?^_`{|}~-"
  }

  /** One dot-separated label of the host part: 1 to 63 letters, digits or
      hyphens, starting and ending with a letter or digit. */
  predicate HostLabel(l: string) {
    1 <= |l| <= 63 && IsAlphanumeric(l[0]) && IsAlphanumeric(l[|l| - 1]) &&
    forall i :: 0 <= i < |l| ==> IsAlphanumeric(l[i]) || l[i] == '-'
  }

  predicate HostName(d: string)
    decreases |d|
  {
    if '.' in d then
      var i := IndexOf(d, '.');
      HostLabel(d[..i]) && HostName(d[i + 1..])
    else HostLabel(d)
  }

  /** The e-mail format the record layer checks (`URI::MailTo::EMAIL_REGEXP`):
      a non-empty local part of atext characters, one `@`, then a host name. */
  predicate EmailFormat(s: string) {
    '@' in s &&
    var k := IndexOf(s, '@');
    k >= 1 && (forall i :: 0 <= i < k ==> IsAtext(s[i])) && HostName(s[k + 1..])
  }

  lemma {:induction false} HostNameHasNoAt(d: string)
    requires HostName(d)
    ensures '@' !in d
    decreases |d|
  {
    if '.' in d {
      var i := IndexOf(d, '.');
      HostNameHasNoAt(d[i + 1..]);
      assert d == d[..i] + [d[i]] + d[i + 1..];
    }
  }

  /** A well-formed address has exactly one `@`. */
  lemma EmailHasOneAt(s: string)
    requires EmailFormat(s)
    ensures var k := IndexOf(s, '@'); '@' !in s[..k] && '@' !in s[k + 1..]
  {
    HostNameHasNoAt(s[IndexOf(s, '@') + 1..]);
  }

  /** `items.join(sep)`. */
  function Join(items: seq<string>, sep: string): string {
    if |items| == 0 then ""
    else if |items| == 1 then items[0]
    else items[0] + sep + Join(items[1..], sep)
  }

  /** 1 for true, 0 for false: the weight of a condition in a score. */
  function Indicator(b: bool): int { if b then 1 else 0 }

  /** `[x]` when `present`, else nothing: one conditional append. */
  function Present<T(!new)>(present: bool, x: T): (r: seq<T>)
    ensures forall y :: y in r <==> present && y == x
    ensures forall i :: 0 <= i < |r| ==> r[i] == x
    ensures |r| == Indicator(present)
  {
    if present then [x] else []
  }

  function Max(a: int, b: int): int { if a >= b then a else b }

  function Min(a: int, b: int): int { if a <= b then a else b }

  function Abs(a: int): int { if a < 0 then -a else a }
}
