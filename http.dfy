/**
 * What the poller reads from a completed response: the status code and the
 * `Poll-Interval` directive, looked up case-insensitively and parsed the way
 * JavaScript's `parseInt(value, 10)` parses it.
 */
module Http {
  import opened Wrappers

  /** Response headers as the transport hands them over: name/value pairs in arrival order. */
  type Headers = seq<(string, string)>

  /** The resolved value of the fetch: only its status and headers matter to the poller. */
  datatype Response = Response(status: int, headers: Headers)

  /** `httpStatusCodes.OK`. */
  const OK: int := 200

  /** `this.intervalHeader`: the name of the `Poll-Interval` header once normalised. */
  const IntervalHeader: string := "POLL-INTERVAL"

  // ---------------------------------------------------------------------------
  // Header normalisation (`gl.utils.normalizeHeaders`)
  // ---------------------------------------------------------------------------

  function UpperChar(c: char): char {
    if 'a' <= c <= 'z' then (c as int - 32) as char else c
  }

  function UpperCase(s: string): (u: string)
    ensures |u| == |s|
  {
    seq(|s|, i requires 0 <= i < |s| => UpperChar(s[i]))
  }

  /**
   * Copies every header under its upper-cased name; when two names coincide
   * once upper-cased, the one that comes later overwrites the earlier.
   */
  function NormalizeHeaders(h: Headers): (m: map<string, string>)
    ensures m.Keys == set i | 0 <= i < |h| :: UpperCase(h[i].0)
  {
    if h == [] then map[]
    else
      var init := h[..|h| - 1];
      var rest := NormalizeHeaders(init);
      assert forall i :: 0 <= i < |init| ==> init[i] == h[i];
      rest[UpperCase(h[|h| - 1].0) := h[|h| - 1].1]
  }

  /**
   * `headers[name]` on the normalised headers: `None` plays `undefined`. A
   * lookup finds nothing exactly when no header name upper-cases to `name`.
   */
  function HeaderValue(h: Headers, name: string): (v: Option<string>)
    ensures v.None? <==> forall i :: 0 <= i < |h| ==> UpperCase(h[i].0) != name
  {
    var m := NormalizeHeaders(h);
    if name in m then
      assert name in (set i | 0 <= i < |h| :: UpperCase(h[i].0));
      Some(m[name])
    else None
  }

  /**
   * The value a header lookup returns is that of the LAST header whose name
   * upper-cases to the name looked up.
   */
  lemma {:induction false} HeaderValueIsLast(h: Headers, i: nat)
    requires i < |h|
    requires forall j :: i < j < |h| ==> UpperCase(h[j].0) != UpperCase(h[i].0)
    ensures HeaderValue(h, UpperCase(h[i].0)) == Some(h[i].1)
  {
    var init := h[..|h| - 1];
    if i < |h| - 1 {
      assert forall j :: 0 <= j < |init| ==> init[j] == h[j];
      HeaderValueIsLast(init, i);
    }
  }

  /** Header `i` is the last one whose name upper-cases to `name`. */
  predicate IsLastNamed(h: Headers, i: nat, name: string) {
    i < |h| && UpperCase(h[i].0) == name &&
    forall j :: i < j < |h| ==> UpperCase(h[j].0) != name
  }

  /** Every last header of a name gives the value a lookup of that name returns. */
  lemma LastNamedValue(h: Headers, name: string)
    ensures forall i: nat :: IsLastNamed(h, i, name) ==> HeaderValue(h, name) == Some(h[i].1)
  {
    forall i: nat | IsLastNamed(h, i, name)
      ensures HeaderValue(h, name) == Some(h[i].1)
    {
      HeaderValueIsLast(h, i);
    }
  }

  // ---------------------------------------------------------------------------
  // `parseInt(value, 10)`
  // ---------------------------------------------------------------------------

  predicate IsDigit(c: char) {
    '0' <= c <= '9'
  }

  /** The ASCII white space `parseInt` skips before the number. */
  predicate IsSpace(c: char) {
    c == ' ' || 9 <= c as int <= 13
  }

  predicate AllDigits(s: string) {
    forall i :: 0 <= i < |s| ==> IsDigit(s[i])
  }

  function TrimStart(s: string): (r: string)
    ensures r == [] || !IsSpace(r[0])
  {
    if s != [] && IsSpace(s[0]) then TrimStart(s[1..]) else s
  }

  /** Length of the run of decimal digits at the front of `s`. */
  function DigitRun(s: string): (n: nat)
    ensures n <= |s| && AllDigits(s[..n])
    ensures n < |s| ==> !IsDigit(s[n])
  {
    if s == [] || !IsDigit(s[0]) then 0
    else
      var n := 1 + DigitRun(s[1..]);
      assert s[..n] == [s[0]] + s[1..][..n - 1];
      n
  }

  function DigitsValue(ds: string): nat
    requires AllDigits(ds)
  {
    if ds == [] then 0
    else DigitsValue(ds[..|ds| - 1]) * 10 + (ds[|ds| - 1] as int - '0' as int)
  }

  /**
   * `parseInt(s, 10)`: skip leading white space, take an optional sign and the
   * longest run of decimal digits after it; with no digit the result is `NaN`,
   * written `None`. Whatever follows the digits is ignored.
   */
  function ParseInt(s: string): (r: Option<int>)
    ensures TrimStart(s) == [] ==> r.None?
    ensures s != [] && IsSpace(s[0]) ==> r == ParseInt(s[1..])
  {
    ParseSigned(TrimStart(s))
  }

  /** The number after the white space: only a leading `-` makes it negative. */
  function ParseSigned(t: string): (r: Option<int>)
    ensures r.Some? && r.value < 0 ==> t != [] && t[0] == '-'
    ensures t != [] && IsDigit(t[0]) ==> r.Some? && r.value >= 0
  {
    if t != [] && t[0] == '-' then
      match ParseDigits(t[1..])
      case None => None
      case Some(m) => Some(-(m as int))
    else if t != [] && t[0] == '+' then ParseDigits(t[1..])
    else ParseDigits(t)
  }

  /** The unsigned number at the front of `body`: there is one exactly when `body` starts with a digit. */
  function ParseDigits(body: string): (r: Option<nat>)
    ensures r.Some? <==> body != [] && IsDigit(body[0])
  {
    var n := DigitRun(body);
    if n == 0 then None else Some(DigitsValue(body[..n]))
  }

  /** Decimal rendering of an integer, the form a server writes in the header. */
  function DigitChar(d: nat): char
    requires d < 10
  {
    ('0' as int + d) as char
  }

  function ShowNat(n: nat): (s: string)
    ensures s != [] && AllDigits(s)
  {
    if n < 10 then [DigitChar(n)] else ShowNat(n / 10) + [DigitChar(n % 10)]
  }

  function ShowInt(n: int): string {
    if n < 0 then "-" + ShowNat(-n) else ShowNat(n)
  }

  lemma {:induction false} DigitsValueOfShowNat(n: nat)
    ensures DigitsValue(ShowNat(n)) == n
  {
    if n >= 10 {
      var s := ShowNat(n);
      assert s[..|s| - 1] == ShowNat(n / 10);
      DigitsValueOfShowNat(n / 10);
    }
  }

  lemma {:induction false} DigitRunOfDigitsThen(ds: string, rest: string)
    requires AllDigits(ds)
    requires rest == [] || !IsDigit(rest[0])
    ensures DigitRun(ds + rest) == |ds|
  {
    if ds != [] {
      assert (ds + rest)[1..] == ds[1..] + rest;
      DigitRunOfDigitsThen(ds[1..], rest);
    }
  }

  /**
   * `parseInt` reads back every integer written in decimal, whatever
   * non-digit text follows it (`"5000"`, `"-1"`, `"30s"`).
   */
  lemma ParseIntOfDecimal(n: int, rest: string)
    requires rest == [] || !IsDigit(rest[0])
    ensures ParseInt(ShowInt(n) + rest) == Some(n)
  {
    if n < 0 {
      var m: nat := -n;
      ShowNegative(n);
      calc {
        ParseInt(ShowInt(n) + rest);
        { assert ShowInt(n) + rest == ['-'] + (ShowNat(m) + rest); }
        ParseInt(['-'] + (ShowNat(m) + rest));
        { ParseNegative(m, rest); }
        Some(n);
      }
    } else {
      ParseNonNegative(n, rest);
    }
  }

  lemma ShowNegative(n: int)
    requires n < 0
    ensures ShowInt(n) == ['-'] + ShowNat(-n)
  {
  }

  lemma ParseNonNegative(m: nat, rest: string)
    requires rest == [] || !IsDigit(rest[0])
    ensures ParseInt(ShowNat(m) + rest) == Some(m as int)
  {
    var ds := ShowNat(m);
    ParseDigitsOfDecimal(m, rest);
    assert IsDigit((ds + rest)[0]);
  }

  lemma ParseNegative(m: nat, rest: string)
    requires rest == [] || !IsDigit(rest[0])
    ensures ParseInt(['-'] + (ShowNat(m) + rest)) == Some(-(m as int))
  {
    var t := ['-'] + (ShowNat(m) + rest);
    ParseDigitsOfDecimal(m, rest);
    assert t[0] == '-' && !IsSpace(t[0]);
    assert TrimStart(t) == t;
    assert t[1..] == ShowNat(m) + rest;
  }

  lemma ParseDigitsOfDecimal(m: nat, rest: string)
    requires rest == [] || !IsDigit(rest[0])
    ensures ParseDigits(ShowNat(m) + rest) == Some(m)
  {
    var ds := ShowNat(m);
    DigitRunOfDigitsThen(ds, rest);
    DigitsValueOfShowNat(m);
    assert (ds + rest)[..|ds|] == ds;
  }

  /** Text with no digit after the optional sign parses to `NaN`. */
  lemma ParseIntOfNonNumeric(s: string)
    requires var t := TrimStart(s);
      var body := if t != [] && (t[0] == '-' || t[0] == '+') then t[1..] else t;
      body == [] || !IsDigit(body[0])
    ensures ParseInt(s).None?
  {
  }

  // ---------------------------------------------------------------------------
  // The decision of `checkConditions`
  // ---------------------------------------------------------------------------

  /**
   * `parseInt(headers['POLL-INTERVAL'], 10)`: the value of the last header named
   * `Poll-Interval` in any case, parsed; with no such header, `NaN`.
   */
  function PollInterval(r: Response): (p: Option<int>)
    ensures (forall i :: 0 <= i < |r.headers| ==> UpperCase(r.headers[i].0) != IntervalHeader) ==> p.None?
    ensures forall i: nat :: IsLastNamed(r.headers, i, IntervalHeader) ==> p == ParseInt(r.headers[i].1)
  {
    LastNamedValue(r.headers, IntervalHeader);
    match HeaderValue(r.headers, IntervalHeader)
    case None => None
    case Some(v) => ParseInt(v)
  }

  /**
   * The delay of the follow-up timer `checkConditions` arms, or `None` when it
   * arms none: the interval must be positive, the status OK and polling allowed.
   */
  function ArmDelay(r: Response, canPoll: bool): (d: Option<nat>)
    ensures !canPoll || r.status != OK ==> d.None?
    ensures (forall i :: 0 <= i < |r.headers| ==> UpperCase(r.headers[i].0) != IntervalHeader) ==> d.None?
    ensures forall i: nat :: IsLastNamed(r.headers, i, IntervalHeader) ==>
      var n := ParseInt(r.headers[i].1);
      && (d.Some? <==> n.Some? && n.value > 0 && r.status == OK && canPoll)
      && (d.Some? ==> d.value as int == n.value)
  {
    var interval := PollInterval(r);
    if interval.Some? && interval.value > 0 && r.status == OK && canPoll
    then Some(interval.value)
    else None
  }

  /**
   * When the last header named `Poll-Interval` (in any case) carries the decimal
   * `n`, a timer of exactly `n` milliseconds is armed if and only if `n` is
   * positive, the status is OK and polling is allowed.
   */
  lemma ArmDelayOfDirective(r: Response, canPoll: bool, i: nat, n: int, rest: string)
    requires i < |r.headers| && UpperCase(r.headers[i].0) == IntervalHeader
    requires forall j :: i < j < |r.headers| ==> UpperCase(r.headers[j].0) != IntervalHeader
    requires r.headers[i].1 == ShowInt(n) + rest
    requires rest == [] || !IsDigit(rest[0])
    ensures ArmDelay(r, canPoll) == if n > 0 && r.status == OK && canPoll then Some(n) else None
  {
    HeaderValueIsLast(r.headers, i);
    ParseIntOfDecimal(n, rest);
  }

  /** Without a `Poll-Interval` header (in any case) no timer is ever armed. */
  lemma ArmDelayWithoutDirective(r: Response, canPoll: bool)
    requires forall i :: 0 <= i < |r.headers| ==> UpperCase(r.headers[i].0) != IntervalHeader
    ensures ArmDelay(r, canPoll) == None
  {
  }
}
