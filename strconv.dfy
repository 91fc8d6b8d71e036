/** Go's `strconv.Atoi` on a 64-bit platform, as `newCfg` uses it for the
    port: an optional sign followed by decimal digits, in the range of
    `int64`. The scan follows `ParseInt`/`ParseUint` from the Go standard
    library, including the order in which the two error kinds are found. */
module GoStrconv {

  const MaxUint64: nat := 0xFFFF_FFFF_FFFF_FFFF
  const MaxInt64: int := 0x7FFF_FFFF_FFFF_FFFF
  const MinInt64: int := -0x8000_0000_0000_0000
  /** `ParseUint`'s cutoff for base 10: the first value that cannot be
      multiplied by ten without passing `MaxUint64`. */
  const Cutoff: nat := MaxUint64 / 10 + 1

  /** `strconv.ErrSyntax` and `strconv.ErrRange`. */
  datatype ErrKind = Syntax | Range

  /** `*strconv.NumError`: the function name, the whole input and the kind. */
  datatype NumError = NumError(func: string, num: string, err: ErrKind)

  datatype Result<T> = Ok(value: T) | Err(error: NumError)

  predicate IsDigit(c: char) {
    '0' <= c <= '9'
  }

  function DigitValue(c: char): nat
    requires IsDigit(c)
  {
    c as int - '0' as int
  }

  predicate AllDigits(s: string) {
    forall k :: 0 <= k < |s| ==> IsDigit(s[k])
  }

  /** The value of the digits `t` read after the value `n`, most significant
      first: `Value(0, t)` is the number `t` spells. */
  function Value(n: nat, t: string): nat
    requires AllDigits(t)
    decreases |t|
  {
    if t == [] then n else Value(n * 10 + DigitValue(t[0]), t[1..])
  }

  /** The scan of `ParseUint`: every character must be a digit, and once the
      value would pass `MaxUint64` the scan stops with a range error, even
      if a non-digit follows. */
  function Scan(s: string, n: nat): (r: Result<nat>)
    requires n <= MaxUint64
    ensures r.Ok? ==> r.value <= MaxUint64
  {
    if s == [] then Ok(n)
    else if !IsDigit(s[0]) then Err(NumError("", "", Syntax))
    else if n >= Cutoff then Err(NumError("", "", Range))
    else
      var n1 := n * 10 + DigitValue(s[0]);
      if n1 > MaxUint64 then Err(NumError("", "", Range)) else Scan(s[1..], n1)
  }

  /** `strconv.ParseUint(s, 10, 64)`: the empty string is a syntax error. */
  function ParseUint(s: string): Result<nat> {
    if s == [] then Err(NumError("", "", Syntax)) else Scan(s, 0)
  }

  /** A syntactically valid Atoi input: an optional sign and at least one
      digit. */
  predicate WellFormed(s: string) {
    var body := if s != [] && (s[0] == '+' || s[0] == '-') then s[1..] else s;
    body != [] && AllDigits(body)
  }

  /** The number a well-formed input spells. */
  function Meaning(s: string): int
    requires WellFormed(s)
  {
    if s[0] == '-' then -(Value(0, s[1..]) as int)
    else if s[0] == '+' then Value(0, s[1..])
    else Value(0, s)
  }

  /** `strconv.Atoi(s)`: `ParseInt(s, 10, 0)` with the error's function
      name set to "Atoi"; both error kinds carry the whole input. */
  function Atoi(s: string): Result<int> {
    if s == [] then Err(NumError("Atoi", s, Syntax))
    else
      var neg := s[0] == '-';
      var body := if s[0] == '+' || s[0] == '-' then s[1..] else s;
      match ParseUint(body)
      case Err(e) => Err(NumError("Atoi", s, e.err))
      case Ok(un) =>
        if !neg && un >= 0x8000_0000_0000_0000 then Err(NumError("Atoi", s, Range))
        else if neg && un > 0x8000_0000_0000_0000 then Err(NumError("Atoi", s, Range))
        else Ok(if neg then -(un as int) else un as int)
  }

  /** `err.Error()` of a `*NumError`. */
  function NumErrorMessage(e: NumError): string {
    "strconv." + e.func + ": parsing " + Quote(e.num) + ": "
    + (if e.err.Syntax? then "invalid syntax" else "value out of range")
  }

  /** `strconv.Quote` for inputs without characters that need escaping. */
  function Quote(s: string): string {
    "\"" + s + "\""
  }

  /** Reading more digits never makes the value smaller. */
  lemma {:induction false} ValueGrows(n: nat, t: string)
    requires AllDigits(t)
    ensures Value(n, t) >= n
    ensures t != [] ==> Value(n, t) >= n * 10
    decreases |t|
  {
    if t != [] {
      ValueGrows(n * 10 + DigitValue(t[0]), t[1..]);
    }
  }

  /** The scan succeeds exactly on digit strings whose value fits in 64
      bits, and then it yields that value. */
  lemma {:induction false} ScanMeaning(s: string, n: nat)
    requires n <= MaxUint64
    ensures Scan(s, n).Ok? <==> AllDigits(s) && Value(n, s) <= MaxUint64
    ensures Scan(s, n).Ok? ==> Scan(s, n).value == Value(n, s)
    ensures AllDigits(s) && Value(n, s) > MaxUint64 ==> Scan(s, n) == Err(NumError("", "", Range))
  {
    if s != [] {
      if !IsDigit(s[0]) {
        assert !AllDigits(s);
      } else {
        assert AllDigits(s) <==> AllDigits(s[1..]);
        var n1 := n * 10 + DigitValue(s[0]);
        if AllDigits(s) {
          ValueGrows(n1, s[1..]);
        }
        if n < Cutoff && n1 <= MaxUint64 {
          ScanMeaning(s[1..], n1);
        }
      }
    }
  }

  /** Atoi succeeds exactly on a well-formed input whose value lies in the
      range of `int64`, and then it yields that value; a well-formed input
      out of range is a range error, and a malformed one is an error. */
  lemma AtoiMeaning(s: string)
    ensures Atoi(s).Ok? <==> WellFormed(s) && MinInt64 <= Meaning(s) <= MaxInt64
    ensures Atoi(s).Ok? ==> Atoi(s).value == Meaning(s)
    ensures WellFormed(s) && !(MinInt64 <= Meaning(s) <= MaxInt64) ==> Atoi(s) == Err(NumError("Atoi", s, Range))
    ensures Atoi(s).Err? ==> Atoi(s).error.func == "Atoi" && Atoi(s).error.num == s
  {
    if s != [] {
      var body := if s[0] == '+' || s[0] == '-' then s[1..] else s;
      if body != [] {
        ScanMeaning(body, 0);
      }
    }
  }

  /** Which error a rejected input gets: a well-formed input can only be out
      of range, and one with no digit right after its optional sign is a
      syntax error. */
  lemma AtoiErrorKind(s: string)
    requires Atoi(s).Err?
    ensures WellFormed(s) ==> Atoi(s).error.err == Range
    ensures var body := if s != [] && (s[0] == '+' || s[0] == '-') then s[1..] else s;
            body == [] || !IsDigit(body[0]) ==> Atoi(s).error.err == Syntax
  {
    AtoiMeaning(s);
  }

  /** Once the digits read so far pass `MaxUint64` the result is a range
      error, whatever follows them, digits or not. */
  lemma {:induction false} RangeBeforeSyntax(n: nat, d: string, rest: string)
    requires n <= MaxUint64 && AllDigits(d) && Value(n, d) > MaxUint64
    ensures Scan(d + rest, n) == Err(NumError("", "", Range))
    decreases |d|
  {
    var s := d + rest;
    assert s[0] == d[0];
    var n1 := n * 10 + DigitValue(d[0]);
    if n < Cutoff && n1 <= MaxUint64 {
      assert s[1..] == d[1..] + rest;
      RangeBeforeSyntax(n1, d[1..], rest);
    }
  }

  /** The decimal digits of `n`, most significant first, without leading
      zeros. */
  function Digits(n: nat): (t: string)
    ensures t != [] && AllDigits(t)
  {
    if n < 10 then [('0' as int + n) as char]
    else Digits(n / 10) + [('0' as int + n % 10) as char]
  }

  /** `strconv.Itoa(n)`. */
  function Itoa(n: int): string {
    if n < 0 then "-" + Digits(-n) else Digits(n)
  }

  /** Appending a digit multiplies by ten and adds the digit. */
  lemma {:induction false} ValueSnoc(n: nat, t: string, c: char)
    requires AllDigits(t) && IsDigit(c)
    ensures AllDigits(t + [c])
    ensures Value(n, t + [c]) == Value(n, t) * 10 + DigitValue(c)
    decreases |t|
  {
    assert AllDigits(t + [c]) by {
      forall k | 0 <= k < |t + [c]| ensures IsDigit((t + [c])[k]) {
        if k < |t| { assert (t + [c])[k] == t[k]; }
      }
    }
    if t != [] {
      assert (t + [c])[1..] == t[1..] + [c];
      ValueSnoc(n * 10 + DigitValue(t[0]), t[1..], c);
    }
  }

  /** The digits of `n` spell `n`. */
  lemma {:induction false} DigitsValue(n: nat)
    ensures Value(0, Digits(n)) == n
  {
    if n >= 10 {
      DigitsValue(n / 10);
      ValueSnoc(0, Digits(n / 10), ('0' as int + n % 10) as char);
    }
  }

  /** Atoi reads back what Itoa writes, for every `int64`, so every port
      number can be given as its decimal text. */
  lemma AtoiItoa(n: int)
    requires MinInt64 <= n <= MaxInt64
    ensures Atoi(Itoa(n)) == Ok(n)
  {
    var s := Itoa(n);
    if n < 0 {
      DigitsValue(-n);
      assert s[1..] == Digits(-n);
    } else {
      DigitsValue(n);
      assert s[0] != '-' && s[0] != '+';
    }
    AtoiMeaning(s);
  }
}
