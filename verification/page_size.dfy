/**
 Validation of the `page_size` input field. The field stays the value it was
 given when Python's `int()` turns it into an integer between 10 and 100;
 otherwise it is replaced by the string "100". A value `int()` rejects with a
 TypeError (null, an array, an object) is not caught by the script.
 */
module PageSize {
  import opened Json
  import opened Outcomes

  const MinPageSize: int := 10
  const MaxPageSize: int := 100

  /** The page size used when the field is absent, unparseable or out of range. */
  const DefaultPageSize: Value := Str("100")

  predicate IsDigit(c: char)
  {
    '0' <= c <= '9'
  }

  predicate AllDigits(s: string)
  {
    forall i :: 0 <= i < |s| ==> IsDigit(s[i])
  }

  function DigitValue(c: char): nat
    requires IsDigit(c)
  {
    (c as int) - ('0' as int)
  }

  function DigitChar(d: nat): char
    requires d < 10
  {
    ((('0' as int) + d) as char)
  }

  /** The number a string of decimal digits denotes, most significant first. */
  function DigitsValue(s: string): nat
    requires AllDigits(s)
  {
    if |s| == 0 then 0 else DigitsValue(s[..|s| - 1]) * 10 + DigitValue(s[|s| - 1])
  }

  /** Python's `int(s)` on a string, restricted to an optional sign followed
      by one or more ASCII digits; `None` stands for the ValueError. */
  function ParseInt(s: string): Option<int>
  {
    if |s| > 0 && (s[0] == '+' || s[0] == '-') then
      var digits := s[1..];
      if |digits| > 0 && AllDigits(digits) then
        var m: int := DigitsValue(digits);
        Some(if s[0] == '-' then -m else m)
      else None
    else if |s| > 0 && AllDigits(s) then Some(DigitsValue(s))
    else None
  }

  /** Python's `str(n)` for a natural number: its shortest decimal spelling. */
  function RenderNat(n: nat): (s: string)
    ensures |s| > 0 && AllDigits(s)
    ensures n < 10 <==> |s| == 1
    ensures s[0] != '0' || n == 0
  {
    if n < 10 then [DigitChar(n)] else RenderNat(n / 10) + [DigitChar(n % 10)]
  }

  /** Python's `str(n)` for any integer. */
  function RenderInt(n: int): string
  {
    if n < 0 then "-" + RenderNat(-n) else RenderNat(n)
  }

  lemma {:induction false} DigitsValueOfRender(n: nat)
    ensures DigitsValue(RenderNat(n)) == n
  {
    if n >= 10 {
      var s := RenderNat(n);
      assert s[..|s| - 1] == RenderNat(n / 10);
      DigitsValueOfRender(n / 10);
    }
  }

  /** Parsing inverts rendering: `int(str(n)) == n`. */
  lemma {:induction false} ParseRenderRoundTrip(n: int)
    ensures ParseInt(RenderInt(n)) == Some(n)
  {
    if n < 0 {
      var digits := RenderNat(-n);
      DigitsValueOfRender(-n);
      var s := RenderInt(n);
      assert s == "-" + digits;
      assert s[0] == '-' && s[1..] == digits;
    } else {
      var s := RenderNat(n);
      DigitsValueOfRender(n);
      assert s[0] != '+' && s[0] != '-' by { assert IsDigit(s[0]); }
    }
  }

  /** The outcome of Python's `int(v)` on a decoded JSON value. */
  datatype Conversion = Converted(n: int) | ValueError | TypeError

  function ToInt(v: Value): Conversion
  {
    match v
    case Str(s) => (match ParseInt(s) case Some(n) => Converted(n) case None => ValueError)
    case Num(n) => Converted(n)
    case Bool(b) => Converted(if b then 1 else 0)
    case Null => TypeError
    case Arr(_) => TypeError
    case Obj(_) => TypeError
  }

  /** A page size the script keeps as given. */
  predicate Acceptable(v: Value)
  {
    ToInt(v).Converted? && MinPageSize <= ToInt(v).n <= MaxPageSize
  }

  lemma DefaultIsAcceptable()
    ensures ToInt(DefaultPageSize) == Converted(100)
    ensures Acceptable(DefaultPageSize)
  {
    assert "100"[..2] == "10" && "10"[..1] == "1" && "1"[..0] == "";
    assert DigitsValue("1") == 1;
    assert DigitsValue("10") == 10;
    assert DigitsValue("100") == 100;
  }

  /** The effective page size; `None` is the uncaught TypeError. */
  function Normalise(v: Value): (r: Option<Value>)
    ensures r.None? <==> ToInt(v).TypeError?
    ensures r.Some? ==> Acceptable(r.value)
    ensures r.Some? ==> (r.value == v <==> Acceptable(v))
    ensures r.Some? && !Acceptable(v) ==> r.value == DefaultPageSize
  {
    DefaultIsAcceptable();
    match ToInt(v)
    case TypeError => None
    case ValueError => Some(DefaultPageSize)
    case Converted(n) => if MinPageSize <= n <= MaxPageSize then Some(v) else Some(DefaultPageSize)
  }

  /** Normalising an already normalised page size changes nothing. */
  lemma NormaliseIdempotent(v: Value)
    requires Normalise(v).Some?
    ensures Normalise(Normalise(v).value) == Normalise(v)
  {
  }

  /** A zero-padded in-range string is kept verbatim, not re-rendered. */
  lemma PaddedSizeKept()
    ensures ToInt(Str("050")) == Converted(50)
    ensures Normalise(Str("050")) == Some(Str("050"))
  {
    assert "050"[..2] == "05" && "05"[..1] == "0" && "0"[..0] == "";
    assert DigitsValue("0") == 0;
    assert DigitsValue("05") == 5;
    assert DigitsValue("050") == 50;
  }

  /** A size below the range is replaced by the default. */
  lemma SmallSizeReplaced()
    ensures Normalise(Str("5")) == Some(DefaultPageSize)
  {
  }
}
