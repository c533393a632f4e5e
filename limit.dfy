/** The `limit` normaliser of src/app.ts: a middleware that replaces a query `limit` whose
  * numeric value is not positive by the default page size. The comparison is JavaScript's
  * `Number(req.query.limit) <= 0`, so the model classifies what `Number` makes of the
  * query value: not a number, negative, zero or positive. */
module Limit {
  import opened Base
  import opened Text
  import opened Http
  import Constants

  /** The sign of a JavaScript number, with NaN apart (NaN compares false with everything). */
  datatype Sign = NaN | Negative | Zero | Positive

  /** `x <= 0` for the number `x` of that sign; -0 counts as zero. */
  predicate NonPositive(s: Sign)
  {
    s == Negative || s == Zero
  }

  /** Position of the first exponent marker `e`/`E`, or the length when there is none. */
  function ExponentStart(s: string): (k: nat)
    ensures k <= |s|
    ensures forall i :: 0 <= i < k ==> s[i] != 'e' && s[i] != 'E'
    ensures k < |s| ==> s[k] == 'e' || s[k] == 'E'
  {
    if s == [] || s[0] == 'e' || s[0] == 'E' then 0 else 1 + ExponentStart(s[1..])
  }

  /** A decimal mantissa: digits with at most one point, and at least one digit. */
  predicate IsMantissa(m: string)
  {
    && (forall i :: 0 <= i < |m| ==> IsDigit(m[i]) || m[i] == '.')
    && (forall i, j :: 0 <= i < j < |m| && m[i] == '.' ==> m[j] != '.')
    && (exists i :: 0 <= i < |m| && IsDigit(m[i]))
  }

  /** An exponent after the marker: an optional sign and at least one digit. */
  predicate IsExponent(x: string)
  {
    if x != [] && (x[0] == '+' || x[0] == '-') then |x| > 1 && AllDigits(x[1..])
    else x != [] && AllDigits(x)
  }

  /** Every digit of the mantissa is zero. */
  predicate AllZero(m: string)
  {
    forall i :: 0 <= i < |m| ==> m[i] == '0' || m[i] == '.'
  }

  /** An unsigned decimal literal of StringToNumber (`Infinity`, `12`, `1.`, `.5`, `2e-3`):
    * `Some(isZero)` when `u` is one, `None` otherwise. */
  function UnsignedDecimal(u: string): Option<bool>
  {
    if u == "Infinity" then Some(false)
    else
      var k := ExponentStart(u);
      if !IsMantissa(u[..k]) then None
      else if k < |u| && !IsExponent(u[k + 1..]) then None
      else Some(AllZero(u[..k]))
  }

  predicate IsRadixDigit(c: char, radix: nat)
  {
    if radix == 2 then c == '0' || c == '1'
    else if radix == 8 then '0' <= c <= '7'
    else IsDigit(c) || 'a' <= c <= 'f' || 'A' <= c <= 'F'
  }

  /** A binary, octal or hexadecimal literal (`0b1`, `0o7`, `0x1F`): `Some(isZero)` when `t`
    * is one, `None` otherwise. */
  function NonDecimalInteger(t: string): Option<bool>
  {
    if |t| >= 3 && t[0] == '0' && t[1] in "bBoOxX" then
      var radix := if t[1] in "bB" then 2 else if t[1] in "oO" then 8 else 16;
      var ds := t[2..];
      if forall i :: 0 <= i < |ds| ==> IsRadixDigit(ds[i], radix) then Some(AllZero(ds)) else None
    else None
  }

  /** The sign of `Number(s)` for a string: surrounding white space is ignored, the empty
    * string is 0, a signed decimal literal has the sign of its mantissa, a non-decimal
    * integer literal is non-negative, and anything else is NaN. */
  function StringSign(s: string): Sign
  {
    var t := Trim(s);
    if t == "" then Zero
    else
      match NonDecimalInteger(t)
      case Some(zero) => if zero then Zero else Positive
      case None =>
        var negative := t[0] == '-';
        var u := if t[0] == '-' || t[0] == '+' then t[1..] else t;
        match UnsignedDecimal(u)
        case None => NaN
        case Some(zero) => if zero then Zero else if negative then Negative else Positive
  }

  /** The sign of `Number(v)` for a query value: an array is converted through its
    * comma-joined string, an object or a missing value is NaN. */
  function NumberSign(v: QueryValue): Sign
  {
    match v
    case Absent => NaN
    case Single(s) => StringSign(s)
    case Repeated(items) => StringSign(Join(items, ","))
    case Nested => NaN
  }

  /** `PAGE_LIMIT.toString()`. */
  const DefaultLimit: string := Decimal(Constants.PAGE_LIMIT)

  /** A string that neither starts nor ends with white space is its own trim. */
  lemma TrimOfUnpadded(s: string)
    requires s != [] && !IsJsWhitespace(s[0]) && !IsJsWhitespace(s[|s| - 1])
    ensures Trim(s) == s
  {
    assert TrimStart(s) == s;
  }

  /** A plain string of digits is an unsigned decimal literal, zero iff its digits are. */
  lemma DigitsAreDecimal(u: string)
    requires u != [] && AllDigits(u)
    ensures UnsignedDecimal(u) == Some(AllZero(u))
  {
    var k := ExponentStart(u);
    assert u[..k] == u;
    assert IsDigit(u[0]);
  }

  /** `Number` of a numeral of digits is zero or positive. */
  lemma NumeralSign(s: string)
    requires s != [] && AllDigits(s)
    ensures StringSign(s) == if AllZero(s) then Zero else Positive
  {
    assert IsDigit(s[0]) && IsDigit(s[|s| - 1]);
    TrimOfUnpadded(s);
    if |s| >= 3 {
      assert IsDigit(s[1]);
    }
    DigitsAreDecimal(s);
  }

  /** `Number` of a minus sign followed by digits is zero (for -0) or negative. */
  lemma NegativeNumeralSign(s: string)
    requires s != [] && AllDigits(s)
    ensures StringSign("-" + s) == if AllZero(s) then Zero else Negative
  {
    var t := "-" + s;
    assert IsDigit(s[|s| - 1]) && t[|t| - 1] == s[|s| - 1];
    TrimOfUnpadded(t);
    assert t[1..] == s;
    DigitsAreDecimal(s);
  }

  /** The rendering of a positive integer is a positive number. */
  lemma PositiveDecimalSign(n: nat)
    requires n > 0
    ensures StringSign(Decimal(n)) == Positive
  {
    var d := Decimal(n);
    NumeralSign(d);
    assert !AllZero(d) by {
      assert IsDigit(d[0]) && d[0] != '0';
    }
  }

  lemma DefaultLimitIsPositive()
    ensures DefaultLimit == "20"
    ensures StringSign(DefaultLimit) == Positive
  {
    assert DigitChar(2) == '2' && DigitChar(0) == '0';
    assert Decimal(20) == Decimal(2) + [DigitChar(0)];
    PositiveDecimalSign(Constants.PAGE_LIMIT);
  }

  /** `Number(q.limit) <= 0`: the limit reads as zero or a negative number. */
  predicate LimitNonPositive(q: map<string, QueryValue>)
  {
    NonPositive(NumberSign(QueryLookup(q, "limit")))
  }

  /** The query after the middleware: a `limit` whose number is not positive becomes the
    * default page size; every other query, including a missing or non-numeric limit, is
    * kept. Afterwards the limit is never a non-positive number, and no other key changes. */
  function NormalisedQuery(q: map<string, QueryValue>): (r: map<string, QueryValue>)
    ensures LimitNonPositive(q) ==> QueryLookup(r, "limit") == Single("20")
    ensures !LimitNonPositive(q) ==> r == q
    ensures !LimitNonPositive(r)
    ensures forall k :: k != "limit" ==> QueryLookup(r, k) == QueryLookup(q, k)
  {
    if LimitNonPositive(q) then
      DefaultLimitReplaces(q);
      DefaultLimitIsPositive();
      q["limit" := Single(DefaultLimit)]
    else q
  }

  /** Setting the default page size leaves a limit that is not ≤ 0. */
  lemma DefaultLimitReplaces(q: map<string, QueryValue>)
    ensures QueryLookup(q["limit" := Single(DefaultLimit)], "limit") == Single(DefaultLimit)
    ensures !LimitNonPositive(q["limit" := Single(DefaultLimit)])
  {
    PositiveDecimalSign(Constants.PAGE_LIMIT);
  }

  /** Running the middleware twice is running it once. */
  lemma NormaliseIdempotent(q: map<string, QueryValue>)
    ensures NormalisedQuery(NormalisedQuery(q)) == NormalisedQuery(q)
  {
  }

  /** The middleware itself: it overwrites `req.query.limit` in place, then calls `next`. */
  method NormaliseLimit(req: Request)
    modifies req`query
    ensures req.query == NormalisedQuery(old(req.query))
  {
    if LimitNonPositive(req.query) {
      req.query := req.query["limit" := Single(DefaultLimit)];
    }
  }

  /** An empty `limit=` reads as 0 and is replaced. */
  lemma EmptyLimitIsZero()
    ensures NumberSign(Single("")) == Zero
  {
    assert Trim("") == "";
  }
}
