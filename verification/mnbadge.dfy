/** `MNBadge`: a badge value that is absent, an integer or a string, with lossy
    coercions between the numeric and the textual reading. */
module MNBadge {
  import opened Optionals
  import opened Decimal

  /** Swift `Int` on the 64-bit platforms the library targets. */
  type Int = x: int | -0x8000_0000_0000_0000 <= x < 0x8000_0000_0000_0000

  /** `NSDecimalNumber(string:).intValue`: Foundation's numeric reading of an optional
      string. It always yields an `Int` (a string that is absent or not a number still
      produces some value), so it is a total function here and otherwise unknown. */
  type DecimalReader = Option<string> -> Int

  datatype Badge =
    | Nil
    | IntBadge(number: Option<Int>)
    | StringBadge(text: Option<string>)

  /** `nil` literal. */
  function NilLiteral(): (b: Badge)
    ensures IsNil(b)
  {
    Nil
  }

  /** Integer literal `n`. */
  function IntegerLiteral(n: Int): (b: Badge)
    ensures !IsNil(b)
    ensures forall read: DecimalReader :: RawInt(b, read) == Some(n)
    ensures RawString(b) == Some(Describe(n))
  {
    IntBadge(Some(n))
  }

  /** String literal `s`. */
  function StringLiteral(s: string): (b: Badge)
    ensures !IsNil(b)
    ensures RawString(b) == Some(s)
    ensures forall read: DecimalReader :: RawInt(b, read) == Some(read(Some(s)))
  {
    StringBadge(Some(s))
  }

  /** `rawInt`: the stored integer, or Foundation's numeric reading of the stored string. */
  function RawInt(b: Badge, read: DecimalReader): (r: Option<Int>)
    ensures r.None? <==> b == Nil || b == IntBadge(None)
    ensures b.IntBadge? ==> r == b.number
  {
    match b
    case Nil => None
    case IntBadge(v) => v
    case StringBadge(s) => Some(read(s))
  }

  /** `rawString`: the stored string, or the decimal text of the stored integer. */
  function RawString(b: Badge): (r: Option<string>)
    ensures r.None? <==> b == Nil || b == IntBadge(None) || b == StringBadge(None)
    ensures b.StringBadge? ==> r == b.text
    ensures b.IntBadge? && b.number.Some? ==> ParseDecimal(r.value) == Some(b.number.value as int)
  {
    match b
    case Nil => None
    case StringBadge(s) => s
    case IntBadge(v) =>
      if v.None? then None
      else
        DescribeRoundTrip(v.value);
        Some(Describe(v.value))
  }

  /** `isNil`: only the `.nil` case, whatever payload the others carry. */
  predicate IsNil(b: Badge)
  {
    b.Nil?
  }

  /** The lifts of the three accessors to `Optional<MNBadge>`. */
  function OptionalRawInt(o: Option<Badge>, read: DecimalReader): Option<Int>
  {
    if o.None? then None else RawInt(o.value, read)
  }

  function OptionalRawString(o: Option<Badge>): Option<string>
  {
    if o.None? then None else RawString(o.value)
  }

  predicate OptionalIsNil(o: Option<Badge>)
  {
    o.None? || IsNil(o.value)
  }

  /** `isNil` implies both accessors are absent, but not conversely: both accessors are
      absent exactly for `.nil` and for an integer badge without a number. A string badge
      always has an integer reading, even `.string(nil)`. */
  lemma BothAbsentIff(b: Badge, read: DecimalReader)
    ensures IsNil(b) <==> b == Nil
    ensures IsNil(b) ==> RawInt(b, read).None? && RawString(b).None?
    ensures RawInt(b, read).None? && RawString(b).None? <==> b == Nil || b == IntBadge(None)
  {
  }

  /** `.int(nil)` and `.string(nil)` are not nil. */
  lemma EmptyPayloadIsNotNil(read: DecimalReader)
    ensures !IsNil(IntBadge(None)) && !IsNil(StringBadge(None))
    ensures RawInt(StringBadge(None), read) == Some(read(None))
    ensures RawString(IntBadge(None)) == None
  {
  }

  /** Each case's own payload passes through its accessor unchanged, whether present or
      not: `.int(v)` reads as `v` and `.string(s)` as `s`. */
  lemma PayloadPassesThrough(v: Option<Int>, s: Option<string>, read: DecimalReader)
    ensures RawInt(IntBadge(v), read) == v
    ensures RawString(StringBadge(s)) == s
  {
  }

  /** Integer badge to string badge and back: the number survives whenever Foundation's
      reader agrees with decimal notation on the numerals it is given. */
  lemma IntStringIntRoundTrip(v: Int, read: DecimalReader)
    requires forall s: string :: ParseDecimal(s).Some? && ParseDecimal(s).value == v ==> read(Some(s)) == v
    ensures RawInt(StringBadge(RawString(IntBadge(Some(v)))), read) == Some(v)
  {
    DescribeRoundTrip(v);
  }

  /** Different numbers never give the same badge text. */
  lemma RawStringOfIntInjective(a: Int, b: Int)
    ensures RawString(IntBadge(Some(a))) == RawString(IntBadge(Some(b))) ==> a == b
  {
    DescribeInjective(a, b);
  }

  /** On `Optional<MNBadge>`, `none` reads exactly like `.nil`, and `some(b)` like `b`. */
  lemma OptionalLifts(o: Option<Badge>, read: DecimalReader)
    ensures OptionalRawInt(None, read) == None && OptionalRawString(None) == None && OptionalIsNil(None)
    ensures o.Some? ==>
      && OptionalRawInt(o, read) == RawInt(o.value, read)
      && OptionalRawString(o) == RawString(o.value)
      && (OptionalIsNil(o) <==> IsNil(o.value))
    ensures OptionalIsNil(o) <==> o == None || o == Some(Nil)
  {
  }
}
