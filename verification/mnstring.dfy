/** `MNString`: text that is absent, or a string with optional styling attributes. The
    attribute dictionary is a type parameter `A`; an `NSAttributedString` is represented
    by its characters and the attribute dictionary it was built with (nil kept apart
    from an empty dictionary, which Foundation does not distinguish). */
module MNString {
  import opened Optionals

  datatype Text<A> =
    | Nil
    | Content(text: string, attributes: Option<A> := None)

  /** `NSAttributedString(string:attributes:)`: characters styled by an optional dictionary. */
  datatype AttributedString<A> = AttributedString(text: string, attributes: Option<A>)

  /** `nil` literal. */
  function NilLiteral<A>(): (t: Text<A>)
    ensures IsNil(t)
  {
    Nil
  }

  /** String literal `s`: plain content, carrying no attributes of its own. */
  function StringLiteral<A>(s: string): (t: Text<A>)
    ensures !IsNil(t)
    ensures RawString(t) == Some(s)
    ensures RawAttributedString(t) == None
  {
    Content(s, None)
  }

  /** `rawString`: the characters, whatever the attributes. */
  function RawString<A>(t: Text<A>): (r: Option<string>)
    ensures r.Some? <==> t.Content?
    ensures t.Content? ==> r == Some(t.text)
  {
    match t
    case Nil => None
    case Content(s, _) => Some(s)
  }

  /** `rawAttributedString`: present only when the content carries attributes. */
  function RawAttributedString<A>(t: Text<A>): (r: Option<AttributedString<A>>)
    ensures r.Some? <==> t.Content? && t.attributes.Some?
    ensures r.Some? ==> r.value.text == t.text && r.value.attributes == t.attributes
  {
    match t
    case Nil => None
    case Content(s, attributes) =>
      if attributes.None? then None else Some(AttributedString(s, attributes))
  }

  /** `isNil`: only the `.nil` case. */
  predicate IsNil<A>(t: Text<A>)
  {
    t.Nil?
  }

  /** The lifts of the accessors to `Optional<MNString>`. */
  function OptionalRawString<A>(o: Option<Text<A>>): Option<string>
  {
    if o.None? then None else RawString(o.value)
  }

  function OptionalRawAttributedString<A>(o: Option<Text<A>>): Option<AttributedString<A>>
  {
    if o.None? then None else RawAttributedString(o.value)
  }

  predicate OptionalIsNil<A>(o: Option<Text<A>>)
  {
    o.None? || IsNil(o.value)
  }

  /** `NSAttributedString(string: MNString, attributes:)`: copy the value's own styled
      string when it has one, otherwise style its characters with the caller's
      attributes; fail when there are no characters. */
  function MakeAttributedString<A>(t: Text<A>, attributes: Option<A> := None): (r: Option<AttributedString<A>>)
    ensures r.None? <==> IsNil(t)
    ensures r.Some? ==> RawString(t) == Some(r.value.text)
    ensures r.Some? && RawAttributedString(t).None? ==> r.value.attributes == attributes
    ensures RawAttributedString(t).Some? ==> r == RawAttributedString(t)
  {
    if RawAttributedString(t).Some? then
      Some(RawAttributedString(t).value)
    else if RawString(t).Some? then
      Some(AttributedString(RawString(t).value, attributes))
    else
      None
  }

  /** The characters are present exactly when the value is not nil. */
  lemma AccessorsAgree<A>(t: Text<A>)
    ensures RawString(t).Some? <==> !IsNil(t)
  {
  }

  /** The caller's attributes matter only when the value carries none of its own. */
  lemma OwnAttributesWin<A>(t: Text<A>, a1: Option<A>, a2: Option<A>)
    ensures MakeAttributedString(t, a1) != MakeAttributedString(t, a2) <==>
      t.Content? && t.attributes.None? && a1 != a2
  {
  }

  /** A plain literal takes on exactly the caller's attributes. */
  lemma LiteralTakesCallerAttributes<A>(s: string, attributes: Option<A>)
    ensures MakeAttributedString(StringLiteral(s), attributes) == Some(AttributedString(s, attributes))
  {
  }

  /** The Swift defaults: `.content(s)` carries no attributes, and the init called without
      attributes styles a plain value with none. */
  lemma DefaultArguments<A>(s: string, t: Text<A>)
    ensures Text<A>.Content(s) == StringLiteral(s)
    ensures MakeAttributedString(t) == MakeAttributedString(t, None)
    ensures t.Content? && t.attributes.None? ==> MakeAttributedString(t) == Some(AttributedString(t.text, None))
  {
  }

  /** On `Optional<MNString>`, `none` reads exactly like `.nil`, and `some(t)` like `t`. */
  lemma OptionalLifts<A>(o: Option<Text<A>>)
    ensures OptionalRawString<A>(None) == None && OptionalRawAttributedString<A>(None) == None
    ensures OptionalIsNil<A>(None)
    ensures o.Some? ==>
      && OptionalRawString(o) == RawString(o.value)
      && OptionalRawAttributedString(o) == RawAttributedString(o.value)
      && (OptionalIsNil(o) <==> IsNil(o.value))
    ensures OptionalIsNil(o) <==> o == None || o == Some(Nil)
  {
  }
}
