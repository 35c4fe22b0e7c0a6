/** `MNURL`: a resource locator that is absent, a `URL`, or a string. Foundation's URL
    type is the type parameter `U`, and the Foundation calls the accessors rely on are
    the fields of `UrlApi`. */
module MNURL {
  import opened Optionals

  /** The Foundation operations `rawURL` and `rawString` use. On iOS 16 and later the
      source calls `URL(filePath:)` and `path(percentEncoded: false)`, before that
      `URL(fileURLWithPath:)` and `path`; each pair is one operation here. */
  datatype UrlApi<!U> = UrlApi(
    isAbsolutePath: string -> bool,   // `NSString.isAbsolutePath`
    fileUrl: string -> U,             // `URL(filePath:)` / `URL(fileURLWithPath:)`
    parse: string -> Option<U>,       // `URL(string:)`, which may fail
    isFileUrl: U -> bool,             // `URL.isFileURL`
    path: U -> string,                // `URL.path`
    absoluteString: U -> string)      // `URL.absoluteString`

  datatype Locator<U> =
    | Nil
    | UrlLocator(url: Option<U>)
    | StringLocator(text: Option<string>)

  /** `nil` literal. */
  function NilLiteral<U>(): (l: Locator<U>)
    ensures IsNil(l)
  {
    Nil
  }

  /** String literal `s`: kept as a string, converted only when read as a URL. */
  function StringLiteral<U>(s: string): (l: Locator<U>)
    ensures !IsNil(l)
    ensures l.StringLocator? && l.text == Some(s)
  {
    StringLocator(Some(s))
  }

  /** `rawURL`: the stored URL; a stored absolute path becomes a file URL, any other
      stored string goes through the general parse. */
  function RawUrl<U>(l: Locator<U>, api: UrlApi<U>): (r: Option<U>)
    ensures l.UrlLocator? ==> r == l.url
    ensures l.StringLocator? && l.text.Some? && api.isAbsolutePath(l.text.value) ==> r.Some?
    ensures r.None? <==>
      || l == Nil || l == UrlLocator(None) || l == StringLocator(None)
      || (l.StringLocator? && l.text.Some? && !api.isAbsolutePath(l.text.value) && api.parse(l.text.value).None?)
  {
    match l
    case Nil => None
    case UrlLocator(u) => u
    case StringLocator(s) =>
      if s.None? then None
      else if api.isAbsolutePath(s.value) then Some(api.fileUrl(s.value))
      else api.parse(s.value)
  }

  /** `rawString`: the stored string; a stored file URL gives its path, any other stored
      URL its absolute string. */
  function RawString<U>(l: Locator<U>, api: UrlApi<U>): (r: Option<string>)
    ensures r.None? <==> l == Nil || l == UrlLocator(None) || l == StringLocator(None)
    ensures l.StringLocator? ==> r == l.text
  {
    match l
    case Nil => None
    case StringLocator(s) => s
    case UrlLocator(u) =>
      if u.None? then None
      else if api.isFileUrl(u.value) then Some(api.path(u.value))
      else Some(api.absoluteString(u.value))
  }

  /** `isNil`: only the `.nil` case. */
  predicate IsNil<U>(l: Locator<U>)
  {
    l.Nil?
  }

  /** The lifts of the accessors to `Optional<MNURL>`. */
  function OptionalRawUrl<U>(o: Option<Locator<U>>, api: UrlApi<U>): Option<U>
  {
    if o.None? then None else RawUrl(o.value, api)
  }

  function OptionalRawString<U>(o: Option<Locator<U>>, api: UrlApi<U>): Option<string>
  {
    if o.None? then None else RawString(o.value, api)
  }

  predicate OptionalIsNil<U>(o: Option<Locator<U>>)
  {
    o.None? || IsNil(o.value)
  }

  /** Each accessor returns its own kind of payload unchanged, and is absent for `.nil`
      and for the other kind's missing payload. */
  lemma PayloadPassesThrough<U>(l: Locator<U>, api: UrlApi<U>)
    ensures l.UrlLocator? ==> RawUrl(l, api) == l.url
    ensures l.StringLocator? ==> RawString(l, api) == l.text
    ensures l == Nil || l == StringLocator(None) ==> RawUrl(l, api).None?
    ensures l == Nil || l == UrlLocator(None) ==> RawString(l, api).None?
  {
  }

  /** The literals: `nil` has neither reading, and a string literal reads back as itself. */
  lemma Literals<U>(s: string, api: UrlApi<U>)
    ensures RawUrl(NilLiteral(), api).None? && RawString(NilLiteral(), api).None?
    ensures RawString(StringLiteral(s), api) == Some(s)
  {
  }

  /** Only `.nil` is nil; yet both accessors are also absent for a missing payload. A
      relative string the general parse rejects has no URL but still its string. */
  lemma BothAbsentIff<U>(l: Locator<U>, api: UrlApi<U>)
    ensures IsNil(l) <==> l == Nil
    ensures !IsNil(Locator<U>.UrlLocator(None)) && !IsNil(Locator<U>.StringLocator(None))
    ensures RawUrl(l, api).None? && RawString(l, api).None? <==>
      || l == Nil
      || l == UrlLocator(None)
      || l == StringLocator(None)
  {
  }

  /** String to URL: an absolute path is always turned into a file URL, whatever the
      general parse would say; a relative string is exactly what the parse gives. */
  lemma StringToUrl<U>(s: string, api: UrlApi<U>)
    ensures api.isAbsolutePath(s) ==> RawUrl(StringLiteral(s), api) == Some(api.fileUrl(s))
    ensures !api.isAbsolutePath(s) ==> RawUrl(StringLiteral(s), api) == api.parse(s)
  {
  }

  /** URL to string: never absent for a present URL; a file URL is rendered by its path. */
  lemma UrlToString<U>(u: U, api: UrlApi<U>)
    ensures RawString(UrlLocator(Some(u)), api).Some?
    ensures api.isFileUrl(u) ==> RawString(UrlLocator(Some(u)), api) == Some(api.path(u))
    ensures !api.isFileUrl(u) ==> RawString(UrlLocator(Some(u)), api) == Some(api.absoluteString(u))
  {
  }

  /** An absolute path survives the trip string -> URL -> string whenever Foundation's
      file URL for it is a file URL whose path is the original string. */
  lemma AbsolutePathRoundTrip<U>(s: string, api: UrlApi<U>)
    requires api.isAbsolutePath(s)
    requires api.isFileUrl(api.fileUrl(s)) && api.path(api.fileUrl(s)) == s
    ensures RawString(UrlLocator(RawUrl(StringLiteral(s), api)), api) == Some(s)
  {
  }

  /** A remote address survives the same trip whenever it parses to a non-file URL whose
      absolute string is the original text. */
  lemma RemoteRoundTrip<U>(s: string, api: UrlApi<U>)
    requires !api.isAbsolutePath(s) && api.parse(s).Some?
    requires !api.isFileUrl(api.parse(s).value) && api.absoluteString(api.parse(s).value) == s
    ensures RawString(UrlLocator(RawUrl(StringLiteral(s), api)), api) == Some(s)
  {
  }

  /** On `Optional<MNURL>`, `none` reads exactly like `.nil`, and `some(l)` like `l`. */
  lemma OptionalLifts<U>(o: Option<Locator<U>>, api: UrlApi<U>)
    ensures OptionalRawUrl(None, api) == None && OptionalRawString(None, api) == None
    ensures OptionalIsNil<U>(None)
    ensures o.Some? ==>
      && OptionalRawUrl(o, api) == RawUrl(o.value, api)
      && OptionalRawString(o, api) == RawString(o.value, api)
      && (OptionalIsNil(o) <==> IsNil(o.value))
    ensures OptionalIsNil(o) <==> o == None || o == Some(Nil)
  {
  }
}
