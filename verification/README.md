# MNKitCore dispatch rules in Dafny

This project models the part of MNKitCore that makes its own decisions rather than
passing a call on to UIKit or the Objective-C runtime:

- the three closed value types `MNBadge`, `MNString` and `MNURL`: their literal
  constructors, their `raw*` coercions, `isNil`, and the lifts of those accessors to
  `Optional`, together with the rule `NSAttributedString(string:attributes:)` uses to choose
  between the value's own attributes and the caller's;
- the scale-suffix search of `Bundle.image(named:type:directory:)` (`name@3x`, `name@2x`,
  then `name`, or one exact lookup when the name already holds `@`);
- the search order of `Bundle(name:)` (main bundle first, then the framework's location);
- `UIResponder.seek(as:)`, a first-match walk along the `next` chain;
- the `mn` namespace wrapper and its associated values on an object: `userInfo` and the
  one-shot `isFirstAssociated` flag.

Every Foundation or UIKit call the code relies on is a parameter, so each property holds
whatever that call does: `NSDecimalNumber(string:).intValue` (`MNBadge.DecimalReader`),
the URL operations (`MNURL.UrlApi`), `path(forResource:ofType:inDirectory:)`,
`UIImage(contentsOfFile:)`, `Bundle(path:)` and the runtime type test `is T`. Two of them
are given a definition. The text of an integer (`NSNumber(value:).stringValue` and
`"\(n)"`) is its decimal numeral (`Decimal.Describe`). An `NSAttributedString` is
represented by its characters and the attribute dictionary it was built from; the model
keeps a nil dictionary apart from an empty one (see "Left out").

Files: `wrappers.dfy` (Swift's `Optional`, module `Optionals`), `decimal.dfy` (integer text and a reference
reader for it), and one file per Swift source: `mnbadge.dfy`, `mnstring.dfy`, `mnurl.dfy`,
`mnextension.dfy`, `mnnamespace.dfy`.

## Model

| member | source | states |
|---|---|---|
| Decimal.Digits | Classes/MNBadge.swift:63 | the digits of a natural number: at least one, all decimal digits, no leading zero |
| Decimal.Describe | Classes/MNBadge.swift:63 | the text of an integer is never empty, starts with '-' exactly for negative numbers, and is canonical: no leading zero and no "-0"; DescribeRoundTrip fixes its value |
| Decimal.DescribeRoundTrip | Classes/MNBadge.swift:63 | the text given for an integer is its decimal numeral: reading it back yields that integer |
| Decimal.DescribeInjective | Classes/MNBadge.swift:63 | distinct integers never get the same text |
| MNBadge.NilLiteral | Classes/MNBadge.swift:23-25 | the `nil` literal builds a badge that is nil |
| MNBadge.IntegerLiteral | Classes/MNBadge.swift:31-33 | an integer literal `n` is not nil, reads back as `n` as an integer and as the decimal text of `n` as a string |
| MNBadge.StringLiteral | Classes/MNBadge.swift:39-41 | a string literal `s` is not nil, reads back as `s`, and its integer reading is Foundation's numeric reading of `s` |
| MNBadge.RawInt | Classes/MNBadge.swift:47-54 | `rawInt` is absent exactly for `.nil` and `.int(nil)`; an integer badge reads as its own payload |
| MNBadge.RawString | Classes/MNBadge.swift:57-65 | `rawString` is absent exactly for `.nil`, `.int(nil)` and `.string(nil)`; a string badge reads as its own payload; an integer badge reads as a decimal numeral of its number |
| MNBadge.IsNil | Classes/MNBadge.swift:68-73 | no contract of its own; BothAbsentIff states it holds exactly for `.nil`, and EmptyPayloadIsNotNil and OptionalLifts give the empty-payload and Optional cases |
| MNBadge.OptionalRawInt | Classes/MNBadge.swift:79-82 | no contract of its own; characterised by OptionalLifts |
| MNBadge.OptionalRawString | Classes/MNBadge.swift:85-88 | no contract of its own; characterised by OptionalLifts |
| MNBadge.OptionalIsNil | Classes/MNBadge.swift:91-94 | no contract of its own; characterised by OptionalLifts |
| MNBadge.PayloadPassesThrough | Classes/MNBadge.swift:50-60 | `.int(v)` reads as `v` and `.string(s)` as `s`, present or absent; in particular `.string(nil)` has no string |
| MNBadge.BothAbsentIff | Classes/MNBadge.swift:47-73 | `isNil` holds exactly for `.nil`; it implies both readings are absent; both are absent exactly for `.nil` and `.int(nil)`, so a string badge always has an integer reading |
| MNBadge.EmptyPayloadIsNotNil | Classes/MNBadge.swift:49-73 | `.int(nil)` and `.string(nil)` are not nil; `.string(nil)` still reads as the numeric reading of nil; `.int(nil)` has no string |
| MNBadge.IntStringIntRoundTrip | Classes/MNBadge.swift:47-64 | an integer badge turned into a string badge keeps its number when Foundation's reader agrees with decimal notation |
| MNBadge.RawStringOfIntInjective | Classes/MNBadge.swift:61-63 | two integer badges with the same string reading hold the same number |
| MNBadge.OptionalLifts | Classes/MNBadge.swift:76-95 | on `Optional<MNBadge>`, `none` reads exactly like `.nil` and `some(b)` like `b`; it is nil exactly for `none` and `some(.nil)` |
| MNString.NilLiteral | Classes/MNString.swift:21-23 | the `nil` literal builds a value that is nil |
| MNString.StringLiteral | Classes/MNString.swift:29-31 | a string literal `s` is not nil, reads back as `s`, and has no styled string of its own |
| MNString.RawString | Classes/MNString.swift:37-42 | the characters are present exactly for content, and are the content's string whatever its attributes |
| MNString.RawAttributedString | Classes/MNString.swift:45-52 | the styled string is present exactly for content with attributes, and holds that content's string and attributes |
| MNString.IsNil | Classes/MNString.swift:55-60 | no contract of its own; characterised by AccessorsAgree and MakeAttributedString |
| MNString.OptionalRawString | Classes/MNString.swift:66-69 | no contract of its own; characterised by OptionalLifts |
| MNString.OptionalRawAttributedString | Classes/MNString.swift:72-75 | no contract of its own; characterised by OptionalLifts |
| MNString.OptionalIsNil | Classes/MNString.swift:78-81 | no contract of its own; characterised by OptionalLifts |
| MNString.AccessorsAgree | Classes/MNString.swift:37-60 | the characters are present exactly when the value is not nil |
| MNString.MakeAttributedString | Classes/MNString.swift:90-97 | the caller's attributes default to nil; the init fails exactly for `.nil`; the result holds the value's characters; it is the value's own styled string when there is one, and otherwise carries the caller's attributes |
| MNString.OwnAttributesWin | Classes/MNString.swift:91-94 | the caller's attributes matter only for content without attributes of its own; in the model two different dictionaries then give different results, which Foundation does not promise for nil against an empty dictionary (see Left out) |
| MNString.LiteralTakesCallerAttributes | Classes/MNString.swift:93-94 | a plain literal is styled with exactly the caller's attributes |
| MNString.DefaultArguments | Classes/MNString.swift:15 | `.content(s)` defaults to no attributes, the same value as the string literal; the init called without attributes styles plain content with none |
| MNString.OptionalLifts | Classes/MNString.swift:63-81 | on `Optional<MNString>`, `none` reads exactly like `.nil` and `some(t)` like `t` |
| MNURL.NilLiteral | Classes/MNURL.swift:31-33 | the `nil` literal builds a locator that is nil |
| MNURL.StringLiteral | Classes/MNURL.swift:23-25 | a string literal `s` is a string locator holding `s`, not nil |
| MNURL.Literals | Classes/MNURL.swift:39-62 | the `nil` literal has neither reading, and a string literal reads back as the same string |
| MNURL.RawUrl | Classes/MNURL.swift:39-54 | a URL locator reads as its payload; an absolute path always yields a URL; the result is absent exactly for the three empty cases and for a relative string the general parse rejects |
| MNURL.RawString | Classes/MNURL.swift:57-72 | a string locator reads as its payload; the result is absent exactly for `.nil`, `.url(nil)` and `.string(nil)` |
| MNURL.IsNil | Classes/MNURL.swift:75-80 | no contract of its own; BothAbsentIff states it holds exactly for `.nil`, and OptionalLifts gives the Optional case |
| MNURL.OptionalRawUrl | Classes/MNURL.swift:86-89 | no contract of its own; characterised by OptionalLifts |
| MNURL.OptionalRawString | Classes/MNURL.swift:92-95 | no contract of its own; characterised by OptionalLifts |
| MNURL.OptionalIsNil | Classes/MNURL.swift:98-101 | no contract of its own; characterised by OptionalLifts |
| MNURL.PayloadPassesThrough | Classes/MNURL.swift:39-62 | `rawURL` of a URL locator and `rawString` of a string locator return the payload unchanged; `rawURL` is nil for `.nil` and `.string(nil)`, `rawString` for `.nil` and `.url(nil)` |
| MNURL.BothAbsentIff | Classes/MNURL.swift:39-80 | only `.nil` is nil, yet both readings are absent exactly for `.nil`, `.url(nil)` and `.string(nil)` |
| MNURL.StringToUrl | Classes/MNURL.swift:45-52 | a stored absolute path always becomes a file URL; any other stored string gives exactly what the general parse gives, possibly nil |
| MNURL.UrlToString | Classes/MNURL.swift:63-70 | a stored URL always has a string: its path when it is a file URL, its absolute string otherwise |
| MNURL.AbsolutePathRoundTrip | Classes/MNURL.swift:39-70 | the two dispatches fit together: an absolute path survives string to URL to string whenever Foundation's file URL for it is a file URL reporting that path (Foundation's own round trip is assumed, not proved) |
| MNURL.RemoteRoundTrip | Classes/MNURL.swift:39-70 | the two dispatches fit together: a relative string survives string to URL to string whenever it parses to a non-file URL whose absolute string is the original (Foundation's own round trip is assumed, not proved) |
| MNURL.OptionalLifts | Classes/MNURL.swift:83-101 | on `Optional<MNURL>`, `none` reads exactly like `.nil` and `some(l)` like `l` |
| MNExtension.Suffix | Classes/MNExtension.swift:160 | above scale 1 the suffix is `@`, a decimal numeral of the scale, then `x`; at scale 1 or below it is empty |
| MNExtension.Candidates | Classes/MNExtension.swift:155-166 | one to three names ending with the name itself: just the name when it holds `@`, otherwise the name with the suffixes of scales 3, 2 and 1 |
| MNExtension.SuffixValues | Classes/MNExtension.swift:158-160 | scale 3 gives `@3x`, scale 2 gives `@2x`, and scale 1 gives no suffix rather than `@1x` |
| MNExtension.ImageNamed | Classes/MNExtension.swift:153-170 | the type defaults to `png` and the directory to the bundle root; names are looked up in candidate order, stopping at the first hit; a name with `@` is looked up once, unchanged; the path is the reference first hit and nil only after every candidate missed; the image is the loaded file of that path, with no fallback when loading fails |
| MNExtension.ScaledSearch | Classes/MNExtension.swift:158-166 | the loop over scales 3, 2, 1 for a name without `@`: it looks up a prefix of the candidate list, every name but the last missed, and the path is the reference first hit, nil only after all three missed |
| MNExtension.ImageNamedDefaults | Classes/MNExtension.swift:153-161 | with the defaults, `image(named: name)` for any name without `@` first looks up `name@3x` of type `png` in the bundle root, and a hit there ends the search |
| MNExtension.FirstHitNoneIff | Classes/MNExtension.swift:159-168 | the search finds no path exactly when the bundle has none of the candidate names |
| MNExtension.FirstHitIsFirst | Classes/MNExtension.swift:159-166 | a found path belongs to a candidate all of whose predecessors missed |
| MNExtension.BundleNamed | Classes/MNExtension.swift:142-145 | no bundle when neither the main bundle nor the framework location has the `.bundle` resource |
| MNExtension.BundleSearchOrder | Classes/MNExtension.swift:143 | when the main bundle has the resource, its path is opened and the framework location has no influence; otherwise the framework location's path is opened, or nothing |
| MNExtension.Seek | Classes/MNExtension.swift:127-134 | the result is nil exactly when no responder after the receiver passes the type test; otherwise it is the first such responder in the chain starting at `next` |
| MNNameSpace.Mn | Classes/MNNameSpace.swift:32 | `x.mn` wraps `x` itself |
| MNNameSpace.SetUserInfo | Classes/MNNameSpace.swift:68-74 | setting a value stores it, boxed, under the object's user-info key; setting nil removes that entry; every other entry of the table is unchanged |
| MNNameSpace.IsFirstAssociated | Classes/MNNameSpace.swift:83-87 | true exactly when the object has no flag entry; afterwards the flag is recorded; a false answer leaves the table unchanged; nothing else changes |
| MNNameSpace.GetUserInfo | Classes/MNNameSpace.swift:76-79 | a boxed value under the object's user-info key is returned; no entry, or an entry that is not a box, reads as nil |
| MNNameSpace.UserInfoReadsBack | Classes/MNNameSpace.swift:67-79 | reading `userInfo` after setting it gives back what was set, a value or nil |
| MNNameSpace.UserInfoFrame | Classes/MNNameSpace.swift:46-49 | setting one object's `userInfo` changes no other object's `userInfo` and no object's first-association answer |
| MNNameSpace.FirstAssociatedFrame | Classes/MNNameSpace.swift:83-86 | asking `isFirstAssociated` changes no object's `userInfo` |
| MNNameSpace.FirstAssociatedOnce | Classes/MNNameSpace.swift:84-86 | the second of two consecutive queries answers false and changes nothing |
| MNNameSpace.FirstAssociatedAtMostOnce | Classes/MNNameSpace.swift:83-87 | over any sequence of operations an object's query answers true at most once, and never once its flag is recorded |
| MNNameSpace.UserInfoOnlyChangedBySetter | Classes/MNNameSpace.swift:67-79 | an object's `userInfo` reads the same after any operations that do not set it, so the last write wins |

## Left out

- Screen, status-bar, tab-bar, navigation-bar and safe-area metrics (Classes/MNExtension.swift:13-119): UIKit queries on floating-point geometry with main-thread dispatch; no decision of the library's own.
- Method swizzling and nib loading (Classes/MNWrapper.swift): their meaning lies entirely in the Objective-C runtime and UIKit.
- The `NameSpaceWrapper` static bundle path and URL helpers (Classes/MNExtension.swift:176-211): compile-time-conditional pass-throughs to `Bundle.main`. The framework-location lookup `Bundle(name:)` uses is therefore a parameter.
- The internals of `NSDecimalNumber` parsing, `URL(string:)`, `NSString.isAbsolutePath`, `URL.isFileURL`, `URL.path`, `URL.absoluteString`, `Bundle.path(forResource:…)`, `Bundle(path:)` and `UIImage(contentsOfFile:)`: parameters, unknown to the model.
- The iOS 16 availability split in `MNURL` (`URL(filePath:)` against `URL(fileURLWithPath:)`, `path(percentEncoded: false)` against `path`): each pair is one parameter, so the model does not distinguish the OS versions.
- MNString.OwnAttributesWin: an attribute dictionary is an opaque value, so the model keeps a nil dictionary apart from an empty one, which Foundation does not; for those two arguments the model's results differ while Foundation's styled strings are equal.
- The `Any` payload of `MNAssociationLitted` and attribute dictionaries: type parameters.
- The retain/assign association policies and object lifetime: the associated-object table is a plain map from object and key to value.
- `String.contains("@")` is modelled as membership of the character `@`; grapheme clustering of a combining mark after `@` is not modelled.
- Swift `Int` is 64-bit (`MNBadge.Int`); values outside that range cannot be built, and the overflow behaviour of `NSDecimalNumber.intValue` lies in the reader parameter.
- MNExtension.Seek: the chain is a finite value, so a responder chain that loops back on itself (on which the source never returns) cannot be expressed; responders are compared as values, not by identity.
