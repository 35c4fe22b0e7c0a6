/** The dispatch rules of the `Bundle` and `UIResponder` extensions: the scale-suffix
    search of `image(named:type:directory:)`, the bundle search order of
    `Bundle(name:)`, and the responder-chain search of `seek(as:)`. Bundle lookups,
    image loading and bundle opening are parameters. */
module MNExtension {
  import opened Optionals
  import opened Decimal

  /** `path(forResource:ofType:inDirectory:)` of the receiving bundle. */
  type PathLookup<P> = (string, string, Option<string>) -> Option<P>

  /** The file-name suffix for a screen scale: `@<scale>x` above 1, nothing otherwise. */
  function Suffix(scale: int): (r: string)
    ensures scale <= 1 ==> r == ""
    ensures scale > 1 ==> 3 <= |r| && r[0] == '@' && r[|r| - 1] == 'x' && ParseDecimal(r[1..|r| - 1]) == Some(scale)
  {
    if scale > 1 then
      var r := "@" + Describe(scale) + "x";
      assert r[1..|r| - 1] == Describe(scale);
      DescribeRoundTrip(scale);
      r
    else ""
  }

  /** The names tried for an image, in order. A name that already holds `@` names one
      file exactly; any other name is tried at scales 3, 2 and then without a suffix. */
  function Candidates(name: string): (c: seq<string>)
    ensures 1 <= |c| <= 3
    ensures c[|c| - 1] == name
    ensures '@' in name ==> c == [name]
    ensures '@' !in name ==> c == [name + Suffix(3), name + Suffix(2), name + Suffix(1)]
  {
    SuffixValues();
    assert name + "" == name;
    if '@' in name then [name] else [name + "@3x", name + "@2x", name]
  }

  /** Reference search: the path of the first name the bundle has. */
  function FirstHit<P>(names: seq<string>, ext: string, subpath: Option<string>, lookup: PathLookup<P>): Option<P>
  {
    if |names| == 0 then None
    else if lookup(names[0], ext, subpath).Some? then lookup(names[0], ext, subpath)
    else FirstHit(names[1..], ext, subpath, lookup)
  }

  lemma SuffixValues()
    ensures Suffix(3) == "@3x" && Suffix(2) == "@2x" && Suffix(1) == ""
  {
    assert Describe(3) == "3";
    assert Describe(2) == "2";
  }

  /** `image(named:type:directory:)`, with the type defaulting to `png` and the directory
      to the bundle's root. Returns the image, the path it was loaded from, and the names
      looked up, in order. The search stops at the first path found: if that file does
      not load, the result is nil and no lower scale is tried. */
  method ImageNamed<P, I>(name: string, lookup: PathLookup<P>, load: P -> Option<I>,
                          ext: string := "png", subpath: Option<string> := None)
    returns (image: Option<I>, imagePath: Option<P>, probes: seq<string>)
    ensures 1 <= |probes| && probes <= Candidates(name)
    ensures '@' in name ==> probes == [name]
    ensures forall i :: 0 <= i < |probes| - 1 ==> lookup(probes[i], ext, subpath).None?
    ensures imagePath == lookup(probes[|probes| - 1], ext, subpath)
    ensures imagePath.None? ==> probes == Candidates(name)
    ensures imagePath == FirstHit(Candidates(name), ext, subpath, lookup)
    ensures image == (if imagePath.Some? then load(imagePath.value) else None)
  {
    if '@' in name {
      imagePath := lookup(name, ext, subpath);
      probes := [name];
    } else {
      imagePath, probes := ScaledSearch(name, lookup, ext, subpath);
    }
    if imagePath.None? {
      image := None;
    } else {
      image := load(imagePath.value);
    }
  }

  /** The `while scale > 0` loop: scales 3, 2, 1 in turn, stopping at the first name the
      bundle has. */
  method ScaledSearch<P>(name: string, lookup: PathLookup<P>, ext: string, subpath: Option<string>)
    returns (imagePath: Option<P>, probes: seq<string>)
    requires '@' !in name
    ensures 1 <= |probes| && probes <= Candidates(name)
    ensures forall i :: 0 <= i < |probes| - 1 ==> lookup(probes[i], ext, subpath).None?
    ensures imagePath == lookup(probes[|probes| - 1], ext, subpath)
    ensures imagePath.None? ==> probes == Candidates(name)
    ensures imagePath == FirstHit(Candidates(name), ext, subpath, lookup)
  {
    ghost var cands := Candidates(name);
    imagePath := None;
    var scale := 3;
    probes := [];
    while scale > 0
      invariant 0 <= scale <= 3
      invariant probes == cands[..3 - scale]
      invariant forall i :: 0 <= i < |probes| ==> lookup(probes[i], ext, subpath).None?
      invariant FirstHit(cands, ext, subpath, lookup) == FirstHit(cands[3 - scale..], ext, subpath, lookup)
      invariant imagePath.None?
      decreases scale
    {
      var candidate := name + Suffix(scale);
      CandidateAt(name, scale);
      assert cands[..3 - scale] + [candidate] == cands[..4 - scale];
      probes := probes + [candidate];
      var path := lookup(candidate, ext, subpath);
      if path.Some? {
        imagePath := path;
        return;
      }
      FirstHitSkip(cands[3 - scale..], ext, subpath, lookup);
      assert cands[3 - scale..][1..] == cands[3 - (scale - 1)..];
      scale := scale - 1;
    }
  }

  /** The loop's name at `scale` is the candidate at position `3 - scale`. */
  lemma CandidateAt(name: string, scale: int)
    requires '@' !in name && 1 <= scale <= 3
    ensures name + Suffix(scale) == Candidates(name)[3 - scale]
  {
  }

  /** A name the bundle lacks is passed over. */
  lemma FirstHitSkip<P>(names: seq<string>, ext: string, subpath: Option<string>, lookup: PathLookup<P>)
    requires |names| > 0 && lookup(names[0], ext, subpath).None?
    ensures FirstHit(names, ext, subpath, lookup) == FirstHit(names[1..], ext, subpath, lookup)
  {
  }

  /** The search finds nothing exactly when the bundle has none of the names. */
  lemma {:induction false} FirstHitNoneIff<P>(names: seq<string>, ext: string, subpath: Option<string>, lookup: PathLookup<P>)
    ensures FirstHit(names, ext, subpath, lookup).None? <==>
      forall i :: 0 <= i < |names| ==> lookup(names[i], ext, subpath).None?
    decreases |names|
  {
    if |names| > 0 {
      FirstHitNoneIff(names[1..], ext, subpath, lookup);
      assert forall i :: 1 <= i < |names| ==> names[i] == names[1..][i - 1];
    }
  }

  /** A found path belongs to the first name the bundle has. */
  lemma {:induction false} FirstHitIsFirst<P>(names: seq<string>, ext: string, subpath: Option<string>, lookup: PathLookup<P>)
    ensures FirstHit(names, ext, subpath, lookup).Some? ==>
      exists i :: 0 <= i < |names| && lookup(names[i], ext, subpath) == FirstHit(names, ext, subpath, lookup)
        && forall j :: 0 <= j < i ==> lookup(names[j], ext, subpath).None?
    decreases |names|
  {
    if |names| > 0 && lookup(names[0], ext, subpath).None? {
      FirstHitIsFirst(names[1..], ext, subpath, lookup);
      if FirstHit(names, ext, subpath, lookup).Some? {
        var i :| 0 <= i < |names[1..]| && lookup(names[1..][i], ext, subpath) == FirstHit(names, ext, subpath, lookup)
          && forall j :: 0 <= j < i ==> lookup(names[1..][j], ext, subpath).None?;
        assert forall j :: 0 <= j < i + 1 ==> lookup(names[j], ext, subpath).None? by {
          forall j | 0 <= j < i + 1
            ensures lookup(names[j], ext, subpath).None?
          {
            if j > 0 { assert names[j] == names[1..][j - 1]; }
          }
        }
        assert lookup(names[i + 1], ext, subpath) == FirstHit(names, ext, subpath, lookup);
      }
    }
  }

  /** `Bundle(name:)`: the `.bundle` resource of the main bundle if it has one, otherwise
      that of the framework's resource location; then `Bundle(path:)`. */
  function BundleNamed<P, B>(name: string, mainPath: (string, string) -> Option<P>,
                             kitPath: (string, string) -> Option<P>, open: P -> Option<B>): (r: Option<B>)
    ensures mainPath(name, "bundle").None? && kitPath(name, "bundle").None? ==> r.None?
  {
    var path := if mainPath(name, "bundle").Some? then mainPath(name, "bundle") else kitPath(name, "bundle");
    if path.None? then None else open(path.value)
  }

  /** The main bundle wins: when it has the resource the framework location is never
      consulted, and only when it lacks it does the framework location decide. */
  lemma BundleSearchOrder<P, B>(name: string, mainPath: (string, string) -> Option<P>,
                                kit1: (string, string) -> Option<P>, kit2: (string, string) -> Option<P>,
                                open: P -> Option<B>)
    ensures mainPath(name, "bundle").Some? ==>
      && BundleNamed(name, mainPath, kit1, open) == open(mainPath(name, "bundle").value)
      && BundleNamed(name, mainPath, kit1, open) == BundleNamed(name, mainPath, kit2, open)
    ensures mainPath(name, "bundle").None? ==>
      BundleNamed(name, mainPath, kit1, open) ==
        (if kit1(name, "bundle").Some? then open(kit1(name, "bundle").value) else None)
  {
  }

  /** A responder and the rest of its chain; `next` is nil at the end. The chain is
      finite because it is a value built from its tail. `cls` is the runtime class the
      type test `is T` inspects. */
  datatype Responder<C> = Responder(cls: C, next: Option<Responder<C>>)

  /** The responders reachable from `n` by following `next`, `n` first. */
  function Chain<C>(n: Option<Responder<C>>): (c: seq<Responder<C>>)
    ensures n.Some? ==> |c| > 0 && c[0] == n.value
    decreases n
  {
    match n
    case None => []
    case Some(r) => [r] + Chain(r.next)
  }

  /** `seek(as:)`: walk the chain from the receiver's `next` (the receiver itself is not
      examined) and return the first responder that passes the type test. */
  method Seek<C>(self: Responder<C>, isA: C -> bool) returns (found: Option<Responder<C>>)
    ensures found.None? <==> forall i :: 0 <= i < |Chain(self.next)| ==> !isA(Chain(self.next)[i].cls)
    ensures found.Some? ==>
      exists i :: 0 <= i < |Chain(self.next)| && Chain(self.next)[i] == found.value && isA(found.value.cls)
        && forall j :: 0 <= j < i ==> !isA(Chain(self.next)[j].cls)
  {
    ghost var chain := Chain(self.next);
    ghost var k := 0;
    var next := self.next;
    while next.Some?
      invariant 0 <= k <= |chain|
      invariant Chain(next) == chain[k..]
      invariant forall j :: 0 <= j < k ==> !isA(chain[j].cls)
      decreases next
    {
      var responder := next.value;
      if isA(responder.cls) {
        return Some(responder);
      }
      next := responder.next;
      k := k + 1;
    }
    return None;
  }

  /** Called with the defaults, `image(named: name)` for a name without `@` first asks the
      bundle root for `name@3x` of type `png`, and a hit there ends the search. */
  method ImageNamedDefaults<P, I>(name: string, lookup: PathLookup<P>, load: P -> Option<I>)
    returns (probes: seq<string>)
    requires '@' !in name
    ensures 1 <= |probes| && probes[0] == name + "@3x"
    ensures lookup(name + "@3x", "png", None).Some? ==> probes == [name + "@3x"]
  {
    var image, imagePath;
    image, imagePath, probes := ImageNamed(name, lookup, load);
  }
}
