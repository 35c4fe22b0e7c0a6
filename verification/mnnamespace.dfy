/** The `mn` namespace wrapper and the associated values it keeps on an object: a user
    value (`userInfo`) and a one-shot "first association" flag, held by the runtime's
    associated-object table under two distinct keys. Objects are values of type `O`
    compared by identity; the user value is of any type `V`. */
module MNNameSpace {
  import opened Optionals

  /** `NameSpaceWrapper`: holds the object its members act on. */
  datatype Wrapper<B> = Wrapper(base: B)

  /** `x.mn`: a fresh wrapper around `x` on every access. */
  function Mn<B>(x: B): (w: Wrapper<B>)
    ensures w.base == x
  {
    Wrapper(x)
  }

  /** The two association keys, `mn_user_info` and `mn_first_associated`. */
  datatype Key = UserInfoKey | FirstAssociatedKey

  /** What the table holds: the `MNAssociationLitted` box around a user value, or the
      boolean stored by `isFirstAssociated`. */
  datatype Associated<V> = Litted(value: V) | Flag(b: bool)

  /** The runtime's associated-object table: one entry per object and key. */
  type Store<O(==), V> = map<(O, Key), Associated<V>>

  /** `userInfo` setter: box and store a present value; remove the entry for nil. */
  function SetUserInfo<O(==), V>(st: Store<O, V>, w: Wrapper<O>, v: Option<V>): (st': Store<O, V>)
    ensures v.Some? ==> st'.Keys == st.Keys + {(w.base, UserInfoKey)}
    ensures v.Some? ==> st'[(w.base, UserInfoKey)] == Litted(v.value)
    ensures v.None? ==> st'.Keys == st.Keys - {(w.base, UserInfoKey)}
    ensures forall key :: key in st && key != (w.base, UserInfoKey) ==> st'[key] == st[key]
  {
    if v.Some? then st[(w.base, UserInfoKey) := Litted(v.value)] else st - {(w.base, UserInfoKey)}
  }

  /** `userInfo` getter: the boxed value, or nil when the entry is missing or is not a box. */
  function GetUserInfo<O(==), V>(st: Store<O, V>, w: Wrapper<O>): (r: Option<V>)
    ensures r.Some? ==> (w.base, UserInfoKey) in st && st[(w.base, UserInfoKey)] == Litted(r.value)
    ensures (w.base, UserInfoKey) !in st ==> r.None?
    ensures (w.base, UserInfoKey) in st && st[(w.base, UserInfoKey)].Litted? ==>
      r == Some(st[(w.base, UserInfoKey)].value)
  {
    var key := (w.base, UserInfoKey);
    if key in st && st[key].Litted? then Some(st[key].value) else None
  }

  /** `isFirstAssociated`: true, recording the flag, on the first query for an object;
      false, with the table unchanged, once any value is stored under the flag's key. */
  function IsFirstAssociated<O(==), V>(st: Store<O, V>, w: Wrapper<O>): (r: (bool, Store<O, V>))
    ensures r.0 <==> (w.base, FirstAssociatedKey) !in st
    ensures (w.base, FirstAssociatedKey) in r.1
    ensures !r.0 ==> r.1 == st
    ensures r.1.Keys == st.Keys + {(w.base, FirstAssociatedKey)}
    ensures forall key :: key in st && key != (w.base, FirstAssociatedKey) ==> r.1[key] == st[key]
  {
    var key := (w.base, FirstAssociatedKey);
    if key in st then (false, st) else (true, st[key := Flag(true)])
  }

  /** Reading `userInfo` after setting it gives back what was set, present or nil. */
  lemma UserInfoReadsBack<O, V>(st: Store<O, V>, x: O, v: Option<V>)
    ensures GetUserInfo(SetUserInfo(st, Mn(x), v), Mn(x)) == v
  {
  }

  /** Setting one object's `userInfo` leaves every other object's unchanged, and no
      object's first-association answer changes. */
  lemma UserInfoFrame<O, V>(st: Store<O, V>, x: O, y: O, v: Option<V>)
    ensures x != y ==> GetUserInfo(SetUserInfo(st, Mn(x), v), Mn(y)) == GetUserInfo(st, Mn(y))
    ensures IsFirstAssociated(SetUserInfo(st, Mn(x), v), Mn(y)).0 == IsFirstAssociated(st, Mn(y)).0
  {
  }

  /** Asking `isFirstAssociated` leaves every object's `userInfo` unchanged. */
  lemma FirstAssociatedFrame<O, V>(st: Store<O, V>, x: O, y: O)
    ensures GetUserInfo(IsFirstAssociated(st, Mn(x)).1, Mn(y)) == GetUserInfo(st, Mn(y))
  {
  }

  /** Asking twice in a row: the second answer is false and the table is as the first
      call left it. */
  lemma FirstAssociatedOnce<O, V>(st: Store<O, V>, x: O)
    ensures var (_, st1) := IsFirstAssociated(st, Mn(x));
      IsFirstAssociated(st1, Mn(x)) == (false, st1)
  {
  }

  /** The operations a client can perform through `x.mn`. */
  datatype Op<O, V> = SetInfo(target: O, value: Option<V>) | GetInfo(target: O) | AskFirst(target: O)

  /** What an operation answers: nothing for a write, a value for a read, a flag for a query. */
  datatype Answer<V> = Done | Info(info: Option<V>) | First(first: bool)

  function Step<O(==), V>(st: Store<O, V>, op: Op<O, V>): (Answer<V>, Store<O, V>)
  {
    match op
    case SetInfo(x, v) => (Done, SetUserInfo(st, Mn(x), v))
    case GetInfo(x) => (Info(GetUserInfo(st, Mn(x))), st)
    case AskFirst(x) =>
      var (b, st') := IsFirstAssociated(st, Mn(x));
      (First(b), st')
  }

  /** Runs operations in order, collecting their answers. */
  function Run<O(==), V>(st: Store<O, V>, ops: seq<Op<O, V>>): (r: (seq<Answer<V>>, Store<O, V>))
    ensures |r.0| == |ops|
    decreases |ops|
  {
    if |ops| == 0 then ([], st)
    else
      var (a, st1) := Step(st, ops[0]);
      var (rest, st2) := Run(st1, ops[1..]);
      ([a] + rest, st2)
  }

  /** How many queries about `x` answered true. */
  function TrueAnswers<O(==), V>(ops: seq<Op<O, V>>, answers: seq<Answer<V>>, x: O): nat
    requires |answers| == |ops|
    decreases |ops|
  {
    if |ops| == 0 then 0
    else
      var here := if ops[0] == AskFirst(x) && answers[0] == First(true) then 1 else 0;
      here + TrueAnswers(ops[1..], answers[1..], x)
  }

  /** Over any sequence of operations, `isFirstAssociated` answers true for an object at
      most once, and never once the flag is already recorded. */
  lemma {:induction false} FirstAssociatedAtMostOnce<O, V>(st: Store<O, V>, ops: seq<Op<O, V>>, x: O)
    ensures TrueAnswers(ops, Run(st, ops).0, x) <= 1
    ensures (x, FirstAssociatedKey) in st ==> TrueAnswers(ops, Run(st, ops).0, x) == 0
    ensures (x, FirstAssociatedKey) in st ==> (x, FirstAssociatedKey) in Run(st, ops).1
    decreases |ops|
  {
    if |ops| > 0 {
      var (a, st1) := Step(st, ops[0]);
      FirstAssociatedAtMostOnce(st1, ops[1..], x);
      if (x, FirstAssociatedKey) in st {
        assert (x, FirstAssociatedKey) in st1;
      }
      if ops[0] == AskFirst(x) {
        assert (x, FirstAssociatedKey) in st1;
      }
    }
  }

  /** An object's `userInfo` changes only through its own setter: after any operations
      none of which sets it, it reads as before. With `UserInfoReadsBack` this makes the
      last write win. */
  lemma {:induction false} UserInfoOnlyChangedBySetter<O, V>(st: Store<O, V>, ops: seq<Op<O, V>>, x: O)
    requires forall i :: 0 <= i < |ops| ==> !(ops[i].SetInfo? && ops[i].target == x)
    ensures GetUserInfo(Run(st, ops).1, Mn(x)) == GetUserInfo(st, Mn(x))
    decreases |ops|
  {
    if |ops| > 0 {
      var (a, st1) := Step(st, ops[0]);
      match ops[0] {
        case SetInfo(y, v) => UserInfoFrame(st, y, x, v);
        case GetInfo(y) =>
        case AskFirst(y) => FirstAssociatedFrame(st, y, x);
      }
      assert GetUserInfo(st1, Mn(x)) == GetUserInfo(st, Mn(x));
      UserInfoOnlyChangedBySetter(st1, ops[1..], x);
    }
  }
}
