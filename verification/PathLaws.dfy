/** Which value a reference path names: an own member or an element at every dot, however deep. */
module PathLaws {
  import opened Prelude
  import opened Values
  import opened AgentTypes
  import opened Collections
  import opened References
  import opened ReferenceLaws

  // ---------- What a value holds under a name ----------

  function Elements<T>(xs: List<T>): seq<T> {
    match xs
    case Nil => []
    case Cons(x, rest) => [x] + Elements(rest)
  }

  function AsList<T>(xs: seq<T>): (r: List<T>)
    ensures Elements(r) == xs
  {
    if xs == [] then Nil else Cons(xs[0], AsList(xs[1..]))
  }

  /** The first member of that name holds `w`. */
  ghost predicate IsFirst(own: seq<Member>, name: string, w: Value) { exists i: nat :: IsFirstAt(own, i, name, w) }

  predicate IsFirstAt(own: seq<Member>, i: nat, name: string, w: Value) {
    i < |own| && own[i] == Member(name, w) && forall j | 0 <= j < i :: own[j].key != name
  }

  /** `w` is the member of that name, the element of that number, or the length of the list. */
  ghost predicate Own(v: Value, name: string, w: Value) {
    match v
    case Obj(members) => IsFirst(Elements(members), name, w)
    case Arr(items) =>
      var own := Elements(items);
      if AllDigits(name) then DigitsToNat(name) < |own| && own[DigitsToNat(name)] == w
      else name == "length" && w == Num(NatToDigits(|own|))
    case _ => false
  }

  /** Following the names one after the other leads to `x`. */
  ghost predicate LeadsTo(v: Value, names: seq<string>, x: Value)
    decreases |names|
  {
    if names == [] then v == x else exists w :: Own(v, names[0], w) && LeadsTo(w, names[1..], x)
  }

  lemma FirstAtNext(m: Member, rest: seq<Member>, i: nat, name: string, w: Value)
    ensures IsFirstAt([m] + rest, 0, name, w) <==> m == Member(name, w)
    ensures m.key != name ==> (IsFirstAt([m] + rest, i + 1, name, w) <==> IsFirstAt(rest, i, name, w))
    ensures m.key == name ==> !IsFirstAt([m] + rest, i + 1, name, w)
  {
    var own := [m] + rest;
    assert own[0] == m && forall j | 0 <= j < |rest| :: own[j + 1] == rest[j];
  }

  lemma FirstOfMore(m: Member, rest: seq<Member>, name: string, w: Value)
    ensures IsFirst([m] + rest, name, w) <==> if m.key == name then m.value == w else IsFirst(rest, name, w)
  {
    hide IsFirstAt;
    var own := [m] + rest;
    FirstAtNext(m, rest, 0, name, w);
    if IsFirst(own, name, w) {
      var i: nat :| IsFirstAt(own, i, name, w);
      if i > 0 {
        FirstAtNext(m, rest, i - 1, name, w);
      }
    }
    if IsFirst(rest, name, w) {
      var i: nat :| IsFirstAt(rest, i, name, w);
      FirstAtNext(m, rest, i, name, w);
    }
  }

  lemma {:induction false} FirstMember(members: List<Member>, name: string, w: Value)
    requires w != Undefined
    ensures Lookup(members, name) == w <==> IsFirst(Elements(members), name, w)
    decreases members
  {
    hide IsFirst;
    match members
    case Nil => NoneIsFirst(name, w);
    case Cons(m, rest) =>
      FirstMember(rest, name, w);
      FirstOfMore(m, Elements(rest), name, w);
  }

  lemma NoneIsFirst(name: string, w: Value)
    ensures !IsFirst([], name, w)
  {
  }

  lemma {:induction false} NthElement(items: List<Value>, n: nat)
    ensures Nth(items, n) == if n < |Elements(items)| then Elements(items)[n] else Undefined
    ensures Length(items) == |Elements(items)|
    decreases items
  {
    if items.Cons? {
      NthElement(items.tail, if n == 0 then 0 else n - 1);
    }
  }

  lemma OwnIff(v: Value, name: string, w: Value)
    requires w != Undefined
    ensures Get(v, name) == w <==> Own(v, name, w)
  {
    match v
    case Obj(members) => FirstMember(members, name, w);
    case Arr(items) => NthElement(items, if AllDigits(name) then DigitsToNat(name) else 0);
    case _ =>
  }

  lemma {:induction false} NothingBelow(names: seq<string>)
    ensures Walk(Undefined, names) == Undefined
    ensures forall x | LeadsTo(Undefined, names, x) :: x == Undefined
    decreases |names|
  {
    if names != [] {
      NothingBelow(names[1..]);
    }
  }

  lemma {:induction false} LeadsIff(v: Value, names: seq<string>, x: Value)
    requires x != Undefined
    ensures Walk(v, names) == x <==> LeadsTo(v, names, x)
    decreases |names|
  {
    if names != [] {
      var next := Get(v, names[0]);
      NothingBelow(names[1..]);
      if next != Undefined {
        OwnIff(v, names[0], next);
        LeadsIff(next, names[1..], x);
      }
      forall w | Own(v, names[0], w) && LeadsTo(w, names[1..], x)
        ensures w == next
      {
        OwnIff(v, names[0], w);
      }
    }
  }

  // ---------- The names of a path ----------

  predicate Without(sep: char, pieces: seq<string>) { forall p | p in pieces :: sep !in p }

  function Join(pieces: seq<string>, sep: char): string
    requires pieces != []
  {
    if |pieces| == 1 then pieces[0] else pieces[0] + [sep] + Join(pieces[1..], sep)
  }

  lemma JoinOne(p: string, sep: char)
    ensures Join([p], sep) == p
  {
  }

  lemma JoinMore(p: string, pieces: seq<string>, sep: char)
    requires pieces != []
    ensures Join([p] + pieces, sep) == p + [sep] + Join(pieces, sep)
  {
    assert ([p] + pieces)[1..] == pieces;
  }

  lemma {:induction false} JoinOfSplit(s: string, sep: char)
    ensures Without(sep, Split(s, sep)) && Join(Split(s, sep), sep) == s
  {
    if s != "" {
      JoinOfSplit(s[1..], sep);
      var rest := Split(s[1..], sep);
      assert rest == [rest[0]] + rest[1..];
      assert s == [s[0]] + s[1..];
      if s[0] == sep {
        assert ([""] + rest)[1..] == rest;
      } else {
        assert ([[s[0]] + rest[0]] + rest[1..])[1..] == rest[1..];
      }
    }
  }

  lemma {:induction false} SplitOfPiece(p: string, more: string, sep: char)
    requires sep !in p
    ensures Split(p, sep) == [p] && Split(p + [sep] + more, sep) == [p] + Split(more, sep)
  {
    if p == "" {
      assert ("" + [sep] + more)[1..] == more;
    } else {
      SplitOfPiece(p[1..], more, sep);
      assert (p + [sep] + more)[1..] == p[1..] + [sep] + more;
      assert p == [p[0]] + p[1..];
    }
  }

  lemma {:induction false} SplitOfJoin(pieces: seq<string>, sep: char)
    requires pieces != [] && Without(sep, pieces)
    ensures Split(Join(pieces, sep), sep) == pieces
  {
    if |pieces| == 1 {
      SplitOfPiece(pieces[0], "", sep);
      assert pieces == [pieces[0]];
    } else {
      SplitOfJoin(pieces[1..], sep);
      SplitOfPiece(pieces[0], Join(pieces[1..], sep), sep);
      assert pieces == [pieces[0]] + pieces[1..];
    }
  }

  /** The pieces of a text are the only ones without the separator that it is joined from. */
  lemma PiecesAreUnique(s: string, sep: char, pieces: seq<string>)
    ensures Split(s, sep) == pieces <==> pieces != [] && Without(sep, pieces) && Join(pieces, sep) == s
  {
    JoinOfSplit(s, sep);
    if pieces != [] && Without(sep, pieces) {
      SplitOfJoin(pieces, sep);
    }
  }

  /** The names of a path are its pieces between dots, without the empty ones. */
  ghost predicate IsPath(path: string, names: seq<string>) {
    exists pieces | pieces != [] && Without('.', pieces) :: path == Join(pieces, '.') && names == Filter((p: string) => p != "", pieces)
  }

  lemma {:induction false} NonEmptyIsFilter(pieces: seq<string>)
    ensures NonEmpty(pieces) == Filter((p: string) => p != "", pieces)
  {
    if pieces != [] {
      NonEmptyIsFilter(pieces[1..]);
    }
  }

  lemma PathNames(path: string, names: seq<string>)
    ensures IsPath(path, names) <==> names == NonEmpty(Split(path, '.'))
  {
    JoinOfSplit(path, '.');
    NonEmptyIsFilter(Split(path, '.'));
    if IsPath(path, names) {
      var pieces :| pieces != [] && Without('.', pieces) && path == Join(pieces, '.') && names == Filter((p: string) => p != "", pieces);
      SplitOfJoin(pieces, '.');
    }
  }

  // ---------- What a reference resolves to ----------

  predicate IsBlocked(name: string) { name == "__proto__" || name == "prototype" || name == "constructor" }

  /** The path names `x` in the result: none of its names is blocked, and they lead there. */
  ghost predicate Names(result: Option<Value>, path: string, x: Value) {
    && result.Some? && x != Undefined
    && exists names :: IsPath(path, names) && names != [] && (forall n | n in names :: !IsBlocked(n)) && LeadsTo(result.value, names, x)
  }

  lemma ResultIsNamed(result: Option<Value>, path: string, x: Value)
    requires x != Undefined
    ensures ResultAtPath(result, path) == x <==> Names(result, path, x)
  {
    var names := NonEmpty(Split(path, '.'));
    PathNames(path, names);
    if result.Some? {
      LeadsIff(result.value, names, x);
    }
    forall other | IsPath(path, other)
      ensures other == names
    {
      PathNames(path, other);
    }
  }

  lemma {:induction false} FindFirst(steps: seq<Step>, i: nat)
    requires i < |steps| && forall j | 0 <= j < i :: steps[j].key != steps[i].key
    ensures FindStep(steps, steps[i].key) == Some(steps[i])
  {
    if i > 0 {
      assert steps[1..][i - 1] == steps[i] && forall j | 0 <= j < i - 1 :: steps[1..][j] == steps[j + 1];
      FindFirst(steps[1..], i - 1);
    }
  }

  /** Step `i` is the one that references with its key mean. */
  predicate IsSource(steps: seq<Step>, i: nat) { i < |steps| && forall j | 0 <= j < i :: steps[j].key != steps[i].key }

  /**
   A reference to a finished step resolves to exactly the value its path names in the result, at any
   depth, and is a missing path exactly when it names none.
   */
  lemma ReferenceNamesAValue(r: Ref, steps: seq<Step>, i: nat, x: Value)
    requires IsSource(steps, i) && steps[i].key == r.key && steps[i].status == Done
    ensures ResolveRef(r, steps) == Ok(x) <==> Names(steps[i].result, r.path, x)
    ensures ResolveRef(r, steps) == Err(MissingPath(r.key, r.path)) <==> forall y :: !Names(steps[i].result, r.path, y)
  {
    hide ResultAtPath, Names;
    FindFirst(steps, i);
    var found := ResultAtPath(steps[i].result, r.path);
    if found != Undefined {
      ResultIsNamed(steps[i].result, r.path, found);
    }
    forall y
      ensures Names(steps[i].result, r.path, y) <==> y != Undefined && y == found
    {
      if y != Undefined {
        ResultIsNamed(steps[i].result, r.path, y);
      } else {
        NothingNamedUndefined(steps[i].result, r.path);
      }
    }
  }

  lemma NothingNamedUndefined(result: Option<Value>, path: string)
    ensures !Names(result, path, Undefined)
  {
  }

  /** The other two errors: no step has the key, or the first that has it is not done. */
  lemma UnfinishedReferences(r: Ref, steps: seq<Step>)
    ensures ResolveRef(r, steps) == Err(MissingStep(r.key)) <==> forall s | s in steps :: s.key != r.key
    ensures ResolveRef(r, steps) == Err(NotDone(r.key))
       <==> exists i: nat :: IsSource(steps, i) && steps[i].key == r.key && steps[i].status != Done
  {
    hide ResultAtPath;
    forall i: nat | IsSource(steps, i) && steps[i].key == r.key
      ensures FindStep(steps, r.key) == Some(steps[i])
    {
      FindFirst(steps, i);
    }
    if exists s | s in steps :: s.key == r.key {
      var i := FirstWithKey(steps, r.key);
      FindFirst(steps, i);
    }
  }

  lemma {:induction false} FirstWithKey(steps: seq<Step>, key: string) returns (i: nat)
    requires exists s | s in steps :: s.key == key
    ensures IsSource(steps, i) && steps[i].key == key
  {
    if steps[0].key == key {
      i := 0;
    } else {
      i := FirstWithKey(steps[1..], key);
      assert forall j | 0 <= j < i :: steps[1..][j] == steps[j + 1];
      i := i + 1;
    }
  }

  // ---------- One dot further ----------

  lemma {:induction false} SplitAppend(p: string, q: string)
    requires '.' !in q
    ensures Split(p + "." + q, '.') == Split(p, '.') + [q]
  {
    if p == "" {
      SplitOfPiece("", q, '.');
      SplitOfPiece(q, "", '.');
    } else {
      SplitAppend(p[1..], q);
      assert (p + "." + q)[1..] == p[1..] + "." + q;
    }
  }

  lemma {:induction false} NonEmptyAppend(pieces: seq<string>, q: string)
    requires q != ""
    ensures NonEmpty(pieces + [q]) == NonEmpty(pieces) + [q]
  {
    if pieces != [] {
      assert (pieces + [q])[1..] == pieces[1..] + [q];
      NonEmptyAppend(pieces[1..], q);
    }
  }

  lemma {:induction false} WalkAppend(v: Value, names: seq<string>, q: string)
    ensures Walk(v, names + [q]) == Get(Walk(v, names), q)
    decreases |names|
  {
    if names == [] {
      assert [] + [q] == [q] && [q][1..] == [];
      assert Walk(Get(v, q), []) == Get(v, q);
    } else {
      assert (names + [q])[1..] == names[1..] + [q];
      WalkAppend(Get(v, names[0]), names[1..], q);
    }
  }

  /** What `p.q` resolves to is what the value of `p` holds under `q`; without one it is a missing path. */
  lemma OneNameFurther(key: string, p: string, q: string, steps: seq<Step>, v: Value, x: Value)
    requires ResolveRef(Ref(key, p), steps) == Ok(v) && q != "" && '.' !in q && !IsBlocked(q) && x != Undefined
    ensures var path := p + "." + q;
      && (ResolveRef(Ref(key, path), steps) == Ok(x) <==> Own(v, q, x))
      && (ResolveRef(Ref(key, path), steps) == Err(MissingPath(key, path)) <==> forall y | Own(v, q, y) :: y == Undefined)
  {
    SplitAppend(p, q);
    NonEmptyAppend(Split(p, '.'), q);
    WalkAppend(FindStep(steps, key).value.result.value, NonEmpty(Split(p, '.')), q);
    OwnIff(v, q, x);
    forall y | y != Undefined
      ensures Get(v, q) == y <==> Own(v, q, y)
    {
      OwnIff(v, q, y);
    }
    NoUndefinedOwn(v, q);
  }

  lemma NoUndefinedOwn(v: Value, q: string)
    ensures Get(v, q) == Undefined <==> forall y | Own(v, q, y) :: y == Undefined
  {
    if Get(v, q) != Undefined {
      OwnIff(v, q, Get(v, q));
    }
    forall y | Own(v, q, y) && y != Undefined
      ensures Get(v, q) == y
    {
      OwnIff(v, q, y);
    }
  }

  // ---------- Put under a path and found again ----------

  /** What surrounds a value: the other members of an object, or the other elements of a list. */
  datatype Place =
    | AsMember(others: seq<Member>, later: seq<Member>)
    | AsElement(before: seq<Value>, after: seq<Value>)

  predicate Fits(place: Place, name: string) {
    match place
    case AsMember(others, _) => forall m | m in others :: m.key != name
    case AsElement(before, _) => name == NatToDigits(|before|)
  }

  function Surround(place: Place, name: string, v: Value): Value {
    match place
    case AsMember(others, later) => Obj(AsList(others + [Member(name, v)] + later))
    case AsElement(before, after) => Arr(AsList(before + [v] + after))
  }

  /** The value with `x` under those names, the outermost first. */
  function PutUnder(places: seq<Place>, names: seq<string>, x: Value): Value
    requires |places| == |names|
  {
    if names == [] then x else Surround(places[0], names[0], PutUnder(places[1..], names[1..], x))
  }

  predicate AllFit(places: seq<Place>, names: seq<string>) {
    |places| == |names| && forall i | 0 <= i < |names| :: Fits(places[i], names[i])
  }

  lemma SurroundedIsOwn(place: Place, name: string, v: Value)
    requires Fits(place, name)
    ensures Own(Surround(place, name, v), name, v)
  {
    match place
    case AsMember(others, later) =>
      var own := others + [Member(name, v)] + later;
      assert IsFirstAt(own, |others|, name, v);
    case AsElement(before, after) =>
      DigitsRoundTrip(|before|);
  }

  lemma {:induction false} PutIsThere(places: seq<Place>, names: seq<string>, x: Value)
    requires AllFit(places, names)
    ensures LeadsTo(PutUnder(places, names, x), names, x)
    decreases |names|
  {
    if names != [] {
      SurroundedIsOwn(places[0], names[0], PutUnder(places[1..], names[1..], x));
      PutIsThere(places[1..], names[1..], x);
    }
  }

  /**
   A value put under a path of any length, through objects and lists, is what the reference with that
   path resolves to, unless a name of the path is blocked: then the path is missing.
   */
  lemma PutIsFound(places: seq<Place>, names: seq<string>, x: Value, key: string, steps: seq<Step>, i: nat)
    requires IsSource(steps, i) && steps[i].key == key && steps[i].status == Done
    requires AllFit(places, names) && steps[i].result == Some(PutUnder(places, names, x)) && x != Undefined
    requires names != [] && Without('.', names) && "" !in names
    ensures var r := Ref(key, Join(names, '.'));
      && ResolveRef(r, steps) == (if exists n | n in names :: IsBlocked(n) then Err(MissingPath(key, r.path)) else Ok(x))
      && (ValidRef(r) && (forall n | n in names :: !IsBlocked(n)) ==> Resolve(Str(RefText(r)), steps, 0) == Ok(x))
  {
    hide PutUnder, IsSource;
    var r := Ref(key, Join(names, '.'));
    PutIsThere(places, names, x);
    FilterAll((p: string) => p != "", names);
    assert IsPath(r.path, names);
    ReferenceNamesAValue(r, steps, i, x);
    forall other | IsPath(r.path, other)
      ensures other == names
    {
      PathNames(r.path, other);
      PathNames(r.path, names);
    }
    if ValidRef(r) {
      WholeStringKeepsType(r, steps, 0);
    }
  }
}
