/** Canonical JSON: one string for all values that differ only in member order and undefined members. */
module CanonicalJson {
  import opened Prelude
  import opened Values
  import opened JsonText
  import opened JsonRoundTrip

  // ---------- Quoting ----------

  function HexDigit(n: nat): char
    requires n < 16
  {
    if n < 10 then ('0' as int + n) as char else ('a' as int + n - 10) as char
  }

  /** How `JSON.stringify` writes a character inside quotes. */
  function Escape(c: char): (s: string)
    ensures s != "" && PieceLength(s) == |s|
  {
    if c == '"' then "\\\""
    else if c == '\\' then "\\\\"
    else if c == '\U{08}' then "\\b"
    else if c == '\U{0C}' then "\\f"
    else if c == '\n' then "\\n"
    else if c == '\r' then "\\r"
    else if c == '\t' then "\\t"
    else if c < ' ' then ['\\', 'u', '0', '0', HexDigit(c as nat / 16), HexDigit(c as nat % 16)]
    else [c]
  }

  function EscapeAll(s: string): string { if s == "" then "" else Escape(s[0]) + EscapeAll(s[1..]) }

  lemma EscapeIsInjective(c: char, d: char)
    requires Escape(c) == Escape(d)
    ensures c == d
  {
  }

  lemma FirstPiece(c: char, rest: string)
    ensures PieceLength(Escape(c) + rest) == |Escape(c)|
    ensures (Escape(c) + rest)[..|Escape(c)|] == Escape(c) && (Escape(c) + rest)[|Escape(c)|..] == rest
  {
  }

  lemma {:induction false} EscapedIsRaw(s: string)
    ensures IsRaw(EscapeAll(s))
  {
    if s != "" {
      EscapedIsRaw(s[1..]);
      FirstPiece(s[0], EscapeAll(s[1..]));
    }
  }

  lemma {:induction false} EscapeAllIsInjective(s: string, t: string)
    requires EscapeAll(s) == EscapeAll(t)
    ensures s == t
  {
    hide Escape;
    if s != "" && t != "" {
      FirstPiece(s[0], EscapeAll(s[1..]));
      FirstPiece(t[0], EscapeAll(t[1..]));
      EscapeIsInjective(s[0], t[0]);
      EscapeAllIsInjective(s[1..], t[1..]);
      assert s == [s[0]] + s[1..] && t == [t[0]] + t[1..];
    }
  }

  // ---------- Values and their trees ----------

  predicate HasKey(ms: List<Member>, key: string) {
    match ms
    case Nil => false
    case Cons(m, rest) => m.key == key || HasKey(rest, key)
  }

  /** What JavaScript guarantees: member keys are distinct, and printed numbers are JSON numbers. */
  predicate IsValue(v: Value) {
    match v
    case Num(lexeme) => IsNumber(lexeme)
    case Arr(items) => AreValues(items)
    case Obj(ms) => AreMembers(ms)
    case _ => true
  }

  predicate AreValues(items: List<Value>) {
    match items
    case Nil => true
    case Cons(v, rest) => IsValue(v) && AreValues(rest)
  }

  predicate AreMembers(ms: List<Member>) {
    match ms
    case Nil => true
    case Cons(m, rest) => IsValue(m.value) && !HasKey(rest, m.key) && AreMembers(rest)
  }

  /** The tree of what `JSON.stringify` writes: no whitespace, and null for what is undefined in a list. */
  function Tree(v: Value): Json {
    match v
    case Undefined => Word("null")
    case Null => Word("null")
    case Bool(b) => Word(if b then "true" else "false")
    case Num(lexeme) => Number(lexeme)
    case Str(text) => Text(EscapeAll(text))
    case Arr(items) => if items.Nil? then EmptyArray("") else Array(TreeItems(items))
    case Obj(ms) => if ms.Nil? then EmptyObject("") else Object(TreeMembers(ms))
  }

  function TreeItems(items: List<Value>): List<Item> {
    match items
    case Nil => Nil
    case Cons(v, rest) => Cons(Item("", Tree(v), ""), TreeItems(rest))
  }

  function TreeMembers(ms: List<Member>): List<Entry> {
    match ms
    case Nil => Nil
    case Cons(m, rest) => Cons(Entry("", EscapeAll(m.key), "", Item("", Tree(m.value), "")), TreeMembers(rest))
  }

  lemma {:induction false} TreeIsWellFormed(v: Value)
    requires IsValue(v)
    ensures WellFormed(Tree(v))
    decreases v
  {
    match v
    case Str(text) => EscapedIsRaw(text);
    case Arr(items) => TreeItemsAreWellFormed(items);
    case Obj(ms) => TreeMembersAreWellFormed(ms);
    case _ =>
  }

  lemma {:induction false} TreeItemsAreWellFormed(items: List<Value>)
    requires AreValues(items)
    ensures WellFormedItems(TreeItems(items))
    decreases items
  {
    if items.Cons? {
      TreeIsWellFormed(items.head);
      TreeItemsAreWellFormed(items.tail);
    }
  }

  lemma {:induction false} TreeMembersAreWellFormed(ms: List<Member>)
    requires AreMembers(ms)
    ensures WellFormedMembers(TreeMembers(ms))
    decreases ms
  {
    if ms.Cons? {
      EscapedIsRaw(ms.head.key);
      TreeIsWellFormed(ms.head.value);
      TreeMembersAreWellFormed(ms.tail);
    }
  }

  // ---------- Normalizing ----------

  /** The order in which an object lists its keys once they were inserted in sorted order. */
  ghost predicate IsTotalOrder(lt: (string, string) -> bool) {
    && (forall a, b :: a != b ==> lt(a, b) || lt(b, a))
    && (forall a, b :: !(lt(a, b) && lt(b, a)))
    && (forall a, b, c :: lt(a, b) && lt(b, c) ==> lt(a, c))
  }

  function Insert(lt: (string, string) -> bool, m: Member, ms: List<Member>): List<Member> {
    match ms
    case Nil => Cons(m, Nil)
    case Cons(n, rest) => if lt(n.key, m.key) then Cons(n, Insert(lt, m, rest)) else Cons(m, ms)
  }

  function Sort(lt: (string, string) -> bool, ms: List<Member>): List<Member> {
    match ms
    case Nil => Nil
    case Cons(m, rest) => Insert(lt, m, Sort(lt, rest))
  }

  /** `normalizeJson`; sorting looks at keys only, so it may come after the members were normalized. */
  function Normalize(lt: (string, string) -> bool, v: Value): Value {
    match v
    case Arr(items) => Arr(NormalizeItems(lt, items))
    case Obj(ms) => Obj(Sort(lt, NormalizeMembers(lt, ms)))
    case _ => v
  }

  function NormalizeItems(lt: (string, string) -> bool, items: List<Value>): List<Value> {
    match items
    case Nil => Nil
    case Cons(v, rest) => Cons(Normalize(lt, v), NormalizeItems(lt, rest))
  }

  function NormalizeMembers(lt: (string, string) -> bool, ms: List<Member>): List<Member> {
    match ms
    case Nil => Nil
    case Cons(m, rest) =>
      if m.value.Undefined? then NormalizeMembers(lt, rest)
      else Cons(Member(m.key, Normalize(lt, m.value)), NormalizeMembers(lt, rest))
  }

  /** `canonicalJsonStringify`; nothing for `undefined`. */
  function CanonicalJsonStringify(lt: (string, string) -> bool, v: Value): Option<string> {
    if v.Undefined? then None else Some(Print(Tree(Normalize(lt, v))))
  }

  // ---------- Equality up to member order and undefined members ----------

  function Size(v: Value): nat {
    match v
    case Arr(items) => 1 + SizeItems(items)
    case Obj(ms) => 1 + SizeMembers(ms)
    case _ => 0
  }

  function SizeItems(items: List<Value>): nat {
    match items
    case Nil => 0
    case Cons(v, rest) => 1 + Size(v) + SizeItems(rest)
  }

  function SizeMembers(ms: List<Member>): nat {
    match ms
    case Nil => 0
    case Cons(m, rest) => 1 + Size(m.value) + SizeMembers(rest)
  }

  lemma {:induction false} LookupIsSmaller(ms: List<Member>, key: string)
    ensures Size(Lookup(ms, key)) <= SizeMembers(ms)
  {
    if ms.Cons? {
      LookupIsSmaller(ms.tail, key);
    }
  }

  /** In a list `undefined` counts as null. */
  function InList(v: Value): Value { if v.Undefined? then Null else v }

  ghost predicate Same(a: Value, b: Value)
    decreases Size(a), 0
  {
    match (a, b)
    case (Arr(xs), Arr(ys)) => SameItems(xs, ys)
    case (Obj(ms), Obj(ns)) =>
      forall key ::
        && (Lookup(ms, key).Undefined? <==> Lookup(ns, key).Undefined?)
        && (LookupIsSmaller(ms, key); !Lookup(ms, key).Undefined? ==> Same(Lookup(ms, key), Lookup(ns, key)))
    case _ => a == b
  }

  ghost predicate SameItems(xs: List<Value>, ys: List<Value>)
    decreases SizeItems(xs), 1
  {
    match (xs, ys)
    case (Nil, Nil) => true
    case (Cons(x, xs1), Cons(y, ys1)) => Same(InList(x), InList(y)) && SameItems(xs1, ys1)
    case _ => false
  }

  // ---------- Sorting ----------

  predicate Sorted(lt: (string, string) -> bool, ms: List<Member>) {
    match ms
    case Nil => true
    case Cons(m, rest) => (rest.Cons? ==> lt(m.key, rest.head.key)) && Sorted(lt, rest)
  }

  lemma {:induction false} InsertSorts(lt: (string, string) -> bool, m: Member, ms: List<Member>)
    requires IsTotalOrder(lt) && Sorted(lt, ms) && !HasKey(ms, m.key)
    ensures Sorted(lt, Insert(lt, m, ms))
    ensures forall key :: HasKey(Insert(lt, m, ms), key) <==> key == m.key || HasKey(ms, key)
    ensures forall key :: Lookup(Insert(lt, m, ms), key) == if key == m.key then m.value else Lookup(ms, key)
  {
    if ms.Cons? && lt(ms.head.key, m.key) {
      InsertSorts(lt, m, ms.tail);
    }
  }

  lemma {:induction false} SortSorts(lt: (string, string) -> bool, ms: List<Member>)
    requires IsTotalOrder(lt) && AreMembers(ms)
    ensures Sorted(lt, Sort(lt, ms))
    ensures forall key :: HasKey(Sort(lt, ms), key) <==> HasKey(ms, key)
    ensures forall key :: Lookup(Sort(lt, ms), key) == Lookup(ms, key)
  {
    if ms.Cons? {
      SortSorts(lt, ms.tail);
      InsertSorts(lt, ms.head, Sort(lt, ms.tail));
    }
  }

  /** In a sorted list nothing comes before the head. */
  lemma {:induction false} HeadIsLeast(lt: (string, string) -> bool, ms: List<Member>, key: string)
    requires IsTotalOrder(lt) && ms.Cons? && Sorted(lt, ms) && HasKey(ms, key)
    ensures key == ms.head.key || lt(ms.head.key, key)
    ensures !HasKey(ms.tail, ms.head.key)
  {
    if HasKey(ms.tail, key) {
      HeadIsLeast(lt, ms.tail, key);
    }
    if HasKey(ms.tail, ms.head.key) {
      HeadIsLeast(lt, ms.tail, ms.head.key);
    }
  }

  /** Sorted lists with the same keys and equal trees behind them print alike. */
  lemma {:induction false} SortedIsUnique(lt: (string, string) -> bool, xs: List<Member>, ys: List<Member>)
    requires IsTotalOrder(lt) && Sorted(lt, xs) && Sorted(lt, ys)
    requires forall key :: HasKey(xs, key) <==> HasKey(ys, key)
    requires forall key | HasKey(xs, key) :: Tree(Lookup(xs, key)) == Tree(Lookup(ys, key))
    ensures TreeMembers(xs) == TreeMembers(ys)
  {
    if xs.Nil? && ys.Cons? {
      assert HasKey(ys, ys.head.key);
    }
    if xs.Cons? && ys.Nil? {
      assert HasKey(xs, xs.head.key);
    }
    if xs.Cons? && ys.Cons? {
      var x, y := xs.head.key, ys.head.key;
      assert HasKey(xs, x) && HasKey(ys, y);
      HeadIsLeast(lt, xs, y);
      HeadIsLeast(lt, ys, x);
      assert x == y;
      HeadIsLeast(lt, xs, x);
      forall key
        ensures HasKey(xs.tail, key) <==> HasKey(ys.tail, key)
        ensures HasKey(xs.tail, key) ==> Tree(Lookup(xs.tail, key)) == Tree(Lookup(ys.tail, key))
      {
        assert HasKey(xs, key) <==> HasKey(ys, key);
      }
      SortedIsUnique(lt, xs.tail, ys.tail);
    }
  }

  // ---------- Normalizing keeps values ----------

  lemma {:induction false} NormalizedMember(lt: (string, string) -> bool, ms: List<Member>, key: string)
    requires AreMembers(ms)
    ensures HasKey(NormalizeMembers(lt, ms), key) <==> !Lookup(ms, key).Undefined?
    ensures !Lookup(ms, key).Undefined? ==> Lookup(NormalizeMembers(lt, ms), key) == Normalize(lt, Lookup(ms, key))
    ensures !HasKey(ms, key) ==> Lookup(ms, key).Undefined?
  {
    if ms.Cons? {
      NormalizedMember(lt, ms.tail, key);
    }
  }

  lemma {:induction false} NormalizeKeepsValues(lt: (string, string) -> bool, v: Value)
    requires IsTotalOrder(lt) && IsValue(v)
    ensures IsValue(Normalize(lt, v))
    decreases v
  {
    match v
    case Arr(items) => NormalizeKeepsItems(lt, items);
    case Obj(ms) =>
      NormalizeKeepsMembers(lt, ms);
      SortKeepsMembers(lt, NormalizeMembers(lt, ms));
    case _ =>
  }

  lemma {:induction false} NormalizeKeepsItems(lt: (string, string) -> bool, items: List<Value>)
    requires IsTotalOrder(lt) && AreValues(items)
    ensures AreValues(NormalizeItems(lt, items))
    decreases items
  {
    if items.Cons? {
      NormalizeKeepsValues(lt, items.head);
      NormalizeKeepsItems(lt, items.tail);
    }
  }

  lemma {:induction false} NormalizeKeepsMembers(lt: (string, string) -> bool, ms: List<Member>)
    requires IsTotalOrder(lt) && AreMembers(ms)
    ensures AreMembers(NormalizeMembers(lt, ms))
    decreases ms
  {
    if ms.Cons? {
      NormalizeKeepsValues(lt, ms.head.value);
      NormalizeKeepsMembers(lt, ms.tail);
      NormalizedMember(lt, ms.tail, ms.head.key);
    }
  }

  lemma {:induction false} InsertKeepsMembers(lt: (string, string) -> bool, m: Member, ms: List<Member>)
    requires IsValue(m.value) && !HasKey(ms, m.key) && AreMembers(ms)
    ensures AreMembers(Insert(lt, m, ms))
    ensures forall key :: HasKey(Insert(lt, m, ms), key) <==> key == m.key || HasKey(ms, key)
  {
    if ms.Cons? && lt(ms.head.key, m.key) {
      InsertKeepsMembers(lt, m, ms.tail);
    }
  }

  lemma {:induction false} SortKeepsMembers(lt: (string, string) -> bool, ms: List<Member>)
    requires AreMembers(ms)
    ensures AreMembers(Sort(lt, ms))
    ensures forall key :: HasKey(Sort(lt, ms), key) <==> HasKey(ms, key)
  {
    if ms.Cons? {
      SortKeepsMembers(lt, ms.tail);
      InsertKeepsMembers(lt, ms.head, Sort(lt, ms.tail));
    }
  }

  // ---------- Same values have the same tree, and only they ----------

  function CanonicalTree(lt: (string, string) -> bool, v: Value): Json { Tree(Normalize(lt, v)) }

  lemma {:induction false} SameThenSameTree(lt: (string, string) -> bool, a: Value, b: Value)
    requires IsTotalOrder(lt) && IsValue(a) && IsValue(b) && Same(a, b)
    ensures CanonicalTree(lt, a) == CanonicalTree(lt, b)
    decreases Size(a), 0
  {
    if a.Arr? && b.Arr? {
      SameItemsThenSameTrees(lt, a.items, b.items);
    } else if a.Obj? && b.Obj? {
      var ms, ns := a.members, b.members;
      forall key | !Lookup(ms, key).Undefined?
        ensures CanonicalTree(lt, Lookup(ms, key)) == CanonicalTree(lt, Lookup(ns, key))
      {
        LookupIsSmaller(ms, key);
        LookupIsValue(ms, key);
        LookupIsValue(ns, key);
        assert Same(Lookup(ms, key), Lookup(ns, key));
        SameThenSameTree(lt, Lookup(ms, key), Lookup(ns, key));
      }
      SameMembersThenSameTrees(lt, ms, ns);
    }
  }

  lemma {:induction false} LookupIsValue(ms: List<Member>, key: string)
    requires AreMembers(ms)
    ensures IsValue(Lookup(ms, key))
  {
    if ms.Cons? {
      LookupIsValue(ms.tail, key);
    }
  }

  lemma {:induction false} SameItemsThenSameTrees(lt: (string, string) -> bool, xs: List<Value>, ys: List<Value>)
    requires IsTotalOrder(lt) && AreValues(xs) && AreValues(ys) && SameItems(xs, ys)
    ensures TreeItems(NormalizeItems(lt, xs)) == TreeItems(NormalizeItems(lt, ys))
    decreases SizeItems(xs), 1
  {
    if xs.Cons? {
      SameThenSameTree(lt, InList(xs.head), InList(ys.head));
      SameItemsThenSameTrees(lt, xs.tail, ys.tail);
    }
  }

  lemma SameMembersThenSameTrees(lt: (string, string) -> bool, ms: List<Member>, ns: List<Member>)
    requires IsTotalOrder(lt) && AreMembers(ms) && AreMembers(ns)
    requires forall key :: Lookup(ms, key).Undefined? <==> Lookup(ns, key).Undefined?
    requires forall key | !Lookup(ms, key).Undefined? :: CanonicalTree(lt, Lookup(ms, key)) == CanonicalTree(lt, Lookup(ns, key))
    ensures CanonicalTree(lt, Obj(ms)) == CanonicalTree(lt, Obj(ns))
  {
    var xs, ys := NormalizeMembers(lt, ms), NormalizeMembers(lt, ns);
    NormalizeKeepsMembers(lt, ms);
    NormalizeKeepsMembers(lt, ns);
    SortSorts(lt, xs);
    SortSorts(lt, ys);
    forall key
      ensures HasKey(Sort(lt, xs), key) <==> HasKey(Sort(lt, ys), key)
      ensures HasKey(Sort(lt, xs), key) ==> Tree(Lookup(Sort(lt, xs), key)) == Tree(Lookup(Sort(lt, ys), key))
    {
      NormalizedMember(lt, ms, key);
      NormalizedMember(lt, ns, key);
    }
    SortedIsUnique(lt, Sort(lt, xs), Sort(lt, ys));
  }

  lemma {:induction false} SameTreeThenSame(lt: (string, string) -> bool, a: Value, b: Value)
    requires IsTotalOrder(lt) && IsValue(a) && IsValue(b) && !a.Undefined? && !b.Undefined?
    requires CanonicalTree(lt, a) == CanonicalTree(lt, b)
    ensures Same(a, b)
    decreases Size(a), 0
  {
    match a
    case Arr(xs) => SameTreesThenSameItems(lt, xs, b.items);
    case Obj(ms) =>
      var ns := b.members;
      forall key
        ensures Lookup(ms, key).Undefined? <==> Lookup(ns, key).Undefined?
        ensures !Lookup(ms, key).Undefined? ==> Same(Lookup(ms, key), Lookup(ns, key))
      {
        SameTreesSameLookup(lt, ms, ns, key);
        LookupIsSmaller(ms, key);
        LookupIsValue(ms, key);
        LookupIsValue(ns, key);
        if !Lookup(ms, key).Undefined? {
          SameTreeThenSame(lt, Lookup(ms, key), Lookup(ns, key));
        }
      }
    case Str(text) => EscapeAllIsInjective(text, b.text);
    case _ =>
  }

  lemma {:induction false} SameTreesThenSameItems(lt: (string, string) -> bool, xs: List<Value>, ys: List<Value>)
    requires IsTotalOrder(lt) && AreValues(xs) && AreValues(ys)
    requires TreeItems(NormalizeItems(lt, xs)) == TreeItems(NormalizeItems(lt, ys))
    ensures SameItems(xs, ys)
    decreases SizeItems(xs), 1
  {
    if xs.Cons? {
      SameTreeThenSame(lt, InList(xs.head), InList(ys.head));
      SameTreesThenSameItems(lt, xs.tail, ys.tail);
    }
  }

  /** Lists that print alike have the same keys with equal trees. */
  lemma {:induction false} SameTreesSameMember(xs: List<Member>, ys: List<Member>, key: string)
    requires TreeMembers(xs) == TreeMembers(ys)
    ensures HasKey(xs, key) <==> HasKey(ys, key)
    ensures Tree(Lookup(xs, key)) == Tree(Lookup(ys, key))
  {
    if xs.Cons? {
      EscapeAllIsInjective(xs.head.key, ys.head.key);
      SameTreesSameMember(xs.tail, ys.tail, key);
    }
  }

  lemma SameTreesSameLookup(lt: (string, string) -> bool, ms: List<Member>, ns: List<Member>, key: string)
    requires IsTotalOrder(lt) && AreMembers(ms) && AreMembers(ns)
    requires CanonicalTree(lt, Obj(ms)) == CanonicalTree(lt, Obj(ns))
    ensures Lookup(ms, key).Undefined? <==> Lookup(ns, key).Undefined?
    ensures !Lookup(ms, key).Undefined? ==> CanonicalTree(lt, Lookup(ms, key)) == CanonicalTree(lt, Lookup(ns, key))
  {
    var xs, ys := NormalizeMembers(lt, ms), NormalizeMembers(lt, ns);
    NormalizeKeepsMembers(lt, ms);
    NormalizeKeepsMembers(lt, ns);
    SortSorts(lt, xs);
    SortSorts(lt, ys);
    NormalizedMember(lt, ms, key);
    NormalizedMember(lt, ns, key);
    SameTreesSameMember(Sort(lt, xs), Sort(lt, ys), key);
  }

  // ---------- Main results ----------

  /**
   Two values get the same string exactly when they are equal up to member order, undefined members,
   and `undefined` standing for null inside lists.
   */
  lemma SameStringIffSame(lt: (string, string) -> bool, a: Value, b: Value)
    requires IsTotalOrder(lt) && IsValue(a) && IsValue(b)
    ensures CanonicalJsonStringify(lt, a) == CanonicalJsonStringify(lt, b) <==> Same(a, b)
  {
    if Same(a, b) {
      SameThenSameTree(lt, a, b);
    }
    if !a.Undefined? && !b.Undefined? && CanonicalJsonStringify(lt, a) == CanonicalJsonStringify(lt, b) {
      NormalizeKeepsValues(lt, a);
      NormalizeKeepsValues(lt, b);
      TreeIsWellFormed(Normalize(lt, a));
      TreeIsWellFormed(Normalize(lt, b));
      ParseIffPrints(Print(CanonicalTree(lt, a)), CanonicalTree(lt, a));
      ParseIffPrints(Print(CanonicalTree(lt, b)), CanonicalTree(lt, b));
      SameTreeThenSame(lt, a, b);
    }
  }

  /** The text is JSON, and parses to the normalized value's tree. */
  lemma CanonicalIsJson(lt: (string, string) -> bool, v: Value)
    requires IsTotalOrder(lt) && IsValue(v) && !v.Undefined?
    ensures Parse(CanonicalJsonStringify(lt, v).value) == Some(CanonicalTree(lt, v))
  {
    NormalizeKeepsValues(lt, v);
    TreeIsWellFormed(Normalize(lt, v));
    ParseIffPrints(Print(CanonicalTree(lt, v)), CanonicalTree(lt, v));
  }

  /** A hole in a list is not told from null. */
  lemma UndefinedInListCollides(lt: (string, string) -> bool)
    ensures CanonicalJsonStringify(lt, Arr(Cons(Undefined, Nil))) == CanonicalJsonStringify(lt, Arr(Cons(Null, Nil)))
    ensures Arr(Cons(Undefined, Nil)) != Arr(Cons(Null, Nil))
  {
  }
}
