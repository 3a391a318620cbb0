/** What a whole input refers to, what filling it in changes, and what that means for the admission of a batch. */
module InputLaws {
  import opened Prelude
  import opened Values
  import opened AgentTypes
  import opened References
  import opened ReferenceLaws
  import opened WorkflowGraph
  import opened GraphLaws
  import opened DepthLaws

  // ---------- The steps an input refers to ----------

  /** Somewhere in the text stands a reference with that key. */
  ghost predicate TextNames(s: string, key: string) { exists i: nat, r: Ref :: NamesAt(s, i, r) && r.key == key }

  predicate NamesAt(s: string, i: nat, r: Ref) { i <= |s| && ValidRef(r) && RefText(r) <= s[i..] }

  ghost predicate Mentions(v: Value, key: string) {
    match v
    case Str(s) => TextNames(s, key)
    case Arr(items) => ItemsMention(items, key)
    case Obj(members) => MembersMention(members, key)
    case _ => false
  }

  ghost predicate ItemsMention(items: List<Value>, key: string) {
    match items
    case Nil => false
    case Cons(v, rest) => Mentions(v, key) || ItemsMention(rest, key)
  }

  ghost predicate MembersMention(members: List<Member>, key: string) {
    match members
    case Nil => false
    case Cons(m, rest) => Mentions(m.value, key) || MembersMention(rest, key)
  }

  lemma NamedIsMatched(s: string, i: nat, r: Ref)
    ensures NamesAt(s, i, r) ==> MatchPrefix(s[i..]).Some? && MatchPrefix(s[i..]).value.0 == r
  {
    if NamesAt(s, i, r) {
      var rest := s[i..][|RefText(r)|..];
      assert s[i..] == RefText(r) + rest;
      MatchPrefixExact(s[i..], r, rest);
    }
  }

  /** Inside a reference, after its first character, no other begins. */
  lemma NothingInside(r: Ref, rest: string, k: nat)
    requires ValidRef(r) && 0 < k < |RefText(r)|
    ensures MatchPrefix((RefText(r) + rest)[k..]).None?
  {
    var s, m := RefText(r) + rest, |OPENING|;
    MatchOpensABrace(s[k..]);
    assert s[k..][0] == RefText(r)[k];
    if k < m {
      assert RefText(r)[k] == OPENING[k];
      assert k == 1 ==> s[1..][1] == RefText(r)[2] == OPENING[2] && !(OPENING <= s[1..]);
    } else if k < m + |r.key| {
      assert RefText(r)[k] == r.key[k - m] && r.key[k - m] in r.key;
    } else if m + |r.key| < k < |RefText(r)| - 2 {
      assert RefText(r)[k] == r.path[k - m - |r.key| - 1] && r.path[k - m - |r.key| - 1] in r.path;
    }
  }

  lemma TextAfterFirst(s: string, key: string)
    requires s != "" && MatchPrefix(s).None?
    ensures TextNames(s, key) <==> TextNames(s[1..], key)
  {
    if TextNames(s, key) {
      var i: nat, r: Ref :| NamesAt(s, i, r) && r.key == key;
      NamedIsMatched(s, i, r);
      assert s[0..] == s;
      assert s[1..][i - 1..] == s[i..];
      assert NamesAt(s[1..], i - 1, r);
    }
    if TextNames(s[1..], key) {
      var i: nat, r: Ref :| NamesAt(s[1..], i, r) && r.key == key;
      assert s[1..][i..] == s[i + 1..];
      assert NamesAt(s, i + 1, r);
    }
  }

  lemma NamedLater(s: string, r: Ref, rest: string, i: nat, q: Ref)
    requires s == RefText(r) + rest && ValidRef(r) && NamesAt(s, i, q) && i > 0
    ensures i >= |RefText(r)| && NamesAt(rest, i - |RefText(r)|, q)
  {
    NamedIsMatched(s, i, q);
    if i < |RefText(r)| {
      NothingInside(r, rest, i);
    }
    assert i >= |RefText(r)| ==> s[i..] == rest[i - |RefText(r)|..];
  }

  lemma NamedBefore(s: string, r: Ref, rest: string, i: nat, q: Ref)
    requires s == RefText(r) + rest && NamesAt(rest, i, q)
    ensures NamesAt(s, i + |RefText(r)|, q)
  {
    assert s[i + |RefText(r)|..] == rest[i..];
  }

  lemma TextAfterReference(s: string, r: Ref, rest: string, key: string)
    requires MatchPrefix(s) == Some((r, rest))
    ensures TextNames(s, key) <==> r.key == key || TextNames(rest, key)
  {
    MatchPrefixSound(s);
    assert s[0..] == s && NamesAt(s, 0, r);
    hide NamesAt, MatchPrefix, ValidRef;
    if TextNames(s, key) {
      var i: nat, q: Ref :| NamesAt(s, i, q) && q.key == key;
      if i == 0 {
        NamedIsMatched(s, 0, q);
      } else {
        NamedLater(s, r, rest, i, q);
      }
    }
    if TextNames(rest, key) {
      var i: nat, q: Ref :| NamesAt(rest, i, q) && q.key == key;
      NamedBefore(s, r, rest, i, q);
    }
  }

  lemma NothingNamed(key: string)
    ensures !TextNames("", key)
  {
    forall i: nat, r: Ref
      ensures !NamesAt("", i, r)
    {
      NamedIsMatched("", i, r);
    }
  }

  lemma KeysOfMore(r: Ref, refs: seq<Ref>, key: string)
    ensures key in RefKeys([r] + refs) <==> key == r.key || key in RefKeys(refs)
  {
    var all := [r] + refs;
    assert forall i | 0 <= i < |refs| :: RefKeys(all)[i + 1] == RefKeys(refs)[i];
    assert RefKeys(all)[0] == r.key;
  }

  /** The references found in a text are all that stand in it, wherever they begin. */
  lemma {:induction false} TextKeysIff(s: string, key: string)
    ensures key in RefKeys(Refs(Parse(s))) <==> TextNames(s, key)
    decreases |s|
  {
    hide TextNames;
    if s == "" {
      NothingNamed(key);
    } else {
      match MatchPrefix(s)
      case Some((r, rest)) =>
        TextKeysIff(rest, key);
        TextAfterReference(s, r, rest, key);
        KeysOfMore(r, Refs(Parse(rest)), key);
      case None =>
        ShiftRenders(s[0], Parse(s[1..]));
        TextKeysIff(s[1..], key);
        TextAfterFirst(s, key);
    }
  }

  /** Collecting finds exactly the keys that stand in some string of the input, however deep. */
  lemma {:induction false} CollectedIff(v: Value, depth: nat, key: string)
    requires Collect(v, depth).Ok?
    ensures key in Collect(v, depth).value <==> Mentions(v, key)
    decreases v
  {
    hide TextNames, Parse;
    match v
    case Str(s) => TextKeysIff(s, key);
    case Arr(items) => CollectedItemsIff(items, depth + 1, key);
    case Obj(members) => CollectedMembersIff(members, depth + 1, key);
    case _ =>
  }

  lemma {:induction false} CollectedItemsIff(items: List<Value>, depth: nat, key: string)
    requires CollectItems(items, depth).Ok?
    ensures key in CollectItems(items, depth).value <==> ItemsMention(items, key)
    decreases items
  {
    hide TextNames;
    match items
    case Nil =>
    case Cons(v, rest) =>
      CollectedIff(v, depth, key);
      CollectedItemsIff(rest, depth, key);
  }

  lemma {:induction false} CollectedMembersIff(members: List<Member>, depth: nat, key: string)
    requires CollectMembers(members, depth).Ok?
    ensures key in CollectMembers(members, depth).value <==> MembersMention(members, key)
    decreases members
  {
    hide TextNames;
    match members
    case Nil =>
    case Cons(m, rest) =>
      CollectedIff(m.value, depth, key);
      CollectedMembersIff(rest, depth, key);
  }

  // ---------- What filling in changes ----------

  /** The same value, but for its strings: each is what it resolves to. */
  predicate IsFilledIn(v: Value, w: Value, steps: seq<Step>) {
    match v
    case Str(s) => ResolveString(s, steps) == Ok(w)
    case Arr(items) => w.Arr? && AreFilledIn(items, w.items, steps)
    case Obj(members) => w.Obj? && MembersFilledIn(members, w.members, steps)
    case _ => w == v
  }

  predicate AreFilledIn(items: List<Value>, filled: List<Value>, steps: seq<Step>) {
    match items
    case Nil => filled == Nil
    case Cons(v, rest) => filled.Cons? && IsFilledIn(v, filled.head, steps) && AreFilledIn(rest, filled.tail, steps)
  }

  predicate MembersFilledIn(members: List<Member>, filled: List<Member>, steps: seq<Step>) {
    match members
    case Nil => filled == Nil
    case Cons(m, rest) =>
      filled.Cons? && filled.head.key == m.key && IsFilledIn(m.value, filled.head.value, steps)
      && MembersFilledIn(rest, filled.tail, steps)
  }

  /** An input that does not nest too deeply resolves to exactly the same input with every string filled in. */
  lemma {:induction false} ResolvedIff(v: Value, w: Value, steps: seq<Step>, depth: nat)
    requires Collect(v, depth).Ok?
    ensures Resolve(v, steps, depth) == Ok(w) <==> IsFilledIn(v, w, steps)
    decreases v
  {
    hide ResolveString, Parse;
    match v
    case Str(s) =>
    case Arr(items) => if w.Arr? { ResolvedItemsIff(items, w.items, steps, depth + 1); }
    case Obj(members) => if w.Obj? { ResolvedMembersIff(members, w.members, steps, depth + 1); }
    case _ =>
  }

  lemma {:induction false} ResolvedItemsIff(items: List<Value>, filled: List<Value>, steps: seq<Step>, depth: nat)
    requires CollectItems(items, depth).Ok?
    ensures ResolveItems(items, steps, depth) == Ok(filled) <==> AreFilledIn(items, filled, steps)
    decreases items
  {
    match items
    case Nil =>
    case Cons(v, rest) =>
      if filled.Cons? {
        ResolvedIff(v, filled.head, steps, depth);
        ResolvedItemsIff(rest, filled.tail, steps, depth);
      }
  }

  lemma {:induction false} ResolvedMembersIff(members: List<Member>, filled: List<Member>, steps: seq<Step>, depth: nat)
    requires CollectMembers(members, depth).Ok?
    ensures ResolveMembers(members, steps, depth) == Ok(filled) <==> MembersFilledIn(members, filled, steps)
    decreases members
  {
    match members
    case Nil =>
    case Cons(m, rest) =>
      if filled.Cons? {
        ResolvedIff(m.value, filled.head.value, steps, depth);
        ResolvedMembersIff(rest, filled.tail, steps, depth);
      }
  }

  // ---------- One reference in a text ----------

  /** How JavaScript writes a value into a text. */
  function Written(v: Value): string {
    if v == Bool(true) then "true" else if v == Bool(false) then "false"
    else if v.Num? then v.lexeme else if v.Str? then v.text else ""
  }

  lemma {:induction false} ParsedAround(before: string, r: Ref, after: string)
    requires ValidRef(r) && '{' !in before && '{' !in after
    ensures Parse(before + RefText(r) + after) == Hole(before, r, End(after))
    decreases |before|
  {
    var s := before + RefText(r) + after;
    if before == "" {
      assert s == RefText(r) + after;
      MatchPrefixExact(s, r, after);
      PlainText(after);
    } else {
      assert s[0] == before[0] && before[0] in before;
      MatchOpensABrace(s);
      assert s[1..] == before[1..] + RefText(r) + after;
      ParsedAround(before[1..], r, after);
      assert [before[0]] + before[1..] == before;
    }
  }

  lemma {:induction false} PlainText(s: string)
    requires '{' !in s
    ensures Parse(s) == End(s)
  {
    if s != "" {
      MatchOpensABrace(s);
      PlainText(s[1..]);
      assert [s[0]] + s[1..] == s;
    }
  }

  /**
   A reference with text around it is replaced by the text of its value; a list or an object there is an
   error, and so is whatever makes the reference itself one.
   */
  lemma EmbeddedReference(before: string, r: Ref, after: string, steps: seq<Step>)
    requires ValidRef(r) && '{' !in before && '{' !in after && before + after != ""
    ensures var filled := ResolveString(before + RefText(r) + after, steps);
      match ResolveRef(r, steps)
      case Err(e) => filled == Err(e)
      case Ok(v) =>
        if v.Arr? || v.Obj? then filled == Err(NotScalar(r.key, r.path))
        else '$' !in Written(v) ==> filled == Ok(Str(before + Written(v) + after))
  {
    hide Parse;
    var s := before + RefText(r) + after;
    ParsedAround(before, r, after);
    assert Refs(End(after)) == [];
    assert Refs(Parse(s)) == [r];
    assert |s| != |RefText(r)|;
    var found := ResolveRef(r, steps);
    if found.Ok? && IsScalar(found.value) && '$' !in Written(found.value) {
      WrittenIs(found.value);
      ExpandPlain(Written(found.value), RefText(r), before, after);
      forall i | 0 <= i <= |before| {
        ReferencesOpenABrace(r, before, i);
      }
      ReplaceHitsHole(before, r, after, Written(found.value));
      var none: seq<Ref> := [r][1..];
      var text := before + Written(found.value) + after;
      assert SubstituteInOrder(text, none, steps) == Ok(text);
      assert SubstituteInOrder(s, [r], steps) == SubstituteInOrder(text, none, steps);
    }
  }

  lemma WrittenIs(v: Value)
    requires IsScalar(v)
    ensures Written(v) == ScalarText(v)
  {
  }

  lemma DollarRead(c: char, rest: string, matched: string, before: string, after: string)
    ensures var tail := Expand(rest, matched, before, after);
      Expand("$" + [c] + rest, matched, before, after) ==
        if c == '$' then "$" + tail
        else if c == '&' then matched + tail
        else if c == '`' then before + tail
        else if c == '\'' then after + tail
        else "$" + Expand([c] + rest, matched, before, after)
  {
    var s := "$" + [c] + rest;
    assert s[2..] == rest && s[1..] == [c] + rest;
  }

  /** What `replace` makes of the `$` patterns in a value: the reference, the text before it, or the text after it. */
  lemma {:induction false} DollarPatterns(plain: string, c: char, rest: string, matched: string, before: string, after: string)
    requires '$' !in plain
    ensures Expand(plain + "$" + [c] + rest, matched, before, after) == plain + Expand("$" + [c] + rest, matched, before, after)
    decreases |plain|
  {
    var s := plain + "$" + [c] + rest;
    if plain == "" {
      assert s == "$" + [c] + rest;
    } else {
      assert s[0] == plain[0] && plain[0] in plain;
      assert s[1..] == plain[1..] + "$" + [c] + rest;
      DollarPatterns(plain[1..], c, rest, matched, before, after);
      assert [plain[0]] + plain[1..] == plain;
    }
  }

  // ---------- Which batches are admitted ----------

  /** The step names the key as a dependency, or refers to it somewhere in its input. */
  ghost predicate WaitsFor(s: Step, key: string) { key in s.dependsOn || Mentions(s.input, key) }

  ghost predicate Waits(steps: seq<Step>, from: string, to: string) { exists s | s in steps :: s.key == from && WaitsFor(s, to) }

  /** Every key of the walk waits for the next. */
  ghost predicate IsWaiting(steps: seq<Step>, p: seq<string>) { forall i | 0 <= i < |p| - 1 :: Waits(steps, p[i], p[i + 1]) }

  ghost predicate WaitsForItself(steps: seq<Step>) { exists p: seq<string> :: |p| >= 2 && IsWaiting(steps, p) && p[0] == p[|p| - 1] }

  lemma DependencyIff(s: Step, key: string)
    requires Collect(s.input, 0).Ok?
    ensures key in WithReferences(s).dependsOn <==> WaitsFor(s, key)
  {
    hide Collect, Mentions;
    CollectedIff(s.input, 0, key);
  }

  lemma EdgeIff(steps: seq<Step>, from: string, to: string)
    requires forall s | s in steps :: Collect(s.input, 0).Ok?
    ensures Edge(AllWithReferences(steps), from, to) <==> Waits(steps, from, to)
  {
    hide Collect, Mentions;
    var all := AllWithReferences(steps);
    if Edge(all, from, to) {
      var t :| t in all && t.key == from && to in t.dependsOn;
      var i :| 0 <= i < |all| && all[i] == t;
      assert steps[i] in steps;
      DependencyIff(steps[i], to);
    }
    if Waits(steps, from, to) {
      var s :| s in steps && s.key == from && WaitsFor(s, to);
      var i :| 0 <= i < |steps| && steps[i] == s;
      DependencyIff(s, to);
      assert all[i] in all;
    }
  }

  lemma AcyclicIff(steps: seq<Step>)
    requires forall s | s in steps :: Collect(s.input, 0).Ok?
    ensures Acyclic(AllWithReferences(steps)) <==> !WaitsForItself(steps)
  {
    hide Collect, Edge, Waits;
    forall from, to {
      EdgeIff(steps, from, to);
    }
    forall p
      ensures IsCycle(AllWithReferences(steps), p) <==> |p| >= 2 && IsWaiting(steps, p) && p[0] == p[|p| - 1]
    {
    }
  }

  lemma KnownIff(steps: seq<Step>, known: set<string>)
    requires forall s | s in steps :: Collect(s.input, 0).Ok?
    ensures KnownDependencies(AllWithReferences(steps), known) <==> forall s, key | s in steps && WaitsFor(s, key) :: key in known
  {
    hide Collect, WaitsFor;
    var all := AllWithReferences(steps);
    forall s, key | s in steps
      ensures key in WithReferences(s).dependsOn <==> WaitsFor(s, key)
    {
      DependencyIff(s, key);
    }
    forall i | 0 <= i < |steps|
      ensures all[i] == WithReferences(steps[i]) && all[i] in all && steps[i] in steps
    {
    }
  }

  /**
   A batch is admitted exactly when its keys are distinct and new, no input nests deeper than twenty
   levels, every key a step names or refers to is known, and no step waits for itself, however far around.
   */
  lemma AdmittedIff(steps: seq<Step>, existing: set<string>)
    ensures Acceptable(steps, existing)
       <==> (forall i, j | 0 <= i < j < |steps| :: steps[i].key != steps[j].key)
            && (forall s | s in steps :: s.key !in existing && Height(s.input) <= 20)
            && (forall s, key | s in steps && WaitsFor(s, key) :: key in existing || exists t | t in steps :: t.key == key)
            && !WaitsForItself(steps)
  {
    hide Collect, Height, WaitsFor, Acyclic, WaitsForItself, KnownDependencies;
    forall s: Step {
      CollectsIff(s.input, 0);
    }
    if forall s | s in steps :: Collect(s.input, 0).Ok? {
      AcyclicIff(steps);
      KnownIff(steps, existing + KeySet(steps));
    }
  }
}
