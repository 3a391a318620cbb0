/** Laws of reference resolution: identity, locality, type preservation, and in-order against simultaneous substitution. */
module ReferenceLaws {
  import opened Prelude
  import opened Values
  import opened AgentTypes
  import opened References

  // ---------- Inputs without references ----------

  /** An input without references resolves to itself, whatever the steps are. */
  lemma {:induction false} NoReferencesIsIdentity(v: Value, steps: seq<Step>, depth: nat)
    requires Collect(v, depth) == Ok([])
    ensures Resolve(v, steps, depth) == Ok(v)
    decreases v
  {
    match v
    case Str(s) =>
      assert |Refs(Parse(s))| == 0;
    case Arr(items) =>
      DedupEmpty(CollectItems(items, depth + 1).value);
      NoReferencesIsIdentityItems(items, steps, depth + 1);
    case Obj(members) =>
      DedupEmpty(CollectMembers(members, depth + 1).value);
      NoReferencesIsIdentityMembers(members, steps, depth + 1);
    case _ =>
  }

  lemma DedupEmpty(xs: seq<string>)
    ensures Dedup(xs) == [] ==> xs == []
  {
  }

  lemma {:induction false} NoReferencesIsIdentityItems(items: List<Value>, steps: seq<Step>, depth: nat)
    requires CollectItems(items, depth) == Ok([])
    ensures ResolveItems(items, steps, depth) == Ok(items)
    decreases items
  {
    match items
    case Nil =>
    case Cons(v, rest) =>
      NoReferencesIsIdentity(v, steps, depth);
      NoReferencesIsIdentityItems(rest, steps, depth);
  }

  lemma {:induction false} NoReferencesIsIdentityMembers(members: List<Member>, steps: seq<Step>, depth: nat)
    requires CollectMembers(members, depth) == Ok([])
    ensures ResolveMembers(members, steps, depth) == Ok(members)
    decreases members
  {
    match members
    case Nil =>
    case Cons(m, rest) =>
      NoReferencesIsIdentity(m.value, steps, depth);
      NoReferencesIsIdentityMembers(rest, steps, depth);
  }

  // ---------- The result depends only on the referenced steps ----------

  /** The two step lists show the same status and result under `key`. */
  predicate SameEvidence(key: string, a: seq<Step>, b: seq<Step>) {
    match (FindStep(a, key), FindStep(b, key))
    case (None, None) => true
    case (Some(s), Some(t)) => (s.status == Done) == (t.status == Done) && s.result == t.result
    case _ => false
  }

  ghost predicate SameEvidenceFor(keys: seq<string>, a: seq<Step>, b: seq<Step>) {
    forall key | key in keys :: SameEvidence(key, a, b)
  }

  lemma {:induction false} OnlyReferencedStepsMatter(v: Value, a: seq<Step>, b: seq<Step>, depth: nat)
    requires Collect(v, depth).Ok? && SameEvidenceFor(Collect(v, depth).value, a, b)
    ensures Resolve(v, a, depth) == Resolve(v, b, depth)
    decreases v
  {
    match v
    case Str(s) =>
      var refs := Refs(Parse(s));
      assert forall r | r in refs :: r.key in RefKeys(refs) by {
        assert forall i | 0 <= i < |refs| :: RefKeys(refs)[i] == refs[i].key;
      }
      InOrderLocal(s, refs, a, b);
    case Arr(items) => ItemsLocal(items, a, b, depth + 1);
    case Obj(members) => MembersLocal(members, a, b, depth + 1);
    case _ =>
  }

  lemma {:induction false} InOrderLocal(output: string, refs: seq<Ref>, a: seq<Step>, b: seq<Step>)
    requires forall r | r in refs :: SameEvidence(r.key, a, b)
    ensures SubstituteInOrder(output, refs, a) == SubstituteInOrder(output, refs, b)
    ensures forall r | r in refs :: ResolveRef(r, a) == ResolveRef(r, b)
    decreases |refs|
  {
    if refs != [] {
      assert SameEvidence(refs[0].key, a, b);
      var resolved := ResolveRef(refs[0], a);
      if resolved.Ok? {
        InOrderLocal(ReplaceFirst(output, RefText(refs[0]), ScalarText(resolved.value)), refs[1..], a, b);
      }
    }
  }

  lemma {:induction false} ItemsLocal(items: List<Value>, a: seq<Step>, b: seq<Step>, depth: nat)
    requires CollectItems(items, depth).Ok? && SameEvidenceFor(CollectItems(items, depth).value, a, b)
    ensures ResolveItems(items, a, depth) == ResolveItems(items, b, depth)
    decreases items
  {
    match items
    case Nil =>
    case Cons(v, rest) =>
      OnlyReferencedStepsMatter(v, a, b, depth);
      ItemsLocal(rest, a, b, depth);
  }

  lemma {:induction false} MembersLocal(members: List<Member>, a: seq<Step>, b: seq<Step>, depth: nat)
    requires CollectMembers(members, depth).Ok? && SameEvidenceFor(CollectMembers(members, depth).value, a, b)
    ensures ResolveMembers(members, a, depth) == ResolveMembers(members, b, depth)
    decreases members
  {
    match members
    case Nil =>
    case Cons(m, rest) =>
      OnlyReferencedStepsMatter(m.value, a, b, depth);
      MembersLocal(rest, a, b, depth);
  }

  // ---------- A reference that is the whole string keeps its value's type ----------

  lemma OneHole(r: Ref)
    requires ValidRef(r)
    ensures Refs(Parse(RefText(r))) == [r]
  {
    var s := RefText(r);
    assert s + "" == s;
    MatchPrefixExact(s, r, "");
    assert Parse(s) == Hole("", r, Parse(""));
  }

  lemma WholeStringKeepsType(r: Ref, steps: seq<Step>, depth: nat)
    requires ValidRef(r) && depth <= MAX_DEPTH
    ensures Resolve(Str(RefText(r)), steps, depth) == ResolveRef(r, steps)
  {
    OneHole(r);
  }

  // ---------- In-order replacement against filling all holes at once ----------

  /**
   Checked on the text as it is filled from the left: no reference occurs in the text already
   produced before its own hole, and `replace` reads no `$` pattern into the value.
   */
  predicate Fillable(done: string, t: Template, steps: seq<Step>)
    decreases t
  {
    match t
    case End(_) => true
    case Hole(lit, r, rest) =>
      match ResolveRef(r, steps)
      case Err(_) => true
      case Ok(v) =>
        IsScalar(v) ==>
          && !Occurs(RefText(r), done + lit)
          && Expand(ScalarText(v), RefText(r), done + lit, Render(rest)) == ScalarText(v)
          && Fillable(done + lit + ScalarText(v), rest, steps)
  }

  lemma {:induction false} ExpandPlain(replacement: string, matched: string, before: string, after: string)
    requires '$' !in replacement
    ensures Expand(replacement, matched, before, after) == replacement
  {
    if replacement != "" {
      ExpandPlain(replacement[1..], matched, before, after);
      assert replacement == [replacement[0]] + replacement[1..];
    }
  }

  /** Closing braces stand only at the end of a reference. */
  lemma ClosingBraces(r: Ref, k: nat)
    requires ValidRef(r) && k < |RefText(r)|
    ensures RefText(r)[k] == '}' ==> k >= |RefText(r)| - 2
  {
    var m := |OPENING|;
    if k < m {
      assert RefText(r)[k] == OPENING[k];
    } else if k < m + |r.key| {
      assert RefText(r)[k] == r.key[k - m] && r.key[k - m] in r.key;
    } else if m + |r.key| < k < |RefText(r)| - 2 {
      assert RefText(r)[k] == r.path[k - m - |r.key| - 1] && r.path[k - m - |r.key| - 1] in r.path;
    }
  }

  /** A reference cannot begin inside the text before its hole and end inside the hole. */
  lemma NoStraddle(before: string, r: Ref, after: string, j: nat)
    requires ValidRef(r) && j < |before| && OccursAt(RefText(r), before + RefText(r) + after, j)
    ensures OccursAt(RefText(r), before, j)
  {
    var m := RefText(r);
    var text := before + m + after;
    if j + |m| > |before| {
      var last := j + |m| - 1 - |before|;
      assert text[j..j + |m|][|m| - 1] == m[|m| - 1] == '}';
      assert text[j + |m| - 1] == m[last];
      ClosingBraces(r, last);
      assert text[j..j + |m|][|m| - 2] == m[|m| - 2] == '}';
      assert text[j + |m| - 2] == m[last - 1];
      ClosingBraces(r, last - 1);
      assert false;
    }
    assert before[j..j + |m|] == text[j..j + |m|];
  }

  /** With nothing earlier to hit, `replace` fills exactly the hole and leaves the rest alone. */
  lemma ReplaceHitsHole(before: string, r: Ref, after: string, filling: string)
    requires ValidRef(r) && !Occurs(RefText(r), before) && Expand(filling, RefText(r), before, after) == filling
    ensures ReplaceFirst(before + RefText(r) + after, RefText(r), filling) == before + filling + after
  {
    var m := RefText(r);
    var text := before + m + after;
    assert text[|before|..|before| + |m|] == m;
    assert OccursAt(m, text, |before|);
    var i := IndexOf(m, text);
    if 0 <= i < |before| {
      NoStraddle(before, r, after, i);
      assert false;
    }
    assert i == |before|;
    assert text[..i] == before && text[i + |m|..] == after;
  }

  /** `replace` acts at the hole exactly when its reference does not occur in the text before the hole. */
  lemma HitsItsHoleIff(before: string, r: Ref, after: string)
    requires ValidRef(r)
    ensures IndexOf(RefText(r), before + RefText(r) + after) == |before| <==> !Occurs(RefText(r), before)
  {
    var m := RefText(r);
    var text := before + m + after;
    assert text[|before|..|before| + |m|] == m;
    assert OccursAt(m, text, |before|);
    var i := IndexOf(m, text);
    if 0 <= i < |before| {
      NoStraddle(before, r, after, i);
    }
    if Occurs(m, before) {
      var j :| 0 <= j <= |before| && OccursAt(m, before, j);
      assert text[j..j + |m|] == before[j..j + |m|];
      assert OccursAt(m, text, j);
    }
  }

  /** The loop's replacement for this hole acts at the hole and puts the value there as it is. */
  predicate ActsAt(output: string, before: string, r: Ref, after: string, filling: string) {
    && IndexOf(RefText(r), output) == |before|
    && ReplaceFirst(output, RefText(r), filling) == before + filling + after
  }

  lemma ActsAtIff(before: string, r: Ref, after: string, filling: string)
    requires ValidRef(r)
    ensures ActsAt(before + RefText(r) + after, before, r, after, filling)
       <==> !Occurs(RefText(r), before) && Expand(filling, RefText(r), before, after) == filling
  {
    var m := RefText(r);
    var text := before + m + after;
    HitsItsHoleIff(before, r, after);
    if IndexOf(m, text) == |before| {
      assert text[..|before|] == before && text[|before| + |m|..] == after;
      var put := Expand(filling, m, before, after);
      assert ReplaceFirst(text, m, filling) == before + put + after;
      if before + put + after == before + filling + after {
        SameMiddle(before, put, filling, after);
      }
    }
  }

  lemma SameMiddle(before: string, a: string, b: string, after: string)
    requires before + a + after == before + b + after
    ensures a == b
  {
    assert (before + a + after)[|before|..|before| + |a|] == a;
    assert (before + b + after)[|before|..|before| + |b|] == b;
  }

  /**
   The loop on its actual text: every replacement, up to the first reference that cannot be embedded, acts
   at its own hole and puts the value there as it is.
   */
  predicate EachActsAtItsHole(output: string, done: string, t: Template, steps: seq<Step>)
    decreases t
  {
    match t
    case End(_) => true
    case Hole(lit, r, rest) =>
      match ResolveRef(r, steps)
      case Err(_) => true
      case Ok(v) =>
        IsScalar(v) ==>
          && ActsAt(output, done + lit, r, Render(rest), ScalarText(v))
          && EachActsAtItsHole(ReplaceFirst(output, RefText(r), ScalarText(v)), done + lit + ScalarText(v), rest, steps)
  }

  /** The references that would be embedded do not occur in the text before their holes, and no value holds a `$` pattern. */
  lemma {:induction false} FillableIff(done: string, t: Template, steps: seq<Step>)
    requires ValidHoles(t)
    ensures EachActsAtItsHole(done + Render(t), done, t, steps) <==> Fillable(done, t, steps)
    decreases t
  {
    if t.Hole? {
      var resolved := ResolveRef(t.ref, steps);
      if resolved.Ok? && IsScalar(resolved.value) {
        var before, text := done + t.lit, ScalarText(resolved.value);
        assert done + Render(t) == before + RefText(t.ref) + Render(t.rest);
        ActsAtIff(before, t.ref, Render(t.rest), text);
        FillableIff(before + text, t.rest, steps);
      }
    }
  }

  /** Every replacement of the loop acts at its own hole and puts its value there as it is exactly when the string is fillable. */
  lemma ReplacementsActIff(s: string, steps: seq<Step>)
    ensures EachActsAtItsHole(s, "", Parse(s), steps) <==> Fillable("", Parse(s), steps)
  {
    ParseRenders(s);
    FillableIff("", Parse(s), steps);
    assert "" + s == s;
  }

  /** The loop of single replacements computes the simultaneous substitution, errors included. */
  lemma {:induction false} InOrderIsSimultaneous(s: string, steps: seq<Step>)
    requires Fillable("", Parse(s), steps)
    ensures SubstituteInOrder(s, Refs(Parse(s)), steps) == FillHoles(Parse(s), steps)
  {
    ParseRenders(s);
    InOrderFrom("", Parse(s), steps);
    assert "" + s == s;
    match FillHoles(Parse(s), steps)
    case Ok(tail) => assert "" + tail == tail;
    case Err(_) =>
  }

  function Prefixed(done: string, r: Result<string, ResolveError>): Result<string, ResolveError> {
    match r
    case Ok(tail) => Ok(done + tail)
    case Err(e) => Err(e)
  }

  lemma {:induction false} InOrderFrom(done: string, t: Template, steps: seq<Step>)
    requires ValidHoles(t) && Fillable(done, t, steps)
    ensures SubstituteInOrder(done + Render(t), Refs(t), steps) == Prefixed(done, FillHoles(t, steps))
    decreases t
  {
    if t.Hole? {
      var resolved := ResolveRef(t.ref, steps);
      if resolved.Ok? && IsScalar(resolved.value) {
        FillFirstHole(done, t, steps, ScalarText(resolved.value));
        InOrderFrom(done + t.lit + ScalarText(resolved.value), t.rest, steps);
        assert Refs(t)[1..] == Refs(t.rest);
        PrefixedHole(done, t, ScalarText(resolved.value), FillHoles(t.rest, steps));
      }
    }
  }

  lemma FillFirstHole(done: string, t: Template, steps: seq<Step>, filling: string)
    requires t.Hole? && ValidRef(t.ref) && !Occurs(RefText(t.ref), done + t.lit)
    requires Expand(filling, RefText(t.ref), done + t.lit, Render(t.rest)) == filling
    ensures ReplaceFirst(done + Render(t), RefText(t.ref), filling) == done + t.lit + filling + Render(t.rest)
  {
    assert done + Render(t) == done + t.lit + RefText(t.ref) + Render(t.rest);
    ReplaceHitsHole(done + t.lit, t.ref, Render(t.rest), filling);
  }

  lemma PrefixedHole(done: string, t: Template, filling: string, tail: Result<string, ResolveError>)
    requires t.Hole?
    ensures Prefixed(done + t.lit + filling, tail) == Prefixed(done, Prefixed(t.lit + filling, tail))
  {
    if tail.Ok? {
      assert done + t.lit + filling + tail.value == done + (t.lit + filling + tail.value);
    }
  }

  /** Text outside references and values without `{` or `$` always meet the condition. */
  predicate PlainPieces(t: Template, steps: seq<Step>) {
    match t
    case End(_) => true
    case Hole(lit, r, rest) =>
      && '{' !in lit
      && (match ResolveRef(r, steps)
          case Err(_) => true
          case Ok(v) => IsScalar(v) ==> '{' !in ScalarText(v) && '$' !in ScalarText(v) && PlainPieces(rest, steps))
  }

  lemma ReferencesOpenABrace(r: Ref, text: string, i: nat)
    ensures OccursAt(RefText(r), text, i) ==> '{' in text
  {
    if OccursAt(RefText(r), text, i) {
      assert text[i..i + |RefText(r)|][0] == RefText(r)[0] == '{';
      assert text[i] in text;
    }
  }

  lemma {:induction false} PlainIsFillable(done: string, t: Template, steps: seq<Step>)
    requires PlainPieces(t, steps) && '{' !in done
    ensures Fillable(done, t, steps)
    decreases t
  {
    if t.Hole? {
      var text := done + t.lit;
      forall i | 0 <= i <= |text| {
        ReferencesOpenABrace(t.ref, text, i);
      }
      var resolved := ResolveRef(t.ref, steps);
      if resolved.Ok? && IsScalar(resolved.value) {
        ExpandPlain(ScalarText(resolved.value), RefText(t.ref), text, Render(t.rest));
        PlainIsFillable(text + ScalarText(resolved.value), t.rest, steps);
      }
    }
  }

  /** Plain text and plain values: the whole resolution is the simultaneous substitution. */
  lemma PlainInputsFillSimultaneously(s: string, steps: seq<Step>)
    requires PlainPieces(Parse(s), steps)
    ensures SubstituteInOrder(s, Refs(Parse(s)), steps) == FillHoles(Parse(s), steps)
  {
    PlainIsFillable("", Parse(s), steps);
    InOrderIsSimultaneous(s, steps);
  }

  /**
   Without the condition the loop can fill the wrong place: a value that is itself the text of a
   later reference is replaced in that reference's stead.
   */
  lemma ValueThatLooksLikeAReference(ra: Ref, rb: Ref, w: string, steps: seq<Step>)
    requires ValidRef(ra) && ValidRef(rb) && '$' !in w
    requires ResolveRef(ra, steps) == Ok(Str(RefText(rb))) && ResolveRef(rb, steps) == Ok(Str(w))
    ensures var t := Parse(RefText(ra) + " " + RefText(rb));
      && SubstituteInOrder(Render(t), Refs(t), steps) == Ok(w + " " + RefText(rb))
      && FillHoles(t, steps) == Ok(RefText(rb) + " " + w)
  {
    var ta, tb := RefText(ra), RefText(rb);
    TwoHoles(ra, rb);
    ParseRenders(ta + " " + tb);
    LoopHitsTheValue(ra, rb, w, steps);
    FillHolesOfPair(ra, rb, w, steps);
  }

  lemma InOrderStep(output: string, r: Ref, rest: seq<Ref>, steps: seq<Step>, text: string)
    requires ResolveRef(r, steps) == Ok(Str(text))
    ensures SubstituteInOrder(output, [r] + rest, steps)
         == SubstituteInOrder(ReplaceFirst(output, RefText(r), text), rest, steps)
  {
  }

  lemma LoopHitsTheValue(ra: Ref, rb: Ref, w: string, steps: seq<Step>)
    requires ValidRef(ra) && ValidRef(rb) && '$' !in w
    requires ResolveRef(ra, steps) == Ok(Str(RefText(rb))) && ResolveRef(rb, steps) == Ok(Str(w))
    ensures SubstituteInOrder(RefText(ra) + " " + RefText(rb), [ra, rb], steps) == Ok(w + " " + RefText(rb))
  {
    ReplaceAtStart(ra, " " + RefText(rb), RefText(rb), rb);
    ReplaceAtStart(rb, " " + RefText(rb), w, rb);
    var first, second := RefText(ra) + (" " + RefText(rb)), RefText(rb) + (" " + RefText(rb));
    assert RefText(ra) + " " + RefText(rb) == first && w + (" " + RefText(rb)) == w + " " + RefText(rb);
    assert [ra, rb] == [ra] + [rb] && [rb] == [rb] + [];
    InOrderStep(first, ra, [rb], steps, RefText(rb));
    InOrderStep(second, rb, [], steps, w);
  }

  lemma ReplaceAtStart(r: Ref, tail: string, filling: string, rb: Ref)
    requires ValidRef(r) && ValidRef(rb) && (filling == RefText(rb) || '$' !in filling)
    ensures ReplaceFirst(RefText(r) + tail, RefText(r), filling) == filling + tail
  {
    NoDollar(rb);
    ExpandPlain(filling, RefText(r), "", tail);
    ReplaceHitsHole("", r, tail, filling);
    assert "" + RefText(r) + tail == RefText(r) + tail && "" + filling + tail == filling + tail;
  }

  lemma FillHolesOfPair(ra: Ref, rb: Ref, w: string, steps: seq<Step>)
    requires ResolveRef(ra, steps) == Ok(Str(RefText(rb))) && ResolveRef(rb, steps) == Ok(Str(w))
    ensures FillHoles(Hole("", ra, Hole(" ", rb, End(""))), steps) == Ok(RefText(rb) + " " + w)
  {
    assert FillHoles(Hole(" ", rb, End("")), steps) == Ok(" " + w) by {
      assert " " + w + "" == " " + w;
    }
    assert "" + RefText(rb) + (" " + w) == RefText(rb) + " " + w;
  }

  lemma NoDollar(r: Ref)
    requires ValidRef(r)
    ensures '$' !in RefText(r)
  {
  }

  lemma TwoHoles(ra: Ref, rb: Ref)
    requires ValidRef(ra) && ValidRef(rb)
    ensures Parse(RefText(ra) + " " + RefText(rb)) == Hole("", ra, Hole(" ", rb, End("")))
    ensures Refs(Parse(RefText(ra) + " " + RefText(rb))) == [ra, rb]
  {
    hide MatchPrefix, ValidRef, RefText;
    var tail := " " + RefText(rb);
    assert RefText(ra) + " " + RefText(rb) == RefText(ra) + tail;
    MatchPrefixExact(RefText(ra) + tail, ra, tail);
    assert tail[1..] == RefText(rb) && RefText(rb) + "" == RefText(rb);
    MatchPrefixExact(RefText(rb), rb, "");
    MatchOpensABrace(tail);
    assert Parse(RefText(rb)) == Hole("", rb, End(""));
    calc {
      Parse(tail);
      Shift(' ', Parse(tail[1..]));
      Shift(' ', Hole("", rb, End("")));
      { assert [' '] + "" == " "; }
      Hole(" ", rb, End(""));
    }
    calc {
      Refs(Hole("", ra, Hole(" ", rb, End(""))));
      [ra] + Refs(Hole(" ", rb, End("")));
      [ra] + ([rb] + Refs(End("")));
      [ra, rb];
    }
  }
}
