/**
 The reference language of workflow inputs: `{{step:key:path}}` inside strings, collected and
 resolved recursively through arrays and objects.
 */
module References {
  import opened Prelude
  import opened Values
  import opened AgentTypes

  const OPENING: string := "{{step:"
  const CLOSING: string := "}}"
  const MAX_DEPTH: nat := 20

  predicate KeyHead(c: char) { 'a' <= c <= 'z' }
  predicate KeyChar(c: char) { KeyHead(c) || IsDigit(c) || c == '_' || c == '-' }
  predicate PathChar(c: char) { KeyChar(c) || 'A' <= c <= 'Z' || c == '.' }

  datatype Ref = Ref(key: string, path: string)

  /** What the reference pattern accepts as key and path. */
  predicate ValidRef(r: Ref) {
    && 1 <= |r.key| <= 80 && KeyHead(r.key[0]) && (forall c | c in r.key :: KeyChar(c))
    && 1 <= |r.path| <= 300 && (forall c | c in r.path :: PathChar(c))
  }

  function RefText(r: Ref): string { OPENING + r.key + ":" + r.path + CLOSING }

  /** The longest prefix of `s` whose characters all satisfy `p`, and what follows it. */
  function Span(p: char -> bool, s: string): (r: (string, string))
    ensures r.0 + r.1 == s
    ensures forall c | c in r.0 :: p(c)
    ensures r.1 != "" ==> !p(r.1[0])
  {
    if s != "" && p(s[0]) then
      var (run, rest) := Span(p, s[1..]);
      ([s[0]] + run, rest)
    else ("", s)
  }

  lemma {:induction false} SpanUnique(p: char -> bool, run: string, rest: string)
    requires forall c | c in run :: p(c)
    requires rest != "" ==> !p(rest[0])
    ensures Span(p, run + rest) == (run, rest)
  {
    if run == "" {
      assert run + rest == rest;
    } else {
      assert (run + rest)[1..] == run[1..] + rest;
      SpanUnique(p, run[1..], rest);
      assert [run[0]] + run[1..] == run;
    }
  }

  /** What follows `prefix` in `s`. */
  function After(prefix: string, s: string): (r: Option<string>)
    ensures r.Some? ==> s == prefix + r.value
  {
    if prefix <= s then Some(s[|prefix|..]) else None
  }

  lemma AfterConcat(prefix: string, rest: string)
    ensures After(prefix, prefix + rest) == Some(rest)
  {
  }

  /** Matches the pattern at the start of `s`: the reference found there and the text after it. */
  function MatchPrefix(s: string): (m: Option<(Ref, string)>)
    ensures m.Some? ==> |m.value.1| < |s|
  {
    match After(OPENING, s)
    case None => None
    case Some(body) =>
      var (key, afterKey) := Span(KeyChar, body);
      match After(":", afterKey)
      case None => None
      case Some(pathBody) =>
        var (path, afterPath) := Span(PathChar, pathBody);
        match After(CLOSING, afterPath)
        case None => None
        case Some(rest) => if ValidRef(Ref(key, path)) then Some((Ref(key, path), rest)) else None
  }

  /** The matcher finds a reference exactly when the string starts with the text of a valid one. */
  lemma MatchPrefixExact(s: string, r: Ref, rest: string)
    ensures MatchPrefix(s) == Some((r, rest)) <==> ValidRef(r) && s == RefText(r) + rest
  {
    if MatchPrefix(s) == Some((r, rest)) {
      MatchPrefixSound(s);
    }
    if ValidRef(r) && s == RefText(r) + rest {
      MatchPrefixComplete(r, rest);
    }
  }

  lemma MatchPrefixSound(s: string)
    requires MatchPrefix(s).Some?
    ensures var (r, rest) := MatchPrefix(s).value; ValidRef(r) && s == RefText(r) + rest
  {
    var body := After(OPENING, s).value;
    var (key, afterKey) := Span(KeyChar, body);
    var pathBody := After(":", afterKey).value;
    var (path, afterPath) := Span(PathChar, pathBody);
    var rest := After(CLOSING, afterPath).value;
    calc {
      s;
      OPENING + (key + (":" + (path + (CLOSING + rest))));
      RefText(Ref(key, path)) + rest;
    }
  }

  lemma MatchOpensABrace(s: string)
    ensures MatchPrefix(s).Some? ==> s != "" && s[0] == '{'
  {
    if MatchPrefix(s).Some? {
      MatchPrefixSound(s);
      assert s[0] == OPENING[0];
    }
  }

  lemma MatchPrefixComplete(r: Ref, rest: string)
    requires ValidRef(r)
    ensures MatchPrefix(RefText(r) + rest) == Some((r, rest))
  {
    var afterPath := CLOSING + rest;
    var pathBody := r.path + afterPath;
    var afterKey := ":" + pathBody;
    var body := r.key + afterKey;
    assert RefText(r) + rest == OPENING + body;
    AfterConcat(OPENING, body);
    SpanUnique(KeyChar, r.key, afterKey);
    AfterConcat(":", pathBody);
    SpanUnique(PathChar, r.path, afterPath);
    AfterConcat(CLOSING, rest);
  }

  // ---------- Templates: a string cut at its leftmost, non-overlapping references ----------

  datatype Template = End(lit: string) | Hole(lit: string, ref: Ref, rest: Template)

  function Parse(s: string): Template
    decreases |s|
  {
    if s == "" then End("")
    else
      match MatchPrefix(s)
      case Some((r, rest)) => Hole("", r, Parse(rest))
      case None => Shift(s[0], Parse(s[1..]))
  }

  function Shift(c: char, t: Template): Template {
    t.(lit := [c] + t.lit)
  }

  function Render(t: Template): string {
    match t
    case End(lit) => lit
    case Hole(lit, r, rest) => lit + RefText(r) + Render(rest)
  }

  /** `[...value.matchAll(pattern)]` */
  function Refs(t: Template): seq<Ref> {
    match t
    case End(_) => []
    case Hole(_, r, rest) => [r] + Refs(rest)
  }

  function RefKeys(refs: seq<Ref>): (keys: seq<string>)
    ensures |keys| == |refs| && forall i | 0 <= i < |refs| :: keys[i] == refs[i].key
  {
    seq(|refs|, i requires 0 <= i < |refs| => refs[i].key)
  }

  predicate ValidHoles(t: Template) {
    match t
    case End(_) => true
    case Hole(_, r, rest) => ValidRef(r) && ValidHoles(rest)
  }

  lemma ShiftRenders(c: char, t: Template)
    ensures Render(Shift(c, t)) == [c] + Render(t)
    ensures Refs(Shift(c, t)) == Refs(t)
    ensures ValidHoles(Shift(c, t)) == ValidHoles(t)
  {
    if t.Hole? {
      assert [c] + t.lit + RefText(t.ref) + Render(t.rest) == [c] + (t.lit + RefText(t.ref) + Render(t.rest));
    }
  }

  /** Cutting a string at its references loses nothing, and every hole is a valid reference. */
  lemma {:induction false} ParseRenders(s: string)
    ensures Render(Parse(s)) == s && ValidHoles(Parse(s))
    decreases |s|
  {
    if s != "" {
      match MatchPrefix(s)
      case Some((r, rest)) =>
        MatchPrefixSound(s);
        ParseRenders(rest);
        assert "" + RefText(r) == RefText(r);
      case None =>
        ParseRenders(s[1..]);
        ShiftRenders(s[0], Parse(s[1..]));
        assert s == [s[0]] + s[1..];
    }
  }

  /** A string has no holes exactly when the pattern matches nowhere in it. */
  lemma {:induction false} NoHolesIff(s: string)
    ensures Refs(Parse(s)) == [] <==> forall i | 0 <= i <= |s| :: MatchPrefix(s[i..]).None?
    decreases |s|
  {
    assert s[0..] == s;
    if s != "" && MatchPrefix(s).None? {
      ShiftRenders(s[0], Parse(s[1..]));
      NoHolesIff(s[1..]);
      assert forall i | 0 < i <= |s| :: s[i..] == s[1..][i - 1..];
      assert forall i | 0 <= i <= |s[1..]| :: s[1..][i..] == s[i + 1..];
    }
  }

  // ---------- Collecting references ----------

  datatype ResolveError =
    | TooDeep
    | MissingStep(key: string)
    | NotDone(key: string)
    | MissingPath(key: string, path: string)
    | NotScalar(key: string, path: string)

  function Collect(v: Value, depth: nat): Result<seq<string>, ResolveError>
    decreases v
  {
    if depth > MAX_DEPTH then Err(TooDeep)
    else
      match v
      case Str(s) => Ok(RefKeys(Refs(Parse(s))))
      case Arr(items) =>
        (match CollectItems(items, depth + 1)
         case Err(e) => Err(e)
         case Ok(keys) => Ok(Dedup(keys)))
      case Obj(members) =>
        (match CollectMembers(members, depth + 1)
         case Err(e) => Err(e)
         case Ok(keys) => Ok(Dedup(keys)))
      case _ => Ok([])
  }

  function CollectItems(items: List<Value>, depth: nat): Result<seq<string>, ResolveError>
    decreases items
  {
    match items
    case Nil => Ok([])
    case Cons(v, rest) =>
      match Collect(v, depth)
      case Err(e) => Err(e)
      case Ok(keys) =>
        match CollectItems(rest, depth)
        case Err(e) => Err(e)
        case Ok(more) => Ok(keys + more)
  }

  function CollectMembers(members: List<Member>, depth: nat): Result<seq<string>, ResolveError>
    decreases members
  {
    match members
    case Nil => Ok([])
    case Cons(m, rest) =>
      match Collect(m.value, depth)
      case Err(e) => Err(e)
      case Ok(keys) =>
        match CollectMembers(rest, depth)
        case Err(e) => Err(e)
        case Ok(more) => Ok(keys + more)
  }

  // ---------- Resolving one reference ----------

  function FindStep(steps: seq<Step>, key: string): (found: Option<Step>)
    ensures found.Some? ==> found.value in steps && found.value.key == key
    ensures found.None? ==> forall s | s in steps :: s.key != key
  {
    if steps == [] then None
    else if steps[0].key == key then Some(steps[0])
    else FindStep(steps[1..], key)
  }

  function Get(current: Value, part: string): Value {
    match current
    case Arr(items) =>
      if AllDigits(part) then Nth(items, DigitsToNat(part))
      else if part == "length" then Num(NatToDigits(Length(items)))
      else Undefined
    case Obj(members) => Lookup(members, part)
    case _ => Undefined
  }

  function Walk(current: Value, parts: seq<string>): Value
    decreases |parts|
  {
    if parts == [] then current else Walk(Get(current, parts[0]), parts[1..])
  }

  function NonEmpty(parts: seq<string>): seq<string> {
    if parts == [] then []
    else if parts[0] == "" then NonEmpty(parts[1..])
    else [parts[0]] + NonEmpty(parts[1..])
  }

  const BLOCKED_PATH_PARTS: set<string> := {"__proto__", "prototype", "constructor"}

  function ResultAtPath(result: Option<Value>, path: string): Value {
    var parts := NonEmpty(Split(path, '.'));
    if result.None? || parts == [] || (exists part | part in parts :: part in BLOCKED_PATH_PARTS) then Undefined
    else Walk(result.value, parts)
  }

  function ResolveRef(r: Ref, steps: seq<Step>): Result<Value, ResolveError> {
    match FindStep(steps, r.key)
    case None => Err(MissingStep(r.key))
    case Some(source) =>
      if source.status != Done then Err(NotDone(r.key))
      else
        var resolved := ResultAtPath(source.result, r.path);
        if resolved == Undefined then Err(MissingPath(r.key, r.path)) else Ok(resolved)
  }

  // ---------- Embedding values in strings ----------

  predicate IsScalar(v: Value) { !v.Arr? && !v.Obj? }

  /** `String(v ?? "")` */
  function ScalarText(v: Value): string {
    match v
    case Bool(b) => if b then "true" else "false"
    case Num(lexeme) => lexeme
    case Str(text) => text
    case _ => ""
  }

  predicate OccursAt(pattern: string, text: string, i: int) {
    0 <= i <= |text| - |pattern| && text[i..i + |pattern|] == pattern
  }

  predicate Occurs(pattern: string, text: string) {
    exists i | 0 <= i <= |text| :: OccursAt(pattern, text, i)
  }

  /** `text.indexOf(pattern, from)` */
  function IndexOf(pattern: string, text: string, from: nat := 0): (i: int)
    requires from <= |text|
    ensures i == -1 || (from <= i && OccursAt(pattern, text, i))
    ensures forall j | from <= j < (if i == -1 then |text| + 1 else i) :: !OccursAt(pattern, text, j)
    decreases |text| - from
  {
    if OccursAt(pattern, text, from) then from
    else if from == |text| then -1
    else IndexOf(pattern, text, from + 1)
  }

  /** The `$` patterns a replacement string of `replace` may contain. */
  function Expand(replacement: string, matched: string, before: string, after: string): string {
    if replacement == "" then ""
    else if replacement[0] == '$' && |replacement| >= 2 && replacement[1] in "$&`'" then
      (match replacement[1]
       case '$' => "$"
       case '&' => matched
       case '`' => before
       case _ => after) + Expand(replacement[2..], matched, before, after)
    else [replacement[0]] + Expand(replacement[1..], matched, before, after)
  }

  /** `text.replace(pattern, replacement)` for a string pattern. */
  function ReplaceFirst(text: string, pattern: string, replacement: string): string {
    var i := IndexOf(pattern, text);
    if i < 0 then text
    else
      var before, after := text[..i], text[i + |pattern|..];
      before + Expand(replacement, pattern, before, after) + after
  }

  /** The source's substitution: one `replace` per match, each on the output of the one before. */
  function SubstituteInOrder(output: string, refs: seq<Ref>, steps: seq<Step>): Result<string, ResolveError>
    decreases |refs|
  {
    if refs == [] then Ok(output)
    else
      match ResolveRef(refs[0], steps)
      case Err(e) => Err(e)
      case Ok(v) =>
        if !IsScalar(v) then Err(NotScalar(refs[0].key, refs[0].path))
        else SubstituteInOrder(ReplaceFirst(output, RefText(refs[0]), ScalarText(v)), refs[1..], steps)
  }

  /** What a reader expects: every hole filled with its own value, all at once. */
  function FillHoles(t: Template, steps: seq<Step>): Result<string, ResolveError> {
    match t
    case End(lit) => Ok(lit)
    case Hole(lit, r, rest) =>
      match ResolveRef(r, steps)
      case Err(e) => Err(e)
      case Ok(v) =>
        if !IsScalar(v) then Err(NotScalar(r.key, r.path))
        else
          match FillHoles(rest, steps)
          case Err(e) => Err(e)
          case Ok(tail) => Ok(lit + ScalarText(v) + tail)
  }

  function ResolveString(s: string, steps: seq<Step>): Result<Value, ResolveError> {
    var refs := Refs(Parse(s));
    if refs == [] then Ok(Str(s))
    else if |refs| == 1 && RefText(refs[0]) == s then ResolveRef(refs[0], steps)
    else
      match SubstituteInOrder(s, refs, steps)
      case Err(e) => Err(e)
      case Ok(text) => Ok(Str(text))
  }

  method ResolveReferenceString(s: string, steps: seq<Step>) returns (r: Result<Value, ResolveError>)
    ensures r == ResolveString(s, steps)
  {
    var refs := Refs(Parse(s));
    if refs == [] {
      return Ok(Str(s));
    }
    if |refs| == 1 && RefText(refs[0]) == s {
      return ResolveRef(refs[0], steps);
    }
    var output := s;
    for i := 0 to |refs|
      invariant SubstituteInOrder(s, refs, steps) == SubstituteInOrder(output, refs[i..], steps)
    {
      assert refs[i..][0] == refs[i] && refs[i..][1..] == refs[i + 1..];
      var resolved := ResolveRef(refs[i], steps);
      if resolved.Err? {
        return Err(resolved.error);
      }
      if !IsScalar(resolved.value) {
        return Err(NotScalar(refs[i].key, refs[i].path));
      }
      output := ReplaceFirst(output, RefText(refs[i]), ScalarText(resolved.value));
    }
    return Ok(Str(output));
  }

  // ---------- Resolving a whole input ----------

  function Resolve(v: Value, steps: seq<Step>, depth: nat): Result<Value, ResolveError>
    decreases v
  {
    if depth > MAX_DEPTH then Err(TooDeep)
    else
      match v
      case Str(s) => ResolveString(s, steps)
      case Arr(items) =>
        (match ResolveItems(items, steps, depth + 1)
         case Err(e) => Err(e)
         case Ok(resolved) => Ok(Arr(resolved)))
      case Obj(members) =>
        (match ResolveMembers(members, steps, depth + 1)
         case Err(e) => Err(e)
         case Ok(resolved) => Ok(Obj(resolved)))
      case _ => Ok(v)
  }

  function ResolveItems(items: List<Value>, steps: seq<Step>, depth: nat): Result<List<Value>, ResolveError>
    decreases items
  {
    match items
    case Nil => Ok(Nil)
    case Cons(v, rest) =>
      match Resolve(v, steps, depth)
      case Err(e) => Err(e)
      case Ok(w) =>
        match ResolveItems(rest, steps, depth)
        case Err(e) => Err(e)
        case Ok(more) => Ok(Cons(w, more))
  }

  function ResolveMembers(members: List<Member>, steps: seq<Step>, depth: nat): Result<List<Member>, ResolveError>
    decreases members
  {
    match members
    case Nil => Ok(Nil)
    case Cons(m, rest) =>
      match Resolve(m.value, steps, depth)
      case Err(e) => Err(e)
      case Ok(w) =>
        match ResolveMembers(rest, steps, depth)
        case Err(e) => Err(e)
        case Ok(more) => Ok(Cons(Member(m.key, w), more))
  }
}
