/** `extractJsonObject`: finding the first JSON object inside arbitrary text. */
module JsonScanner {
  import opened Prelude
  import opened Values
  import opened JsonText
  import opened JsonRoundTrip

  // ---------- Trimming and fences ----------

  const FENCE: string := "```"

  predicate SaysJson(s: string) {
    |s| >= 4 && s[0] in "jJ" && s[1] in "sS" && s[2] in "oO" && s[3] in "nN"
  }

  function WithoutJsonFence(s: string): string {
    if StartsWith(s, FENCE) && SaysJson(s[3..]) then TrimStart(s[7..]) else s
  }

  function WithoutFence(s: string): string {
    if StartsWith(s, FENCE) then TrimStart(s[3..]) else s
  }

  function WithoutClosingFence(s: string): string {
    if |s| >= 3 && s[|s| - 3..] == FENCE then s[..|s| - 3] else s
  }

  function Clean(content: string): string {
    Trim(WithoutClosingFence(WithoutFence(WithoutJsonFence(Trim(content)))))
  }

  // ---------- The automaton ----------

  /** Nesting of braces, and whether the scan is inside a string or behind a backslash in one. */
  datatype Scan = Scan(depth: int, inString: bool, escaped: bool)

  function Next(s: Scan, c: char): Scan {
    if s.inString then
      if s.escaped then s.(escaped := false)
      else if c == '\\' then s.(escaped := true)
      else if c == '"' then s.(inString := false)
      else s
    else if c == '"' then s.(inString := true)
    else if c == '{' then s.(depth := s.depth + 1)
    else if c == '}' then s.(depth := s.depth - 1)
    else s
  }

  function After(s: Scan, text: string): Scan {
    if text == "" then s else Next(After(s, text[..|text| - 1]), text[|text| - 1])
  }

  const START: Scan := Scan(0, false, false)

  /** At `e` a brace outside strings first brings the depth back to zero. */
  predicate ClosesAt(source: string, start: nat, e: nat) {
    && start <= e < |source|
    && IsClosing(source, start, e)
    && forall k | start <= k < e :: !IsClosing(source, start, k)
  }

  predicate IsClosing(source: string, start: nat, k: nat)
    requires start <= k < |source|
  {
    var before := After(START, source[start..k]);
    !before.inString && source[k] == '}' && before.depth == 1
  }

  predicate IsFound(source: string, start: nat, e: nat, t: Json) {
    ClosesAt(source, start, e) && source[start] == '{' && Parse(source[start..e + 1]) == Some(t)
  }

  /** Whether an object can be read off the text at this place. */
  ghost predicate ReadsAt(source: string, start: nat) {
    exists e: nat, t: Json :: IsFound(source, start, e, t)
  }

  lemma AfterStep(source: string, start: nat, k: nat)
    requires start <= k < |source|
    ensures After(START, source[start..k + 1]) == Next(After(START, source[start..k]), source[k])
  {
    assert source[start..k + 1][..k - start] == source[start..k];
  }

  /** The place of the next `{`, or -1. */
  function IndexOfBrace(source: string, from: nat): (i: int)
    requires from <= |source|
    ensures -1 <= i
    ensures i < 0 ==> forall k | from <= k < |source| :: source[k] != '{'
    ensures i >= 0 ==> from <= i < |source| && source[i] == '{' && forall k | from <= k < i :: source[k] != '{'
    decreases |source| - from
  {
    if from == |source| then -1
    else if source[from] == '{' then from
    else IndexOfBrace(source, from + 1)
  }

  lemma NotParsed(source: string, start: nat, e: nat)
    requires ClosesAt(source, start, e) && Parse(source[start..e + 1]).None?
    ensures !ReadsAt(source, start)
  {
  }

  /** The inner loop: reads one object, from the brace at `start`. */
  method ReadAt(source: string, start: nat) returns (r: Option<Json>)
    requires start < |source| && source[start] == '{'
    ensures r.None? <==> !ReadsAt(source, start)
    ensures r.Some? ==> exists e: nat :: IsFound(source, start, e, r.value)
  {
    hide ReadsAt;
    var depth, inString, escaped := 0, false, false;
    var index := start;
    while index < |source|
      invariant start <= index <= |source|
      invariant After(START, source[start..index]) == Scan(depth, inString, escaped)
      invariant forall k | start <= k < index :: !IsClosing(source, start, k)
    {
      var character := source[index];
      AfterStep(source, start, index);
      if inString {
        if escaped { escaped := false; }
        else if character == '\\' { escaped := true; }
        else if character == '"' { inString := false; }
      } else if character == '"' {
        inString := true;
      } else if character == '{' {
        depth := depth + 1;
      } else if character == '}' {
        depth := depth - 1;
        if depth == 0 {
          assert ClosesAt(source, start, index);
          r := Parse(source[start..index + 1]);
          if r.Some? {
            assert IsFound(source, start, index, r.value);
            FoundIsRead(source, start, index, r.value);
          } else {
            NotParsed(source, start, index);
          }
          return;
        }
      }
      index := index + 1;
    }
    NeverCloses(source, start);
    return None;
  }

  lemma FoundIsRead(source: string, start: nat, e: nat, t: Json)
    requires IsFound(source, start, e, t)
    ensures ReadsAt(source, start)
  {
  }

  lemma NeverCloses(source: string, start: nat)
    requires forall k | start <= k < |source| :: !IsClosing(source, start, k)
    ensures !ReadsAt(source, start)
  {
  }

  lemma NoBraceNoRead(source: string, k: nat)
    requires k >= |source| || source[k] != '{'
    ensures !ReadsAt(source, k)
  {
  }

  /**
   The result is the object read at the least place where the scan closes and the enclosed text
   parses; there is none exactly when there is no such place.
   */
  method ExtractJsonObject(content: string) returns (r: Option<Json>)
    ensures r.None? <==> forall start: nat :: !ReadsAt(Clean(content), start)
    ensures r.Some? ==> exists start: nat, e: nat ::
      IsFound(Clean(content), start, e, r.value) && forall k: nat | k < start :: !ReadsAt(Clean(content), k)
  {
    hide ReadsAt, IsFound, Clean, IndexOfBrace;
    var source := Clean(content);
    var start := IndexOfBrace(source, 0);
    forall k: nat | start < 0 || k < start
      ensures !ReadsAt(source, k)
    {
      NoBraceNoRead(source, k);
    }
    while start >= 0
      invariant -1 <= start < |source|
      invariant start >= 0 ==> source[start] == '{'
      invariant forall k: nat | start < 0 || k < start :: !ReadsAt(source, k)
      decreases if start < 0 then 0 else |source| - start
    {
      r := ReadAt(source, start);
      if r.Some? { return; }
      ghost var last := start;
      start := IndexOfBrace(source, start + 1);
      forall k: nat | start < 0 || k < start
        ensures !ReadsAt(source, k)
      {
        if k > last { NoBraceNoRead(source, k); }
      }
    }
    return None;
  }
}
