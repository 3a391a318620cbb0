/** An object text is found whole, wherever it stands behind text without an opening brace. */
module JsonScannerLaws {
  import opened Prelude
  import opened Values
  import opened JsonText
  import opened JsonRoundTrip
  import opened JsonScanner

  // ---------- What the automaton does on a value ----------

  function At(depth: int): Scan { Scan(depth, false, false) }

  lemma {:induction false} AfterConcat(s: Scan, a: string, b: string)
    ensures After(s, a + b) == After(After(s, a), b)
    decreases |b|
  {
    if b == "" {
      assert a + b == a;
    } else {
      assert (a + b)[..|a + b| - 1] == a + b[..|b| - 1];
      AfterConcat(s, a, b[..|b| - 1]);
    }
  }

  /** The text leaves the automaton where it was and never takes it below. */
  ghost predicate Level(d: int, text: string) {
    After(At(d), text) == At(d) && forall k | 0 <= k <= |text| :: After(At(d), text[..k]).depth >= d
  }

  lemma LevelConcat(d: int, a: string, b: string)
    requires Level(d, a) && Level(d, b)
    ensures Level(d, a + b)
  {
    AfterConcat(At(d), a, b);
    forall k | 0 <= k <= |a + b|
      ensures After(At(d), (a + b)[..k]).depth >= d
    {
      if k <= |a| {
        assert (a + b)[..k] == a[..k];
      } else {
        assert (a + b)[..k] == a + b[..k - |a|];
        AfterConcat(At(d), a, b[..k - |a|]);
      }
    }
  }

  predicate Plain(text: string) { forall i | 0 <= i < |text| :: text[i] !in "\"{}" }

  lemma {:induction false} PlainStays(d: int, text: string)
    requires Plain(text)
    ensures After(At(d), text) == At(d)
  {
    if text != "" {
      PlainStays(d, text[..|text| - 1]);
    }
  }

  lemma PlainIsLevel(d: int, text: string)
    requires Plain(text)
    ensures Level(d, text)
  {
    forall k | 0 <= k <= |text|
      ensures After(At(d), text[..k]) == At(d)
    {
      PlainStays(d, text[..k]);
    }
    assert text[..|text|] == text;
  }

  lemma WsIsLevel(d: int, ws: string)
    requires AllWs(ws)
    ensures Level(d, ws)
  {
    forall i | 0 <= i < |ws|
      ensures IsWs(ws[i])
    {
      assert ws[i] in ws;
    }
    PlainIsLevel(d, ws);
  }

  lemma WordIsLevel(d: int, w: string)
    requires IsWord(w)
    ensures Level(d, w)
  {
    PlainIsLevel(d, w);
  }

  lemma NumberIsLevel(d: int, lexeme: string)
    requires IsNumber(lexeme)
    ensures Level(d, lexeme)
  {
    NumberIsSpelled(lexeme);
    forall i | 0 <= i < |lexeme|
      ensures IsNumberChar(lexeme[i])
    {
      assert lexeme[i] in lexeme;
    }
    PlainIsLevel(d, lexeme);
  }

  lemma BracketsAreLevel(d: int, body: string)
    requires Level(d, body)
    ensures Level(d, "[" + body + "]")
  {
    hide Level;
    PlainIsLevel(d, "[");
    PlainIsLevel(d, "]");
    LevelConcat(d, "[", body);
    LevelConcat(d, "[" + body, "]");
  }

  /** Inside braces one level up. */
  lemma BracesAreLevel(d: int, body: string)
    requires Level(d + 1, body)
    ensures Level(d, "{" + body + "}")
  {
    var text := "{" + body + "}";
    assert "{"[..0] == "" && After(At(d), "{") == At(d + 1);
    forall k | 0 < k < |text|
      ensures After(At(d), text[..k]) == After(At(d + 1), body[..k - 1])
    {
      assert text[..k] == "{" + body[..k - 1];
      AfterConcat(At(d), "{", body[..k - 1]);
    }
    assert body[..|text| - 2] == body && text[..|text| - 1] == text[..|text|][..|text| - 1];
    assert text[..|text|] == text;
    assert text[..0] == "";
  }

  function Inside(d: int): Scan { Scan(d, true, false) }

  lemma {:induction false} PieceStays(d: int, piece: string)
    requires piece != "" && PieceLength(piece) == |piece|
    ensures After(Inside(d), piece) == Inside(d)
    ensures forall k | 0 <= k <= |piece| :: After(Inside(d), piece[..k]).depth == d
  {
    PrefixSteps(Inside(d), piece);
    if |piece| == 6 {
      assert After(Inside(d), piece[..2]) == Inside(d);
      assert After(Inside(d), piece[..3]) == Inside(d);
      assert After(Inside(d), piece[..4]) == Inside(d);
      assert After(Inside(d), piece[..5]) == Inside(d);
    }
    assert piece[..|piece|] == piece;
  }

  lemma PrefixSteps(s: Scan, text: string)
    ensures After(s, text[..0]) == s
    ensures forall k | 0 <= k < |text| :: After(s, text[..k + 1]) == Next(After(s, text[..k]), text[k])
  {
    forall k | 0 <= k < |text|
      ensures After(s, text[..k + 1]) == Next(After(s, text[..k]), text[k])
    {
      assert text[..k + 1][..k] == text[..k];
    }
  }

  lemma {:induction false} RawStays(d: int, raw: string)
    requires IsRaw(raw)
    ensures After(Inside(d), raw) == Inside(d)
    ensures forall k | 0 <= k <= |raw| :: After(Inside(d), raw[..k]).depth == d
    decreases |raw|
  {
    if raw != "" {
      var n := PieceLength(raw);
      var piece, rest := raw[..n], raw[n..];
      PieceOfItself(raw);
      PieceStays(d, piece);
      RawStays(d, rest);
      assert raw == piece + rest;
      AfterConcat(Inside(d), piece, rest);
      forall k | 0 <= k <= |raw|
        ensures After(Inside(d), raw[..k]).depth == d
      {
        if k <= n {
          assert raw[..k] == piece[..k];
        } else {
          assert raw[..k] == piece + rest[..k - n];
          AfterConcat(Inside(d), piece, rest[..k - n]);
        }
      }
    }
  }

  lemma PieceOfItself(raw: string)
    requires raw != "" && PieceLength(raw) > 0
    ensures PieceLength(raw[..PieceLength(raw)]) == PieceLength(raw)
  {
  }

  lemma QuotedIsLevel(d: int, raw: string)
    requires IsRaw(raw)
    ensures Level(d, "\"" + raw + "\"")
  {
    var text := "\"" + raw + "\"";
    RawStays(d, raw);
    assert "\""[..0] == "" && After(At(d), "\"") == Inside(d);
    forall k | 0 < k < |text|
      ensures After(At(d), text[..k]) == After(Inside(d), raw[..k - 1])
    {
      assert text[..k] == "\"" + raw[..k - 1];
      AfterConcat(At(d), "\"", raw[..k - 1]);
    }
    assert raw[..|text| - 2] == raw && text[..|text| - 1] == text[..|text|][..|text| - 1];
    assert text[..|text|] == text && text[..0] == "";
  }

  // ---------- Values are level ----------

  lemma {:induction false} ValueIsLevel(d: int, t: Json)
    requires WellFormed(t)
    ensures Level(d, Print(t))
    decreases t
  {
    hide Level, IsWord, IsNumber, IsRaw, AllWs;
    match t
    case Word(w) => WordIsLevel(d, w);
    case Number(lexeme) => NumberIsLevel(d, lexeme);
    case Text(raw) => QuotedIsLevel(d, raw);
    case EmptyArray(ws) => WsIsLevel(d, ws); BracketsAreLevel(d, ws);
    case EmptyObject(ws) => WsIsLevel(d + 1, ws); BracesAreLevel(d, ws);
    case Array(items) =>
      ItemsAreLevel(d, items);
      BracketsAreLevel(d, PrintItems(items));
    case Object(members) =>
      MembersAreLevel(d + 1, members);
      BracesAreLevel(d, PrintMembers(members));
  }

  lemma ItemIsLevel(d: int, i: Item)
    requires WellFormedItem(i)
    ensures Level(d, PrintItem(i))
    decreases i
  {
    hide Level;
    WsIsLevel(d, i.before);
    ValueIsLevel(d, i.value);
    WsIsLevel(d, i.after);
    LevelConcat(d, i.before, Print(i.value));
    LevelConcat(d, i.before + Print(i.value), i.after);
  }

  lemma {:induction false} ItemsAreLevel(d: int, items: List<Item>)
    requires WellFormedItems(items)
    ensures Level(d, PrintItems(items))
    decreases items
  {
    hide Level;
    match items
    case Nil => PlainIsLevel(d, "");
    case Cons(i, rest) =>
      ItemIsLevel(d, i);
      ItemsAreLevel(d, rest);
      PlainIsLevel(d, ",");
      LevelConcat(d, PrintItem(i), ",");
      LevelConcat(d, PrintItem(i) + ",", PrintItems(rest));
  }

  lemma NameIsLevel(d: int, m: Entry)
    requires WellFormedName(m)
    ensures Level(d, PrintName(m))
  {
    hide Level;
    WsIsLevel(d, m.before);
    QuotedIsLevel(d, m.key);
    WsIsLevel(d, m.colon);
    PlainIsLevel(d, ":");
    LevelConcat(d, m.before, "\"" + m.key + "\"");
    Nest(m.before, "\"", m.key, "\"");
    Assoc("\"", m.key, "\"");
    LevelConcat(d, ((m.before + "\"") + m.key) + "\"", m.colon);
    LevelConcat(d, (((m.before + "\"") + m.key) + "\"") + m.colon, ":");
  }

  lemma {:induction false} MembersAreLevel(d: int, members: List<Entry>)
    requires WellFormedMembers(members)
    ensures Level(d, PrintMembers(members))
    decreases members
  {
    hide Level;
    match members
    case Nil => PlainIsLevel(d, "");
    case Cons(m, rest) =>
      NameIsLevel(d, m);
      ItemIsLevel(d, m.item);
      LevelConcat(d, PrintName(m), PrintItem(m.item));
      MembersAreLevel(d, rest);
      PlainIsLevel(d, ",");
      LevelConcat(d, PrintName(m) + PrintItem(m.item), ",");
      LevelConcat(d, (PrintName(m) + PrintItem(m.item)) + ",", PrintMembers(rest));
  }

  // ---------- An object closes exactly at its end ----------

  predicate IsObject(t: Json) { t.Object? || t.EmptyObject? }

  lemma ObjectBody(t: Json) returns (body: string)
    requires WellFormed(t) && IsObject(t)
    ensures Print(t) == "{" + body + "}" && Level(1, body)
  {
    if t.Object? {
      body := PrintMembers(t.members);
      MembersAreLevel(1, t.members);
    } else {
      body := t.ws;
      WsIsLevel(1, body);
    }
  }

  lemma InsideObject(p: string, body: string, q: string, k: nat)
    requires |p| < k <= |p| + |body| + 1
    ensures var source := p + ("{" + body + "}") + q;
      && After(START, source[|p|..k]) == After(At(1), body[..k - |p| - 1])
      && source[k] == if k - |p| - 1 < |body| then body[k - |p| - 1] else '}'
  {
    var source := p + ("{" + body + "}") + q;
    assert source[|p|..k] == "{" + body[..k - |p| - 1];
    assert "{"[..0] == "" && After(START, "{") == At(1);
    AfterConcat(START, "{", body[..k - |p| - 1]);
  }

  lemma ClosesAtEnd(p: string, body: string, q: string)
    requires Level(1, body)
    ensures ClosesAt(p + ("{" + body + "}") + q, |p|, |p| + |body| + 1)
  {
    var source, start, e := p + ("{" + body + "}") + q, |p|, |p| + |body| + 1;
    InsideObject(p, body, q, e);
    assert body[..|body|] == body;
    PrefixSteps(At(1), body);
    forall k | start <= k < e
      ensures !IsClosing(source, start, k)
    {
      if k > start {
        InsideObject(p, body, q, k);
        var j := k - start - 1;
        assert After(At(1), body[..j + 1]) == Next(After(At(1), body[..j]), body[j]);
      }
    }
  }

  // ---------- Trimming and fences leave the object alone ----------

  lemma {:induction false} TrimStartAround(p: string, s: string, q: string) returns (p1: string)
    requires s != "" && s[0] == '{' && '{' !in p
    ensures TrimStart(p + s + q) == p1 + s + q && '{' !in p1
  {
    var x := p + s + q;
    if p != "" && IsSpace(p[0]) {
      assert x[1..] == p[1..] + s + q;
      p1 := TrimStartAround(p[1..], s, q);
    } else {
      assert x[0] == if p == "" then s[0] else p[0];
      p1 := p;
    }
  }

  lemma {:induction false} TrimEndAround(p: string, s: string, q: string) returns (q1: string)
    requires s != "" && s[|s| - 1] == '}'
    ensures TrimEnd(p + s + q) == p + s + q1
  {
    var x := p + s + q;
    if q != "" && IsSpace(q[|q| - 1]) {
      assert x[..|x| - 1] == p + s + q[..|q| - 1];
      q1 := TrimEndAround(p, s, q[..|q| - 1]);
    } else {
      assert x[|x| - 1] == if q == "" then s[|s| - 1] else q[|q| - 1];
      q1 := q;
    }
  }

  lemma TrimAround(p: string, s: string, q: string) returns (p1: string, q1: string)
    requires s != "" && s[0] == '{' && s[|s| - 1] == '}' && '{' !in p
    ensures Trim(p + s + q) == p1 + s + q1 && '{' !in p1
  {
    p1 := TrimStartAround(p, s, q);
    q1 := TrimEndAround(p1, s, q);
  }

  /** What starts without a brace lies in front of the object. */
  lemma HeadIsInFront(p: string, s: string, q: string, n: nat)
    requires s != "" && s[0] == '{' && n <= |p + s + q| && '{' !in (p + s + q)[..n]
    ensures n <= |p| && (p + s + q)[n..] == p[n..] + s + q
  {
    var x := p + s + q;
    assert x[|p|] == s[0];
    forall k | 0 <= k < n
      ensures x[k] != '{'
    {
      assert x[..n][k] == x[k];
    }
  }

  lemma OpeningFencesAround(p: string, s: string, q: string) returns (p1: string)
    requires s != "" && s[0] == '{' && '{' !in p
    ensures WithoutFence(WithoutJsonFence(p + s + q)) == p1 + s + q && '{' !in p1
  {
    var x := p + s + q;
    p1 := p;
    if StartsWith(x, FENCE) && SaysJson(x[3..]) {
      assert x[..7] == x[..3] + x[3..][..4];
      HeadIsInFront(p, s, q, 7);
      p1 := TrimStartAround(p[7..], s, q);
    }
    var y := p1 + s + q;
    if StartsWith(y, FENCE) {
      assert y[..3] == FENCE;
      HeadIsInFront(p1, s, q, 3);
      p1 := TrimStartAround(p1[3..], s, q);
    }
  }

  lemma ClosingFenceAround(p: string, s: string, q: string) returns (q1: string)
    requires s != "" && s[|s| - 1] == '}'
    ensures WithoutClosingFence(p + s + q) == p + s + q1
  {
    var x := p + s + q;
    q1 := q;
    assert x[|p| + |s| - 1] == s[|s| - 1];
    if |x| >= 3 && x[|x| - 3..] == FENCE {
      forall k | |x| - 3 <= k < |x|
        ensures x[k] == '`'
      {
        assert x[|x| - 3..][k - (|x| - 3)] == x[k];
      }
      q1 := q[..|q| - 3];
    }
  }

  lemma CleanAround(p: string, s: string, q: string) returns (p1: string, q1: string)
    requires s != "" && s[0] == '{' && s[|s| - 1] == '}' && '{' !in p
    ensures Clean(p + s + q) == p1 + s + q1 && '{' !in p1
  {
    hide Trim, WithoutFence, WithoutJsonFence, WithoutClosingFence;
    p1, q1 := TrimAround(p, s, q);
    p1 := OpeningFencesAround(p1, s, q1);
    q1 := ClosingFenceAround(p1, s, q1);
    p1, q1 := TrimAround(p1, s, q1);
  }

  // ---------- The object is what is read ----------

  /**
   For every JSON object text, every text before it without an opening brace and every text after it,
   the scan first closes exactly at the object's end, and nothing is read before.
   */
  lemma ObjectIsReadFirst(before: string, t: Json, after: string) returns (start: nat, e: nat)
    requires WellFormed(t) && IsObject(t) && '{' !in before
    ensures var source := Clean(before + Print(t) + after);
      && IsFound(source, start, e, t) && e + 1 - start == |Print(t)|
      && forall k: nat | k < start :: !ReadsAt(source, k)
  {
    hide Clean, Parse, ReadsAt;
    var s := Print(t);
    var body := ObjectBody(t);
    var p, q := CleanAround(before, s, after);
    var source := Clean(before + s + after);
    start, e := |p|, |p| + |s| - 1;
    ClosesAtEnd(p, body, q);
    assert source[start..e + 1] == s;
    ParseIffPrints(s, t);
    assert source[start] == s[0];
    forall k: nat | k < start
      ensures !ReadsAt(source, k)
    {
      assert source[k] == p[k] && p[k] in p;
      NoBraceNoRead(source, k);
    }
  }

  /** What `ExtractJsonObject` promises about its result allows this one result only. */
  lemma ExtractedIsTheObject(before: string, t: Json, after: string, r: Option<Json>)
    requires WellFormed(t) && IsObject(t) && '{' !in before
    requires var source := Clean(before + Print(t) + after);
      && (r.None? <==> forall start: nat :: !ReadsAt(source, start))
      && (r.Some? ==> exists start: nat, e: nat :: IsFound(source, start, e, r.value) && forall k: nat | k < start :: !ReadsAt(source, k))
    ensures r == Some(t)
  {
    hide Clean, ReadsAt, IsFound;
    var source := Clean(before + Print(t) + after);
    var start, e := ObjectIsReadFirst(before, t, after);
    FoundIsRead(source, start, e, t);
    if r.Some? {
      var start1: nat, e1: nat :| IsFound(source, start1, e1, r.value) && forall k: nat | k < start1 :: !ReadsAt(source, k);
      FoundIsRead(source, start1, e1, r.value);
      FoundOnce(source, start, e, t, e1, r.value);
    }
  }

  lemma FoundOnce(source: string, start: nat, e: nat, t: Json, f: nat, u: Json)
    ensures IsFound(source, start, e, t) && IsFound(source, start, f, u) ==> t == u
  {
  }
}
