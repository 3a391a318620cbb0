/**
 JSON texts (RFC 8259) as syntax trees that keep every character, a printer and a parser. Trees and
 texts correspond one to one: a text parses to the one tree that prints as it.
 */
module JsonText {
  import opened Prelude
  import opened Values

  /** Section 2: insignificant whitespace. */
  predicate IsWs(c: char) { c == ' ' || c == '\t' || c == '\n' || c == '\r' }

  predicate AllWs(s: string) { forall c | c in s :: IsWs(c) }

  datatype Json =
    | Word(word: string)
    | Number(lexeme: string)
    | Text(raw: string)
    | EmptyArray(ws: string)
    | EmptyObject(ws: string)
    | Array(items: List<Item>)
    | Object(members: List<Entry>)

  datatype Item = Item(before: string, value: Json, after: string)

  datatype Entry = Entry(before: string, key: string, colon: string, item: Item)

  // ---------- Concatenation ----------

  lemma Headed(s: string, h: string)
    requires h <= s
    ensures s == h + s[|h|..]
  {
  }

  lemma Assoc(a: string, b: string, c: string)
    ensures a + (b + c) == (a + b) + c
  {
  }

  lemma Nest(a: string, b: string, c: string, d: string)
    ensures a + (b + (c + d)) == ((a + b) + c) + d
  {
    Assoc(b, c, d);
    Assoc(a, b + c, d);
    Assoc(a, b, c);
  }

  lemma Chain(a: string, b: string, c: string, d: string, e: string)
    ensures a + (b + ((c + d) + e)) == (((a + b) + c) + d) + e
  {
    Nest(a, b, c + d, e);
    Assoc(a + b, c, d);
  }

  // ---------- Lexemes ----------

  predicate IsWord(s: string) { s == "null" || s == "true" || s == "false" }

  predicate IsHex(c: char) { IsDigit(c) || 'a' <= c <= 'f' || 'A' <= c <= 'F' }

  predicate IsEscape(c: char) { c in "\"\\/bfnrt" }

  /** How much of a string body its first character or escape takes (section 7); 0 if it is malformed. */
  function PieceLength(s: string): (n: nat)
    requires s != ""
    ensures n <= |s|
  {
    if s[0] == '\\' then
      if |s| >= 2 && IsEscape(s[1]) then 2
      else if |s| >= 6 && s[1] == 'u' && IsHex(s[2]) && IsHex(s[3]) && IsHex(s[4]) && IsHex(s[5]) then 6
      else 0
    else if s[0] >= ' ' && s[0] != '"' then 1
    else 0
  }

  predicate IsRaw(s: string) {
    s == "" || (PieceLength(s) > 0 && IsRaw(s[PieceLength(s)..]))
  }

  function DigitRun(s: string): (d: string)
    ensures d <= s && forall c | c in d :: IsDigit(c)
    ensures |d| < |s| ==> !IsDigit(s[|d|])
  {
    if s != "" && IsDigit(s[0]) then [s[0]] + DigitRun(s[1..]) else ""
  }

  /** Section 6. */
  predicate IsNumber(s: string) { IsUnsigned(if StartsWith(s, "-") then s[1..] else s) }

  predicate IsUnsigned(s: string) {
    var d := DigitRun(s);
    d != "" && (d[0] == '0' ==> |d| == 1) && IsFraction(s[|d|..])
  }

  predicate IsFraction(s: string) {
    if StartsWith(s, ".") then
      var d := DigitRun(s[1..]);
      d != "" && IsExponent(s[1 + |d|..])
    else IsExponent(s)
  }

  predicate IsExponent(s: string) {
    s == "" || ((s[0] == 'e' || s[0] == 'E')
                && AllDigits(if |s| > 1 && (s[1] == '+' || s[1] == '-') then s[2..] else s[1..]))
  }

  predicate IsNumberChar(c: char) { IsDigit(c) || c == '-' || c == '+' || c == '.' || c == 'e' || c == 'E' }

  lemma NumberIsSpelled(s: string)
    requires IsNumber(s)
    ensures s != "" && (IsDigit(s[0]) || s[0] == '-') && forall c | c in s :: IsNumberChar(c)
  {
    hide IsUnsigned;
    if StartsWith(s, "-") {
      UnsignedIsSpelled(s[1..]);
      Headed(s, "-");
    } else {
      UnsignedIsSpelled(s);
    }
  }

  lemma UnsignedIsSpelled(s: string)
    requires IsUnsigned(s)
    ensures s != "" && IsDigit(s[0]) && forall c | c in s :: IsNumberChar(c)
  {
    hide IsFraction;
    var d := DigitRun(s);
    FractionIsSpelled(s[|d|..]);
    Headed(s, d);
  }

  lemma FractionIsSpelled(s: string)
    requires IsFraction(s)
    ensures forall c | c in s :: IsNumberChar(c)
  {
    if StartsWith(s, ".") {
      var d := DigitRun(s[1..]);
      assert s == "." + d + s[1 + |d|..];
      ExponentIsSpelled(s[1 + |d|..]);
    } else {
      ExponentIsSpelled(s);
    }
  }

  lemma ExponentIsSpelled(s: string)
    requires IsExponent(s)
    ensures forall c | c in s :: IsNumberChar(c)
  {
    if |s| > 1 && (s[1] == '+' || s[1] == '-') {
      assert s == [s[0], s[1]] + s[2..];
    } else if s != "" {
      assert s == [s[0]] + s[1..];
    }
  }

  // ---------- Trees and their texts ----------

  predicate WellFormed(t: Json) {
    match t
    case Word(w) => IsWord(w)
    case Number(lexeme) => IsNumber(lexeme)
    case Text(raw) => IsRaw(raw)
    case EmptyArray(ws) => AllWs(ws)
    case EmptyObject(ws) => AllWs(ws)
    case Array(items) => items.Cons? && WellFormedItems(items)
    case Object(members) => members.Cons? && WellFormedMembers(members)
  }

  predicate WellFormedItem(i: Item) { AllWs(i.before) && WellFormed(i.value) && AllWs(i.after) }

  predicate WellFormedItems(items: List<Item>) {
    match items
    case Nil => true
    case Cons(i, rest) => WellFormedItem(i) && WellFormedItems(rest)
  }

  predicate WellFormedMembers(members: List<Entry>) {
    match members
    case Nil => true
    case Cons(m, rest) =>
      WellFormedMember(m) && WellFormedMembers(rest)
  }

  predicate WellFormedName(m: Entry) { AllWs(m.before) && IsRaw(m.key) && AllWs(m.colon) }

  predicate WellFormedMember(m: Entry) { WellFormedName(m) && WellFormedItem(m.item) }

  function Print(t: Json): string {
    match t
    case Word(w) => w
    case Number(lexeme) => lexeme
    case Text(raw) => "\"" + raw + "\""
    case EmptyArray(ws) => "[" + ws + "]"
    case EmptyObject(ws) => "{" + ws + "}"
    case Array(items) => "[" + PrintItems(items) + "]"
    case Object(members) => "{" + PrintMembers(members) + "}"
  }

  function PrintItem(i: Item): string { i.before + Print(i.value) + i.after }

  function PrintItems(items: List<Item>): string {
    match items
    case Nil => ""
    case Cons(i, rest) => if rest.Nil? then PrintItem(i) else PrintItem(i) + "," + PrintItems(rest)
  }

  function PrintName(m: Entry): string { m.before + "\"" + m.key + "\"" + m.colon + ":" }

  function PrintMember(m: Entry): string { PrintName(m) + PrintItem(m.item) }

  function PrintMembers(members: List<Entry>): string {
    match members
    case Nil => ""
    case Cons(m, rest) =>
      if rest.Nil? then PrintMember(m) else PrintMember(m) + "," + PrintMembers(rest)
  }

  // ---------- Parsing ----------

  function Spaces(s: string): (ws: string)
    ensures ws <= s && AllWs(ws)
    ensures |ws| < |s| ==> !IsWs(s[|ws|])
  {
    if s != "" && IsWs(s[0]) then [s[0]] + Spaces(s[1..]) else ""
  }

  function NumberRun(s: string): (run: string)
    ensures run <= s && forall c | c in run :: IsNumberChar(c)
    ensures |run| < |s| ==> !IsNumberChar(s[|run|])
  {
    if s != "" && IsNumberChar(s[0]) then [s[0]] + NumberRun(s[1..]) else ""
  }

  /** The string body up to its closing quote, and what follows the quote. */
  function ParseRaw(s: string): (r: Option<(string, string)>)
    ensures r.Some? ==> IsRaw(r.value.0) && s == (r.value.0 + "\"") + r.value.1
  {
    if s == "" then None
    else if s[0] == '"' then
      Headed(s, "\"");
      assert "" + "\"" == "\"";
      Some(("", s[1..]))
    else if PieceLength(s) == 0 then None
    else
      var n := PieceLength(s);
      match ParseRaw(s[n..])
      case None => None
      case Some((raw, rest)) =>
        PieceFirst(s, n, raw);
        Headed(s, s[..n]);
        Assoc(s[..n], raw + "\"", rest);
        Assoc(s[..n], raw, "\"");
        Some((s[..n] + raw, rest))
  }

  lemma PieceFirst(s: string, n: nat, raw: string)
    requires s != "" && n == PieceLength(s) > 0 && IsRaw(raw)
    ensures IsRaw(s[..n] + raw) && PieceLength(s[..n] + raw) == n
  {
    var joined := s[..n] + raw;
    assert joined[n..] == raw;
  }

  function ParseValue(s: string): (r: Option<(Json, string)>)
    ensures r.Some? ==> WellFormed(r.value.0) && s == Print(r.value.0) + r.value.1
    decreases |s|, 0
  {
    if s == "" then None
    else if s[0] == '"' then
      match ParseRaw(s[1..])
      case None => None
      case Some((raw, rest)) =>
        Headed(s, "\"");
        Assoc("\"", raw + "\"", rest);
        Assoc("\"", raw, "\"");
        Some((Text(raw), rest))
    else if s[0] == '[' then ParseArray(s)
    else if s[0] == '{' then ParseObject(s)
    else ParseScalar(s)
  }

  function ParseScalar(s: string): (r: Option<(Json, string)>)
    ensures r.Some? ==> WellFormed(r.value.0) && s == Print(r.value.0) + r.value.1
  {
    if StartsWith(s, "null") then Headed(s, "null"); Some((Word("null"), s[4..]))
    else if StartsWith(s, "true") then Headed(s, "true"); Some((Word("true"), s[4..]))
    else if StartsWith(s, "false") then Headed(s, "false"); Some((Word("false"), s[5..]))
    else
      var run := NumberRun(s);
      if !IsNumber(run) then None
      else
        Headed(s, run);
        Some((Number(run), s[|run|..]))
  }

  function ParseArray(s: string): (r: Option<(Json, string)>)
    requires s != "" && s[0] == '['
    ensures r.Some? ==> WellFormed(r.value.0) && s == Print(r.value.0) + r.value.1
    decreases |s| - 1, 4
  {
    var body := s[1..];
    var ws := Spaces(body);
    var tail := body[|ws|..];
    Headed(s, "[");
    if StartsWith(tail, "]") then
      Headed(body, ws);
      Headed(tail, "]");
      Nest("[", ws, "]", tail[1..]);
      Some((EmptyArray(ws), tail[1..]))
    else
      match ParseItems(body)
      case None => None
      case Some((items, rest)) =>
        Assoc("[", PrintItems(items) + "]", rest);
        Assoc("[", PrintItems(items), "]");
        Some((Array(items), rest))
  }

  function ParseObject(s: string): (r: Option<(Json, string)>)
    requires s != "" && s[0] == '{'
    ensures r.Some? ==> WellFormed(r.value.0) && s == Print(r.value.0) + r.value.1
    decreases |s| - 1, 4
  {
    var body := s[1..];
    var ws := Spaces(body);
    var tail := body[|ws|..];
    Headed(s, "{");
    if StartsWith(tail, "}") then
      Headed(body, ws);
      Headed(tail, "}");
      Nest("{", ws, "}", tail[1..]);
      Some((EmptyObject(ws), tail[1..]))
    else
      match ParseMembers(body)
      case None => None
      case Some((members, rest)) =>
        Assoc("{", PrintMembers(members) + "}", rest);
        Assoc("{", PrintMembers(members), "}");
        Some((Object(members), rest))
  }

  function ParseItem(s: string): (r: Option<(Item, string)>)
    ensures r.Some? ==> WellFormedItem(r.value.0) && s == PrintItem(r.value.0) + r.value.1
    decreases |s|, 1
  {
    var before := Spaces(s);
    match ParseValue(s[|before|..])
    case None => None
    case Some((value, rest)) =>
      var after := Spaces(rest);
      Headed(s, before);
      Headed(rest, after);
      Nest(before, Print(value), after, rest[|after|..]);
      Some((Item(before, value, after), rest[|after|..]))
  }

  /** The items up to the closing bracket, and what follows it. */
  function ParseItems(s: string): (r: Option<(List<Item>, string)>)
    ensures r.Some? ==> r.value.0.Cons? && WellFormedItems(r.value.0) && s == (PrintItems(r.value.0) + "]") + r.value.1
    decreases |s|, 2
  {
    match ParseItem(s)
    case None => None
    case Some((i, rest)) =>
      if StartsWith(rest, "]") then
        Headed(rest, "]");
        Assoc(PrintItem(i), "]", rest[1..]);
        Some((Cons(i, Nil), rest[1..]))
      else if StartsWith(rest, ",") then
        match ParseItems(rest[1..])
        case None => None
        case Some((items, last)) =>
          Headed(rest, ",");
          Chain(PrintItem(i), ",", PrintItems(items), "]", last);
          Some((Cons(i, items), last))
      else None
  }

  /** A member's name and colon, and what follows. */
  function ParseName(s: string): (r: Option<(Entry, string)>)
    ensures r.Some? ==> WellFormedName(r.value.0) && s == PrintName(r.value.0) + r.value.1 && |r.value.1| < |s|
  {
    var before := Spaces(s);
    var quoted := s[|before|..];
    if !StartsWith(quoted, "\"") then None
    else
      match ParseRaw(quoted[1..])
      case None => None
      case Some((key, rest)) =>
        var colon := Spaces(rest);
        var last := rest[|colon|..];
        if !StartsWith(last, ":") then None
        else
          Headed(s, before);
          Headed(quoted, "\"");
          Headed(rest, colon);
          Headed(last, ":");
          Chain(before, "\"", key, "\"", rest);
          Nest(((before + "\"") + key) + "\"", colon, ":", last[1..]);
          Some((Entry(before, key, colon, Item("", Word("null"), "")), last[1..]))
  }

  function ParseMember(s: string): (r: Option<(Entry, string)>)
    ensures r.Some? ==> WellFormedMember(r.value.0) && s == PrintMember(r.value.0) + r.value.1
    decreases |s|, 1
  {
    match ParseName(s)
    case None => None
    case Some((name, tail)) =>
      match ParseItem(tail)
      case None => None
      case Some((i, rest)) =>
        Assoc(PrintName(name), PrintItem(i), rest);
        Some((name.(item := i), rest))
  }

  /** The members up to the closing brace, and what follows it. */
  function ParseMembers(s: string): (r: Option<(List<Entry>, string)>)
    ensures r.Some? ==> r.value.0.Cons? && WellFormedMembers(r.value.0) && s == (PrintMembers(r.value.0) + "}") + r.value.1
    decreases |s|, 2
  {
    match ParseMember(s)
    case None => None
    case Some((m, rest)) =>
      if StartsWith(rest, "}") then
        Headed(rest, "}");
        Assoc(PrintMember(m), "}", rest[1..]);
        Some((Cons(m, Nil), rest[1..]))
      else if StartsWith(rest, ",") then
        match ParseMembers(rest[1..])
        case None => None
        case Some((members, last)) =>
          Headed(rest, ",");
          Chain(PrintMember(m), ",", PrintMembers(members), "}", last);
          Some((Cons(m, members), last))
      else None
  }
}
