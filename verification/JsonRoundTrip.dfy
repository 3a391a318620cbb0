/** Parsing is exactly the inverse of printing. */
module JsonRoundTrip {
  import opened Prelude
  import opened Values
  import opened JsonText

  // ---------- Lexemes are taken whole ----------

  lemma {:induction false} SpacesOf(ws: string, rest: string)
    requires AllWs(ws) && (rest == "" || !IsWs(rest[0]))
    ensures Spaces(ws + rest) == ws
  {
    if ws == "" {
      assert ws + rest == rest;
    } else {
      assert (ws + rest)[1..] == ws[1..] + rest;
      SpacesOf(ws[1..], rest);
    }
  }

  lemma {:induction false} NumberRunOf(lexeme: string, rest: string)
    requires (forall c | c in lexeme :: IsNumberChar(c)) && (rest == "" || !IsNumberChar(rest[0]))
    ensures NumberRun(lexeme + rest) == lexeme
  {
    if lexeme == "" {
      assert lexeme + rest == rest;
    } else {
      assert (lexeme + rest)[1..] == lexeme[1..] + rest;
      NumberRunOf(lexeme[1..], rest);
    }
  }

  lemma SameFirstPiece(raw: string, quote: string, rest: string)
    requires raw != "" && PieceLength(raw) > 0
    ensures var s, n := (raw + quote) + rest, PieceLength(raw);
      && PieceLength(s) == n && s[0] == raw[0] && s[0] != '"'
      && s[n..] == (raw[n..] + quote) + rest && s[..n] == raw[..n] && s[..n] + raw[n..] == raw
  {
  }

  lemma {:induction false} RawOf(raw: string, rest: string)
    requires IsRaw(raw)
    ensures ParseRaw((raw + "\"") + rest) == Some((raw, rest))
    decreases |raw|
  {
    var s := (raw + "\"") + rest;
    if raw == "" {
      assert s == "\"" + rest;
    } else {
      var n := PieceLength(raw);
      RawOf(raw[n..], rest);
      SameFirstPiece(raw, "\"", rest);
    }
  }

  // ---------- First characters ----------

  lemma FirstChar(t: Json)
    requires WellFormed(t)
    ensures Print(t) != "" && !IsWs(Print(t)[0]) && Print(t)[0] !in ",]}:"
    ensures match t
      case Text(_) => Print(t)[0] == '"'
      case EmptyArray(_) => Print(t)[0] == '['
      case Array(_) => Print(t)[0] == '['
      case EmptyObject(_) => Print(t)[0] == '{'
      case Object(_) => Print(t)[0] == '{'
      case Word(w) => Print(t)[0] == w[0]
      case Number(_) => IsDigit(Print(t)[0]) || Print(t)[0] == '-'
  {
  }

  // ---------- Printing, then parsing ----------

  /** What may follow a value in a JSON text. */
  predicate Stops(rest: string) { rest == "" || !IsNumberChar(rest[0]) }

  predicate Delimits(rest: string) { rest != "" && rest[0] in ",]}" }

  lemma WordOf(w: string, rest: string)
    requires IsWord(w)
    ensures ParseScalar(w + rest) == Some((Word(w), rest))
  {
    assert (w + rest)[|w|..] == rest && (w + rest)[..|w|] == w;
    assert (w + rest)[0] == w[0];
  }

  lemma NumberOf(lexeme: string, rest: string)
    requires IsNumber(lexeme) && Stops(rest)
    ensures ParseScalar(lexeme + rest) == Some((Number(lexeme), rest))
  {
    hide IsNumber, NumberRun;
    NumberIsSpelled(lexeme);
    NumberRunOf(lexeme, rest);
    var s := lexeme + rest;
    assert s[|lexeme|..] == rest;
    assert s[0] == lexeme[0] && s[0] !in "ntf";
    assert !StartsWith(s, "null") && !StartsWith(s, "true") && !StartsWith(s, "false");
  }

  lemma ScalarOf(t: Json, rest: string)
    requires WellFormed(t) && (t.Word? || t.Number?) && Stops(rest)
    ensures ParseValue(Print(t) + rest) == Some((t, rest))
  {
    hide ParseScalar, IsNumber;
    FirstChar(t);
    assert (Print(t) + rest)[0] == Print(t)[0];
    if t.Number? {
      NumberOf(t.lexeme, rest);
    } else {
      WordOf(t.word, rest);
    }
  }

  lemma TextOf(raw: string, rest: string)
    requires IsRaw(raw)
    ensures ParseValue(Print(Text(raw)) + rest) == Some((Text(raw), rest))
  {
    hide ParseRaw;
    var s := Print(Text(raw)) + rest;
    assert s == "\"" + ((raw + "\"") + rest);
    assert s[1..] == (raw + "\"") + rest;
    RawOf(raw, rest);
  }

  lemma {:induction false} ValueOf(t: Json, rest: string)
    requires WellFormed(t) && Stops(rest)
    ensures ParseValue(Print(t) + rest) == Some((t, rest))
    decreases t
  {
    hide ParseValue, Print;
    match t
    case Word(_) => ScalarOf(t, rest);
    case Number(_) => ScalarOf(t, rest);
    case Text(raw) => TextOf(raw, rest);
    case EmptyArray(ws) => EmptyArrayOf(ws, rest);
    case EmptyObject(ws) => EmptyObjectOf(ws, rest);
    case Array(items) =>
      ItemsOf(items, rest);
      ArrayOf(items, rest);
    case Object(members) =>
      MembersOf(members, rest);
      ObjectOf(members, rest);
  }

  lemma ArrayOf(items: List<Item>, rest: string)
    requires items.Cons? && WellFormedItems(items)
    requires ParseItems((PrintItems(items) + "]") + rest) == Some((items, rest))
    ensures ParseValue(Print(Array(items)) + rest) == Some((Array(items), rest))
  {
    hide ParseItems, PrintItems, WellFormedItems;
    ListOf(Print(Array(items)) + rest, "[", "]", PrintItems(items), rest);
    FirstOfItems(items, "]" + rest);
  }

  lemma ObjectOf(members: List<Entry>, rest: string)
    requires members.Cons? && WellFormedMembers(members)
    requires ParseMembers((PrintMembers(members) + "}") + rest) == Some((members, rest))
    ensures ParseValue(Print(Object(members)) + rest) == Some((Object(members), rest))
  {
    hide ParseMembers, PrintMembers, WellFormedMembers;
    ListOf(Print(Object(members)) + rest, "{", "}", PrintMembers(members), rest);
    FirstOfMembers(members, "}" + rest);
  }

  lemma EmptyArrayOf(ws: string, rest: string)
    requires AllWs(ws)
    ensures ParseValue(Print(EmptyArray(ws)) + rest) == Some((EmptyArray(ws), rest))
  {
    hide ParseItems, Spaces, ParseScalar, ParseRaw;
    var s := Print(EmptyArray(ws)) + rest;
    BodyOf(s, "[", ws, "]", rest);
  }

  lemma EmptyObjectOf(ws: string, rest: string)
    requires AllWs(ws)
    ensures ParseValue(Print(EmptyObject(ws)) + rest) == Some((EmptyObject(ws), rest))
  {
    hide ParseMembers, Spaces, ParseScalar, ParseRaw;
    var s := Print(EmptyObject(ws)) + rest;
    BodyOf(s, "{", ws, "}", rest);
  }

  /** Brackets around whitespace. */
  lemma BodyOf(s: string, open: string, ws: string, close: string, rest: string)
    requires s == (open + ws + close) + rest && |open| == 1 && |close| == 1 && AllWs(ws) && !IsWs(close[0])
    ensures s[0] == open[0] && Spaces(s[1..]) == ws
    ensures s[1..][|ws|..] == close + rest && StartsWith(s[1..][|ws|..], close) && s[1..][|ws|..][1..] == rest
  {
    assert s[1..] == ws + (close + rest);
    assert (close + rest)[0] == close[0];
    SpacesOf(ws, close + rest);
    assert s[1..][|ws|..] == close + rest;
  }

  lemma ListOf(s: string, open: string, close: string, body: string, rest: string)
    requires s == (open + body + close) + rest && |open| == 1
    ensures s[1..] == (body + close) + rest && s[1..] == body + (close + rest) && s[0] == open[0]
  {
  }

  /** A list does not look like an empty one. */
  lemma FirstOfItems(items: List<Item>, tail: string)
    requires items.Cons? && WellFormedItems(items)
    ensures var body := PrintItems(items) + tail; !StartsWith(body[|Spaces(body)|..], "]")
  {
    FirstOfItem(items.head, PrintItems(items)[|PrintItem(items.head)|..] + tail);
    assert PrintItem(items.head) <= PrintItems(items);
    Headed(PrintItems(items), PrintItem(items.head));
    Assoc(PrintItem(items.head), PrintItems(items)[|PrintItem(items.head)|..], tail);
  }

  lemma FirstOfItem(i: Item, tail: string)
    requires WellFormedItem(i)
    ensures var body := PrintItem(i) + tail; Spaces(body) == i.before && !StartsWith(body[|Spaces(body)|..], "]")
  {
    FirstChar(i.value);
    Assoc(i.before + Print(i.value), i.after, tail);
    Assoc(i.before, Print(i.value), i.after + tail);
    var last := Print(i.value) + (i.after + tail);
    assert last[0] == Print(i.value)[0];
    SpacesOf(i.before, last);
    assert (i.before + last)[|i.before|..] == last;
  }

  lemma FirstOfMembers(members: List<Entry>, tail: string)
    requires members.Cons? && WellFormedMembers(members)
    ensures var body := PrintMembers(members) + tail; !StartsWith(body[|Spaces(body)|..], "}")
  {
    var m, printed := members.head, PrintMembers(members);
    assert PrintMember(m) <= printed;
    FirstOfName(m);
    var quoted := printed[|m.before|..] + tail;
    Headed(printed, m.before);
    Assoc(m.before, printed[|m.before|..], tail);
    assert quoted[0] == printed[|m.before|] == '"';
    SpacesOf(m.before, quoted);
    assert (m.before + quoted)[|m.before|..] == quoted;
  }

  lemma FirstOfName(m: Entry)
    ensures m.before <= PrintMember(m) && |m.before| < |PrintMember(m)| && PrintMember(m)[|m.before|] == '"'
  {
  }

  lemma ItemOf(i: Item, rest: string)
    requires WellFormedItem(i) && Delimits(rest)
    ensures ParseItem(PrintItem(i) + rest) == Some((i, rest))
    decreases i
  {
    FirstOfItem(i, rest);
    Nest(i.before, Print(i.value), i.after, rest);
    var tail := i.after + rest;
    assert (i.before + (Print(i.value) + tail))[|i.before|..] == Print(i.value) + tail;
    assert tail[0] == if i.after == "" then rest[0] else i.after[0];
    assert i.after != "" ==> i.after[0] in i.after;
    ValueOf(i.value, tail);
    SpacesOf(i.after, rest);
    assert tail[|i.after|..] == rest;
  }

  lemma {:induction false} ItemsOf(items: List<Item>, rest: string)
    requires items.Cons? && WellFormedItems(items)
    ensures ParseItems((PrintItems(items) + "]") + rest) == Some((items, rest))
    decreases items
  {
    hide ParseItems, PrintItems;
    var i := items.head;
    if items.tail.Nil? {
      ItemOf(i, "]" + rest);
      LastItem(items, rest);
    } else {
      var more := (PrintItems(items.tail) + "]") + rest;
      ItemOf(i, "," + more);
      ItemsOf(items.tail, rest);
      OneMoreItem(items, rest);
    }
  }

  lemma LastItem(items: List<Item>, rest: string)
    requires items.Cons? && items.tail.Nil?
    requires ParseItem(PrintItem(items.head) + ("]" + rest)) == Some((items.head, "]" + rest))
    ensures ParseItems((PrintItems(items) + "]") + rest) == Some((items, rest))
  {
    hide ParseItem, PrintItem;
    Assoc(PrintItem(items.head), "]", rest);
    assert ("]" + rest)[1..] == rest;
  }

  lemma OneMoreItem(items: List<Item>, rest: string)
    requires items.Cons? && items.tail.Cons?
    requires var more := (PrintItems(items.tail) + "]") + rest;
      && ParseItem(PrintItem(items.head) + ("," + more)) == Some((items.head, "," + more))
      && ParseItems(more) == Some((items.tail, rest))
    ensures ParseItems((PrintItems(items) + "]") + rest) == Some((items, rest))
  {
    hide ParseItem, PrintItem;
    var more := (PrintItems(items.tail) + "]") + rest;
    Chain(PrintItem(items.head), ",", PrintItems(items.tail), "]", rest);
    var s := (PrintItems(items) + "]") + rest;
    assert PrintItems(items) == (PrintItem(items.head) + ",") + PrintItems(items.tail);
    assert ParseItem(s) == Some((items.head, "," + more));
    var q := "," + more;
    assert q[1..] == more && q[0] == ',' && "]"[0] == ']';
    assert !StartsWith(q, "]");
  }

  lemma NameOf(m: Entry, rest: string)
    requires WellFormedName(m)
    ensures ParseName(PrintName(m) + rest) == Some((m.(item := Item("", Word("null"), "")), rest))
  {
    var last := ":" + rest;
    var quoted := "\"" + ((m.key + "\"") + (m.colon + last));
    Chain(m.before, "\"", m.key, "\"", m.colon + last);
    Nest(((m.before + "\"") + m.key) + "\"", m.colon, ":", rest);
    SpacesOf(m.before, quoted);
    assert (m.before + quoted)[|m.before|..] == quoted;
    assert quoted[1..] == (m.key + "\"") + (m.colon + last);
    RawOf(m.key, m.colon + last);
    SpacesOf(m.colon, last);
    assert (m.colon + last)[|m.colon|..] == last;
    assert last[1..] == rest;
  }

  lemma MemberOf(m: Entry, rest: string)
    requires WellFormedMember(m) && Delimits(rest)
    ensures ParseMember(PrintMember(m) + rest) == Some((m, rest))
    decreases m
  {
    hide PrintName, ParseName, PrintItem, ParseItem;
    Assoc(PrintName(m), PrintItem(m.item), rest);
    NameOf(m, PrintItem(m.item) + rest);
    ItemOf(m.item, rest);
  }

  lemma {:induction false} MembersOf(members: List<Entry>, rest: string)
    requires members.Cons? && WellFormedMembers(members)
    ensures ParseMembers((PrintMembers(members) + "}") + rest) == Some((members, rest))
    decreases members
  {
    hide ParseMembers, PrintMembers;
    var m := members.head;
    if members.tail.Nil? {
      MemberOf(m, "}" + rest);
      LastMember(members, rest);
    } else {
      var more := (PrintMembers(members.tail) + "}") + rest;
      MemberOf(m, "," + more);
      MembersOf(members.tail, rest);
      OneMoreMember(members, rest);
    }
  }

  lemma LastMember(members: List<Entry>, rest: string)
    requires members.Cons? && members.tail.Nil?
    requires ParseMember(PrintMember(members.head) + ("}" + rest)) == Some((members.head, "}" + rest))
    ensures ParseMembers((PrintMembers(members) + "}") + rest) == Some((members, rest))
  {
    hide ParseMember, PrintMember;
    Assoc(PrintMember(members.head), "}", rest);
    assert ("}" + rest)[1..] == rest;
  }

  lemma OneMoreMember(members: List<Entry>, rest: string)
    requires members.Cons? && members.tail.Cons?
    requires var more := (PrintMembers(members.tail) + "}") + rest;
      && ParseMember(PrintMember(members.head) + ("," + more)) == Some((members.head, "," + more))
      && ParseMembers(more) == Some((members.tail, rest))
    ensures ParseMembers((PrintMembers(members) + "}") + rest) == Some((members, rest))
  {
    hide ParseMember, PrintMember;
    var more := (PrintMembers(members.tail) + "}") + rest;
    Chain(PrintMember(members.head), ",", PrintMembers(members.tail), "}", rest);
    var s := (PrintMembers(members) + "}") + rest;
    assert PrintMembers(members) == (PrintMember(members.head) + ",") + PrintMembers(members.tail);
    assert ParseMember(s) == Some((members.head, "," + more));
    var q := "," + more;
    assert q[1..] == more && q[0] == ',' && "}"[0] == '}';
    assert !StartsWith(q, "}");
  }

  // ---------- Whole texts ----------

  /** `JSON.parse` on a text without surrounding whitespace. */
  function Parse(s: string): Option<Json> {
    match ParseValue(s)
    case None => None
    case Some((t, rest)) => if rest == "" then Some(t) else None
  }

  /** A text parses to a tree exactly when the tree is well formed and prints as that text. */
  lemma ParseIffPrints(s: string, t: Json)
    ensures Parse(s) == Some(t) <==> WellFormed(t) && Print(t) == s
  {
    if WellFormed(t) && Print(t) == s {
      ValueOf(t, "");
      assert Print(t) + "" == s;
    }
    if Parse(s) == Some(t) {
      assert Print(t) + "" == s;
    }
  }
}
