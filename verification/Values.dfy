/**
 JavaScript values that can be written as JSON, plus `undefined`. A number is carried as the text
 JavaScript prints for it.
 */
module Values {
  import opened Prelude

  datatype Value =
    | Undefined
    | Null
    | Bool(b: bool)
    | Num(lexeme: string)
    | Str(text: string)
    | Arr(items: List<Value>)
    | Obj(members: List<Member>)

  datatype Member = Member(key: string, value: Value)

  /** `object[key]` for an own property; absent members read as `undefined`. */
  function Lookup(members: List<Member>, key: string): Value {
    match members
    case Nil => Undefined
    case Cons(m, rest) => if m.key == key then m.value else Lookup(rest, key)
  }

  function Nth(items: List<Value>, n: nat): Value {
    match items
    case Nil => Undefined
    case Cons(v, rest) => if n == 0 then v else Nth(rest, n - 1)
  }

  /** The parts of `s.split(c)`. */
  function Split(s: string, c: char): (parts: seq<string>)
    ensures |parts| >= 1
  {
    if s == "" then [""]
    else
      var rest := Split(s[1..], c);
      if s[0] == c then [""] + rest else [[s[0]] + rest[0]] + rest[1..]
  }

  predicate IsDigit(c: char) { '0' <= c <= '9' }

  predicate AllDigits(s: string) { s != "" && forall c | c in s :: IsDigit(c) }

  function DigitValue(c: char): nat
    requires IsDigit(c)
  {
    c as int - '0' as int
  }

  function DigitsToNat(s: string): nat
    requires forall c | c in s :: IsDigit(c)
  {
    if s == "" then 0
    else
      DigitsToNat(s[..|s| - 1]) * 10 + DigitValue(s[|s| - 1])
  }

  function NatToDigits(n: nat): (s: string)
    ensures AllDigits(s)
  {
    var last := [('0' as int + n % 10) as char];
    if n < 10 then last else NatToDigits(n / 10) + last
  }

  /** Decimal text reads back as the number it was printed from. */
  lemma {:induction false} DigitsRoundTrip(n: nat)
    ensures DigitsToNat(NatToDigits(n)) == n
  {
    var s := NatToDigits(n);
    if n >= 10 {
      DigitsRoundTrip(n / 10);
      assert s[..|s| - 1] == NatToDigits(n / 10);
    } else {
      assert s[..|s| - 1] == "";
    }
  }

  /** Whitespace as `trim` and `\s` understand it. */
  predicate IsSpace(c: char) {
    || '\t' <= c <= '\r' || c == ' ' || c == '\U{A0}' || c == '\U{1680}' || '\U{2000}' <= c <= '\U{200A}'
    || c == '\U{2028}' || c == '\U{2029}' || c == '\U{202F}' || c == '\U{205F}' || c == '\U{3000}' || c == '\U{FEFF}'
  }

  function TrimStart(s: string): (r: string)
    ensures |r| <= |s| && r == s[|s| - |r|..]
    ensures forall c | c in s[..|s| - |r|] :: IsSpace(c)
    ensures r != "" ==> !IsSpace(r[0])
  {
    if s != "" && IsSpace(s[0]) then
      var r := TrimStart(s[1..]);
      assert s[..|s| - |r|] == [s[0]] + s[1..][..|s[1..]| - |r|];
      r
    else s
  }

  function TrimEnd(s: string): (r: string)
    ensures r <= s
    ensures forall c | c in s[|r|..] :: IsSpace(c)
    ensures r != "" ==> !IsSpace(r[|r| - 1])
  {
    if s != "" && IsSpace(s[|s| - 1]) then
      var r := TrimEnd(s[..|s| - 1]);
      assert s[|r|..] == s[..|s| - 1][|r|..] + [s[|s| - 1]];
      r
    else s
  }

  function Trim(s: string): string { TrimEnd(TrimStart(s)) }

  /** Text without space at its ends is its own trim. */
  lemma AlreadyTrimmed(s: string)
    requires s != "" && !IsSpace(s[0]) && !IsSpace(s[|s| - 1])
    ensures Trim(s) == s
  {
    hide IsSpace;
  }
}
