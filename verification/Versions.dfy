/** Comparing versions and offering updates, against section 11 of Semantic Versioning 2.0.0. */
module Versions {
  import opened Prelude
  import opened Values

  // ---------- Reading a version ----------

  predicate IsPreChar(c: char) { IsDigit(c) || 'a' <= c <= 'z' || 'A' <= c <= 'Z' || c == '.' || c == '-' }

  /** The part before the first hyphen. */
  function Core(v: string): string { Split(v, '-')[0] }

  /** The part between the first and the second hyphen: what `split("-", 2)` keeps. */
  function Pre(v: string): string {
    var parts := Split(v, '-');
    if |parts| > 1 then parts[1] else ""
  }

  /** Three numbers and perhaps a pre-release part: what the update manifest admits as a version. */
  predicate IsVersion(v: string) {
    && |Split(Core(v), '.')| == 3
    && (forall i | 0 <= i < 3 :: AllDigits(Split(Core(v), '.')[i]))
    && v != Core(v) + "-"
    && forall c | c in v :: IsPreChar(c)
  }

  // ---------- Numbers as JavaScript reads them ----------

  /** A number without sign and fraction; text between dots and before a hyphen can denote no other. */
  datatype Size = Fin(n: nat) | Infinite

  predicate Less(x: Size, y: Size) {
    match (x, y)
    case (Fin(m), Fin(n)) => m < n
    case (Fin(_), Infinite) => true
    case (Infinite, _) => false
  }

  /** The value of a digit in the bases up to 16; 16 for any other character. */
  function DigitOf(c: char): nat {
    if IsDigit(c) then DigitValue(c)
    else if 'a' <= c <= 'f' then c as int - 'a' as int + 10
    else if 'A' <= c <= 'F' then c as int - 'A' as int + 10
    else 16
  }

  function InBase(s: string, base: nat): Option<nat> {
    if s == "" then None
    else
      var last := DigitOf(s[|s| - 1]);
      if last >= base then None
      else if |s| == 1 then Some(last)
      else
        match InBase(s[..|s| - 1], base)
        case None => None
        case Some(n) => Some(n * base + last)
  }

  /** `0x`, `0o` and `0b` introduce other bases. */
  function Prefixed(s: string): Option<nat> {
    if |s| < 2 || s[0] != '0' then None
    else if s[1] == 'x' || s[1] == 'X' then InBase(s[2..], 16)
    else if s[1] == 'o' || s[1] == 'O' then InBase(s[2..], 8)
    else if s[1] == 'b' || s[1] == 'B' then InBase(s[2..], 2)
    else None
  }

  function WithoutPlus(s: string): string { if s != "" && s[0] == '+' then s[1..] else s }

  function Power(base: nat, n: nat): nat { if n == 0 then 1 else base * Power(base, n - 1) }

  /** Digits, and a power of ten after the letter `e`. */
  function Scaled(s: string, e: char): Option<nat> {
    var parts := Split(s, e);
    if |parts| == 2 && AllDigits(parts[0]) && AllDigits(WithoutPlus(parts[1]))
    then Some(DigitsToNat(parts[0]) * Power(10, DigitsToNat(WithoutPlus(parts[1]))))
    else None
  }

  /** `Number(s) || 0`, where `s` holds neither dot nor hyphen: what is no number counts as 0. */
  function NumberOf(s: string): Size {
    if AllDigits(s) then Fin(DigitsToNat(s))
    else
      var trimmed := Trim(s);
      var unsigned := WithoutPlus(trimmed);
      if AllDigits(unsigned) then Fin(DigitsToNat(unsigned))
      else if unsigned == "Infinity" then Infinite
      else if Prefixed(trimmed).Some? then Fin(Prefixed(trimmed).value)
      else if Scaled(unsigned, 'e').Some? then Fin(Scaled(unsigned, 'e').value)
      else if Scaled(unsigned, 'E').Some? then Fin(Scaled(unsigned, 'E').value)
      else Fin(0)
  }

  /** A part that is missing counts as 0. */
  function PartNumber(parts: seq<string>, i: nat): Size { if i < |parts| then NumberOf(parts[i]) else Fin(0) }

  function Number(v: string, i: nat): Size { PartNumber(Split(Core(v), '.'), i) }

  /** `a < b` on strings, by character codes. */
  predicate Before(a: string, b: string) {
    b != "" && (a == "" || a[0] < b[0] || (a[0] == b[0] && Before(a[1..], b[1..])))
  }

  // ---------- The comparison ----------

  function CompareIdentifier(left: string, right: string): int {
    if left == right then 0
    else if AllDigits(left) && AllDigits(right) then if DigitsToNat(left) > DigitsToNat(right) then 1 else -1
    else if AllDigits(left) != AllDigits(right) then if AllDigits(left) then -1 else 1
    else if Before(right, left) then 1
    else -1
  }

  function CompareIdentifiers(xs: seq<string>, ys: seq<string>): int {
    if xs == [] && ys == [] then 0
    else if xs == [] then -1
    else if ys == [] then 1
    else
      var c := CompareIdentifier(xs[0], ys[0]);
      if c != 0 then c else CompareIdentifiers(xs[1..], ys[1..])
  }

  function ComparePre(a: string, b: string): int {
    if a == "" && b == "" then 0
    else if a == "" then 1
    else if b == "" then -1
    else CompareIdentifiers(Split(a, '.'), Split(b, '.'))
  }

  /** The first of the numbers from `i` on that differs decides, else the pre-release parts. */
  function CompareFrom(a: string, b: string, i: nat): int
    requires i <= 3
    decreases 3 - i
  {
    if i == 3 then ComparePre(Pre(a), Pre(b))
    else if Less(Number(b, i), Number(a, i)) then 1
    else if Less(Number(a, i), Number(b, i)) then -1
    else CompareFrom(a, b, i + 1)
  }

  function Compare(a: string, b: string): int { CompareFrom(a, b, 0) }

  /** `compareVersions` */
  method CompareVersions(a: string, b: string) returns (r: int)
    ensures r == Compare(a, b)
  {
    var coreA, coreB := Split(Core(a), '.'), Split(Core(b), '.');
    var preA, preB := Pre(a), Pre(b);
    for index := 0 to 3
      invariant Compare(a, b) == CompareFrom(a, b, index)
    {
      var left, right := PartNumber(coreA, index), PartNumber(coreB, index);
      if left != right { return if Less(right, left) then 1 else -1; }
    }
    if preA == "" && preB == "" { return 0; }
    if preA == "" { return 1; }
    if preB == "" { return -1; }
    var identifiersA, identifiersB := Split(preA, '.'), Split(preB, '.');
    var index := 0;
    while index < |identifiersA| || index < |identifiersB|
      invariant index <= |identifiersA| && index <= |identifiersB|
      invariant Compare(a, b) == CompareIdentifiers(identifiersA[index..], identifiersB[index..])
      decreases |identifiersA| + |identifiersB| - index
    {
      if index >= |identifiersA| { return -1; }
      if index >= |identifiersB| { return 1; }
      var left, right := identifiersA[index], identifiersB[index];
      if left != right {
        return CompareIdentifier(left, right);
      }
      index := index + 1;
    }
    return 0;
  }

  // ---------- Precedence as section 11 defines it ----------

  datatype Identifier = Numeric(n: nat) | Alphanumeric(text: string)

  datatype SemVer = SemVer(major: nat, minor: nat, patch: nat, pre: seq<Identifier>)

  /** Numeric identifiers compare numerically, others in ASCII order, and numeric ones are lower. */
  predicate LowerIdentifier(x: Identifier, y: Identifier) {
    match (x, y)
    case (Numeric(m), Numeric(n)) => m < n
    case (Numeric(_), Alphanumeric(_)) => true
    case (Alphanumeric(_), Numeric(_)) => false
    case (Alphanumeric(s), Alphanumeric(t)) => Before(s, t)
  }

  /** The first difference decides; without one the shorter list is lower. */
  predicate LowerAt(xs: seq<Identifier>, ys: seq<Identifier>, k: nat) {
    && k <= |xs| && k < |ys| && xs[..k] == ys[..k]
    && (k == |xs| || LowerIdentifier(xs[k], ys[k]))
  }

  ghost predicate LowerPre(xs: seq<Identifier>, ys: seq<Identifier>) { exists k: nat :: LowerAt(xs, ys, k) }

  /** A pre-release is lower than its release. */
  ghost predicate Lower(a: SemVer, b: SemVer) {
    || a.major < b.major
    || (a.major == b.major && a.minor < b.minor)
    || (a.major == b.major && a.minor == b.minor && a.patch < b.patch)
    || (a.major == b.major && a.minor == b.minor && a.patch == b.patch
        && ((a.pre != [] && b.pre == []) || (a.pre != [] && b.pre != [] && LowerPre(a.pre, b.pre))))
  }

  function ReadIdentifier(s: string): Identifier {
    if AllDigits(s) then Numeric(DigitsToNat(s)) else Alphanumeric(s)
  }

  function ReadIdentifiers(xs: seq<string>): (r: seq<Identifier>)
    ensures |r| == |xs| && forall i | 0 <= i < |r| :: r[i] == ReadIdentifier(xs[i])
  {
    seq(|xs|, i requires 0 <= i < |xs| => ReadIdentifier(xs[i]))
  }

  function Read(v: string): SemVer
    requires IsVersion(v)
  {
    SemVer(Number(v, 0).n, Number(v, 1).n, Number(v, 2).n, if Pre(v) == "" then [] else ReadIdentifiers(Split(Pre(v), '.')))
  }

  // ---------- The order of strings ----------

  lemma {:induction false} BeforeIsTotal(a: string, b: string)
    ensures (a == b && !Before(a, b) && !Before(b, a))
         || (a != b && Before(a, b) && !Before(b, a))
         || (a != b && !Before(a, b) && Before(b, a))
  {
    if a != "" && b != "" {
      BeforeIsTotal(a[1..], b[1..]);
      if a[0] == b[0] {
        assert a == [a[0]] + a[1..] && b == [b[0]] + b[1..];
      }
    }
  }

  lemma {:induction false} BeforeIsTransitive(a: string, b: string, c: string)
    requires Before(a, b) && Before(b, c)
    ensures Before(a, c)
  {
    if a != "" && a[0] == b[0] == c[0] {
      BeforeIsTransitive(a[1..], b[1..], c[1..]);
    }
  }

  // ---------- Section 11 is a strict total order ----------

  lemma LowerIdentifierIsTotal(x: Identifier, y: Identifier)
    ensures (x == y && !LowerIdentifier(x, y) && !LowerIdentifier(y, x))
         || (x != y && LowerIdentifier(x, y) && !LowerIdentifier(y, x))
         || (x != y && !LowerIdentifier(x, y) && LowerIdentifier(y, x))
  {
    if x.Alphanumeric? && y.Alphanumeric? {
      BeforeIsTotal(x.text, y.text);
    }
  }

  lemma LowerIdentifierIsTransitive(x: Identifier, y: Identifier, z: Identifier)
    requires LowerIdentifier(x, y) && LowerIdentifier(y, z)
    ensures LowerIdentifier(x, z)
  {
    if x.Alphanumeric? {
      BeforeIsTransitive(x.text, y.text, z.text);
    }
  }

  lemma LowerPreStep(xs: seq<Identifier>, ys: seq<Identifier>)
    requires xs != [] && ys != []
    ensures LowerPre(xs, ys) <==> LowerIdentifier(xs[0], ys[0]) || (xs[0] == ys[0] && LowerPre(xs[1..], ys[1..]))
  {
    if LowerPre(xs, ys) {
      var k: nat :| LowerAt(xs, ys, k);
      if k > 0 {
        assert xs[..k][0] == ys[..k][0];
        assert xs[1..][..k - 1] == xs[..k][1..] == ys[1..][..k - 1];
        assert LowerAt(xs[1..], ys[1..], k - 1);
      }
    }
    if LowerIdentifier(xs[0], ys[0]) {
      assert LowerAt(xs, ys, 0);
    }
    if xs[0] == ys[0] && LowerPre(xs[1..], ys[1..]) {
      var k: nat :| LowerAt(xs[1..], ys[1..], k);
      assert xs[..k + 1] == [xs[0]] + xs[1..][..k] == ys[..k + 1];
      assert LowerAt(xs, ys, k + 1);
    }
  }

  lemma LowerPreEmpty(ys: seq<Identifier>)
    ensures LowerPre([], ys) <==> ys != []
    ensures !LowerPre(ys, [])
  {
    if ys != [] {
      assert LowerAt([], ys, 0);
    }
  }

  lemma {:induction false} LowerPreIsTotal(xs: seq<Identifier>, ys: seq<Identifier>)
    ensures (xs == ys && !LowerPre(xs, ys) && !LowerPre(ys, xs))
         || (xs != ys && LowerPre(xs, ys) && !LowerPre(ys, xs))
         || (xs != ys && !LowerPre(xs, ys) && LowerPre(ys, xs))
  {
    LowerPreEmpty(xs);
    LowerPreEmpty(ys);
    if xs != [] && ys != [] {
      LowerPreStep(xs, ys);
      LowerPreStep(ys, xs);
      LowerIdentifierIsTotal(xs[0], ys[0]);
      LowerPreIsTotal(xs[1..], ys[1..]);
      assert xs == [xs[0]] + xs[1..] && ys == [ys[0]] + ys[1..];
    }
  }

  lemma {:induction false} LowerPreIsTransitive(xs: seq<Identifier>, ys: seq<Identifier>, zs: seq<Identifier>)
    requires LowerPre(xs, ys) && LowerPre(ys, zs)
    ensures LowerPre(xs, zs)
  {
    LowerPreEmpty(xs);
    LowerPreEmpty(ys);
    LowerPreEmpty(zs);
    if xs != [] {
      LowerPreStep(xs, ys);
      LowerPreStep(ys, zs);
      LowerPreStep(xs, zs);
      if LowerIdentifier(xs[0], ys[0]) && LowerIdentifier(ys[0], zs[0]) {
        LowerIdentifierIsTransitive(xs[0], ys[0], zs[0]);
      } else if xs[0] == ys[0] == zs[0] {
        LowerPreIsTransitive(xs[1..], ys[1..], zs[1..]);
      }
    }
  }

  lemma LowerIsStrictTotalOrder(a: SemVer, b: SemVer, c: SemVer)
    ensures !Lower(a, a)
    ensures a != b ==> Lower(a, b) || Lower(b, a)
    ensures !(Lower(a, b) && Lower(b, a))
    ensures Lower(a, b) && Lower(b, c) ==> Lower(a, c)
  {
    LowerPreIsTotal(a.pre, b.pre);
    LowerPreIsTotal(a.pre, a.pre);
    if LowerPre(a.pre, b.pre) && LowerPre(b.pre, c.pre) {
      LowerPreIsTransitive(a.pre, b.pre, c.pre);
    }
  }

  // ---------- The comparison against section 11 ----------

  /** No leading zeros. */
  predicate IsPlainNumber(s: string) { AllDigits(s) && (s[0] == '0' ==> |s| == 1) }

  predicate PlainIdentifiers(xs: seq<string>) { forall x | x in xs :: AllDigits(x) ==> IsPlainNumber(x) }

  /** One hyphen at most, and no number with leading zeros. */
  predicate IsCanonical(v: string) {
    && IsVersion(v) && |Split(v, '-')| <= 2
    && (forall i | 0 <= i < 3 :: IsPlainNumber(Split(Core(v), '.')[i]))
    && PlainIdentifiers(Split(Pre(v), '.'))
  }

  lemma {:induction false} DigitsGrow(s: string)
    requires AllDigits(s) && s[0] != '0'
    ensures DigitsToNat(s) > 0
  {
    if |s| > 1 {
      assert s[..|s| - 1][0] == s[0];
      assert forall c | c in s[..|s| - 1] :: c in s;
      DigitsGrow(s[..|s| - 1]);
    } else {
      assert s[..|s| - 1] == "";
    }
  }

  /** Without leading zeros equal values are equal texts. */
  lemma {:induction false} SameValueSameText(s: string, t: string)
    requires IsPlainNumber(s) && IsPlainNumber(t) && DigitsToNat(s) == DigitsToNat(t)
    ensures s == t
    decreases |s|
  {
    var s0, t0 := s[..|s| - 1], t[..|t| - 1];
    assert forall c | c in s0 :: c in s;
    assert forall c | c in t0 :: c in t;
    assert s == s0 + [s[|s| - 1]] && t == t0 + [t[|t| - 1]];
    assert DigitsToNat(s) == DigitsToNat(s0) * 10 + DigitValue(s[|s| - 1]);
    assert DigitsToNat(t) == DigitsToNat(t0) * 10 + DigitValue(t[|t| - 1]);
    LastDigitAgrees(DigitsToNat(s0), DigitValue(s[|s| - 1]), DigitsToNat(t0), DigitValue(t[|t| - 1]));
    if s0 != "" { DigitsGrow(s0); }
    if t0 != "" { DigitsGrow(t0); }
    if s0 != "" && t0 != "" {
      SameValueSameText(s0, t0);
    }
  }

  lemma LastDigitAgrees(a: nat, d: nat, b: nat, e: nat)
    requires d < 10 && e < 10 && a * 10 + d == b * 10 + e
    ensures a == b && d == e
  {
  }

  lemma IdentifierAgrees(x: string, y: string)
    requires (AllDigits(x) ==> IsPlainNumber(x)) && (AllDigits(y) ==> IsPlainNumber(y))
    ensures CompareIdentifier(x, y) < 0 <==> LowerIdentifier(ReadIdentifier(x), ReadIdentifier(y))
    ensures CompareIdentifier(x, y) == 0 <==> x == y
    ensures x == y <==> ReadIdentifier(x) == ReadIdentifier(y)
  {
    BeforeIsTotal(x, y);
    if AllDigits(x) && AllDigits(y) && DigitsToNat(x) == DigitsToNat(y) {
      SameValueSameText(x, y);
    }
  }

  lemma {:induction false} IdentifiersAgree(xs: seq<string>, ys: seq<string>)
    requires PlainIdentifiers(xs) && PlainIdentifiers(ys)
    ensures CompareIdentifiers(xs, ys) < 0 <==> LowerPre(ReadIdentifiers(xs), ReadIdentifiers(ys))
  {
    hide CompareIdentifier, LowerIdentifier, ReadIdentifier, LowerPre, AllDigits;
    var rx, ry := ReadIdentifiers(xs), ReadIdentifiers(ys);
    LowerPreEmpty(rx);
    LowerPreEmpty(ry);
    if xs != [] && ys != [] {
      LowerPreStep(rx, ry);
      IdentifierAgrees(xs[0], ys[0]);
      IdentifiersAgree(xs[1..], ys[1..]);
      assert rx[1..] == ReadIdentifiers(xs[1..]) && ry[1..] == ReadIdentifiers(ys[1..]);
    }
  }

  lemma {:induction false} IdentifiersEqual(xs: seq<string>, ys: seq<string>)
    requires PlainIdentifiers(xs) && PlainIdentifiers(ys)
    ensures CompareIdentifiers(xs, ys) == 0 <==> xs == ys
  {
    hide CompareIdentifier;
    if xs != [] && ys != [] {
      IdentifierAgrees(xs[0], ys[0]);
      IdentifiersEqual(xs[1..], ys[1..]);
      assert xs == [xs[0]] + xs[1..] && ys == [ys[0]] + ys[1..];
    }
  }

  lemma IdentifiersAreRead(xs: seq<string>, ys: seq<string>)
    requires PlainIdentifiers(xs) && PlainIdentifiers(ys) && ReadIdentifiers(xs) == ReadIdentifiers(ys)
    ensures xs == ys
  {
    assert |xs| == |ReadIdentifiers(xs)| == |ys|;
    forall i | 0 <= i < |xs|
      ensures xs[i] == ys[i]
    {
      assert ReadIdentifiers(xs)[i] == ReadIdentifiers(ys)[i];
      IdentifierAgrees(xs[i], ys[i]);
    }
  }

  // ---------- Texts and their parts ----------

  function Join(parts: seq<string>, c: char): string
    requires parts != []
  {
    if |parts| == 1 then parts[0] else parts[0] + [c] + Join(parts[1..], c)
  }

  lemma {:induction false} JoinSplit(s: string, c: char)
    ensures Join(Split(s, c), c) == s
  {
    if s != "" {
      JoinSplit(s[1..], c);
      var rest := Split(s[1..], c);
      if s[0] == c {
        assert Split(s, c)[1..] == rest;
      } else {
        assert Split(s, c)[1..] == rest[1..];
      }
    }
  }

  /** A canonical version is determined by its core and its pre-release part. */
  lemma SamePartsSameVersion(a: string, b: string)
    requires |Split(a, '-')| <= 2 && |Split(b, '-')| <= 2 && Core(a) == Core(b) && Pre(a) == Pre(b)
    requires a != Core(a) + "-" && b != Core(b) + "-"
    ensures a == b
  {
    JoinSplit(a, '-');
    JoinSplit(b, '-');
    var x, y := Split(a, '-'), Split(b, '-');
    if |x| == 2 { assert x[1..] == [x[1]] && Join(x, '-') == x[0] + "-" + x[1]; }
    if |y| == 2 { assert y[1..] == [y[1]] && Join(y, '-') == y[0] + "-" + y[1]; }
  }

  lemma SameNumbersSameCore(a: string, b: string)
    requires IsCanonical(a) && IsCanonical(b) && forall i | 0 <= i < 3 :: Number(a, i) == Number(b, i)
    ensures Core(a) == Core(b)
  {
    var x, y := Split(Core(a), '.'), Split(Core(b), '.');
    forall i | 0 <= i < 3
      ensures x[i] == y[i]
    {
      assert Number(a, i) == Number(b, i);
      SameValueSameText(x[i], y[i]);
    }
    assert x == y;
    JoinSplit(Core(a), '.');
    JoinSplit(Core(b), '.');
  }

  // ---------- Main results ----------

  lemma PreAgrees(a: string, b: string)
    requires IsCanonical(a) && IsCanonical(b)
    ensures ComparePre(Pre(a), Pre(b)) == 0 <==> Pre(a) == Pre(b)
    ensures var x, y := Read(a).pre, Read(b).pre;
      ComparePre(Pre(a), Pre(b)) < 0 <==> (x != [] && y == []) || (x != [] && y != [] && LowerPre(x, y))
  {
    JoinSplit(Pre(a), '.');
    JoinSplit(Pre(b), '.');
    IdentifiersAgree(Split(Pre(a), '.'), Split(Pre(b), '.'));
    IdentifiersEqual(Split(Pre(a), '.'), Split(Pre(b), '.'));
  }

  /** On canonical versions the comparison is exactly the precedence of section 11, and 0 means equal. */
  lemma AgreesWithSemVer(a: string, b: string)
    requires IsCanonical(a) && IsCanonical(b)
    ensures Compare(a, b) < 0 <==> Lower(Read(a), Read(b))
    ensures Compare(a, b) == 0 <==> a == b
  {
    PreAgrees(a, b);
    CompareUnfolded(a, b);
    if Compare(a, b) == 0 {
      SameNumbersSameCore(a, b);
      SamePartsSameVersion(a, b);
    }
  }

  lemma CompareUnfolded(a: string, b: string)
    ensures Compare(a, b) ==
      if Less(Number(b, 0), Number(a, 0)) then 1 else if Less(Number(a, 0), Number(b, 0)) then -1
      else if Less(Number(b, 1), Number(a, 1)) then 1 else if Less(Number(a, 1), Number(b, 1)) then -1
      else if Less(Number(b, 2), Number(a, 2)) then 1 else if Less(Number(a, 2), Number(b, 2)) then -1
      else ComparePre(Pre(a), Pre(b))
  {
    hide Number, ComparePre, Less;
  }

  /** So it is a total order: antisymmetric, transitive, and 0 only on equal versions. */
  lemma CompareIsTotalOrder(a: string, b: string, c: string)
    requires IsCanonical(a) && IsCanonical(b) && IsCanonical(c)
    ensures Compare(a, b) == -Compare(b, a)
    ensures Compare(a, b) == 0 <==> a == b
    ensures Compare(a, b) <= 0 && Compare(b, c) <= 0 ==> Compare(a, c) <= 0
  {
    CompareIsSign(a, b);
    CompareIsSign(b, a);
    CompareIsSign(a, c);
    AgreesWithSemVer(a, b);
    AgreesWithSemVer(b, a);
    AgreesWithSemVer(b, c);
    AgreesWithSemVer(a, c);
    AgreesWithSemVer(c, a);
    ReadIsInjective(a, b);
    ReadIsInjective(a, c);
    LowerIsStrictTotalOrder(Read(a), Read(b), Read(c));
    LowerIsStrictTotalOrder(Read(a), Read(c), Read(a));
  }

  lemma {:induction false} IdentifiersSign(xs: seq<string>, ys: seq<string>)
    ensures CompareIdentifiers(xs, ys) in {-1, 0, 1}
  {
    if xs != [] && ys != [] {
      IdentifiersSign(xs[1..], ys[1..]);
    }
  }

  lemma CompareIsSign(a: string, b: string)
    ensures Compare(a, b) in {-1, 0, 1}
  {
    CompareUnfolded(a, b);
    IdentifiersSign(Split(Pre(a), '.'), Split(Pre(b), '.'));
  }

  /** A canonical version can be told from what is read off it. */
  lemma ReadIsInjective(a: string, b: string)
    requires IsCanonical(a) && IsCanonical(b)
    ensures Read(a) == Read(b) ==> a == b
  {
    if Read(a) == Read(b) {
      JoinSplit(Pre(a), '.');
      JoinSplit(Pre(b), '.');
      if Pre(a) != "" && Pre(b) != "" {
        IdentifiersAreRead(Split(Pre(a), '.'), Split(Pre(b), '.'));
      }
      assert forall i | 0 <= i < 3 :: Number(a, i) == Number(b, i);
      SameNumbersSameCore(a, b);
      SamePartsSameVersion(a, b);
    }
  }

  // ---------- The comparison on all strings ----------

  predicate SameNumbers(a: string, b: string) { forall i | 0 <= i < 3 :: Number(a, i) == Number(b, i) }

  lemma NumbersDecide(a: string, b: string)
    ensures SameNumbers(a, b) ==> Compare(a, b) == ComparePre(Pre(a), Pre(b))
    ensures !SameNumbers(a, b) ==> Compare(a, b) == -Compare(b, a) && Compare(a, b) in {-1, 1}
  {
    hide ComparePre, Number;
    CompareUnfolded(a, b);
    CompareUnfolded(b, a);
    assert SameNumbers(a, b) <==> Number(a, 0) == Number(b, 0) && Number(a, 1) == Number(b, 1) && Number(a, 2) == Number(b, 2);
  }

  lemma {:induction false} ZeroIffSame(xs: seq<string>, ys: seq<string>)
    ensures CompareIdentifiers(xs, ys) == 0 <==> xs == ys
  {
    if xs != [] && ys != [] {
      ZeroIffSame(xs[1..], ys[1..]);
      assert xs == [xs[0]] + xs[1..] && ys == [ys[0]] + ys[1..];
    }
  }

  /**
   Two versions compare as equal exactly when their three numbers and the text between their first two
   hyphens agree: how a number is spelt, missing parts and whatever follows a second hyphen never count.
   */
  lemma EqualIff(a: string, b: string)
    ensures Compare(a, b) == 0 <==> SameNumbers(a, b) && Pre(a) == Pre(b)
  {
    NumbersDecide(a, b);
    JoinSplit(Pre(a), '.');
    JoinSplit(Pre(b), '.');
    ZeroIffSame(Split(Pre(a), '.'), Split(Pre(b), '.'));
  }

  /** Versions that compare as equal are interchangeable in every comparison. */
  lemma EqualsAreInterchangeable(a: string, b: string, c: string)
    requires Compare(a, b) == 0
    ensures Compare(a, c) == Compare(b, c) && Compare(c, a) == Compare(c, b)
  {
    EqualIff(a, b);
    CompareUnfolded(a, c);
    CompareUnfolded(b, c);
    CompareUnfolded(c, a);
    CompareUnfolded(c, b);
    assert Number(a, 0) == Number(b, 0) && Number(a, 1) == Number(b, 1) && Number(a, 2) == Number(b, 2);
  }

  /** Two numbers of equal value in different writing, such as 01 and 1, where the first difference is. */
  predicate TiesAtZeros(xs: seq<string>, ys: seq<string>) {
    xs != [] && ys != []
    && (if xs[0] == ys[0] then TiesAtZeros(xs[1..], ys[1..])
        else AllDigits(xs[0]) && AllDigits(ys[0]) && DigitsToNat(xs[0]) == DigitsToNat(ys[0]))
  }

  /** The order of identifier lists matters as it should exactly unless such numbers are compared first. */
  lemma {:induction false} TiesAreLowerBothWays(xs: seq<string>, ys: seq<string>)
    ensures CompareIdentifiers(xs, ys) == -CompareIdentifiers(ys, xs) <==> !TiesAtZeros(xs, ys)
    ensures TiesAtZeros(xs, ys) ==> CompareIdentifiers(xs, ys) == -1 && CompareIdentifiers(ys, xs) == -1
  {
    if xs != [] && ys != [] {
      BeforeIsTotal(xs[0], ys[0]);
      TiesAreLowerBothWays(xs[1..], ys[1..]);
    }
  }

  /** The numbers agree, and the pre-release parts first differ in the spelling of one number. */
  predicate SpellsANumberTwice(a: string, b: string) {
    SameNumbers(a, b) && Pre(a) != "" && Pre(b) != "" && TiesAtZeros(Split(Pre(a), '.'), Split(Pre(b), '.'))
  }

  /** Swapping the arguments negates the result exactly unless a number is spelt in two ways; then both are -1. */
  lemma AntisymmetricIff(a: string, b: string)
    ensures Compare(a, b) == -Compare(b, a) <==> !SpellsANumberTwice(a, b)
    ensures SpellsANumberTwice(a, b) ==> Compare(a, b) == -1 && Compare(b, a) == -1
  {
    hide Number;
    NumbersDecide(a, b);
    NumbersDecide(b, a);
    TiesAreLowerBothWays(Split(Pre(a), '.'), Split(Pre(b), '.'));
  }

  lemma GreaterIdentifiers(x: string, y: string, z: string)
    requires CompareIdentifier(y, x) > 0 && CompareIdentifier(z, y) > 0
    ensures CompareIdentifier(z, x) > 0 && z != x
  {
    if !AllDigits(x) && !AllDigits(y) && !AllDigits(z) {
      BeforeIsTransitive(x, y, z);
      BeforeIsTotal(x, z);
    }
  }

  lemma {:induction false} GreaterLists(xs: seq<string>, ys: seq<string>, zs: seq<string>)
    requires CompareIdentifiers(ys, xs) > 0 && CompareIdentifiers(zs, ys) > 0
    ensures CompareIdentifiers(zs, xs) > 0
  {
    hide AllDigits, Before;
    if xs != [] {
      if CompareIdentifier(ys[0], xs[0]) > 0 && CompareIdentifier(zs[0], ys[0]) > 0 {
        GreaterIdentifiers(xs[0], ys[0], zs[0]);
      } else if ys[0] == xs[0] && zs[0] == ys[0] {
        GreaterLists(xs[1..], ys[1..], zs[1..]);
      } else {
        OnlyEqualCompareAsEqual(ys[0], xs[0]);
        OnlyEqualCompareAsEqual(zs[0], ys[0]);
      }
    }
  }

  lemma OnlyEqualCompareAsEqual(x: string, y: string)
    ensures CompareIdentifier(x, y) == 0 <==> x == y
  {
  }

  lemma GreaterPre(p: string, q: string, u: string)
    requires ComparePre(q, p) > 0 && ComparePre(u, q) > 0
    ensures ComparePre(u, p) > 0
  {
    hide CompareIdentifiers;
    if p != "" && q != "" && u != "" {
      GreaterLists(Split(p, '.'), Split(q, '.'), Split(u, '.'));
    }
  }

  /** Being newer is transitive, for all strings. */
  lemma NewerIsTransitive(a: string, b: string, c: string)
    requires Compare(b, a) > 0 && Compare(c, b) > 0
    ensures Compare(c, a) > 0
  {
    hide ComparePre, Number;
    CompareUnfolded(b, a);
    CompareUnfolded(c, b);
    CompareUnfolded(c, a);
    if SameNumbers(a, b) && SameNumbers(b, c) {
      NumbersDecide(b, a);
      NumbersDecide(c, b);
      GreaterPre(Pre(a), Pre(b), Pre(c));
    }
    assert SameNumbers(a, b) <==> Number(a, 0) == Number(b, 0) && Number(a, 1) == Number(b, 1) && Number(a, 2) == Number(b, 2);
    assert SameNumbers(b, c) <==> Number(b, 0) == Number(c, 0) && Number(b, 1) == Number(c, 1) && Number(b, 2) == Number(c, 2);
  }

  // ---------- Offering updates ----------

  /** What `checkForUpdate` requires of the installed version, and when it offers the latest one. */
  predicate Offers(current: string, minimum: string, latest: string) {
    Compare(current, minimum) >= 0 && Compare(latest, current) > 0
  }

  /** Each version was offered while the one before it was installed. */
  ghost predicate IsUpdateChain(versions: seq<string>) {
    forall i | 0 < i < |versions| :: WasOffered(versions[i - 1], versions[i])
  }

  ghost predicate WasOffered(current: string, latest: string) { exists minimum :: Offers(current, minimum, latest) }

  lemma ItselfIsEqual(v: string)
    ensures Compare(v, v) == 0
  {
    hide Compare, Number;
    EqualIff(v, v);
  }

  /** A chain of offered updates strictly increases, so it never comes back to a version or an equal one. */
  lemma {:induction false} ChainIncreases(versions: seq<string>, i: nat, j: nat)
    requires IsUpdateChain(versions) && i < j < |versions|
    ensures Compare(versions[j], versions[i]) > 0 && versions[j] != versions[i]
    decreases j
  {
    hide Compare;
    assert WasOffered(versions[j - 1], versions[j]);
    ItselfIsEqual(versions[j]);
    if i < j - 1 {
      ChainIncreases(versions, i, j - 1);
      NewerIsTransitive(versions[i], versions[j - 1], versions[j]);
    }
  }

  datatype Manifest = Manifest(latest: string, minimum: string, changelog: string)

  datatype Stage = Idle | Checking | Failing

  datatype UpdateStatus = UpdateStatus(current: string, latest: Option<string>, hasUpdate: bool, changelog: string, error: Option<string>)

  const NO_MIRROR: string := "镜像源未配置。请填写 HTTPS 镜像地址后保存。"

  function TooOld(current: string, minimum: string): string {
    "当前版本 v" + current + " 低于热更新最低版本 v" + minimum + "，请下载完整便携包升级"
  }

  /** The module state of the updater: the progress shown and the last successful check. */
  class Updater {
    var stage: Stage
    var lastCheck: Option<UpdateStatus>

    constructor ()
      ensures stage == Idle && lastCheck == None
    {
      stage, lastCheck := Idle, None;
    }

    /** `checkForUpdate`; the manifest is what the mirror serves once verified, or the error of loading it. */
    method CheckForUpdate(current: string, mirror: bool, manifest: Result<Manifest, string>) returns (r: UpdateStatus)
      modifies this
      ensures r.current == current
      ensures r.hasUpdate ==> r.latest.Some? && Compare(r.latest.value, current) > 0
      ensures r.hasUpdate <==> mirror && manifest.Ok? && Offers(current, manifest.value.minimum, manifest.value.latest)
      ensures r.error == None <==> mirror && manifest.Ok? && Compare(current, manifest.value.minimum) >= 0
      ensures r.error == None ==> r.latest == Some(manifest.value.latest) && stage == Idle && lastCheck == Some(r)
      ensures r.error != None ==> r.latest == None && lastCheck == old(lastCheck)
      ensures !mirror ==> r.error == Some(NO_MIRROR) && stage == old(stage)
      ensures mirror && r.error != None ==> stage == Failing
    {
      if !mirror {
        return UpdateStatus(current, None, false, "", Some(NO_MIRROR));
      }
      stage := Checking;
      if manifest.Err? {
        stage := Failing;
        return UpdateStatus(current, None, false, "", Some(manifest.error));
      }
      var m := manifest.value;
      var supported := CompareVersions(current, m.minimum);
      if supported < 0 {
        stage := Failing;
        return UpdateStatus(current, None, false, "", Some(TooOld(current, m.minimum)));
      }
      var newer := CompareVersions(m.latest, current);
      r := UpdateStatus(current, Some(m.latest), newer > 0, m.changelog, None);
      lastCheck := Some(r);
      stage := Idle;
    }
  }
}
