/** How `normalizeSteps` gives every planned step a key: the one asked for, or one made from the tool's name. */
module StepKeys {
  import opened Prelude
  import opened Values
  import opened AgentTypes
  import opened References
  import opened WorkflowGraph
  import opened Planning

  // ---------- Normalizing a key ----------

  const MAX_KEY: nat := 80

  function Cut(s: string): string { if |s| > MAX_KEY then s[..MAX_KEY] else s }

  predicate IsEdge(c: char) { c == '_' || c == '-' }

  /** Every run of characters that a key cannot hold becomes one underscore; `within` such a run it has been written. */
  function Squeezed(s: string, within: bool := false): (r: string)
    ensures forall c | c in r :: KeyChar(c)
  {
    if s == "" then ""
    else if KeyChar(s[0]) then [s[0]] + Squeezed(s[1..])
    else if within then Squeezed(s[1..], true)
    else "_" + Squeezed(s[1..], true)
  }

  function WithoutLeft(s: string): (r: string)
    ensures |r| <= |s| && r == s[|s| - |r|..]
    ensures r != "" ==> !IsEdge(r[0])
  {
    if s != "" && IsEdge(s[0]) then WithoutLeft(s[1..]) else s
  }

  function WithoutRight(s: string): (r: string)
    ensures r <= s
    ensures r != "" ==> !IsEdge(r[|r| - 1])
  {
    if s != "" && IsEdge(s[|s| - 1]) then WithoutRight(s[..|s| - 1]) else s
  }

  /** `normalizeAgentWorkflowKey` */
  function NormalizeKey(value: string, fallback: string): string {
    var normalized := Cut(WithoutRight(WithoutLeft(Squeezed(Lower(Trim(value))))));
    Cut(if normalized != "" && KeyHead(normalized[0]) then normalized else fallback)
  }

  /** What a reference can name. */
  predicate IsKey(s: string) { 1 <= |s| <= MAX_KEY && KeyHead(s[0]) && forall c | c in s :: KeyChar(c) }

  lemma KeysCanBeReferredTo(key: string, path: string)
    requires 1 <= |path| <= 300 && forall c | c in path :: PathChar(c)
    ensures ValidRef(Ref(key, path)) <==> IsKey(key)
  {
  }

  lemma {:induction false} WithoutRightKeeps(s: string)
    ensures forall c | c in WithoutRight(s) :: c in s
  {
  }

  /** Whatever is asked for, the result is a key, if the fallback is one. */
  lemma NormalizedIsKey(value: string, fallback: string)
    requires IsKey(fallback)
    ensures IsKey(NormalizeKey(value, fallback))
  {
    hide Trim, Lower, Squeezed, WithoutLeft, WithoutRight, KeyHead, KeyChar;
    var squeezed := Squeezed(Lower(Trim(value)));
    var left := WithoutLeft(squeezed);
    WithoutRightKeeps(left);
    assert forall c | c in left :: c in squeezed;
    CutKeeps(WithoutRight(left));
    CutKeeps(fallback);
    CutKeeps(Cut(WithoutRight(left)));
  }

  lemma CutKeeps(s: string)
    ensures |Cut(s)| <= MAX_KEY && (s != "" ==> Cut(s) != "" && Cut(s)[0] == s[0]) && forall c | c in Cut(s) :: c in s
    ensures Cut(Cut(s)) == Cut(s)
  {
  }

  lemma {:induction false} SqueezedKey(s: string)
    requires forall c | c in s :: KeyChar(c)
    ensures Squeezed(s) == s
  {
    if s != "" {
      SqueezedKey(s[1..]);
      assert s == [s[0]] + s[1..];
    }
  }

  lemma KeyCharIsPlain(c: char)
    requires KeyChar(c)
    ensures !IsSpace(c) && LowerChar(c) == c
  {
  }

  lemma KeyIsLowerAndTrimmed(s: string)
    requires s != "" && forall c | c in s :: KeyChar(c)
    ensures Trim(s) == s && Lower(s) == s
  {
    hide IsSpace, KeyChar, LowerChar, Trim;
    forall i | 0 <= i < |s|
      ensures LowerChar(s[i]) == s[i] && !IsSpace(s[i])
    {
      assert s[i] in s;
      KeyCharIsPlain(s[i]);
    }
    AlreadyTrimmed(s);
  }

  /**
   A well-formed key is kept exactly when it does not end in an underscore or a hyphen. One that does is
   shortened, although other steps of the plan may name it as it was.
   */
  lemma KeyIsKeptIff(key: string, fallback: string)
    requires IsKey(key)
    ensures NormalizeKey(key, fallback) == key <==> !IsEdge(key[|key| - 1])
    ensures IsEdge(key[|key| - 1]) ==> |NormalizeKey(key, fallback)| < |key|
  {
    hide NormalizeKey, WithoutRight;
    OnlyTheEndIsCut(key, fallback);
    HeadStays(key);
  }

  lemma OnlyTheEndIsCut(s: string, fallback: string)
    requires s != "" && KeyHead(s[0]) && forall c | c in s :: KeyChar(c)
    ensures NormalizeKey(s, fallback) == Cut(WithoutRight(s))
  {
    hide Trim, Lower, Squeezed, WithoutRight, KeyHead, KeyChar, Cut, NormalizeKey;
    KeyIsLowerAndTrimmed(s);
    SqueezedKey(s);
    NothingLeft(s);
    HeadStays(s);
    NormalizedFrom(s, WithoutRight(s), fallback);
  }

  lemma NothingLeft(s: string)
    requires s != "" && KeyHead(s[0])
    ensures WithoutLeft(s) == s
  {
  }

  lemma NormalizedFrom(value: string, normalized: string, fallback: string)
    requires normalized == WithoutRight(WithoutLeft(Squeezed(Lower(Trim(value))))) && normalized != "" && KeyHead(normalized[0])
    ensures NormalizeKey(value, fallback) == Cut(normalized)
  {
    hide Trim, Lower, Squeezed, WithoutLeft, WithoutRight, KeyHead;
    CutKeeps(normalized);
  }

  lemma {:induction false} HeadStays(s: string)
    requires s != "" && KeyHead(s[0])
    ensures WithoutRight(s) != "" && WithoutRight(s)[0] == s[0]
    ensures WithoutRight(s) == s <==> !IsEdge(s[|s| - 1])
    ensures IsEdge(s[|s| - 1]) ==> |WithoutRight(s)| < |s|
  {
    if IsEdge(s[|s| - 1]) {
      HeadStays(s[..|s| - 1]);
    }
  }

  // ---------- Requests ----------

  /** What a plan says about a step's key: the key it asks for, or nothing, and the name of its tool. */
  datatype Wish = Wish(key: string, tool: string)

  /** A tool's name with underscores for its dots. */
  function Underscored(tool: string): string { seq(|tool|, i requires 0 <= i < |tool| => if tool[i] == '.' then '_' else tool[i]) }

  function StepName(index: nat): string { "step_" + NatToDigits(index + 1) }

  /** The step at `index` of the plan: its normalized key, if it asks for one, and the name it falls back to. */
  function Request(wish: Wish, index: nat): KeyRequest {
    var base := NormalizeKey(Underscored(wish.tool), StepName(index));
    KeyRequest(if wish.key == "" then None else Some(NormalizeKey(wish.key, base)), base)
  }

  function Requests(wishes: seq<Wish>): (requests: seq<KeyRequest>)
    ensures |requests| == |wishes| && forall i | 0 <= i < |wishes| :: requests[i] == Request(wishes[i], i)
  {
    seq(|wishes|, i requires 0 <= i < |wishes| => Request(wishes[i], i))
  }

  lemma StepNameIsKey(index: nat)
    ensures IsKey(Cut(StepName(index)))
  {
  }

  lemma RequestHasKeys(wish: Wish, index: nat)
    ensures var r := Request(wish, index); IsKey(r.base) && (r.wanted.Some? ==> IsKey(r.wanted.value))
  {
    hide NormalizeKey;
    StepNameIsKey(index);
    FallbackIsCut(Underscored(wish.tool), StepName(index));
    NormalizedIsKey(Underscored(wish.tool), Cut(StepName(index)));
    NormalizedIsKey(wish.key, Request(wish, index).base);
  }

  lemma FallbackIsCut(value: string, fallback: string)
    ensures NormalizeKey(value, fallback) == NormalizeKey(value, Cut(fallback))
  {
    hide Trim, Lower, Squeezed, WithoutLeft, WithoutRight;
  }

  /** The normalized key a draft asks for, if any, and the name its tool falls back to. */
  datatype KeyRequest = KeyRequest(wanted: Option<string>, base: string)

  /** The fallback name itself, then the name with `_2`, `_3` and so on, cut to the length of a key. */
  function Candidate(base: string, n: nat): string
    requires n >= 1
  {
    if n == 1 then base else Cut(base + "_" + NatToDigits(n))
  }

  function Candidates(base: string, n: nat): set<string> { set k | 1 <= k <= n :: Candidate(base, k) }

  /** The name leaves room for the numbers tried: tool names are at most 31 characters long. */
  predicate HasRoom(base: string, used: nat) { |base| + 1 + |NatToDigits(used + 1)| <= MAX_KEY }

  /** The next candidate as the search makes it: a numbered name, normalized once more. */
  lemma CandidateIsNormalized(base: string, n: nat, fallback: string)
    requires IsKey(base) && n >= 2
    ensures NormalizeKey(base + "_" + NatToDigits(n), fallback) == Candidate(base, n)
  {
    hide NormalizeKey, NatToDigits, WithoutRight, IsKey;
    var name := base + "_" + NatToDigits(n);
    NumberedName(base, NatToDigits(n));
    OnlyTheEndIsCut(name, fallback);
    HeadStays(name);
  }

  lemma NumberedName(base: string, digits: string)
    requires IsKey(base) && AllDigits(digits)
    ensures var name := base + "_" + digits;
      KeyHead(name[0]) && !IsEdge(name[|name| - 1]) && forall c | c in name :: KeyChar(c)
  {
    assert digits[|digits| - 1] in digits;
  }

  lemma CandidateIsKey(base: string, n: nat)
    requires IsKey(base) && n >= 1
    ensures IsKey(Candidate(base, n))
  {
  }

  // ---------- Candidates differ ----------

  lemma {:induction false} MoreDigits(m: nat, n: nat)
    requires m <= n
    ensures |NatToDigits(m)| <= |NatToDigits(n)|
    decreases n
  {
    if n >= 10 && m >= 10 {
      MoreDigits(m / 10, n / 10);
    }
  }

  lemma CandidatesDiffer(base: string, m: nat, n: nat)
    requires 1 <= m < n && |base| + 1 + |NatToDigits(n)| <= MAX_KEY
    ensures Candidate(base, m) != Candidate(base, n)
  {
    MoreDigits(m, n);
    DigitsRoundTrip(m);
    DigitsRoundTrip(n);
    var prefix := base + "_";
    assert |Candidate(base, n)| > |base|;
    assert (prefix + NatToDigits(m))[|prefix|..] == NatToDigits(m);
    assert (prefix + NatToDigits(n))[|prefix|..] == NatToDigits(n);
  }

  lemma {:induction false} AsManyCandidates(base: string, n: nat)
    requires |base| + 1 + |NatToDigits(n)| <= MAX_KEY
    ensures |Candidates(base, n)| == n
    decreases n
  {
    if n > 0 {
      MoreDigits(n - 1, n);
      AsManyCandidates(base, n - 1);
      assert Candidates(base, n) == Candidates(base, n - 1) + {Candidate(base, n)};
      forall k | 1 <= k <= n - 1
        ensures Candidate(base, k) != Candidate(base, n)
      {
        CandidatesDiffer(base, k, n);
      }
    } else {
      assert Candidates(base, 0) == {};
    }
  }

  lemma {:induction false} NoLarger(a: set<string>, b: set<string>)
    requires a <= b
    ensures |a| <= |b|
  {
    if x :| x in a {
      NoLarger(a - {x}, b - {x});
    }
  }

  // ---------- The search for a free key ----------

  /** The first candidate that is free; the search ends, because it tries one name more than are taken at most. */
  method FreeKey(base: string, step: string, used: set<string>) returns (key: string, n: nat)
    requires IsKey(base) && HasRoom(base, |used|)
    ensures 1 <= n <= |used| + 1 && key == Candidate(base, n) && key !in used
    ensures forall k | 1 <= k < n :: Candidate(base, k) in used
  {
    key, n := base, 1;
    while key in used
      invariant 1 <= n <= |used| + 1 && key == Candidate(base, n)
      invariant forall k | 1 <= k < n :: Candidate(base, k) in used
      decreases |used| + 1 - n
    {
      MoreDigits(n, |used| + 1);
      AsManyCandidates(base, n);
      NoLarger(Candidates(base, n), used);
      n := n + 1;
      key := NormalizeKey(base + "_" + NatToDigits(n), step + "_" + NatToDigits(n));
      CandidateIsNormalized(base, n, step + "_" + NatToDigits(n));
    }
  }

  // ---------- All keys of a plan ----------

  predicate AllHaveRoom(requests: seq<KeyRequest>, existing: set<string>) {
    forall r | r in requests :: HasRoom(r.base, |existing| + |requests|)
  }

  function KeysOf(keys: seq<string>): set<string> { set key | key in keys }

  /** The keys are new and distinct, every wish was granted, and every other step got its first free candidate. */
  predicate Assigned(requests: seq<KeyRequest>, existing: set<string>, keys: seq<string>) {
    && |keys| <= |requests| && Distinct(keys) && KeysOf(keys) !! existing
    && forall i | 0 <= i < |keys| ::
         match requests[i].wanted
         case Some(key) => keys[i] == key
         case None => IsFirstFree(requests[i].base, existing + KeysOf(keys[..i]), keys[i])
  }

  predicate IsFirstFree(base: string, used: set<string>, key: string) {
    exists n | 1 <= n <= |used| + 1 ::
      key == Candidate(base, n) && key !in used && forall k | 1 <= k < n :: Candidate(base, k) in used
  }

  /** The key of the step at `index` of the plan, or the taken one it asks for. */
  method KeyFor(wish: Wish, index: nat, used: set<string>) returns (r: Result<string, string>)
    requires HasRoom(Request(wish, index).base, |used|)
    ensures var request := Request(wish, index);
      match r
      case Err(key) => request.wanted == Some(key) && key in used
      case Ok(key) => key !in used && if request.wanted.Some? then key == request.wanted.value else IsFirstFree(request.base, used, key)
  {
    hide NormalizeKey, IsFirstFree, IsKey, Candidate, HasRoom;
    var base := NormalizeKey(Underscored(wish.tool), StepName(index));
    RequestHasKeys(wish, index);
    if wish.key != "" {
      var key := NormalizeKey(wish.key, base);
      return if key in used then Err(key) else Ok(key);
    }
    var key, n := FreeKey(base, StepName(index), used);
    FoundIsFirstFree(base, used, key, n);
    return Ok(key);
  }

  /** Keys are given from the front; the first wish for a key that is taken by then is refused. */
  method AssignKeys(wishes: seq<Wish>, existing: set<string>) returns (r: Result<seq<string>, string>, keys: seq<string>)
    requires AllHaveRoom(Requests(wishes), existing)
    ensures Assigned(Requests(wishes), existing, keys)
    ensures r.Ok? ==> r.value == keys && |keys| == |wishes|
    ensures r.Err? ==> |keys| < |wishes| && Requests(wishes)[|keys|].wanted == Some(r.error) && r.error in existing + KeysOf(keys)
  {
    hide NormalizeKey, IsFirstFree, HasRoom, Request;
    keys := [];
    for i := 0 to |wishes|
      invariant |keys| == i && Assigned(Requests(wishes), existing, keys)
    {
      var used := existing + KeysOf(keys);
      UsedIsSmall(existing, keys);
      assert Requests(wishes)[i] in Requests(wishes);
      RoomIsEnough(Request(wishes[i], i).base, |used|, |existing| + |wishes|);
      var key := KeyFor(wishes[i], i, used);
      if key.Err? { return Err(key.error), keys; }
      OneMoreKey(Requests(wishes), existing, keys, key.value);
      keys := keys + [key.value];
    }
    return Ok(keys), keys;
  }

  lemma RoomIsEnough(base: string, few: nat, many: nat)
    requires HasRoom(base, many) && few <= many
    ensures HasRoom(base, few)
  {
    MoreDigits(few + 1, many + 1);
  }

  lemma FoundIsFirstFree(base: string, used: set<string>, key: string, n: nat)
    requires 1 <= n <= |used| + 1 && key == Candidate(base, n) && key !in used
    requires forall k | 1 <= k < n :: Candidate(base, k) in used
    ensures IsFirstFree(base, used, key)
  {
  }

  lemma UsedIsSmall(existing: set<string>, keys: seq<string>)
    ensures |existing + KeysOf(keys)| <= |existing| + |keys|
  {
    KeysAreFew(keys);
  }

  lemma {:induction false} KeysAreFew(keys: seq<string>)
    ensures |KeysOf(keys)| <= |keys|
  {
    if keys != [] {
      KeysAreFew(keys[1..]);
      assert KeysOf(keys) == {keys[0]} + KeysOf(keys[1..]);
    }
  }

  lemma OneMoreKey(requests: seq<KeyRequest>, existing: set<string>, keys: seq<string>, key: string)
    requires Assigned(requests, existing, keys) && |keys| < |requests| && key !in existing + KeysOf(keys)
    requires match requests[|keys|].wanted
             case Some(wanted) => key == wanted
             case None => IsFirstFree(requests[|keys|].base, existing + KeysOf(keys), key)
    ensures Assigned(requests, existing, keys + [key])
  {
    hide IsFirstFree;
    var more := keys + [key];
    assert KeysOf(more) == KeysOf(keys) + {key};
    assert more[..|keys|] == keys;
    forall i | 0 <= i < |keys|
      ensures more[i] == keys[i] && more[..i] == keys[..i]
    {
    }
  }

  // ---------- What the keys are for ----------

  /** Every key given this way can be named by a reference. */
  lemma AssignedKeysCanBeReferredTo(wishes: seq<Wish>, existing: set<string>, keys: seq<string>)
    requires Assigned(Requests(wishes), existing, keys)
    ensures forall key | key in keys :: IsKey(key)
  {
    hide NormalizeKey, IsKey, Candidate, Request;
    forall i | 0 <= i < |keys|
      ensures IsKey(keys[i])
    {
      RequestHasKeys(wishes[i], i);
      var r := Requests(wishes)[i];
      if r.wanted.None? {
        var used := existing + KeysOf(keys[..i]);
        var n :| 1 <= n <= |used| + 1 && keys[i] == Candidate(r.base, n) && keys[i] !in used;
        CandidateIsKey(r.base, n);
      }
    }
  }

  /** With keys assigned this way the graph check finds none repeated or in use. */
  lemma AssignedKeysAreFresh(requests: seq<KeyRequest>, existing: seq<Step>, keys: seq<string>, drafts: seq<PlanItem>, runId: string, user: Actor)
    requires Assigned(requests, KeySet(existing), keys) && |drafts| == |keys|
    requires forall i | 0 <= i < |keys| :: drafts[i].key == keys[i]
    ensures FreshKeys(NewSteps(drafts, runId, user), KeySet(existing))
  {
    hide IsFirstFree;
    var steps := NewSteps(drafts, runId, user);
    forall i | 0 <= i < |steps|
      ensures steps[i].key == keys[i] && keys[i] in KeysOf(keys)
    {
    }
  }

  /**
   The order of a plan matters: a wish for a tool's name is refused after a step that fell back to that
   name, and granted before it.
   */
  lemma WishRefusedAfterFallback(base: string)
    ensures var wish, other := KeyRequest(Some(base), base), KeyRequest(None, base);
      Assigned([other, wish], {}, [base]) && !Assigned([other, wish], {}, [base, base])
      && (HasRoom(base, 2) ==> Assigned([wish, other], {}, [base, Candidate(base, 2)]))
  {
    var wish, other := KeyRequest(Some(base), base), KeyRequest(None, base);
    assert Candidate(base, 1) == base;
    assert [base][..0] == [] && KeysOf([]) == {};
    assert IsFirstFree(base, {} + KeysOf([]), base);
    assert !Distinct([base, base]) by { assert [base, base][0] == [base, base][1]; }
    if HasRoom(base, 2) {
      MoreDigits(2, 3);
      CandidatesDiffer(base, 1, 2);
      var keys := [base, Candidate(base, 2)];
      assert keys[..1] == [base] && KeysOf([base]) == {base};
      assert IsFirstFree(base, {} + KeysOf(keys[..1]), keys[1]);
    }
  }
}
