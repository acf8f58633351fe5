/**
 Bounding a parsed ACP message under a shared budget (acp-output-guard.ts,
 `boundJsonValue`, `boundString`, `prioritizedKeys`, `createBoundContext`).
 */
module BoundJson {
  import opened Common
  import opened Utf16
  import opened Whitespace

  /** What `JSON.parse` can return; an object lists its own keys in order. */
  datatype Json =
    | Null
    | Number(n: real)
    | Bool(b: bool)
    | Str(s: Text)
    | Arr(items: seq<Json>)
    | Obj(keys: seq<Text>, fields: map<Text, Json>)

  predicate Distinct(keys: seq<Text>)
  {
    forall i, j :: 0 <= i < j < |keys| ==> keys[i] != keys[j]
  }

  ghost predicate Lists(keys: seq<Text>, fields: map<Text, Json>)
  {
    Distinct(keys) && (forall k :: k in keys <==> k in fields)
  }

  ghost predicate Valid(v: Json)
  {
    match v
    case Arr(items) => forall i :: 0 <= i < |items| ==> Valid(items[i])
    case Obj(keys, fields) => Lists(keys, fields) && forall k :: k in fields ==> Valid(fields[k])
    case _ => true
  }

  const MARKER: Text := Units("…(truncated by xacpx ACP output guard)")
  const BINARY_MARKER: Text := Units("[large binary payload omitted by xacpx ACP output guard]")
  const TRUNCATED_KEY: Text := Units("__xacpxTruncated")
  const PROTO_KEY: Text := Units("__proto__")
  const MAX_BOUND_NODES: nat := 100000

  const PREFERRED: seq<Text> :=
    [Units("qoder"), Units("codex"), Units("claudeCode"), Units("routing"), Units("toolName"), Units("parentToolUseId")]

  /** The limits, and the keys an `_meta` object puts first (as shipped, `PREFERRED`). */
  datatype Options = Options(
    maxDepth: nat, maxObjectKeys: nat, maxArrayItems: nat, maxStringChars: nat, preferred: seq<Text>)

  datatype Budget = Budget(remaining: int, nodes: nat)

  function CreateBudget(safeLimit: nat): (b: Budget)
    ensures 1024 <= b.remaining <= 512 * 1024
  {
    var spare := if safeLimit - 1024 < 1024 then 1024 else safeLimit - 1024;
    Budget(if spare < 512 * 1024 then spare else 512 * 1024, 0)
  }

  function Spend(b: Budget, cost: int): Budget
  {
    b.(remaining := b.remaining - cost)
  }

  function Max(a: int, b: int): int
  {
    if a < b then b else a
  }

  function Min(a: int, b: int): int
  {
    if a < b then a else b
  }

  // ----- strings

  /** Lower case, for the keys that matter here: no unit outside ASCII lower-cases into them. */
  function Lower(t: Text): (r: Text)
    ensures |r| == |t|
  {
    seq(|t|, i requires 0 <= i < |t| => if 65 <= t[i] <= 90 then t[i] + 32 else t[i])
  }

  predicate OccursAt(t: Text, part: Text, i: nat)
  {
    i + |part| <= |t| && t[i..i + |part|] == part
  }

  predicate Includes(t: Text, part: Text)
  {
    exists i :: 0 <= i <= |t| && OccursAt(t, part, i)
  }

  /** Keys whose long values keep their end as well as their start. */
  predicate KeepsTail(key: Option<Text>)
  {
    && key.Some?
    && (Lower(key.value) == Units("stdout") || Lower(key.value) == Units("stderr")
        || Includes(Lower(key.value), Units("diff")))
  }

  predicate LooksBinaryLike(t: Text)
  {
    && |t| > 4096
    && forall i :: 0 <= i < |t| ==>
      var u := t[i];
      65 <= u <= 90 || 97 <= u <= 122 || 48 <= u <= 57 || u == 43 || u == 47 || u == 61 || IsSpaceCode(u)
  }

  predicate IsBinary(t: Text, key: Option<Text>)
  {
    key.Some? && Lower(key.value) == Units("data") && LooksBinaryLike(t)
  }

  function Cap(o: Options, remaining: int): int
  {
    Max(32, Min(o.maxStringChars, Max(32, remaining - 64)))
  }

  /** `slice(0, n)`. */
  function Front(t: Text, n: nat): Text
  {
    if n < |t| then t[..n] else t
  }

  /** `slice(-n)`; `slice(-0)` is the whole text. */
  function Back(t: Text, n: nat): Text
  {
    if 0 < n < |t| then t[|t| - n..] else t
  }

  /** Around the marker: a start of the value and, for a tail key, as much of its end. */
  function Shorten(t: Text, marker: Text, available: nat, tailed: bool): Text
  {
    if tailed then
      var head := Min(16 * 1024, available / 2);
      Front(t, head) + marker + Back(t, available - head)
    else Front(t, available) + marker
  }

  function BoundString(t: Text, o: Options, remaining: int, key: Option<Text>): Text
  {
    if |t| <= o.maxStringChars then t
    else if IsBinary(t, key) then BINARY_MARKER
    else Shorten(t, MARKER, Max(0, Cap(o, remaining) - |MARKER|), KeepsTail(key))
  }

  /** A true start of the value, the marker, a true end of the value. */
  predicate Shows(r: Text, t: Text, marker: Text, head: nat, tail: nat)
  {
    head <= |t| && tail <= |t| && r == t[..head] + marker + t[|t| - tail..]
  }

  /** A shortened string shows a true start of the value and, for the tail keys only, a true end. */
  lemma ShortenedShowsTheValue(t: Text, marker: Text, available: nat, tailed: bool)
    ensures exists head: nat, tail: nat ::
      Shows(Shorten(t, marker, available, tailed), t, marker, head, tail) && (!tailed ==> tail == 0)
  {
    var r := Shorten(t, marker, available, tailed);
    var front := Front(t, if tailed then Min(16 * 1024, available / 2) else available);
    var back := if tailed then Back(t, available - Min(16 * 1024, available / 2)) else [];
    assert r == front + marker + back;
    assert front == t[..|front|] && back == t[|t| - |back|..];
    assert Shows(r, t, marker, |front|, |back|);
  }

  /**
   A string over the limit fills the cap exactly when the marker leaves room. When
   it does not, the marker stands alone, except that a tail key keeps the whole
   value behind it.
   */
  lemma ShortenedLength(t: Text, o: Options, remaining: int, key: Option<Text>)
    requires |t| > o.maxStringChars && !IsBinary(t, key)
    ensures Cap(o, remaining) > |MARKER| ==> |BoundString(t, o, remaining, key)| == Cap(o, remaining)
    ensures Cap(o, remaining) <= |MARKER| ==>
      BoundString(t, o, remaining, key) == if KeepsTail(key) then MARKER + t else MARKER
  {
    var available := Max(0, Cap(o, remaining) - |MARKER|);
    if Cap(o, remaining) > |MARKER| {
      ShortenFills(t, MARKER, available, KeepsTail(key));
    } else {
      assert Front(t, 0) == [] && Back(t, 0) == t;
    }
  }

  lemma ShortenFills(t: Text, marker: Text, available: nat, tailed: bool)
    requires 0 < available < |t|
    ensures |Shorten(t, marker, available, tailed)| == available + |marker|
  {
    assert available / 2 < available;
  }

  /**
   So it keeps within the cap, or within the marker alone, exactly when it is not
   a tail key met with no character to spare.
   */
  lemma ShortenedExactly(t: Text, o: Options, remaining: int, key: Option<Text>)
    requires |t| > o.maxStringChars && !IsBinary(t, key)
    ensures |BoundString(t, o, remaining, key)| <= Max(Cap(o, remaining), |MARKER|)
      <==> !(KeepsTail(key) && Cap(o, remaining) <= |MARKER|)
  {
    ShortenedLength(t, o, remaining, key);
  }

  // ----- objects

  /** An object under construction; assigning `__proto__` makes no own key. */
  datatype Fields = Fields(keys: seq<Text>, fields: map<Text, Json>)
  {
    function Put(key: Text, v: Json): Fields
    {
      if key == PROTO_KEY then this
      else Fields(if key in fields then keys else keys + [key], fields[key := v])
    }

    function Size(): nat
    {
      |keys|
    }
  }

  function IndexIn(list: seq<Text>, key: Text): (i: nat)
    ensures i <= |list|
  {
    if list == [] || list[0] == key then 0 else 1 + IndexIn(list[1..], key)
  }

  /** The keys at one place in `list`; the rank of a key not in it is `|list|`. */
  function WithRank(keys: seq<Text>, list: seq<Text>, rank: nat): seq<Text>
  {
    if keys == [] then []
    else (if IndexIn(list, keys[0]) == rank then [keys[0]] else []) + WithRank(keys[1..], list, rank)
  }

  /** The stable sort by rank, from `rank` on. */
  function FromRank(keys: seq<Text>, list: seq<Text>, rank: nat): seq<Text>
    decreases |list| + 1 - rank
  {
    if rank > |list| then [] else WithRank(keys, list, rank) + FromRank(keys, list, rank + 1)
  }

  function PrioritizedKeys(keys: seq<Text>, preferred: seq<Text>, parent: Option<Text>): seq<Text>
  {
    if parent == Some(Units("_meta")) then FromRank(keys, preferred, 0) else keys
  }

  // ----- the value

  datatype Bounded = Bounded(value: Json, left: Budget)

  function BoundValue(v: Json, o: Options, budget: Budget, depth: nat, key: Option<Text>): Bounded
    requires Valid(v)
    decreases v, 1, 0
  {
    var b := budget.(nodes := budget.nodes + 1);
    if b.nodes > MAX_BOUND_NODES || b.remaining <= 0 then Bounded(Str(MARKER), b)
    else if v.Str? then
      var r := BoundString(v.s, o, b.remaining, key);
      Bounded(Str(r), Spend(b, |r|))
    else if v.Arr? || v.Obj? then
      if depth >= o.maxDepth then Bounded(Str(MARKER), Spend(b, |MARKER|))
      else if v.Arr? then BoundArray(v, o, b, depth)
      else BoundObject(v, o, b, depth, key)
    else Bounded(v, Spend(b, 16))
  }

  function BoundArray(v: Json, o: Options, b: Budget, depth: nat): Bounded
    requires v.Arr? && Valid(v)
    decreases v, 0, |v.items| + 1
  {
    var r := BoundItems(v, 0, [], o, b, depth);
    Bounded(Arr(CloseItems(r.0, |v.items|, r.1)), Spend(r.1, 2))
  }

  function BoundObject(v: Json, o: Options, b: Budget, depth: nat, key: Option<Text>): Bounded
    requires v.Obj? && Valid(v)
    decreases v, 0, |v.keys| + 1
  {
    Prioritizes(v.keys, o.preferred, key);
    var r := BoundFields(v, PrioritizedKeys(v.keys, o.preferred, key), 0, Fields([], map[]), o, b, depth);
    CloseObject(r.0, |v.keys|, r.1)
  }

  function CloseObject(done: Fields, total: nat, b: Budget): Bounded
  {
    var closed := CloseFields(done, total, b);
    Bounded(Obj(closed.keys, closed.fields), Spend(b, 2))
  }

  function BoundItems(v: Json, i: nat, done: seq<Json>, o: Options, b: Budget, depth: nat): (seq<Json>, Budget)
    requires v.Arr? && Valid(v) && i <= |v.items|
    decreases v, 0, |v.items| - i
  {
    if i == |v.items| || i >= o.maxArrayItems then (done, b)
    else
      var r := BoundValue(v.items[i], o, b, depth + 1, Some(Units("[]")));
      if r.left.remaining <= 0 then (done + [r.value], r.left)
      else BoundItems(v, i + 1, done + [r.value], o, r.left, depth)
  }

  function CloseItems(done: seq<Json>, total: nat, b: Budget): seq<Json>
  {
    if total > |done| && b.remaining > 0 then done + [Str(MARKER)] else done
  }

  function BoundFields(
    v: Json, keys: seq<Text>, i: nat, done: Fields, o: Options, b: Budget, depth: nat): (Fields, Budget)
    requires v.Obj? && Valid(v) && i <= |keys| && forall k :: k in keys ==> k in v.fields
    decreases v, 0, |keys| - i
  {
    if i == |keys| || i >= o.maxObjectKeys || b.remaining <= 0 then (done, b)
    else
      var r := BoundValue(v.fields[keys[i]], o, b, depth + 1, Some(keys[i]));
      BoundFields(v, keys, i + 1, done.Put(keys[i], r.value), o, r.left, depth)
  }

  function CloseFields(done: Fields, total: nat, b: Budget): Fields
  {
    if total > done.Size() && b.remaining > 0 then done.Put(TRUNCATED_KEY, Bool(true)) else done
  }

  // ----- prioritizing keeps every key once

  function Sum(keys: seq<Text>, weights: map<Text, nat>): nat
    requires forall k :: k in keys ==> k in weights
  {
    if keys == [] then 0 else weights[keys[0]] + Sum(keys[1..], weights)
  }

  lemma {:induction false} SumAppends(a: seq<Text>, b: seq<Text>, weights: map<Text, nat>)
    requires forall k :: k in a + b ==> k in weights
    ensures forall k :: k in a || k in b ==> k in weights
    ensures Sum(a + b, weights) == Sum(a, weights) + Sum(b, weights)
  {
    assert forall k :: k in a || k in b ==> k in a + b;
    if a == [] {
      assert a + b == b;
    } else {
      assert (a + b)[1..] == a[1..] + b;
      SumAppends(a[1..], b, weights);
    }
  }

  /** The keys ranked `rank` or later, in their own order. */
  function NotBefore(keys: seq<Text>, list: seq<Text>, rank: nat): seq<Text>
  {
    if keys == [] then []
    else (if IndexIn(list, keys[0]) >= rank then [keys[0]] else []) + NotBefore(keys[1..], list, rank)
  }

  lemma {:induction false} NotBeforeSplits(keys: seq<Text>, list: seq<Text>, rank: nat)
    ensures multiset(NotBefore(keys, list, rank))
         == multiset(WithRank(keys, list, rank)) + multiset(NotBefore(keys, list, rank + 1))
  {
    if keys != [] {
      NotBeforeSplits(keys[1..], list, rank);
    }
  }

  lemma {:induction false} NotBeforeEnds(keys: seq<Text>, list: seq<Text>, rank: nat)
    ensures rank > |list| ==> NotBefore(keys, list, rank) == []
    ensures rank == 0 ==> NotBefore(keys, list, rank) == keys
  {
    if keys != [] {
      NotBeforeEnds(keys[1..], list, rank);
      assert keys == [keys[0]] + keys[1..];
    }
  }

  lemma {:induction false} FromRankPermutes(keys: seq<Text>, list: seq<Text>, rank: nat)
    ensures multiset(FromRank(keys, list, rank)) == multiset(NotBefore(keys, list, rank))
    decreases |list| + 1 - rank
  {
    if rank > |list| {
      NotBeforeEnds(keys, list, rank);
    } else {
      FromRankPermutes(keys, list, rank + 1);
      NotBeforeSplits(keys, list, rank);
    }
  }

  /** The prioritized keys are the keys, rearranged. */
  lemma Prioritizes(keys: seq<Text>, preferred: seq<Text>, parent: Option<Text>)
    ensures multiset(PrioritizedKeys(keys, preferred, parent)) == multiset(keys)
    ensures forall k :: k in PrioritizedKeys(keys, preferred, parent) <==> k in keys
    ensures |PrioritizedKeys(keys, preferred, parent)| == |keys|
  {
    FromRankPermutes(keys, preferred, 0);
    NotBeforeEnds(keys, preferred, 0);
    SameElements(PrioritizedKeys(keys, preferred, parent), keys);
  }

  lemma SameElements(a: seq<Text>, b: seq<Text>)
    requires multiset(a) == multiset(b)
    ensures |a| == |b| && forall k :: k in a <==> k in b
  {
    assert |a| == |multiset(a)| && |b| == |multiset(b)|;
    assert forall k :: k in a <==> k in multiset(a);
    assert forall k :: k in b <==> k in multiset(b);
  }

  lemma {:induction false} WithRankTwice(keys: seq<Text>, list: seq<Text>, rank: nat, again: nat)
    ensures WithRank(WithRank(keys, list, rank), list, again) == if rank == again then WithRank(keys, list, rank) else []
  {
    if keys != [] {
      WithRankTwice(keys[1..], list, rank, again);
      var rest := WithRank(keys[1..], list, rank);
      assert ([keys[0]] + rest)[1..] == rest && [] + rest == rest;
    }
  }

  lemma {:induction false} WithRankAppends(a: seq<Text>, b: seq<Text>, list: seq<Text>, rank: nat)
    ensures WithRank(a + b, list, rank) == WithRank(a, list, rank) + WithRank(b, list, rank)
  {
    if a == [] {
      assert a + b == b;
    } else {
      assert (a + b)[1..] == a[1..] + b;
      WithRankAppends(a[1..], b, list, rank);
    }
  }

  lemma {:induction false} WithRankRanks(keys: seq<Text>, list: seq<Text>, rank: nat)
    ensures forall i :: 0 <= i < |WithRank(keys, list, rank)| ==> IndexIn(list, WithRank(keys, list, rank)[i]) == rank
  {
    if keys != [] {
      WithRankRanks(keys[1..], list, rank);
    }
  }

  predicate Ranked(keys: seq<Text>, list: seq<Text>)
  {
    forall i, j :: 0 <= i < j < |keys| ==> IndexIn(list, keys[i]) <= IndexIn(list, keys[j])
  }

  predicate RankedFrom(keys: seq<Text>, list: seq<Text>, rank: nat)
  {
    forall i :: 0 <= i < |keys| ==> IndexIn(list, keys[i]) >= rank
  }

  lemma RankedAppends(first: seq<Text>, rest: seq<Text>, list: seq<Text>, rank: nat)
    requires forall i :: 0 <= i < |first| ==> IndexIn(list, first[i]) == rank
    requires Ranked(rest, list) && RankedFrom(rest, list, rank)
    ensures Ranked(first + rest, list) && RankedFrom(first + rest, list, rank)
  {}

  lemma {:induction false} SortsByRank(keys: seq<Text>, list: seq<Text>, rank: nat)
    ensures Ranked(FromRank(keys, list, rank), list) && RankedFrom(FromRank(keys, list, rank), list, rank)
    decreases |list| + 1 - rank
  {
    if rank <= |list| {
      SortsByRank(keys, list, rank + 1);
      WithRankRanks(keys, list, rank);
      RankedAppends(WithRank(keys, list, rank), FromRank(keys, list, rank + 1), list, rank);
    }
  }

  lemma {:induction false} SortsStably(keys: seq<Text>, list: seq<Text>, rank: nat, kept: nat)
    requires kept <= |list|
    ensures WithRank(FromRank(keys, list, rank), list, kept) == if kept < rank then [] else WithRank(keys, list, kept)
    decreases |list| + 1 - rank
  {
    if rank <= |list| {
      var first, rest := WithRank(keys, list, rank), FromRank(keys, list, rank + 1);
      SortsStably(keys, list, rank + 1, kept);
      WithRankTwice(keys, list, rank, kept);
      WithRankAppends(first, rest, list, kept);
      assert FromRank(keys, list, rank) == first + rest;
      assert WithRank(first, list, kept) == if kept == rank then first else [];
    }
  }

  /** Under `_meta` the preferred keys come first, in their order of preference, and the others keep theirs. */
  lemma MetaKeysSorted(keys: seq<Text>, preferred: seq<Text>, kept: nat)
    requires kept <= |preferred|
    ensures var sorted := PrioritizedKeys(keys, preferred, Some(Units("_meta")));
      Ranked(sorted, preferred) && WithRank(sorted, preferred, kept) == WithRank(keys, preferred, kept)
  {
    SortsByRank(keys, preferred, 0);
    SortsStably(keys, preferred, 0, kept);
  }
}
