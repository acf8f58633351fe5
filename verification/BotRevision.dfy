/**
 The preview token of a removal (bots/bot-removal.ts, `botRemovalRevision`):
 facts in a canonical order, hashed. `collate` stands for the order of
 `localeCompare` on conversation ids and `hash` for the hash of the printed form.
 */
module BotRevision {
  import opened Common
  import opened LexOrder

  datatype Group = Group(conversationId: string, memberCount: nat, botIds: seq<string>)

  datatype History = History(directMessages: nat, directRuns: nat, groupMessages: nat, groupRuns: nat)

  datatype Facts = Facts(
    directTopicIds: seq<string>, activeRunIds: seq<string>, queuedRunIds: seq<string>,
    indeterminateRunIds: seq<string>, abandonableRunIds: seq<string>, memberUnsettledRunIds: seq<string>,
    groups: seq<Group>, memberRuntimeKeys: seq<string>, worktreeKeys: seq<string>, bindingKeys: seq<string>,
    history: History)

  // ----- sorting by a key

  predicate AscendingBy<T>(s: seq<T>, key: T -> string)
  {
    forall i, j :: 0 <= i < j < |s| ==> !Less(key(s[j]), key(s[i]))
  }

  /** After the elements that are not greater. */
  function InsertBy<T>(x: T, s: seq<T>, key: T -> string): seq<T>
  {
    if s == [] || Less(key(x), key(s[0])) then [x] + s else [s[0]] + InsertBy(x, s[1..], key)
  }

  /** The stable sort: each element goes in after its equals. */
  function SortBy<T>(s: seq<T>, key: T -> string): seq<T>
  {
    if s == [] then [] else InsertBy(s[|s| - 1], SortBy(s[..|s| - 1], key), key)
  }

  lemma {:induction false} InsertKeeps<T>(x: T, s: seq<T>, key: T -> string)
    requires AscendingBy(s, key)
    ensures AscendingBy(InsertBy(x, s, key), key)
    ensures multiset(InsertBy(x, s, key)) == multiset(s) + multiset{x}
  {
    if s != [] && !Less(key(x), key(s[0])) {
      InsertKeeps(x, s[1..], key);
      var rest := InsertBy(x, s[1..], key);
      assert s == [s[0]] + s[1..];
      HeadStays(x, s, rest, key);
    } else if s != [] {
      GoesFirst(x, s, key);
    }
  }

  lemma HeadStays<T>(x: T, s: seq<T>, rest: seq<T>, key: T -> string)
    requires s != [] && AscendingBy(s, key) && AscendingBy(rest, key) && !Less(key(x), key(s[0]))
    requires multiset(rest) == multiset(s[1..]) + multiset{x}
    ensures AscendingBy([s[0]] + rest, key)
  {
    forall i | 0 <= i < |rest| ensures !Less(key(rest[i]), key(s[0])) {
      assert rest[i] in multiset(rest);
      if rest[i] != x {
        assert rest[i] in s[1..];
      }
    }
  }

  lemma GoesFirst<T>(x: T, s: seq<T>, key: T -> string)
    requires s != [] && AscendingBy(s, key) && Less(key(x), key(s[0]))
    ensures AscendingBy([x] + s, key)
  {
    forall j | 0 <= j < |s| ensures !Less(key(s[j]), key(x)) {
      if Less(key(s[j]), key(x)) {
        Irreflexive(key(s[0]));
        Transitive(key(s[j]), key(x), key(s[0]));
        assert false;
      }
    }
  }

  lemma {:induction false} SortKeeps<T>(s: seq<T>, key: T -> string)
    ensures AscendingBy(SortBy(s, key), key)
    ensures multiset(SortBy(s, key)) == multiset(s)
  {
    if s != [] {
      SortKeeps(s[..|s| - 1], key);
      InsertKeeps(s[|s| - 1], SortBy(s[..|s| - 1], key), key);
      LastJoins(s);
    }
  }

  lemma LastJoins<T>(s: seq<T>)
    requires s != []
    ensures multiset(s) == multiset(s[..|s| - 1]) + multiset{s[|s| - 1]}
  {
    assert s == s[..|s| - 1] + [s[|s| - 1]];
  }

  /** Elements with one key are one element. */
  ghost predicate KeyTells<T(!new)>(s: seq<T>, key: T -> string)
  {
    forall x, y :: x in s && y in s && key(x) == key(y) ==> x == y
  }

  /** Two ascending arrangements of the same elements are the same list. */
  lemma {:induction false} AscendingIsUnique<T(!new)>(a: seq<T>, b: seq<T>, key: T -> string)
    requires AscendingBy(a, key) && AscendingBy(b, key) && multiset(a) == multiset(b) && KeyTells(a, key)
    ensures a == b
  {
    assert |a| == |multiset(a)| == |multiset(b)| == |b|;
    if a != [] {
      HeadsAlike(a, b, key);
      TailsAlike(a, b);
      assert forall x :: x in a[1..] ==> x in a;
      AscendingIsUnique(a[1..], b[1..], key);
      assert a == [a[0]] + a[1..] && b == [b[0]] + b[1..];
    }
  }

  lemma HeadsAlike<T(!new)>(a: seq<T>, b: seq<T>, key: T -> string)
    requires AscendingBy(a, key) && AscendingBy(b, key) && multiset(a) == multiset(b) && KeyTells(a, key)
    requires a != [] && b != []
    ensures a[0] == b[0]
  {
    SameHead(a, b, key);
    SameHead(b, a, key);
    Total(key(a[0]), key(b[0]));
    assert b[0] in multiset(a);
  }

  lemma TailsAlike<T>(a: seq<T>, b: seq<T>)
    requires a != [] && b != [] && multiset(a) == multiset(b) && a[0] == b[0]
    ensures multiset(a[1..]) == multiset(b[1..])
  {
    assert a == [a[0]] + a[1..] && b == [b[0]] + b[1..];
    assert multiset(a[1..]) == multiset(a) - multiset{a[0]} == multiset(b[1..]);
  }

  lemma SameHead<T>(a: seq<T>, b: seq<T>, key: T -> string)
    requires AscendingBy(b, key) && multiset(a) == multiset(b) && a != [] && b != []
    ensures !Less(key(a[0]), key(b[0]))
  {
    assert a[0] in multiset(b);
    var i :| 0 <= i < |b| && b[i] == a[0];
    Irreflexive(key(a[0]));
  }

  /** Sorted forms agree exactly for lists with the same elements, repetitions counted. */
  lemma SortsAlikeExactly<T(!new)>(a: seq<T>, b: seq<T>, key: T -> string)
    requires KeyTells(a, key)
    ensures SortBy(a, key) == SortBy(b, key) <==> multiset(a) == multiset(b)
  {
    SortKeeps(a, key);
    SortKeeps(b, key);
    if multiset(a) == multiset(b) {
      forall x, y | x in SortBy(a, key) && y in SortBy(a, key) && key(x) == key(y) ensures x == y {
        assert x in multiset(SortBy(a, key)) && y in multiset(SortBy(a, key));
        assert x in a && y in a;
      }
      AscendingIsUnique(SortBy(a, key), SortBy(b, key), key);
    }
  }

  // ----- the revision

  function Sorted(ids: seq<string>): seq<string>
  {
    SortBy(ids, (s: string) => s)
  }

  function CanonicalGroup(g: Group): Group
  {
    g.(botIds := Sorted(g.botIds))
  }

  function Map<X, Y>(s: seq<X>, f: X -> Y): (r: seq<Y>)
    ensures |r| == |s| && forall i :: 0 <= i < |s| ==> r[i] == f(s[i])
  {
    seq(|s|, i requires 0 <= i < |s| => f(s[i]))
  }

  function CanonicalGroups(groups: seq<Group>): seq<Group>
  {
    Map(groups, CanonicalGroup)
  }

  /** A Group with its members in no order. */
  datatype Bag = Bag(conversationId: string, memberCount: nat, botIds: multiset<string>)

  function BagOf(g: Group): Bag
  {
    Bag(g.conversationId, g.memberCount, multiset(g.botIds))
  }

  function Canonical(f: Facts, collate: string -> string): Facts
  {
    Facts(Sorted(f.directTopicIds), Sorted(f.activeRunIds), Sorted(f.queuedRunIds), Sorted(f.indeterminateRunIds),
          Sorted(f.abandonableRunIds), Sorted(f.memberUnsettledRunIds),
          SortBy(CanonicalGroups(f.groups), (g: Group) => collate(g.conversationId)),
          Sorted(f.memberRuntimeKeys), Sorted(f.worktreeKeys), Sorted(f.bindingKeys), f.history)
  }

  /** The same facts, whatever the order in which they were listed. */
  ghost predicate SameFacts(a: Facts, b: Facts)
  {
    && multiset(a.directTopicIds) == multiset(b.directTopicIds)
    && multiset(a.activeRunIds) == multiset(b.activeRunIds)
    && multiset(a.queuedRunIds) == multiset(b.queuedRunIds)
    && multiset(a.indeterminateRunIds) == multiset(b.indeterminateRunIds)
    && multiset(a.abandonableRunIds) == multiset(b.abandonableRunIds)
    && multiset(a.memberUnsettledRunIds) == multiset(b.memberUnsettledRunIds)
    && multiset(Map(a.groups, BagOf)) == multiset(Map(b.groups, BagOf))
    && multiset(a.memberRuntimeKeys) == multiset(b.memberRuntimeKeys)
    && multiset(a.worktreeKeys) == multiset(b.worktreeKeys)
    && multiset(a.bindingKeys) == multiset(b.bindingKeys)
    && a.history == b.history
  }

  /** A Group is listed once, and no two of them collate alike. */
  ghost predicate GroupsApart(groups: seq<Group>, collate: string -> string)
  {
    forall i, j :: 0 <= i < j < |groups| ==> collate(groups[i].conversationId) != collate(groups[j].conversationId)
  }

  lemma SortedAlikeExactly(a: seq<string>, b: seq<string>)
    ensures Sorted(a) == Sorted(b) <==> multiset(a) == multiset(b)
  {
    SortsAlikeExactly(a, b, (s: string) => s);
  }

  /** Lists alike under one view are alike under any view that the first decides. */
  lemma {:induction false} MapsAlike<X(!new), F(!new), G>(a: seq<X>, b: seq<X>, f: X -> F, g: X -> G)
    requires forall x, y :: f(x) == f(y) ==> g(x) == g(y)
    requires multiset(Map(a, f)) == multiset(Map(b, f))
    ensures multiset(Map(a, g)) == multiset(Map(b, g))
  {
    var fa, fb := Map(a, f), Map(b, f);
    assert |multiset(fa)| == |a| && |multiset(fb)| == |b|;
    if a != [] {
      assert fa[0] in multiset(fb);
      var j :| 0 <= j < |b| && fb[j] == fa[0];
      PairOff(a, b, j, f);
      MapsAlike(a[1..], Without(b, j), f, g);
      PairOn(a, b, j, g);
    }
  }

  function Without<X>(s: seq<X>, j: nat): (r: seq<X>)
    requires j < |s|
    ensures |r| == |s| - 1
  {
    s[..j] + s[j + 1..]
  }

  lemma PairOff<X, F(!new)>(a: seq<X>, b: seq<X>, j: nat, f: X -> F)
    requires a != [] && j < |b| && f(b[j]) == f(a[0]) && multiset(Map(a, f)) == multiset(Map(b, f))
    ensures multiset(Map(a[1..], f)) == multiset(Map(Without(b, j), f))
  {
    MapWithout(a, 0, f);
    assert Without(a, 0) == a[1..];
    MapWithout(b, j, f);
    Cancel(multiset(Map(a[1..], f)), multiset(Map(Without(b, j), f)), f(a[0]));
  }

  lemma PairOn<X, F>(a: seq<X>, b: seq<X>, j: nat, f: X -> F)
    requires a != [] && j < |b| && f(b[j]) == f(a[0]) && multiset(Map(a[1..], f)) == multiset(Map(Without(b, j), f))
    ensures multiset(Map(a, f)) == multiset(Map(b, f))
  {
    MapWithout(a, 0, f);
    assert Without(a, 0) == a[1..];
    MapWithout(b, j, f);
  }

  lemma MapWithout<X, F>(s: seq<X>, j: nat, f: X -> F)
    requires j < |s|
    ensures multiset(Map(s, f)) == multiset(Map(Without(s, j), f)) + multiset{f(s[j])}
  {
    assert Map(s, f) == Map(s[..j], f) + [f(s[j])] + Map(s[j + 1..], f);
    assert Map(Without(s, j), f) == Map(s[..j], f) + Map(s[j + 1..], f);
  }

  lemma CanonicalTellsBags(x: Group, y: Group)
    ensures CanonicalGroup(x) == CanonicalGroup(y) <==> BagOf(x) == BagOf(y)
  {
    SortedAlikeExactly(x.botIds, y.botIds);
  }

  lemma GroupsAlikeExactly(a: seq<Group>, b: seq<Group>, collate: string -> string)
    requires GroupsApart(a, collate)
    ensures var key := (g: Group) => collate(g.conversationId);
      (SortBy(CanonicalGroups(a), key) == SortBy(CanonicalGroups(b), key)) <==>
      (multiset(Map(a, BagOf)) == multiset(Map(b, BagOf)))
  {
    var key := (g: Group) => collate(g.conversationId);
    KeysTellGroups(a, collate);
    SortsAlikeExactly(CanonicalGroups(a), CanonicalGroups(b), key);
    BagsAlikeExactly(a, b);
  }

  lemma KeysTellGroups(a: seq<Group>, collate: string -> string)
    requires GroupsApart(a, collate)
    ensures KeyTells(CanonicalGroups(a), (g: Group) => collate(g.conversationId))
  {
    var groups := CanonicalGroups(a);
    forall x, y | x in groups && y in groups && collate(x.conversationId) == collate(y.conversationId) ensures x == y {
      var i :| 0 <= i < |groups| && groups[i] == x;
      var j :| 0 <= j < |groups| && groups[j] == y;
      assert collate(a[i].conversationId) == collate(a[j].conversationId);
    }
  }

  lemma BagsAlikeExactly(a: seq<Group>, b: seq<Group>)
    ensures multiset(CanonicalGroups(a)) == multiset(CanonicalGroups(b))
      <==> multiset(Map(a, BagOf)) == multiset(Map(b, BagOf))
  {
    forall x, y ensures CanonicalGroup(x) == CanonicalGroup(y) <==> BagOf(x) == BagOf(y) {
      CanonicalTellsBags(x, y);
    }
    if multiset(CanonicalGroups(a)) == multiset(CanonicalGroups(b)) {
      MapsAlike(a, b, CanonicalGroup, BagOf);
    }
    if multiset(Map(a, BagOf)) == multiset(Map(b, BagOf)) {
      MapsAlike(a, b, BagOf, CanonicalGroup);
    }
  }

  /** Two removals preview under one token exactly when they face the same facts, in whatever order these were read. */
  lemma RevisionExactly(a: Facts, b: Facts, collate: string -> string, hash: Facts -> string)
    requires forall x, y :: hash(x) == hash(y) ==> x == y
    requires GroupsApart(a.groups, collate)
    ensures hash(Canonical(a, collate)) == hash(Canonical(b, collate)) <==> SameFacts(a, b)
  {
    SortedAlikeExactly(a.directTopicIds, b.directTopicIds);
    SortedAlikeExactly(a.activeRunIds, b.activeRunIds);
    SortedAlikeExactly(a.queuedRunIds, b.queuedRunIds);
    SortedAlikeExactly(a.indeterminateRunIds, b.indeterminateRunIds);
    SortedAlikeExactly(a.abandonableRunIds, b.abandonableRunIds);
    SortedAlikeExactly(a.memberUnsettledRunIds, b.memberUnsettledRunIds);
    SortedAlikeExactly(a.memberRuntimeKeys, b.memberRuntimeKeys);
    SortedAlikeExactly(a.worktreeKeys, b.worktreeKeys);
    SortedAlikeExactly(a.bindingKeys, b.bindingKeys);
    GroupsAlikeExactly(a.groups, b.groups, collate);
  }
}
