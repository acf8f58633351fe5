/** The order in which Bot gates nest: default string order, unit by unit. */
module LexOrder {

  predicate Less(a: string, b: string)
  {
    b != [] && (a == [] || a[0] < b[0] || (a[0] == b[0] && Less(a[1..], b[1..])))
  }

  lemma {:induction false} Irreflexive(a: string)
    ensures !Less(a, a)
  {
    if a != [] {
      Irreflexive(a[1..]);
    }
  }

  lemma {:induction false} Transitive(a: string, b: string, c: string)
    requires Less(a, b) && Less(b, c)
    ensures Less(a, c)
  {
    if a != [] && a[0] == b[0] && b[0] == c[0] {
      Transitive(a[1..], b[1..], c[1..]);
    }
  }

  lemma {:induction false} Total(a: string, b: string)
    ensures Less(a, b) || a == b || Less(b, a)
  {
    if a != [] && b != [] && a[0] == b[0] {
      Total(a[1..], b[1..]);
      assert a == [a[0]] + a[1..] && b == [b[0]] + b[1..];
    }
  }

  /** Strictly ascending, so also free of duplicates. */
  ghost predicate Ascending(s: seq<string>)
  {
    forall i, j :: 0 <= i < j < |s| ==> Less(s[i], s[j])
  }

  lemma AscendingDistinct(s: seq<string>, i: nat, j: nat)
    requires Ascending(s) && i < |s| && j < |s| && s[i] == s[j]
    ensures i == j
  {
    Irreflexive(s[i]);
  }

  /** One insertion that keeps a strictly ascending list and drops a repeat. */
  function Insert(x: string, s: seq<string>): (r: seq<string>)
    requires Ascending(s)
    ensures Ascending(r)
    ensures forall y :: y in r <==> y == x || y in s
  {
    if s == [] then [x]
    else if Less(x, s[0]) then
      assert Ascending([x] + s) by {
        forall j | 0 < j < |s| ensures Less(x, s[j]) {
          Transitive(x, s[0], s[j]);
        }
      }
      [x] + s
    else if x == s[0] then s
    else
      Total(x, s[0]);
      var t := Insert(x, s[1..]);
      assert forall y :: y in s <==> y == s[0] || y in s[1..];
      assert Ascending([s[0]] + t) by {
        forall j | 0 <= j < |t| ensures Less(s[0], t[j]) {
          assert t[j] in t;
        }
      }
      [s[0]] + t
  }

  /** Deduplicate and sort. */
  function Sorted(s: seq<string>): (r: seq<string>)
    ensures Ascending(r)
    ensures forall y :: y in r <==> y in s
  {
    if s == [] then []
    else
      assert forall y :: y in s <==> y == s[0] || y in s[1..];
      Insert(s[0], Sorted(s[1..]))
  }
}
