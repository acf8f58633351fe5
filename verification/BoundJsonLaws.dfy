/**
 What bounding does to a message: the budgeted method computes `BoundValue`; a
 value within the limits comes back as it was for exactly its cost; and every
 result is the input cut down, never deeper or wider than the options allow.
 */
module BoundJsonLaws {
  import opened Common
  import opened Utf16
  import opened BoundJson

  // ----- the method and its shared budget (`BoundContext`)

  class BoundContext {
    var remaining: int
    var nodes: nat
    const options: Options

    constructor (options: Options, safeLimit: nat)
      ensures this.options == options && Left() == CreateBudget(safeLimit)
    {
      this.options := options;
      var b := CreateBudget(safeLimit);
      remaining, nodes := b.remaining, b.nodes;
    }

    function Left(): Budget
      reads this
    {
      Budget(remaining, nodes)
    }

    method BoundString(value: Text, key: Option<Text>) returns (r: Text)
      modifies this
      ensures r == BoundJson.BoundString(value, options, old(remaining), key)
      ensures Left() == Spend(old(Left()), |r|)
    {
      if |value| <= options.maxStringChars {
        remaining := remaining - |value|;
        return value;
      }
      if IsBinary(value, key) {
        remaining := remaining - |BINARY_MARKER|;
        return BINARY_MARKER;
      }
      var cap := Cap(options, remaining);
      r := ShortenString(value, Max(0, cap - |MARKER|), KeepsTail(key));
      remaining := remaining - |r|;
    }

    static method ShortenString(value: Text, available: nat, tailed: bool) returns (r: Text)
      ensures r == Shorten(value, MARKER, available, tailed)
    {
      if tailed {
        var head := Min(16 * 1024, available / 2);
        r := Front(value, head) + MARKER + Back(value, Max(0, available - head));
      } else {
        r := Front(value, available) + MARKER;
      }
    }

    method BoundJsonValue(v: Json, depth: nat, key: Option<Text>) returns (r: Json)
      requires Valid(v)
      modifies this
      ensures Bounded(r, Left()) == BoundValue(v, options, old(Left()), depth, key)
      decreases v, 1
    {
      nodes := nodes + 1;
      if nodes > MAX_BOUND_NODES || remaining <= 0 {
        return Str(MARKER);
      }
      if v.Null? || v.Number? || v.Bool? {
        remaining := remaining - 16;
        return v;
      }
      if v.Str? {
        var t := BoundString(v.s, key);
        return Str(t);
      }
      if depth >= options.maxDepth {
        remaining := remaining - |MARKER|;
        return Str(MARKER);
      }
      if v.Arr? {
        r := BoundJsonArray(v, depth);
      } else {
        r := BoundJsonObject(v, depth, key);
      }
    }

    method BoundJsonArray(v: Json, depth: nat) returns (r: Json)
      requires v.Arr? && Valid(v)
      modifies this
      ensures Bounded(r, Left()) == BoundArray(v, options, old(Left()), depth)
      decreases v, 0
    {
      ghost var whole := BoundItems(v, 0, [], options, Left(), depth);
      var result: seq<Json> := [];
      var i := 0;
      while i < |v.items| && i < options.maxArrayItems
        invariant i <= |v.items|
        invariant BoundItems(v, i, result, options, Left(), depth) == whole
      {
        var item := BoundJsonValue(v.items[i], depth + 1, Some(Units("[]")));
        result := result + [item];
        i := i + 1;
        if remaining <= 0 {
          break;
        }
      }
      assert whole == (result, Left());
      if |v.items| > |result| && remaining > 0 {
        result := result + [Str(MARKER)];
      }
      remaining := remaining - 2;
      return Arr(result);
    }

    method BoundJsonObject(v: Json, depth: nat, key: Option<Text>) returns (r: Json)
      requires v.Obj? && Valid(v)
      modifies this
      ensures Bounded(r, Left()) == BoundObject(v, options, old(Left()), depth, key)
      decreases v, 0, 1
    {
      Prioritizes(v.keys, options.preferred, key);
      var result := BoundJsonFields(v, PrioritizedKeys(v.keys, options.preferred, key), depth);
      if |v.keys| > result.Size() && remaining > 0 {
        result := result.Put(TRUNCATED_KEY, Bool(true));
      }
      remaining := remaining - 2;
      return Obj(result.keys, result.fields);
    }

    /** The loop over the keys. */
    method BoundJsonFields(v: Json, order: seq<Text>, depth: nat) returns (result: Fields)
      requires v.Obj? && Valid(v) && forall k :: k in order ==> k in v.fields
      modifies this
      ensures (result, Left()) == BoundFields(v, order, 0, Fields([], map[]), options, old(Left()), depth)
      decreases v, 0, 0
    {
      ghost var whole := BoundFields(v, order, 0, Fields([], map[]), options, Left(), depth);
      result := Fields([], map[]);
      var i := 0;
      while i < |order| && i < options.maxObjectKeys
        invariant i <= |order|
        invariant BoundFields(v, order, i, result, options, Left(), depth) == whole
      {
        if remaining <= 0 {
          break;
        }
        FieldsStep(v, order, i, result, options, Left(), depth);
        var field := BoundJsonValue(v.fields[order[i]], depth + 1, Some(order[i]));
        result := result.Put(order[i], field);
        i := i + 1;
      }
      FieldsEnd(v, order, i, result, options, Left(), depth);
    }
  }

  // ----- weighing a value

  /** What a value costs the budget, and how many nodes it visits. */
  datatype Gauge = Cost | Nodes

  function Own(v: Json, g: Gauge): nat
  {
    if g.Nodes? then 1
    else
      match v
      case Str(s) => |s|
      case Arr(_) | Obj(_, _) => 2
      case _ => 16
  }

  function Weigh(v: Json, g: Gauge): nat
    requires Valid(v)
    decreases v, 1, 0
  {
    Own(v, g) +
    match v
    case Arr(_) => WeighItems(v, 0, g)
    case Obj(keys, _) => Sum(keys, Weights(v, g))
    case _ => 0
  }

  function WeighItems(v: Json, i: nat, g: Gauge): nat
    requires v.Arr? && Valid(v) && i <= |v.items|
    decreases v, 0, |v.items| - i
  {
    if i == |v.items| then 0 else Weigh(v.items[i], g) + WeighItems(v, i + 1, g)
  }

  function Weights(v: Json, g: Gauge): map<Text, nat>
    requires v.Obj? && Valid(v)
    decreases v, 0, 0
  {
    map k | k in v.fields :: Weigh(v.fields[k], g)
  }

  // ----- sums do not depend on the order

  lemma MultisetWithout(b: seq<Text>, j: nat)
    requires j < |b|
    ensures multiset(b) == multiset(b[..j] + b[j + 1..]) + multiset{b[j]}
  {
    assert b == b[..j] + [b[j]] + b[j + 1..];
  }

  lemma SumWithout(b: seq<Text>, j: nat, weights: map<Text, nat>)
    requires j < |b| && forall k :: k in b ==> k in weights
    ensures forall k :: k in b[..j] + b[j + 1..] ==> k in weights
    ensures Sum(b, weights) == weights[b[j]] + Sum(b[..j] + b[j + 1..], weights)
  {
    var front, back := b[..j], b[j + 1..];
    assert b == front + ([b[j]] + back);
    SumAppends(front, [b[j]] + back, weights);
    assert ([b[j]] + back)[1..] == back;
    SumAppends(front, back, weights);
  }

  lemma {:induction false} SumPermutes(a: seq<Text>, b: seq<Text>, weights: map<Text, nat>)
    requires multiset(a) == multiset(b) && forall k :: k in a ==> k in weights
    ensures forall k :: k in b ==> k in weights
    ensures Sum(a, weights) == Sum(b, weights)
  {
    SameElements(a, b);
    if a != [] {
      assert a[0] in b;
      var j :| 0 <= j < |b| && b[j] == a[0];
      var rest := b[..j] + b[j + 1..];
      assert multiset(a[1..]) == multiset(rest) by {
        MultisetWithout(b, j);
        MultisetWithout(a, 0);
        assert a[..0] + a[0 + 1..] == a[1..];
        Cancel(multiset(a[1..]), multiset(rest), a[0]);
      }
      SumWithout(b, j, weights);
      SumPermutes(a[1..], rest, weights);
    }
  }

  lemma {:induction false} OnceEach(keys: seq<Text>, k: Text)
    requires Distinct(keys)
    ensures multiset(keys)[k] <= 1
  {
    if keys != [] {
      OnceEach(keys[1..], k);
      assert keys == [keys[0]] + keys[1..];
      if keys[0] == k {
        assert forall i :: 0 <= i < |keys[1..]| ==> keys[1..][i] != k;
        assert k !in keys[1..];
      }
    }
  }

  lemma DistinctPermutes(a: seq<Text>, b: seq<Text>)
    requires multiset(a) == multiset(b) && Distinct(a)
    ensures Distinct(b)
  {
    forall i, j | 0 <= i < j < |b| ensures b[i] != b[j] {
      if b[i] == b[j] {
        assert b == b[..j] + b[j..] && b[..j][i] == b[i] && b[j..][0] == b[j];
        assert multiset(b)[b[i]] == multiset(b[..j])[b[i]] + multiset(b[j..])[b[i]] >= 2;
        OnceEach(a, b[i]);
        assert false;
      }
    }
  }

  // ----- identity within the limits

  /** Equal, with objects as maps. */
  ghost predicate Same(a: Json, b: Json)
    decreases b
  {
    match b
    case Arr(items) =>
      a.Arr? && |a.items| == |items| && forall i :: 0 <= i < |items| ==> Same(a.items[i], items[i])
    case Obj(_, fields) =>
      && a.Obj?
      && (forall k :: k in a.fields <==> k in fields)
      && (forall k :: k in fields && k in a.fields ==> Same(a.fields[k], fields[k]))
    case _ => a == b
  }

  /** No object in the value has an own `__proto__`. */
  ghost predicate Plain(v: Json)
  {
    match v
    case Arr(items) => forall i :: 0 <= i < |items| ==> Plain(items[i])
    case Obj(_, fields) => PROTO_KEY !in fields && forall k :: k in fields ==> Plain(fields[k])
    case _ => true
  }

  /** `r` is `v` as it was exactly when `v` is plain. */
  ghost predicate KeptIfPlain(r: Json, v: Json)
  {
    Same(r, v) <==> Plain(v)
  }

  /** Within the depth left and the width and string limits. */
  ghost predicate Fits(v: Json, o: Options, levels: int)
    decreases v
  {
    match v
    case Str(s) => |s| <= o.maxStringChars
    case Arr(items) =>
      && levels > 0 && |items| <= o.maxArrayItems
      && forall i :: 0 <= i < |items| ==> Fits(items[i], o, levels - 1)
    case Obj(keys, fields) =>
      && levels > 0 && |keys| <= o.maxObjectKeys
      && forall k :: k in fields ==> Fits(fields[k], o, levels - 1)
    case _ => true
  }

  predicate Affords(b: Budget, cost: nat, nodes: nat)
  {
    cost < b.remaining && b.nodes + nodes <= MAX_BOUND_NODES
  }

  function After(b: Budget, cost: nat, nodes: nat): Budget
  {
    Budget(b.remaining - cost, b.nodes + nodes)
  }

  /**
   A value within every limit and cheaper than the budget costs exactly its
   weight, and comes back as it was exactly when no object in it has an own
   `__proto__`.
   */
  lemma {:induction false} KeptExactly(v: Json, o: Options, b: Budget, depth: nat, key: Option<Text>)
    requires Valid(v) && Fits(v, o, o.maxDepth - depth)
    requires Affords(b, Weigh(v, Cost), Weigh(v, Nodes))
    ensures BoundValue(v, o, b, depth, key).left == After(b, Weigh(v, Cost), Weigh(v, Nodes))
    ensures KeptIfPlain(BoundValue(v, o, b, depth, key).value, v)
    decreases v, 1, 0
  {
    if v.Arr? {
      ArrayKept(v, o, b.(nodes := b.nodes + 1), depth);
    } else if v.Obj? {
      ObjectValueKept(v, o, b, depth, key);
    }
  }

  lemma {:induction false} ObjectValueKept(v: Json, o: Options, b: Budget, depth: nat, key: Option<Text>)
    requires v.Obj? && Valid(v) && Fits(v, o, o.maxDepth - depth)
    requires Affords(b, Weigh(v, Cost), Weigh(v, Nodes))
    ensures BoundValue(v, o, b, depth, key).left == After(b, Weigh(v, Cost), Weigh(v, Nodes))
    ensures KeptIfPlain(BoundValue(v, o, b, depth, key).value, v)
    decreases v, 0, |v.keys| + 4
  {
    var b1 := b.(nodes := b.nodes + 1);
    var w := Scales(Weights(v, Cost), Weights(v, Nodes));
    ObjectWeighs(v);
    ObjectKept(v, w, o, b1, depth, key);
    ObjectCharged(v, w, o, b1, depth, key);
    BoundsObject(v, o, b, depth, key);
  }

  lemma ObjectWeighs(v: Json)
    requires v.Obj? && Valid(v)
    ensures Weigh(v, Cost) == Sum(v.keys, Weights(v, Cost)) + 2 && Weigh(v, Nodes) == Sum(v.keys, Weights(v, Nodes)) + 1
  {}

  lemma BoundsObject(v: Json, o: Options, b: Budget, depth: nat, key: Option<Text>)
    requires v.Obj? && Valid(v) && depth < o.maxDepth && b.remaining > 0 && b.nodes < MAX_BOUND_NODES
    ensures BoundValue(v, o, b, depth, key) == BoundObject(v, o, b.(nodes := b.nodes + 1), depth, key)
  {}

  lemma {:induction false} ArrayKept(v: Json, o: Options, b: Budget, depth: nat)
    requires v.Arr? && Valid(v) && Fits(v, o, o.maxDepth - depth)
    requires Affords(b, WeighItems(v, 0, Cost) + 2, WeighItems(v, 0, Nodes))
    ensures BoundArray(v, o, b, depth).left == After(b, WeighItems(v, 0, Cost) + 2, WeighItems(v, 0, Nodes))
    ensures KeptIfPlain(BoundArray(v, o, b, depth).value, v)
    decreases v, 0, |v.items| + 1
  {
    ItemsKept(v, 0, [], o, b, depth);
    var r := BoundItems(v, 0, [], o, b, depth).0;
    assert BoundArray(v, o, b, depth).value == Arr(r);
    assert (forall i :: 0 <= i < |r| ==> Same(r[i], v.items[i])) <==> forall i :: 0 <= i < |r| ==> Plain(v.items[i]);
  }

  /** What each field of an object weighs. */
  datatype Scales = Scales(cost: map<Text, nat>, nodes: map<Text, nat>)

  ghost predicate Of(w: Scales, v: Json)
    requires v.Obj? && Valid(v)
  {
    forall k :: k in v.fields ==>
      && k in w.cost && w.cost[k] == Weigh(v.fields[k], Cost)
      && k in w.nodes && w.nodes[k] == Weigh(v.fields[k], Nodes)
  }

  lemma {:induction false} ObjectKept(v: Json, w: Scales, o: Options, b: Budget, depth: nat, key: Option<Text>)
    requires v.Obj? && Valid(v) && Fits(v, o, o.maxDepth - depth) && Of(w, v)
    requires Affords(b, Sum(v.keys, w.cost) + 2, Sum(v.keys, w.nodes))
    ensures KeptIfPlain(BoundObject(v, o, b, depth, key).value, v)
    decreases v, 0, |v.keys| + 3
  {
    var order := PrioritizedKeys(v.keys, o.preferred, key);
    AllFieldsKept(v, w, order, o, b, depth, key);
    var r := BoundFields(v, order, 0, Fields([], map[]), o, b, depth);
    ObjectCloses(v, o, b, depth, key, r);
    ClosedSame(v, order, r.0, r.1);
  }

  lemma {:induction false} ObjectCharged(v: Json, w: Scales, o: Options, b: Budget, depth: nat, key: Option<Text>)
    requires v.Obj? && Valid(v) && Fits(v, o, o.maxDepth - depth) && Of(w, v)
    requires Affords(b, Sum(v.keys, w.cost) + 2, Sum(v.keys, w.nodes))
    ensures BoundObject(v, o, b, depth, key).left == After(b, Sum(v.keys, w.cost) + 2, Sum(v.keys, w.nodes))
    decreases v, 0, |v.keys| + 3
  {
    var order := PrioritizedKeys(v.keys, o.preferred, key);
    AllFieldsKept(v, w, order, o, b, depth, key);
    var r := BoundFields(v, order, 0, Fields([], map[]), o, b, depth);
    assert Spend(r.1, 2) == After(b, Sum(v.keys, w.cost) + 2, Sum(v.keys, w.nodes));
    ObjectCloses(v, o, b, depth, key, r);
    assert CloseObject(r.0, |v.keys|, r.1).left == Spend(r.1, 2);
  }

  lemma ObjectCloses(v: Json, o: Options, b: Budget, depth: nat, key: Option<Text>, r: (Fields, Budget))
    requires v.Obj? && Valid(v)
    requires forall k :: k in PrioritizedKeys(v.keys, o.preferred, key) ==> k in v.fields
    requires r == BoundFields(v, PrioritizedKeys(v.keys, o.preferred, key), 0, Fields([], map[]), o, b, depth)
    ensures BoundObject(v, o, b, depth, key) == CloseObject(r.0, |v.keys|, r.1)
  {}

  lemma {:induction false} AllFieldsKept(
    v: Json, w: Scales, order: seq<Text>, o: Options, b: Budget, depth: nat, key: Option<Text>)
    requires v.Obj? && Valid(v) && Fits(v, o, o.maxDepth - depth) && Of(w, v)
    requires order == PrioritizedKeys(v.keys, o.preferred, key)
    requires Affords(b, Sum(v.keys, w.cost) + 2, Sum(v.keys, w.nodes))
    ensures |order| == |v.keys| && forall k :: k in order <==> k in v.fields
    ensures var r := BoundFields(v, order, 0, Fields([], map[]), o, b, depth);
      && MadeFrom(r.0, v, order)
      && r.1 == After(b, Sum(v.keys, w.cost), Sum(v.keys, w.nodes))
    decreases v, 0, |v.keys| + 2
  {
    OrderKept(v, w, order, o, key);
    FieldsKept(v, w, order, 0, Fields([], map[]), o, b, depth, BoundFields(v, order, 0, Fields([], map[]), o, b, depth));
  }

  lemma OrderKept(v: Json, w: Scales, order: seq<Text>, o: Options, key: Option<Text>)
    requires v.Obj? && Valid(v) && Of(w, v) && order == PrioritizedKeys(v.keys, o.preferred, key)
    ensures |order| == |v.keys| && Distinct(order) && order[0..] == order && order[..0] == []
    ensures forall k :: k in order <==> k in v.fields
    ensures Sum(order, w.cost) == Sum(v.keys, w.cost)
    ensures Sum(order, w.nodes) == Sum(v.keys, w.nodes)
  {
    Prioritizes(v.keys, o.preferred, key);
    DistinctPermutes(v.keys, order);
    SumPermutes(v.keys, order, w.cost);
    SumPermutes(v.keys, order, w.nodes);
  }

  /** A complete object gets the truncation flag exactly when `__proto__` is missing from it. */
  lemma ClosedSame(v: Json, order: seq<Text>, done: Fields, b: Budget)
    requires v.Obj? && Valid(v) && |order| == |v.keys| && b.remaining > 0
    requires MadeFrom(done, v, order) && forall k :: k in order <==> k in v.fields
    ensures KeptIfPlain(CloseObject(done, |v.keys|, b).value, v)
  {
    var closed := CloseFields(done, |v.keys|, b);
    if PROTO_KEY in v.fields {
      assert TRUNCATED_KEY != PROTO_KEY by { assert |TRUNCATED_KEY| != |PROTO_KEY|; }
      assert PROTO_KEY !in closed.fields;
    } else {
      assert closed == done;
      assert forall k :: k in v.fields ==> k in done.fields;
    }
  }

  lemma {:induction false} ItemsKept(v: Json, i: nat, done: seq<Json>, o: Options, b: Budget, depth: nat)
    requires v.Arr? && Valid(v) && Fits(v, o, o.maxDepth - depth) && i == |done| <= |v.items|
    requires forall j :: 0 <= j < i ==> KeptIfPlain(done[j], v.items[j])
    requires Affords(b, WeighItems(v, i, Cost) + 2, WeighItems(v, i, Nodes))
    ensures var r := BoundItems(v, i, done, o, b, depth);
      && r.1 == After(b, WeighItems(v, i, Cost), WeighItems(v, i, Nodes))
      && |r.0| == |v.items|
      && forall j :: 0 <= j < |v.items| ==> KeptIfPlain(r.0[j], v.items[j])
    decreases v, 0, |v.items| - i
  {
    if i < |v.items| {
      var key := Some(Units("[]"));
      KeptExactly(v.items[i], o, b, depth + 1, key);
      var r := BoundValue(v.items[i], o, b, depth + 1, key);
      ItemsKept(v, i + 1, done + [r.value], o, r.left, depth);
      ItemsStep(v, i, done, o, b, depth);
    }
  }

  lemma ItemsStep(v: Json, i: nat, done: seq<Json>, o: Options, b: Budget, depth: nat)
    requires v.Arr? && Valid(v) && i < |v.items| <= o.maxArrayItems
    requires BoundValue(v.items[i], o, b, depth + 1, Some(Units("[]"))).left.remaining > 0
    ensures var r := BoundValue(v.items[i], o, b, depth + 1, Some(Units("[]")));
      BoundItems(v, i, done, o, b, depth) == BoundItems(v, i + 1, done + [r.value], o, r.left, depth)
  {}

  /** The own keys made from the first keys of the order: all but `__proto__`, each with its kept value. */
  ghost predicate MadeFrom(done: Fields, v: Json, taken: seq<Text>)
    requires v.Obj?
  {
    && |done.keys| == |taken| - (if PROTO_KEY in taken then 1 else 0)
    && (forall k :: k in done.fields <==> k in taken && k != PROTO_KEY)
    && (forall k :: k in done.fields && k in v.fields ==> KeptIfPlain(done.fields[k], v.fields[k]))
  }

  lemma PutMakes(done: Fields, v: Json, order: seq<Text>, i: nat, value: Json)
    requires v.Obj? && Distinct(order) && i < |order| && order[i] in v.fields && MadeFrom(done, v, order[..i])
    requires KeptIfPlain(value, v.fields[order[i]])
    ensures MadeFrom(done.Put(order[i], value), v, order[..i + 1])
  {
    var taken, key := order[..i], order[i];
    assert key !in taken;
    assert order[..i + 1] == taken + [key];
    assert forall k :: k in taken + [key] <==> k in taken || k == key;
  }

  lemma {:induction false} FieldKept(v: Json, w: Scales, k: Text, o: Options, b: Budget, depth: nat)
    requires v.Obj? && Valid(v) && Fits(v, o, o.maxDepth - depth) && Of(w, v) && k in v.fields
    requires Affords(b, w.cost[k], w.nodes[k])
    ensures var r := BoundValue(v.fields[k], o, b, depth + 1, Some(k));
      && r.left == After(b, w.cost[k], w.nodes[k])
      && KeptIfPlain(r.value, v.fields[k])
    decreases v, 0, 0
  {
    KeptExactly(v.fields[k], o, b, depth + 1, Some(k));
  }

  lemma SumFrom(order: seq<Text>, i: nat, weights: map<Text, nat>)
    requires i < |order| && forall k :: k in order ==> k in weights
    ensures Sum(order[i..], weights) == weights[order[i]] + Sum(order[i + 1..], weights)
  {
    assert order[i..][1..] == order[i + 1..];
  }

  /** One field more: what was made of it, and the budget left. */
  lemma {:induction false} FieldMade(
    v: Json, w: Scales, order: seq<Text>, i: nat, done: Fields, o: Options, b: Budget, depth: nat)
    returns (made: Fields, left: Budget)
    requires v.Obj? && Valid(v) && Fits(v, o, o.maxDepth - depth) && Of(w, v)
    requires Distinct(order) && i < |order| <= o.maxObjectKeys && forall k :: k in order ==> k in v.fields
    requires MadeFrom(done, v, order[..i]) && b.remaining > 0 && Affords(b, w.cost[order[i]], w.nodes[order[i]])
    ensures BoundFields(v, order, i, done, o, b, depth) == BoundFields(v, order, i + 1, made, o, left, depth)
    ensures left == After(b, w.cost[order[i]], w.nodes[order[i]]) && MadeFrom(made, v, order[..i + 1])
    decreases v, 0, 1
  {
    var k := order[i];
    FieldKept(v, w, k, o, b, depth);
    var r := BoundValue(v.fields[k], o, b, depth + 1, Some(k));
    made, left := done.Put(k, r.value), r.left;
    PutMakes(done, v, order, i, r.value);
    FieldsStep(v, order, i, done, o, b, depth);
  }

  lemma {:induction false} FieldsKept(
    v: Json, w: Scales, order: seq<Text>, i: nat, done: Fields, o: Options, b: Budget, depth: nat, r: (Fields, Budget))
    requires v.Obj? && Valid(v) && Fits(v, o, o.maxDepth - depth) && Of(w, v)
    requires Distinct(order) && |order| <= o.maxObjectKeys && i <= |order| && forall k :: k in order ==> k in v.fields
    requires MadeFrom(done, v, order[..i])
    requires Affords(b, Sum(order[i..], w.cost) + 2, Sum(order[i..], w.nodes))
    requires r == BoundFields(v, order, i, done, o, b, depth)
    ensures r.1 == After(b, Sum(order[i..], w.cost), Sum(order[i..], w.nodes)) && MadeFrom(r.0, v, order)
    decreases v, 0, |order| - i + 1
  {
    if i == |order| {
      assert order[..i] == order;
      FieldsEnd(v, order, i, done, o, b, depth);
    } else {
      SumFrom(order, i, w.cost);
      SumFrom(order, i, w.nodes);
      var made, left := FieldMade(v, w, order, i, done, o, b, depth);
      FieldsKept(v, w, order, i + 1, made, o, left, depth, r);
    }
  }

  lemma FieldsEnd(v: Json, order: seq<Text>, i: nat, done: Fields, o: Options, b: Budget, depth: nat)
    requires v.Obj? && Valid(v) && i <= |order| && forall k :: k in order ==> k in v.fields
    requires i == |order| || i >= o.maxObjectKeys || b.remaining <= 0
    ensures BoundFields(v, order, i, done, o, b, depth) == (done, b)
  {}

  lemma FieldsStep(v: Json, order: seq<Text>, i: nat, done: Fields, o: Options, b: Budget, depth: nat)
    requires v.Obj? && Valid(v) && i < |order| && i < o.maxObjectKeys && forall k :: k in order ==> k in v.fields
    requires b.remaining > 0
    ensures var r := BoundValue(v.fields[order[i]], o, b, depth + 1, Some(order[i]));
      BoundFields(v, order, i, done, o, b, depth)
        == BoundFields(v, order, i + 1, done.Put(order[i], r.value), o, r.left, depth)
  {}

  // ----- every result is the input cut down

  /** A string kept, replaced by the binary marker, or shortened around the truncation marker. */
  ghost predicate Shortened(r: Text, t: Text)
  {
    r == t || r == BINARY_MARKER || exists head: nat, tail: nat :: Shows(r, t, MARKER, head, tail)
  }

  /** `r` is `v` with strings shortened, arrays cut after a prefix, object keys left out, and markers for what is gone. */
  ghost predicate Trimmed(r: Json, v: Json)
    decreases v
  {
    || r == Str(MARKER)
    || match v
       case Str(s) => r.Str? && Shortened(r.s, s)
       case Arr(items) =>
         && r.Arr? && |r.items| <= |items|
         && forall i :: 0 <= i < |r.items| && i < |items| ==> Trimmed(r.items[i], items[i])
       case Obj(_, fields) =>
         && r.Obj?
         && forall k :: k in r.fields ==>
              (k == TRUNCATED_KEY && r.fields[k] == Bool(true)) || (k in fields && Trimmed(r.fields[k], fields[k]))
       case _ => r == v
  }

  /** Nested no deeper and no wider than the options allow; every object still lists its own keys. */
  ghost predicate Shaped(r: Json, o: Options, levels: int)
    decreases r
  {
    match r
    case Arr(items) =>
      && levels > 0 && |items| <= o.maxArrayItems + 1
      && forall i :: 0 <= i < |items| ==> Shaped(items[i], o, levels - 1)
    case Obj(keys, fields) =>
      && levels > 0 && |keys| <= o.maxObjectKeys + 1 && Lists(keys, fields)
      && forall k :: k in fields ==> Shaped(fields[k], o, levels - 1)
    case _ => true
  }

  ghost predicate Good(r: Json, v: Json, o: Options, levels: int)
  {
    Trimmed(r, v) && Shaped(r, o, levels)
  }

  /** For every input, budget and depth: the result is the input cut down, within the depth and width limits. */
  lemma {:induction false} AlwaysTrimmedAndShaped(v: Json, o: Options, b: Budget, depth: nat, key: Option<Text>)
    requires Valid(v)
    ensures Trimmed(BoundValue(v, o, b, depth, key).value, v)
    ensures Shaped(BoundValue(v, o, b, depth, key).value, o, o.maxDepth - depth)
    decreases v, 1, 0
  {
    var b1 := b.(nodes := b.nodes + 1);
    if v.Str? {
      StringGood(v.s, o, b1.remaining, key);
    } else if v.Arr? && depth < o.maxDepth {
      ArrayGood(v, o, b1, depth);
    } else if v.Obj? && depth < o.maxDepth {
      ObjectGood(v, o, b1, depth, key);
    }
  }

  lemma StringGood(t: Text, o: Options, remaining: int, key: Option<Text>)
    ensures Shortened(BoundString(t, o, remaining, key), t)
  {
    if |t| > o.maxStringChars && !IsBinary(t, key) {
      ShortenedShowsTheValue(t, MARKER, Max(0, Cap(o, remaining) - |MARKER|), KeepsTail(key));
    }
  }

  lemma {:induction false} ArrayGood(v: Json, o: Options, b: Budget, depth: nat)
    requires v.Arr? && Valid(v) && depth < o.maxDepth
    ensures Good(BoundArray(v, o, b, depth).value, v, o, o.maxDepth - depth)
    decreases v, 0, |v.items| + 1
  {
    ItemsGood(v, 0, [], o, b, depth);
    var r := BoundItems(v, 0, [], o, b, depth);
    var c := CloseItems(r.0, |v.items|, r.1);
    assert forall j :: 0 <= j < |c| ==>
             c[j] == Str(MARKER) || (j < |r.0| && Good(c[j], v.items[j], o, o.maxDepth - depth - 1));
  }

  lemma {:induction false} ObjectGood(v: Json, o: Options, b: Budget, depth: nat, key: Option<Text>)
    requires v.Obj? && Valid(v) && depth < o.maxDepth
    ensures Good(BoundObject(v, o, b, depth, key).value, v, o, o.maxDepth - depth)
    decreases v, 0, 2
  {
    Prioritizes(v.keys, o.preferred, key);
    var order := PrioritizedKeys(v.keys, o.preferred, key);
    var r := BoundFields(v, order, 0, Fields([], map[]), o, b, depth);
    FieldsGood(v, order, o, b, depth, r);
    ObjectCloses(v, o, b, depth, key, r);
    ClosedGood(v, r.0, CloseFields(r.0, |v.keys|, r.1), o, o.maxDepth - depth);
  }

  lemma ClosedGood(v: Json, r: Fields, c: Fields, o: Options, levels: int)
    requires v.Obj? && levels > 0 && |r.keys| <= o.maxObjectKeys && GoodFields(r, v, o, levels - 1)
    requires c == r || c == r.Put(TRUNCATED_KEY, Bool(true))
    ensures Good(Obj(c.keys, c.fields), v, o, levels)
  {
    assert forall k :: k in c.fields ==> k in r.fields || (k == TRUNCATED_KEY && c.fields[k] == Bool(true));
    assert Lists(c.keys, c.fields);
    assert forall k :: k in c.fields ==> Shaped(c.fields[k], o, levels - 1);
  }

  lemma {:induction false} ItemsGood(v: Json, i: nat, done: seq<Json>, o: Options, b: Budget, depth: nat)
    requires v.Arr? && Valid(v) && i == |done| <= |v.items| && i <= o.maxArrayItems
    requires forall j :: 0 <= j < i ==> Good(done[j], v.items[j], o, o.maxDepth - depth - 1)
    ensures var r := BoundItems(v, i, done, o, b, depth).0;
      && |r| <= |v.items| && |r| <= o.maxArrayItems
      && forall j :: 0 <= j < |r| ==> Good(r[j], v.items[j], o, o.maxDepth - depth - 1)
    decreases v, 0, |v.items| - i
  {
    if i < |v.items| && i < o.maxArrayItems {
      var key := Some(Units("[]"));
      AlwaysTrimmedAndShaped(v.items[i], o, b, depth + 1, key);
      var r := BoundValue(v.items[i], o, b, depth + 1, key);
      if r.left.remaining > 0 {
        ItemsGood(v, i + 1, done + [r.value], o, r.left, depth);
      }
    }
  }

  ghost predicate GoodFields(done: Fields, v: Json, o: Options, levels: int)
    requires v.Obj?
  {
    && Lists(done.keys, done.fields)
    && forall k :: k in done.fields ==> k in v.fields && Good(done.fields[k], v.fields[k], o, levels)
  }

  lemma {:induction false} FieldGood(
    v: Json, order: seq<Text>, i: nat, done: Fields, o: Options, b: Budget, depth: nat)
    returns (made: Fields, left: Budget)
    requires v.Obj? && Valid(v) && i < |order| && i < o.maxObjectKeys && forall k :: k in order ==> k in v.fields
    requires b.remaining > 0 && |done.keys| <= i && GoodFields(done, v, o, o.maxDepth - depth - 1)
    ensures BoundFields(v, order, i, done, o, b, depth) == BoundFields(v, order, i + 1, made, o, left, depth)
    ensures |made.keys| <= i + 1 && GoodFields(made, v, o, o.maxDepth - depth - 1)
    decreases v, 0, 0
  {
    var k := order[i];
    AlwaysTrimmedAndShaped(v.fields[k], o, b, depth + 1, Some(k));
    var r := BoundValue(v.fields[k], o, b, depth + 1, Some(k));
    made, left := done.Put(k, r.value), r.left;
    PutGood(done, v, k, r.value, o, o.maxDepth - depth - 1);
    FieldsStep(v, order, i, done, o, b, depth);
  }

  lemma {:induction false} FieldsGood(v: Json, order: seq<Text>, o: Options, b: Budget, depth: nat, r: (Fields, Budget))
    requires v.Obj? && Valid(v) && forall k :: k in order ==> k in v.fields
    requires r == BoundFields(v, order, 0, Fields([], map[]), o, b, depth)
    ensures |r.0.keys| <= o.maxObjectKeys && GoodFields(r.0, v, o, o.maxDepth - depth - 1)
    decreases v, 0, 1
  {
    var i, done, left := 0, Fields([], map[]), b;
    while i < |order| && i < o.maxObjectKeys && left.remaining > 0
      invariant i <= |order| && |done.keys| <= i <= o.maxObjectKeys
      invariant GoodFields(done, v, o, o.maxDepth - depth - 1)
      invariant r == BoundFields(v, order, i, done, o, left, depth)
    {
      done, left := FieldGood(v, order, i, done, o, left, depth);
      i := i + 1;
    }
    FieldsEnd(v, order, i, done, o, left, depth);
  }

  lemma PutGood(done: Fields, v: Json, k: Text, value: Json, o: Options, levels: int)
    requires v.Obj? && GoodFields(done, v, o, levels) && k in v.fields && Good(value, v.fields[k], o, levels)
    ensures GoodFields(done.Put(k, value), v, o, levels) && |done.Put(k, value).keys| <= |done.keys| + 1
  {}
}
