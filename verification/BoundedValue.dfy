/** The bounding of structured evidence: a preorder traversal that threads one mutable node counter
    and replaces what lies beyond the node and depth limits by a marker. */
module BoundedValue {
  import opened Options
  import opened Utf8

  // A sanitized value. A Python dict is its keys (as text) and its values, in insertion order.
  datatype Value =
    | Null
    | Bool(b: bool)
    | Int(i: int)
    | Finite(r: real)
    | NonFinite
    | Str(text: Text)
    | List(items: seq<Value>)
    | Dict(keys: seq<Text>, items: seq<Value>)
    | Other

  datatype Limits = Limits(depth: nat, nodes: nat)

  const WIDTH: nat := 24
  const KEY_BYTES: nat := 64
  const STRING_BYTES: nat := 1024
  const BOUNDED := Str(Ascii("<OMITTED:bounded>"))
  const NON_FINITE := Str(Ascii("<OMITTED:non_finite>"))
  const REDACTED := Str(Ascii("<REDACTED>"))
  const OVERSIZE := Str(Ascii("<OMITTED:oversize>"))

  function First<T>(s: seq<T>): (r: seq<T>)
    ensures |r| == (if |s| <= 24 then |s| else 24) && r <= s
    ensures |s| <= 24 ==> r == s
  {
    if |s| > WIDTH then s[..WIDTH] else s
  }

  // ---- Building a dict from pairs: a repeated key keeps its place and takes the later value ----

  datatype Pairs<K, V> = Pairs(keys: seq<K>, items: seq<V>)

  function IndexOf<K(==)>(keys: seq<K>, key: K): (i: nat)
    ensures i <= |keys|
    ensures i < |keys| ==> keys[i] == key
    ensures i == |keys| ==> key !in keys
  {
    if keys == [] then 0
    else if keys[0] == key then 0
    else 1 + IndexOf(keys[1..], key)
  }

  function Put<K(==), V>(p: Pairs<K, V>, key: K, item: V): (r: Pairs<K, V>)
    requires |p.keys| == |p.items|
    ensures |r.keys| == |r.items|
  {
    var i := IndexOf(p.keys, key);
    if i < |p.keys| then p.(items := p.items[i := item])
    else Pairs(p.keys + [key], p.items + [item])
  }

  function Assemble<K(==), V>(keys: seq<K>, items: seq<V>): (r: Pairs<K, V>)
    requires |keys| == |items|
    ensures |r.keys| == |r.items| <= |items|
  {
    if keys == [] then Pairs([], [])
    else
      var n := |keys| - 1;
      Put(Assemble(keys[..n], items[..n]), keys[n], items[n])
  }

  function TruncatedKeys(keys: seq<Text>, count: nat): (r: seq<Text>)
    ensures |r| == count
  {
    seq(count, i requires 0 <= i < count => if i < |keys| then Truncate(keys[i], KEY_BYTES) else [])
  }

  // ---- What becomes of a kept node ----

  predicate Container(v: Value) {
    v.List? || v.Dict?
  }

  function Leaf(v: Value): (r: Value)
    requires !Container(v)
    ensures !Container(r)
  {
    match v
    case NonFinite => NON_FINITE
    case Str(t) => Str(Truncate(t, STRING_BYTES))
    case Other => REDACTED
    case _ => v
  }

  // The kept container v around its visited items.
  function Rebuild(v: Value, items: seq<Value>): (r: Value)
    requires Container(v)
    ensures Container(r)
  {
    if v.List? then List(items)
    else
      var p := Assemble(TruncatedKeys(v.keys, |items|), items);
      Dict(p.keys, p.items)
  }

  // ---- The traversal, with its counter threaded ----

  datatype Visited<T> = Visited(value: T, count: nat)

  function Visit(v: Value, depth: nat, count: nat, lim: Limits): Visited<Value>
    decreases v, 1
  {
    var n := count + 1;
    if n > lim.nodes || depth > lim.depth then Visited(BOUNDED, n)
    else if !Container(v) then Visited(Leaf(v), n)
    else
      var r := VisitAll(First(v.items), depth + 1, n, lim);
      Visited(Rebuild(v, r.value), r.count)
  }

  function VisitAll(items: seq<Value>, depth: nat, count: nat, lim: Limits): (r: Visited<seq<Value>>)
    ensures |r.value| == |items|
    decreases items, 0
  {
    if items == [] then Visited([], count)
    else
      var last := |items| - 1;
      var r := VisitAll(items[..last], depth, count, lim);
      var x := Visit(items[last], depth, r.count, lim);
      Visited(r.value + [x.value], x.count)
  }

  /** The counter shared by all the nested visits of one traversal. */
  class NodeCounter {
    var nodes: nat

    constructor ()
      ensures nodes == 0
    {
      nodes := 0;
    }
  }

  method VisitInPlace(item: Value, depth: nat, counter: NodeCounter, lim: Limits) returns (out: Value)
    modifies counter
    ensures Visited(out, counter.nodes) == Visit(item, depth, old(counter.nodes), lim)
    decreases item, 1
  {
    counter.nodes := counter.nodes + 1;
    if counter.nodes > lim.nodes || depth > lim.depth {
      out := BOUNDED;
    } else if !Container(item) {
      out := Leaf(item);
    } else {
      out := VisitContainer(item, depth, counter, lim);
    }
  }

  method VisitContainer(item: Value, depth: nat, counter: NodeCounter, lim: Limits) returns (out: Value)
    requires Container(item)
    modifies counter
    ensures var r := VisitAll(First(item.items), depth + 1, old(counter.nodes), lim);
            out == Rebuild(item, r.value) && counter.nodes == r.count
    decreases item, 0
  {
    if item.List? {
      var results := VisitItems(First(item.items), depth + 1, counter, lim);
      out := List(results);
    } else {
      var p := VisitEntries(item.keys, First(item.items), depth + 1, counter, lim);
      out := Dict(p.keys, p.items);
    }
  }

  method VisitItems(items: seq<Value>, depth: nat, counter: NodeCounter, lim: Limits) returns (results: seq<Value>)
    modifies counter
    ensures Visited(results, counter.nodes) == VisitAll(items, depth, old(counter.nodes), lim)
    decreases items, 0
  {
    results := [];
    for i := 0 to |items|
      invariant Visited(results, counter.nodes) == VisitAll(items[..i], depth, old(counter.nodes), lim)
    {
      assert items[..i + 1][..i] == items[..i];
      var child := VisitInPlace(items[i], depth, counter, lim);
      results := results + [child];
    }
    assert items[..|items|] == items;
  }

  method VisitEntries(keys: seq<Text>, items: seq<Value>, depth: nat, counter: NodeCounter, lim: Limits)
    returns (p: Pairs<Text, Value>)
    modifies counter
    ensures var r := VisitAll(items, depth, old(counter.nodes), lim);
            counter.nodes == r.count && p == Assemble(TruncatedKeys(keys, |items|), r.value)
    decreases items, 0
  {
    p := Pairs([], []);
    for i := 0 to |items|
      invariant var r := VisitAll(items[..i], depth, old(counter.nodes), lim);
                counter.nodes == r.count && p == Assemble(TruncatedKeys(keys, i), r.value)
    {
      assert items[..i + 1][..i] == items[..i];
      ghost var before := VisitAll(items[..i], depth, old(counter.nodes), lim).value;
      var key := if i < |keys| then Truncate(keys[i], KEY_BYTES) else [];
      var child := VisitInPlace(items[i], depth, counter, lim);
      p := Put(p, key, child);
      AssembleNext(keys, before, child);
    }
    assert items[..|items|] == items;
  }

  lemma AssembleAppend<K, V>(keys: seq<K>, items: seq<V>, key: K, item: V)
    requires |keys| == |items|
    ensures Assemble(keys + [key], items + [item]) == Put(Assemble(keys, items), key, item)
  {
    assert (keys + [key])[..|keys|] == keys && (items + [item])[..|items|] == items;
  }

  lemma KeysAppend(keys: seq<Text>, n: nat)
    ensures TruncatedKeys(keys, n + 1) == TruncatedKeys(keys, n) + [TruncatedKeys(keys, n + 1)[n]]
  {
  }

  lemma AssembleNext(keys: seq<Text>, before: seq<Value>, item: Value)
    ensures Assemble(TruncatedKeys(keys, |before| + 1), before + [item])
         == Put(Assemble(TruncatedKeys(keys, |before|), before), TruncatedKeys(keys, |before| + 1)[|before|], item)
  {
    hide TruncatedKeys, Assemble, Put;
    KeysAppend(keys, |before|);
    AssembleAppend(TruncatedKeys(keys, |before|), before, TruncatedKeys(keys, |before| + 1)[|before|], item);
  }

  const INVALID_VALUE := Str(INVALID)

  /** The whole operation. sanitize and oversize are None where they raise; oversize tells whether the
      JSON text of the bounded value is too long. */
  method Bound(value: Value, sanitize: Value -> Option<Value>, lim: Limits, oversize: Value -> Option<bool>)
    returns (out: Value)
    ensures var sanitized := sanitize(value);
            out == if sanitized.None? then Str(Ascii("<OMITTED:invalid>"))
                   else
                     var cut := Cut(sanitized.value, 0, 1, lim);
                     match oversize(cut)
                     case None => Str(Ascii("<OMITTED:invalid>"))
                     case Some(over) => if over then Str(Ascii("<OMITTED:oversize>")) else cut
  {
    hide Visit, Cut;
    var sanitized := sanitize(value);
    if sanitized.None? {
      return INVALID_VALUE;
    }
    var counter := new NodeCounter();
    var bounded := VisitInPlace(sanitized.value, 0, counter, lim);
    VisitIsPreorderCut(sanitized.value, 0, 0, 0, lim);
    var over := oversize(bounded);
    if over.None? {
      return INVALID_VALUE;
    }
    return if over.value then OVERSIZE else bounded;
  }

  // ---- The same cut without a counter: every node has a fixed preorder index ----

  // The nodes of v a traversal limited only in depth and width would visit.
  function Size(v: Value, depth: nat, lim: Limits): (n: nat)
    ensures n >= 1
    decreases v, 1
  {
    if depth > lim.depth then 1
    else if Container(v) then 1 + SizeAll(First(v.items), depth + 1, lim)
    else 1
  }

  function SizeAll(items: seq<Value>, depth: nat, lim: Limits): nat
    decreases items, 0
  {
    if items == [] then 0
    else SizeAll(items[..|items| - 1], depth, lim) + Size(items[|items| - 1], depth, lim)
  }

  // Keep the node with preorder index `index` iff that index and its depth are within the limits.
  // A child's index is one more than its parent's plus the sizes of its earlier siblings.
  function Cut(v: Value, depth: nat, index: nat, lim: Limits): Value
    decreases v, 1
  {
    if index > lim.nodes || depth > lim.depth then BOUNDED
    else if !Container(v) then Leaf(v)
    else Rebuild(v, CutAll(First(v.items), depth + 1, index, lim))
  }

  function CutAll(items: seq<Value>, depth: nat, parent: nat, lim: Limits): (r: seq<Value>)
    ensures |r| == |items|
    decreases items, 0
  {
    if items == [] then []
    else
      var before := items[..|items| - 1];
      CutAll(before, depth, parent, lim)
      + [Cut(items[|items| - 1], depth, parent + SizeAll(before, depth, lim) + 1, lim)]
  }

  // Two counts after which the traversal goes on alike: equal, or both at the limit.
  predicate Alike(count: nat, index: nat, lim: Limits) {
    count == index || (count >= lim.nodes && index >= lim.nodes)
  }

  /** The counter-threaded traversal is the preorder cut, though the counter skips whatever lies
      below a node that was cut. */
  lemma {:induction false} VisitIsPreorderCut(v: Value, depth: nat, count: nat, index: nat, lim: Limits)
    requires Alike(count, index, lim)
    ensures Visit(v, depth, count, lim).value == Cut(v, depth, index + 1, lim)
    ensures Alike(Visit(v, depth, count, lim).count, index + Size(v, depth, lim), lim)
    decreases v, 1
  {
    if Container(v) && count + 1 <= lim.nodes && depth <= lim.depth {
      VisitAllIsPreorderCut(First(v.items), depth + 1, count + 1, index + 1, lim);
    }
  }

  lemma {:induction false} VisitAllIsPreorderCut(items: seq<Value>, depth: nat, count: nat, index: nat, lim: Limits)
    requires Alike(count, index, lim)
    ensures VisitAll(items, depth, count, lim).value == CutAll(items, depth, index, lim)
    ensures Alike(VisitAll(items, depth, count, lim).count, index + SizeAll(items, depth, lim), lim)
    decreases items, 0
  {
    if items != [] {
      var last := |items| - 1;
      VisitAllIsPreorderCut(items[..last], depth, count, index, lim);
      var r := VisitAll(items[..last], depth, count, lim);
      VisitIsPreorderCut(items[last], depth, r.count, index + SizeAll(items[..last], depth, lim), lim);
    }
  }

  // ---- Bounds on the work and on the result ----

  // How many of the visited nodes are kept.
  function Kept(v: Value, depth: nat, count: nat, lim: Limits): nat
    decreases v, 1
  {
    if count + 1 > lim.nodes || depth > lim.depth then 0
    else if Container(v) then 1 + KeptAll(First(v.items), depth + 1, count + 1, lim)
    else 1
  }

  function KeptAll(items: seq<Value>, depth: nat, count: nat, lim: Limits): nat
    decreases items, 0
  {
    if items == [] then 0
    else
      var last := |items| - 1;
      KeptAll(items[..last], depth, count, lim)
      + Kept(items[last], depth, VisitAll(items[..last], depth, count, lim).count, lim)
  }

  function Min(a: int, b: int): int {
    if a < b then a else b
  }

  // Each kept node has its own number at most lim.nodes, and each visit is the root or one of at
  // most WIDTH children of a kept node.
  lemma {:induction false} CountBounds(v: Value, depth: nat, count: nat, lim: Limits)
    ensures var c := Visit(v, depth, count, lim).count;
            && count < c <= count + 1 + WIDTH * Kept(v, depth, count, lim)
            && Kept(v, depth, count, lim) <= Min(c, lim.nodes) - Min(count, lim.nodes)
    decreases v, 1
  {
    if Container(v) && count + 1 <= lim.nodes && depth <= lim.depth {
      CountAllBounds(First(v.items), depth + 1, count + 1, lim);
    }
  }

  lemma {:induction false} CountAllBounds(items: seq<Value>, depth: nat, count: nat, lim: Limits)
    ensures var c := VisitAll(items, depth, count, lim).count;
            && count <= c <= count + |items| + WIDTH * KeptAll(items, depth, count, lim)
            && KeptAll(items, depth, count, lim) <= Min(c, lim.nodes) - Min(count, lim.nodes)
    decreases items, 0
  {
    if items != [] {
      var last := |items| - 1;
      CountAllBounds(items[..last], depth, count, lim);
      CountBounds(items[last], depth, VisitAll(items[..last], depth, count, lim).count, lim);
    }
  }

  /** One traversal visits at most 1 + 24 * max_nodes nodes, however large the value is. */
  lemma WorkIsBounded(v: Value, lim: Limits)
    ensures Visit(v, 0, 0, lim).count <= 1 + WIDTH * lim.nodes
  {
    CountBounds(v, 0, 0, lim);
  }

  function Height(v: Value): nat
    decreases v, 1
  {
    if Container(v) then HeightAll(v.items) else 0
  }

  // One more than the greatest height among the items; 0 when there are none.
  function HeightAll(items: seq<Value>): nat
    decreases items, 0
  {
    if items == [] then 0
    else
      var h, l := HeightAll(items[..|items| - 1]), 1 + Height(items[|items| - 1]);
      if h > l then h else l
  }

  lemma {:induction false} HeightAllBound(items: seq<Value>, bound: nat)
    ensures HeightAll(items) <= bound <==> forall i :: 0 <= i < |items| ==> 1 + Height(items[i]) <= bound
  {
    if items != [] {
      HeightAllBound(items[..|items| - 1], bound);
      assert forall i :: 0 <= i < |items| - 1 ==> items[..|items| - 1][i] == items[i];
    }
  }

  // Assembling a dict makes no new items.
  lemma {:induction false} AssembleItems<K>(keys: seq<K>, items: seq<Value>)
    requires |keys| == |items|
    ensures forall x :: x in Assemble(keys, items).items ==> x in items
  {
    if keys != [] {
      var n := |keys| - 1;
      AssembleItems(keys[..n], items[..n]);
      var p := Assemble(keys[..n], items[..n]);
      forall x | x in Put(p, keys[n], items[n]).items ensures x in items {
        assert x in p.items || x == items[n];
        assert x in items[..n] || x == items[n];
      }
    }
  }

  lemma HeightOfDict<K>(keys: seq<K>, items: seq<Value>, bound: nat)
    requires |keys| == |items| && HeightAll(items) <= bound
    ensures HeightAll(Assemble(keys, items).items) <= bound
  {
    HeightAllBound(items, bound);
    AssembleItems(keys, items);
    var assembled := Assemble(keys, items).items;
    forall i | 0 <= i < |assembled| ensures 1 + Height(assembled[i]) <= bound {
      assert assembled[i] in items;
    }
    HeightAllBound(assembled, bound);
  }

  /** No container lies deeper than max_depth: the result has at most max_depth + 1 levels below its root. */
  lemma {:induction false} DepthIsBounded(v: Value, depth: nat, count: nat, lim: Limits)
    requires depth <= lim.depth + 1
    ensures Height(Visit(v, depth, count, lim).value) <= lim.depth + 1 - depth
    decreases v, 1
  {
    if Container(v) && count + 1 <= lim.nodes && depth <= lim.depth {
      var r := VisitAll(First(v.items), depth + 1, count + 1, lim).value;
      DepthAllIsBounded(First(v.items), depth + 1, count + 1, lim);
      if v.Dict? {
        HeightOfDict(TruncatedKeys(v.keys, |First(v.items)|), r, lim.depth + 1 - depth);
      }
    }
  }

  lemma {:induction false} DepthAllIsBounded(items: seq<Value>, depth: nat, count: nat, lim: Limits)
    requires depth <= lim.depth + 1
    ensures HeightAll(VisitAll(items, depth, count, lim).value) <= lim.depth + 2 - depth
    decreases items, 0
  {
    if items != [] {
      var last := |items| - 1;
      var r := VisitAll(items, depth, count, lim).value;
      DepthAllIsBounded(items[..last], depth, count, lim);
      DepthIsBounded(items[last], depth, VisitAll(items[..last], depth, count, lim).count, lim);
      assert r[..last] == VisitAll(items[..last], depth, count, lim).value;
    }
  }

  // ---- Values within the bounds are unchanged, and bounding twice changes nothing more ----

  predicate NoRepeats<K(==)>(keys: seq<K>) {
    forall i, j :: 0 <= i < j < |keys| ==> keys[i] != keys[j]
  }

  // Everything about v but its node count is within the limits.
  predicate InShape(v: Value, depth: nat, lim: Limits)
    decreases v, 1
  {
    if depth > lim.depth then v == BOUNDED
    else if Container(v) then
      && (v.Dict? ==> PlainKeys(v.keys) && |v.keys| == |v.items|)
      && |v.items| <= 24
      && AllInShape(v.items, depth + 1, lim)
    else v.Null? || v.Bool? || v.Int? || v.Finite? || (v.Str? && FitsIn(v.text, 1024))
  }

  predicate AllInShape(items: seq<Value>, depth: nat, lim: Limits)
    decreases items, 0
  {
    forall i :: 0 <= i < |items| ==> InShape(items[i], depth, lim)
  }

  predicate PlainKeys(keys: seq<Text>) {
    NoRepeats(keys) && forall i :: 0 <= i < |keys| ==> FitsIn(keys[i], 64)
  }

  predicate FitsIn(t: Text, maximum: nat) {
    Encodable(t) && |Encode(t)| <= maximum
  }

  // The text that truncation leaves alone is the text that fits.
  lemma FitsUnchanged(t: Text, maximum: nat)
    ensures FitsIn(t, maximum) <==> Truncate(t, maximum) == t
  {
    if Encodable(t) {
      TruncateIsLongestPrefix(t, maximum);
    }
  }

  lemma {:induction false} AssembleDistinct<K, V>(keys: seq<K>, items: seq<V>)
    requires |keys| == |items| && NoRepeats(keys)
    ensures Assemble(keys, items) == Pairs(keys, items)
  {
    if keys != [] {
      var n := |keys| - 1;
      hide Assemble, IndexOf;
      AssembleDistinct(keys[..n], items[..n]);
      assert keys[n] !in keys[..n];
      assert keys[..n] + [keys[n]] == keys && items[..n] + [items[n]] == items;
      AssembleAppend(keys[..n], items[..n], keys[n], items[n]);
      assert IndexOf(keys[..n], keys[n]) == n;
    }
  }

  lemma VisitNext(items: seq<Value>, x: Value, depth: nat, count: nat, lim: Limits)
    ensures var r := VisitAll(items, depth, count, lim);
            var y := Visit(x, depth, r.count, lim);
            VisitAll(items + [x], depth, count, lim) == Visited(r.value + [y.value], y.count)
  {
    assert (items + [x])[..|items|] == items;
  }

  lemma KeptContainer(v: Value, depth: nat, count: nat, lim: Limits)
    requires Container(v) && count + 1 <= lim.nodes && depth <= lim.depth
    ensures var r := VisitAll(First(v.items), depth + 1, count + 1, lim);
            Visit(v, depth, count, lim) == Visited(Rebuild(v, r.value), r.count)
  {
    hide Rebuild;
  }

  // A container in shape is built of its own items.
  lemma InShapeRebuilds(v: Value, depth: nat, lim: Limits)
    requires Container(v) && depth <= lim.depth && InShape(v, depth, lim)
    ensures |v.items| <= WIDTH && AllInShape(v.items, depth + 1, lim) && Rebuild(v, v.items) == v
  {
    if v.Dict? {
      forall i | 0 <= i < |v.keys| ensures Truncate(v.keys[i], KEY_BYTES) == v.keys[i] {
        FitsUnchanged(v.keys[i], KEY_BYTES);
      }
      assert TruncatedKeys(v.keys, |v.items|) == v.keys;
      AssembleDistinct(v.keys, v.items);
    }
  }

  /** A value within every limit comes back unchanged. */
  lemma {:induction false} InBoundsUnchanged(v: Value, depth: nat, count: nat, lim: Limits)
    requires InShape(v, depth, lim) && count + Size(v, depth, lim) <= lim.nodes
    ensures Visit(v, depth, count, lim) == Visited(v, count + Size(v, depth, lim))
    decreases v, 1
  {
    if !Container(v) && depth <= lim.depth {
      if v.Str? {
        FitsUnchanged(v.text, STRING_BYTES);
      }
    } else if Container(v) && depth <= lim.depth {
      InShapeRebuilds(v, depth, lim);
      KeptContainer(v, depth, count, lim);
      AllInBoundsUnchanged(v.items, depth + 1, count + 1, lim);
      hide Visit, VisitAll, Rebuild, InShape;
    }
  }

  lemma {:induction false} AllInBoundsUnchanged(items: seq<Value>, depth: nat, count: nat, lim: Limits)
    requires AllInShape(items, depth, lim)
    requires count + SizeAll(items, depth, lim) <= lim.nodes
    ensures VisitAll(items, depth, count, lim) == Visited(items, count + SizeAll(items, depth, lim))
    decreases items, 0
  {
    hide Leaf, Rebuild, InShape, Visit, Size;
    if items != [] {
      var last := |items| - 1;
      var before := items[..last];
      assert AllInShape(before, depth, lim) && InShape(items[last], depth, lim);
      AllInBoundsUnchanged(before, depth, count, lim);
      InBoundsUnchanged(items[last], depth, count + SizeAll(before, depth, lim), lim);
      VisitNext(before, items[last], depth, count, lim);
      assert before + [items[last]] == items;
    }
  }
}
