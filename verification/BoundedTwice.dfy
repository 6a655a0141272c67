/** Bounding a value that was bounded before. Whether that changes it depends on the dict keys that
    truncation makes equal: such a key keeps its first place and takes its last value. */
module BoundedTwice {
  import opened Utf8
  import opened BoundedValue

  // ---- Keys that truncation makes equal ----

  function LastIndexOf<K(==)>(keys: seq<K>, key: K): (i: nat)
    requires key in keys
    ensures i < |keys| && keys[i] == key
    ensures forall j :: i < j < |keys| ==> keys[j] != key
  {
    var n := |keys| - 1;
    if keys[n] == key then n
    else
      assert key in keys[..n];
      LastIndexOf(keys[..n], key)
  }

  // The last values come in the order of the first places.
  predicate OrderKept<K(==)>(keys: seq<K>) {
    forall a, b :: a in keys && b in keys && IndexOf(keys, a) < IndexOf(keys, b) ==>
        LastIndexOf(keys, a) < LastIndexOf(keys, b)
  }

  // The keys of a dict as the traversal sees them.
  function SeenKeys(keys: seq<Text>): (seen: seq<Text>)
    ensures |seen| == |First(keys)| == if |keys| <= WIDTH then |keys| else WIDTH
  {
    TruncatedKeys(keys, |First(keys)|)
  }

  // So it is for every dict of v, at any depth.
  predicate KeysKeepOrder(v: Value) {
    match v
    case List(items) => forall i :: 0 <= i < |items| ==> KeysKeepOrder(items[i])
    case Dict(keys, items) =>
      && OrderKept(TruncatedKeys(keys, |First(items)|))
      && forall i :: 0 <= i < |items| ==> KeysKeepOrder(items[i])
    case _ => true
  }

  lemma {:induction false} IndexInPrefix<K>(keys: seq<K>, n: nat, key: K)
    requires n <= |keys| && key in keys[..n]
    ensures IndexOf(keys, key) == IndexOf(keys[..n], key) < n
  {
    if keys[0] != key {
      assert keys[1..][..n - 1] == keys[..n][1..];
      assert key in keys[..n][1..];
      IndexInPrefix(keys[1..], n - 1, key);
    }
  }

  lemma {:induction false} IndexIsFirst<K>(keys: seq<K>, i: nat)
    requires i < |keys| && keys[i] !in keys[..i]
    ensures IndexOf(keys, keys[i]) == i
  {
    if i > 0 {
      assert keys[1..][..i - 1] == keys[..i][1..];
      assert keys[0] in keys[..i];
      IndexIsFirst(keys[1..], i - 1);
    }
  }

  // A dict made of pairs has each key once, in the order of the first places, with its last item.
  ghost predicate TakesLast<K(!new), V>(p: Pairs<K, V>, keys: seq<K>, items: seq<V>) {
    |keys| == |items| && |p.keys| == |p.items| && InFirstOrder(p.keys, keys) && HasLast(p, keys, items)
  }

  ghost predicate InFirstOrder<K(!new)>(some: seq<K>, keys: seq<K>) {
    && NoRepeats(some)
    && (forall k :: k in some <==> k in keys)
    && (forall i, j :: 0 <= i < j < |some| ==> IndexOf(keys, some[i]) < IndexOf(keys, some[j]))
  }

  ghost predicate HasLast<K, V>(p: Pairs<K, V>, keys: seq<K>, items: seq<V>)
    requires |keys| == |items| && |p.keys| == |p.items|
  {
    forall i :: 0 <= i < |p.keys| ==> p.keys[i] in keys && p.items[i] == items[LastIndexOf(keys, p.keys[i])]
  }

  lemma {:induction false} AssembleTakesLast<K(!new), V>(keys: seq<K>, items: seq<V>)
    requires |keys| == |items|
    ensures TakesLast(Assemble(keys, items), keys, items)
  {
    if keys == [] {
      NothingTakesLast(Assemble(keys, items));
    } else {
      var n := |keys| - 1;
      hide TakesLast, IndexOf, LastIndexOf, Put;
      AssembleTakesLast(keys[..n], items[..n]);
      assert keys[..n] + [keys[n]] == keys && items[..n] + [items[n]] == items;
      PutTakesLast(keys[..n], items[..n], Assemble(keys[..n], items[..n]), keys[n], items[n]);
    }
  }

  lemma NothingTakesLast<K(!new), V>(p: Pairs<K, V>)
    requires p == Pairs([], [])
    ensures TakesLast(p, [], [])
  {
  }

  // Places in a longer list.
  lemma PlacesGrow<K>(keys: seq<K>, key: K, k: K)
    requires k in keys || k == key
    ensures k in keys + [key]
    ensures IndexOf(keys + [key], k) == IndexOf(keys, k)
    ensures LastIndexOf(keys + [key], k) == if k == key then |keys| else LastIndexOf(keys, k)
  {
    var grown := keys + [key];
    assert grown[..|keys|] == keys && grown[|keys|] == key;
    if k in keys {
      IndexInPrefix(grown, |keys|, k);
    } else {
      IndexIsFirst(grown, |keys|);
    }
  }

  lemma PutTakesLast<K(!new), V>(keys: seq<K>, items: seq<V>, p: Pairs<K, V>, key: K, item: V)
    requires TakesLast(p, keys, items)
    ensures TakesLast(Put(p, key, item), keys + [key], items + [item])
  {
    forall k | k in keys || k == key
      ensures k in keys + [key] && IndexOf(keys + [key], k) == IndexOf(keys, k)
      ensures LastIndexOf(keys + [key], k) == if k == key then |keys| else LastIndexOf(keys, k)
    {
      PlacesGrow(keys, key, k);
    }
    if IndexOf(p.keys, key) < |p.keys| {
      ReplaceTakesLast(keys, items, p, key, item);
    } else {
      AppendTakesLast(keys, items, p, key, item);
    }
  }

  ghost predicate PlacesKnown<K(!new)>(keys: seq<K>, key: K) {
    forall k :: k in keys || k == key ==>
      && k in keys + [key]
      && IndexOf(keys + [key], k) == IndexOf(keys, k)
      && LastIndexOf(keys + [key], k) == if k == key then |keys| else LastIndexOf(keys, k)
  }

  lemma ReplaceTakesLast<K(!new), V>(keys: seq<K>, items: seq<V>, p: Pairs<K, V>, key: K, item: V)
    requires TakesLast(p, keys, items) && IndexOf(p.keys, key) < |p.keys| && PlacesKnown(keys, key)
    ensures TakesLast(Put(p, key, item), keys + [key], items + [item])
  {
    var at := IndexOf(p.keys, key);
    var q := p.(items := p.items[at := item]);
    assert Put(p, key, item) == q;
    assert p.keys[at] == key;
    hide Put;
    SameInFirstOrder(p.keys, keys, key);
    hide InFirstOrder;
    FirstOrderDistinct(p.keys, keys);
    hide IndexOf, LastIndexOf;
    forall i | 0 <= i < |q.keys|
      ensures q.keys[i] in keys + [key] && q.items[i] == (items + [item])[LastIndexOf(keys + [key], q.keys[i])]
    {
      assert p.keys[i] in keys;
      assert p.keys[i] == key <==> i == at;
    }
  }

  lemma FirstOrderDistinct<K(!new)>(some: seq<K>, keys: seq<K>)
    requires InFirstOrder(some, keys)
    ensures NoRepeats(some)
  {
  }

  // A key seen before changes no first place.
  lemma SameInFirstOrder<K(!new)>(some: seq<K>, keys: seq<K>, key: K)
    requires InFirstOrder(some, keys) && key in some && PlacesKnown(keys, key)
    ensures InFirstOrder(some, keys + [key])
  {
    hide IndexOf, LastIndexOf;
    assert forall k :: k in keys + [key] <==> k in keys;
    assert forall i :: 0 <= i < |some| ==> some[i] in keys;
  }

  lemma AppendTakesLast<K(!new), V>(keys: seq<K>, items: seq<V>, p: Pairs<K, V>, key: K, item: V)
    requires TakesLast(p, keys, items) && IndexOf(p.keys, key) == |p.keys| && PlacesKnown(keys, key)
    ensures TakesLast(Put(p, key, item), keys + [key], items + [item])
  {
    var q := Pairs(p.keys + [key], p.items + [item]);
    assert Put(p, key, item) == q && key !in keys && IndexOf(keys, key) == |keys|;
    hide IndexOf, LastIndexOf, Put;
    AppendInFirstOrder(p.keys, keys, key);
    hide InFirstOrder;
    forall i | 0 <= i < |q.keys|
      ensures q.keys[i] in keys + [key] && q.items[i] == (items + [item])[LastIndexOf(keys + [key], q.keys[i])]
    {
      assert i < |p.keys| ==> q.keys[i] == p.keys[i] && p.keys[i] in keys;
    }
  }

  lemma AppendInFirstOrder<K(!new)>(some: seq<K>, keys: seq<K>, key: K)
    requires InFirstOrder(some, keys) && key !in keys && IndexOf(keys, key) == |keys| && PlacesKnown(keys, key)
    ensures InFirstOrder(some + [key], keys + [key])
  {
    hide IndexOf, LastIndexOf;
    assert forall k :: k in keys + [key] <==> k in keys || k == key;
    assert forall k :: k in some + [key] <==> k in some || k == key;
    assert forall i :: 0 <= i < |some| ==> some[i] in keys;
  }

  // ---- Sufficiency: the second traversal meets the kept items in order, at no greater count ----

  lemma BoundedStays(depth: nat, count: nat, lim: Limits)
    ensures Visit(BOUNDED, depth, count, lim) == Visited(BOUNDED, count + 1)
  {
    AsciiSize(BOUNDED.text);
  }

  lemma LeafTwice(v: Value)
    requires !Container(v)
    ensures Leaf(Leaf(v)) == Leaf(v)
  {
    hide Truncate, Encode, Encodable;
    match v
    case NonFinite => MarkerStays(NON_FINITE.text);
    case Other => MarkerStays(REDACTED.text);
    case Str(t) => TruncateIdempotent(t, STRING_BYTES);
    case _ =>
  }

  lemma MarkerStays(t: Text)
    requires |t| <= STRING_BYTES && forall i :: 0 <= i < |t| ==> t[i] < 0x80
    ensures Truncate(t, STRING_BYTES) == t
  {
    AsciiSize(t);
  }

  lemma TruncatedKeysStable(keys: seq<Text>, n: nat)
    ensures TruncatedKeys(TruncatedKeys(keys, n), n) == TruncatedKeys(keys, n)
  {
    forall i | 0 <= i < n
      ensures TruncatedKeys(TruncatedKeys(keys, n), n)[i] == TruncatedKeys(keys, n)[i]
    {
      if i < |keys| {
        TruncateIdempotent(keys[i], KEY_BYTES);
      }
    }
  }

  // Keys that a dict took from truncated ones are not cut again.
  lemma PlainAgain(keys: seq<Text>, n: nat, some: seq<Text>)
    requires forall k :: k in some ==> k in TruncatedKeys(keys, n)
    ensures TruncatedKeys(some, |some|) == some
  {
    var truncated := TruncatedKeys(keys, n);
    TruncatedKeysStable(keys, n);
    forall i | 0 <= i < |some| ensures Truncate(some[i], KEY_BYTES) == some[i] {
      assert some[i] in truncated;
      var j :| 0 <= j < n && truncated[j] == some[i];
      assert TruncatedKeys(truncated, n)[j] == truncated[j];
    }
  }

  // A rebuilt container, visited again, is built of what becomes of its items.
  lemma RebuildTwice(v: Value, items: seq<Value>)
    requires Container(v) && |items| <= WIDTH
    ensures var w := Rebuild(v, items);
            && Container(w) && |w.items| <= |items| && (v.List? ==> w.items == items)
            && Rebuild(w, w.items) == w
            && (forall again: seq<Value> {:trigger Rebuild(w, again)} :: |again| == |w.items| ==>
                 Rebuild(w, again).items == again)
  {
    if v.Dict? {
      var keys := TruncatedKeys(v.keys, |items|);
      var p := Assemble(keys, items);
      AssembleTakesLast(keys, items);
      PlainAgain(v.keys, |items|, p.keys);
      forall again: seq<Value> | |again| == |p.items| ensures Assemble(p.keys, again) == Pairs(p.keys, again) {
        AssembleDistinct(p.keys, again);
      }
    }
  }

  // Some of a list, in its order.
  predicate Increasing(places: seq<nat>, limit: nat) {
    && (forall i, j :: 0 <= i < j < |places| ==> places[i] < places[j])
    && (forall i :: 0 <= i < |places| ==> places[i] < limit)
  }

  lemma {:induction false} PlacesFit(places: seq<nat>, limit: nat)
    requires Increasing(places, limit)
    ensures |places| <= limit
  {
    if places != [] {
      var n := |places| - 1;
      PlacesFit(places[..n], places[n]);
    }
  }

  function Chosen(items: seq<Value>, places: seq<nat>): seq<Value>
    requires forall i :: 0 <= i < |places| ==> places[i] < |items|
  {
    seq(|places|, i requires 0 <= i < |places| => items[places[i]])
  }

  /** A second traversal that starts at no greater count changes nothing and counts no further, if
      the keys keep their order. */
  lemma {:induction false} VisitAgain(v: Value, depth: nat, count: nat, less: nat, lim: Limits)
    requires KeysKeepOrder(v) && less <= count
    ensures var r := Visit(v, depth, count, lim);
            var again := Visit(r.value, depth, less, lim);
            again.value == r.value && again.count <= r.count
    decreases v, 1
  {
    hide KeysKeepOrder, Rebuild;
    if count + 1 > lim.nodes || depth > lim.depth {
      BoundedStays(depth, less, lim);
    } else if !Container(v) {
      LeafTwice(v);
    } else {
      VisitContainerAgain(v, depth, count, less, lim);
    }
  }

  lemma VisitContainerAgain(v: Value, depth: nat, count: nat, less: nat, lim: Limits)
    requires Container(v) && KeysKeepOrder(v) && less <= count && count + 1 <= lim.nodes && depth <= lim.depth
    ensures var r := Visit(v, depth, count, lim);
            var again := Visit(r.value, depth, less, lim);
            again.value == r.value && again.count <= r.count
    decreases v, 0
  {
    hide Visit, VisitAll, KeysKeepOrder, Rebuild;
    var r := VisitAll(First(v.items), depth + 1, count + 1, lim);
    var w := Rebuild(v, r.value);
    KeptContainer(v, depth, count, lim);
    RebuildTwice(v, r.value);
    var places := Places(v, r.value);
    ItemsKeepOrder(v);
    VisitChosenAgain(First(v.items), places, depth + 1, count + 1, less + 1, lim);
    KeptContainer(w, depth, less, lim);
  }

  lemma ItemsKeepOrder(v: Value)
    requires Container(v) && KeysKeepOrder(v)
    ensures forall i :: 0 <= i < |First(v.items)| ==> KeysKeepOrder(First(v.items)[i])
  {
  }

  // Where the items of a rebuilt container come from.
  lemma Places(v: Value, items: seq<Value>) returns (places: seq<nat>)
    requires Container(v) && KeysKeepOrder(v) && |items| == |First(v.items)|
    ensures Increasing(places, |items|) && Rebuild(v, items).items == Chosen(items, places)
  {
    if v.List? {
      places := seq(|items|, i => i);
    } else {
      places := DictPlaces(TruncatedKeys(v.keys, |items|), items);
    }
  }

  lemma DictPlaces<K(!new)>(keys: seq<K>, items: seq<Value>) returns (places: seq<nat>)
    requires |keys| == |items| && OrderKept(keys)
    ensures Increasing(places, |items|) && Assemble(keys, items).items == Chosen(items, places)
  {
    AssembleTakesLast(keys, items);
    hide Assemble, IndexOf, LastIndexOf, NoRepeats;
    var p := Assemble(keys, items);
    places := seq(|p.keys|, i requires 0 <= i < |p.keys| => LastIndexOf(keys, p.keys[i]));
    assert forall i :: 0 <= i < |p.keys| ==> p.keys[i] in keys;
  }

  lemma {:induction false} VisitChosenAgain(items: seq<Value>, places: seq<nat>, depth: nat, count: nat, less: nat,
      lim: Limits)
    requires forall i :: 0 <= i < |items| ==> KeysKeepOrder(items[i])
    requires Increasing(places, |items|) && less <= count
    ensures var r := VisitAll(items, depth, count, lim);
            var chosen := Chosen(r.value, places);
            var again := VisitAll(chosen, depth, less, lim);
            again.value == chosen && again.count <= r.count
    decreases items, 0
  {
    hide Visit, VisitAll, KeysKeepOrder;
    if items == [] {
      VisitNone(depth, count, lim);
      VisitNone(depth, less, lim);
      PlacesFit(places, 0);
      assert Chosen(VisitAll(items, depth, count, lim).value, places) == [];
    } else {
      var n, m := |items| - 1, |places| - 1;
      var before := VisitAll(items[..n], depth, count, lim);
      VisitNext(items[..n], items[n], depth, count, lim);
      assert items[..n] + [items[n]] == items;
      var last := Visit(items[n], depth, before.count, lim);
      CountGrows(items[n], depth, before.count, lim);
      if places != [] && places[m] == n {
        VisitChosenAgain(items[..n], places[..m], depth, count, less, lim);
        var chosen := Chosen(before.value, places[..m]);
        var some := VisitAll(chosen, depth, less, lim);
        VisitAgain(items[n], depth, before.count, some.count, lim);
        assert Chosen(before.value + [last.value], places) == chosen + [last.value];
        VisitNext(chosen, last.value, depth, less, lim);
      } else {
        VisitChosenAgain(items[..n], places, depth, count, less, lim);
        assert Chosen(before.value + [last.value], places) == Chosen(before.value, places);
      }
    }
  }

  lemma VisitNone(depth: nat, count: nat, lim: Limits)
    ensures VisitAll([], depth, count, lim) == Visited([], count)
  {
  }

  lemma CountGrows(v: Value, depth: nat, count: nat, lim: Limits)
    ensures Visit(v, depth, count, lim).count > count
  {
    CountBounds(v, depth, count, lim);
  }

  lemma CountAtMostSize(v: Value, depth: nat, count: nat, lim: Limits)
    ensures Visit(v, depth, count, lim).count <= count + Size(v, depth, lim)
    decreases v, 1
  {
    hide VisitAll;
    if Container(v) && count + 1 <= lim.nodes && depth <= lim.depth {
      CountAllAtMostSize(First(v.items), depth + 1, count + 1, lim);
    }
  }

  lemma {:induction false} CountAllAtMostSize(items: seq<Value>, depth: nat, count: nat, lim: Limits)
    ensures VisitAll(items, depth, count, lim).count <= count + SizeAll(items, depth, lim)
    decreases items, 0
  {
    if items != [] {
      var last := |items| - 1;
      CountAllAtMostSize(items[..last], depth, count, lim);
      CountAtMostSize(items[last], depth, VisitAll(items[..last], depth, count, lim).count, lim);
    }
  }

  // ---- A traversal that stays within its node limit ----

  lemma {:induction false} SizeAllUpdate(items: seq<Value>, i: nat, x: Value, depth: nat, lim: Limits)
    requires i < |items|
    ensures SizeAll(items[i := x], depth, lim) <= SizeAll(items, depth, lim) + Size(x, depth, lim)
  {
    var last := |items| - 1;
    if i < last {
      SizeAllUpdate(items[..last], i, x, depth, lim);
      assert items[i := x][..last] == items[..last][i := x];
    } else {
      assert items[i := x][..last] == items[..last];
    }
  }

  lemma {:induction false} AssembleShrinks<K>(keys: seq<K>, items: seq<Value>, depth: nat, lim: Limits)
    requires |keys| == |items|
    ensures SizeAll(Assemble(keys, items).items, depth, lim) <= SizeAll(items, depth, lim)
  {
    if keys != [] {
      var n := |keys| - 1;
      AssembleShrinks(keys[..n], items[..n], depth, lim);
      var p := Assemble(keys[..n], items[..n]);
      var i := IndexOf(p.keys, keys[n]);
      assert Assemble(keys, items).items == if i < |p.keys| then p.items[i := items[n]] else p.items + [items[n]];
      hide Size, Assemble, IndexOf, Put;
      if i < |p.keys| {
        SizeAllUpdate(p.items, i, items[n], depth, lim);
      } else {
        assert (p.items + [items[n]])[..|p.items|] == p.items;
      }
    }
  }

  lemma AssembledItemsInShape<K>(keys: seq<K>, items: seq<Value>, depth: nat, lim: Limits)
    requires |keys| == |items| && AllInShape(items, depth, lim)
    ensures AllInShape(Assemble(keys, items).items, depth, lim)
  {
    var p := Assemble(keys, items);
    AssembleItems(keys, items);
    forall i | 0 <= i < |p.items| ensures InShape(p.items[i], depth, lim) {
      assert p.items[i] in items;
      var j :| 0 <= j < |items| && items[j] == p.items[i];
    }
  }

  lemma AssembledKeysArePlain(keys: seq<Text>, items: seq<Value>)
    ensures PlainKeys(Assemble(TruncatedKeys(keys, |items|), items).keys)
  {
    var p := Assemble(TruncatedKeys(keys, |items|), items);
    AssembleTakesLast(TruncatedKeys(keys, |items|), items);
    PlainAgain(keys, |items|, p.keys);
    forall i | 0 <= i < |p.keys| ensures FitsIn(p.keys[i], 64) {
      assert TruncatedKeys(p.keys, |p.keys|)[i] == p.keys[i];
      FitsUnchanged(p.keys[i], 64);
    }
  }

  lemma RebuildInShape(v: Value, items: seq<Value>, depth: nat, lim: Limits)
    requires Container(v) && |items| <= WIDTH && AllInShape(items, depth + 1, lim) && depth <= lim.depth
    ensures InShape(Rebuild(v, items), depth, lim)
    ensures Size(Rebuild(v, items), depth, lim) <= 1 + SizeAll(items, depth + 1, lim)
  {
    if v.Dict? {
      var keys := TruncatedKeys(v.keys, |items|);
      AssembledKeysArePlain(v.keys, items);
      AssembledItemsInShape(keys, items, depth + 1, lim);
      AssembleShrinks(keys, items, depth + 1, lim);
    }
  }

  lemma {:induction false} UncutResultInShape(v: Value, depth: nat, count: nat, lim: Limits)
    requires Visit(v, depth, count, lim).count <= lim.nodes
    ensures var r := Visit(v, depth, count, lim);
            InShape(r.value, depth, lim) && count + Size(r.value, depth, lim) <= r.count
    decreases v, 1
  {
    if Container(v) && depth <= lim.depth && count + 1 <= lim.nodes {
      var r := VisitAll(First(v.items), depth + 1, count + 1, lim);
      KeptContainer(v, depth, count, lim);
      assert First(v.items) <= v.items;
      hide Visit, VisitAll;
      UncutResultsInShape(First(v.items), depth + 1, count + 1, lim);
      RebuildInShape(v, r.value, depth, lim);
    } else if !Container(v) && v.Str? {
      TruncateIdempotent(v.text, STRING_BYTES);
      FitsUnchanged(Truncate(v.text, STRING_BYTES), STRING_BYTES);
    } else if !Container(v) {
      MarkersFit();
    }
  }

  lemma MarkersFit()
    ensures FitsIn(NON_FINITE.text, 1024) && FitsIn(REDACTED.text, 1024)
  {
    AsciiSize(NON_FINITE.text);
    AsciiSize(REDACTED.text);
  }

  lemma {:induction false} UncutResultsInShape(items: seq<Value>, depth: nat, count: nat, lim: Limits)
    requires VisitAll(items, depth, count, lim).count <= lim.nodes
    ensures var r := VisitAll(items, depth, count, lim);
            AllInShape(r.value, depth, lim) && count + SizeAll(r.value, depth, lim) <= r.count
    decreases items, 0
  {
    hide Visit, Size, InShape;
    if items != [] {
      var last := |items| - 1;
      var before := VisitAll(items[..last], depth, count, lim);
      CountBounds(items[last], depth, before.count, lim);
      UncutResultsInShape(items[..last], depth, count, lim);
      UncutResultInShape(items[last], depth, before.count, lim);
      assert VisitAll(items, depth, count, lim).value[..last] == before.value;
    }
  }

  /** Bounding what was bounded changes nothing, if every dict's keys keep their order when they are
      truncated, or if the whole value is within the node limit. */
  lemma BoundTwice(v: Value, lim: Limits)
    requires KeysKeepOrder(v) || Size(v, 0, lim) <= lim.nodes
    ensures var once := Cut(v, 0, 1, lim); Cut(once, 0, 1, lim) == once
  {
    hide Visit, Cut, Size, KeysKeepOrder;
    var r := Visit(v, 0, 0, lim);
    VisitIsPreorderCut(v, 0, 0, 0, lim);
    VisitIsPreorderCut(r.value, 0, 0, 0, lim);
    if KeysKeepOrder(v) {
      VisitAgain(v, 0, 0, 0, lim);
    } else {
      CountAtMostSize(v, 0, 0, lim);
      UncutResultInShape(v, 0, 0, lim);
      InBoundsUnchanged(r.value, 0, 0, lim);
    }
  }

  // ---- Distinct keys: the second traversal also counts alike ----

  // No dict of v, at any depth, has two of its first keys truncated to the same text.
  predicate KeysStayDistinct(v: Value) {
    match v
    case List(items) => forall i :: 0 <= i < |items| ==> KeysStayDistinct(items[i])
    case Dict(keys, items) =>
      && NoRepeats(TruncatedKeys(keys, |First(items)|))
      && forall i :: 0 <= i < |items| ==> KeysStayDistinct(items[i])
    case _ => true
  }

  /** Bounding is idempotent, count for count, when no truncated sibling keys collide. */
  lemma {:induction false} VisitTwice(v: Value, depth: nat, count: nat, lim: Limits)
    requires KeysStayDistinct(v)
    ensures var r := Visit(v, depth, count, lim); Visit(r.value, depth, count, lim) == r
    decreases v, 1
  {
    if count + 1 > lim.nodes || depth > lim.depth {
      BoundedStays(depth, count, lim);
    } else if !Container(v) {
      LeafTwice(v);
    } else {
      VisitContainerTwice(v, depth, count, lim);
    }
  }

  lemma VisitContainerTwice(v: Value, depth: nat, count: nat, lim: Limits)
    requires Container(v) && KeysStayDistinct(v) && count + 1 <= lim.nodes && depth <= lim.depth
    ensures var r := Visit(v, depth, count, lim); Visit(r.value, depth, count, lim) == r
    decreases v, 0
  {
    hide Visit, VisitAll, KeysStayDistinct, Rebuild;
    var r := VisitAll(First(v.items), depth + 1, count + 1, lim);
    KeptContainer(v, depth, count, lim);
    DistinctItems(v);
    VisitAllTwice(First(v.items), depth + 1, count + 1, lim);
    DistinctRebuildTwice(v, r.value);
    KeptContainer(Rebuild(v, r.value), depth, count, lim);
  }

  lemma DistinctItems(v: Value)
    requires Container(v) && KeysStayDistinct(v)
    ensures forall i :: 0 <= i < |First(v.items)| ==> KeysStayDistinct(First(v.items)[i])
  {
  }

  lemma DistinctRebuildTwice(v: Value, items: seq<Value>)
    requires Container(v) && |items| == |First(v.items)|
    requires KeysStayDistinct(v)
    ensures var w := Rebuild(v, items); Container(w) && w.items == items && Rebuild(w, items) == w
  {
    RebuildTwice(v, items);
    if v.Dict? {
      AssembleDistinct(TruncatedKeys(v.keys, |items|), items);
    }
  }

  lemma {:induction false} VisitAllTwice(items: seq<Value>, depth: nat, count: nat, lim: Limits)
    requires forall i :: 0 <= i < |items| ==> KeysStayDistinct(items[i])
    ensures var r := VisitAll(items, depth, count, lim); VisitAll(r.value, depth, count, lim) == r
    decreases items, 0
  {
    hide Visit, KeysStayDistinct;
    if items != [] {
      var last := |items| - 1;
      var before := VisitAll(items[..last], depth, count, lim);
      VisitAllTwice(items[..last], depth, count, lim);
      VisitTwice(items[last], depth, before.count, lim);
      assert VisitAll(items, depth, count, lim).value[..last] == before.value;
    }
  }

  // ---- Necessity: keys that lose their order do so for some items, at each limit in use ----

  predicate BoundsTwice(v: Value, lim: Limits) {
    var once := Cut(v, 0, 1, lim); Cut(once, 0, 1, lim) == once
  }

  // The limits for a run's configuration and for an event's attributes.
  predicate InUse(lim: Limits) {
    lim == Limits(4, 128) || lim == Limits(3, 112)
  }

  // A list of lists of leaves, which no traversal in use gets through.
  const ROW: Value := List(seq(WIDTH, _ => Null))
  const GRID: Value := List(seq(WIDTH, _ => ROW))

  // Wherever the grid is met among the items of a dict, m of its rows are kept; and m rows with the
  // other places of the grid are more than the limit allows.
  predicate CutsGrid(lim: Limits, m: nat) {
    m <= WIDTH && 3 <= lim.depth && 1 + (WIDTH + 1) * m <= lim.nodes < 26 + WIDTH * m
  }

  lemma LimitsCutGrid(lim: Limits) returns (m: nat)
    requires InUse(lim)
    ensures CutsGrid(lim, m) && lim.nodes >= WIDTH + 2
  {
    m := if lim.nodes == 112 then 4 else 5;
  }

  // n leaves, but for the grid at place q.
  function Leaves(n: nat, q: nat): seq<Value> {
    seq(n, i => if i == q then GRID else Null)
  }

  lemma LeavesKeepOrder(n: nat, q: nat)
    ensures forall i :: 0 <= i < n ==> KeysKeepOrder(Leaves(n, q)[i])
  {
    assert KeysKeepOrder(ROW);
  }

  lemma {:induction false} VisitPrefix(items: seq<Value>, k: nat, depth: nat, count: nat, lim: Limits)
    requires k < |items|
    ensures var before := VisitAll(items[..k], depth, count, lim).count;
            var r := VisitAll(items, depth, count, lim);
            var x := Visit(items[k], depth, before, lim);
            r.value[k] == x.value && r.count >= x.count
  {
    hide Visit;
    var n := |items| - 1;
    if k < n {
      VisitPrefix(items[..n], k, depth, count, lim);
      assert items[..n][..k] == items[..k];
      CountGrows(items[n], depth, VisitAll(items[..n], depth, count, lim).count, lim);
    }
  }

  // ---- The first traversal ----

  // The leaves before place q are kept.
  lemma {:induction false} LeavesKept(n: nat, q: nat, k: nat, lim: Limits)
    requires k <= n && k <= q && k + 2 <= lim.nodes && 1 <= lim.depth
    ensures VisitAll(Leaves(n, q)[..k], 1, 1, lim).count == 1 + k
    ensures k < n && k < q ==> VisitAll(Leaves(n, q), 1, 1, lim).value[k] == Null
  {
    var leaves := Leaves(n, q);
    if k > 0 {
      LeavesKept(n, q, k - 1, lim);
      VisitNext(leaves[..k - 1], leaves[k - 1], 1, 1, lim);
      assert leaves[..k] == leaves[..k - 1] + [leaves[k - 1]];
    } else {
      VisitNone(1, 1, lim);
    }
    if k < n && k < q {
      VisitPrefix(leaves, k, 1, 1, lim);
    }
  }

  lemma {:induction false} EqualSizes(items: seq<Value>, size: nat, depth: nat, lim: Limits)
    requires forall i :: 0 <= i < |items| ==> Size(items[i], depth, lim) == size
    ensures SizeAll(items, depth, lim) == |items| * size
  {
    hide Size;
    if items != [] {
      EqualSizes(items[..|items| - 1], size, depth, lim);
    }
  }

  lemma RowSize(lim: Limits)
    requires 2 <= lim.depth
    ensures Size(ROW, 2, lim) == WIDTH + 1
  {
    EqualSizes(ROW.items, 1, 3, lim);
    hide SizeAll;
    assert First(ROW.items) == ROW.items;
  }

  // A list that has WIDTH places, of which the first m hold lists that have WIDTH places.
  predicate GridLike(v: Value, m: nat) {
    && v.List? && |v.items| == WIDTH && m <= WIDTH
    && forall j :: 0 <= j < m ==> v.items[j].List? && |v.items[j].items| == WIDTH
  }

  lemma GridStaysGrid(count: nat, lim: Limits, m: nat)
    requires CutsGrid(lim, m) && count <= WIDTH && m >= 1
    ensures GridLike(Visit(GRID, 1, count, lim).value, m)
  {
    KeptContainer(GRID, 1, count, lim);
    assert First(GRID.items) == GRID.items;
    hide Visit, VisitAll, Size, SizeAll;
    var rows := VisitAll(GRID.items, 2, count + 1, lim).value;
    forall j | 0 <= j < m ensures rows[j].List? && |rows[j].items| == WIDTH {
      RowStaysRow(j, count + 1, lim);
    }
  }

  lemma RowStaysRow(j: nat, count: nat, lim: Limits)
    requires j < WIDTH && count + (WIDTH + 1) * j + 1 <= lim.nodes && 2 <= lim.depth
    ensures var row := VisitAll(GRID.items, 2, count, lim).value[j]; row.List? && |row.items| == WIDTH
  {
    var before := VisitAll(GRID.items[..j], 2, count, lim).count;
    RowSize(lim);
    EqualSizes(GRID.items[..j], WIDTH + 1, 2, lim);
    hide Size, SizeAll, Visit, VisitAll;
    CountAllAtMostSize(GRID.items[..j], 2, count, lim);
    VisitPrefix(GRID.items, j, 2, count, lim);
    assert GRID.items[j] == ROW;
    KeptContainer(ROW, 2, before, lim);
    assert First(ROW.items) == ROW.items;
  }

  // ---- The second traversal ----

  lemma {:induction false} CountsEach(items: seq<Value>, depth: nat, count: nat, lim: Limits)
    ensures VisitAll(items, depth, count, lim).count >= count + |items|
  {
    hide Visit;
    if items != [] {
      var n := |items| - 1;
      CountsEach(items[..n], depth, count, lim);
      CountGrows(items[n], depth, VisitAll(items[..n], depth, count, lim).count, lim);
    }
  }

  lemma RowUsesUp(row: Value, count: nat, lim: Limits)
    requires row.List? && |row.items| == WIDTH && 2 <= lim.depth
    ensures var c := Visit(row, 2, count, lim).count; c > lim.nodes || c >= count + WIDTH + 1
  {
    if count + 1 <= lim.nodes {
      KeptContainer(row, 2, count, lim);
      CountsEach(row.items, 3, count + 1, lim);
    }
  }

  lemma {:induction false} RowsUseUp(items: seq<Value>, m: nat, count: nat, lim: Limits)
    requires 2 <= lim.depth
    requires forall j :: 0 <= j < |items| && j < m ==> items[j].List? && |items[j].items| == WIDTH
    ensures var c := VisitAll(items, 2, count, lim).count;
            c > lim.nodes || c >= count + |items| + WIDTH * (if |items| <= m then |items| else m)
  {
    hide Visit;
    if items != [] {
      var n := |items| - 1;
      RowsUseUp(items[..n], m, count, lim);
      var before := VisitAll(items[..n], 2, count, lim).count;
      CountGrows(items[n], 2, before, lim);
      if n < m {
        RowUsesUp(items[n], before, lim);
      }
    }
  }

  // The grid, wherever it is visited, uses up the limit.
  lemma GridUsesUp(v: Value, m: nat, count: nat, lim: Limits)
    requires GridLike(v, m) && CutsGrid(lim, m) && count >= 1
    ensures Visit(v, 1, count, lim).count > lim.nodes
  {
    if count + 1 <= lim.nodes {
      KeptContainer(v, 1, count, lim);
      RowsUseUp(v.items, m, count + 1, lim);
    }
  }

  // In the assembled dict the grid comes before a leaf, which is then cut.
  lemma LeafCut(items: seq<Value>, ja: nat, jb: nat, m: nat, lim: Limits)
    requires ja < jb < |items| && GridLike(items[ja], m) && CutsGrid(lim, m)
    ensures VisitAll(items, 1, 1, lim).value[jb] == BOUNDED
  {
    hide GridLike;
    var before := VisitAll(items[..ja], 1, 1, lim).count;
    CountsEach(items[..ja], 1, 1, lim);
    GridUsesUp(items[ja], m, before, lim);
    VisitPrefix(items[..jb], ja, 1, 1, lim);
    assert items[..jb][..ja] == items[..ja];
    VisitPrefix(items, jb, 1, 1, lim);
  }

  /** If truncation changes the order of a dict's keys, then with some plain items the second traversal
      cuts a node that the first one kept, at each limit in use. */
  lemma OrderLost(keys: seq<Text>, lim: Limits) returns (q: nat)
    requires !OrderKept(SeenKeys(keys)) && InUse(lim)
    ensures q < |First(keys)|
    ensures !BoundsTwice(Dict(keys, Leaves(|keys|, q)), lim)
  {
    hide Visit, VisitAll, Cut, Rebuild, Assemble, IndexOf, LastIndexOf, Leaves, TruncatedKeys, First, BoundsTwice,
        OrderKept, GridLike;
    var m := LimitsCutGrid(lim);
    hide InUse;
    var ks := SeenKeys(keys);
    var a, b := LostPair(ks);
    q := LastIndexOf(ks, a);
    FirstLeaves(|keys|, q);
    var r := FirstPass(ks, q, LastIndexOf(ks, b), m, lim);
    var ja, jb := Swapped(ks, r, a, b);
    SecondPassDiffers(keys, Leaves(|keys|, q), r, ja, jb, m, lim);
  }

  lemma LostPair<K>(ks: seq<K>) returns (a: K, b: K)
    requires !OrderKept(ks)
    ensures a in ks && b in ks && IndexOf(ks, a) < IndexOf(ks, b) && LastIndexOf(ks, a) > LastIndexOf(ks, b)
  {
    a, b :| a in ks && b in ks && IndexOf(ks, a) < IndexOf(ks, b) && LastIndexOf(ks, a) >= LastIndexOf(ks, b);
  }

  lemma FirstLeaves(n: nat, q: nat)
    ensures |Leaves(n, q)| == n
    ensures First(Leaves(n, q)) == Leaves(if n <= WIDTH then n else WIDTH, q)
  {
  }

  // The first traversal keeps the leaf at place p and cuts the grid at place q.
  lemma FirstPass(ks: seq<Text>, q: nat, p: nat, m: nat, lim: Limits) returns (r: seq<Value>)
    requires p < q < |ks| <= WIDTH && CutsGrid(lim, m) && lim.nodes >= WIDTH + 2
    ensures r == VisitAll(Leaves(|ks|, q), 1, 1, lim).value
    ensures |r| == |ks| && r[p] == Null && GridLike(r[q], m)
  {
    var leaves := Leaves(|ks|, q);
    r := VisitAll(leaves, 1, 1, lim).value;
    LeavesKept(|ks|, q, p, lim);
    LeavesKept(|ks|, q, q, lim);
    hide Visit, VisitAll;
    VisitPrefix(leaves, q, 1, 1, lim);
    GridStaysGrid(q + 1, lim, m);
  }

  // The second traversal finds the grid before the leaf, and cuts the leaf.
  lemma SecondPassDiffers(keys: seq<Text>, items: seq<Value>, r: seq<Value>, ja: nat, jb: nat, m: nat, lim: Limits)
    requires |items| == |keys| && CutsGrid(lim, m) && lim.nodes >= 1
    requires r == VisitAll(First(items), 1, 1, lim).value
    requires var p := Assemble(SeenKeys(keys), r);
             ja < jb < |p.items| && GridLike(p.items[ja], m) && p.items[jb] == Null
    ensures !BoundsTwice(Dict(keys, items), lim)
  {
    var v := Dict(keys, items);
    var w := Rebuild(v, r);
    assert w.items == Assemble(SeenKeys(keys), r).items;
    hide Visit, VisitAll, Cut, Rebuild, Assemble, IndexOf, LastIndexOf, SeenKeys, First, GridLike;
    LeafCut(w.items, ja, jb, m, lim);
    var again := VisitAll(w.items, 1, 1, lim).value;
    assert again[jb] != w.items[jb];
    RebuildTwice(v, r);
    assert Rebuild(w, again).items == again;
    CutIs(v, r, lim);
    FewStay(w.items);
    CutIs(w, again, lim);
  }

  lemma FewStay(items: seq<Value>)
    requires |items| <= WIDTH
    ensures First(items) == items
  {
  }

  // A container at the root is built of what its items come to.
  lemma CutIs(v: Value, r: seq<Value>, lim: Limits)
    requires Container(v) && lim.nodes >= 1 && r == VisitAll(First(v.items), 1, 1, lim).value
    ensures Cut(v, 0, 1, lim) == Rebuild(v, r)
  {
    hide Cut, Visit, VisitAll;
    KeptContainer(v, 0, 0, lim);
    VisitIsPreorderCut(v, 0, 0, 0, lim);
  }

  // Where the assembled dict has the last items of two keys.
  lemma Swapped<K(!new)>(ks: seq<K>, items: seq<Value>, a: K, b: K) returns (ja: nat, jb: nat)
    requires |items| == |ks| && a in ks && b in ks && IndexOf(ks, a) < IndexOf(ks, b)
    ensures var p := Assemble(ks, items);
            ja < jb < |p.items| && p.items[ja] == items[LastIndexOf(ks, a)] && p.items[jb] == items[LastIndexOf(ks, b)]
  {
    var p := Assemble(ks, items);
    AssembleTakesLast(ks, items);
    hide Assemble;
    ja :| 0 <= ja < |p.keys| && p.keys[ja] == a;
    jb :| 0 <= jb < |p.keys| && p.keys[jb] == b;
  }

  /** For given keys and either limit in use, bounding twice is bounding once for all items (whose own
      dicts keep their order) if and only if truncation keeps the order of the keys. */
  lemma KeyOrderIsExact(keys: seq<Text>, lim: Limits)
    requires InUse(lim)
    ensures OrderKept(SeenKeys(keys)) <==>
              forall items: seq<Value> ::
                |items| == |keys| && (forall i :: 0 <= i < |items| ==> KeysKeepOrder(items[i])) ==>
                    BoundsTwice(Dict(keys, items), lim)
  {
    hide BoundsTwice, OrderKept, SeenKeys, KeysKeepOrder, InUse;
    if OrderKept(SeenKeys(keys)) {
      forall items: seq<Value> | |items| == |keys| && (forall i :: 0 <= i < |items| ==> KeysKeepOrder(items[i]))
        ensures BoundsTwice(Dict(keys, items), lim)
      {
        DictBoundsTwice(keys, items, lim);
      }
    } else {
      var q := OrderLost(keys, lim);
      LeavesKeepOrder(|keys|, q);
    }
  }

  lemma DictBoundsTwice(keys: seq<Text>, items: seq<Value>, lim: Limits)
    requires OrderKept(SeenKeys(keys)) && |items| == |keys| && forall i :: 0 <= i < |items| ==> KeysKeepOrder(items[i])
    ensures BoundsTwice(Dict(keys, items), lim)
  {
    assert KeysKeepOrder(Dict(keys, items));
    hide KeysKeepOrder, Cut, OrderKept;
    BoundTwice(Dict(keys, items), lim);
  }

  // ---- Keys that do, as sanitized values have them: valid text, in order ----

  const STEM: Text := seq(62, _ => 'a' as int)
  const LATE_KEYS: seq<Text> := [STEM, STEM + ['b' as int], STEM + [0x20AC]]

  lemma StemSize(tail: Text)
    requires |tail| <= 1 && Encodable(tail)
    ensures Encodable(STEM + tail) && |Encode(STEM + tail)| == 62 + |Encode(tail)|
  {
    EncodeAppend(STEM, tail);
    AsciiSize(STEM);
  }

  lemma {:induction false} EncodeAppend(s: Text, t: Text)
    ensures |Encode(s + t)| == |Encode(s)| + |Encode(t)|
  {
    if s == [] {
      assert s + t == t;
    } else {
      assert (s + t)[1..] == s[1..] + t;
      EncodeAppend(s[1..], t);
    }
  }

  lemma LateKeysTruncate()
    ensures SeenKeys(LATE_KEYS) == [STEM, STEM + ['b' as int], STEM]
  {
    FitsKey(STEM, []);
    assert STEM + [] == STEM;
    FitsKey(STEM + ['b' as int], ['b' as int]);
    var long := STEM + [0x20AC];
    StemSize([0x20AC]);
    assert |Encode([0x20AC])| == 3;
    StemSize([]);
    var t := Truncate(long, KEY_BYTES);
    TruncateIsLongestPrefix(long, KEY_BYTES);
    assert long[..62] == STEM && long[..63] == long;
    assert |t| <= 63 && t == long[..|t|];
    assert |Encode(long[..62])| == 62 && |Encode(long[..63])| == 65;
    assert |t| == 62;
  }

  lemma FitsKey(s: Text, tail: Text)
    requires |tail| <= 1 && s == STEM + tail && forall i :: 0 <= i < |tail| ==> tail[i] < 0x80
    ensures Encodable(s) && Truncate(s, KEY_BYTES) == s
  {
    AsciiSize(tail);
    StemSize(tail);
    TruncateIsLongestPrefix(s, KEY_BYTES);
    assert s[..|s|] == s;
  }

  lemma LateKeysAreText()
    ensures forall i :: 0 <= i < |LATE_KEYS| ==> Encodable(LATE_KEYS[i])
    ensures STEM != STEM + ['b' as int]
  {
    assert |STEM| != |STEM + ['b' as int]|;
  }

  lemma OrderOfThree<K>(a: K, b: K)
    requires a != b
    ensures !OrderKept([a, b, a])
  {
    var ks := [a, b, a];
    assert ks[0] == a && ks[1] == b && ks[..2] == [a, b];
    assert IndexOf(ks, a) == 0 && IndexOf(ks, b) == 1;
    assert LastIndexOf(ks, a) == 2 && LastIndexOf(ks, b) == 1;
  }

  /** Three keys of valid text in sorted order, of which the third is cut to the first, lose their order,
      and a value with these keys is cut further when it is bounded again, at either limit in use. */
  lemma CollisionCutsOnSecondPass(lim: Limits) returns (q: nat)
    requires InUse(lim)
    ensures forall i :: 0 <= i < |LATE_KEYS| ==> Encodable(LATE_KEYS[i])
    ensures LATE_KEYS[0] == STEM && LATE_KEYS[1] == STEM + ['b' as int] && LATE_KEYS[2] == STEM + [0x20AC]
    ensures !BoundsTwice(Dict(LATE_KEYS, Leaves(3, q)), lim)
  {
    hide BoundsTwice, Encodable, TruncatedKeys, OrderKept, Leaves, InUse;
    LateKeysAreText();
    LateKeysTruncate();
    OrderOfThree<Text>(STEM, STEM + ['b' as int]);
    q := OrderLost(LATE_KEYS, lim);
  }
}
