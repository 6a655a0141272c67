/** What bounding keeps of a value, told node by node without the functions that compute it. */
module BoundedMeaning {
  import opened Utf8
  import opened BoundedValue
  import opened BoundedTwice

  // Text becomes its longest prefix that fits, and the marker if it cannot be encoded.
  ghost predicate KeepsText(t: Text, maximum: nat, u: Text) {
    if exists i :: 0 <= i < |t| && 0xD800 <= t[i] <= 0xDFFF then u == Ascii("<OMITTED:invalid>")
    else u <= t && |Encode(u)| <= maximum && forall k :: |u| < k <= |t| ==> |Encode(t[..k])| > maximum
  }

  ghost predicate KeepsLeaf(v: Value, w: Value) {
    match v
    case NonFinite => w == Str(Ascii("<OMITTED:non_finite>"))
    case Other => w == Str(Ascii("<REDACTED>"))
    case Str(t) => w.Str? && KeepsText(t, 1024, w.text)
    case _ => w == v
  }

  function AtMost24<T>(s: seq<T>): nat {
    if |s| < 24 then |s| else 24
  }

  // Of the entries under equal keys the dict has one, where the first was, with the item of the last.
  ghost predicate OnceEach(keys: seq<Text>, seen: seq<Text>) {
    && (forall k :: k in keys <==> k in seen)
    && (forall a, b, i: nat, j: nat :: 0 <= a < b < |keys| && FirstAt(seen, i, keys[a]) && FirstAt(seen, j, keys[b]) ==>
         i < j)
    && (forall a, b :: 0 <= a < b < |keys| ==> keys[a] != keys[b])
  }

  ghost predicate FirstAt(keys: seq<Text>, i: nat, key: Text) {
    i < |keys| && keys[i] == key && forall j :: 0 <= j < i ==> keys[j] != key
  }

  ghost predicate LastAt(keys: seq<Text>, i: nat, key: Text) {
    i < |keys| && keys[i] == key && forall j :: i < j < |keys| ==> keys[j] != key
  }

  // The keys of the first entries, each cut to 64 bytes.
  ghost predicate KeepsKeys(keys: seq<Text>, n: nat, seen: seq<Text>) {
    |seen| == n && forall i :: 0 <= i < n ==> KeepsText(if i < |keys| then keys[i] else [], 64, seen[i])
  }

  // w is what becomes of v, whose number in preorder is index.
  ghost predicate Keeps(v: Value, w: Value, depth: nat, index: nat, lim: Limits)
    decreases v, 2
  {
    if index > lim.nodes || depth > lim.depth then w == Str(Ascii("<OMITTED:bounded>"))
    else if v.List? then KeepsList(v, w, depth, index, lim)
    else if v.Dict? then KeepsDict(v, w, depth, index, lim)
    else KeepsLeaf(v, w)
  }

  ghost predicate KeepsList(v: Value, w: Value, depth: nat, index: nat, lim: Limits)
    requires v.List?
    decreases v, 1
  {
    && w.List? && |w.items| == AtMost24(v.items)
    && forall i :: 0 <= i < |w.items| ==> KeepsItem(v, i, w.items[i], depth, index, lim)
  }

  ghost predicate KeepsDict(v: Value, w: Value, depth: nat, index: nat, lim: Limits)
    requires v.Dict?
    decreases v, 1
  {
    && w.Dict? && |w.keys| == |w.items|
    && exists seen ::
         && KeepsKeys(v.keys, AtMost24(v.items), seen) && OnceEach(w.keys, seen)
         && forall i: nat, j: nat :: j < |w.keys| && LastAt(seen, i, w.keys[j]) ==>
              KeepsItem(v, i, w.items[j], depth, index, lim)
  }

  // A child has the next number after its earlier siblings.
  ghost predicate KeepsItem(v: Value, i: nat, x: Value, depth: nat, index: nat, lim: Limits)
    requires Container(v)
    decreases v, 0
  {
    i < |v.items| && Keeps(v.items[i], x, depth + 1, index + SizeAll(v.items[..i], depth + 1, lim) + 1, lim)
  }

  /** Bounding keeps a node exactly if its number and its depth are within the limits. Null, booleans,
      integers and finite numbers stay; text keeps what fits in 1024 bytes; a list keeps its first 24 items in
      order; a dict its first 24 entries, under keys of at most 64 bytes. */
  lemma {:induction false} BoundingKeeps(v: Value, depth: nat, index: nat, lim: Limits)
    ensures Keeps(v, Cut(v, depth, index, lim), depth, index, lim)
    decreases v
  {
    hide KeepsList, KeepsDict, KeepsLeaf, Leaf, Rebuild, KeepsItem, CutAll;
    if index <= lim.nodes && depth <= lim.depth {
      if Container(v) {
        var r := CutAll(First(v.items), depth + 1, index, lim);
        forall i: nat | i < |r| ensures KeepsItem(v, i, r[i], depth, index, lim) {
          BoundingKeeps(v.items[i], depth + 1, index + SizeAll(v.items[..i], depth + 1, lim) + 1, lim);
          ItemKeeps(v, i, depth, index, lim);
        }
        ContainerKeeps(v, r, depth, index, lim);
      } else {
        LeafKeeps(v);
      }
    }
  }

  lemma ItemKeeps(v: Value, i: nat, depth: nat, index: nat, lim: Limits)
    requires Container(v) && i < |First(v.items)|
    requires var n := index + SizeAll(v.items[..i], depth + 1, lim) + 1;
             Keeps(v.items[i], Cut(v.items[i], depth + 1, n, lim), depth + 1, n, lim)
    ensures KeepsItem(v, i, CutAll(First(v.items), depth + 1, index, lim)[i], depth, index, lim)
  {
    hide Keeps, Cut, CutAll;
    CutAt(First(v.items), depth + 1, index, lim, i);
    assert First(v.items)[..i] == v.items[..i];
  }

  lemma {:induction false} CutAt(items: seq<Value>, depth: nat, parent: nat, lim: Limits, i: nat)
    requires i < |items|
    ensures CutAll(items, depth, parent, lim)[i]
         == Cut(items[i], depth, parent + SizeAll(items[..i], depth, lim) + 1, lim)
  {
    hide Cut, SizeAll;
    var last := |items| - 1;
    if i < last {
      CutAt(items[..last], depth, parent, lim, i);
      assert items[..last][..i] == items[..i];
    }
  }

  lemma TextKeeps(t: Text, maximum: nat)
    ensures KeepsText(t, maximum, Truncate(t, maximum))
  {
    if Encodable(t) {
      TruncateIsLongestPrefix(t, maximum);
    }
  }

  lemma LeafKeeps(v: Value)
    requires !Container(v)
    ensures KeepsLeaf(v, Leaf(v))
  {
    if v.Str? {
      TextKeeps(v.text, 1024);
    }
  }

  lemma KeysKeep(keys: seq<Text>, n: nat)
    ensures KeepsKeys(keys, n, TruncatedKeys(keys, n))
  {
    hide KeepsText, Truncate;
    forall i | 0 <= i < n
      ensures KeepsText(if i < |keys| then keys[i] else [], 64, TruncatedKeys(keys, n)[i])
    {
      TextKeeps(if i < |keys| then keys[i] else [], 64);
      assert i >= |keys| ==> Truncate([], 64) == [];
    }
  }

  lemma PlacesAre(keys: seq<Text>, i: nat, key: Text)
    ensures FirstAt(keys, i, key) ==> IndexOf(keys, key) == i
    ensures LastAt(keys, i, key) ==> key in keys && LastIndexOf(keys, key) == i
  {
    if FirstAt(keys, i, key) {
      IndexIsFirst(keys, i);
    }
  }

  lemma AssembledOnceEach(seen: seq<Text>, items: seq<Value>)
    requires |seen| == |items|
    ensures var p := Assemble(seen, items);
            && |p.keys| == |p.items| && OnceEach(p.keys, seen)
            && forall i: nat, j: nat :: j < |p.keys| && LastAt(seen, i, p.keys[j]) ==>
                 i < |items| && p.items[j] == items[i]
  {
    var p := Assemble(seen, items);
    AssembleTakesLast(seen, items);
    hide Assemble, IndexOf, LastIndexOf, FirstAt, LastAt;
    forall i: nat, key ensures FirstAt(seen, i, key) ==> IndexOf(seen, key) == i
      ensures LastAt(seen, i, key) ==> key in seen && i < |seen| && LastIndexOf(seen, key) == i
    {
      PlacesAre(seen, i, key);
    }
  }

  lemma ContainerKeeps(v: Value, r: seq<Value>, depth: nat, index: nat, lim: Limits)
    requires Container(v) && |r| == AtMost24(v.items)
    requires forall i: nat :: i < |r| ==> KeepsItem(v, i, r[i], depth, index, lim)
    ensures v.List? ==> KeepsList(v, Rebuild(v, r), depth, index, lim)
    ensures v.Dict? ==> KeepsDict(v, Rebuild(v, r), depth, index, lim)
  {
    if v.Dict? {
      var seen := TruncatedKeys(v.keys, |r|);
      KeysKeep(v.keys, |r|);
      AssembledOnceEach(seen, r);
      var w := Rebuild(v, r);
      assert w == Dict(Assemble(seen, r).keys, Assemble(seen, r).items);
      hide TruncatedKeys, OnceEach, KeepsKeys, Assemble, KeepsItem, LastAt, Rebuild, Keeps;
      forall i: nat, j: nat | j < |w.keys| && LastAt(seen, i, w.keys[j])
        ensures KeepsItem(v, i, w.items[j], depth, index, lim)
      {
        assert w.items[j] == r[i];
      }
    }
  }

  /** So it is for the traversal that counts as it goes. */
  lemma VisitKeeps(v: Value, depth: nat, count: nat, lim: Limits)
    ensures Keeps(v, Visit(v, depth, count, lim).value, depth, count + 1, lim)
  {
    hide Visit, Cut, Keeps;
    VisitIsPreorderCut(v, depth, count, count, lim);
    BoundingKeeps(v, depth, count + 1, lim);
  }
}
