/** The importer's warehouse as a search tree over (export id, physical channel). */
module ExpTree {
  import opened Common

  /** The two halves are compared in this order; `pchan` stands for the address of the channel. */
  datatype Key = Key(exportId: nat, pchan: nat)

  predicate Less(a: Key, b: Key) { a.exportId < b.exportId || (a.exportId == b.exportId && a.pchan < b.pchan) }

  /** A descriptor is known by its key and what is in it. */
  datatype Entry = Entry(key: Key, content: nat)

  datatype Tree = Leaf | Node(left: Tree, entry: Entry, right: Tree)

  function InOrder(t: Tree): seq<Entry> {
    match t
    case Leaf => []
    case Node(l, e, r) => InOrder(l) + [e] + InOrder(r)
  }

  predicate Sorted(s: seq<Entry>) { forall i, j :: 0 <= i < j < |s| ==> Less(s[i].key, s[j].key) }

  predicate Search(t: Tree) { Sorted(InOrder(t)) }

  /** The finite map a list of entries stands for. */
  function ToMap(s: seq<Entry>): map<Key, Entry> {
    if s == [] then map[] else ToMap(s[..|s| - 1])[s[|s| - 1].key := s[|s| - 1]]
  }

  function Map(t: Tree): map<Key, Entry> { ToMap(InOrder(t)) }

  lemma {:induction false} MapEntries(s: seq<Entry>, i: nat)
    requires Sorted(s) && i < |s|
    ensures s[i].key in ToMap(s) && ToMap(s)[s[i].key] == s[i]
  {
    if i < |s| - 1 { MapEntries(s[..|s| - 1], i); }
  }

  lemma {:induction false} MapKeys(s: seq<Entry>, k: Key)
    ensures k in ToMap(s) <==> exists i :: 0 <= i < |s| && s[i].key == k
  {
    if s != [] { MapKeys(s[..|s| - 1], k); }
  }

  /** The map has as many entries as the tree has nodes. */
  lemma {:induction false} MapSize(s: seq<Entry>)
    requires Sorted(s)
    ensures |ToMap(s)| == |s|
  {
    if s != [] {
      MapSize(s[..|s| - 1]);
      MapKeys(s[..|s| - 1], s[|s| - 1].key);
    }
  }

  lemma {:induction false} MapConcat(a: seq<Entry>, b: seq<Entry>)
    ensures ToMap(a + b) == ToMap(a) + ToMap(b)
  {
    if b == [] {
      assert a + b == a;
    } else {
      assert (a + b)[..|a + b| - 1] == a + b[..|b| - 1];
      MapConcat(a, b[..|b| - 1]);
    }
  }

  lemma MapAround(l: seq<Entry>, x: Entry, r: seq<Entry>)
    ensures ToMap(l + [x] + r) == ToMap(l)[x.key := x] + ToMap(r)
  {
    MapConcat(l + [x], r);
    assert (l + [x])[..|l|] == l;
  }

  lemma Pieces(l: seq<Entry>, x: Entry, r: seq<Entry>)
    requires Sorted(l + [x] + r)
    ensures Sorted(l) && Sorted(r)
    ensures forall j :: 0 <= j < |l| ==> Less(l[j].key, x.key)
    ensures forall j :: 0 <= j < |r| ==> Less(x.key, r[j].key)
  {
    var s := l + [x] + r;
    assert forall j :: 0 <= j < |l| ==> s[j] == l[j];
    assert s[|l|] == x;
    assert forall j :: 0 <= j < |r| ==> s[|l| + 1 + j] == r[j];
  }

  lemma KeysBelow(s: seq<Entry>, x: Key)
    requires forall j :: 0 <= j < |s| ==> Less(s[j].key, x)
    ensures forall k :: k in ToMap(s) ==> Less(k, x)
  {
  }

  lemma KeysAbove(s: seq<Entry>, x: Key)
    requires forall j :: 0 <= j < |s| ==> Less(x, s[j].key)
    ensures forall k :: k in ToMap(s) ==> Less(x, k)
  {
  }

  /** Going left or right loses nothing that could match. */
  lemma Halves(t: Tree, k: Key)
    requires t.Node? && Search(t)
    ensures Search(t.left) && Search(t.right)
    ensures Less(k, t.entry.key) ==> (k in Map(t) <==> k in Map(t.left)) && (k in Map(t) ==> Map(t)[k] == Map(t.left)[k])
    ensures Less(t.entry.key, k) ==> (k in Map(t) <==> k in Map(t.right)) && (k in Map(t) ==> Map(t)[k] == Map(t.right)[k])
    ensures k == t.entry.key ==> k in Map(t) && Map(t)[k] == t.entry
  {
    var l, x, r := InOrder(t.left), t.entry, InOrder(t.right);
    assert InOrder(t) == l + [x] + r;
    hide InOrder, ToMap;
    Pieces(l, x, r);
    MapAround(l, x, r);
    KeysBelow(l, x.key);
    KeysAbove(r, x.key);
  }

  /** `hab_rb_exp_find` */
  method Find(t: Tree, k: Key) returns (found: Option<Entry>)
    requires Search(t)
    ensures found == if k in Map(t) then Some(Map(t)[k]) else None
  {
    hide Search, Map;
    var node := t;
    while node.Node?
      invariant Search(node) && (k in Map(t) <==> k in Map(node)) && (k in Map(t) ==> Map(t)[k] == Map(node)[k])
      decreases node
    {
      Halves(node, k);
      if k.exportId < node.entry.key.exportId { node := node.left; }
      else if k.exportId > node.entry.key.exportId { node := node.right; }
      else if k.pchan < node.entry.key.pchan { node := node.left; }
      else if k.pchan > node.entry.key.pchan { node := node.right; }
      else { return Some(node.entry); }
    }
    EmptyMap(node);
    found := None;
  }

  lemma EmptyMap(t: Tree)
    requires t == Leaf
    ensures Map(t) == map[]
  {
  }

  /** `hab_rb_exp_insert` up to the link: the new leaf, or nothing if the key is there. */
  function Link(t: Tree, e: Entry): Option<Tree> {
    match t
    case Leaf => Some(Node(Leaf, e, Leaf))
    case Node(l, x, r) =>
      if Less(e.key, x.key) then (match Link(l, e) case None => None case Some(l') => Some(Node(l', x, r)))
      else if Less(x.key, e.key) then (match Link(r, e) case None => None case Some(r') => Some(Node(l, x, r')))
      else None
  }

  lemma InsertedMap(s: seq<Entry>, i: nat, e: Entry)
    requires Fits(s, i, e.key)
    ensures ToMap(s[..i] + [e] + s[i..]) == ToMap(s)[e.key := e]
  {
    hide ToMap;
    assert s == s[..i] + s[i..];
    MapConcat(s[..i], s[i..]);
    MapAround(s[..i], e, s[i..]);
    KeysBelow(s[..i], e.key);
    KeysAbove(s[i..], e.key);
  }

  /** Where a new key belongs in a sorted list. */
  predicate Fits(s: seq<Entry>, i: nat, k: Key) {
    i <= |s| && forall j :: 0 <= j < |s| ==> if j < i then Less(s[j].key, k) else Less(k, s[j].key)
  }

  /** The new leaf comes to lie where its key belongs, whether the walk went left or right. */
  lemma {:induction false} LinkPlaces(t: Tree, e: Entry) returns (i: nat)
    requires Search(t) && Link(t, e).Some?
    ensures Fits(InOrder(t), i, e.key) && InOrder(Link(t, e).value) == InOrder(t)[..i] + [e] + InOrder(t)[i..]
  {
    i := 0;
    if t.Node? {
      var l, x, r := InOrder(t.left), t.entry, InOrder(t.right);
      Pieces(l, x, r);
      if Less(e.key, x.key) {
        assert InOrder(Node(Link(t.left, e).value, x, t.right)) == InOrder(Link(t.left, e).value) + [x] + r;
        i := LinkPlaces(t.left, e);
        FitsLeft(l, x, r, i, e.key);
        hide Search, Fits, InOrder;
        PlacedLeft(l, x, r, i, e);
      } else {
        assert InOrder(Node(t.left, x, Link(t.right, e).value)) == l + [x] + InOrder(Link(t.right, e).value);
        i := LinkPlaces(t.right, e);
        FitsRight(l, x, r, i, e.key);
        hide Search, Fits, InOrder;
        PlacedRight(l, x, r, i, e);
        i := |l| + 1 + i;
      }
    }
  }

  lemma PlacedLeft(l: seq<Entry>, x: Entry, r: seq<Entry>, i: nat, e: Entry)
    requires i <= |l|
    ensures l[..i] + [e] + l[i..] + [x] + r == (l + [x] + r)[..i] + [e] + (l + [x] + r)[i..]
  {
  }

  lemma PlacedRight(l: seq<Entry>, x: Entry, r: seq<Entry>, i: nat, e: Entry)
    requires i <= |r|
    ensures var s, k := l + [x] + r, |l| + 1 + i; l + [x] + (r[..i] + [e] + r[i..]) == s[..k] + [e] + s[k..]
  {
  }

  lemma FitsLeft(l: seq<Entry>, x: Entry, r: seq<Entry>, i: nat, k: Key)
    requires Fits(l, i, k) && Less(k, x.key) && forall j :: 0 <= j < |r| ==> Less(x.key, r[j].key)
    ensures Fits(l + [x] + r, i, k)
  {
  }

  lemma FitsRight(l: seq<Entry>, x: Entry, r: seq<Entry>, i: nat, k: Key)
    requires Fits(r, i, k) && Less(x.key, k) && forall j :: 0 <= j < |l| ==> Less(l[j].key, x.key)
    ensures Fits(l + [x] + r, |l| + 1 + i, k)
  {
  }

  lemma {:induction false} LinkFails(t: Tree, e: Entry)
    requires Search(t)
    ensures Link(t, e) == None <==> e.key in Map(t)
  {
    if t.Node? {
      Halves(t, e.key);
      hide Map;
      if Less(e.key, t.entry.key) { LinkFails(t.left, e); }
      else if Less(t.entry.key, e.key) { LinkFails(t.right, e); }
    } else {
      EmptyMap(t);
    }
  }

  /** Insertion rejects exactly the keys that are present; otherwise it adds just the new entry. */
  lemma {:induction false} LinkInserts(t: Tree, e: Entry)
    requires Search(t)
    ensures Link(t, e) == None <==> e.key in Map(t)
    ensures Link(t, e).Some? ==> Search(Link(t, e).value) && Map(Link(t, e).value) == Map(t)[e.key := e]
  {
    LinkFails(t, e);
    if Link(t, e).Some? {
      var i := LinkPlaces(t, e);
      hide Link, InOrder;
      FitsSorted(InOrder(t), i, e);
      InsertedMap(InOrder(t), i, e);
    }
  }

  lemma FitsSorted(s: seq<Entry>, i: nat, e: Entry)
    requires Sorted(s) && Fits(s, i, e.key)
    ensures Sorted(s[..i] + [e] + s[i..])
  {
  }

  // ---------------------------------------------------------------- erasing

  /** The entry that comes first, and the tree without it. */
  function PopFirst(t: Tree): (r: (Entry, Tree))
    requires t.Node?
    ensures InOrder(t) == [r.0] + InOrder(r.1)
  {
    if t.left == Leaf then (t.entry, t.right)
    else
      var (e, l) := PopFirst(t.left);
      assert InOrder(Node(l, t.entry, t.right)) == InOrder(l) + [t.entry] + InOrder(t.right);
      (e, Node(l, t.entry, t.right))
  }

  /** The two halves of an erased node: its successor takes its place if it has both. */
  function Splice(l: Tree, r: Tree): (t: Tree)
    ensures InOrder(t) == InOrder(l) + InOrder(r)
  {
    if l == Leaf then r
    else if r == Leaf then l
    else
      var (e, r') := PopFirst(r);
      Node(l, e, r')
  }

  /** `rb_erase` of the node with this key, before it rebalances */
  function Erase(t: Tree, k: Key): Tree {
    match t
    case Leaf => Leaf
    case Node(l, x, r) =>
      if Less(k, x.key) then Node(Erase(l, k), x, r)
      else if Less(x.key, k) then Node(l, x, Erase(r, k))
      else Splice(l, r)
  }

  /** `s'` is `s` without entry `i`, which has this key. */
  predicate Lacks(s: seq<Entry>, s': seq<Entry>, i: nat, k: Key) { i < |s| && s[i].key == k && s' == s[..i] + s[i + 1..] }

  /** Just the entry with this key is taken out of the order. */
  lemma {:induction false} ErasePlace(t: Tree, k: Key) returns (i: nat)
    requires Search(t) && k in Map(t)
    ensures Lacks(InOrder(t), InOrder(Erase(t, k)), i, k)
  {
    Halves(t, k);
    var l, x, r := InOrder(t.left), t.entry, InOrder(t.right);
    EraseOrder(t, k);
    if Less(k, x.key) {
      i := ErasePlace(t.left, k);
      hide InOrder, Map, Search, Erase;
      RemovedLeft(l, x, r, i);
    } else if Less(x.key, k) {
      i := ErasePlace(t.right, k);
      hide InOrder, Map, Search, Erase;
      RemovedRight(l, x, r, i);
      i := |l| + 1 + i;
    } else {
      i := |l|;
      hide InOrder, Map, Search, Erase;
      RemovedHere(l, x, r);
    }
  }

  lemma EraseOrder(t: Tree, k: Key)
    requires t.Node?
    ensures
      var l, x, r := InOrder(t.left), t.entry, InOrder(t.right);
      && InOrder(t) == l + [x] + r
      && InOrder(Erase(t, k)) == if Less(k, x.key) then InOrder(Erase(t.left, k)) + [x] + r
                                 else if Less(x.key, k) then l + [x] + InOrder(Erase(t.right, k)) else l + r
  {
  }

  lemma RemovedHere(l: seq<Entry>, x: Entry, r: seq<Entry>)
    ensures Lacks(l + [x] + r, l + r, |l|, x.key)
  {
    assert (l + [x] + r)[|l| + 1..] == r && (l + [x] + r)[..|l|] == l;
  }

  lemma RemovedLeft(l: seq<Entry>, x: Entry, r: seq<Entry>, i: nat)
    requires i < |l|
    ensures var s := l + [x] + r; l[..i] + l[i + 1..] + [x] + r == s[..i] + s[i + 1..] && s[i] == l[i]
  {
  }

  lemma RemovedRight(l: seq<Entry>, x: Entry, r: seq<Entry>, i: nat)
    requires i < |r|
    ensures var s, k := l + [x] + r, |l| + 1 + i; l + [x] + (r[..i] + r[i + 1..]) == s[..k] + s[k + 1..] && s[k] == r[i]
  {
  }

  /** Erasing takes away the one key and leaves a search tree. */
  lemma {:induction false} EraseRemoves(t: Tree, k: Key)
    requires Search(t) && k in Map(t)
    ensures Search(Erase(t, k)) && Map(Erase(t, k)) == Map(t) - {k}
  {
    var i := ErasePlace(t, k);
    var s := InOrder(t);
    hide Erase, InOrder;
    assert s == s[..i] + [s[i]] + s[i + 1..];
    RemovedMap(s[..i], s[i], s[i + 1..]);
  }

  lemma RemovedMap(l: seq<Entry>, x: Entry, r: seq<Entry>)
    requires Sorted(l + [x] + r)
    ensures Sorted(l + r) && ToMap(l + r) == ToMap(l + [x] + r) - {x.key}
  {
    Pieces(l, x, r);
    MapAround(l, x, r);
    MapConcat(l, r);
    KeysBelow(l, x.key);
    KeysAbove(r, x.key);
    hide ToMap;
  }

  // ---------------------------------------------------------------- the warehouse

  /** What rebalancing may do to a tree: anything that keeps the entries in order. */
  ghost predicate KeepsOrder(color: Tree -> Tree) { forall t :: InOrder(color(t)) == InOrder(t) }

  class Warehouse {
    var root: Tree
    var importTotal: int

    predicate Valid() reads this { Search(root) && importTotal == |Map(root)| }

    constructor ()
      ensures Valid() && Map(root) == map[]
    {
      root, importTotal := Leaf, 0;
      new;
      EmptyMap(root);
      assert InOrder(root) == [];
    }

    /** `hab_export_enqueue`; `color` is `rb_insert_color`. */
    method Enqueue(e: Entry, color: Tree -> Tree) returns (ok: bool)
      requires Valid() && KeepsOrder(color)
      modifies this
      ensures Valid() && (ok <==> e.key !in Map(old(root)))
      ensures Map(root) == if ok then Map(old(root))[e.key := e] else Map(old(root))
    {
      LinkInserts(root, e);
      var linked := Link(root, e);
      ok := linked.Some?;
      if ok {
        root := color(linked.value);
        assert InOrder(root) == InOrder(linked.value);
        importTotal := importTotal + 1;
      }
    }

    /** `hab_rb_remove` of a node of the tree, with the counter; `color` is the rebalancing in `rb_erase`. */
    method Remove(k: Key, color: Tree -> Tree)
      requires Valid() && KeepsOrder(color) && k in Map(root)
      modifies this
      ensures Valid() && Map(root) == Map(old(root)) - {k}
    {
      EraseRemoves(root, k);
      ghost var before := Map(root);
      assert (before - {k}).Keys == before.Keys - {k};
      var erased := Erase(root, k);
      root := color(erased);
      assert InOrder(root) == InOrder(erased);
      importTotal := importTotal - 1;
    }
  }

  /** Taking an entry in and out again leaves the warehouse as it was. */
  lemma EraseUndoesLink(t: Tree, e: Entry)
    requires Search(t) && Link(t, e).Some?
    ensures Search(Erase(Link(t, e).value, e.key)) && Map(Erase(Link(t, e).value, e.key)) == Map(t)
  {
    LinkInserts(t, e);
    EraseRemoves(Link(t, e).value, e.key);
    assert Map(t)[e.key := e] - {e.key} == Map(t);
  }
}
