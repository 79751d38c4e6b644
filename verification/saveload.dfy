/**
  Saving a player's items as rows and loading them again. Saving flattens the forest
  breadth-first; every row names its own sid and its parent's. Loading walks the sids
  downwards and puts each item in front of its parent's list.
 */
module SaveLoad {

  /** What a row keeps of an item besides its place: type, count and packed attributes. */
  datatype Record = Record(itemType: nat, count: nat, attributes: seq<nat>)

  datatype Tree = Tree(record: Record, children: seq<Tree>)

  /** An item to be saved, with the slot, depot or item it is in. */
  datatype Node = Node(pid: nat, tree: Tree)

  datatype Row = Row(pid: nat, sid: nat, record: Record)

  const FIRST_SID := 101

  /** The item types that are containers. */
  type Containers = nat -> bool

  predicate IsContainer(isContainer: Containers, t: Tree) { isContainer(t.record.itemType) }

  /** Only containers have anything inside. */
  ghost predicate ValidTree(isContainer: Containers, t: Tree) {
    (t.children != [] ==> IsContainer(isContainer, t)) && forall c :: c in t.children ==> ValidTree(isContainer, c)
  }

  ghost predicate ValidNodes(isContainer: Containers, ns: seq<Node>) {
    forall n :: n in ns ==> ValidTree(isContainer, n.tree)
  }

  // ---------------------------------------------------------------------------
  // The breadth-first order
  // ---------------------------------------------------------------------------

  ghost function Size(t: Tree): nat
    decreases t, 1
  {
    1 + SizeAll(t.children)
  }

  ghost function SizeAll(ts: seq<Tree>): nat
    decreases ts, 0
  {
    if ts == [] then 0 else Size(ts[0]) + SizeAll(ts[1..])
  }

  ghost function SizeFrom(ns: seq<Node>, k: nat): nat
    decreases |ns| - k
  {
    if k >= |ns| then 0 else Size(ns[k].tree) + SizeFrom(ns, k + 1)
  }

  /** The children of an item, as nodes below the row with this sid. */
  function Kids(ts: seq<Tree>, sid: nat): (ns: seq<Node>)
    ensures |ns| == |ts| && forall m :: 0 <= m < |ts| ==> ns[m] == Node(sid, ts[m])
  {
    seq(|ts|, m requires 0 <= m < |ts| => Node(sid, ts[m]))
  }

  lemma {:induction false} SizeFromSnoc(ns: seq<Node>, more: seq<Node>, k: nat)
    requires k <= |ns|
    ensures SizeFrom(ns + more, k) == SizeFrom(ns, k) + SizeFrom(ns + more, |ns|)
    decreases |ns| - k
  {
    if k < |ns| {
      SizeFromSnoc(ns, more, k + 1);
    }
  }

  lemma {:induction false} SizeOfKids(ns: seq<Node>, ts: seq<Tree>, sid: nat, m: nat)
    requires m <= |ts|
    ensures SizeFrom(ns + Kids(ts, sid), |ns| + m) == SizeAll(ts[m..])
    decreases |ts| - m
  {
    if m < |ts| {
      SizeOfKids(ns, ts, sid, m + 1);
      assert ts[m..][0] == ts[m] && ts[m..][1..] == ts[m + 1..];
    }
  }

  lemma {:induction false} ExpandShrinks(ns: seq<Node>, k: nat)
    requires k < |ns|
    ensures SizeFrom(ns + Kids(ns[k].tree.children, FIRST_SID + k), k + 1) < SizeFrom(ns, k)
  {
    var ts := ns[k].tree.children;
    SizeFromSnoc(ns, Kids(ts, FIRST_SID + k), k + 1);
    SizeOfKids(ns, ts, FIRST_SID + k, 0);
    assert ts[0..] == ts;
  }

  /** All items in breadth-first order, when those before `k` have had their children listed. */
  ghost function Expand(ns: seq<Node>, k: nat): seq<Node>
    decreases SizeFrom(ns, k)
  {
    if k >= |ns| then ns
    else
      ExpandShrinks(ns, k);
      Expand(ns + Kids(ns[k].tree.children, FIRST_SID + k), k + 1)
  }

  function RowsOf(ns: seq<Node>): (rows: seq<Row>)
    ensures |rows| == |ns| && forall i :: 0 <= i < |ns| ==> rows[i] == Row(ns[i].pid, FIRST_SID + i, ns[i].tree.record)
  {
    seq(|ns|, i requires 0 <= i < |ns| => Row(ns[i].pid, FIRST_SID + i, ns[i].tree.record))
  }

  /** The trees among the nodes from index k on that are directly below `pid`, in order. */
  function TreesBelow(ns: seq<Node>, pid: nat, k: nat): seq<Tree>
    decreases |ns| - k
  {
    if k >= |ns| then []
    else (if ns[k].pid == pid then [ns[k].tree] else []) + TreesBelow(ns, pid, k + 1)
  }

  lemma {:induction false} TreesBelowAppend(ns: seq<Node>, more: seq<Node>, pid: nat, k: nat)
    requires k <= |ns|
    ensures TreesBelow(ns + more, pid, k) == TreesBelow(ns, pid, k) + TreesBelow(ns + more, pid, |ns|)
    decreases |ns| - k
  {
    if k < |ns| {
      TreesBelowAppend(ns, more, pid, k + 1);
    }
  }

  lemma {:induction false} TreesBelowKids(ns: seq<Node>, ts: seq<Tree>, sid: nat, pid: nat, m: nat)
    requires m <= |ts|
    ensures TreesBelow(ns + Kids(ts, sid), pid, |ns| + m) == if pid == sid then ts[m..] else []
    decreases |ts| - m
  {
    if m < |ts| {
      TreesBelowKids(ns, ts, sid, pid, m + 1);
      assert ts[m..] == [ts[m]] + ts[m + 1..];
    }
  }

  /** What has been listed below the i-th item, after the first `n` rows, which are the saved ones. */
  function Below(ns: seq<Node>, n: nat, i: nat): seq<Tree> { TreesBelow(ns, FIRST_SID + i, n) }

  /** Every item before `k` has exactly its own children below its sid; later ones have none yet. */
  ghost predicate Linked(ns: seq<Node>, n: nat, k: nat) {
    && n <= |ns|
    && (forall i :: 0 <= i < |ns| ==> Below(ns, n, i) == if i < k then ns[i].tree.children else [])
    && (forall j :: n <= j < |ns| ==> FIRST_SID <= ns[j].pid < FIRST_SID + j && ns[j].pid < FIRST_SID + k)
  }

  lemma {:induction false} NoneBelow(ns: seq<Node>, pid: nat, k: nat)
    requires forall j :: k <= j < |ns| ==> ns[j].pid != pid
    ensures TreesBelow(ns, pid, k) == []
    decreases |ns| - k
  {
    if k < |ns| {
      NoneBelow(ns, pid, k + 1);
    }
  }

  lemma {:induction false} LinkedStepAt(ns: seq<Node>, n: nat, k: nat, i: nat)
    requires Linked(ns, n, k) && k < |ns|
    ensures var ns' := ns + Kids(ns[k].tree.children, FIRST_SID + k);
            i < |ns'| ==> Below(ns', n, i) == if i < k + 1 then ns'[i].tree.children else []
  {
    hide TreesBelow;
    var ts := ns[k].tree.children;
    TreesBelowAppend(ns, Kids(ts, FIRST_SID + k), FIRST_SID + i, n);
    TreesBelowKids(ns, ts, FIRST_SID + k, FIRST_SID + i, 0);
    assert ts[0..] == ts;
    if i >= |ns| {
      NoneBelow(ns, FIRST_SID + i, n);
    } else {
      assert TreesBelow(ns, FIRST_SID + i, n) == Below(ns, n, i);
    }
  }

  lemma {:induction false} LinkedStep(ns: seq<Node>, n: nat, k: nat)
    requires Linked(ns, n, k) && k < |ns|
    ensures Linked(ns + Kids(ns[k].tree.children, FIRST_SID + k), n, k + 1)
  {
    var ns' := ns + Kids(ns[k].tree.children, FIRST_SID + k);
    hide Below;
    forall i | 0 <= i < |ns'|
      ensures Below(ns', n, i) == if i < k + 1 then ns'[i].tree.children else []
    {
      LinkedStepAt(ns, n, k, i);
    }
  }

  /** In the finished list every item has exactly its children below it. */
  lemma {:induction false} ExpandLinks(ns: seq<Node>, n: nat, k: nat)
    requires Linked(ns, n, k) && k <= |ns|
    ensures var all := Expand(ns, k); Linked(all, n, |all|) && ns <= all
    decreases SizeFrom(ns, k)
  {
    if k < |ns| {
      var ns' := ns + Kids(ns[k].tree.children, FIRST_SID + k);
      LinkedStep(ns, n, k);
      ExpandShrinks(ns, k);
      hide Linked;
      assert ns <= ns';
      ExpandLinks(ns', n, k + 1);
    }
  }

  /** What is not an item's sid keeps what was listed below it. */
  lemma {:induction false} ExpandKeepsRoots(ns: seq<Node>, k: nat, p: nat)
    requires p < FIRST_SID && k <= |ns|
    ensures TreesBelow(Expand(ns, k), p, 0) == TreesBelow(ns, p, 0)
    decreases SizeFrom(ns, k)
  {
    if k < |ns| {
      var ts := ns[k].tree.children;
      ExpandShrinks(ns, k);
      ExpandKeepsRoots(ns + Kids(ts, FIRST_SID + k), k + 1, p);
      TreesBelowAppend(ns, Kids(ts, FIRST_SID + k), p, 0);
      TreesBelowKids(ns, ts, FIRST_SID + k, p, 0);
    }
  }

  lemma {:induction false} ExpandKeepsValid(isContainer: Containers, ns: seq<Node>, k: nat)
    requires ValidNodes(isContainer, ns) && k <= |ns|
    ensures ValidNodes(isContainer, Expand(ns, k))
    decreases SizeFrom(ns, k)
  {
    if k < |ns| {
      var kids := Kids(ns[k].tree.children, FIRST_SID + k);
      ExpandShrinks(ns, k);
      assert ns[k] in ns;
      assert ValidNodes(isContainer, ns + kids);
      ExpandKeepsValid(isContainer, ns + kids, k + 1);
    }
  }

  lemma {:induction false} RootsLinked(roots: seq<Node>)
    ensures Linked(roots, |roots|, 0)
  {
  }

  // ---------------------------------------------------------------------------
  // Saving
  // ---------------------------------------------------------------------------

  /** The containers among the nodes from index k on, each with its sid. */
  ghost function Pending(isContainer: Containers, ns: seq<Node>, k: nat): seq<(Tree, nat)>
    decreases |ns| - k
  {
    if k >= |ns| then []
    else (if IsContainer(isContainer, ns[k].tree) then [(ns[k].tree, FIRST_SID + k)] else []) + Pending(isContainer, ns, k + 1)
  }

  lemma {:induction false} PendingSnoc(isContainer: Containers, ns: seq<Node>, n: Node, k: nat)
    requires k <= |ns|
    ensures Pending(isContainer, ns + [n], k)
         == Pending(isContainer, ns, k) + if IsContainer(isContainer, n.tree) then [(n.tree, FIRST_SID + |ns|)] else []
    decreases |ns| - k
  {
    if k < |ns| {
      PendingSnoc(isContainer, ns, n, k + 1);
    } else {
      assert Pending(isContainer, ns + [n], k + 1) == [];
    }
  }

  /** Items that are not containers can be passed over: they have no children to list. */
  lemma {:induction false} NextContainer(isContainer: Containers, ns: seq<Node>, k: nat) returns (k': nat)
    requires k <= |ns| && ValidNodes(isContainer, ns)
    ensures k <= k' <= |ns| && Expand(ns, k') == Expand(ns, k) && SizeFrom(ns, k') <= SizeFrom(ns, k)
    ensures Pending(isContainer, ns, k') == Pending(isContainer, ns, k)
    ensures k' < |ns| ==> IsContainer(isContainer, ns[k'].tree)
    decreases |ns| - k
  {
    k' := k;
    if k < |ns| && !IsContainer(isContainer, ns[k].tree) {
      assert ns[k] in ns;
      assert ns + Kids(ns[k].tree.children, FIRST_SID + k) == ns;
      ExpandShrinks(ns, k);
      k' := NextContainer(isContainer, ns, k + 1);
    }
  }

  /** The rows written for a list of items, each with everything inside it. */
  method SaveItems(isContainer: Containers, itemList: seq<Node>) returns (rows: seq<Row>)
    requires ValidNodes(isContainer, itemList)
    ensures rows == RowsOf(Expand(itemList, 0))
  {
    rows := [];
    var queue: seq<(Tree, nat)> := [];
    var runningId := 100;
    for i := 0 to |itemList|
      invariant rows == RowsOf(itemList[..i]) && runningId == 100 + i
      invariant queue == Pending(isContainer, itemList[..i], 0)
    {
      var it := itemList[i];
      runningId := runningId + 1;
      PendingSnoc(isContainer, itemList[..i], it, 0);
      assert itemList[..i + 1] == itemList[..i] + [it];
      if isContainer(it.tree.record.itemType) {
        queue := queue + [(it.tree, runningId)];
      }
      rows := rows + [Row(it.pid, runningId, it.tree.record)];
    }
    assert itemList[..|itemList|] == itemList;
    ghost var ns, k := itemList, 0;
    while queue != []
      invariant k <= |ns| && ValidNodes(isContainer, ns) && Expand(ns, k) == Expand(itemList, 0)
      invariant rows == RowsOf(ns) && runningId == 100 + |ns| && queue == Pending(isContainer, ns, k)
      decreases SizeFrom(ns, k)
    {
      k := NextContainer(isContainer, ns, k);
      ExpandShrinks(ns, k);
      var container, parentId := queue[0].0, queue[0].1;
      queue := queue[1..];
      rows, queue, runningId := SaveChildren(isContainer, container.children, parentId, rows, queue, runningId, ns, k + 1);
      ghost var kids := Kids(ns[k].tree.children, FIRST_SID + k);
      assert ns[k] in ns;
      ns, k := ns + kids, k + 1;
    }
    k := NextContainer(isContainer, ns, k);
  }

  /** The rows of one container's items, and the containers among them queued. */
  method SaveChildren(isContainer: Containers, children: seq<Tree>, parentId: nat, rows: seq<Row>, queue: seq<(Tree, nat)>,
                      runningId: nat, ghost ns: seq<Node>, ghost k: nat)
    returns (rows': seq<Row>, queue': seq<(Tree, nat)>, runningId': nat)
    requires rows == RowsOf(ns) && runningId == 100 + |ns| && k <= |ns| && queue == Pending(isContainer, ns, k)
    ensures var all := ns + Kids(children, parentId);
            rows' == RowsOf(all) && runningId' == 100 + |all| && queue' == Pending(isContainer, all, k)
  {
    rows', queue', runningId' := rows, queue, runningId;
    ghost var kids := Kids(children, parentId);
    assert ns + kids[..0] == ns;
    for m := 0 to |children|
      invariant rows' == RowsOf(ns + kids[..m]) && runningId' == 100 + |ns| + m
      invariant queue' == Pending(isContainer, ns + kids[..m], k)
    {
      var item := children[m];
      runningId' := runningId' + 1;
      PendingSnoc(isContainer, ns + kids[..m], kids[m], k);
      assert ns + kids[..m + 1] == (ns + kids[..m]) + [kids[m]];
      if isContainer(item.record.itemType) {
        queue' := queue' + [(item, runningId')];
      }
      rows' := rows' + [Row(parentId, runningId', item.record)];
    }
    assert kids[..|children|] == kids;
  }

  /**
    Sids are distinct and exceed 100. The rows of the saved list keep their place, and the row of
    everything further down names the sid of an earlier row.
   */
  lemma {:induction false} SidsAscend(roots: seq<Node>)
    ensures var rows := RowsOf(Expand(roots, 0));
            && |rows| >= |roots|
            && (forall i :: 0 <= i < |rows| ==> rows[i].sid > 100)
            && (forall i, j :: 0 <= i < j < |rows| ==> rows[i].sid < rows[j].sid)
            && (forall i :: 0 <= i < |roots| ==> rows[i].pid == roots[i].pid)
            && (forall i :: |roots| <= i < |rows| ==> 100 < rows[i].pid < rows[i].sid)
  {
    RootsLinked(roots);
    ExpandLinks(roots, |roots|, 0);
  }

  // ---------------------------------------------------------------------------
  // Loading
  // ---------------------------------------------------------------------------

  class Item {
    const record: Record
    var itemlist: seq<Item>

    constructor (record: Record)
      ensures this.record == record && itemlist == []
    {
      this.record, itemlist := record, [];
    }

    /** Items are put in front of what is already there. */
    method InternalAddThing(item: Item)
      modifies this
      ensures itemlist == [item] + old(itemlist)
    {
      itemlist := [item] + itemlist;
    }
  }

  /** Which of the player's three stores is loaded. */
  datatype Store = Inventory | Depot | Inbox

  const SLOT_FIRST := 1
  const SLOT_LAST := 12

  /** A pid that names a place of the store itself rather than an item. */
  predicate IsPlace(store: Store, pid: nat) {
    if store.Inventory? then SLOT_FIRST <= pid <= SLOT_LAST else 0 <= pid < 100
  }

  /** What the saving side guarantees: slots hold one item each, and the inbox is place 0. */
  ghost predicate Savable(store: Store, saved: seq<Node>) {
    && (store.Inventory? ==>
          && (forall j :: 0 <= j < |saved| ==> IsPlace(store, saved[j].pid))
          && (forall i, j :: 0 <= i < j < |saved| ==> saved[i].pid != saved[j].pid))
    && (store.Inbox? ==> forall j :: 0 <= j < |saved| ==> saved[j].pid == 0)
  }

  /** The loaded items from index k on whose row names `pid`, in order. */
  ghost function ItemsBelow(ns: seq<Node>, objs: seq<Item>, pid: nat, k: nat): seq<Item>
    requires |objs| == |ns|
    decreases |ns| - k
  {
    if k >= |ns| then []
    else (if ns[k].pid == pid then [objs[k]] else []) + ItemsBelow(ns, objs, pid, k + 1)
  }

  ghost function IndicesBelow(ns: seq<Node>, pid: nat, k: nat): (r: seq<nat>)
    ensures forall m :: 0 <= m < |r| ==> r[m] < |ns|
    decreases |ns| - k
  {
    if k >= |ns| then []
    else (if ns[k].pid == pid then [k] else []) + IndicesBelow(ns, pid, k + 1)
  }

  lemma {:induction false} BelowParallel(ns: seq<Node>, objs: seq<Item>, pid: nat, k: nat)
    requires |objs| == |ns|
    ensures var r := IndicesBelow(ns, pid, k);
            && |ItemsBelow(ns, objs, pid, k)| == |TreesBelow(ns, pid, k)| == |r|
            && forall m :: 0 <= m < |r| ==>
                 ItemsBelow(ns, objs, pid, k)[m] == objs[r[m]] && TreesBelow(ns, pid, k)[m] == ns[r[m]].tree
    decreases |ns| - k
  {
    if k < |ns| {
      BelowParallel(ns, objs, pid, k + 1);
      var items, trees, r := ItemsBelow(ns, objs, pid, k + 1), TreesBelow(ns, pid, k + 1), IndicesBelow(ns, pid, k + 1);
      if ns[k].pid == pid {
        assert ItemsBelow(ns, objs, pid, k) == [objs[k]] + items;
        assert TreesBelow(ns, pid, k) == [ns[k].tree] + trees;
        assert IndicesBelow(ns, pid, k) == [k] + r;
      } else {
        assert ItemsBelow(ns, objs, pid, k) == items;
        assert TreesBelow(ns, pid, k) == trees;
        assert IndicesBelow(ns, pid, k) == r;
      }
      hide ItemsBelow, TreesBelow, IndicesBelow;
    }
  }

  /** The item map: row i has become the object objs[i]. */
  ghost predicate Mapped(itemMap: map<nat, (Item, nat)>, ns: seq<Node>, objs: seq<Item>) {
    && |objs| == |ns|
    && (forall s :: s in itemMap <==> FIRST_SID <= s < FIRST_SID + |ns|)
    && (forall s :: s in itemMap ==> itemMap[s] == (objs[s - FIRST_SID], ns[s - FIRST_SID].pid))
    && (forall i :: 0 <= i < |ns| ==> objs[i].record == ns[i].tree.record)
    && (forall i, j :: 0 <= i < j < |ns| ==> objs[i] != objs[j])
  }

  function ListAt(roots: map<nat, seq<Item>>, q: nat): seq<Item> { if q in roots then roots[q] else [] }

  /** What the i-th item's list holds once the items from index k on have been put back. */
  ghost function ListFrom(isContainer: Containers, ns: seq<Node>, objs: seq<Item>, i: nat, k: nat): seq<Item>
    requires |objs| == |ns| && i < |ns|
  {
    if IsContainer(isContainer, ns[i].tree) then ItemsBelow(ns, objs, FIRST_SID + i, k) else []
  }

  lemma {:induction false} ListFromStep(isContainer: Containers, ns: seq<Node>, objs: seq<Item>, i: nat, k: nat)
    requires |objs| == |ns| && i < |ns| && k < |ns|
    ensures ListFrom(isContainer, ns, objs, i, k)
         == (if IsContainer(isContainer, ns[i].tree) && ns[k].pid == FIRST_SID + i then [objs[k]] else []) + ListFrom(isContainer, ns, objs, i, k + 1)
  {
  }

  lemma {:induction false} NotBelow(ns: seq<Node>, objs: seq<Item>, q: nat, k: nat)
    requires |objs| == |ns| && k < |ns|
    ensures ns[k].pid != q ==> ItemsBelow(ns, objs, q, k) == ItemsBelow(ns, objs, q, k + 1)
  {
    if ns[k].pid != q {
      assert ItemsBelow(ns, objs, q, k) == [] + ItemsBelow(ns, objs, q, k + 1);
    }
  }

  /** The lists of all loaded items. */
  ghost function Lists(objs: seq<Item>): (lists: seq<seq<Item>>)
    reads objs
    ensures |lists| == |objs| && forall i :: 0 <= i < |objs| ==> lists[i] == objs[i].itemlist
  {
    seq(|objs|, i requires 0 <= i < |objs| reads objs => objs[i].itemlist)
  }

  /** Lists and places once the items from index k on have been put back. */
  ghost predicate Rebuilt(isContainer: Containers, store: Store, ns: seq<Node>, objs: seq<Item>, lists: seq<seq<Item>>,
                          roots: map<nat, seq<Item>>, k: nat)
    requires |objs| == |ns| == |lists|
  {
    && (forall i :: 0 <= i < |ns| ==> lists[i] == ListFrom(isContainer, ns, objs, i, k))
    && (forall q :: ListAt(roots, q) == if IsPlace(store, q) then ItemsBelow(ns, objs, q, k) else [])
  }

  /** What a row that names no place does to the lists: its item goes in front of its parent's. */
  function PutInto(isContainer: Containers, ns: seq<Node>, lists: seq<seq<Item>>, pid: nat, item: Item): seq<seq<Item>>
    requires |lists| == |ns|
  {
    if FIRST_SID <= pid < FIRST_SID + |ns| && IsContainer(isContainer, ns[pid - FIRST_SID].tree)
    then lists[pid - FIRST_SID := [item] + lists[pid - FIRST_SID]]
    else lists
  }

  lemma {:induction false} PutBackInside(isContainer: Containers, store: Store, ns: seq<Node>, objs: seq<Item>, lists: seq<seq<Item>>,
                      roots: map<nat, seq<Item>>, k: nat)
    requires |objs| == |ns| == |lists| && k < |ns| && !IsPlace(store, ns[k].pid)
    requires Rebuilt(isContainer, store, ns, objs, lists, roots, k + 1)
    ensures Rebuilt(isContainer, store, ns, objs, PutInto(isContainer, ns, lists, ns[k].pid, objs[k]), roots, k)
  {
    var lists' := PutInto(isContainer, ns, lists, ns[k].pid, objs[k]);
    hide ListFrom, ItemsBelow;
    forall i | 0 <= i < |ns|
      ensures lists'[i] == ListFrom(isContainer, ns, objs, i, k)
    {
      ListFromStep(isContainer, ns, objs, i, k);
      assert lists[i] == ListFrom(isContainer, ns, objs, i, k + 1);
    }
    forall q
      ensures ListAt(roots, q) == if IsPlace(store, q) then ItemsBelow(ns, objs, q, k) else []
    {
      NotBelow(ns, objs, q, k);
    }
  }

  /** An item put in front of its place is the next item of that place. */
  lemma {:induction false} PutBackInPlace(isContainer: Containers, store: Store, ns: seq<Node>, objs: seq<Item>, lists: seq<seq<Item>>,
                       before: map<nat, seq<Item>>, after: map<nat, seq<Item>>, k: nat)
    requires |objs| == |ns| == |lists| && k < |ns| && Rebuilt(isContainer, store, ns, objs, lists, before, k + 1)
    requires IsPlace(store, ns[k].pid)
    requires after == before[ns[k].pid := [objs[k]] + ListAt(before, ns[k].pid)]
    ensures Rebuilt(isContainer, store, ns, objs, lists, after, k)
  {
    forall i | 0 <= i < |ns|
      ensures lists[i] == ListFrom(isContainer, ns, objs, i, k)
    {
      ListFromStep(isContainer, ns, objs, i, k);
      assert lists[i] == ListFrom(isContainer, ns, objs, i, k + 1);
    }
    forall q
      ensures ListAt(after, q) == if IsPlace(store, q) then ItemsBelow(ns, objs, q, k) else []
    {
      assert ListAt(before, q) == if IsPlace(store, q) then ItemsBelow(ns, objs, q, k + 1) else [];
      NotBelow(ns, objs, q, k);
    }
  }

  function ObjectsOf(itemMap: map<nat, (Item, nat)>, n: nat): (objs: seq<Item>)
    requires forall s :: FIRST_SID <= s < FIRST_SID + n ==> s in itemMap
    ensures |objs| == n && forall i :: 0 <= i < n ==> objs[i] == itemMap[FIRST_SID + i].0
  {
    seq(n, i requires 0 <= i < n && FIRST_SID + i in itemMap => itemMap[FIRST_SID + i].0)
  }

  class Player {
    var roots: map<nat, seq<Item>>

    constructor ()
      ensures roots == map[]
    {
      roots := map[];
    }

    /** A slot takes one item; depots and the inbox take items in front. */
    method AddRoot(store: Store, pid: nat, item: Item)
      requires IsPlace(store, pid)
      modifies this
      ensures var q := if store.Inbox? then 0 else pid;
              roots == if store.Inventory? && ListAt(old(roots), q) != [] then old(roots)
                       else old(roots)[q := [item] + ListAt(old(roots), q)]
    {
      var q := if store.Inbox? then 0 else pid;
      if store.Inventory? && q in roots && roots[q] != [] {
        return;
      }
      roots := roots[q := [item] + ListAt(roots, q)];
    }

    /** One item is put back: into its place, or in front of its parent's list. */
    method PutBack(isContainer: Containers, store: Store, itemMap: map<nat, (Item, nat)>, sid: nat,
                   ghost ns: seq<Node>, ghost objs: seq<Item>, ghost k: nat)
      requires Mapped(itemMap, ns, objs) && sid == FIRST_SID + k && k < |ns|
      requires Rebuilt(isContainer, store, ns, objs, Lists(objs), roots, k + 1) && PlacesApart(store, ns)
      modifies this, objs
      ensures Rebuilt(isContainer, store, ns, objs, Lists(objs), roots, k)
    {
      KeysOf(itemMap, ns, objs);
      ParentOf(itemMap, ns, objs, sid);
      hide Mapped, Lists;
      var item, pid := itemMap[sid].0, itemMap[sid].1;
      if IsPlace(store, pid) {
        PlaceFree(isContainer, store, ns, objs, Lists(objs), roots, k);
        hide Rebuilt, PlacesApart;
        AddRoot(store, pid, item);
        PutBackInPlace(isContainer, store, ns, objs, Lists(objs), old(roots), roots, k);
      } else {
        PutBackInside(isContainer, store, ns, objs, Lists(objs), roots, k);
        hide Rebuilt;
        PutInside(isContainer, itemMap, item, pid, ns, objs);
      }
    }

    method PutInside(isContainer: Containers, itemMap: map<nat, (Item, nat)>, item: Item, pid: nat,
                     ghost ns: seq<Node>, ghost objs: seq<Item>)
      requires Mapped(itemMap, ns, objs)
      modifies objs
      ensures Lists(objs) == PutInto(isContainer, ns, old(Lists(objs)), pid, item)
    {
      KeysOf(itemMap, ns, objs);
      ghost var before := Lists(objs);
      if pid in itemMap {
        ParentOf(itemMap, ns, objs, pid);
        hide Mapped, Lists;
        var parent := itemMap[pid].0;
        if isContainer(parent.record.itemType) {
          parent.InternalAddThing(item);
          assert Lists(objs) == before[pid - FIRST_SID := [item] + before[pid - FIRST_SID]];
        }
      }
    }

    /** Makes an item of every row; rows may come in any order. */
    method LoadItems(rows: seq<Row>, ghost ns: seq<Node>) returns (itemMap: map<nat, (Item, nat)>, ghost objs: seq<Item>)
      requires forall r :: r in rows <==> r in RowsOf(ns)
      ensures Mapped(itemMap, ns, objs)
      ensures forall i :: 0 <= i < |objs| ==> fresh(objs[i]) && objs[i].itemlist == []
    {
      itemMap := map[];
      for k := 0 to |rows|
        invariant forall s :: s in itemMap ==> FIRST_SID <= s < FIRST_SID + |ns|
        invariant forall s :: s in itemMap ==> itemMap[s].1 == ns[s - FIRST_SID].pid
        invariant forall s :: s in itemMap ==> itemMap[s].0.record == ns[s - FIRST_SID].tree.record
        invariant forall s :: s in itemMap ==> fresh(itemMap[s].0) && itemMap[s].0.itemlist == []
        invariant forall s, t :: s in itemMap && t in itemMap && s != t ==> itemMap[s].0 != itemMap[t].0
        invariant forall j :: 0 <= j < k ==> rows[j].sid in itemMap
      {
        var row := rows[k];
        assert row in RowsOf(ns);
        var item := new Item(row.record);
        itemMap := itemMap[row.sid := (item, row.pid)];
      }
      forall s | FIRST_SID <= s < FIRST_SID + |ns|
        ensures s in itemMap
      {
        assert RowsOf(ns)[s - FIRST_SID] in RowsOf(ns);
        assert RowsOf(ns)[s - FIRST_SID] in rows;
      }
      objs := ObjectsOf(itemMap, |ns|);
    }

    /** Walks the item map from the highest sid down. */
    method Rebuild(isContainer: Containers, store: Store, itemMap: map<nat, (Item, nat)>,
                   ghost ns: seq<Node>, ghost objs: seq<Item>)
      requires Mapped(itemMap, ns, objs) && PlacesApart(store, ns) && roots == map[]
      requires forall i :: 0 <= i < |objs| ==> objs[i].itemlist == []
      modifies this, objs
      ensures |objs| == |ns| && Rebuilt(isContainer, store, ns, objs, Lists(objs), roots, 0)
    {
      hide *;
      var rest := itemMap.Keys;
      ghost var k := |ns|;
      KeysOf(itemMap, ns, objs);
      NothingRebuilt(isContainer, store, ns, objs, roots);
      while rest != {}
        invariant 0 <= k <= |ns| && forall s :: s in rest <==> s in itemMap && s < FIRST_SID + k
        invariant |objs| == |ns| && Rebuilt(isContainer, store, ns, objs, Lists(objs), roots, k)
        decreases rest
      {
        var sid := Highest(rest);
        TopKey(itemMap, ns, objs, k, sid);
        k := k - 1;
        PutBack(isContainer, store, itemMap, sid, ns, objs, k);
        rest := rest - {sid};
      }
      assert k > 0 ==> FIRST_SID + (k - 1) in rest;
    }

    /** Loads what was saved: rows in any order, any forest, any depth. */
    method LoadStore(isContainer: Containers, store: Store, rows: seq<Row>, ghost saved: seq<Node>)
      returns (ghost all: seq<Item>)
      requires roots == map[] && ValidNodes(isContainer, saved) && Savable(store, saved)
      requires forall r :: r in rows <==> r in RowsOf(Expand(saved, 0))
      modifies this
      ensures Restored(roots, saved, set o | o in all) <==> forall j :: 0 <= j < |saved| ==> IsPlace(store, saved[j].pid)
      ensures forall j :: 0 <= j < |saved| && !IsPlace(store, saved[j].pid) ==> Lost(roots, saved, saved[j].pid)
      ensures var ns := Expand(saved, 0);
              PlacesRestored(store, roots, saved, set o | o in all)
              <==> forall j :: 0 <= j < |saved| ==> !NamesContainer(isContainer, store, ns, |saved|, saved[j].pid)
      ensures var ns := Expand(saved, 0);
              |all| == |ns| && forall j :: 0 <= j < |ns| ==> WhereNamed(isContainer, store, ns, all, roots, j)
    {
      ghost var ns := Expand(saved, 0);
      var itemMap, objs := LoadItems(rows, ns);
      all := objs;
      ExpandedPlacesApart(store, saved);
      Rebuild(isContainer, store, itemMap, ns, objs);
      MappedApart(itemMap, ns, objs);
      hide Rebuilt, Savable, Mapped, PlacesApart, Placed, NamesContainer, TreesBelow, WhereNamed;
      RebuiltIsLoaded(isContainer, store, saved, ns, objs, roots);
      PlacesRestoredIff(isContainer, store, saved, ns, objs, roots);
      LostPlace(isContainer, store, saved, ns, objs, roots);
      forall j | 0 <= j < |ns|
        ensures WhereNamed(isContainer, store, ns, objs, roots, j)
      {
        WhereItemsGo(isContainer, store, ns, objs, roots, j);
      }
      if forall j :: 0 <= j < |saved| ==> IsPlace(store, saved[j].pid) {
        RebuiltIsRestored(isContainer, store, saved, ns, objs, roots);
      }
    }
  }

  /** The last key of an ordered map. */
  method Highest(s: set<nat>) returns (m: nat)
    requires s != {}
    ensures m in s && forall x :: x in s ==> x <= m
  {
    m :| m in s;
    var rest := s - {m};
    while rest != {}
      invariant rest <= s && m in s && forall x :: x in s && x !in rest ==> x <= m
      decreases rest
    {
      var x :| x in rest;
      m := if x > m then x else m;
      rest := rest - {x};
    }
  }

  lemma {:induction false} KeysOf(itemMap: map<nat, (Item, nat)>, ns: seq<Node>, objs: seq<Item>)
    requires Mapped(itemMap, ns, objs)
    ensures |objs| == |ns| && forall s :: s in itemMap <==> FIRST_SID <= s < FIRST_SID + |ns|
  {
  }

  lemma {:induction false} MappedApart(itemMap: map<nat, (Item, nat)>, ns: seq<Node>, objs: seq<Item>)
    requires Mapped(itemMap, ns, objs)
    ensures forall i, j :: 0 <= i < j < |objs| ==> objs[i] != objs[j]
    ensures |objs| == |ns| && forall i :: 0 <= i < |ns| ==> objs[i].record == ns[i].tree.record
  {
  }

  lemma {:induction false} ParentOf(itemMap: map<nat, (Item, nat)>, ns: seq<Node>, objs: seq<Item>, pid: nat)
    requires Mapped(itemMap, ns, objs) && pid in itemMap
    ensures var a := pid - FIRST_SID;
            && itemMap[pid].0 == objs[a] && itemMap[pid].1 == ns[a].pid && objs[a].record == ns[a].tree.record
            && forall i :: 0 <= i < |objs| && i != a ==> objs[i] != objs[a]
  {
  }

  lemma {:induction false} NothingRebuilt(isContainer: Containers, store: Store, ns: seq<Node>, objs: seq<Item>, roots: map<nat, seq<Item>>)
    requires |objs| == |ns| && roots == map[] && forall i :: 0 <= i < |objs| ==> objs[i].itemlist == []
    ensures Rebuilt(isContainer, store, ns, objs, Lists(objs), roots, |ns|)
  {
  }

  lemma {:induction false} TopKey(itemMap: map<nat, (Item, nat)>, ns: seq<Node>, objs: seq<Item>, k: nat, sid: nat)
    requires Mapped(itemMap, ns, objs) && k <= |ns|
    requires sid in itemMap && sid < FIRST_SID + k
    requires forall s :: s in itemMap && s < FIRST_SID + k ==> s <= sid
    ensures k > 0 && sid == FIRST_SID + k - 1
  {
    assert k > 0;
    assert FIRST_SID + (k - 1) in itemMap;
  }

  // ---------------------------------------------------------------------------
  // Loading undoes saving
  // ---------------------------------------------------------------------------

  /** The object, with everything inside it, is the tree. */
  ghost predicate Represents(o: Item, t: Tree, repr: set<Item>)
    reads repr
    decreases t
  {
    && o in repr && o.record == t.record
    && |o.itemlist| == |t.children|
    && forall m :: 0 <= m < |t.children| ==> Represents(o.itemlist[m], t.children[m], repr)
  }

  /** Every place holds the items that were saved from it, in the same order. */
  ghost predicate Restored(roots: map<nat, seq<Item>>, saved: seq<Node>, repr: set<Item>)
    reads repr
  {
    forall q :: RestoredAt(ListAt(roots, q), TreesBelow(saved, q, 0), repr)
  }

  ghost predicate RestoredAt(items: seq<Item>, trees: seq<Tree>, repr: set<Item>)
    reads repr
  {
    |items| == |trees| && forall m :: 0 <= m < |trees| ==> Represents(items[m], trees[m], repr)
  }

  /** Row i is saved in a recognised place, or inside an item that is. */
  predicate Placed(store: Store, ns: seq<Node>, n: nat, i: nat)
    requires i < |ns|
  {
    if i < n then IsPlace(store, ns[i].pid)
    else FIRST_SID <= ns[i].pid < FIRST_SID + i && Placed(store, ns, n, ns[i].pid - FIRST_SID)
  }

  /** The number is the sid of a container that is saved in a recognised place, at any depth. */
  predicate NamesContainer(isContainer: Containers, store: Store, ns: seq<Node>, n: nat, pid: nat) {
    && FIRST_SID <= pid < FIRST_SID + |ns|
    && IsContainer(isContainer, ns[pid - FIRST_SID].tree) && Placed(store, ns, n, pid - FIRST_SID)
  }

  /** No saved item is put into the i-th item by mistake. */
  predicate Clean(isContainer: Containers, ns: seq<Node>, n: nat, i: nat)
    requires i < |ns| && n <= |ns|
  {
    IsContainer(isContainer, ns[i].tree) ==> forall j :: 0 <= j < n ==> ns[j].pid != FIRST_SID + i
  }

  /** Everything known once all rows have been put back; the first `n` rows are the saved ones. */
  ghost predicate Loaded(isContainer: Containers, store: Store, n: nat, ns: seq<Node>, objs: seq<Item>, roots: map<nat, seq<Item>>)
    reads objs
  {
    && |objs| == |ns| && Rebuilt(isContainer, store, ns, objs, Lists(objs), roots, 0)
    && Linked(ns, n, |ns|) && ValidNodes(isContainer, ns)
    && (forall j :: 0 <= j < |ns| ==> objs[j].record == ns[j].tree.record)
  }

  lemma {:induction false} ItemsBelowStep(ns: seq<Node>, objs: seq<Item>, pid: nat, k: nat)
    requires |objs| == |ns| && k < |ns|
    ensures ns[k].pid != pid ==> ItemsBelow(ns, objs, pid, k) == ItemsBelow(ns, objs, pid, k + 1)
    ensures ns[k].pid == pid ==> ItemsBelow(ns, objs, pid, k) == [objs[k]] + ItemsBelow(ns, objs, pid, k + 1)
    ensures ItemsBelow(ns, objs, pid, |ns|) == []
  {
  }

  /** Skipping rows that name another parent changes nothing; skipping one that names this one shortens the list. */
  lemma {:induction false} ItemsBelowSkip(ns: seq<Node>, objs: seq<Item>, pid: nat, k: nat, n: nat)
    requires |objs| == |ns| && k <= n <= |ns|
    ensures var all, some := ItemsBelow(ns, objs, pid, k), ItemsBelow(ns, objs, pid, n);
            && |all| >= |some|
            && (if forall j :: k <= j < n ==> ns[j].pid != pid then all == some else |all| > |some|)
    decreases n - k
  {
    hide ItemsBelow;
    if k < n {
      ItemsBelowStep(ns, objs, pid, k);
      ItemsBelowSkip(ns, objs, pid, k + 1, n);
    }
  }

  /** The list of a loaded item runs parallel to the children it was saved with, unless something is put there by mistake. */
  lemma {:induction false} ListIsChildren(isContainer: Containers, store: Store, n: nat, ns: seq<Node>, objs: seq<Item>,
                                          roots: map<nat, seq<Item>>, i: nat)
    requires Loaded(isContainer, store, n, ns, objs, roots) && i < |ns|
    ensures |objs[i].itemlist| == |ns[i].tree.children| <==> Clean(isContainer, ns, n, i)
    ensures var r := IndicesBelow(ns, FIRST_SID + i, n);
            && |ns[i].tree.children| == |r|
            && (forall m :: 0 <= m < |r| ==> ns[i].tree.children[m] == ns[r[m]].tree)
            && (Clean(isContainer, ns, n, i) ==> |objs[i].itemlist| == |r| && forall m :: 0 <= m < |r| ==> objs[i].itemlist[m] == objs[r[m]])
  {
    BelowParallel(ns, objs, FIRST_SID + i, n);
    ItemsBelowSkip(ns, objs, FIRST_SID + i, 0, n);
    hide ItemsBelow, TreesBelow, IndicesBelow;
    assert Below(ns, n, i) == ns[i].tree.children;
    assert ns[i] in ns;
    assert Lists(objs)[i] == ListFrom(isContainer, ns, objs, i, 0);
    assert IsContainer(isContainer, ns[i].tree) || ns[i].tree.children == [];
  }

  lemma {:induction false} IndicesAre(ns: seq<Node>, pid: nat, k: nat)
    requires k <= |ns|
    ensures forall a :: a in IndicesBelow(ns, pid, k) <==> k <= a < |ns| && ns[a].pid == pid
    decreases |ns| - k
  {
    if k < |ns| {
      IndicesAre(ns, pid, k + 1);
    }
  }

  lemma {:induction false} ChildIsPlaced(store: Store, n: nat, ns: seq<Node>, i: nat, m: nat)
    requires Linked(ns, n, |ns|) && i < |ns| && Placed(store, ns, n, i)
    requires m < |IndicesBelow(ns, FIRST_SID + i, n)|
    ensures Placed(store, ns, n, IndicesBelow(ns, FIRST_SID + i, n)[m])
  {
    hide Linked, IndicesBelow, Placed;
    var r := IndicesBelow(ns, FIRST_SID + i, n);
    LinkedAbove(ns, n);
    IndicesAre(ns, FIRST_SID + i, n);
    assert r[m] in r;
    BelowIsPlaced(store, n, ns, i, r[m]);
  }

  lemma {:induction false} LinkedAbove(ns: seq<Node>, n: nat)
    requires Linked(ns, n, |ns|)
    ensures n <= |ns| && forall j :: n <= j < |ns| ==> FIRST_SID <= ns[j].pid < FIRST_SID + j
  {
    hide Below;
  }

  lemma {:induction false} BelowIsPlaced(store: Store, n: nat, ns: seq<Node>, i: nat, c: nat)
    requires n <= c < |ns| && i < c && ns[c].pid == FIRST_SID + i && Placed(store, ns, n, i)
    ensures Placed(store, ns, n, c)
  {
  }

  /** If nothing is put by mistake into what is placed, every placed object is, with everything inside, the saved tree. */
  lemma {:induction false} ObjectIsTree(isContainer: Containers, store: Store, n: nat, ns: seq<Node>, objs: seq<Item>,
                                        roots: map<nat, seq<Item>>, i: nat, t: Tree)
    requires Loaded(isContainer, store, n, ns, objs, roots)
    requires forall a :: 0 <= a < |ns| && Placed(store, ns, n, a) ==> Clean(isContainer, ns, n, a)
    requires i < |ns| && ns[i].tree == t && Placed(store, ns, n, i)
    ensures Represents(objs[i], t, set o | o in objs)
    decreases t
  {
    hide Loaded, Linked, IndicesBelow, Placed, Clean;
    LoadedLinked(isContainer, store, n, ns, objs, roots);
    var repr := set o | o in objs;
    var r := IndicesBelow(ns, FIRST_SID + i, n);
    ListIsChildren(isContainer, store, n, ns, objs, roots, i);
    LoadedRecord(isContainer, store, n, ns, objs, roots, i);
    forall m | 0 <= m < |t.children|
      ensures Represents(objs[i].itemlist[m], t.children[m], repr)
    {
      ChildIsPlaced(store, n, ns, i, m);
      ObjectIsTree(isContainer, store, n, ns, objs, roots, r[m], t.children[m]);
    }
  }

  lemma {:induction false} LoadedRecord(isContainer: Containers, store: Store, n: nat, ns: seq<Node>, objs: seq<Item>, roots: map<nat, seq<Item>>,
                                        i: nat)
    requires Loaded(isContainer, store, n, ns, objs, roots) && i < |ns|
    ensures objs[i].record == ns[i].tree.record
  {
  }

  lemma {:induction false} LoadedLinked(isContainer: Containers, store: Store, n: nat, ns: seq<Node>, objs: seq<Item>, roots: map<nat, seq<Item>>)
    requires Loaded(isContainer, store, n, ns, objs, roots)
    ensures Linked(ns, n, |ns|) && |objs| == |ns|
  {
  }

  lemma {:induction false} PlacedIs(store: Store, ns: seq<Node>, n: nat, i: nat)
    requires i < |ns| && Placed(store, ns, n, i)
    ensures if i < n then IsPlace(store, ns[i].pid) else FIRST_SID <= ns[i].pid < FIRST_SID + i && Placed(store, ns, n, ns[i].pid - FIRST_SID)
  {
  }

  /** If every item that lies in a place is the saved tree, so is everything inside them. */
  lemma {:induction false} TreesReachDown(isContainer: Containers, store: Store, n: nat, ns: seq<Node>, objs: seq<Item>,
                                          roots: map<nat, seq<Item>>, i: nat)
    requires Loaded(isContainer, store, n, ns, objs, roots) && i < |ns| && Placed(store, ns, n, i)
    requires forall a :: 0 <= a < n && IsPlace(store, ns[a].pid) ==> Represents(objs[a], ns[a].tree, set o | o in objs)
    ensures Represents(objs[i], ns[i].tree, set o | o in objs)
    decreases i
  {
    hide *;
    LoadedLinked(isContainer, store, n, ns, objs, roots);
    PlacedIs(store, ns, n, i);
    if i >= n {
      var a := ns[i].pid - FIRST_SID;
      TreesReachDown(isContainer, store, n, ns, objs, roots, a);
      TreeReachesChild(isContainer, store, n, ns, objs, roots, a, i);
    }
  }

  lemma {:induction false} TreeReachesChild(isContainer: Containers, store: Store, n: nat, ns: seq<Node>, objs: seq<Item>,
                                            roots: map<nat, seq<Item>>, a: nat, i: nat)
    requires Loaded(isContainer, store, n, ns, objs, roots) && a < |ns| && n <= i < |ns| && ns[i].pid == FIRST_SID + a
    requires Represents(objs[a], ns[a].tree, set o | o in objs)
    ensures Represents(objs[i], ns[i].tree, set o | o in objs)
  {
    hide *;
    LoadedLinked(isContainer, store, n, ns, objs, roots);
    RepresentsParts(objs[a], ns[a].tree, set o | o in objs);
    ListIsChildren(isContainer, store, n, ns, objs, roots, a);
    IndicesAre(ns, FIRST_SID + a, n);
    var r := IndicesBelow(ns, FIRST_SID + a, n);
    assert i in r;
    var m :| 0 <= m < |r| && r[m] == i;
  }

  lemma {:induction false} RepresentsParts(o: Item, t: Tree, repr: set<Item>)
    requires Represents(o, t, repr)
    ensures |o.itemlist| == |t.children| && forall m :: 0 <= m < |t.children| ==> Represents(o.itemlist[m], t.children[m], repr)
  {
  }

  /** Every recognised place holds the trees that were saved from it. */
  ghost predicate PlacesRestored(store: Store, roots: map<nat, seq<Item>>, saved: seq<Node>, repr: set<Item>)
    reads repr
  {
    forall q :: IsPlace(store, q) ==> RestoredAt(ListAt(roots, q), TreesBelow(saved, q, 0), repr)
  }

  lemma {:induction false} PlaceIs(isContainer: Containers, store: Store, saved: seq<Node>, ns: seq<Node>, objs: seq<Item>,
                                   roots: map<nat, seq<Item>>, q: nat)
    requires ns == Expand(saved, 0) && Loaded(isContainer, store, |saved|, ns, objs, roots) && IsPlace(store, q)
    ensures var r := IndicesBelow(ns, q, 0);
            && |ListAt(roots, q)| == |TreesBelow(saved, q, 0)| == |r|
            && forall m :: 0 <= m < |r| ==> ListAt(roots, q)[m] == objs[r[m]] && TreesBelow(saved, q, 0)[m] == ns[r[m]].tree
  {
    ExpandKeepsRoots(saved, 0, q);
    BelowParallel(ns, objs, q, 0);
    hide TreesBelow, ItemsBelow, IndicesBelow, Linked;
  }

  lemma {:induction false} CleanMeans(isContainer: Containers, store: Store, saved: seq<Node>, ns: seq<Node>)
    requires saved <= ns
    ensures (forall j :: 0 <= j < |saved| ==> !NamesContainer(isContainer, store, ns, |saved|, saved[j].pid))
       <==> (forall i :: 0 <= i < |ns| && Placed(store, ns, |saved|, i) ==> Clean(isContainer, ns, |saved|, i))
  {
    hide Placed;
    var n := |saved|;
    if forall i :: 0 <= i < |ns| && Placed(store, ns, n, i) ==> Clean(isContainer, ns, n, i) {
      forall j | 0 <= j < n
        ensures !NamesContainer(isContainer, store, ns, n, saved[j].pid)
      {
        assert ns[j] == saved[j];
        var i := saved[j].pid - FIRST_SID;
        if 0 <= i < |ns| {
          assert Placed(store, ns, n, i) ==> Clean(isContainer, ns, n, i);
        }
      }
    }
    if forall j :: 0 <= j < n ==> !NamesContainer(isContainer, store, ns, n, saved[j].pid) {
      forall i | 0 <= i < |ns| && Placed(store, ns, n, i)
        ensures Clean(isContainer, ns, n, i)
      {
        forall j | 0 <= j < n && IsContainer(isContainer, ns[i].tree)
          ensures ns[j].pid != FIRST_SID + i
        {
          assert ns[j] == saved[j];
        }
      }
    }
  }

  /**
    All recognised places are restored if and only if no saved item names, as its place, the sid of a container
    that is saved in a recognised place: such an item would end up in there.
   */
  lemma {:induction false} PlacesRestoredIff(isContainer: Containers, store: Store, saved: seq<Node>, ns: seq<Node>, objs: seq<Item>,
                                             roots: map<nat, seq<Item>>)
    requires ns == Expand(saved, 0) && saved <= ns && Loaded(isContainer, store, |saved|, ns, objs, roots)
    ensures PlacesRestored(store, roots, saved, set o | o in objs)
       <==> forall j :: 0 <= j < |saved| ==> !NamesContainer(isContainer, store, ns, |saved|, saved[j].pid)
  {
    var repr, n := set o | o in objs, |saved|;
    hide Loaded, Placed, Clean, NamesContainer, IndicesBelow, TreesBelow, Represents;
    LoadedLinked(isContainer, store, n, ns, objs, roots);
    CleanMeans(isContainer, store, saved, ns);
    if forall i :: 0 <= i < |ns| && Placed(store, ns, n, i) ==> Clean(isContainer, ns, n, i) {
      forall q | IsPlace(store, q)
        ensures RestoredAt(ListAt(roots, q), TreesBelow(saved, q, 0), repr)
      {
        RestoredWhenClean(isContainer, store, saved, ns, objs, roots, q);
      }
    }
    if PlacesRestored(store, roots, saved, repr) {
      forall i | 0 <= i < |ns| && Placed(store, ns, n, i)
        ensures Clean(isContainer, ns, n, i)
      {
        CleanWhenRestored(isContainer, store, saved, ns, objs, roots, i);
      }
    }
  }

  /** A row that names a place is one of the saved ones. */
  lemma {:induction false} RootIsPlaced(store: Store, saved: seq<Node>, ns: seq<Node>, q: nat, i: nat)
    requires Linked(ns, |saved|, |ns|) && i < |ns| && ns[i].pid == q && IsPlace(store, q)
    ensures Placed(store, ns, |saved|, i)
  {
    hide Below;
  }

  lemma {:induction false} RestoredWhenClean(isContainer: Containers, store: Store, saved: seq<Node>, ns: seq<Node>, objs: seq<Item>,
                                             roots: map<nat, seq<Item>>, q: nat)
    requires ns == Expand(saved, 0) && Loaded(isContainer, store, |saved|, ns, objs, roots) && IsPlace(store, q)
    requires forall i :: 0 <= i < |ns| && Placed(store, ns, |saved|, i) ==> Clean(isContainer, ns, |saved|, i)
    ensures RestoredAt(ListAt(roots, q), TreesBelow(saved, q, 0), set o | o in objs)
  {
    hide *;
    LoadedLinked(isContainer, store, |saved|, ns, objs, roots);
    PlaceIs(isContainer, store, saved, ns, objs, roots, q);
    var r := IndicesBelow(ns, q, 0);
    IndicesAre(ns, q, 0);
    forall m | 0 <= m < |r|
      ensures Represents(objs[r[m]], ns[r[m]].tree, set o | o in objs)
    {
      assert r[m] in r;
      RootIsPlaced(store, saved, ns, q, r[m]);
      ObjectIsTree(isContainer, store, |saved|, ns, objs, roots, r[m], ns[r[m]].tree);
    }
    RestoredIs(ListAt(roots, q), TreesBelow(saved, q, 0), set o | o in objs);
  }

  lemma {:induction false} RestoredIs(items: seq<Item>, trees: seq<Tree>, repr: set<Item>)
    requires |items| == |trees| && forall m :: 0 <= m < |trees| ==> Represents(items[m], trees[m], repr)
    ensures RestoredAt(items, trees, repr)
  {
  }

  lemma {:induction false} CleanWhenRestored(isContainer: Containers, store: Store, saved: seq<Node>, ns: seq<Node>, objs: seq<Item>,
                                             roots: map<nat, seq<Item>>, i: nat)
    requires ns == Expand(saved, 0) && Loaded(isContainer, store, |saved|, ns, objs, roots)
    requires PlacesRestored(store, roots, saved, set o | o in objs) && i < |ns| && Placed(store, ns, |saved|, i)
    ensures Clean(isContainer, ns, |saved|, i)
  {
    forall a | 0 <= a < |saved| && IsPlace(store, ns[a].pid)
      ensures Represents(objs[a], ns[a].tree, set o | o in objs)
    {
      var q := ns[a].pid;
      PlaceIs(isContainer, store, saved, ns, objs, roots, q);
      IndicesAre(ns, q, 0);
      var r := IndicesBelow(ns, q, 0);
      var m :| 0 <= m < |r| && r[m] == a;
      assert RestoredAt(ListAt(roots, q), TreesBelow(saved, q, 0), set o | o in objs);
    }
    TreesReachDown(isContainer, store, |saved|, ns, objs, roots, i);
    ListIsChildren(isContainer, store, |saved|, ns, objs, roots, i);
  }

  lemma {:induction false} RebuiltIsLoaded(isContainer: Containers, store: Store, saved: seq<Node>, ns: seq<Node>, objs: seq<Item>,
                                           roots: map<nat, seq<Item>>)
    requires ns == Expand(saved, 0) && |objs| == |ns| && Rebuilt(isContainer, store, ns, objs, Lists(objs), roots, 0)
    requires ValidNodes(isContainer, saved) && forall j :: 0 <= j < |ns| ==> objs[j].record == ns[j].tree.record
    ensures saved <= ns && Loaded(isContainer, store, |saved|, ns, objs, roots)
  {
    hide Rebuilt, Linked;
    RootsLinked(saved);
    ExpandLinks(saved, |saved|, 0);
    ExpandKeepsValid(isContainer, saved, 0);
  }

  /** If every saved item is in a recognised place, loading restores everything. */
  lemma {:induction false} RebuiltIsRestored(isContainer: Containers, store: Store, saved: seq<Node>, ns: seq<Node>, objs: seq<Item>,
                          roots: map<nat, seq<Item>>)
    requires ns == Expand(saved, 0) && saved <= ns && Loaded(isContainer, store, |saved|, ns, objs, roots)
    requires forall j :: 0 <= j < |saved| ==> IsPlace(store, saved[j].pid)
    ensures Restored(roots, saved, set o | o in objs)
  {
    PlacesRestoredIff(isContainer, store, saved, ns, objs, roots);
    forall q
      ensures RestoredAt(ListAt(roots, q), TreesBelow(saved, q, 0), set o | o in objs)
    {
      if !IsPlace(store, q) {
        NoneBelow(saved, q, 0);
      }
    }
  }

  lemma {:induction false} InItemsBelow(ns: seq<Node>, objs: seq<Item>, q: nat, k: nat, j: nat)
    requires |objs| == |ns| && j < |ns| && k <= |ns| && forall a, b :: 0 <= a < b < |objs| ==> objs[a] != objs[b]
    ensures objs[j] in ItemsBelow(ns, objs, q, k) <==> k <= j && ns[j].pid == q
    decreases |ns| - k
  {
    hide ItemsBelow;
    ItemsBelowStep(ns, objs, q, if k < |ns| then k else j);
    if k < |ns| {
      InItemsBelow(ns, objs, q, k + 1, j);
    }
  }

  /** The j-th item is exactly where its row says: in the place, or in the container with that sid, or nowhere. */
  ghost predicate WhereNamed(isContainer: Containers, store: Store, ns: seq<Node>, objs: seq<Item>, roots: map<nat, seq<Item>>, j: nat)
    requires |objs| == |ns| && j < |ns|
    reads objs
  {
    && (forall q :: objs[j] in ListAt(roots, q) <==> q == ns[j].pid && IsPlace(store, q))
    && (forall i :: 0 <= i < |ns| ==>
          (objs[j] in objs[i].itemlist <==> ns[j].pid == FIRST_SID + i && IsContainer(isContainer, ns[i].tree)))
  }

  lemma {:induction false} WhereItemsGo(isContainer: Containers, store: Store, ns: seq<Node>, objs: seq<Item>, roots: map<nat, seq<Item>>, j: nat)
    requires |objs| == |ns| && Rebuilt(isContainer, store, ns, objs, Lists(objs), roots, 0)
    requires j < |ns| && forall a, b :: 0 <= a < b < |objs| ==> objs[a] != objs[b]
    ensures WhereNamed(isContainer, store, ns, objs, roots, j)
  {
    hide Rebuilt, ItemsBelow, ListAt, IsPlace, Lists, IsContainer;
    forall q
      ensures objs[j] in ListAt(roots, q) <==> q == ns[j].pid && IsPlace(store, q)
    {
      RebuiltAt(isContainer, store, ns, objs, roots, q, j);
      InItemsBelow(ns, objs, q, 0, j);
    }
    forall i | 0 <= i < |ns|
      ensures objs[j] in objs[i].itemlist <==> ns[j].pid == FIRST_SID + i && IsContainer(isContainer, ns[i].tree)
    {
      RebuiltAt(isContainer, store, ns, objs, roots, 0, i);
      InItemsBelow(ns, objs, FIRST_SID + i, 0, j);
    }
  }

  /** For instance: the coin of depot 101 ends up in the bag of depot 3, whose sid is 101. */
  lemma {:induction false} CoinInTheWrongBag(isContainer: Containers, bag: Item, coin: Item, roots: map<nat, seq<Item>>)
    requires var saved := [Node(3, Tree(bag.record, [])), Node(101, Tree(coin.record, []))];
             isContainer(bag.record.itemType) && Rebuilt(isContainer, Depot, saved, [bag, coin], Lists([bag, coin]), roots, 0)
    ensures var saved := [Node(3, Tree(bag.record, [])), Node(101, Tree(coin.record, []))];
            && Expand(saved, 0) == saved && bag.itemlist == [coin]
            && !PlacesRestored(Depot, roots, saved, set o | o in [bag, coin])
  {
    var saved, objs := [Node(3, Tree(bag.record, [])), Node(101, Tree(coin.record, []))], [bag, coin];
    hide Rebuilt, Expand, Loaded, ItemsBelow, PlacesRestored;
    NothingInside(saved, 0);
    RebuiltAt(isContainer, Depot, saved, objs, roots, 3, 0);
    ItemsBelowStep(saved, objs, 101, 0);
    ItemsBelowStep(saved, objs, 101, 1);
    RebuiltIsLoaded(isContainer, Depot, saved, saved, objs, roots);
    PlacesRestoredIff(isContainer, Depot, saved, saved, objs, roots);
    assert NamesContainer(isContainer, Depot, saved, 2, saved[1].pid);
  }

  lemma {:induction false} NothingInside(ns: seq<Node>, k: nat)
    requires forall n :: n in ns ==> n.tree.children == []
    ensures Expand(ns, k) == ns
    decreases |ns| - k
  {
    if k < |ns| {
      assert ns[k] in ns;
      assert ns + Kids(ns[k].tree.children, FIRST_SID + k) == ns;
      NothingInside(ns, k + 1);
    }
  }

  lemma {:induction false} RebuiltAt(isContainer: Containers, store: Store, ns: seq<Node>, objs: seq<Item>, roots: map<nat, seq<Item>>,
                                     q: nat, i: nat)
    requires |objs| == |ns| && Rebuilt(isContainer, store, ns, objs, Lists(objs), roots, 0) && i < |ns|
    ensures ListAt(roots, q) == if IsPlace(store, q) then ItemsBelow(ns, objs, q, 0) else []
    ensures objs[i].itemlist == if IsContainer(isContainer, ns[i].tree) then ItemsBelow(ns, objs, FIRST_SID + i, 0) else []
  {
    hide ItemsBelow, ListAt;
    assert Lists(objs)[i] == ListFrom(isContainer, ns, objs, i, 0);
  }

  /** Something was saved from the place, and nothing is there. */
  predicate Lost(roots: map<nat, seq<Item>>, saved: seq<Node>, q: nat) {
    ListAt(roots, q) == [] && TreesBelow(saved, q, 0) != []
  }

  /** An unrecognised place is empty after loading, wherever its items have gone. */
  lemma {:induction false} LostPlace(isContainer: Containers, store: Store, saved: seq<Node>, ns: seq<Node>, objs: seq<Item>,
                  roots: map<nat, seq<Item>>)
    requires |objs| == |ns| && Rebuilt(isContainer, store, ns, objs, Lists(objs), roots, 0)
    ensures forall j :: 0 <= j < |saved| && !IsPlace(store, saved[j].pid) ==> Lost(roots, saved, saved[j].pid)
    ensures (exists j :: 0 <= j < |saved| && !IsPlace(store, saved[j].pid)) ==> !Restored(roots, saved, set o | o in objs)
  {
    forall j | 0 <= j < |saved| && !IsPlace(store, saved[j].pid)
      ensures Lost(roots, saved, saved[j].pid)
      ensures !RestoredAt(ListAt(roots, saved[j].pid), TreesBelow(saved, saved[j].pid, 0), set o | o in objs)
    {
      SomeBelow(saved, saved[j].pid, 0, j);
    }
  }

  lemma {:induction false} SomeBelow(ns: seq<Node>, q: nat, k: nat, j: nat)
    requires k <= j < |ns| && ns[j].pid == q
    ensures TreesBelow(ns, q, k) != []
    decreases |ns| - k
  {
    if k < j {
      SomeBelow(ns, q, k + 1, j);
    }
  }

  lemma {:induction false} ExpandedPlacesApart(store: Store, saved: seq<Node>)
    requires Savable(store, saved)
    ensures PlacesApart(store, Expand(saved, 0))
  {
    RootsLinked(saved);
    ExpandLinks(saved, |saved|, 0);
    var all := Expand(saved, 0);
    forall j | 0 <= j < |all| && IsPlace(store, all[j].pid)
      ensures j < |saved| && all[j] == saved[j]
    {
    }
  }

  /** No two rows name the same slot, and everything in the inbox names place 0. */
  ghost predicate PlacesApart(store: Store, ns: seq<Node>) {
    && (store.Inventory? ==> forall i, j :: 0 <= i < j < |ns| && IsPlace(store, ns[i].pid) ==> ns[i].pid != ns[j].pid)
    && (store.Inbox? ==> forall i :: 0 <= i < |ns| && IsPlace(store, ns[i].pid) ==> ns[i].pid == 0)
  }

  lemma {:induction false} PlaceFree(isContainer: Containers, store: Store, ns: seq<Node>, objs: seq<Item>, lists: seq<seq<Item>>,
                  roots: map<nat, seq<Item>>, k: nat)
    requires |objs| == |ns| == |lists| && k < |ns| && IsPlace(store, ns[k].pid) && PlacesApart(store, ns)
    requires Rebuilt(isContainer, store, ns, objs, lists, roots, k + 1)
    ensures store.Inventory? ==> ListAt(roots, ns[k].pid) == []
    ensures store.Inbox? ==> ns[k].pid == 0
  {
    if store.Inventory? {
      SlotFree(ns, objs, ns[k].pid, k);
    }
  }

  lemma {:induction false} SlotFree(ns: seq<Node>, objs: seq<Item>, pid: nat, k: nat)
    requires |objs| == |ns| && k < |ns| && forall j :: k < j < |ns| ==> ns[j].pid != pid
    ensures ItemsBelow(ns, objs, pid, k + 1) == []
    decreases |ns| - k
  {
    if k + 1 < |ns| {
      SlotFree(ns, objs, pid, k + 1);
    }
  }
}
