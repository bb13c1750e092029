/** The layered picture of a chain (src/exit/chain_order.ts): Kahn waves with a fallback for
    cycles, depth by longest path, one lane per node within a layer. */
module ChainOrder {
  import opened ExitChain

  type Txid = string
  type Parents = map<Txid, seq<Txid>>

  datatype Edge = Edge(parent: Txid, child: Txid)

  /** Distinct nodes, each with the parents the chain holds. */
  ghost predicate IsGraph(ids: seq<Txid>, parents: Parents) {
    && Distinct(ids)
    && (forall x :: x in ids <==> x in parents)
    && (forall x :: x in parents ==> forall p :: p in parents[x] ==> p in parents)
  }

  /** A path down the graph: every entry is a parent of the next. */
  ghost predicate IsPath(parents: Parents, path: seq<Txid>) {
    && path != []
    && (forall i :: 0 <= i < |path| ==> path[i] in parents)
    && (forall i :: 0 < i < |path| ==> path[i - 1] in parents[path[i]])
  }

  ghost predicate IsCycle(parents: Parents, path: seq<Txid>) {
    IsPath(parents, path) && |path| >= 2 && path[0] == path[|path| - 1]
  }

  ghost predicate Cyclic(parents: Parents) {
    exists path :: IsCycle(parents, path)
  }

  // ---- nodes and parents -----------------------------------------------------------------

  /** The first entry of a txid. */
  function First(chain: seq<ChainTx>, x: Txid): (tx: ChainTx)
    requires x in Txids(chain)
    ensures tx in chain && tx.txid == x
  {
    if chain[0].txid == x then chain[0] else First(chain[1..], x)
  }

  function Present(ps: seq<Txid>, known: set<Txid>): (r: seq<Txid>)
    ensures forall p :: p in r <==> p in ps && p in known
  {
    if ps == [] then [] else (if ps[0] in known then [ps[0]] else []) + Present(ps[1..], known)
  }

  /** The graph of a chain: its txids, each with the ancestors its first entry names that the
      chain holds. */
  function ParentMap(chain: seq<ChainTx>): (parents: Parents)
    ensures forall x :: x in parents <==> x in Txids(chain)
    ensures forall x :: x in parents ==> forall p :: p in parents[x] <==> p in ParentTxids(First(chain, x)) && p in Txids(chain)
  {
    map x | x in Txids(chain) :: Present(ParentTxids(First(chain, x)), Txids(chain))
  }

  lemma Added(txs: seq<ChainTx>, tx: ChainTx)
    ensures Txids(txs + [tx]) == Txids(txs) + {tx.txid}
  {
    assert forall t :: t in txs + [tx] <==> t in txs || t == tx;
  }

  lemma {:induction false} FirstStays(txs: seq<ChainTx>, tx: ChainTx, x: Txid)
    requires x in Txids(txs + [tx])
    ensures First(txs + [tx], x) == if x in Txids(txs) then First(txs, x) else tx
    decreases |txs|
  {
    Added(txs, tx);
    if txs == [] {
      assert txs + [tx] == [tx];
    } else if txs[0].txid != x {
      assert (txs + [tx])[1..] == txs[1..] + [tx];
      assert txs == [txs[0]] + txs[1..];
      assert forall t :: t in txs <==> t == txs[0] || t in txs[1..];
      FirstStays(txs[1..], tx, x);
    }
  }

  /** The first entry of each txid, in order. */
  method Nodes(chain: seq<ChainTx>) returns (nodes: seq<ChainTx>)
    ensures forall i, j :: 0 <= i < j < |nodes| ==> nodes[i].txid != nodes[j].txid
    ensures Txids(nodes) == Txids(chain)
    ensures forall tx :: tx in nodes ==> tx.txid in Txids(chain) && tx == First(chain, tx.txid)
  {
    hide First;
    nodes := [];
    var seen: set<Txid> := {};
    for n := 0 to |chain|
      invariant forall i, j :: 0 <= i < j < |nodes| ==> nodes[i].txid != nodes[j].txid
      invariant seen == Txids(chain[..n]) && seen == Txids(nodes)
      invariant forall tx :: tx in nodes ==> tx.txid in seen && tx == First(chain[..n], tx.txid)
    {
      var tx := chain[n];
      Added(chain[..n], tx);
      Added(nodes, tx);
      assert chain[..n + 1] == chain[..n] + [tx];
      forall t | t in nodes || t == tx ensures First(chain[..n + 1], t.txid) == if t.txid in seen then First(chain[..n], t.txid) else tx {
        FirstStays(chain[..n], tx, t.txid);
      }
      if tx.txid !in seen {
        assert forall i :: 0 <= i < |nodes| ==> nodes[i] in nodes;
        seen := seen + {tx.txid};
        nodes := nodes + [tx];
      }
    }
    assert chain[..|chain|] == chain;
  }

  method ParentsOf(ghost chain: seq<ChainTx>, nodes: seq<ChainTx>) returns (ids: seq<Txid>, parents: Parents)
    requires forall i, j :: 0 <= i < j < |nodes| ==> nodes[i].txid != nodes[j].txid
    requires Txids(nodes) == Txids(chain) && forall tx :: tx in nodes ==> tx.txid in Txids(chain) && tx == First(chain, tx.txid)
    ensures parents == ParentMap(chain) && IsGraph(ids, parents)
  {
    hide First, ParentTxids, Present;
    var known := Txids(nodes);
    ids, parents := [], map[];
    for n := 0 to |nodes|
      invariant |ids| == n && forall i :: 0 <= i < n ==> ids[i] == nodes[i].txid
      invariant forall x :: x in parents <==> x in ids
      invariant forall x :: x in parents ==> x in Txids(chain) && parents[x] == Present(ParentTxids(First(chain, x)), known)
    {
      assert nodes[n] in nodes;
      ids := ids + [nodes[n].txid];
      parents := parents[nodes[n].txid := Present(ParentTxids(nodes[n]), known)];
    }
    forall x | x in known ensures x in parents {
      var tx :| tx in nodes && tx.txid == x;
      var j :| 0 <= j < |nodes| && nodes[j] == tx;
      assert ids[j] == x;
    }
  }

  // ---- topological order ----------------------------------------------------------------------

  function Elements(s: seq<Txid>): set<Txid> {
    set x | x in s
  }

  lemma {:induction false} DistinctSize(s: seq<Txid>)
    requires Distinct(s)
    ensures |Elements(s)| == |s|
  {
    if s != [] {
      var rest := s[..|s| - 1];
      DistinctSize(rest);
      assert Elements(s) == Elements(rest) + {s[|s| - 1]};
    }
  }

  lemma Fits(s: seq<Txid>, all: set<Txid>)
    requires Distinct(s) && Elements(s) <= all
    ensures |s| <= |all|
  {
    DistinctSize(s);
    Smaller(Elements(s), all);
  }

  lemma {:induction false} Smaller(a: set<Txid>, b: set<Txid>)
    requires a <= b
    ensures |a| <= |b|
    decreases |a|
  {
    if a != {} {
      var x :| x in a;
      Smaller(a - {x}, b - {x});
    }
  }

  /** A node some parent of which is not out yet. */
  predicate Blocked(parents: Parents, topo: seq<Txid>, x: Txid) {
    x in parents && exists p :: p in parents[x] && p !in topo
  }

  lemma LongerOrCycle(parents: Parents, path: seq<Txid>, p: Txid)
    requires IsPath(parents, path) && Distinct(path) && p in parents && p in parents[path[0]]
    ensures IsPath(parents, [p] + path)
    ensures p in path ==> Cyclic(parents)
    ensures p !in path ==> Distinct([p] + path)
  {
    var longer := [p] + path;
    if p in path {
      var i :| 0 <= i < |path| && path[i] == p;
      var cycle := longer[..i + 2];
      assert cycle[|cycle| - 1] == longer[i + 1] == path[i];
      assert IsCycle(parents, cycle);
    }
  }

  /** When every node that is not out is blocked, following blocked parents must come back to
      where it has been: there is a cycle. */
  lemma {:induction false} NoWayUp(ids: seq<Txid>, parents: Parents, topo: seq<Txid>, path: seq<Txid>)
    requires IsGraph(ids, parents) && IsPath(parents, path) && Distinct(path)
    requires forall x :: x in path ==> x in ids && x !in topo
    requires forall x :: x in ids && x !in topo ==> Blocked(parents, topo, x)
    ensures Cyclic(parents)
    decreases |ids| - |path|
  {
    assert path != [] && path[0] in path;
    hide Cyclic, Blocked, IsPath, Distinct;
    var p := BlockedBy(parents, topo, path[0]);
    assert p in parents && p in ids;
    LongerOrCycle(parents, path, p);
    if p !in path {
      NoLonger(ids, path, p);
      NoWayUp(ids, parents, topo, [p] + path);
    }
  }

  lemma BlockedBy(parents: Parents, topo: seq<Txid>, x: Txid) returns (p: Txid)
    requires Blocked(parents, topo, x)
    ensures x in parents && p in parents[x] && p !in topo
  {
    p :| p in parents[x] && p !in topo;
  }

  lemma NoLonger(ids: seq<Txid>, path: seq<Txid>, p: Txid)
    requires Distinct(ids) && Distinct(path) && p !in path && p in ids && forall x :: x in path ==> x in ids
    ensures |path| < |ids|
  {
    var longer := [p] + path;
    DistinctSize(ids);
    assert Elements(longer) <= Elements(ids);
    Fits(longer, Elements(ids));
  }

  ghost predicate Topological(topo: seq<Txid>, parents: Parents) {
    forall i :: 0 <= i < |topo| ==> topo[i] in parents && forall p :: p in parents[topo[i]] ==> p in topo[..i]
  }

  /** The waves so far: part of the nodes, each once, parents first unless there is a cycle. */
  ghost predicate Emitted(ids: seq<Txid>, parents: Parents, topo: seq<Txid>) {
    && Distinct(topo) && (forall x :: x in topo ==> x in ids)
    && (Cyclic(parents) || Topological(topo, parents))
  }

  lemma EmitNext(ids: seq<Txid>, parents: Parents, topo: seq<Txid>, x: Txid)
    requires Emitted(ids, parents, topo) && x in ids && x !in topo && x in parents
    requires Cyclic(parents) || forall p :: p in parents[x] ==> p in topo
    ensures Emitted(ids, parents, topo + [x])
  {
    var next := topo + [x];
    if !Cyclic(parents) {
      forall i | 0 <= i < |next| ensures next[i] in parents && forall p :: p in parents[next[i]] ==> p in next[..i] {
        if i < |topo| {
          assert next[..i] == topo[..i];
        } else {
          assert next[..i] == topo;
        }
      }
    }
  }

  /** One wave: emits every node whose parents are all out, as it goes. */
  method Wave(ids: seq<Txid>, parents: Parents, topo: seq<Txid>) returns (next: seq<Txid>, progressed: bool)
    requires IsGraph(ids, parents) && Emitted(ids, parents, topo)
    ensures Emitted(ids, parents, next) && |next| >= |topo| && (progressed <==> |next| > |topo|)
    ensures !progressed ==> next == topo && forall x :: x in ids && x !in topo ==> Blocked(parents, topo, x)
  {
    hide Emitted;
    next, progressed := topo, false;
    for i := 0 to |ids|
      invariant Emitted(ids, parents, next) && |next| >= |topo| && (progressed <==> |next| > |topo|)
      invariant !progressed ==> next == topo && forall j :: 0 <= j < i && ids[j] !in topo ==> Blocked(parents, topo, ids[j])
    {
      if ids[i] !in next && forall p :: p in parents[ids[i]] ==> p in next {
        EmitNext(ids, parents, next, ids[i]);
        next := next + [ids[i]];
        progressed := true;
      }
    }
  }

  /** What is left when nothing can go first: in a cycle, emitted as it comes. */
  method EmitRest(ids: seq<Txid>, parents: Parents, topo: seq<Txid>) returns (next: seq<Txid>)
    requires IsGraph(ids, parents) && Emitted(ids, parents, topo) && Cyclic(parents)
    ensures Emitted(ids, parents, next) && forall x :: x in ids ==> x in next
  {
    hide Emitted, Cyclic;
    next := topo;
    for i := 0 to |ids|
      invariant Emitted(ids, parents, next) && forall j :: 0 <= j < i ==> ids[j] in next
    {
      if ids[i] !in next {
        EmitNext(ids, parents, next, ids[i]);
        next := next + [ids[i]];
      }
    }
  }

  lemma AllOut(ids: seq<Txid>, topo: seq<Txid>)
    requires Distinct(ids) && Distinct(topo) && forall x :: x in topo ==> x in ids
    ensures |topo| <= |ids|
    ensures |topo| == |ids| <==> forall x :: x in ids ==> x in topo
  {
    DistinctSize(ids);
    DistinctSize(topo);
    Smaller(Elements(topo), Elements(ids));
    if |topo| == |ids| {
      forall x | x in ids ensures x in topo {
        if x !in topo {
          assert Elements(topo) <= Elements(ids) - {x};
          Smaller(Elements(topo), Elements(ids) - {x});
        }
      }
    } else if forall x :: x in ids ==> x in topo {
      Smaller(Elements(ids), Elements(topo));
    }
  }

  lemma NoneEmitted(ids: seq<Txid>, parents: Parents)
    ensures Emitted(ids, parents, [])
  {
    hide Cyclic;
  }

  /** Every node once; and when the graph has no cycle, every node after all its parents. */
  method TopoOrder(ids: seq<Txid>, parents: Parents) returns (topo: seq<Txid>)
    requires IsGraph(ids, parents)
    ensures Distinct(topo) && forall x :: x in topo <==> x in ids
    ensures !Cyclic(parents) <==> Topological(topo, parents)
  {
    hide Emitted, Cyclic, Topological, Blocked;
    topo := [];
    NoneEmitted(ids, parents);
    Bounded(ids, parents, topo);
    while |topo| < |ids|
      invariant Emitted(ids, parents, topo) && |topo| <= |ids|
      decreases |ids| - |topo|
    {
      var before := topo;
      var progressed;
      topo, progressed := Wave(ids, parents, before);
      if !progressed {
        Bounded(ids, parents, before);
        ghost var x :| x in ids && x !in before;
        NoWayUp(ids, parents, before, [x]);
        topo := EmitRest(ids, parents, topo);
      }
      Bounded(ids, parents, topo);
    }
    AllEmitted(ids, parents, topo);
    OrderedIsAcyclic(ids, parents, topo);
  }

  lemma {:induction false} PathClimbs(parents: Parents, topo: seq<Txid>, path: seq<Txid>, i: nat, j: nat)
    requires Topological(topo, parents) && Distinct(topo) && i < |topo| && j < |topo|
    requires IsPath(parents, path) && path[0] == topo[i] && path[|path| - 1] == topo[j]
    ensures |path| >= 2 ==> i < j
    decreases |path|
  {
    if |path| >= 2 {
      var rest := path[..|path| - 1];
      assert topo[j] in parents && path[|path| - 2] in parents[topo[j]];
      var k :| 0 <= k < j && topo[k] == path[|path| - 2];
      assert IsPath(parents, rest);
      PathClimbs(parents, topo, rest, i, k);
    }
  }

  lemma OrderedIsAcyclic(ids: seq<Txid>, parents: Parents, topo: seq<Txid>)
    requires IsGraph(ids, parents) && Distinct(topo) && (forall x :: x in topo <==> x in ids)
    ensures Topological(topo, parents) ==> !Cyclic(parents)
  {
    if Topological(topo, parents) && Cyclic(parents) {
      var path :| IsCycle(parents, path);
      assert path[0] in topo;
      var i :| 0 <= i < |topo| && topo[i] == path[0];
      PathClimbs(parents, topo, path, i, i);
    }
  }

  lemma AllEmitted(ids: seq<Txid>, parents: Parents, topo: seq<Txid>)
    requires IsGraph(ids, parents) && Emitted(ids, parents, topo) && |topo| >= |ids|
    ensures Distinct(topo) && (forall x :: x in topo <==> x in ids) && (!Cyclic(parents) ==> Topological(topo, parents))
  {
    hide Cyclic, Topological;
    Bounded(ids, parents, topo);
  }

  lemma Bounded(ids: seq<Txid>, parents: Parents, topo: seq<Txid>)
    requires IsGraph(ids, parents) && Emitted(ids, parents, topo)
    ensures |topo| <= |ids|
    ensures |topo| == |ids| <==> forall x :: x in ids ==> x in topo
  {
    hide Cyclic;
    AllOut(ids, topo);
  }

  // ---- depth ------------------------------------------------------------------------------------

  type Depth = map<Txid, nat>

  /** The largest depth among parents, an unknown one counting as zero. */
  function MaxDepth(ps: seq<Txid>, depth: Depth): (d: nat)
    ensures forall p :: p in ps && p in depth ==> depth[p] <= d
    ensures d > 0 ==> exists p :: p in ps && p in depth && depth[p] == d
  {
    if ps == [] then 0
    else
      var rest := MaxDepth(ps[1..], depth);
      if ps[0] in depth && depth[ps[0]] > rest then depth[ps[0]] else rest
  }

  function DepthOf(x: Txid, parents: Parents, depth: Depth): nat
    requires x in parents
  {
    if parents[x] == [] then 0 else 1 + MaxDepth(parents[x], depth)
  }

  ghost predicate LayeredAt(parents: Parents, depth: Depth, x: Txid) {
    && x in parents && x in depth
    && (forall p :: p in parents[x] ==> p in depth && depth[p] < depth[x])
    && (depth[x] > 0 ==> exists p :: p in parents[x] && p in depth && depth[p] + 1 == depth[x])
  }

  /** The equations of longest-path depth. */
  ghost predicate Layered(parents: Parents, depth: Depth) {
    forall x :: x in parents ==> LayeredAt(parents, depth, x)
  }

  lemma HasMember(s: seq<Txid>)
    ensures s != [] ==> exists p :: p in s
  {
    if s != [] {
      assert s[0] in s;
    }
  }

  lemma DepthIsLayered(x: Txid, parents: Parents, depth: Depth)
    requires x in parents && x !in depth && forall p :: p in parents[x] ==> p in depth
    ensures LayeredAt(parents, depth[x := DepthOf(x, parents, depth)], x)
    ensures forall y :: LayeredAt(parents, depth, y) ==> LayeredAt(parents, depth[x := DepthOf(x, parents, depth)], y)
  {
    HasMember(parents[x]);
    hide MaxDepth;
  }

  method Depths(topo: seq<Txid>, parents: Parents) returns (depth: Depth)
    requires Distinct(topo) && forall x :: x in topo <==> x in parents
    ensures forall x :: x in depth <==> x in topo
    ensures Topological(topo, parents) ==> Layered(parents, depth)
  {
    hide LayeredAt, DepthOf;
    depth := map[];
    for i := 0 to |topo|
      invariant forall x :: x in depth <==> x in topo[..i]
      invariant Topological(topo, parents) ==> forall x :: x in topo[..i] ==> LayeredAt(parents, depth, x)
    {
      var x := topo[i];
      assert x !in topo[..i];
      assert forall y :: y in topo[..i + 1] <==> y in topo[..i] || y == x;
      if Topological(topo, parents) {
        DepthIsLayered(x, parents, depth);
      }
      depth := depth[x := DepthOf(x, parents, depth)];
    }
    assert topo[..|topo|] == topo;
  }

  lemma LayerOf(parents: Parents, depth: Depth, x: Txid)
    requires Layered(parents, depth) && x in parents
    ensures LayeredAt(parents, depth, x)
  {
  }

  lemma {:induction false} DeepestPath(parents: Parents, depth: Depth, x: Txid) returns (path: seq<Txid>)
    requires Layered(parents, depth) && x in parents && x in depth && forall y :: y in parents ==> forall p :: p in parents[y] ==> p in parents
    ensures IsPath(parents, path) && path[|path| - 1] == x && |path| == depth[x] + 1 && parents[path[0]] == []
    decreases depth[x]
  {
    hide Layered;
    LayerOf(parents, depth, x);
    HasMember(parents[x]);
    if depth[x] == 0 {
      path := [x];
    } else {
      var p :| p in parents[x] && p in depth && depth[p] + 1 == depth[x];
      var up := DeepestPath(parents, depth, p);
      path := up + [x];
    }
  }

  /** Depth is the length of the longest path down to a node: one such path starts at a node
      with no parents, and no path is longer. */
  lemma DepthIsLongestPath(parents: Parents, depth: Depth, x: Txid) returns (path: seq<Txid>)
    requires Layered(parents, depth) && x in parents && forall y :: y in parents ==> forall p :: p in parents[y] ==> p in parents
    ensures x in depth
    ensures IsPath(parents, path) && path[|path| - 1] == x && |path| == depth[x] + 1 && parents[path[0]] == []
    ensures forall other :: IsPath(parents, other) && other[|other| - 1] == x ==> |other| <= depth[x] + 1
  {
    LayerOf(parents, depth, x);
    hide Layered;
    path := DeepestPath(parents, depth, x);
    hide LayeredAt;
    forall other | IsPath(parents, other) && other[|other| - 1] == x ensures |other| <= depth[x] + 1 {
      PathIsShallow(parents, depth, other);
    }
  }

  lemma {:induction false} PathIsShallow(parents: Parents, depth: Depth, path: seq<Txid>)
    requires Layered(parents, depth) && IsPath(parents, path)
    ensures path[|path| - 1] in depth && |path| <= depth[path[|path| - 1]] + 1
    decreases |path|
  {
    hide Layered;
    LayerOf(parents, depth, path[|path| - 1]);
    if |path| >= 2 {
      var rest := path[..|path| - 1];
      assert IsPath(parents, rest);
      PathIsShallow(parents, depth, rest);
    }
  }

  // ---- levels -----------------------------------------------------------------------------------

  function AtDepth(topo: seq<Txid>, depth: Depth, d: nat): (r: seq<Txid>)
    ensures forall x :: x in r <==> x in topo && x in depth && depth[x] == d
  {
    if topo == [] then []
    else
      var x := topo[|topo| - 1];
      assert forall y :: y in topo <==> y in topo[..|topo| - 1] || y == x;
      AtDepth(topo[..|topo| - 1], depth, d) + (if x in depth && depth[x] == d then [x] else [])
  }

  lemma OneMoreAtDepth(topo: seq<Txid>, depth: Depth, i: nat)
    requires i < |topo|
    ensures forall d: nat ::
      AtDepth(topo[..i + 1], depth, d) == AtDepth(topo[..i], depth, d) + (if topo[i] in depth && depth[topo[i]] == d then [topo[i]] else [])
  {
    assert topo[..i + 1][..i] == topo[..i];
  }

  lemma NothingThere(topo: seq<Txid>, depth: Depth, d: nat)
    requires forall x :: x in topo ==> x in depth && depth[x] != d
    ensures AtDepth(topo, depth, d) == []
  {
    HasMember(AtDepth(topo, depth, d));
  }

  /** The rows so far, with room up to a depth. */
  method Room(rows: seq<seq<Txid>>, upTo: nat) returns (more: seq<seq<Txid>>)
    ensures |more| == (if |rows| > upTo then |rows| else upTo + 1) && more[..|rows|] == rows
    ensures forall d :: |rows| <= d < |more| ==> more[d] == []
  {
    more := rows;
    while |more| <= upTo
      invariant |rows| <= |more| && (|more| == |rows| || |more| <= upTo + 1) && more[..|rows|] == rows
      invariant forall d :: |rows| <= d < |more| ==> more[d] == []
      decreases upTo - |more|
    {
      more := more + [[]];
    }
  }

  method ByDepth(topo: seq<Txid>, depth: Depth) returns (rows: seq<seq<Txid>>)
    requires forall x :: x in topo ==> x in depth
    ensures forall d :: 0 <= d < |rows| ==> rows[d] == AtDepth(topo, depth, d)
    ensures forall x :: x in topo ==> depth[x] < |rows|
    ensures rows != [] ==> exists x :: x in topo && depth[x] == |rows| - 1
  {
    hide AtDepth;
    rows := [];
    for i := 0 to |topo|
      invariant forall d :: 0 <= d < |rows| ==> rows[d] == AtDepth(topo[..i], depth, d)
      invariant forall x :: x in topo[..i] ==> depth[x] < |rows|
      invariant rows != [] ==> exists x :: x in topo[..i] && depth[x] == |rows| - 1
    {
      var x := topo[i];
      var before := rows;
      rows := Room(rows, depth[x]);
      forall d | |before| <= d < |rows| ensures AtDepth(topo[..i], depth, d) == [] {
        NothingThere(topo[..i], depth, d);
      }
      assert forall d :: 0 <= d < |before| ==> rows[d] == rows[..|before|][d];
      assert forall d :: 0 <= d < |rows| ==> rows[d] == AtDepth(topo[..i], depth, d);
      OneMoreAtDepth(topo, depth, i);
      ghost var roomy := rows;
      rows := rows[depth[x] := rows[depth[x]] + [x]];
      forall d: nat | d < |rows| ensures rows[d] == AtDepth(topo[..i + 1], depth, d) {
        assert rows[d] == roomy[d] + (if depth[x] == d then [x] else []);
      }
      assert forall y :: y in topo[..i + 1] <==> y in topo[..i] || y == x;
    }
    assert topo[..|topo|] == topo;
  }

  /** Which rows have been kept of the first `d`, in order. */
  ghost predicate Kept(rows: seq<seq<Txid>>, d: nat, levels: seq<seq<Txid>>, ds: seq<nat>)
    requires d <= |rows|
  {
    && |ds| == |levels|
    && (forall i :: 0 <= i < |ds| ==> ds[i] < d && levels[i] == rows[ds[i]] && levels[i] != [])
    && (forall i, j :: 0 <= i < j < |ds| ==> ds[i] < ds[j])
    && (forall e :: 0 <= e < d && rows[e] != [] ==> e in ds)
  }

  /** The non-empty rows, with the depth each came from. */
  method NonEmpty(rows: seq<seq<Txid>>) returns (levels: seq<seq<Txid>>, ghost ds: seq<nat>)
    ensures Kept(rows, |rows|, levels, ds)
  {
    levels, ds := [], [];
    for d := 0 to |rows|
      invariant Kept(rows, d, levels, ds)
    {
      if rows[d] != [] {
        levels, ds := levels + [rows[d]], ds + [d];
      }
    }
  }

  /** With no empty row, every row is kept at its own place. */
  lemma NoGaps(rows: seq<seq<Txid>>, levels: seq<seq<Txid>>, ds: seq<nat>)
    requires Kept(rows, |rows|, levels, ds) && forall d :: 0 <= d < |rows| ==> rows[d] != []
    ensures levels == rows
  {
    forall i | 0 <= i < |ds| ensures ds[i] == i {
      InPlace(rows, levels, ds, i);
    }
    assert |ds| !in ds;
    assert |ds| >= |rows|;
    assert |ds| > 0 ==> ds[|ds| - 1] < |rows|;
  }

  lemma DepthsInOrder(rows: seq<seq<Txid>>, levels: seq<seq<Txid>>, ds: seq<nat>, i: nat, k: nat)
    requires Kept(rows, |rows|, levels, ds) && i < |ds| && k < |ds| && ds[k] <= ds[i]
    ensures k <= i
  {
  }

  lemma {:induction false} InPlace(rows: seq<seq<Txid>>, levels: seq<seq<Txid>>, ds: seq<nat>, i: nat)
    requires Kept(rows, |rows|, levels, ds) && (forall d :: 0 <= d < |rows| ==> rows[d] != []) && i < |ds|
    ensures ds[i] == i
  {
    if i > 0 {
      InPlace(rows, levels, ds, i - 1);
    }
    assert i <= ds[i] < |rows|;
    assert rows[i] != [] && i in ds;
    var k :| 0 <= k < |ds| && ds[k] == i;
    DepthsInOrder(rows, levels, ds, i, k);
  }

  // ---- edges ------------------------------------------------------------------------------------

  method Edges(ids: seq<Txid>, parents: Parents) returns (edges: seq<Edge>)
    requires IsGraph(ids, parents)
    ensures forall e :: e in edges <==> e.child in ids && e.parent in parents[e.child]
  {
    edges := [];
    for i := 0 to |ids|
      invariant forall e :: e in edges <==> e.child in ids[..i] && e.parent in parents[e.child]
    {
      var x := ids[i];
      ghost var before := edges;
      for j := 0 to |parents[x]|
        invariant forall e :: e in edges <==> e in before || (e.child == x && e.parent in parents[x][..j])
      {
        edges := edges + [Edge(parents[x][j], x)];
      }
      assert forall y :: y in ids[..i + 1] <==> y in ids[..i] || y == x;
      assert parents[x][..|parents[x]|] == parents[x];
    }
    assert ids[..|ids|] == ids;
  }

  // ---- lanes ------------------------------------------------------------------------------------

  /** Leftmost preference first, the order of emission between equals. */
  predicate Before(want: seq<real>, j: nat, k: nat)
    requires j < |want| && k < |want|
  {
    want[j] < want[k] || (want[j] == want[k] && j < k)
  }

  ghost predicate IsOrder(want: seq<real>, order: seq<nat>, n: nat) {
    && n <= |want| && |order| == n
    && (forall a :: 0 <= a < n ==> order[a] < n)
    && (forall j: nat :: j < n ==> j in order)
    && (forall a, b :: 0 <= a < b < n ==> order[a] < |want| && order[b] < |want| && Before(want, order[a], order[b]))
  }

  lemma InsertedAll(order: seq<nat>, n: nat, p: nat)
    requires |order| == n && p <= n && forall j: nat :: j < n ==> j in order
    ensures forall j: nat :: j < n + 1 ==> j in order[..p] + [n] + order[p..]
  {
    var next := order[..p] + [n] + order[p..];
    forall j: nat | j < n + 1 ensures j in next {
      if j < n {
        assert j in order;
        var a :| 0 <= a < |order| && order[a] == j;
        assert next[if a < p then a else a + 1] == j;
      } else {
        assert next[p] == n;
      }
    }
  }

  lemma InsertedOrder(want: seq<real>, order: seq<nat>, n: nat, p: nat)
    requires IsOrder(want, order, n) && n < |want| && p <= n
    requires p > 0 ==> !Before(want, n, order[p - 1])
    requires forall a :: p <= a < n ==> Before(want, n, order[a])
    ensures IsOrder(want, order[..p] + [n] + order[p..], n + 1)
  {
    var next := order[..p] + [n] + order[p..];
    InsertedAll(order, n, p);
    assert forall a :: 0 <= a < n + 1 ==> next[a] < n + 1;
    assert p > 0 ==> Before(want, order[p - 1], n);
    forall a, b | 0 <= a < b < n + 1 ensures next[a] < |want| && next[b] < |want| && Before(want, next[a], next[b]) {
      assert a < p - 1 ==> Before(want, order[a], order[p - 1]);
    }
  }

  /** Insertion of the next index into the order of those before it. */
  method Insert(want: seq<real>, order: seq<nat>, n: nat) returns (next: seq<nat>)
    requires IsOrder(want, order, n) && n < |want|
    ensures IsOrder(want, next, n + 1)
  {
    var p := n;
    while p > 0 && Before(want, n, order[p - 1])
      invariant 0 <= p <= n
      invariant forall a :: p <= a < n ==> Before(want, n, order[a])
    {
      p := p - 1;
    }
    InsertedOrder(want, order, n, p);
    next := order[..p] + [n] + order[p..];
  }

  method SortByWant(want: seq<real>) returns (order: seq<nat>)
    ensures IsOrder(want, order, |want|)
  {
    order := [];
    for n := 0 to |want|
      invariant IsOrder(want, order, n)
    {
      order := Insert(want, order, n);
    }
  }

  /** floor, never negative */
  function Start(w: real): nat {
    if w < 0.0 then 0 else w.Floor
  }

  ghost predicate HeldBy(want: seq<real>, col: map<nat, nat>, j: nat, k: nat, c: nat)
    requires j < |want|
  {
    k < |want| && k in col && col[k] == c && Before(want, k, j)
  }

  /** A column taken by a node that came before `j`. */
  ghost predicate TakenBefore(want: seq<real>, col: map<nat, nat>, j: nat, c: nat)
    requires j < |want|
  {
    exists k: nat :: HeldBy(want, col, j, k, c)
  }

  /** Column `c` is the first free one at or right of where `j` wants to be. */
  ghost predicate FirstFree(want: seq<real>, col: map<nat, nat>, j: nat, c: nat)
    requires j < |want|
  {
    c >= Start(want[j]) && forall b: nat :: Start(want[j]) <= b < c ==> TakenBefore(want, col, j, b)
  }

  /** The columns of the first `n` nodes of an order. */
  ghost predicate Placed(want: seq<real>, order: seq<nat>, n: nat, col: map<nat, nat>) {
    && n <= |order| && (forall a :: 0 <= a < |order| ==> order[a] < |want|)
    && (forall j: nat :: j in col <==> j in order[..n])
    && (forall j, k :: j in col && k in col && j != k ==> col[j] != col[k])
    && (forall j :: j in col ==> FirstFree(want, col, j, col[j]))
  }

  function Columns(col: map<nat, nat>): set<nat> {
    set k | k in col :: col[k]
  }

  lemma PlaceNext(want: seq<real>, order: seq<nat>, n: nat, col: map<nat, nat>, c: nat)
    requires IsOrder(want, order, |order|) && Placed(want, order, n, col) && n < |order|
    requires c >= Start(want[order[n]]) && c !in Columns(col)
    requires forall b: nat :: Start(want[order[n]]) <= b < c ==> b in Columns(col)
    ensures Placed(want, order, n + 1, col[order[n] := c]) && order[n] !in col
    ensures Columns(col[order[n] := c]) == Columns(col) + {c}
  {
    var j := order[n];
    var next := col[j := c];
    assert order[..n + 1] == order[..n] + [j];
    forall a | 0 <= a < n ensures order[a] != j {
      assert Before(want, order[a], order[n]);
    }
    assert j !in order[..n];
    assert next[j] == c && forall k :: k in col ==> next[k] == col[k];
    forall b: nat | Start(want[j]) <= b < c ensures TakenBefore(want, next, j, b) {
      assert b in Columns(col);
      var k :| k in col && col[k] == b;
      assert k in order[..n];
      var a :| 0 <= a < n && order[a] == k;
      assert Before(want, order[a], order[n]);
      assert HeldBy(want, next, j, k, b);
    }
    forall i | i in col ensures FirstFree(want, next, i, next[i]) {
      assert i in order[..n];
      forall b: nat | Start(want[i]) <= b < col[i] ensures TakenBefore(want, next, i, b) {
        assert TakenBefore(want, col, i, b);
        var k :| HeldBy(want, col, i, k, b);
        assert HeldBy(want, next, i, k, b);
      }
    }
  }

  /** The first column at or right of `from` that is not taken. */
  method FreeColumn(from: nat, taken: set<nat>) returns (c: nat)
    ensures c >= from && c !in taken && forall b :: from <= b < c ==> b in taken
  {
    c := from;
    while c in taken
      invariant c >= from && forall b :: from <= b < c ==> b in taken
      decreases set b | b in taken && b >= c
    {
      c := c + 1;
      assert (set b | b in taken && b >= c - 1) == (set b | b in taken && b >= c) + {c - 1};
    }
  }

  method PlaceLevel(want: seq<real>) returns (col: map<nat, nat>, ghost order: seq<nat>)
    ensures AllPlaced(want, col)
    ensures IsOrder(want, order, |want|) && Placed(want, order, |order|, col)
  {
    var sorted := SortByWant(want);
    order := sorted;
    col := map[];
    var taken: set<nat> := {};
    assert |sorted| == |want| && forall a :: 0 <= a < |sorted| ==> sorted[a] < |want|;
    hide IsOrder, FirstFree, AllPlaced;
    for n := 0 to |sorted|
      invariant Placed(want, order, n, col)
      invariant taken == Columns(col)
    {
      var c := FreeColumn(Start(want[sorted[n]]), taken);
      PlaceNext(want, order, n, col, c);
      col := col[sorted[n] := c];
      taken := taken + {c};
    }
    PlacedIsDone(want, order, col);
  }

  function SumLanes(ps: seq<Txid>, lane: map<Txid, nat>): (n: nat)
    requires forall p :: p in ps ==> p in lane
  {
    if ps == [] then 0 else lane[ps[0]] + SumLanes(ps[1..], lane)
  }

  /** Where the `j`-th node of a level wants to be: under the mean of its parents, or in order
      of emission when it has none laid out yet. */
  function Want(x: Txid, j: nat, top: bool, parents: Parents, lane: map<Txid, nat>): real
    requires x in parents
  {
    var ps := Present(parents[x], lane.Keys);
    if top || ps == [] then j as real else SumLanes(ps, lane) as real / |ps| as real
  }

  function Wants(level: seq<Txid>, top: bool, parents: Parents, lane: map<Txid, nat>): (want: seq<real>)
    requires forall x :: x in level ==> x in parents
    ensures |want| == |level|
  {
    seq(|level|, j requires 0 <= j < |level| => Want(level[j], j, top, parents, lane))
  }

  /** Two different places in one level never hold the same column. */
  ghost predicate Laid(level: seq<Txid>, top: bool, parents: Parents, before: map<Txid, nat>, after: map<Txid, nat>)
    requires forall x :: x in level ==> x in parents
  {
    && (forall x :: x in after <==> x in before || x in level)
    && (forall x :: x in before ==> after[x] == before[x])
    && (forall j, k :: 0 <= j < k < |level| ==> after[level[j]] != after[level[k]])
    && (forall j: nat :: j < |level| ==> FirstFree(Wants(level, top, parents, before), ColumnsOf(level, after), j, after[level[j]]))
  }

  function ColumnsOf(level: seq<Txid>, lane: map<Txid, nat>): map<nat, nat> {
    map j: nat | j < |level| && level[j] in lane :: lane[level[j]]
  }

  /** What a finished placement says, without the order it was made in. */
  ghost predicate AllPlaced(want: seq<real>, col: map<nat, nat>) {
    && (forall j: nat :: j in col <==> j < |want|)
    && (forall j, k :: j in col && k in col && j != k ==> col[j] != col[k])
    && (forall j :: j in col ==> j < |want| && FirstFree(want, col, j, col[j]))
  }

  lemma PlacedIsDone(want: seq<real>, order: seq<nat>, col: map<nat, nat>)
    requires IsOrder(want, order, |want|) && Placed(want, order, |order|, col)
    ensures AllPlaced(want, col)
  {
    hide FirstFree;
    assert order[..|order|] == order;
  }

  lemma ColumnsMatch(level: seq<Txid>, after: map<Txid, nat>, want: seq<real>, col: map<nat, nat>)
    requires AllPlaced(want, col) && |want| == |level| && forall x :: x in level ==> x in after
    requires forall k: nat :: k < |level| ==> after[level[k]] == col[k]
    ensures ColumnsOf(level, after) == col
    ensures forall j, k :: 0 <= j < k < |level| ==> after[level[j]] != after[level[k]]
    ensures forall j: nat :: j < |level| ==> FirstFree(want, col, j, after[level[j]])
  {
    hide FirstFree;
    assert forall j: nat :: j in col <==> j < |level|;
    forall j: nat | j < |level| ensures FirstFree(want, col, j, after[level[j]]) {
      assert j in col;
    }
    forall j: nat, k: nat | j < k < |level| ensures after[level[j]] != after[level[k]] {
      assert j in col && k in col && j != k;
    }
    hide AllPlaced;
    SameColumns(level, after, col);
  }

  lemma SameColumns(level: seq<Txid>, after: map<Txid, nat>, col: map<nat, nat>)
    requires (forall j: nat :: j in col <==> j < |level|) && forall x :: x in level ==> x in after
    requires forall k: nat :: k < |level| ==> after[level[k]] == col[k]
    ensures ColumnsOf(level, after) == col
  {
  }

  lemma ColumnsAreLaid(level: seq<Txid>, top: bool, parents: Parents, before: map<Txid, nat>, after: map<Txid, nat>, col: map<nat, nat>)
    requires forall x :: x in level ==> x in parents
    requires AllPlaced(Wants(level, top, parents, before), col)
    requires (forall x :: x in after <==> x in before || x in level) && forall x :: x in before ==> after[x] == before[x]
    requires forall k: nat :: k < |level| ==> after[level[k]] == col[k]
    ensures Laid(level, top, parents, before, after)
  {
    hide FirstFree, Want, Wants, AllPlaced, ColumnsOf;
    ColumnsMatch(level, after, Wants(level, top, parents, before), col);
  }

  method LayLevel(level: seq<Txid>, top: bool, parents: Parents, before: map<Txid, nat>) returns (after: map<Txid, nat>)
    requires Distinct(level) && forall x :: x in level ==> x in parents && x !in before
    ensures Laid(level, top, parents, before, after)
  {
    hide FirstFree, Wants, Placed, IsOrder, Laid;
    var want := Wants(level, top, parents, before);
    var col, order := PlaceLevel(want);
    assert forall j: nat :: j in col <==> j < |level|;
    hide AllPlaced;
    after := before;
    for j := 0 to |level|
      invariant forall x :: x in after <==> x in before || x in level[..j]
      invariant forall x :: x in before ==> after[x] == before[x]
      invariant forall k :: 0 <= k < j ==> after[level[k]] == col[k]
    {
      assert level[..j + 1] == level[..j] + [level[j]];
      after := after[level[j] := col[j]];
    }
    assert level[..|level|] == level;
    ColumnsAreLaid(level, top, parents, before, after, col);
  }

  /** The top level keeps the order of emission. */
  lemma {:induction false} RootsKeepOrder(level: seq<Txid>, parents: Parents, before: map<Txid, nat>, after: map<Txid, nat>, j: nat)
    requires (forall x :: x in level ==> x in parents) && Laid(level, true, parents, before, after) && j < |level|
    ensures level[j] in after && after[level[j]] == j
    decreases j
  {
    var want, col := Wants(level, true, parents, before), ColumnsOf(level, after);
    forall k: nat | k < j ensures k in col && col[k] == k {
      RootsKeepOrder(level, parents, before, after, k);
    }
    assert FirstFree(want, col, j, after[level[j]]);
    assert Start(want[j]) == j;
    assert forall k: nat :: k < |level| ==> want[k] == k as real;
    assert forall k :: !HeldBy(want, col, j, k, j);
    assert !TakenBefore(want, col, j, j);
  }

  lemma StartOfMean(sum: nat, n: nat)
    requires n > 0
    ensures Start(sum as real / n as real) == sum / n
  {
    var q := sum / n;
    assert q * n <= sum < (q + 1) * n;
    hide Start;
    Between(q, n, sum);
    FloorIs(sum as real / n as real, q);
  }

  lemma FloorIs(w: real, q: nat)
    requires q as real <= w < (q + 1) as real
    ensures Start(w) == q
  {
  }

  lemma Between(q: nat, n: nat, sum: nat)
    requires n > 0 && q * n <= sum < (q + 1) * n
    ensures q as real <= sum as real / n as real < (q + 1) as real
  {
    var w, m := sum as real / n as real, n as real;
    assert w * m == sum as real;
    AsReal(q, n);
    AsReal(q + 1, n);
    Scaled(q as real, w, m);
    Scaled((q + 1) as real, w, m);
  }

  lemma AsReal(q: nat, n: nat)
    ensures (q * n) as real == q as real * n as real
  {
  }

  lemma Scaled(a: real, b: real, n: real)
    requires n > 0.0
    ensures a * n <= b * n <==> a <= b
  {
    assert b * n - a * n == (b - a) * n;
  }

  /** The column is taken by a node of the level that wants to be further left, or as far left
      and was emitted earlier. */
  ghost predicate Pushed(level: seq<Txid>, want: seq<real>, lane: map<Txid, nat>, j: nat, c: nat)
    requires j < |level| == |want|
  {
    exists k: nat :: k < |level| && level[k] in lane && lane[level[k]] == c && (want[k] < want[j] || (want[k] == want[j] && k < j))
  }

  lemma LaidFree(level: seq<Txid>, top: bool, parents: Parents, before: map<Txid, nat>, after: map<Txid, nat>, j: nat)
    requires (forall x :: x in level ==> x in parents) && Laid(level, top, parents, before, after) && j < |level|
    ensures level[j] in after && FirstFree(Wants(level, top, parents, before), ColumnsOf(level, after), j, after[level[j]])
  {
    hide FirstFree, Wants, ColumnsOf;
  }

  /** Below the top, a node lies at or right of the mean of its parents' lanes, rounded down,
      and only as far right as those before it in its level push it. */
  lemma UnderTheMean(level: seq<Txid>, parents: Parents, before: map<Txid, nat>, after: map<Txid, nat>, j: nat)
    requires (forall x :: x in level ==> x in parents) && Laid(level, false, parents, before, after) && j < |level|
    requires Present(parents[level[j]], before.Keys) != []
    ensures var ps := Present(parents[level[j]], before.Keys);
      var from := SumLanes(ps, before) / |ps|;
      && level[j] in after && from <= after[level[j]]
      && forall c: nat :: from <= c < after[level[j]] ==> Pushed(level, Wants(level, false, parents, before), after, j, c)
  {
    var ps := Present(parents[level[j]], before.Keys);
    var want, col := Wants(level, false, parents, before), ColumnsOf(level, after);
    assert want[j] == SumLanes(ps, before) as real / |ps| as real;
    hide *;
    StartOfMean(SumLanes(ps, before), |ps|);
    LaidFree(level, false, parents, before, after, j);
    FreeFrom(want, col, j, after[level[j]]);
    forall c: nat | SumLanes(ps, before) / |ps| <= c < after[level[j]] ensures Pushed(level, Wants(level, false, parents, before), after, j, c) {
      TakenPushes(level, after, want, j, c);
    }
  }

  lemma FreeFrom(want: seq<real>, col: map<nat, nat>, j: nat, c: nat)
    requires j < |want| && FirstFree(want, col, j, c)
    ensures Start(want[j]) <= c && forall b: nat :: Start(want[j]) <= b < c ==> TakenBefore(want, col, j, b)
  {
    hide Start, TakenBefore;
  }

  lemma TakenPushes(level: seq<Txid>, after: map<Txid, nat>, want: seq<real>, j: nat, c: nat)
    requires j < |want| == |level| && TakenBefore(want, ColumnsOf(level, after), j, c)
    ensures Pushed(level, want, after, j, c)
  {
    var col := ColumnsOf(level, after);
    var k: nat :| HeldBy(want, col, j, k, c);
    assert k in col && col[k] == c;
    assert level[k] in after && after[level[k]] == c;
  }

  /** A branch runs straight: a node with one laid-out parent gets that parent's lane, unless one
      before it in its level has it; a merge of two gets the mean of theirs, rounded down. */
  lemma BranchesRunStraight(levels: seq<seq<Txid>>, parents: Parents, steps: seq<map<Txid, nat>>, lane: map<Txid, nat>, i: nat, j: nat)
    requires forall m, x :: 0 <= m < |levels| && x in levels[m] ==> x in parents
    requires |steps| == |levels| + 1 && steps[|levels|] == lane
    requires forall m :: 0 <= m < |levels| ==> Laid(levels[m], m == 0, parents, steps[m], steps[m + 1])
    requires i < |levels| && j < |levels[i]|
    ensures levels[i][j] in lane && (i == 0 ==> lane[levels[i][j]] == j)
    ensures var x, ps := levels[i][j], Present(parents[levels[i][j]], steps[i].Keys);
      && (forall p :: p in ps ==> p in lane)
      && (i > 0 && |ps| == 1 ==> lane[x] == lane[ps[0]] || (lane[x] > lane[ps[0]] && Pushed(levels[i], Wants(levels[i], false, parents, steps[i]), lane, j, lane[ps[0]])))
      && (i > 0 && |ps| == 2 ==>
            var from := (lane[ps[0]] + lane[ps[1]]) / 2;
            lane[x] == from || (lane[x] > from && Pushed(levels[i], Wants(levels[i], false, parents, steps[i]), lane, j, from)))
  {
    hide Laid, FirstFree, Wants, ColumnsOf, SumLanes, Pushed;
    var level, before, after := levels[i], steps[i], steps[i + 1];
    assert Laid(level, i == 0, parents, before, after);
    LanesStay(levels, parents, steps, i, |levels|);
    LanesStay(levels, parents, steps, i + 1, |levels|);
    LaidOut(level, i == 0, parents, before, after);
    if i == 0 {
      RootsKeepOrder(level, parents, before, after, j);
    } else {
      BelowFewParents(level, parents, before, after, lane, j);
    }
  }

  lemma BelowFewParents(level: seq<Txid>, parents: Parents, before: map<Txid, nat>, after: map<Txid, nat>, lane: map<Txid, nat>, j: nat)
    requires (forall x :: x in level ==> x in parents && x in after) && Laid(level, false, parents, before, after) && j < |level|
    requires forall x :: x in before ==> x in lane && lane[x] == before[x]
    requires forall x :: x in after ==> x in lane && lane[x] == after[x]
    ensures var x, ps := level[j], Present(parents[level[j]], before.Keys);
      && (|ps| == 1 ==> lane[x] == lane[ps[0]] || (lane[x] > lane[ps[0]] && Pushed(level, Wants(level, false, parents, before), lane, j, lane[ps[0]])))
      && (|ps| == 2 ==>
            var from := (lane[ps[0]] + lane[ps[1]]) / 2;
            lane[x] == from || (lane[x] > from && Pushed(level, Wants(level, false, parents, before), lane, j, from)))
  {
    hide *;
    var x, ps := level[j], Present(parents[level[j]], before.Keys);
    if |ps| == 1 || |ps| == 2 {
      PresentIn(parents[x], before.Keys);
      UnderTheMean(level, parents, before, after, j);
      FewLanes(ps, before);
      var from: nat := SumLanes(ps, before) / |ps|;
      if after[x] > from {
        PushedStill(level, Wants(level, false, parents, before), after, lane, j, from);
      }
    }
  }

  lemma PresentIn(ps: seq<Txid>, known: set<Txid>)
    ensures forall p :: p in Present(ps, known) ==> p in known
  {
  }

  lemma FewLanes(ps: seq<Txid>, lane: map<Txid, nat>)
    requires forall p :: p in ps ==> p in lane
    ensures |ps| == 1 ==> SumLanes(ps, lane) == lane[ps[0]]
    ensures |ps| == 2 ==> SumLanes(ps, lane) == lane[ps[0]] + lane[ps[1]]
  {
    if |ps| == 2 {
      assert ps[1..] == [ps[1]];
    }
  }

  lemma PushedStill(level: seq<Txid>, want: seq<real>, after: map<Txid, nat>, lane: map<Txid, nat>, j: nat, c: nat)
    requires j < |level| == |want| && Pushed(level, want, after, j, c) && forall x :: x in after ==> x in lane && lane[x] == after[x]
    ensures Pushed(level, want, lane, j, c)
  {
  }

  /** No node twice, within a level or across levels, and no level empty. */
  ghost predicate Tiles(levels: seq<seq<Txid>>) {
    && (forall i :: 0 <= i < |levels| ==> levels[i] != [] && Distinct(levels[i]))
    && (forall i, k, x :: 0 <= i < k < |levels| && x in levels[i] ==> x !in levels[k])
  }

  lemma LaidOut(level: seq<Txid>, top: bool, parents: Parents, before: map<Txid, nat>, after: map<Txid, nat>)
    requires (forall x :: x in level ==> x in parents) && Laid(level, top, parents, before, after)
    ensures forall x :: x in after <==> x in before || x in level
  {
    hide FirstFree, Wants;
  }

  lemma {:induction false} LanesStay(levels: seq<seq<Txid>>, parents: Parents, steps: seq<map<Txid, nat>>, i: nat, k: nat)
    requires forall m, x :: 0 <= m < |levels| && x in levels[m] ==> x in parents
    requires |steps| == |levels| + 1 && i <= k < |steps|
    requires forall m :: 0 <= m < |levels| ==> Laid(levels[m], m == 0, parents, steps[m], steps[m + 1])
    ensures forall x :: x in steps[i] ==> x in steps[k] && steps[k][x] == steps[i][x]
    decreases k - i
  {
    if i < k {
      LanesStay(levels, parents, steps, i, k - 1);
      assert Laid(levels[k - 1], k - 1 == 0, parents, steps[k - 1], steps[k]);
    }
  }

  /** Lanes within a level differ in the finished layout too: later levels move nobody. */
  lemma LanesDiffer(levels: seq<seq<Txid>>, parents: Parents, steps: seq<map<Txid, nat>>, lane: map<Txid, nat>, i: nat, j: nat, k: nat)
    requires forall m, x :: 0 <= m < |levels| && x in levels[m] ==> x in parents
    requires |steps| == |levels| + 1 && steps[|levels|] == lane
    requires forall m :: 0 <= m < |levels| ==> Laid(levels[m], m == 0, parents, steps[m], steps[m + 1])
    requires i < |levels| && j < k < |levels[i]|
    ensures levels[i][j] in lane && levels[i][k] in lane && lane[levels[i][j]] != lane[levels[i][k]]
  {
    LanesStay(levels, parents, steps, i + 1, |levels|);
    assert Laid(levels[i], i == 0, parents, steps[i], steps[i + 1]);
    assert levels[i][j] in steps[i + 1] && levels[i][k] in steps[i + 1];
  }

  /** Every node of a level has a lane, and no two of a level share one. */
  ghost predicate Apart(levels: seq<seq<Txid>>, lane: map<Txid, nat>) {
    && (forall x :: x in lane <==> exists i :: 0 <= i < |levels| && x in levels[i])
    && (forall i, j, k :: 0 <= i < |levels| && 0 <= j < k < |levels[i]| ==> levels[i][j] in lane && levels[i][k] in lane && lane[levels[i][j]] != lane[levels[i][k]])
  }

  method AssignLanes(levels: seq<seq<Txid>>, parents: Parents) returns (lane: map<Txid, nat>, ghost steps: seq<map<Txid, nat>>)
    requires Tiles(levels) && forall i, x :: 0 <= i < |levels| && x in levels[i] ==> x in parents
    ensures Apart(levels, lane)
    ensures |steps| == |levels| + 1 && steps[0] == map[] && steps[|levels|] == lane
    ensures forall i :: 0 <= i < |levels| ==> Laid(levels[i], i == 0, parents, steps[i], steps[i + 1])
  {
    hide Laid;
    lane := map[];
    steps := [lane];
    for i := 0 to |levels|
      invariant |steps| == i + 1 && steps[0] == map[] && steps[i] == lane
      invariant forall x :: x in lane <==> exists k :: 0 <= k < i && x in levels[k]
      invariant forall k :: 0 <= k < i ==> Laid(levels[k], k == 0, parents, steps[k], steps[k + 1])
    {
      lane := LayLevel(levels[i], i == 0, parents, lane);
      LaidOut(levels[i], i == 0, parents, steps[i], lane);
      steps := steps + [lane];
    }
    forall i, j, k | 0 <= i < |levels| && 0 <= j < k < |levels[i]|
      ensures levels[i][j] in lane && levels[i][k] in lane && lane[levels[i][j]] != lane[levels[i][k]]
    {
      LanesDiffer(levels, parents, steps, lane, i, j, k);
    }
  }

  method Width(lane: map<Txid, nat>) returns (width: nat)
    ensures forall x :: x in lane ==> lane[x] < width
    ensures width > 0 ==> exists x :: x in lane && lane[x] == width - 1
  {
    width := 0;
    var todo := lane.Keys;
    while todo != {}
      invariant todo <= lane.Keys
      invariant forall x :: x in lane && x !in todo ==> lane[x] < width
      invariant width > 0 ==> exists x :: x in lane && lane[x] == width - 1
      decreases |todo|
    {
      var x :| x in todo;
      todo := todo - {x};
      if lane[x] >= width {
        width := lane[x] + 1;
        assert lane[x] == width - 1;
      }
    }
  }

  // ---- the layout -----------------------------------------------------------------------------

  datatype Layout = Layout(levels: seq<seq<Txid>>, edges: seq<Edge>, lane: map<Txid, nat>, width: nat)

  /** The levels come from rows of equal depth, so no node is in two of them. */
  lemma LevelsTile(topo: seq<Txid>, depth: Depth, rows: seq<seq<Txid>>, levels: seq<seq<Txid>>, ds: seq<nat>)
    requires Distinct(topo) && Kept(rows, |rows|, levels, ds)
    requires forall d :: 0 <= d < |rows| ==> rows[d] == AtDepth(topo, depth, d)
    requires forall x :: x in topo ==> x in depth && depth[x] < |rows|
    ensures Tiles(levels)
    ensures forall x :: x in topo <==> exists i :: 0 <= i < |levels| && x in levels[i]
    ensures forall i, x :: 0 <= i < |levels| && x in levels[i] ==> x in depth && depth[x] == ds[i]
  {
    forall i | 0 <= i < |levels| ensures levels[i] != [] && Distinct(levels[i]) {
      AtDepthDistinct(topo, depth, ds[i]);
    }
    forall x | x in topo ensures exists i :: 0 <= i < |levels| && x in levels[i] {
      assert x in rows[depth[x]];
      assert depth[x] in ds;
      var i :| 0 <= i < |ds| && ds[i] == depth[x];
      assert x in levels[i];
    }
  }

  lemma {:induction false} AtDepthDistinct(topo: seq<Txid>, depth: Depth, d: nat)
    requires Distinct(topo)
    ensures Distinct(AtDepth(topo, depth, d))
  {
    if topo != [] {
      AtDepthDistinct(topo[..|topo| - 1], depth, d);
    }
  }

  /** A node at depth d has ancestors at every smaller depth, so no row below is empty. */
  lemma {:induction false} RowsBelow(parents: Parents, depth: Depth, x: Txid, d: nat) returns (y: Txid)
    requires Layered(parents, depth) && x in parents && x in depth && d <= depth[x] && forall z :: z in parents ==> forall p :: p in parents[z] ==> p in parents
    ensures y in parents && y in depth && depth[y] == d
    decreases depth[x]
  {
    hide Layered;
    LayerOf(parents, depth, x);
    if depth[x] == d {
      y := x;
    } else {
      var p :| p in parents[x] && p in depth && depth[p] + 1 == depth[x];
      y := RowsBelow(parents, depth, p, d);
    }
  }

  ghost predicate LongestTo(parents: Parents, x: Txid, d: nat) {
    && (exists path :: IsPath(parents, path) && path[|path| - 1] == x && |path| == d + 1 && parents[path[0]] == [])
    && (forall path :: IsPath(parents, path) && path[|path| - 1] == x ==> |path| <= d + 1)
  }

  lemma DepthIsLongest(parents: Parents, depth: Depth, x: Txid)
    requires Layered(parents, depth) && x in parents && forall y :: y in parents ==> forall p :: p in parents[y] ==> p in parents
    ensures x in depth && LongestTo(parents, x, depth[x])
  {
    hide Layered;
    var path := DepthIsLongestPath(parents, depth, x);
  }

  /** Without a cycle, the levels are the depths. */
  lemma LevelIsDepth(topo: seq<Txid>, parents: Parents, depth: Depth, rows: seq<seq<Txid>>, levels: seq<seq<Txid>>, ds: seq<nat>)
    requires Layered(parents, depth) && (forall x :: x in topo <==> x in parents) && forall z :: z in parents ==> forall p :: p in parents[z] ==> p in parents
    requires Kept(rows, |rows|, levels, ds) && forall d :: 0 <= d < |rows| ==> rows[d] == AtDepth(topo, depth, d)
    requires forall x :: x in topo ==> x in depth && depth[x] < |rows|
    requires rows != [] ==> exists x :: x in topo && depth[x] == |rows| - 1
    ensures levels == rows
    ensures forall i, x :: 0 <= i < |levels| && x in levels[i] ==> x in depth && depth[x] == i && LongestTo(parents, x, i)
  {
    hide Layered, LongestTo, AtDepth;
    forall d | 0 <= d < |rows| ensures rows[d] != [] {
      var x :| x in topo && depth[x] == |rows| - 1;
      var y := RowsBelow(parents, depth, x, d);
      assert y in AtDepth(topo, depth, d);
    }
    NoGaps(rows, levels, ds);
    forall i, x | 0 <= i < |levels| && x in levels[i] ensures x in depth && depth[x] == i && LongestTo(parents, x, i) {
      DepthIsLongest(parents, depth, x);
    }
  }

  /** What the layout of an acyclic chain looks like. */
  ghost predicate DrawnByDepth(parents: Parents, levels: seq<seq<Txid>>, edges: seq<Edge>) {
    && (forall i, x :: 0 <= i < |levels| && x in levels[i] ==> LongestTo(parents, x, i))
    && (forall e, i, k :: e in edges && 0 <= i < |levels| && e.parent in levels[i] && 0 <= k < |levels| && e.child in levels[k] ==> i < k)
  }

  lemma DepthDraws(parents: Parents, depth: Depth, levels: seq<seq<Txid>>, edges: seq<Edge>)
    requires Layered(parents, depth) && forall e :: e in edges ==> e.child in parents && e.parent in parents[e.child]
    requires forall i, x :: 0 <= i < |levels| && x in levels[i] ==> x in depth && depth[x] == i && LongestTo(parents, x, i)
    ensures DrawnByDepth(parents, levels, edges)
  {
    hide LongestTo, Layered;
    forall e, i, k | e in edges && 0 <= i < |levels| && e.parent in levels[i] && 0 <= k < |levels| && e.child in levels[k] ensures i < k {
      LayerOf(parents, depth, e.child);
    }
  }

  /** The whole layout, for every chain, cyclic ones included: each distinct txid is in one
      level, once; no level is empty; lanes within a level differ and fit the width; edges are
      the named ancestors the chain holds. Without a cycle a node's level is the length of the
      longest path down to it, so every edge goes strictly downward. */
  method ChainGraph(chain: seq<ChainTx>) returns (g: Layout, ghost steps: seq<map<Txid, nat>>)
    ensures Tiles(g.levels)
    ensures forall x :: x in Txids(chain) <==> exists i :: 0 <= i < |g.levels| && x in g.levels[i]
    ensures forall e :: e in g.edges <==> e.child in ParentMap(chain) && e.parent in ParentMap(chain)[e.child]
    ensures Apart(g.levels, g.lane)
    ensures (forall x :: x in g.lane ==> g.lane[x] < g.width) && (g.width > 0 ==> exists x :: x in g.lane && g.lane[x] == g.width - 1)
    ensures !Cyclic(ParentMap(chain)) ==> DrawnByDepth(ParentMap(chain), g.levels, g.edges)
    ensures |steps| == |g.levels| + 1 && steps[0] == map[] && steps[|g.levels|] == g.lane
    ensures forall i :: 0 <= i < |g.levels| ==> (forall x :: x in g.levels[i] ==> x in ParentMap(chain)) && Laid(g.levels[i], i == 0, ParentMap(chain), steps[i], steps[i + 1])
  {
    hide Cyclic, Topological, Layered, ParentMap, LongestTo, Laid, AtDepth, DrawnByDepth, Apart;
    var nodes := Nodes(chain);
    var ids, parents := ParentsOf(chain, nodes);
    assert forall x :: x in parents <==> x in Txids(chain);
    var topo := TopoOrder(ids, parents);
    var depth := Depths(topo, parents);
    var rows := ByDepth(topo, depth);
    var levels, ds := NonEmpty(rows);
    LevelsTile(topo, depth, rows, levels, ds);
    var edges := Edges(ids, parents);
    var lane;
    lane, steps := AssignLanes(levels, parents);
    var width := Width(lane);
    if !Cyclic(parents) {
      LevelIsDepth(topo, parents, depth, rows, levels, ds);
      DepthDraws(parents, depth, levels, edges);
    }
    g := Layout(levels, edges, lane, width);
  }

  /** A chain without a cycle and without dangling entries leads every entry up to one that
      names no ancestor. */
  lemma {:induction false} ReachesARoot(chain: seq<ChainTx>, path: seq<Txid>) returns (full: seq<Txid>)
    requires var parents := ParentMap(chain);
      !Cyclic(parents) && DanglingEntries(chain) == [] && IsPath(parents, path) && Distinct(path)
    ensures var parents := ParentMap(chain);
      IsPath(parents, full) && full[|full| - 1] == path[|path| - 1] && ParentTxids(First(chain, full[0])) == []
    decreases |Txids(chain)| - |path|
  {
    var parents := ParentMap(chain);
    var tx := First(chain, path[0]);
    Fits(path, Txids(chain));
    if ParentTxids(tx) == [] {
      full := path;
    } else {
      assert !Dangles(tx, Txids(chain));
      var p :| p in ParentTxids(tx) && p in Txids(chain);
      hide Cyclic;
      LongerOrCycle(parents, path, p);
      Fits([p] + path, Txids(chain));
      full := ReachesARoot(chain, [p] + path);
    }
  }
}
