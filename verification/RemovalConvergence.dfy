/** Removal finishes: at most two fault-free passes leave nothing of the node. */
module RemovalConvergence {
  import opened Api
  import opened NodeOperations
  import opened RemovalProofs
  import opened RemovalPass
  import opened RemovalRuns

  /** Every object of the UUID that removal is responsible for, the node included. */
  function Owned(objs: Store, uuid: string): set<Key> {
    set k | k in objs && CsiKind(k.kind) && NodeId(objs[k]) == uuid
  }

  ghost predicate UuidsDistinct(objs: Store) {
    forall a, b | a in objs && b in objs && a.kind == CsiNode && b.kind == CsiNode ::
      NodeId(objs[a]) == NodeId(objs[b]) ==> a == b
  }

  /** A labelled node that has been abandoned. */
  ghost predicate Ready(o: Oracle, w: World, selector: Option<Selector>, node: Key) {
    Abandoned(o, w, selector, node) && Labelled(w.objs[node])
  }

  /** The host and the pods of the node are gone, its drives, capacities and node object
      carry no finalizers, and no call fails from now on. */
  ghost predicate Abandoned(o: Oracle, w: World, selector: Option<Selector>, node: Key) {
    && Proper(w.objs) && UuidsDistinct(w.objs) && Quiet(o, w.calls)
    && node in w.objs && node.kind == CsiNode
    && !HostPresent(w.objs, selector, Hostname(w.objs[node]))
    && !PodsOn(w.objs, Hostname(w.objs[node]))
    && (forall k :: k in Owned(w.objs, NodeId(w.objs[node])) && !ClearsFinalizers(k.kind) ==>
          w.objs[k].meta.finalizers == [])
  }

  lemma {:induction false} QuietLists(o: Oracle, w: World, selector: Option<Selector>)
    requires Quiet(o, w.calls)
    ensures Sees(o, w, selector)
  {
  }

  /** Everything of the node is deleted; the node itself stays exactly when one of its
      volume groups or volumes was already on its way out. */
  ghost predicate Finished(a: Store, b: Store, node: Item) {
    var mine := Possessions(a, NodeId(node.obj));
    && AllDischarged(a, b, mine)
    && (NoneVanishes(a, mine) ==> Discharged(b, node.key, node.obj))
    && (!NoneVanishes(a, mine) ==> Same(a, b, node.key))
  }

  lemma {:induction false} TurnFinishes(o: Oracle, w: World, t: Step, node: Item)
    requires FreshNode(w, node) && TakesTurn(o, w, t, node) && Quiet(o, w.calls)
    requires !PodsOn(w.objs, Hostname(node.obj))
    ensures Finished(w.objs, t.w.objs, node)
  {
    if t.ok {
      assert node.key in TurnSet(w.objs, node);
    }
  }

  lemma {:induction false} FinishedElsewhere(a: Store, b: Store, c: Store, d: Store, node: Item)
    requires Possessions(a, NodeId(node.obj)) == Possessions(b, NodeId(node.obj))
    requires forall k :: k in TurnSet(a, node) ==> Same(a, b, k) && Same(c, d, k)
    requires Finished(b, c, node)
    ensures Finished(a, d, node)
  {
    var mine := Possessions(a, NodeId(node.obj));
    forall k | k in mine ensures k in TurnSet(a, node) && Same(a, b, k) {}
    assert NoneVanishes(a, mine) == NoneVanishes(b, mine);
    assert node.key in TurnSet(a, node);
    forall k | k in mine ensures Discharged(d, k, a[k]) {
      assert Discharged(c, k, b[k]);
    }
  }

  /** The turn of the ready node, with the turns of the other nodes around it. */
  lemma {:induction false} ReadyTurn(o: Oracle, w: World, nodes: seq<Item>, j: nat)
    requires FreshNodes(w, nodes) && DistinctIds(nodes) && Quiet(o, w.calls) && j < |nodes|
    requires !PodsOn(w.objs, Hostname(nodes[j].obj))
    ensures Finished(w.objs, AfterRemoveNodes(o, w, nodes, |nodes|).w.objs, nodes[j])
  {
    hide AfterTurn, AfterRemoveNodes, Finished, TakesTurn, TurnSet;
    var s, node := AfterRemoveNodes(o, w, nodes, j), nodes[j];
    RemoveNodesEffect(o, w, nodes, j);
    OneMore(o, w, nodes, j);
    TurnOf(o, w, nodes, j);
    PodsKept(w.objs, s.w.objs, Hostname(node.obj));
    TurnFinishes(o, s.w, AfterTurn(o, s.w, node), node);
    forall k | k in TurnSet(w.objs, node)
      ensures Same(w.objs, s.w.objs, k)
      ensures Same(AfterRemoveNodes(o, w, nodes, j + 1).w.objs, AfterRemoveNodes(o, w, nodes, |nodes|).w.objs, k)
    {
      TurnsAreIndependent(o, w, nodes, j, |nodes|, k);
    }
    StillPossessed(w.objs, s.w.objs, node);
    FinishedElsewhere(w.objs, s.w.objs, AfterTurn(o, s.w, node).w.objs,
                      AfterRemoveNodes(o, w, nodes, |nodes|).w.objs, node);
  }

  lemma {:induction false} StillPossessed(a: Store, b: Store, node: Item)
    requires Shrinks(a, b) && forall k :: k in TurnSet(a, node) ==> Same(a, b, k)
    ensures Possessions(a, NodeId(node.obj)) == Possessions(b, NodeId(node.obj))
  {
    TurnSetShrinks(a, b, node);
    forall k | k in Possessions(b, NodeId(node.obj)) ensures k in Possessions(a, NodeId(node.obj)) {
      assert Decays(a[k], b[k]);
    }
    forall k | k in Possessions(a, NodeId(node.obj)) ensures k in Possessions(b, NodeId(node.obj)) {
      assert k in TurnSet(a, node);
    }
  }

  lemma {:induction false} RemovingIdsDistinct(w: World, nodes: seq<Item>, seen: map<string, bool>)
    requires FreshNodes(w, nodes) && UuidsDistinct(w.objs)
    ensures DistinctIds(Removing(nodes, seen, |nodes|))
  {
    hide Removing;
    var removing := Removing(nodes, seen, |nodes|);
    RemovingAre(nodes, seen, |nodes|);
    forall i, j | 0 <= i < j < |removing| ensures NodeId(removing[i].obj) != NodeId(removing[j].obj) {
      var a := RemovedWasListed(nodes, seen, i);
      var b := RemovedWasListed(nodes, seen, j);
      assert FreshNode(w, nodes[a]) && FreshNode(w, nodes[b]) && removing[i].key != removing[j].key;
    }
  }

  lemma {:induction false} IsBeingRemoved(nodes: seq<Item>, seen: map<string, bool>, m: nat) returns (j: nat)
    requires m < |nodes| && Judge(nodes[m].obj, seen).Remove?
    ensures j < |Removing(nodes, seen, |nodes|)| && Removing(nodes, seen, |nodes|)[j] == nodes[m]
  {
    hide Removing;
    RemovingAre(nodes, seen, |nodes|);
    assert nodes[m] in nodes[..|nodes|];
    assert nodes[m] in Removing(nodes, seen, |nodes|);
    j :| 0 <= j < |Removing(nodes, seen, |nodes|)| && Removing(nodes, seen, |nodes|)[j] == nodes[m];
  }

  /** handleNodeRemoval on the ready node. */
  lemma {:induction false} ReadyRemoval(o: Oracle, w: World, nodes: seq<Item>, hosts: seq<Item>, m: nat)
    requires FreshNodes(w, nodes) && Sound(w.objs) && UuidsDistinct(w.objs) && Quiet(o, w.calls) && m < |nodes|
    requires Labelled(nodes[m].obj) && Hostname(nodes[m].obj) !in TaintMap(hosts, REMOVAL_TAINT, |hosts|)
    requires !PodsOn(w.objs, Hostname(nodes[m].obj))
    ensures Finished(w.objs, AfterNodeRemoval(o, w, nodes, hosts).w.objs, nodes[m])
  {
    hide AfterSweep, AfterRemoveNodes, TaintMap, Removing, Finished, PodsOn, NoneVanishes, Judged, Relabelled;
    var seen := TaintMap(hosts, REMOVAL_TAINT, |hosts|);
    var s, removing := AfterSweep(o, w, nodes, seen, |nodes|), Removing(nodes, seen, |nodes|);
    SweepEffect(o, w, nodes, seen, |nodes|);
    SweptOnlyRelabels(w, s, nodes, seen);
    RemovingFresh(o, w, nodes, seen);
    RemovingIdsDistinct(w, nodes, seen);
    PodsKept(w.objs, s.w.objs, Hostname(nodes[m].obj));
    var j := IsBeingRemoved(nodes, seen, m);
    ReadyTurn(o, s.w, removing, j);
    PossessionsKept(w.objs, s.w.objs, NodeId(nodes[m].obj));
    assert FreshNode(w, nodes[m]) && FreshNode(s.w, removing[j]);
    var r := AfterRemoveNodes(o, s.w, removing, |removing|);
    forall k | k in TurnSet(w.objs, nodes[m]) ensures Same(w.objs, s.w.objs, k) && Same(r.w.objs, r.w.objs, k) {}
    FinishedElsewhere(w.objs, s.w.objs, r.w.objs, r.w.objs, nodes[m]);
  }

  lemma {:induction false} PossessionsKept(a: Store, b: Store, uuid: string)
    requires forall k: Key {:trigger Same(a, b, k)} :: k.kind != CsiNode ==> Same(a, b, k)
    ensures Possessions(a, uuid) == Possessions(b, uuid)
    ensures forall k :: k in Possessions(a, uuid) ==> Same(a, b, k)
    ensures NoneVanishes(a, Possessions(a, uuid)) == NoneVanishes(b, Possessions(b, uuid))
  {
    forall k: Key | k.kind in CASCADE ensures Same(a, b, k) {}
  }

  /** Passes create no CSI objects and keep their owners. */
  lemma {:induction false} PassOwnsNoMore(o: Oracle, w: World, selector: Option<Selector>, uuid: string)
    requires Proper(w.objs)
    ensures Owned(AfterReconcile(o, w, selector).w.objs, uuid) <= Owned(w.objs, uuid)
  {
    hide AfterReconcile;
    var r := AfterReconcile(o, w, selector);
    forall k | k in Owned(r.w.objs, uuid) ensures k in Owned(w.objs, uuid) {
      PassKeepsSpec(o, w, selector, k);
    }
  }

  /** What is there after a pass, of CSI objects, was there before, with the same spec. */
  lemma {:induction false} PassKeepsSpec(o: Oracle, w: World, selector: Option<Selector>, key: Key)
    requires Proper(w.objs) && CsiKind(key.kind) && key in AfterReconcile(o, w, selector).w.objs
    ensures key in w.objs && AfterReconcile(o, w, selector).w.objs[key].spec == w.objs[key].spec
  {
    hide AfterReconcile, AfterNodeRemoval, Sees, TaintMap, Lists, AfterSweep, LabelsWritten;
    if Sees(o, w, selector) {
      var n, nodes, hosts := PassParts(o, w, selector);
      assert Same(AfterNodeRemoval(o, n, nodes, hosts).w.objs, AfterReconcile(o, w, selector).w.objs, key);
      RemovalShrinks(o, n, nodes, hosts, key);
    } else {
      BlindPass(o, w, selector);
    }
  }

  lemma {:induction false} RemovalShrinks(o: Oracle, w: World, nodes: seq<Item>, hosts: seq<Item>, key: Key)
    requires FreshNodes(w, nodes) && Sound(w.objs) && key in AfterNodeRemoval(o, w, nodes, hosts).w.objs
    ensures key in w.objs && AfterNodeRemoval(o, w, nodes, hosts).w.objs[key].spec == w.objs[key].spec
  {
    hide AfterSweep, AfterRemoveNodes;
    var seen := TaintMap(hosts, REMOVAL_TAINT, |hosts|);
    var s := AfterSweep(o, w, nodes, seen, |nodes|);
    SweepEffect(o, w, nodes, seen, |nodes|);
    SweptOnlyRelabels(w, s, nodes, seen);
    RemovingFresh(o, w, nodes, seen);
    var removing := Removing(nodes, seen, |nodes|);
    RemoveNodesEffect(o, s.w, removing, |removing|);
    assert s.ok ==> Decays(s.w.objs[key], AfterNodeRemoval(o, w, nodes, hosts).w.objs[key]);
  }

  /** A second pass over the same hosts writes no label, once a pass has succeeded. */
  lemma {:induction false} SecondPassWritesNoLabel(
    o: Oracle, w: World, v: World, nodes: seq<Item>, again: seq<Item>, hosts: seq<Item>)
    requires Sound(w.objs) && Lists(w.objs, All(CsiNode), nodes) && FreshNodes(w, nodes)
    requires AfterNodeRemoval(o, w, nodes, hosts).ok && v.objs == AfterNodeRemoval(o, w, nodes, hosts).w.objs
    requires Lists(v.objs, All(CsiNode), again)
    ensures AfterSweep(o, v, again, TaintMap(hosts, REMOVAL_TAINT, |hosts|), |again|) == Step(v, true)
  {
    hide AfterNodeRemoval, AfterSweep, TaintMap;
    var seen := TaintMap(hosts, REMOVAL_TAINT, |hosts|);
    forall j | 0 <= j < |again|
      ensures !Judge(again[j].obj, seen).Label? && !Judge(again[j].obj, seen).Unlabel?
    {
      var key := again[j].key;
      RemovalShrinks(o, w, nodes, hosts, key);
      assert Selects(All(CsiNode), key, w.objs[key]) && Has(nodes, key);
      var i :| 0 <= i < |nodes| && nodes[i].key == key;
      LabelsConverge(o, w, nodes, hosts, i);
    }
    SecondSweepWritesNothing(o, v, again, seen, |again|);
  }

  lemma {:induction false} ReadyIsOwned(o: Oracle, w: World, selector: Option<Selector>, node: Key)
    requires Ready(o, w, selector, node)
    ensures node in w.objs && node.kind == CsiNode && node in Owned(w.objs, NodeId(w.objs[node]))
  {
  }

  lemma {:induction false} ReadyIsProper(o: Oracle, w: World, selector: Option<Selector>, node: Key)
    requires Ready(o, w, selector, node)
    ensures Proper(w.objs) && Sound(w.objs) && HostsUnscoped(w.objs)
  {
  }

  lemma {:induction false} ReadyPass(o: Oracle, w: World, selector: Option<Selector>, node: Key)
    requires Ready(o, w, selector, node)
    ensures Finished(w.objs, AfterReconcile(o, w, selector).w.objs, Item(node, w.objs[node]))
  {
    hide AfterReconcile, AfterNodeRemoval, AfterSweep, Finished, Sees, LabelsWritten, TaintMap, HostPresent, HostDrains;
    hide PodsOn, Owned, NoneVanishes, Proper;
    ReadyIsProper(o, w, selector, node);
    QuietLists(o, w, selector);
    var n, nodes, hosts := PassParts(o, w, selector);
    SeenIsStored(w.objs, selector, hosts, Hostname(w.objs[node]));
    assert Selects(All(CsiNode), node, w.objs[node]) && Has(nodes, node);
    var m :| 0 <= m < |nodes| && nodes[m].key == node;
    ReadyRemoval(o, n, nodes, hosts, m);
    var removal, r := AfterNodeRemoval(o, n, nodes, hosts).w.objs, AfterReconcile(o, w, selector).w.objs;
    forall k | k in TurnSet(w.objs, nodes[m]) ensures Same(w.objs, w.objs, k) && Same(removal, r, k) {}
    FinishedElsewhere(w.objs, w.objs, removal, r, nodes[m]);
  }

  /** One fault-free pass leaves at most the node object, and it leaves the node object
      exactly when a volume group or volume was already being deleted: clearing the
      finalizers of such an object removes it, and the following calls fail on it. In
      either case there is strictly less of the UUID than before. */
  lemma {:induction false} PassMakesProgress(o: Oracle, w: World, selector: Option<Selector>, node: Key)
    requires Ready(o, w, selector, node)
    ensures var uuid, r := NodeId(w.objs[node]), AfterReconcile(o, w, selector).w.objs;
            && Owned(r, uuid) < Owned(w.objs, uuid)
            && Owned(r, uuid) == if NoneVanishes(w.objs, Possessions(w.objs, uuid)) then {} else {node}
  {
    hide AfterReconcile;
    var uuid, r := NodeId(w.objs[node]), AfterReconcile(o, w, selector).w.objs;
    ReadyPass(o, w, selector, node);
    PassOwnsNoMore(o, w, selector, uuid);
    var mine := Possessions(w.objs, uuid);
    assert mine + {node} == Owned(w.objs, uuid);
    forall k | k in mine ensures k !in r {
      assert Discharged(r, k, w.objs[k]);
    }
    if !NoneVanishes(w.objs, mine) {
      assert exists k :: k in mine;
    }
  }

  /** Two passes suffice. In between, the cluster may do anything that adds nothing to
      the UUID and keeps the node, if it is still there, ready. */
  lemma {:induction false} GoneAfterTwoPasses(
    o: Oracle, w: World, between: World, selector: Option<Selector>, next: Option<Selector>, node: Key)
    requires Ready(o, w, selector, node)
    requires Proper(between.objs)
    requires Owned(between.objs, NodeId(w.objs[node]))
          <= Owned(AfterReconcile(o, w, selector).w.objs, NodeId(w.objs[node]))
    requires node in between.objs ==>
               Ready(o, between, next, node) && NodeId(between.objs[node]) == NodeId(w.objs[node])
    ensures Owned(AfterReconcile(o, between, next).w.objs, NodeId(w.objs[node])) == {}
  {
    hide AfterReconcile, VanishesEarly, Abandoned;
    ReadyIsOwned(o, w, selector, node);
    var uuid := NodeId(w.objs[node]);
    PassMakesProgress(o, w, selector, node);
    assert Owned(between.objs, uuid) <= {node};
    if node in between.objs {
      assert Possessions(between.objs, uuid) <= Owned(between.objs, uuid) - {node};
      PassMakesProgress(o, between, next, node);
    } else {
      assert node !in Owned(between.objs, uuid);
      PassOwnsNoMore(o, between, next, uuid);
    }
  }

  /** A fault-free pass that sees the host drain labels the node, whatever becomes of the
      other nodes. */
  lemma {:induction false} DrainIsNoticed(o: Oracle, w: World, selector: Option<Selector>, node: Key)
    requires Proper(w.objs) && Quiet(o, w.calls) && node in w.objs && node.kind == CsiNode
    requires HostDrains(w.objs, selector, Hostname(w.objs[node]))
    ensures node in AfterReconcile(o, w, selector).w.objs && Labelled(AfterReconcile(o, w, selector).w.objs[node])
  {
    hide AfterReconcile, AfterNodeRemoval, AfterSweep, TaintMap, Sees, HostDrains, HostPresent;
    QuietLists(o, w, selector);
    var n, nodes, hosts := PassParts(o, w, selector);
    DrainsMeansPresent(w.objs, selector, Hostname(w.objs[node]));
    SeenIsStored(w.objs, selector, hosts, Hostname(w.objs[node]));
    assert Selects(All(CsiNode), node, w.objs[node]) && Has(nodes, node);
    var m :| 0 <= m < |nodes| && nodes[m].key == node;
    SweepEffect(o, n, nodes, TaintMap(hosts, REMOVAL_TAINT, |hosts|), |nodes|);
    LabelsConvergeAnyway(o, n, nodes, hosts, m);
    assert Same(AfterNodeRemoval(o, n, nodes, hosts).w.objs, AfterReconcile(o, w, selector).w.objs, node);
  }

  lemma {:induction false} DrainsMeansPresent(objs: Store, selector: Option<Selector>, name: string)
    requires HostDrains(objs, selector, name)
    ensures HostPresent(objs, selector, name)
  {
  }

  /** From the taint to the end: a fault-free pass sees the host drain; later the host
      and its pods are gone; then two fault-free passes leave nothing of the node. */
  lemma {:induction false} DrainedNodeGoes(
    o: Oracle, w: World, left: World, between: World,
    first: Option<Selector>, second: Option<Selector>, third: Option<Selector>, node: Key)
    requires Proper(w.objs) && Quiet(o, w.calls) && node in w.objs && node.kind == CsiNode
    requires HostDrains(w.objs, first, Hostname(w.objs[node]))
    requires Same(AfterReconcile(o, w, first).w.objs, left.objs, node) && Abandoned(o, left, second, node)
    requires Proper(between.objs)
    requires Owned(between.objs, NodeId(left.objs[node]))
          <= Owned(AfterReconcile(o, left, second).w.objs, NodeId(left.objs[node]))
    requires node in between.objs ==>
               Ready(o, between, third, node) && NodeId(between.objs[node]) == NodeId(left.objs[node])
    ensures Owned(AfterReconcile(o, between, third).w.objs, NodeId(left.objs[node])) == {}
  {
    hide AfterReconcile, HostDrains, Abandoned, Owned;
    DrainIsNoticed(o, w, first, node);
    GoneAfterTwoPasses(o, left, between, second, third, node);
  }
}
