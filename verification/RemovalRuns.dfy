/** Whole runs: passes of the controller interleaved with anything the cluster may do. */
module RemovalRuns {
  import opened Api
  import opened NodeOperations
  import opened RemovalProofs
  import opened RemovalPass
  import opened MaintenanceProofs

  // ----- what a pass sees -----

  /** Both lists of the pass came back. */
  predicate Sees(o: Oracle, w: World, selector: Option<Selector>) {
    var h := AfterList(o, w, HostSelection(selector));
    h.ok && AfterList(o, h.w, All(CsiNode)).ok
  }

  predicate HostPresent(objs: Store, selector: Option<Selector>, name: string) {
    exists k :: k in objs && k.name == name && Selects(HostSelection(selector), k, objs[k])
  }

  predicate HostDrains(objs: Store, selector: Option<Selector>, name: string) {
    exists k :: k in objs && k.name == name && Selects(HostSelection(selector), k, objs[k])
             && HasTaint(objs[k], REMOVAL_TAINT)
  }

  /** Kubernetes nodes have no namespace, so their names are unique. */
  ghost predicate HostsUnscoped(objs: Store) {
    forall k :: k in objs && k.kind == Host ==> k.namespace == ""
  }

  lemma {:induction false} NamesDistinct(objs: Store, selector: Option<Selector>, hosts: seq<Item>)
    requires HostsUnscoped(objs) && Lists(objs, HostSelection(selector), hosts)
    ensures DistinctNames(hosts)
  {
    forall i, j | 0 <= i < j < |hosts| ensures hosts[i].key.name != hosts[j].key.name {
      assert hosts[i].key != hosts[j].key;
    }
  }

  lemma {:induction false} TaintMapMeans(hosts: seq<Item>, taint: Taint, n: nat, name: string)
    requires n <= |hosts| && DistinctNames(hosts)
    ensures var seen := TaintMap(hosts, taint, n);
            && (name in seen <==> exists i :: 0 <= i < n && hosts[i].key.name == name)
            && (name in seen ==>
                  (seen[name] <==>
                   exists i :: 0 <= i < n && hosts[i].key.name == name && HasTaint(hosts[i].obj, taint)))
  {
    if n > 0 { TaintMapMeans(hosts, taint, n - 1, name); }
  }

  /** The map the pass works with is what the store says about the selected hosts. */
  lemma {:induction false} SeenIsStored(objs: Store, selector: Option<Selector>, hosts: seq<Item>, name: string)
    requires HostsUnscoped(objs) && Lists(objs, HostSelection(selector), hosts)
    ensures var seen := TaintMap(hosts, REMOVAL_TAINT, |hosts|);
            && (name in seen <==> HostPresent(objs, selector, name))
            && (name in seen ==> (seen[name] <==> HostDrains(objs, selector, name)))
  {
    hide TaintMap;
    NamesDistinct(objs, selector, hosts);
    TaintMapMeans(hosts, REMOVAL_TAINT, |hosts|, name);
    forall k | k in objs && k.name == name && Selects(HostSelection(selector), k, objs[k])
      ensures exists i :: 0 <= i < |hosts| && hosts[i].key == k && hosts[i].obj == objs[k]
    {
      assert Has(hosts, k);
      var i :| 0 <= i < |hosts| && hosts[i].key == k;
    }
  }

  // ----- one pass -----

  predicate CsiKind(kind: Kind) {
    kind == CsiNode || kind in CASCADE
  }

  /** Deleted, marked for deletion, or stripped of finalizers. */
  predicate Harmed(a: Store, b: Store, key: Key) {
    key in a && !OnlyRelabelled(a, b, key)
  }

  ghost predicate Proper(objs: Store) {
    Sound(objs) && HostsUnscoped(objs)
  }

  lemma {:induction false} ListedNodesFresh(w: World, nodes: seq<Item>)
    requires Lists(w.objs, All(CsiNode), nodes)
    ensures FreshNodes(w, nodes)
  {
  }

  /** The pass listed everything and wrote every label it had to write. */
  predicate LabelsWritten(o: Oracle, w: World, selector: Option<Selector>) {
    var h := AfterList(o, w, HostSelection(selector));
    var n := AfterList(o, h.w, All(CsiNode));
    h.ok && n.ok && AfterSweep(o, n.w, n.items, TaintMap(h.items, REMOVAL_TAINT, |h.items|), |n.items|).ok
  }

  /** An error-free pass wrote its labels; so did one that failed only afterwards. */
  lemma {:induction false} DoneMeansLabelsWritten(o: Oracle, w: World, selector: Option<Selector>)
    requires Sees(o, w, selector) && AfterReconcile(o, w, selector).outcome.Done?
    ensures LabelsWritten(o, w, selector)
  {
    hide AfterSweep, AfterRemoveNodes, AfterMaintenance, TaintMap, Removing;
  }

  /** A pass is its removal followed by its maintenance, which leaves CSI objects alone. */
  lemma {:induction false} PassParts(o: Oracle, w: World, selector: Option<Selector>)
    returns (n: World, nodes: seq<Item>, hosts: seq<Item>)
    requires Proper(w.objs) && Sees(o, w, selector)
    ensures n.objs == w.objs && w.calls <= n.calls
    ensures Lists(w.objs, All(CsiNode), nodes) && FreshNodes(n, nodes)
    ensures Lists(w.objs, HostSelection(selector), hosts)
    ensures var removal, pass := AfterNodeRemoval(o, n, nodes, hosts), AfterReconcile(o, w, selector);
            && (forall k: Key {:trigger Same(removal.w.objs, pass.w.objs, k)} ::
                  k.kind != Pod ==> Same(removal.w.objs, pass.w.objs, k))
            && (pass.outcome.Done? ==> removal.ok)
    ensures LabelsWritten(o, w, selector)
       <==> AfterSweep(o, n, nodes, TaintMap(hosts, REMOVAL_TAINT, |hosts|), |nodes|).ok
  {
    hide AfterNodeRemoval, AfterMaintenance, AfterSweep, TaintMap;
    var h := AfterList(o, w, HostSelection(selector));
    var l := AfterList(o, h.w, All(CsiNode));
    n, nodes, hosts := l.w, l.items, h.items;
    ListedNodesFresh(n, nodes);
    NamesDistinct(w.objs, selector, hosts);
    var r := AfterNodeRemoval(o, n, nodes, hosts);
    MaintenanceEffect(o, r.w, hosts, |hosts|);
  }

  /** A pass that cannot list hosts or nodes ends quietly. */
  lemma {:induction false} BlindPass(o: Oracle, w: World, selector: Option<Selector>)
    requires !Sees(o, w, selector)
    ensures AfterReconcile(o, w, selector).w.objs == w.objs
    ensures AfterReconcile(o, w, selector).outcome.Done?
  {
  }

  /** The node to which a harmed object belongs, and why it was removed. */
  ghost predicate Doomed(w: World, selector: Option<Selector>, node: Key, key: Key)
    requires key in w.objs
  {
    && node in w.objs && node.kind == CsiNode
    && Labelled(w.objs[node])
    && NodeId(w.objs[node]) == NodeId(w.objs[key])
    && (key.kind == CsiNode ==> key == node)
    && !HostPresent(w.objs, selector, Hostname(w.objs[node]))
    && !PodsOn(w.objs, Hostname(w.objs[node]))
  }

  lemma {:induction false} PassHarmsOnlyDoomed(o: Oracle, w: World, selector: Option<Selector>, key: Key)
    returns (node: Key)
    requires Proper(w.objs) && CsiKind(key.kind)
    requires Harmed(w.objs, AfterReconcile(o, w, selector).w.objs, key)
    ensures Sees(o, w, selector) && Doomed(w, selector, node, key)
  {
    hide AfterReconcile, AfterNodeRemoval, TaintMap, Sees, HostPresent, HostDrains, PodsOn, Lists, HasTaint;
    if !Sees(o, w, selector) { BlindPass(o, w, selector); }
    var n, nodes, hosts := PassParts(o, w, selector);
    var r := AfterNodeRemoval(o, n, nodes, hosts);
    assert Same(r.w.objs, AfterReconcile(o, w, selector).w.objs, key);
    assert !OnlyRelabelled(n.objs, r.w.objs, key);
    var item := ChangedByRemoval(o, n, nodes, hosts, key);
    SeenIsStored(w.objs, selector, hosts, Hostname(item.obj));
    node := item.key;
  }

  /** How the removal label of one node comes and goes in a pass. */
  lemma {:induction false} LabelInPass(o: Oracle, w: World, selector: Option<Selector>, node: Key)
    requires Proper(w.objs) && node.kind == CsiNode
    requires node in AfterReconcile(o, w, selector).w.objs && Labelled(AfterReconcile(o, w, selector).w.objs[node])
    ensures node in w.objs
    ensures Labelled(w.objs[node])
         || (Sees(o, w, selector) && HostDrains(w.objs, selector, Hostname(w.objs[node])))
    ensures LabelsWritten(o, w, selector) && HostPresent(w.objs, selector, Hostname(w.objs[node]))
            ==> HostDrains(w.objs, selector, Hostname(w.objs[node]))
  {
    hide AfterReconcile, AfterNodeRemoval, AfterSweep, TaintMap, HostPresent, HostDrains;
    if !Sees(o, w, selector) {
      BlindPass(o, w, selector);
    } else {
      var n, nodes, hosts := PassParts(o, w, selector);
      var r := AfterNodeRemoval(o, n, nodes, hosts);
      assert Same(r.w.objs, AfterReconcile(o, w, selector).w.objs, node);
      var j := LabelInRemoval(o, n, nodes, hosts, node);
      SeenIsStored(w.objs, selector, hosts, Hostname(w.objs[node]));
    }
  }

  lemma {:induction false} LabelInRemoval(o: Oracle, w: World, nodes: seq<Item>, hosts: seq<Item>, node: Key)
    returns (j: nat)
    requires Sound(w.objs) && Lists(w.objs, All(CsiNode), nodes) && FreshNodes(w, nodes) && node.kind == CsiNode
    requires node in AfterNodeRemoval(o, w, nodes, hosts).w.objs
    requires Labelled(AfterNodeRemoval(o, w, nodes, hosts).w.objs[node])
    ensures j < |nodes| && nodes[j].key == node
    ensures node in w.objs
    ensures var seen, host := TaintMap(hosts, REMOVAL_TAINT, |hosts|), Hostname(w.objs[node]);
            && (Labelled(w.objs[node]) || (host in seen && seen[host]))
            && (AfterSweep(o, w, nodes, seen, |nodes|).ok && host in seen ==> seen[host])
  {
    hide AfterSweep, AfterRemoveNodes, TaintMap, Removing;
    var seen := TaintMap(hosts, REMOVAL_TAINT, |hosts|);
    var s := AfterSweep(o, w, nodes, seen, |nodes|);
    SweepEffect(o, w, nodes, seen, |nodes|);
    RemovingFresh(o, w, nodes, seen);
    var removing := Removing(nodes, seen, |nodes|);
    RemoveNodesEffect(o, s.w, removing, |removing|);
    var r := AfterNodeRemoval(o, w, nodes, hosts);
    assert node in s.w.objs && (s.ok ==> Decays(s.w.objs[node], r.w.objs[node]));
    assert Selects(All(CsiNode), node, w.objs[node]);
    assert Has(nodes, node);
    j :| 0 <= j < |nodes| && nodes[j].key == node;
    assert Relabelled(s, nodes[j], seen);
  }

  // ----- runs -----

  datatype Event = Environment | Reconciles(selector: Option<Selector>)

  /** The cluster may do anything except write removal labels. */
  ghost predicate EnvironmentStep(a: World, b: World) {
    forall k :: k in b.objs && k.kind == CsiNode && Labelled(b.objs[k]) ==> k in a.objs && Labelled(a.objs[k])
  }

  ghost predicate Run(o: Oracle, ws: seq<World>, events: seq<Event>) {
    && |ws| == |events| + 1
    && (forall k :: k in ws[0].objs && k.kind == CsiNode ==> !Labelled(ws[0].objs[k]))
    && (forall i :: 0 <= i < |ws| ==> Proper(ws[i].objs))
    && (forall i :: 0 <= i < |events| ==> StepOf(o, ws[i], ws[i + 1], events[i]))
  }

  ghost predicate StepOf(o: Oracle, a: World, b: World, event: Event) {
    match event
    case Environment => EnvironmentStep(a, b)
    case Reconciles(selector) => b == AfterReconcile(o, a, selector).w
  }

  /** The pass saw the node's host selected and without the drain taint. */
  ghost predicate SawUntainted(o: Oracle, w: World, event: Event, node: Key)
    requires node in w.objs
  {
    && event.Reconciles? && Sees(o, w, event.selector)
    && HostPresent(w.objs, event.selector, Hostname(w.objs[node]))
    && !HostDrains(w.objs, event.selector, Hostname(w.objs[node]))
  }

  /** Pass `j` put the label on the node because it saw its host drain, the label has
      been there ever since, and no pass that wrote its labels has seen the host without
      the taint. */
  ghost predicate Announced(o: Oracle, ws: seq<World>, events: seq<Event>, j: nat, i: nat, node: Key)
    requires |ws| == |events| + 1 && j < i < |ws|
  {
    && events[j].Reconciles? && Sees(o, ws[j], events[j].selector)
    && node in ws[j].objs && !Labelled(ws[j].objs[node])
    && HostDrains(ws[j].objs, events[j].selector, Hostname(ws[j].objs[node]))
    && (forall m :: j < m <= i ==> node in ws[m].objs && Labelled(ws[m].objs[node]))
    && (forall m :: j < m < i && SawUntainted(o, ws[m], events[m], node) ==>
          !LabelsWritten(o, ws[m], events[m].selector))
  }

  lemma {:induction false} LabelIsAnnounced(o: Oracle, ws: seq<World>, events: seq<Event>, i: nat, node: Key)
    returns (j: nat)
    requires Run(o, ws, events) && i < |ws|
    requires node.kind == CsiNode && node in ws[i].objs && Labelled(ws[i].objs[node])
    ensures j < i && Announced(o, ws, events, j, i, node)
  {
    hide AfterReconcile, StepOf, HostDrains, Sees, Proper, LabelsWritten;
    LabelledBefore(o, ws, events, i, node);
    if Labelled(ws[i - 1].objs[node]) {
      j := LabelIsAnnounced(o, ws, events, i - 1, node);
    } else {
      j := i - 1;
    }
  }

  /** One step back from a label: it was there already, or this step saw the host drain;
      and a pass that wrote its labels and kept this one did not see the host without the
      taint. */
  lemma {:induction false} LabelledBefore(o: Oracle, ws: seq<World>, events: seq<Event>, i: nat, node: Key)
    requires Run(o, ws, events) && i < |ws|
    requires node.kind == CsiNode && node in ws[i].objs && Labelled(ws[i].objs[node])
    ensures i > 0 && node in ws[i - 1].objs
    ensures Labelled(ws[i - 1].objs[node]) ||
            (&& events[i - 1].Reconciles? && Sees(o, ws[i - 1], events[i - 1].selector)
             && HostDrains(ws[i - 1].objs, events[i - 1].selector, Hostname(ws[i - 1].objs[node])))
    ensures SawUntainted(o, ws[i - 1], events[i - 1], node) ==>
              !LabelsWritten(o, ws[i - 1], events[i - 1].selector)
  {
    hide AfterReconcile, HostDrains, HostPresent, Sees, LabelsWritten;
    assert StepOf(o, ws[i - 1], ws[i], events[i - 1]);
    if events[i - 1].Reconciles? {
      LabelInPass(o, ws[i - 1], events[i - 1].selector, node);
    }
  }

  /** Safety of a run, whatever calls fail: when a pass deletes, marks or strips a node
      object, drive, capacity, volume group or volume, then some node object of the same
      UUID (the object itself, if it is one) was announced, its host is not among the
      selected hosts and none of its pods is left. */
  lemma {:induction false} NothingRemovedUnannounced(
    o: Oracle, ws: seq<World>, events: seq<Event>, i: nat, key: Key) returns (j: nat, node: Key)
    requires Run(o, ws, events) && i < |events| && events[i].Reconciles?
    requires CsiKind(key.kind) && Harmed(ws[i].objs, ws[i + 1].objs, key)
    ensures Sees(o, ws[i], events[i].selector) && Doomed(ws[i], events[i].selector, node, key)
    ensures j < i && Announced(o, ws, events, j, i, node)
  {
    hide AfterReconcile;
    assert StepOf(o, ws[i], ws[i + 1], events[i]);
    node := PassHarmsOnlyDoomed(o, ws[i], events[i].selector, key);
    j := LabelIsAnnounced(o, ws, events, i, node);
  }

  /** A pod owned by a DaemonSet, such as the one that holds up the removal of its node,
      survives every pass. */
  lemma {:induction false} PassKeepsDaemonPods(o: Oracle, w: World, selector: Option<Selector>, key: Key)
    requires Proper(w.objs) && key.kind == Pod && key in w.objs
    requires |OwnerKinds(w.objs[key])| > 0 && OwnerKinds(w.objs[key])[0] == "DaemonSet"
    ensures Same(w.objs, AfterReconcile(o, w, selector).w.objs, key)
  {
    hide AfterMaintenance, AfterNodeRemoval, TaintMap, PodsOn;
    if Sees(o, w, selector) {
      var h := AfterList(o, w, HostSelection(selector));
      var l := AfterList(o, h.w, All(CsiNode));
      ListedNodesFresh(l.w, l.items);
      NamesDistinct(w.objs, selector, h.items);
      var r := AfterNodeRemoval(o, l.w, l.items, h.items);
      if !Same(w.objs, r.w.objs, key) {
        var item := ChangedByRemoval(o, l.w, l.items, h.items, key);
        assert false;
      }
      DaemonPodsStay(o, r.w, h.items, key);
    } else {
      BlindPass(o, w, selector);
    }
  }

  // ----- maintenance in a pass -----

  predicate InMaintenance(objs: Store, selector: Option<Selector>, name: string) {
    exists k :: k in objs && k.name == name && Selects(HostSelection(selector), k, objs[k])
             && HasTaint(objs[k], MAINTENANCE_TAINT)
  }

  lemma {:induction false} NamesAreInMaintenance(
    objs: Store, selector: Option<Selector>, hosts: seq<Item>, name: string)
    requires Lists(objs, HostSelection(selector), hosts)
    ensures name in TaintedNames(hosts, |hosts|) <==> InMaintenance(objs, selector, name)
  {
    hide TaintedNames;
    NamesAre(hosts, |hosts|);
    if InMaintenance(objs, selector, name) {
      var k :| (k in objs && k.name == name && Selects(HostSelection(selector), k, objs[k])
                && HasTaint(objs[k], MAINTENANCE_TAINT));
      assert Has(hosts, k);
      var i :| 0 <= i < |hosts| && hosts[i].key == k;
      assert HasTaint(hosts[i].obj, MAINTENANCE_TAINT) && hosts[i].key.name == name;
    }
  }

  lemma {:induction false} RemovalKeepsPods(o: Oracle, w: World, nodes: seq<Item>, hosts: seq<Item>)
    requires FreshNodes(w, nodes) && Sound(w.objs)
    ensures var r := AfterNodeRemoval(o, w, nodes, hosts).w;
            && w.calls <= r.calls
            && forall k: Key {:trigger Same(w.objs, r.objs, k)} :: k.kind == Pod ==> Same(w.objs, r.objs, k)
  {
    hide AfterSweep, AfterRemoveNodes, TaintMap, Removing, Relabelled;
    var seen := TaintMap(hosts, REMOVAL_TAINT, |hosts|);
    var s, removing := AfterSweep(o, w, nodes, seen, |nodes|), Removing(nodes, seen, |nodes|);
    SweepEffect(o, w, nodes, seen, |nodes|);
    SweptOnlyRelabels(w, s, nodes, seen);
    RemovingFresh(o, w, nodes, seen);
    RemoveNodesEffect(o, s.w, removing, |removing|);
    var r := AfterNodeRemoval(o, w, nodes, hosts).w;
    forall k: Key | k.kind == Pod ensures Same(w.objs, r.objs, k) {
      assert Same(w.objs, s.w.objs, k) && k.kind !in CASCADE;
      assert s.ok ==> Same(s.w.objs, r.objs, k);
    }
  }

  /** Of the pods, a fault-free pass evicts exactly the evictable ones on selected hosts in
      planned downtime, provided no such host runs a pod of the application without owner. */
  lemma {:induction false} PassEvicts(o: Oracle, w: World, selector: Option<Selector>, pod: Key)
    requires Proper(w.objs) && Quiet(o, w.calls) && pod.kind == Pod && pod in w.objs
    requires forall k :: k in w.objs && Ownerless(k, w.objs[k]) ==>
               !InMaintenance(w.objs, selector, NodeName(w.objs[k]))
    ensures var r := AfterReconcile(o, w, selector).w.objs;
            if Evictable(pod, w.objs[pod]) && InMaintenance(w.objs, selector, NodeName(w.objs[pod])) then
              EvictedOne(r, pod, w.objs[pod])
            else Same(w.objs, r, pod)
  {
    hide AfterMaintenance, AfterNodeRemoval, InMaintenance, TaintedNames, TaintMap, Evictable, Ownerless, EvictedOne;
    var h := AfterList(o, w, HostSelection(selector));
    var l := AfterList(o, h.w, All(CsiNode));
    assert o.fault(w.calls, ListVerb, Key(Host, "", "")) == NoFault;
    assert o.fault(w.calls + 1, ListVerb, Key(CsiNode, "", "")) == NoFault;
    ListedNodesFresh(l.w, l.items);
    NamesDistinct(w.objs, selector, h.items);
    var r := AfterNodeRemoval(o, l.w, l.items, h.items).w;
    RemovalKeepsPods(o, l.w, l.items, h.items);
    var names := TaintedNames(h.items, |h.items|);
    forall k | k in r.objs && Ownerless(k, r.objs[k]) ensures NodeName(r.objs[k]) !in names {
      OwnerlessIsPod(k, r.objs[k]);
      assert Same(w.objs, r.objs, k);
      NamesAreInMaintenance(w.objs, selector, h.items, NodeName(r.objs[k]));
    }
    MaintenanceExact(o, r, h.items);
    assert Same(w.objs, r.objs, pod);
    NamesAreInMaintenance(w.objs, selector, h.items, NodeName(w.objs[pod]));
    assert !OwnerlessOn(r.objs, names);
    var m := AfterMaintenance(o, r, h.items, |h.items|).w;
    assert AfterReconcile(o, w, selector).w == m;
    assert pod in Evictees(r.objs, names) <==> Evictable(pod, w.objs[pod]) && NodeName(w.objs[pod]) in names;
    assert pod !in Evictees(r.objs, names) ==> Same(r.objs, m.objs, pod);
  }

  lemma {:induction false} OwnerlessIsPod(key: Key, obj: Object)
    requires Ownerless(key, obj)
    ensures key.kind == Pod
  {
  }
}
