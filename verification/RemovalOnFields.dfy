/** The main results about removal and maintenance once more, said over the fields of the
    stored objects alone. */
module RemovalOnFields {
  import opened Api
  import opened NodeOperations
  import opened RemovalProofs
  import opened RemovalPass
  import opened MaintenanceProofs
  import opened RemovalRuns
  import opened RemovalConvergence

  // ----- the fields -----

  /** A Kubernetes node with a drain taint of the given value. */
  predicate Drained(host: Object, value: string) {
    host.spec.HostSpec? &&
    exists t :: t in host.spec.taints && t.key == "node.dell.com/drain" && t.value == value && t.effect == "NoSchedule"
  }

  /** The key is a Kubernetes node of this name that the configured selector admits. */
  predicate SelectedHost(objs: Store, selector: Option<Selector>, key: Key, name: string) {
    && key in objs && key.kind == Host && key.name == name
    && (selector.Some? ==>
          selector.value.key in objs[key].meta.labels
          && objs[key].meta.labels[selector.value.key] == selector.value.value)
  }

  /** A pod of the node daemonset on this host. */
  predicate NodePod(objs: Store, key: Key, hostname: string) {
    && key in objs && key.kind == Pod
    && "name" in objs[key].meta.labels && objs[key].meta.labels["name"] == "csi-baremetal-node"
    && objs[key].spec.PodSpec? && objs[key].spec.nodeName == hostname
  }

  /** A csibmnode of this UUID and host. */
  predicate IsNode(objs: Store, key: Key, uuid: string, hostname: string) {
    key in objs && key.kind == CsiNode && objs[key].spec == CsiNodeSpec(uuid, hostname)
  }

  /** A drive, available capacity, volume group or volume of this UUID. */
  predicate IsResource(objs: Store, key: Key, uuid: string) {
    && key in objs && (key.kind == Drive || key.kind == Capacity || key.kind == VolumeGroup || key.kind == Volume)
    && objs[key].spec == ResourceSpec(uuid)
  }

  predicate HasRemovalLabel(obj: Object) {
    "node.dell.com/drain" in obj.meta.labels && obj.meta.labels["node.dell.com/drain"] == "drain"
  }

  /** Pods and CSI objects have the fields of their kind. */
  ghost predicate WellTyped(objs: Store) {
    forall k :: k in objs ==>
      && (k.kind == Pod ==> objs[k].spec.PodSpec?)
      && (k.kind == CsiNode ==> objs[k].spec.CsiNodeSpec?)
      && (k.kind == Drive || k.kind == Capacity || k.kind == VolumeGroup || k.kind == Volume ==>
            objs[k].spec.ResourceSpec?)
  }

  // ----- what the words of the model mean -----

  lemma {:induction false} TaintsMean(host: Object)
    ensures HasTaint(host, REMOVAL_TAINT) <==> Drained(host, "drain")
    ensures HasTaint(host, MAINTENANCE_TAINT) <==> Drained(host, "planned-downtime")
  {
    if Drained(host, "drain") {
      var t :| t in host.spec.taints
            && t.key == "node.dell.com/drain" && t.value == "drain" && t.effect == "NoSchedule";
      assert t == REMOVAL_TAINT;
    }
    if Drained(host, "planned-downtime") {
      var t :| t in host.spec.taints
            && t.key == "node.dell.com/drain" && t.value == "planned-downtime" && t.effect == "NoSchedule";
      assert t == MAINTENANCE_TAINT;
    }
  }

  lemma {:induction false} SelectionMeans(objs: Store, selector: Option<Selector>, key: Key, name: string)
    ensures SelectedHost(objs, selector, key, name)
       <==> key in objs && key.name == name && Selects(HostSelection(selector), key, objs[key])
  {
  }

  /** A host drains, or is in maintenance, or is there at all, exactly when the fields of
      a selected Kubernetes node of that name say so. */
  lemma {:induction false} HostsMean(objs: Store, selector: Option<Selector>, name: string)
    ensures HostPresent(objs, selector, name) <==> exists k :: SelectedHost(objs, selector, k, name)
    ensures HostDrains(objs, selector, name)
       <==> exists k :: SelectedHost(objs, selector, k, name) && Drained(objs[k], "drain")
    ensures InMaintenance(objs, selector, name)
       <==> exists k :: SelectedHost(objs, selector, k, name) && Drained(objs[k], "planned-downtime")
  {
    hide HasTaint, Drained, Selects, SelectedHost;
    forall k ensures SelectedHost(objs, selector, k, name)
                <==> k in objs && k.name == name && Selects(HostSelection(selector), k, objs[k])
    {
      SelectionMeans(objs, selector, k, name);
    }
    forall k | k in objs
      ensures HasTaint(objs[k], REMOVAL_TAINT) <==> Drained(objs[k], "drain")
      ensures HasTaint(objs[k], MAINTENANCE_TAINT) <==> Drained(objs[k], "planned-downtime")
    {
      TaintsMean(objs[k]);
    }
  }

  lemma {:induction false} PodsMean(objs: Store, hostname: string)
    requires WellTyped(objs)
    ensures PodsOn(objs, hostname) <==> exists k :: NodePod(objs, k, hostname)
  {
    forall k ensures NodePod(objs, k, hostname) <==> k in objs && Selects(NodePods(hostname), k, objs[k]) {
      NodePodMeans(objs, k, hostname);
    }
  }

  lemma {:induction false} NodePodMeans(objs: Store, key: Key, hostname: string)
    requires WellTyped(objs)
    ensures NodePod(objs, key, hostname) <==> key in objs && Selects(NodePods(hostname), key, objs[key])
  {
  }

  lemma {:induction false} IdsMean(objs: Store, key: Key, uuid: string)
    requires WellTyped(objs) && key in objs && CsiKind(key.kind)
    ensures NodeId(objs[key]) == uuid <==> IsResource(objs, key, uuid) || exists h :: IsNode(objs, key, uuid, h)
    ensures key.kind == CsiNode ==> IsNode(objs, key, NodeId(objs[key]), Hostname(objs[key]))
  {
    if key.kind == CsiNode && NodeId(objs[key]) == uuid {
      assert IsNode(objs, key, uuid, objs[key].spec.hostname);
    }
  }

  // ----- safety of runs -----

  /** Why a pass touched an object of `uuid`: a labelled csibmnode of that UUID, no
      selected Kubernetes node of its host, none of its pods. */
  ghost predicate Abandonment(objs: Store, selector: Option<Selector>, node: Key, uuid: string, hostname: string) {
    && IsNode(objs, node, uuid, hostname) && HasRemovalLabel(objs[node])
    && (forall k :: !SelectedHost(objs, selector, k, hostname))
    && (forall k :: !NodePod(objs, k, hostname))
  }

  lemma {:induction false} DoomedMeans(w: World, selector: Option<Selector>, node: Key, key: Key)
    returns (uuid: string, hostname: string)
    requires key in w.objs && CsiKind(key.kind) && Doomed(w, selector, node, key) && WellTyped(w.objs)
    ensures Abandonment(w.objs, selector, node, uuid, hostname)
    ensures key == node || IsResource(w.objs, key, uuid)
  {
    hide HostPresent, HostDrains, PodsOn, Drained, WellTyped, SelectedHost, NodePod;
    uuid, hostname := NodeId(w.objs[node]), Hostname(w.objs[node]);
    HostsMean(w.objs, selector, hostname);
    PodsMean(w.objs, hostname);
    IdsMean(w.objs, node, uuid);
    IdsMean(w.objs, key, uuid);
  }

  lemma {:induction false} DrainsMeans(objs: Store, selector: Option<Selector>, name: string) returns (host: Key)
    requires HostDrains(objs, selector, name)
    ensures SelectedHost(objs, selector, host, name) && Drained(objs[host], "drain")
  {
    hide Drained, HostDrains;
    HostsMean(objs, selector, name);
    host :| SelectedHost(objs, selector, host, name) && Drained(objs[host], "drain");
  }

  /** Safety of a run over the fields: an object that a pass deletes, marks or strips has
      the UUID of an abandoned csibmnode (and is that one, if it is a csibmnode), and an
      earlier pass that did not find the label there saw a selected Kubernetes node of its
      host with the taint node.dell.com/drain=drain:NoSchedule. */
  lemma {:induction false} NothingRemovedUndrained(
    o: Oracle, ws: seq<World>, events: seq<Event>, i: nat, key: Key)
    returns (j: nat, node: Key, host: Key, uuid: string, hostname: string)
    requires Run(o, ws, events) && i < |events| && events[i].Reconciles?
    requires WellTyped(ws[i].objs)
    requires CsiKind(key.kind) && Harmed(ws[i].objs, ws[i + 1].objs, key)
    ensures Abandonment(ws[i].objs, events[i].selector, node, uuid, hostname)
    ensures key == node || IsResource(ws[i].objs, key, uuid)
    ensures j < i && events[j].Reconciles? && node in ws[j].objs && !HasRemovalLabel(ws[j].objs[node])
    ensures SelectedHost(ws[j].objs, events[j].selector, host, Hostname(ws[j].objs[node]))
    ensures Drained(ws[j].objs[host], "drain")
  {
    hide StepOf, Doomed, HostDrains, Abandonment, IsResource, SelectedHost, Drained, LabelsWritten, WellTyped;
    j, node := NothingRemovedUnannounced(o, ws, events, i, key);
    uuid, hostname := DoomedMeans(ws[i], events[i].selector, node, key);
    host := DrainsMeans(ws[j].objs, events[j].selector, Hostname(ws[j].objs[node]));
  }

  /** Whatever fails, a pass writes no removal label because of another taint, planned
      downtime included: the new label takes the taint with value "drain". */
  lemma {:induction false} OnlyDrainLabels(o: Oracle, w: World, selector: Option<Selector>, node: Key)
    requires Proper(w.objs) && node.kind == CsiNode && node in w.objs && !HasRemovalLabel(w.objs[node])
    requires forall k :: SelectedHost(w.objs, selector, k, Hostname(w.objs[node])) ==> !Drained(w.objs[k], "drain")
    ensures var r := AfterReconcile(o, w, selector).w.objs; node in r ==> !HasRemovalLabel(r[node])
  {
    hide AfterReconcile, HostPresent, HostDrains, Drained, SelectedHost, LabelsWritten;
    HostsMean(w.objs, selector, Hostname(w.objs[node]));
    var r := AfterReconcile(o, w, selector).w.objs;
    if node in r && HasRemovalLabel(r[node]) { LabelInPass(o, w, selector, node); }
  }

  /** A host in planned downtime does not drain, and a draining one is not in planned
      downtime, as long as it carries just the one taint. */
  lemma {:induction false} TaintsDiffer(kernel: string)
    ensures var down := HostSpec([Taint("node.dell.com/drain", "planned-downtime", "NoSchedule")], kernel);
            var drain := HostSpec([Taint("node.dell.com/drain", "drain", "NoSchedule")], kernel);
            forall meta: Meta {:trigger Object(meta, down)} ::
              && !HasTaint(Object(meta, down), REMOVAL_TAINT) && HasTaint(Object(meta, down), MAINTENANCE_TAINT)
    ensures var drain := HostSpec([Taint("node.dell.com/drain", "drain", "NoSchedule")], kernel);
            forall meta: Meta {:trigger Object(meta, drain)} ::
              && HasTaint(Object(meta, drain), REMOVAL_TAINT) && !HasTaint(Object(meta, drain), MAINTENANCE_TAINT)
  {
  }

  // ----- the way to the end -----

  /** Without Kubernetes node and pods, and with no finalizers but on volume groups and
      volumes. */
  ghost predicate LeftBehind(objs: Store, selector: Option<Selector>, node: Key, uuid: string, hostname: string) {
    && IsNode(objs, node, uuid, hostname)
    && (forall k :: !SelectedHost(objs, selector, k, hostname))
    && (forall k :: !NodePod(objs, k, hostname))
    && (forall k, h :: IsNode(objs, k, uuid, h) ==> k == node)
    && objs[node].meta.finalizers == []
    && (forall k :: IsResource(objs, k, uuid) && (k.kind == Drive || k.kind == Capacity) ==>
          objs[k].meta.finalizers == [])
  }

  lemma {:induction false} LeftBehindMeans(
    o: Oracle, w: World, selector: Option<Selector>, node: Key, uuid: string, hostname: string)
    requires Proper(w.objs) && WellTyped(w.objs) && UuidsDistinct(w.objs) && Quiet(o, w.calls)
    requires LeftBehind(w.objs, selector, node, uuid, hostname)
    ensures Abandoned(o, w, selector, node) && NodeId(w.objs[node]) == uuid
  {
    hide Proper, HostPresent, PodsOn, SelectedHost, NodePod;
    HostsMean(w.objs, selector, hostname);
    PodsMean(w.objs, hostname);
    forall k | k in Owned(w.objs, uuid) && !ClearsFinalizers(k.kind) ensures w.objs[k].meta.finalizers == [] {
      IdsMean(w.objs, k, uuid);
    }
  }

  /** Nothing of the UUID is stored any more. */
  ghost predicate Erased(objs: Store, uuid: string) {
    && (forall k :: !IsResource(objs, k, uuid))
    && (forall k, h :: !IsNode(objs, k, uuid, h))
  }

  lemma {:induction false} OwnedNothingMeans(objs: Store, uuid: string)
    ensures Owned(objs, uuid) == {} ==> Erased(objs, uuid)
  {
    forall k | IsResource(objs, k, uuid) ensures k in Owned(objs, uuid) {}
    forall k, h | IsNode(objs, k, uuid, h) ensures k in Owned(objs, uuid) {}
  }

  /** What a later store still has of the UUID it had before. */
  ghost predicate AddsNothing(a: Store, b: Store, node: Key, uuid: string) {
    && Same(a, b, node)
    && (forall k :: IsResource(b, k, uuid) ==> IsResource(a, k, uuid))
    && (forall k, h :: IsNode(b, k, uuid, h) ==> k == node)
  }

  lemma {:induction false} OwnsNoMore(a: Store, b: Store, node: Key, uuid: string)
    requires WellTyped(b) && AddsNothing(a, b, node, uuid)
    ensures Owned(b, uuid) <= Owned(a, uuid)
  {
    forall k | k in Owned(b, uuid) ensures k in Owned(a, uuid) {
      IdsMean(b, k, uuid);
    }
  }

  /** A node that survives its first fault-free pass is as it was, label included. */
  lemma {:induction false} SurvivorUnchanged(o: Oracle, w: World, selector: Option<Selector>, node: Key)
    requires Ready(o, w, selector, node) && node in AfterReconcile(o, w, selector).w.objs
    ensures Same(w.objs, AfterReconcile(o, w, selector).w.objs, node)
  {
    hide AfterReconcile, NoneVanishes;
    ReadyPass(o, w, selector, node);
  }

  /** From the taint to the end, over the fields. A fault-free pass sees a selected
      Kubernetes node of the host with the drain taint. Later node and pods are gone while
      the csibmnode is as that pass left it. Then two fault-free passes erase the UUID,
      when the cluster adds nothing to it in between. */
  lemma {:induction false} DrainedNodeIsErased(
    o: Oracle, w: World, left: World, between: World,
    first: Option<Selector>, second: Option<Selector>, third: Option<Selector>,
    host: Key, node: Key, uuid: string, hostname: string)
    requires Proper(w.objs) && Quiet(o, w.calls) && IsNode(w.objs, node, uuid, hostname)
    requires SelectedHost(w.objs, first, host, hostname) && Drained(w.objs[host], "drain")
    requires Same(AfterReconcile(o, w, first).w.objs, left.objs, node)
    requires Proper(left.objs) && WellTyped(left.objs) && UuidsDistinct(left.objs) && Quiet(o, left.calls)
    requires LeftBehind(left.objs, second, node, uuid, hostname)
    requires Proper(between.objs) && WellTyped(between.objs) && UuidsDistinct(between.objs) && Quiet(o, between.calls)
    requires AddsNothing(AfterReconcile(o, left, second).w.objs, between.objs, node, uuid)
    requires node in between.objs ==> LeftBehind(between.objs, third, node, uuid, hostname)
    ensures Erased(AfterReconcile(o, between, third).w.objs, uuid)
  {
    hide AfterReconcile, Abandoned, Drained, SelectedHost, Owned, Erased, LeftBehind, HostDrains, WellTyped;
    HostsMean(w.objs, first, hostname);
    DrainIsNoticed(o, w, first, node);
    LeftBehindMeans(o, left, second, node, uuid, hostname);
    OwnsNoMore(AfterReconcile(o, left, second).w.objs, between.objs, node, uuid);
    if node in between.objs {
      SurvivorUnchanged(o, left, second, node);
      LeftBehindMeans(o, between, third, node, uuid, hostname);
    }
    GoneAfterTwoPasses(o, left, between, second, third, node);
    OwnedNothingMeans(AfterReconcile(o, between, third).w.objs, uuid);
  }

  // ----- maintenance -----

  /** A pod of the application with exactly one owner that is not a DaemonSet. */
  predicate MayBeEvicted(objs: Store, key: Key) {
    && AppPodOnFields(objs, key)
    && |objs[key].spec.ownerKinds| == 1 && objs[key].spec.ownerKinds[0] != "DaemonSet"
  }

  predicate AppPodOnFields(objs: Store, key: Key) {
    && key in objs && key.kind == Pod && objs[key].spec.PodSpec?
    && "app" in objs[key].meta.labels && objs[key].meta.labels["app"] == "csi-baremetal"
    && "app.kubernetes.io/name" in objs[key].meta.labels
    && objs[key].meta.labels["app.kubernetes.io/name"] == "csi-baremetal"
  }

  ghost predicate InDowntime(objs: Store, selector: Option<Selector>, hostname: string) {
    exists k :: SelectedHost(objs, selector, k, hostname) && Drained(objs[k], "planned-downtime")
  }

  /** A whole fault-free pass over the fields: a pod without finalizers is gone afterwards
      exactly when it may be evicted and its host is in planned downtime, provided no
      application pod there is without owner; any other pod is as it was. */
  lemma {:induction false} PassEvictsExactly(o: Oracle, w: World, selector: Option<Selector>, pod: Key)
    requires Proper(w.objs) && WellTyped(w.objs) && Quiet(o, w.calls) && pod.kind == Pod && pod in w.objs
    requires forall k :: AppPodOnFields(w.objs, k) && w.objs[k].spec.ownerKinds == [] ==>
               !InDowntime(w.objs, selector, w.objs[k].spec.nodeName)
    ensures var r := AfterReconcile(o, w, selector).w.objs;
            if MayBeEvicted(w.objs, pod) && InDowntime(w.objs, selector, w.objs[pod].spec.nodeName) then
              if w.objs[pod].meta.finalizers == [] then pod !in r else pod in r && r[pod].meta.deleting
            else Same(w.objs, r, pod)
  {
    hide AfterReconcile, InMaintenance, InDowntime, Evictable, MayBeEvicted, Ownerless, AppPodOnFields;
    DowntimeMeans(w.objs, selector, w.objs[pod].spec.nodeName);
    EvictableMeans(w.objs, pod);
    forall k | k in w.objs && Ownerless(k, w.objs[k]) ensures !InMaintenance(w.objs, selector, NodeName(w.objs[k])) {
      OwnerlessMeans(w.objs, k);
      DowntimeMeans(w.objs, selector, w.objs[k].spec.nodeName);
    }
    PassEvicts(o, w, selector, pod);
  }

  lemma {:induction false} DowntimeMeans(objs: Store, selector: Option<Selector>, hostname: string)
    ensures InMaintenance(objs, selector, hostname) <==> InDowntime(objs, selector, hostname)
  {
    hide InMaintenance, Drained;
    HostsMean(objs, selector, hostname);
  }

  lemma {:induction false} EvictableMeans(objs: Store, pod: Key)
    requires pod in objs && pod.kind == Pod && objs[pod].spec.PodSpec?
    ensures Evictable(pod, objs[pod]) <==> MayBeEvicted(objs, pod)
    ensures NodeName(objs[pod]) == objs[pod].spec.nodeName
  {
  }

  lemma {:induction false} OwnerlessMeans(objs: Store, pod: Key)
    requires WellTyped(objs) && pod in objs && Ownerless(pod, objs[pod])
    ensures AppPodOnFields(objs, pod) && objs[pod].spec.ownerKinds == []
    ensures NodeName(objs[pod]) == objs[pod].spec.nodeName
  {
  }

  // ----- the result of a pass -----

  /** A fault-free pass reports no error exactly when every labelled csibmnode whose host is
      not seen can be cleared at once; it stops exactly at an application pod without
      owner on a host in maintenance. */
  lemma {:induction false} PassOutcome(o: Oracle, w: World, selector: Option<Selector>)
    requires Proper(w.objs) && Quiet(o, w.calls)
    requires forall a, b :: a in w.objs && b in w.objs && a.kind == CsiNode && b.kind == CsiNode && a != b ==>
               NodeId(w.objs[a]) != NodeId(w.objs[b])
    requires forall k :: k in w.objs && Ownerless(k, w.objs[k]) ==>
               !InMaintenance(w.objs, selector, NodeName(w.objs[k]))
    ensures !AfterReconcile(o, w, selector).outcome.Panic?
    ensures AfterReconcile(o, w, selector).outcome.Done?
       <==> forall k :: k in w.objs && k.kind == CsiNode && Labelled(w.objs[k])
                        && !HostPresent(w.objs, selector, Hostname(w.objs[k])) ==>
              ClearedAtOnce(w.objs, Item(k, w.objs[k]))
  {
    hide AfterMaintenance, AfterNodeRemoval, InMaintenance, TaintedNames, TaintMap, ClearedAtOnce, HostPresent;
    var h := AfterList(o, w, HostSelection(selector));
    var l := AfterList(o, h.w, All(CsiNode));
    assert o.fault(w.calls, ListVerb, Key(Host, "", "")) == NoFault;
    assert o.fault(w.calls + 1, ListVerb, Key(CsiNode, "", "")) == NoFault;
    ListedNodesFresh(l.w, l.items);
    NamesDistinct(w.objs, selector, h.items);
    RemovalKeepsPods(o, l.w, l.items, h.items);
    var r := AfterNodeRemoval(o, l.w, l.items, h.items);
    NoOwnerlessLater(w.objs, r.w.objs, selector, h.items);
    MaintenanceExact(o, r.w, h.items);
    RemovalOutcome(o, l.w, selector, l.items, h.items);
  }

  lemma {:induction false} NoOwnerlessLater(a: Store, b: Store, selector: Option<Selector>, hosts: seq<Item>)
    requires Lists(a, HostSelection(selector), hosts)
    requires forall k: Key {:trigger Same(a, b, k)} :: k.kind == Pod ==> Same(a, b, k)
    requires forall k :: k in a && Ownerless(k, a[k]) ==> !InMaintenance(a, selector, NodeName(a[k]))
    ensures !OwnerlessOn(b, TaintedNames(hosts, |hosts|))
  {
    hide InMaintenance, TaintedNames;
    var names := TaintedNames(hosts, |hosts|);
    forall k | k in b && Ownerless(k, b[k]) ensures NodeName(b[k]) !in names {
      assert Same(a, b, k);
      NamesAreInMaintenance(a, selector, hosts, NodeName(b[k]));
    }
  }

  lemma {:induction false} RemovalOutcome(
    o: Oracle, w: World, selector: Option<Selector>, nodes: seq<Item>, hosts: seq<Item>)
    requires Proper(w.objs) && Quiet(o, w.calls) && UuidsDistinct(w.objs)
    requires Lists(w.objs, All(CsiNode), nodes) && FreshNodes(w, nodes)
    requires Lists(w.objs, HostSelection(selector), hosts)
    ensures AfterNodeRemoval(o, w, nodes, hosts).ok
       <==> forall k :: k in w.objs && k.kind == CsiNode && Labelled(w.objs[k])
                        && !HostPresent(w.objs, selector, Hostname(w.objs[k])) ==>
              ClearedAtOnce(w.objs, Item(k, w.objs[k]))
  {
    hide AfterSweep, AfterRemoveNodes, TaintMap, Removing, ClearedAtOnce, HostPresent, HostDrains;
    var seen := TaintMap(hosts, REMOVAL_TAINT, |hosts|);
    var s, removing := AfterSweep(o, w, nodes, seen, |nodes|), Removing(nodes, seen, |nodes|);
    SweepEffect(o, w, nodes, seen, |nodes|);
    RemovingFresh(o, w, nodes, seen);
    RemovingIdsDistinct(w, nodes, seen);
    FaultFreeOutcome(o, s.w, removing, |removing|);
    forall k | k in w.objs && k.kind == CsiNode
      ensures Labelled(w.objs[k]) && !HostPresent(w.objs, selector, Hostname(w.objs[k]))
         <==> Has(removing, k)
    {
      RemovingIffUnseen(w, selector, nodes, hosts, k);
    }
    forall j | 0 <= j < |removing|
      ensures removing[j].key in w.objs && removing[j].key.kind == CsiNode
      ensures removing[j] == Item(removing[j].key, w.objs[removing[j].key])
      ensures ClearedAtOnce(s.w.objs, removing[j]) <==> ClearedAtOnce(w.objs, removing[j])
    {
      var m := RemovedWasListed(nodes, seen, j);
      assert FreshNode(w, nodes[m]);
      ClearedAsBefore(w, s, nodes, seen, m);
    }
  }

  lemma {:induction false} RemovingIffUnseen(
    w: World, selector: Option<Selector>, nodes: seq<Item>, hosts: seq<Item>, key: Key)
    requires Proper(w.objs) && Lists(w.objs, All(CsiNode), nodes) && FreshNodes(w, nodes)
    requires Lists(w.objs, HostSelection(selector), hosts) && key in w.objs && key.kind == CsiNode
    ensures Labelled(w.objs[key]) && !HostPresent(w.objs, selector, Hostname(w.objs[key]))
       <==> Has(Removing(nodes, TaintMap(hosts, REMOVAL_TAINT, |hosts|), |nodes|), key)
  {
    hide TaintMap, Removing, HostPresent, HostDrains;
    var seen := TaintMap(hosts, REMOVAL_TAINT, |hosts|);
    var removing := Removing(nodes, seen, |nodes|);
    SeenIsStored(w.objs, selector, hosts, Hostname(w.objs[key]));
    assert Selects(All(CsiNode), key, w.objs[key]) && Has(nodes, key);
    var m :| 0 <= m < |nodes| && nodes[m].key == key;
    if Judge(nodes[m].obj, seen).Remove? {
      var j := IsBeingRemoved(nodes, seen, m);
    }
    if j :| 0 <= j < |removing| && removing[j].key == key {
      var i := RemovedWasListed(nodes, seen, j);
      if i != m { OtherKey(nodes, i, m); }
    }
  }

  lemma {:induction false} ClearedAsBefore(w: World, s: Step, nodes: seq<Item>, seen: map<string, bool>, m: nat)
    requires m < |nodes| && FreshNodes(w, nodes) && Swept(w, s, nodes, seen, |nodes|)
    ensures ClearedAtOnce(s.w.objs, nodes[m]) <==> ClearedAtOnce(w.objs, nodes[m])
  {
    hide Judge;
    SweptOnlyRelabels(w, s, nodes, seen);
    PodsKept(w.objs, s.w.objs, Hostname(nodes[m].obj));
    PossessionsKept(w.objs, s.w.objs, NodeId(nodes[m].obj));
  }
}
