/** A failing call stops nothing but what it was made for: an object whose own calls
    succeed is labelled, deleted or evicted, whatever happens to the others. */
module RemovalFailures {
  import opened Api
  import opened NodeOperations
  import opened RemovalProofs
  import opened RemovalPass
  import Eviction = MaintenanceProofs

  /** No call on this object fails. */
  ghost predicate Spared(o: Oracle, key: Key) {
    forall n: nat, v :: o.fault(n, v, key) == NoFault
  }

  /** No list of this kind fails. */
  ghost predicate Listable(o: Oracle, kind: Kind) {
    forall n: nat :: o.fault(n, ListVerb, Key(kind, "", "")) == NoFault
  }

  // ----- labels -----

  lemma {:induction false} JudgesOne(o: Oracle, w: World, node: Item, seen: map<string, bool>)
    requires Fresh(w, node) && Sound(w.objs) && Spared(o, node.key)
    ensures var r := AfterJudge(o, w, node, seen);
            r.ok && node.key in r.w.objs && r.w.objs[node.key] == Target(node.obj, seen)
  {
    assert o.fault(w.calls, UpdateVerb, node.key) == NoFault;
  }

  /** A csibmnode whose own writes succeed ends up with its target label, even if those of
      others fail. */
  lemma {:induction false} SweepJudgesEach(
    o: Oracle, w: World, nodes: seq<Item>, seen: map<string, bool>, n: nat, j: nat)
    requires j < n <= |nodes| && FreshNodes(w, nodes) && Sound(w.objs) && Spared(o, nodes[j].key)
    ensures var r := AfterSweep(o, w, nodes, seen, n).w.objs;
            nodes[j].key in r && r[nodes[j].key] == Target(nodes[j].obj, seen)
  {
    hide AfterJudge, Swept, Target, Spared, Relabelled;
    var s := AfterSweep(o, w, nodes, seen, n - 1);
    SweepEffect(o, w, nodes, seen, n - 1);
    StillListed(w, s, nodes, seen, n - 1);
    JudgeEffect(o, s.w, nodes[n - 1], seen);
    if j == n - 1 {
      JudgesOne(o, s.w, nodes[j], seen);
    } else {
      SweepJudgesEach(o, w, nodes, seen, n - 1, j);
      OtherKey(nodes, j, n - 1);
      assert Same(s.w.objs, AfterJudge(o, s.w, nodes[n - 1], seen).w.objs, nodes[j].key);
    }
  }

  // ----- the cascade -----

  lemma {:induction false} DeletesOne(o: Oracle, w: World, item: Item)
    requires Fresh(w, item) && Spared(o, item.key)
    ensures Discharged(AfterDeleteObject(o, w, item, ClearsFinalizers(item.key.kind)).w.objs, item.key, item.obj)
  {
    var u := AfterUpdate(o, w, item.key, WithoutFinalizers(item.obj));
    var g := AfterGet(o, u.w, item.key);
    assert o.fault(w.calls, UpdateVerb, item.key) == NoFault && o.fault(w.calls, DeleteVerb, item.key) == NoFault;
    assert o.fault(g.w.calls, DeleteVerb, item.key) == NoFault;
  }

  lemma {:induction false} NotYetDeleted(items: seq<Item>, uuid: string, n: nat)
    requires n < |items| && Distinct(items)
    ensures items[n].key !in Hits(items, uuid, n)
  {
    HitsAre(items, uuid, n);
  }

  lemma {:induction false} ListedDeletesEach(
    o: Oracle, w: World, kind: Kind, items: seq<Item>, uuid: string, n: nat, j: nat)
    requires j < n <= |items| && Lists(w.objs, All(kind), items)
    requires NodeId(items[j].obj) == uuid && Spared(o, items[j].key)
    ensures Discharged(
              AfterDeleteListed(o, w, items, uuid, ClearsFinalizers(kind), n).w.objs, items[j].key, items[j].obj)
  {
    hide AfterDeleteObject, DeletedSet, Discharged, Spared, Hits, Selects, NodeId;
    var s, item := AfterDeleteListed(o, w, items, uuid, ClearsFinalizers(kind), n - 1), items[n - 1];
    ListedKind(w.objs, kind, items, n - 1);
    if NodeId(item.obj) == uuid {
      DeleteListedEffect(o, w, kind, items, uuid, n - 1);
      NotYetDeleted(items, uuid, n - 1);
      StillFresh(o, w, s, Hits(items, uuid, n - 1), item);
    }
    if j == n - 1 {
      DeletesOne(o, s.w, item);
    } else {
      ListedDeletesEach(o, w, kind, items, uuid, n - 1, j);
      if NodeId(item.obj) == uuid { LaterKeeps(o, s.w, item, items[j].key, items[j].obj); }
    }
  }

  lemma {:induction false} ListedKind(objs: Store, kind: Kind, items: seq<Item>, j: nat)
    requires j < |items| && Lists(objs, All(kind), items)
    ensures items[j].key.kind == kind && items[j].key in objs && objs[items[j].key] == items[j].obj
  {
  }

  /** Deleting another object leaves what was discharged. */
  lemma {:induction false} LaterKeeps(o: Oracle, w: World, item: Item, key: Key, before: Object)
    requires Fresh(w, item) && key != item.key && Discharged(w.objs, key, before)
    ensures Discharged(AfterDeleteObject(o, w, item, ClearsFinalizers(item.key.kind)).w.objs, key, before)
  {
    hide AfterDeleteObject, DeletedSet, Discharged;
    DeleteObjectEffect(o, w, item);
    var d := AfterDeleteObject(o, w, item, ClearsFinalizers(item.key.kind));
    OutsideKeeps(o, w, d, {item.key}, key);
    StaysDischarged(w.objs, d.w.objs, key, before);
  }

  lemma {:induction false} OutsideKeeps(o: Oracle, w: World, r: Step, s: set<Key>, key: Key)
    requires s <= w.objs.Keys && DeletedSet(o, w, r, s) && key !in s
    ensures Same(w.objs, r.w.objs, key)
  {
  }

  lemma {:induction false} StaysDischarged(a: Store, b: Store, key: Key, before: Object)
    requires Same(a, b, key) && Discharged(a, key, before)
    ensures Discharged(b, key, before)
  {
  }

  lemma {:induction false} KindDeletesEach(o: Oracle, w: World, kind: Kind, uuid: string, key: Key)
    requires key in Victims(w.objs, kind, uuid) && Spared(o, key) && Listable(o, kind)
    ensures Discharged(AfterDeleteKind(o, w, kind, uuid).w.objs, key, w.objs[key])
  {
    hide AfterDeleteListed, Discharged, Spared;
    var l := AfterList(o, w, All(kind));
    assert o.fault(w.calls, ListVerb, Key(kind, "", "")) == NoFault;
    assert Has(l.items, key);
    var j :| 0 <= j < |l.items| && l.items[j].key == key;
    ListedDeletesEach(o, l.w, kind, l.items, uuid, |l.items|, j);
  }

  /** An object of the UUID whose own calls succeed goes, even if other objects, of its own
      kind or another, cannot be deleted or even listed. */
  lemma {:induction false} CascadeDeletesEach(o: Oracle, w: World, uuid: string, n: nat, key: Key)
    requires n <= |CASCADE| && key in CascadeSet(w.objs, uuid, n) && Spared(o, key) && Listable(o, key.kind)
    ensures Discharged(AfterCascade(o, w, uuid, n).w.objs, key, w.objs[key])
  {
    hide AfterDeleteKind, DeletedSet, Discharged, Spared, Listable;
    var s, kind := AfterCascade(o, w, uuid, n - 1), CASCADE[n - 1];
    var done := CascadeSet(w.objs, uuid, n - 1);
    assert CASCADE[..n] == CASCADE[..n - 1] + [kind] && kind !in CASCADE[..n - 1];
    CascadeEffect(o, w, uuid, n - 1);
    VictimsKept(o, w, s, done, kind, uuid);
    var d := AfterDeleteKind(o, s.w, kind, uuid);
    if key.kind == kind {
      OutsideKeeps(o, w, s, done, key);
      KindDeletesEach(o, s.w, kind, uuid, key);
    } else {
      CascadeDeletesEach(o, w, uuid, n - 1, key);
      DeleteKindEffect(o, s.w, kind, uuid);
      OutsideKeeps(o, s.w, d, Victims(s.w.objs, kind, uuid), key);
      StaysDischarged(s.w.objs, d.w.objs, key, w.objs[key]);
    }
  }

  // ----- evictions -----

  lemma {:induction false} PodsEvictEach(
    o: Oracle, w: World, hostname: string, pods: seq<Item>, n: nat, j: nat)
    requires j < n <= |pods| && Lists(w.objs, AppPods(hostname), pods)
    requires Eviction.Evictable(pods[j].key, pods[j].obj) && Spared(o, pods[j].key)
    requires !AfterDeletePods(o, w, pods, n).outcome.Panic?
    ensures Eviction.EvictedOne(AfterDeletePods(o, w, pods, n).w.objs, pods[j].key, pods[j].obj)
  {
    hide Eviction.EvictedOne, Eviction.Evicts, Eviction.MeetsOwnerless, Selects, Spared, AfterDelete;
    var s, pod := AfterDeletePods(o, w, pods, n - 1), pods[n - 1];
    Eviction.DeletePodsEffect(o, w, hostname, pods, n - 1);
    if j == n - 1 {
      NotYetHit(pods, j);
      UnhitKept(o, w, s, Eviction.Hits(pods, j), Eviction.MeetsOwnerless(pods, j), pod.key);
      EvictsOne(o, s.w, pod);
    } else {
      PodsEvictEach(o, w, hostname, pods, n - 1, j);
      if |OwnerKinds(pod.obj)| == 1 && OwnerKinds(pod.obj)[0] != "DaemonSet" {
        var d := AfterDelete(o, s.w, pod.key);
        DeleteKeeps(o, s.w, pod.key, pods[j].key);
        StaysEvicted(s.w.objs, d.w.objs, pods[j].key, pods[j].obj);
      }
    }
  }

  lemma {:induction false} NotYetHit(pods: seq<Item>, j: nat)
    requires j < |pods| && Distinct(pods)
    ensures pods[j].key !in Eviction.Hits(pods, j)
  {
    Eviction.HitsAre(pods, j);
  }

  lemma {:induction false} UnhitKept(o: Oracle, w: World, s: Sweep, hits: set<Key>, ownerless: bool, key: Key)
    requires hits <= w.objs.Keys && Eviction.Evicts(o, w, s, hits, ownerless) && key !in hits
    ensures Same(w.objs, s.w.objs, key)
  {
  }

  lemma {:induction false} EvictsOne(o: Oracle, w: World, pod: Item)
    requires Fresh(w, pod) && Spared(o, pod.key)
    ensures Eviction.EvictedOne(AfterDelete(o, w, pod.key).w.objs, pod.key, pod.obj)
  {
    assert o.fault(w.calls, DeleteVerb, pod.key) == NoFault;
  }

  lemma {:induction false} DeleteKeeps(o: Oracle, w: World, key: Key, other: Key)
    requires key != other
    ensures Same(w.objs, AfterDelete(o, w, key).w.objs, other)
  {
  }

  lemma {:induction false} HostEvictsEach(o: Oracle, w: World, hostname: string, key: Key)
    requires key in Eviction.Evictees(w.objs, {hostname}) && Spared(o, key) && Listable(o, Pod)
    requires !AfterDeleteCsiPods(o, w, hostname).outcome.Panic?
    ensures Eviction.EvictedOne(AfterDeleteCsiPods(o, w, hostname).w.objs, key, w.objs[key])
  {
    hide AfterDeletePods, Eviction.EvictedOne, Spared;
    var l := AfterList(o, w, AppPods(hostname));
    assert o.fault(w.calls, ListVerb, Key(Pod, "", "")) == NoFault;
    assert Selects(AppPods(hostname), key, w.objs[key]) && Has(l.items, key);
    var j :| 0 <= j < |l.items| && l.items[j].key == key;
    PodsEvictEach(o, l.w, hostname, l.items, |l.items|, j);
  }

  /** A pod to be evicted whose own deletion succeeds goes, even if those of others fail. */
  lemma {:induction false} MaintenanceEvictsEach(o: Oracle, w: World, hosts: seq<Item>, n: nat, key: Key)
    requires n <= |hosts| && Eviction.DistinctNames(hosts)
    requires key in Eviction.Evictees(w.objs, Eviction.TaintedNames(hosts, n))
    requires Spared(o, key) && Listable(o, Pod) && !AfterMaintenance(o, w, hosts, n).outcome.Panic?
    ensures Eviction.EvictedOne(AfterMaintenance(o, w, hosts, n).w.objs, key, w.objs[key])
  {
    hide AfterDeleteCsiPods, HasTaint, Eviction.EvictedOne, Spared, Listable;
    if n > 0 {
      var s, name := AfterMaintenance(o, w, hosts, n - 1), hosts[n - 1].key.name;
      Eviction.MaintenanceEffect(o, w, hosts, n - 1);
      Eviction.NamesAre(hosts, n - 1);
      if HasTaint(hosts[n - 1].obj, MAINTENANCE_TAINT) {
        Eviction.HostEffect(o, s.w, name);
        if NodeName(w.objs[key]) == name {
          assert Same(w.objs, s.w.objs, key);
          HostEvictsEach(o, s.w, name, key);
        } else {
          MaintenanceEvictsEach(o, w, hosts, n - 1, key);
          var d := AfterDeleteCsiPods(o, s.w, name);
          ElsewhereKept(o, w, s, d, name, key);
          StaysEvicted(s.w.objs, d.w.objs, key, w.objs[key]);
        }
      } else {
        MaintenanceEvictsEach(o, w, hosts, n - 1, key);
      }
    }
  }

  lemma {:induction false} StaysEvicted(a: Store, b: Store, key: Key, before: Object)
    requires Same(a, b, key) && Eviction.EvictedOne(a, key, before)
    ensures Eviction.EvictedOne(b, key, before)
  {
  }

  /** Evictions on one host leave the pods of the others. */
  lemma {:induction false} ElsewhereKept(o: Oracle, w: World, s: Sweep, d: Sweep, name: string, key: Key)
    requires key in w.objs && NodeName(w.objs[key]) != name && Shrinks(w.objs, s.w.objs)
    requires Eviction.Evicts(o, s.w, d, Eviction.Evictees(s.w.objs, {name}), Eviction.OwnerlessOn(s.w.objs, {name}))
    ensures Same(s.w.objs, d.w.objs, key)
  {
    if key in s.w.objs { assert Decays(w.objs[key], s.w.objs[key]); }
    assert key !in Eviction.Evictees(s.w.objs, {name});
  }
}
