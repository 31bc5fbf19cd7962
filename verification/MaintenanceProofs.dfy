/** Which pods node maintenance evicts. */
module MaintenanceProofs {
  import opened Api
  import opened NodeOperations
  import opened RemovalProofs

  predicate AppPod(key: Key, obj: Object) {
    key.kind == Pod && HasLabels(APP_LABELS, obj.meta.labels)
  }

  predicate Evictable(key: Key, obj: Object) {
    AppPod(key, obj) && |OwnerKinds(obj)| == 1 && OwnerKinds(obj)[0] != "DaemonSet"
  }

  predicate Ownerless(key: Key, obj: Object) {
    AppPod(key, obj) && OwnerKinds(obj) == []
  }

  /** The evictable pods on one of the named hosts. */
  function Evictees(objs: Store, names: set<string>): set<Key> {
    set k | k in objs && Evictable(k, objs[k]) && NodeName(objs[k]) in names
  }

  predicate OwnerlessOn(objs: Store, names: set<string>) {
    exists k :: k in objs && Ownerless(k, objs[k]) && NodeName(objs[k]) in names
  }

  /** Each of `s` has been deleted: it is gone, or marked while it has finalizers. */
  ghost predicate Evicted(a: Store, b: Store, s: set<Key>)
    requires s <= a.Keys
  {
    forall k :: k in s ==> EvictedOne(b, k, a[k])
  }

  predicate EvictedOne(b: Store, key: Key, before: Object) {
    if before.meta.finalizers == [] then key !in b else key in b && b[key] == Marked(before)
  }

  /** Only pods of `s` are touched; without faults all of them go, and the process stops
      exactly when it meets a pod without owner. */
  ghost predicate Evicts(o: Oracle, w: World, r: Sweep, s: set<Key>, ownerless: bool)
    requires s <= w.objs.Keys
  {
    && w.calls <= r.w.calls
    && Outside(w.objs, r.w.objs, s)
    && Shrinks(w.objs, r.w.objs)
    && (Quiet(o, w.calls) ==> (r.outcome.Panic? <==> ownerless))
    && (Quiet(o, w.calls) && !ownerless ==> r.outcome.Done? && Evicted(w.objs, r.w.objs, s))
  }

  // ----- the pods of one host -----

  function Hits(pods: seq<Item>, n: nat): set<Key>
    requires n <= |pods|
  {
    if n == 0 then {}
    else Hits(pods, n - 1) + if Evictable(pods[n - 1].key, pods[n - 1].obj) then {pods[n - 1].key} else {}
  }

  predicate MeetsOwnerless(pods: seq<Item>, n: nat)
    requires n <= |pods|
  {
    exists j :: 0 <= j < n && OwnerKinds(pods[j].obj) == []
  }

  lemma {:induction false} HitsAre(pods: seq<Item>, n: nat)
    requires n <= |pods|
    ensures forall k :: k in Hits(pods, n) <==>
              exists j :: 0 <= j < n && Evictable(pods[j].key, pods[j].obj) && pods[j].key == k
  {
    if n > 0 { HitsAre(pods, n - 1); }
  }

  lemma {:induction false} EvictOne(o: Oracle, w: World, s: Sweep, pod: Item, hits: set<Key>, ownerless: bool)
    requires hits <= w.objs.Keys && pod.key in w.objs && w.objs[pod.key] == pod.obj && pod.key !in hits
    requires Evicts(o, w, s, hits, ownerless)
    ensures var d := AfterDelete(o, s.w, pod.key);
            Evicts(o, w, Sweep(d.w, if s.outcome.Panic? then Panic else if d.ok then s.outcome else Errors),
                   hits + {pod.key}, ownerless)
  {
    assert Same(w.objs, s.w.objs, pod.key);
    var d := AfterDelete(o, s.w, pod.key);
    forall k | k !in hits + {pod.key} ensures Same(w.objs, d.w.objs, k) {
      assert Same(w.objs, s.w.objs, k);
    }
    forall k | k in d.w.objs ensures k in w.objs && Decays(w.objs[k], d.w.objs[k]) {
      assert k in s.w.objs && Decays(w.objs[k], s.w.objs[k]) && Decays(s.w.objs[k], d.w.objs[k]);
    }
  }

  lemma {:induction false} DeletePodsEffect(o: Oracle, w: World, hostname: string, pods: seq<Item>, n: nat)
    requires n <= |pods| && Lists(w.objs, AppPods(hostname), pods)
    ensures Hits(pods, n) <= w.objs.Keys
    ensures Evicts(o, w, AfterDeletePods(o, w, pods, n), Hits(pods, n), MeetsOwnerless(pods, n))
  {
    hide Evicts, AfterDelete;
    HitsAre(pods, n);
    if n == 0 {
      EvictsNone(o, w);
    } else {
      DeletePodsEffect(o, w, hostname, pods, n - 1);
      var s, pod, hits := AfterDeletePods(o, w, pods, n - 1), pods[n - 1], Hits(pods, n - 1);
      assert AppPod(pod.key, pod.obj);
      assert MeetsOwnerless(pods, n) <==> MeetsOwnerless(pods, n - 1) || OwnerKinds(pod.obj) == [];
      if s.outcome.Panic? || OwnerKinds(pod.obj) == [] {
        Panicked(o, w, s, hits, Hits(pods, n), MeetsOwnerless(pods, n - 1), MeetsOwnerless(pods, n));
      } else if Evictable(pod.key, pod.obj) {
        HitsAre(pods, n - 1);
        assert pod.key !in hits;
        EvictOne(o, w, s, pod, hits, MeetsOwnerless(pods, n - 1));
      } else {
        assert Hits(pods, n) == hits;
      }
    }
  }

  lemma {:induction false} EvictsNone(o: Oracle, w: World)
    ensures Evicts(o, w, Sweep(w, Done), {}, false)
  {
  }

  /** After a panic nothing more is evicted. */
  lemma {:induction false} Panicked(
    o: Oracle, w: World, s: Sweep, hits: set<Key>, more: set<Key>, ownerless: bool, found: bool)
    requires hits <= more <= w.objs.Keys && (ownerless ==> found) && (s.outcome.Panic? || found)
    requires Evicts(o, w, s, hits, ownerless)
    ensures Evicts(o, w, Sweep(s.w, Panic), more, found)
  {
    hide Decays, EvictedOne;
  }

  lemma {:induction false} HostEffect(o: Oracle, w: World, hostname: string)
    ensures Evicts(o, w, AfterDeleteCsiPods(o, w, hostname), Evictees(w.objs, {hostname}),
                   OwnerlessOn(w.objs, {hostname}))
  {
    hide AfterDeletePods, Evicts, Hits, MeetsOwnerless, Evictees, OwnerlessOn;
    var l := AfterList(o, w, AppPods(hostname));
    EvicteesStored(w.objs, {hostname});
    if l.ok {
      DeletePodsEffect(o, l.w, hostname, l.items, |l.items|);
      HitsAreEvictees(w.objs, hostname, l.items);
      EvictsLater(o, w, l.w, AfterDeletePods(o, l.w, l.items, |l.items|), Evictees(w.objs, {hostname}),
                  OwnerlessOn(w.objs, {hostname}));
    } else {
      EvictsNothing(o, w, l.w, Evictees(w.objs, {hostname}), OwnerlessOn(w.objs, {hostname}));
    }
  }

  lemma {:induction false} EvicteesStored(objs: Store, names: set<string>)
    ensures Evictees(objs, names) <= objs.Keys
  {
  }

  lemma {:induction false} EvictsLater(o: Oracle, w: World, v: World, r: Sweep, s: set<Key>, ownerless: bool)
    requires v.objs == w.objs && w.calls <= v.calls && s <= w.objs.Keys && Evicts(o, v, r, s, ownerless)
    ensures Evicts(o, w, r, s, ownerless)
  {
    hide Decays, EvictedOne;
    assert Quiet(o, w.calls) ==> Quiet(o, v.calls);
  }

  lemma {:induction false} EvictsNothing(o: Oracle, w: World, v: World, s: set<Key>, ownerless: bool)
    requires v.objs == w.objs && w.calls <= v.calls && s <= w.objs.Keys && !Quiet(o, w.calls)
    ensures Evicts(o, w, Sweep(v, Errors), s, ownerless)
  {
  }

  /** The listed pods of a host are those the store has for it. */
  lemma {:induction false} HitsAreEvictees(objs: Store, hostname: string, pods: seq<Item>)
    requires Lists(objs, AppPods(hostname), pods)
    ensures Hits(pods, |pods|) == Evictees(objs, {hostname})
    ensures MeetsOwnerless(pods, |pods|) <==> OwnerlessOn(objs, {hostname})
  {
    HitsAre(pods, |pods|);
    forall k | k in objs && AppPod(k, objs[k]) && NodeName(objs[k]) == hostname ensures Has(pods, k) {
      assert Selects(AppPods(hostname), k, objs[k]);
    }
    if MeetsOwnerless(pods, |pods|) {
      var j :| 0 <= j < |pods| && OwnerKinds(pods[j].obj) == [];
      assert Selects(AppPods(hostname), pods[j].key, pods[j].obj) && Ownerless(pods[j].key, objs[pods[j].key]);
    }
  }

  // ----- all hosts -----

  function TaintedNames(hosts: seq<Item>, n: nat): set<string>
    requires n <= |hosts|
  {
    if n == 0 then {}
    else TaintedNames(hosts, n - 1)
         + if HasTaint(hosts[n - 1].obj, MAINTENANCE_TAINT) then {hosts[n - 1].key.name} else {}
  }

  ghost predicate DistinctNames(hosts: seq<Item>) {
    forall i, j :: 0 <= i < j < |hosts| ==> hosts[i].key.name != hosts[j].key.name
  }

  lemma {:induction false} NamesAre(hosts: seq<Item>, n: nat)
    requires n <= |hosts|
    ensures forall h :: h in TaintedNames(hosts, n) <==>
              exists j :: 0 <= j < n && HasTaint(hosts[j].obj, MAINTENANCE_TAINT) && hosts[j].key.name == h
  {
    if n > 0 { NamesAre(hosts, n - 1); }
  }

  lemma {:induction false} NextHost(o: Oracle, w: World, s: Sweep, d: Sweep, names: set<string>, name: string)
    requires name !in names
    requires Evicts(o, w, s, Evictees(w.objs, names), OwnerlessOn(w.objs, names))
    requires Evicts(o, s.w, d, Evictees(s.w.objs, {name}), OwnerlessOn(s.w.objs, {name}))
    requires !s.outcome.Panic?
    ensures Evicts(o, w, Sweep(d.w, if d.outcome.Done? then s.outcome else d.outcome),
                   Evictees(w.objs, names + {name}), OwnerlessOn(w.objs, names + {name}))
  {
    var here, there := Evictees(w.objs, {name}), Evictees(w.objs, names);
    assert here + there == Evictees(w.objs, names + {name});
    forall k | k in w.objs && NodeName(w.objs[k]) == name ensures Same(w.objs, s.w.objs, k) {}
    forall k | k in s.w.objs && NodeName(s.w.objs[k]) == name ensures Same(w.objs, s.w.objs, k) {
      assert Decays(w.objs[k], s.w.objs[k]);
    }
    assert Evictees(s.w.objs, {name}) == here;
    forall k | k in d.w.objs ensures k in w.objs && Decays(w.objs[k], d.w.objs[k]) {
      assert k in s.w.objs && Decays(w.objs[k], s.w.objs[k]) && Decays(s.w.objs[k], d.w.objs[k]);
    }
    forall k | k !in here + there ensures Same(w.objs, d.w.objs, k) {
      assert Same(w.objs, s.w.objs, k) && Same(s.w.objs, d.w.objs, k);
    }
    forall k | k in there ensures Same(s.w.objs, d.w.objs, k) {}
    assert OwnerlessOn(w.objs, {name}) <==> OwnerlessOn(s.w.objs, {name});
  }

  lemma {:induction false} MaintenanceEffect(o: Oracle, w: World, hosts: seq<Item>, n: nat)
    requires n <= |hosts| && DistinctNames(hosts)
    ensures Evicts(o, w, AfterMaintenance(o, w, hosts, n), Evictees(w.objs, TaintedNames(hosts, n)),
                   OwnerlessOn(w.objs, TaintedNames(hosts, n)))
  {
    hide AfterDeleteCsiPods;
    if n > 0 {
      MaintenanceEffect(o, w, hosts, n - 1);
      var s, name := AfterMaintenance(o, w, hosts, n - 1), hosts[n - 1].key.name;
      if HasTaint(hosts[n - 1].obj, MAINTENANCE_TAINT) {
        NamesAre(hosts, n - 1);
        if s.outcome.Panic? {
          PanicKeeps(o, w, s, TaintedNames(hosts, n - 1), name);
        } else {
          HostEffect(o, s.w, name);
          NextHost(o, w, s, AfterDeleteCsiPods(o, s.w, name), TaintedNames(hosts, n - 1), name);
        }
      }
    }
  }

  lemma {:induction false} PanicKeeps(o: Oracle, w: World, s: Sweep, names: set<string>, name: string)
    requires s.outcome.Panic? && Evicts(o, w, s, Evictees(w.objs, names), OwnerlessOn(w.objs, names))
    ensures Evicts(o, w, s, Evictees(w.objs, names + {name}), OwnerlessOn(w.objs, names + {name}))
  {
    assert OwnerlessOn(w.objs, names) ==> OwnerlessOn(w.objs, names + {name});
  }

  /** A fault-free pass over listed hosts evicts exactly the pods of the application that
      have one owner, other than a DaemonSet, on hosts in maintenance; it stops the
      process exactly when such a host runs a pod of the application without owner. */
  lemma {:induction false} MaintenanceExact(o: Oracle, w: World, hosts: seq<Item>)
    requires DistinctNames(hosts) && Quiet(o, w.calls)
    ensures var r, names := AfterMaintenance(o, w, hosts, |hosts|), TaintedNames(hosts, |hosts|);
            && (r.outcome.Panic? <==> OwnerlessOn(w.objs, names))
            && (!r.outcome.Panic? ==>
                  && r.outcome.Done?
                  && Evicted(w.objs, r.w.objs, Evictees(w.objs, names))
                  && Outside(w.objs, r.w.objs, Evictees(w.objs, names)))
  {
    hide AfterMaintenance;
    MaintenanceEffect(o, w, hosts, |hosts|);
  }

  /** Whatever fails, maintenance leaves alone every pod that is owned by a DaemonSet. */
  lemma {:induction false} DaemonPodsStay(o: Oracle, w: World, hosts: seq<Item>, key: Key)
    requires DistinctNames(hosts)
    requires key in w.objs && |OwnerKinds(w.objs[key])| > 0 && OwnerKinds(w.objs[key])[0] == "DaemonSet"
    ensures Same(w.objs, AfterMaintenance(o, w, hosts, |hosts|).w.objs, key)
  {
    hide AfterMaintenance;
    MaintenanceEffect(o, w, hosts, |hosts|);
  }
}
