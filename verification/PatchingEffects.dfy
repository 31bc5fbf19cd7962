/** What each operation of the patcher may change. */
module PatchingEffects {
  import opened Api
  import opened Updates
  import opened Patching
  import Rbac

  /** Every object kept its creation time or was created in between. */
  ghost predicate Ages(w: World, r: World) {
    && w.clock <= r.clock
    && forall k :: k in r.objs ==> Aged(w, r, k)
  }

  /** A scheduler configured by somebody else: another policy, or another secondary
      scheduler. */
  predicate Foreign(objs: Store, key: Key) {
    && key in objs
    && (|| (key == SCHEDULER_KEY && Policy(objs[key]) != "" && Policy(objs[key]) != POLICY_MAP)
        || (key == SECONDARY_KEY && Config(objs[key]) != SECONDARY_MAP))
  }

  /** Only keys of `s` may change, and foreign schedulers do not change either way. */
  ghost predicate Touches(w: World, r: World, s: set<Key>) {
    && w.calls <= r.calls
    && Ages(w, r)
    && (forall k {:trigger Same(w.objs, r.objs, k)} :: k !in s ==> Same(w.objs, r.objs, k))
    && (forall k :: Foreign(w.objs, k) ==> Same(w.objs, r.objs, k))
  }

  lemma {:induction false} Then(w: World, m: World, r: World, s: set<Key>, t: set<Key>)
    requires Touches(w, m, s) && Touches(m, r, t)
    ensures Touches(w, r, s + t)
  {
    forall k | k in r.objs ensures Aged(w, r, k) {
      assert Aged(m, r, k);
      if k in m.objs { assert Aged(w, m, k); }
    }
    forall k | k !in s + t ensures Same(w.objs, r.objs, k) {
      assert Same(w.objs, m.objs, k) && Same(m.objs, r.objs, k);
    }
    forall k | Foreign(w.objs, k) ensures Same(w.objs, r.objs, k) {
      assert Same(w.objs, m.objs, k) && Foreign(m.objs, k);
    }
  }

  lemma {:induction false} Wider(w: World, r: World, s: set<Key>, t: set<Key>)
    requires Touches(w, r, s) && s <= t
    ensures Touches(w, r, t)
  {
  }

  lemma {:induction false} Nothing(w: World, r: World)
    requires r.objs == w.objs && w.calls <= r.calls && w.clock <= r.clock
    ensures Touches(w, r, {})
  {
  }

  lemma {:induction false} ApplyMap(o: Oracle, w: World, key: Key, data: map<string, string>)
    requires key.kind == ConfigMap
    ensures Touches(w, AfterApplyConfigMap(o, w, key, data).w, {key})
  {
  }

  lemma {:induction false} DeleteTouches(o: Oracle, w: World, key: Key)
    requires key.kind == ConfigMap || key.kind == DaemonSet
    ensures Touches(w, AfterDelete(o, w, key).w, {key})
  {
  }

  lemma {:induction false} PatchScheduler(o: Oracle, w: World)
    ensures Touches(w, AfterPatchScheduler(o, w).w, {SCHEDULER_KEY})
  {
  }

  lemma {:induction false} UnpatchScheduler(o: Oracle, w: World)
    ensures Touches(w, AfterUnpatchScheduler(o, w).w, {SCHEDULER_KEY})
  {
  }

  lemma {:induction false} PatchSecondary(o: Oracle, w: World, csi: Csi)
    ensures Touches(w, AfterPatchSecondary(o, w, csi).w, {SECONDARY_KEY})
  {
  }

  lemma {:induction false} UnpatchSecondary(o: Oracle, w: World)
    ensures Touches(w, AfterUnpatchSecondary(o, w).w, {SECONDARY_KEY})
  {
  }

  function Schedulers(): set<Key> {
    {SCHEDULER_KEY, SECONDARY_KEY}
  }

  lemma {:induction false} PatchEither(o: Oracle, w: World, csi: Csi, secondary: bool)
    ensures Touches(w, AfterPatchEither(o, w, csi, secondary).w, Schedulers())
    ensures Touches(w, AfterUnpatchEither(o, w, secondary).w, Schedulers())
  {
    hide AfterPatchScheduler, AfterPatchSecondary, AfterUnpatchScheduler, AfterUnpatchSecondary, Touches;
    PatchScheduler(o, w);
    UnpatchScheduler(o, w);
    PatchSecondary(o, w, csi);
    UnpatchSecondary(o, w);
    if secondary {
      Wider(w, AfterPatchSecondary(o, w, csi).w, {SECONDARY_KEY}, Schedulers());
      Wider(w, AfterUnpatchSecondary(o, w).w, {SECONDARY_KEY}, Schedulers());
    } else {
      Wider(w, AfterPatchScheduler(o, w).w, {SCHEDULER_KEY}, Schedulers());
      Wider(w, AfterUnpatchScheduler(o, w).w, {SCHEDULER_KEY}, Schedulers());
    }
  }

  // ----- the address -----

  lemma {:induction false} Scan(o: Oracle, w: World, mem: Memory, csi: Csi, pods: seq<Item>, i: nat)
    requires i <= |pods|
    ensures Touches(w, AfterScan(o, w, mem, csi, pods, i).w, {AddressKey(csi)})
    decreases |pods| - i
  {
    hide Touches, AfterApplyConfigMap;
    var mine := {AddressKey(csi)};
    Nothing(w, w);
    Wider(w, w, {}, mine);
    if i < |pods| {
      var ip := PodIp(pods[i].obj);
      var t := Tick(o, w);
      Nothing(w, t);
      if Phase(pods[i].obj) != "Running" || ip == "" {
        Scan(o, w, mem, csi, pods, i + 1);
      } else if !o.healthy(w.calls, Url(ip, csi, mem)) {
        Scan(o, t, mem, csi, pods, i + 1);
        Then(w, t, AfterScan(o, t, mem, csi, pods, i + 1).w, {}, mine);
        assert {} + mine == mine;
      } else {
        ApplyMap(o, t, AddressKey(csi), map[IP_FIELD := ip]);
        Then(w, t, AfterApplyConfigMap(o, t, AddressKey(csi), map[IP_FIELD := ip]).w, {}, mine);
        assert {} + mine == mine;
      }
    }
  }

  lemma {:induction false} AfterNothing(w: World, m: World, r: World, s: set<Key>)
    requires m.objs == w.objs && w.calls <= m.calls && w.clock <= m.clock && Touches(m, r, s)
    ensures Touches(w, r, s)
  {
    Nothing(w, m);
    Then(w, m, r, {}, s);
    assert {} + s == s;
  }

  lemma {:induction false} ListAndScan(o: Oracle, w: World, mem: Memory, csi: Csi)
    ensures Touches(w, AfterListAndScan(o, w, mem, csi).w, {AddressKey(csi)})
  {
    hide Touches, AfterScan;
    var l := AfterList(o, w, EXTENDER_PODS);
    if l.ok {
      Scan(o, l.w, mem, csi, l.items, 0);
      AfterNothing(w, l.w, AfterScan(o, l.w, mem, csi, l.items, 0).w, {AddressKey(csi)});
    } else {
      Nothing(w, l.w);
      Wider(w, l.w, {}, {AddressKey(csi)});
    }
  }

  lemma {:induction false} Lookup(o: Oracle, w: World, mem: Memory, csi: Csi)
    ensures Touches(w, AfterLookup(o, w, mem, csi).w, {AddressKey(csi)})
  {
    hide Touches, AfterListAndScan;
    var g, mine := AfterGet(o, w, AddressKey(csi)), {AddressKey(csi)};
    var t := Tick(o, g.w);
    ListAndScan(o, g.w, mem, csi);
    AfterNothing(w, g.w, AfterListAndScan(o, g.w, mem, csi).w, mine);
    ListAndScan(o, t, mem, csi);
    AfterNothing(w, t, AfterListAndScan(o, t, mem, csi).w, mine);
    Nothing(w, t);
    Wider(w, t, {}, mine);
  }

  lemma {:induction false} GetAddress(o: Oracle, w: World, mem: Memory, csi: Csi)
    ensures Touches(w, AfterGetAddress(o, w, mem, csi).w, {AddressKey(csi)})
  {
    hide Touches, AfterLookup;
    var t, mine := Tick(o, w), {AddressKey(csi)};
    Lookup(o, w, mem, csi);
    Lookup(o, t, mem, csi);
    AfterNothing(w, t, AfterLookup(o, t, mem, csi).w, mine);
    Nothing(w, t);
    Wider(w, t, {}, mine);
  }

  lemma {:induction false} AddressRetries(o: Oracle, w: World, mem: Memory, csi: Csi, left: nat)
    ensures Touches(w, AfterAddressRetries(o, w, mem, csi, left).w, {AddressKey(csi)})
    decreases left
  {
    hide Touches, AfterGetAddress;
    var mine := {AddressKey(csi)};
    if left == 0 {
      Nothing(w, w);
      Wider(w, w, {}, mine);
    } else {
      var a := AfterGetAddress(o, w, mem, csi);
      GetAddress(o, w, mem, csi);
      if a.ip.None? {
        var rest := AfterAddressRetries(o, Wait(a.w), a.mem.(ip := ""), csi, left - 1);
        AddressRetries(o, Wait(a.w), a.mem.(ip := ""), csi, left - 1);
        AfterNothing(a.w, Wait(a.w), rest.w, mine);
        Then(w, a.w, rest.w, mine, mine);
        assert mine + mine == mine;
      }
    }
  }

  // ----- OpenShift -----

  function OpenShiftRealm(csi: Csi, secondary: bool): set<Key> {
    {AddressKey(csi), OpenShiftMapKey(secondary), SCHEDULER_KEY, SECONDARY_KEY}
  }

  lemma {:induction false} PatchOpenShift(o: Oracle, w: World, mem: Memory, csi: Csi, secondary: bool)
    ensures Touches(w, AfterPatchOpenShift(o, w, mem, csi, secondary).w, OpenShiftRealm(csi, secondary))
  {
    hide Touches, AfterAddressRetries, AfterApplyConfigMap, AfterPatchEither;
    var realm, mine, cm := OpenShiftRealm(csi, secondary), {AddressKey(csi)}, {OpenShiftMapKey(secondary)};
    var a := if secondary then AfterAddressRetries(o, w, mem, csi, ADDRESS_RETRIES) else AddressStep(w, mem, Some(""));
    AddressRetries(o, w, mem, csi, ADDRESS_RETRIES);
    Nothing(w, w);
    Wider(w, w, {}, mine);
    assert Touches(w, a.w, mine);
    Wider(w, a.w, mine, realm);
    if a.ip.Some? {
      var data := if secondary then SecondaryData(a.ip.value, csi) else PolicyData(csi);
      var c := AfterApplyConfigMap(o, a.w, OpenShiftMapKey(secondary), data);
      ApplyMap(o, a.w, OpenShiftMapKey(secondary), data);
      Then(w, a.w, c.w, mine, cm);
      Wider(w, c.w, mine + cm, realm);
      PatchEither(o, c.w, csi, secondary);
      Then(w, c.w, AfterPatchEither(o, c.w, csi, secondary).w, mine + cm, Schedulers());
      Wider(w, AfterPatchEither(o, c.w, csi, secondary).w, mine + cm + Schedulers(), realm);
    }
  }

  /** Deleting the ConfigMap, then taking the patch out of the scheduler. */
  lemma {:induction false} UnpatchOpenShift(o: Oracle, w: World, mem: Memory, csi: Csi)
    ensures var secondary := AfterUnpatchOpenShift(o, w, mem).mem.secondary;
            Touches(w, AfterUnpatchOpenShift(o, w, mem).w, OpenShiftRealm(csi, secondary))
  {
    hide Touches, AfterDelete, AfterUnpatchEither;
    var m := AfterUseSecondary(o, w, mem, OpenShift);
    var secondary := m.mem.secondary;
    var realm, cm := OpenShiftRealm(csi, secondary), {OpenShiftMapKey(secondary)};
    Nothing(w, m.w);
    Wider(w, m.w, {}, realm);
    if m.mode.Some? {
      assert m.mode.value == secondary;
      var d := AfterDelete(o, m.w, OpenShiftMapKey(secondary));
      DeleteTouches(o, m.w, OpenShiftMapKey(secondary));
      PatchEither(o, d.w, csi, secondary);
      var s := AfterUnpatchEither(o, d.w, secondary);
      Then(m.w, d.w, s.w, cm, Schedulers());
      AfterNothing(w, m.w, s.w, cm + Schedulers());
      Wider(w, s.w, cm + Schedulers(), realm);
    }
  }

  lemma {:induction false} RetryOpenShift(o: Oracle, w: World, mem: Memory, csi: Csi, secondary: bool)
    requires mem.version.Some? && mem.secondary == secondary
    ensures Touches(w, AfterRetryOpenShift(o, w, mem, csi, secondary).w, OpenShiftRealm(csi, secondary))
  {
    hide Touches, AfterUnpatchEither, AfterPatchOpenShift;
    var u, realm := AfterUnpatchOpenShift(o, w, mem), OpenShiftRealm(csi, secondary);
    UnpatchOpenShift(o, w, mem, csi);
    PatchOpenShift(o, u.w, u.mem, csi, secondary);
    if u.ok {
      Then(w, u.w, AfterPatchOpenShift(o, u.w, u.mem, csi, secondary).w, realm, realm);
      assert realm + realm == realm;
    }
  }

  // ----- vanilla -----

  function VanillaRealm(csi: Csi): set<Key> {
    {WatchedKey(csi, false), PatcherKey(csi)}
  }

  lemma {:induction false} ApplySet(o: Oracle, w: World, csi: Csi)
    ensures Touches(w, AfterApplyDaemonSet(o, w, PatcherKey(csi), PatcherSpec(csi)).w, {PatcherKey(csi)})
  {
  }

  lemma {:induction false} CheckReadsOnly(o: Oracle, w: World, csi: Csi)
    ensures var v := AfterPolicyCheck(o, w, csi).w;
            v.objs == w.objs && w.calls <= v.calls && w.clock <= v.clock
  {
    hide Rbac.Joined, Rbac.AnyNamed;
  }

  lemma {:induction false} CheckedSet(o: Oracle, w: World, csi: Csi)
    ensures Touches(w, AfterVanillaDaemonSet(o, w, csi), {PatcherKey(csi)})
  {
    hide Touches, AfterApplyDaemonSet, AfterPolicyCheck;
    var v, ds := AfterPolicyCheck(o, w, csi).w, {PatcherKey(csi)};
    CheckReadsOnly(o, w, csi);
    Nothing(w, v);
    Wider(w, v, {}, ds);
    ApplySet(o, v, csi);
    AfterNothing(w, v, AfterApplyDaemonSet(o, v, PatcherKey(csi), PatcherSpec(csi)).w, ds);
  }

  lemma {:induction false} VanillaTouches(o: Oracle, w: World, csi: Csi)
    ensures Touches(w, AfterVanilla(o, w, csi), VanillaRealm(csi))
  {
    hide Touches, AfterApplyConfigMap, AfterVanillaDaemonSet;
    var cm, ds := {WatchedKey(csi, false)}, {PatcherKey(csi)};
    var c := AfterApplyConfigMap(o, w, WatchedKey(csi, false), csi.vanillaData);
    ApplyMap(o, w, WatchedKey(csi, false), csi.vanillaData);
    Wider(w, c.w, cm, VanillaRealm(csi));
    CheckedSet(o, c.w, csi);
    Then(w, c.w, AfterVanillaDaemonSet(o, c.w, csi), cm, ds);
    assert cm + ds == VanillaRealm(csi);
  }

  lemma {:induction false} RetryVanilla(o: Oracle, w: World, csi: Csi)
    ensures Touches(w, AfterRetryVanilla(o, w, csi).w, VanillaRealm(csi))
  {
    hide Touches, AfterDelete, AfterVanilla;
    var realm, cm, ds := VanillaRealm(csi), {WatchedKey(csi, false)}, {PatcherKey(csi)};
    var d := AfterDelete(o, w, PatcherKey(csi));
    DeleteTouches(o, w, PatcherKey(csi));
    Wider(w, d.w, ds, realm);
    var c := AfterDelete(o, d.w, WatchedKey(csi, false));
    DeleteTouches(o, d.w, WatchedKey(csi, false));
    Then(w, d.w, c.w, ds, cm);
    assert ds + cm == realm;
    VanillaTouches(o, c.w, csi);
    Then(w, c.w, AfterVanilla(o, c.w, csi), realm, realm);
    assert realm + realm == realm;
  }

  // ----- readiness -----

  lemma {:induction false} SecondaryLooks(
    o: Oracle, w: World, csi: Csi, created: int, last: seq<Status>, left: nat)
    ensures var r := AfterSecondaryLooks(o, w, csi, created, last, left).w;
            r.objs == w.objs && w.calls <= r.calls && w.clock <= r.clock
    decreases left
  {
    if left > 0 {
      var s := AfterStatuses(o, w, csi, true, created);
      if s.statuses.Some? { SecondaryLooks(o, Wait(s.w), csi, created, s.statuses.value, left - 1); }
    }
  }

  lemma {:induction false} DecisionTouches(o: Oracle, w: World, csi: Csi, secondary: bool)
    ensures Touches(w, AfterDecision(o, w, csi, secondary).w, {ReadinessKey(csi)})
  {
    hide Touches, AfterSecondaryLooks, AfterApplyConfigMap, Yaml, Ages;
    var g, d := AfterGet(o, w, WatchedKey(csi, secondary)), AfterDecision(o, w, csi, secondary);
    Nothing(w, w);
    Wider(w, w, {}, {ReadinessKey(csi)});
    Nothing(w, g.w);
    Wider(w, g.w, {}, {ReadinessKey(csi)});
    if !csi.platform.Unsupported? && g.reply.Found? {
      var created := g.reply.obj.meta.created;
      var s := if secondary then AfterSecondaryStatuses(o, g.w, csi, created, STATUS_RETRIES)
               else AfterStatuses(o, g.w, csi, false, created);
      SecondaryLooks(o, g.w, csi, created, [], STATUS_RETRIES);
      Nothing(w, s.w);
      Wider(w, s.w, {}, {ReadinessKey(csi)});
      if s.statuses.Some? {
        var data := map["nodes.yaml" := Yaml(s.statuses.value)];
        ApplyMap(o, s.w, ReadinessKey(csi), data);
        AfterNothing(w, s.w, AfterApplyConfigMap(o, s.w, ReadinessKey(csi), data).w, {ReadinessKey(csi)});
      }
    }
  }

  // ----- the operations -----

  function Realm(csi: Csi, secondary: bool): set<Key> {
    {ReadinessKey(csi)} + if csi.platform.OpenShift? then OpenShiftRealm(csi, secondary) else VanillaRealm(csi)
  }

  lemma {:induction false} RetryTouches(o: Oracle, w: World, mem: Memory, csi: Csi, secondary: bool)
    requires csi.platform.OpenShift? ==> mem.version.Some? && mem.secondary == secondary
    ensures Touches(w, AfterRetry(o, w, mem, csi, secondary).w, Realm(csi, secondary))
  {
    hide Touches, AfterRetryOpenShift, AfterRetryVanilla;
    if csi.platform.OpenShift? {
      RetryOpenShift(o, w, mem, csi, secondary);
      Wider(w, AfterRetryOpenShift(o, w, mem, csi, secondary).w, OpenShiftRealm(csi, secondary), Realm(csi, secondary));
    } else {
      RetryVanilla(o, w, csi);
      Wider(w, AfterRetryVanilla(o, w, csi).w, VanillaRealm(csi), Realm(csi, secondary));
    }
  }

  lemma {:induction false} ReadinessTouches(o: Oracle, w: World, mem: Memory, csi: Csi, secondary: bool)
    requires csi.platform.OpenShift? ==> mem.version.Some? && mem.secondary == secondary
    ensures Touches(w, AfterReadiness(o, w, mem, csi, secondary).w, Realm(csi, secondary))
  {
    hide Touches, AfterDecision, AfterRetry;
    var d, realm := AfterDecision(o, w, csi, secondary), Realm(csi, secondary);
    DecisionTouches(o, w, csi, secondary);
    Wider(w, d.w, {ReadinessKey(csi)}, realm);
    if d.retry {
      RetryTouches(o, d.w, mem, csi, secondary);
      Then(w, d.w, AfterRetry(o, d.w, mem, csi, secondary).w, realm, realm);
      assert realm + realm == realm;
    }
  }

  lemma {:induction false} PatchTouches(o: Oracle, w: World, mem: Memory, csi: Csi, secondary: bool)
    ensures Touches(w, AfterPatch(o, w, mem, csi, secondary).w, Realm(csi, secondary))
  {
    hide Touches, AfterPatchOpenShift, AfterVanilla;
    if csi.platform.OpenShift? {
      PatchOpenShift(o, w, mem, csi, secondary);
      Wider(w, AfterPatchOpenShift(o, w, mem, csi, secondary).w, OpenShiftRealm(csi, secondary), Realm(csi, secondary));
    } else {
      VanillaTouches(o, w, csi);
      Wider(w, AfterVanilla(o, w, csi), VanillaRealm(csi), Realm(csi, secondary));
    }
  }

  /** The attempts at an address keep the remembered mode. */
  lemma {:induction false} ScanMode(o: Oracle, w: World, mem: Memory, csi: Csi, pods: seq<Item>, i: nat)
    requires i <= |pods|
    ensures AfterScan(o, w, mem, csi, pods, i).mem.(ip := mem.ip) == mem
    decreases |pods| - i
  {
    hide AfterApplyConfigMap;
    if i < |pods| {
      ScanMode(o, w, mem, csi, pods, i + 1);
      ScanMode(o, Tick(o, w), mem, csi, pods, i + 1);
    }
  }

  lemma {:induction false} AddressMode(o: Oracle, w: World, mem: Memory, csi: Csi)
    ensures AfterGetAddress(o, w, mem, csi).mem.(ip := mem.ip) == mem
  {
    hide AfterScan;
    forall v: World, pods: seq<Item> ensures AfterScan(o, v, mem, csi, pods, 0).mem.(ip := mem.ip) == mem {
      ScanMode(o, v, mem, csi, pods, 0);
    }
  }

  lemma {:induction false} RetriesMode(o: Oracle, w: World, mem: Memory, csi: Csi, left: nat)
    ensures AfterAddressRetries(o, w, mem, csi, left).mem.(ip := mem.ip) == mem
    decreases left
  {
    hide AfterGetAddress;
    if left > 0 {
      var a := AfterGetAddress(o, w, mem, csi);
      AddressMode(o, w, mem, csi);
      RetriesMode(o, Wait(a.w), a.mem.(ip := ""), csi, left - 1);
    }
  }

  lemma {:induction false} PatchMode(o: Oracle, w: World, mem: Memory, csi: Csi, secondary: bool)
    ensures AfterPatch(o, w, mem, csi, secondary).mem.(ip := mem.ip) == mem
  {
    hide AfterAddressRetries, AfterApplyConfigMap, AfterPatchEither, AfterVanilla;
    RetriesMode(o, w, mem, csi, ADDRESS_RETRIES);
  }

  function Domain(csi: Csi): set<Key> {
    Realm(csi, true) + Realm(csi, false)
  }

  lemma {:induction false} UpdateTouches(o: Oracle, w: World, mem: Memory, csi: Csi)
    ensures Touches(w, AfterPatcherUpdate(o, w, mem, csi).w, Domain(csi))
  {
    hide Touches, AfterPatch, AfterReadiness, Realm;
    var domain := Domain(csi);
    Nothing(w, w);
    Wider(w, w, {}, domain);
    if PatchingEnabled(csi) {
      var m := AfterUseSecondary(o, w, mem, csi.platform);
      Nothing(w, m.w);
      Wider(w, m.w, {}, domain);
      if m.mode.Some? {
        var secondary := m.mode.value;
        var ready := if secondary then m.mem.(pattern := "/filter") else m.mem;
        var p, realm := AfterPatch(o, m.w, ready, csi, secondary), Realm(csi, secondary);
        PatchTouches(o, m.w, ready, csi, secondary);
        PatchMode(o, m.w, ready, csi, secondary);
        AfterNothing(w, m.w, p.w, realm);
        Wider(w, p.w, realm, domain);
        ReadinessTouches(o, p.w, p.mem, csi, secondary);
        Then(w, p.w, AfterReadiness(o, p.w, p.mem, csi, secondary).w, realm, realm);
        Wider(w, AfterReadiness(o, p.w, p.mem, csi, secondary).w, realm + realm, domain);
      }
    }
  }

  lemma {:induction false} UninstallTouches(o: Oracle, w: World, mem: Memory, csi: Csi)
    ensures Touches(w, AfterUninstall(o, w, mem, csi).w, Domain(csi))
  {
    hide Touches, AfterUnpatchOpenShift;
    Nothing(w, w);
    Wider(w, w, {}, Domain(csi));
    if PatchingEnabled(csi) && csi.platform.OpenShift? {
      UnpatchOpenShift(o, w, mem, csi);
      var u := AfterUnpatchOpenShift(o, w, mem);
      Wider(w, u.w, OpenShiftRealm(csi, u.mem.secondary), Domain(csi));
    }
  }

  // ----- schedulers of others, and our own -----

  /** Patching an unpatched scheduler and unpatching it again gives it back as it was. */
  lemma {:induction false} PatchThenUnpatchRestores(o: Oracle, w: World, between: World)
    requires SCHEDULER_KEY in w.objs && w.objs[SCHEDULER_KEY].spec == SchedulerSpec("")
    requires !w.objs[SCHEDULER_KEY].meta.deleting
    requires AfterPatchScheduler(o, w).ok
    requires Same(AfterPatchScheduler(o, w).w.objs, between.objs, SCHEDULER_KEY)
    requires AfterUnpatchScheduler(o, between).ok
    ensures Policy(between.objs[SCHEDULER_KEY]) == POLICY_MAP
    ensures Same(w.objs, AfterUnpatchScheduler(o, between).w.objs, SCHEDULER_KEY)
  {
  }

  /** Patching succeeds only on a scheduler that ends up with our policy. */
  lemma {:induction false} PatchedMeansOurs(o: Oracle, w: World)
    requires NotMarked(w.objs, SCHEDULER_KEY) && AfterPatchScheduler(o, w).ok
    ensures SCHEDULER_KEY in AfterPatchScheduler(o, w).w.objs
    ensures Policy(AfterPatchScheduler(o, w).w.objs[SCHEDULER_KEY]) == POLICY_MAP
    ensures !Foreign(w.objs, SCHEDULER_KEY)
  {
  }
}
