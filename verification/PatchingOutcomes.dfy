/** What a successful patch or unpatch leaves behind. */
module PatchingOutcomes {
  import opened Api
  import opened Updates
  import opened Patching
  import opened PatchingEffects
  import opened PatchingRuns
  import Rbac

  // ----- OpenShift -----

  /** Our configuration is stored and the scheduler in use refers to it. */
  predicate Patched(objs: Store, csi: Csi, secondary: bool, data: map<string, string>) {
    && OpenShiftMapKey(secondary) in objs && Data(objs[OpenShiftMapKey(secondary)]) == data
    && if secondary then SECONDARY_KEY in objs && objs[SECONDARY_KEY].spec == SecondarySpec(SECONDARY_MAP, csi.image)
       else SCHEDULER_KEY in objs && Policy(objs[SCHEDULER_KEY]) == POLICY_MAP
  }

  /** Nobody has patched this scheduler yet. */
  predicate Pristine(objs: Store, secondary: bool) {
    OpenShiftMapKey(secondary) !in objs && PristineScheduler(objs, secondary)
  }

  predicate PristineScheduler(objs: Store, secondary: bool) {
    if secondary then SECONDARY_KEY !in objs
    else SCHEDULER_KEY in objs && objs[SCHEDULER_KEY].spec == SchedulerSpec("") && !objs[SCHEDULER_KEY].meta.deleting
  }

  function DataFor(csi: Csi, secondary: bool, ip: string): map<string, string> {
    if secondary then SecondaryData(ip, csi) else PolicyData(csi)
  }

  function AddressFor(o: Oracle, w: World, mem: Memory, csi: Csi, secondary: bool): AddressStep {
    if secondary then AfterAddressRetries(o, w, mem, csi, ADDRESS_RETRIES) else AddressStep(w, mem, Some(""))
  }

  /** A patch in three steps: the address, the ConfigMap, the scheduler. */
  lemma {:induction false} PatchSteps(o: Oracle, w: World, mem: Memory, csi: Csi, secondary: bool)
    returns (a: AddressStep, c: Step)
    requires AfterPatchOpenShift(o, w, mem, csi, secondary).ok
    ensures a == AddressFor(o, w, mem, csi, secondary) && a.ip.Some?
    ensures c == AfterApplyConfigMap(o, a.w, OpenShiftMapKey(secondary), DataFor(csi, secondary, a.ip.value)) && c.ok
    ensures var s := AfterPatchEither(o, c.w, csi, secondary);
            s.ok && s.w == AfterPatchOpenShift(o, w, mem, csi, secondary).w
    ensures forall k {:trigger Same(w.objs, a.w.objs, k)} :: k != AddressKey(csi) ==> Same(w.objs, a.w.objs, k)
  {
    hide AfterAddressRetries, AfterApplyConfigMap, AfterPatchEither;
    a := AddressFor(o, w, mem, csi, secondary);
    c := AfterApplyConfigMap(o, a.w, OpenShiftMapKey(secondary), DataFor(csi, secondary, a.ip.value));
    AddressRetries(o, w, mem, csi, ADDRESS_RETRIES);
  }

  lemma {:induction false} EitherPatched(o: Oracle, w: World, csi: Csi, secondary: bool)
    requires AfterPatchEither(o, w, csi, secondary).ok
    requires NotMarked(w.objs, SCHEDULER_KEY) && NotMarked(w.objs, SECONDARY_KEY)
    ensures var r := AfterPatchEither(o, w, csi, secondary).w.objs;
            if secondary then SECONDARY_KEY in r && r[SECONDARY_KEY].spec == SecondarySpec(SECONDARY_MAP, csi.image)
            else SCHEDULER_KEY in r && Policy(r[SCHEDULER_KEY]) == POLICY_MAP
  {
  }

  /** Success of a patch means that configuration and scheduler are in place. */
  lemma {:induction false} PatchSucceeds(o: Oracle, w: World, mem: Memory, csi: Csi, secondary: bool)
    requires AfterPatchOpenShift(o, w, mem, csi, secondary).ok
    requires NotMarked(w.objs, OpenShiftMapKey(secondary))
    requires NotMarked(w.objs, SCHEDULER_KEY) && NotMarked(w.objs, SECONDARY_KEY)
    ensures var a := AddressFor(o, w, mem, csi, secondary);
            a.ip.Some? && Patched(AfterPatchOpenShift(o, w, mem, csi, secondary).w.objs, csi, secondary,
                                  DataFor(csi, secondary, a.ip.value))
  {
    hide AfterPatchOpenShift, AfterApplyConfigMap, AfterPatchEither, AddressFor;
    var a, c := PatchSteps(o, w, mem, csi, secondary);
    var key := OpenShiftMapKey(secondary);
    assert Same(w.objs, a.w.objs, key);
    assert Same(w.objs, a.w.objs, SCHEDULER_KEY) && Same(w.objs, a.w.objs, SECONDARY_KEY);
    ApplyConfigMapEffect(o, a.w, key, DataFor(csi, secondary, a.ip.value));
    assert Same(a.w.objs, c.w.objs, SCHEDULER_KEY) && Same(a.w.objs, c.w.objs, SECONDARY_KEY);
    EitherPatched(o, c.w, csi, secondary);
    PatchEither(o, c.w, csi, secondary);
    assert Same(c.w.objs, AfterPatchEither(o, c.w, csi, secondary).w.objs, key);
  }

  /** Patching and unpatching one after the other. */
  lemma {:induction false} EitherRestored(o: Oracle, w: World, v: World, csi: Csi, secondary: bool)
    requires PristineScheduler(w.objs, secondary) && AfterPatchEither(o, w, csi, secondary).ok
    requires forall k {:trigger Same(AfterPatchEither(o, w, csi, secondary).w.objs, v.objs, k)} ::
               k != OpenShiftMapKey(secondary) ==> Same(AfterPatchEither(o, w, csi, secondary).w.objs, v.objs, k)
    requires AfterUnpatchEither(o, v, secondary).ok
    ensures forall k {:trigger Same(w.objs, AfterUnpatchEither(o, v, secondary).w.objs, k)} ::
              k != OpenShiftMapKey(secondary) ==> Same(w.objs, AfterUnpatchEither(o, v, secondary).w.objs, k)
  {
    var p, u := AfterPatchEither(o, w, csi, secondary), AfterUnpatchEither(o, v, secondary);
    var key := if secondary then SECONDARY_KEY else SCHEDULER_KEY;
    assert Same(p.w.objs, v.objs, key);
    forall k | k != OpenShiftMapKey(secondary) ensures Same(w.objs, u.w.objs, k) {
      assert Same(p.w.objs, v.objs, k);
      assert k != key ==> Same(w.objs, p.w.objs, k) && Same(v.objs, u.w.objs, k);
    }
  }

  lemma {:induction false} FreshMapGoes(
    o: Oracle, w: World, c: Step, between: World, secondary: bool, data: map<string, string>)
    requires OpenShiftMapKey(secondary) !in w.objs
    requires c == AfterApplyConfigMap(o, w, OpenShiftMapKey(secondary), data) && c.ok
    requires Same(c.w.objs, between.objs, OpenShiftMapKey(secondary))
    requires AfterDelete(o, between, OpenShiftMapKey(secondary)).ok
    ensures OpenShiftMapKey(secondary) !in AfterDelete(o, between, OpenShiftMapKey(secondary)).w.objs
  {
  }

  /** Unpatching right after patching gives back every object of the store, but for the
      ConfigMap that caches the extender's address. */
  lemma {:induction false} PatchUnpatchRoundTrip(
    o: Oracle, w: World, mem: Memory, csi: Csi, secondary: bool, between: World, other: Memory)
    requires Pristine(w.objs, secondary)
    requires AfterPatchOpenShift(o, w, mem, csi, secondary).ok
    requires between.objs == AfterPatchOpenShift(o, w, mem, csi, secondary).w.objs
    requires var u := AfterUnpatchOpenShift(o, between, other); u.ok && u.mem.secondary == secondary
    ensures forall k {:trigger Same(w.objs, AfterUnpatchOpenShift(o, between, other).w.objs, k)} ::
              k != AddressKey(csi) ==> Same(w.objs, AfterUnpatchOpenShift(o, between, other).w.objs, k)
  {
    hide AfterPatchOpenShift, AfterApplyConfigMap, AfterPatchEither, AfterUnpatchEither, AfterDelete;
    hide AddressFor, DataFor, Foreign;
    var a, c := PatchSteps(o, w, mem, csi, secondary);
    var key := OpenShiftMapKey(secondary);
    assert Same(w.objs, a.w.objs, key);
    assert Same(w.objs, a.w.objs, SCHEDULER_KEY) && Same(w.objs, a.w.objs, SECONDARY_KEY);
    ApplyMap(o, a.w, key, DataFor(csi, secondary, a.ip.value));
    assert Same(a.w.objs, c.w.objs, SCHEDULER_KEY) && Same(a.w.objs, c.w.objs, SECONDARY_KEY);
    var p := AfterPatchEither(o, c.w, csi, secondary);
    PatchEither(o, c.w, csi, secondary);
    assert Same(c.w.objs, p.w.objs, key);
    var m := AfterUseSecondary(o, between, other, OpenShift);
    var d := AfterDelete(o, m.w, key);
    DeleteTouches(o, m.w, key);
    FreshMapGoes(o, a.w, c, m.w, secondary, DataFor(csi, secondary, a.ip.value));
    EitherRestored(o, c.w, d.w, csi, secondary);
    var u := AfterUnpatchEither(o, d.w, secondary);
    PatchEither(o, d.w, csi, secondary);
    assert Same(d.w.objs, u.w.objs, key);
    forall k | k != AddressKey(csi) ensures Same(w.objs, u.w.objs, k) {
      assert k != key ==> Same(w.objs, a.w.objs, k) && Same(a.w.objs, c.w.objs, k) && Same(c.w.objs, u.w.objs, k);
    }
  }

  /** Success of an unpatch means that our ConfigMap has been deleted and no scheduler
      refers to it any more; objects with finalizers may linger under deletion. */
  lemma {:induction false} UnpatchSucceeds(o: Oracle, w: World, mem: Memory)
    requires AfterUnpatchOpenShift(o, w, mem).ok && NotMarked(w.objs, SCHEDULER_KEY)
    ensures var u := AfterUnpatchOpenShift(o, w, mem);
            var key := OpenShiftMapKey(u.mem.secondary);
            && (key in u.w.objs ==> u.w.objs[key].meta.deleting)
            && if u.mem.secondary then
                 SECONDARY_KEY in u.w.objs && Config(u.w.objs[SECONDARY_KEY]) == SECONDARY_MAP ==>
                   u.w.objs[SECONDARY_KEY].meta.deleting
               else SCHEDULER_KEY in u.w.objs && Policy(u.w.objs[SCHEDULER_KEY]) == ""
  {
    hide AfterUnpatchScheduler, AfterUnpatchSecondary;
    var m := AfterUseSecondary(o, w, mem, OpenShift);
    var d := AfterDelete(o, m.w, OpenShiftMapKey(m.mode.value));
    EitherUnpatched(o, d.w, m.mode.value);
    PatchEitherKeeps(o, d.w, m.mode.value);
  }

  lemma {:induction false} PatchEitherKeeps(o: Oracle, w: World, secondary: bool)
    ensures Same(w.objs, AfterUnpatchEither(o, w, secondary).w.objs, OpenShiftMapKey(secondary))
  {
    hide AfterUnpatchScheduler, AfterUnpatchSecondary;
    UnpatchScheduler(o, w);
    UnpatchSecondary(o, w);
  }

  lemma {:induction false} EitherUnpatched(o: Oracle, w: World, secondary: bool)
    requires AfterUnpatchEither(o, w, secondary).ok && NotMarked(w.objs, SCHEDULER_KEY)
    ensures var r := AfterUnpatchEither(o, w, secondary).w.objs;
            if secondary then
              SECONDARY_KEY in r && Config(r[SECONDARY_KEY]) == SECONDARY_MAP ==> r[SECONDARY_KEY].meta.deleting
            else SCHEDULER_KEY in r && Policy(r[SCHEDULER_KEY]) == ""
  {
  }

  // ----- OpenShift without faults -----

  /** Whether a patch of the scheduler can succeed: nobody else has configured it. */
  predicate Patchable(objs: Store, secondary: bool) {
    if secondary then SECONDARY_KEY in objs ==> Config(objs[SECONDARY_KEY]) == SECONDARY_MAP
    else SCHEDULER_KEY in objs && (Policy(objs[SCHEDULER_KEY]) == "" || Policy(objs[SCHEDULER_KEY]) == POLICY_MAP)
  }

  /** Whether an unpatch reports success: the secondary scheduler exists, ours or not, and
      the cluster scheduler is not configured by somebody else. */
  predicate Unpatchable(objs: Store, secondary: bool) {
    if secondary then SECONDARY_KEY in objs else Patchable(objs, false)
  }

  lemma {:induction false} QuietEither(o: Oracle, w: World, csi: Csi, secondary: bool)
    requires Quiet(o, w.calls)
    ensures AfterPatchEither(o, w, csi, secondary).ok <==> Patchable(w.objs, secondary)
    ensures AfterUnpatchEither(o, w, secondary).ok <==> Unpatchable(w.objs, secondary)
  {
    var key := if secondary then SECONDARY_KEY else SCHEDULER_KEY;
    assert o.fault(w.calls, GetVerb, key) == NoFault;
    assert o.fault(w.calls + 1, CreateVerb, key) == NoFault;
    assert o.fault(w.calls + 1, UpdateVerb, key) == NoFault;
    assert o.fault(w.calls + 1, DeleteVerb, key) == NoFault;
  }

  /** Without faults a missing secondary scheduler is created with our config and image, one
      of ours gets our image, and unpatching deletes ours and leaves another alone. */
  lemma {:induction false} QuietSecondary(o: Oracle, w: World, csi: Csi)
    requires Quiet(o, w.calls) && NotMarked(w.objs, SECONDARY_KEY)
    ensures var r := AfterPatchSecondary(o, w, csi).w.objs;
            if SECONDARY_KEY in w.objs && Config(w.objs[SECONDARY_KEY]) != SECONDARY_MAP then r == w.objs
            else SECONDARY_KEY in r
                 && r[SECONDARY_KEY].spec == SecondarySpec("csi-baremetal-scheduler-config", csi.image)
    ensures var r := AfterUnpatchSecondary(o, w).w.objs;
            if SECONDARY_KEY in w.objs && Config(w.objs[SECONDARY_KEY]) == SECONDARY_MAP then
              if w.objs[SECONDARY_KEY].meta.finalizers == [] then SECONDARY_KEY !in r
              else SECONDARY_KEY in r && r[SECONDARY_KEY].meta.deleting
            else r == w.objs
  {
    assert o.fault(w.calls, GetVerb, SECONDARY_KEY) == NoFault;
    assert o.fault(w.calls + 1, CreateVerb, SECONDARY_KEY) == NoFault;
    assert o.fault(w.calls + 1, UpdateVerb, SECONDARY_KEY) == NoFault;
    assert o.fault(w.calls + 1, DeleteVerb, SECONDARY_KEY) == NoFault;
  }

  /** Without faults, once an address has been found, a patch succeeds exactly when nobody
      else has configured the scheduler. */
  lemma {:induction false} QuietPatch(o: Oracle, w: World, mem: Memory, csi: Csi, secondary: bool)
    requires Quiet(o, w.calls) && AddressFor(o, w, mem, csi, secondary).ip.Some?
    ensures AfterPatchOpenShift(o, w, mem, csi, secondary).ok <==> Patchable(w.objs, secondary)
  {
    hide AfterAddressRetries, AfterApplyConfigMap, AfterPatchEither;
    var a := AddressFor(o, w, mem, csi, secondary);
    AddressRetries(o, w, mem, csi, ADDRESS_RETRIES);
    assert w.calls <= a.w.calls;
    assert Same(w.objs, a.w.objs, SCHEDULER_KEY) && Same(w.objs, a.w.objs, SECONDARY_KEY);
    var key, data := OpenShiftMapKey(secondary), DataFor(csi, secondary, a.ip.value);
    var c := AfterApplyConfigMap(o, a.w, key, data);
    ApplyConfigMapEffect(o, a.w, key, data);
    QuietMapApplies(o, a.w, key, data);
    assert Same(a.w.objs, c.w.objs, SCHEDULER_KEY) && Same(a.w.objs, c.w.objs, SECONDARY_KEY);
    QuietEither(o, c.w, csi, secondary);
  }

  /** Without faults an unpatch succeeds exactly when the version is known, our ConfigMap
      is there and the scheduler can be unpatched. */
  lemma {:induction false} QuietUnpatch(o: Oracle, w: World, mem: Memory)
    requires Quiet(o, w.calls)
    ensures var m, u := AfterUseSecondary(o, w, mem, OpenShift), AfterUnpatchOpenShift(o, w, mem);
            u.ok <==> m.mode.Some? && OpenShiftMapKey(m.mode.value) in w.objs && Unpatchable(w.objs, m.mode.value)
  {
    hide AfterUnpatchEither;
    var m := AfterUseSecondary(o, w, mem, OpenShift);
    if m.mode.Some? {
      var key := OpenShiftMapKey(m.mode.value);
      assert o.fault(m.w.calls, DeleteVerb, key) == NoFault;
      var d := AfterDelete(o, m.w, key);
      assert Same(m.w.objs, d.w.objs, SCHEDULER_KEY) && Same(m.w.objs, d.w.objs, SECONDARY_KEY);
      QuietEither(o, d.w, NO_CSI, m.mode.value);
    }
  }

  const NO_CSI := Csi("", OpenShift, true, "", 0, "", "", map[], "", None)

  /** Uninstalling on OpenShift is unpatching, elsewhere, or when disabled, nothing. */
  lemma {:induction false} UninstallUnpatches(o: Oracle, w: World, mem: Memory, csi: Csi)
    ensures csi.enabled && csi.platform.OpenShift? && NotMarked(w.objs, SCHEDULER_KEY) && Quiet(o, w.calls) ==>
              var m, u := AfterUseSecondary(o, w, mem, OpenShift), AfterUninstall(o, w, mem, csi);
              && (u.ok <==>
                    && m.mode.Some? && OpenShiftMapKey(m.mode.value) in w.objs
                    && Unpatchable(w.objs, m.mode.value))
              && (m.mode.Some? && OpenShiftMapKey(m.mode.value) in u.w.objs ==>
                    u.w.objs[OpenShiftMapKey(m.mode.value)].meta.deleting)
              && (u.ok && m.mode == Some(false) ==>
                    SCHEDULER_KEY in u.w.objs && Policy(u.w.objs[SCHEDULER_KEY]) == "")
    ensures !csi.enabled || !csi.platform.OpenShift? ==> AfterUninstall(o, w, mem, csi) == PStep(w, mem, true)
  {
    hide AfterUnpatchOpenShift;
    if csi.enabled && csi.platform.OpenShift? && NotMarked(w.objs, SCHEDULER_KEY) && Quiet(o, w.calls) {
      QuietUnpatch(o, w, mem);
      UnpatchDeletesMap(o, w, mem);
      if AfterUnpatchOpenShift(o, w, mem).ok {
        UnpatchSucceeds(o, w, mem);
        UnpatchMode(o, w, mem);
      }
    }
  }

  lemma {:induction false} UnpatchMode(o: Oracle, w: World, mem: Memory)
    ensures AfterUnpatchOpenShift(o, w, mem).mem == AfterUseSecondary(o, w, mem, OpenShift).mem
    ensures var m := AfterUseSecondary(o, w, mem, OpenShift); m.mode.Some? ==> m.mode.value == m.mem.secondary
  {
    hide AfterUnpatchEither, AfterDelete;
  }

  /** The ConfigMap goes even if the scheduler cannot be unpatched. */
  lemma {:induction false} UnpatchDeletesMap(o: Oracle, w: World, mem: Memory)
    requires Quiet(o, w.calls)
    ensures var m, r := AfterUseSecondary(o, w, mem, OpenShift), AfterUnpatchOpenShift(o, w, mem).w.objs;
            m.mode.Some? && OpenShiftMapKey(m.mode.value) in r ==> r[OpenShiftMapKey(m.mode.value)].meta.deleting
  {
    hide AfterUnpatchEither;
    var m := AfterUseSecondary(o, w, mem, OpenShift);
    if m.mode.Some? {
      var key := OpenShiftMapKey(m.mode.value);
      assert o.fault(m.w.calls, DeleteVerb, key) == NoFault;
      PatchEitherKeeps(o, AfterDelete(o, m.w, key).w, m.mode.value);
    }
  }

  lemma {:induction false} OursIsDeleted(o: Oracle, w: World)
    requires Quiet(o, w.calls) && SECONDARY_KEY in w.objs && Config(w.objs[SECONDARY_KEY]) == SECONDARY_MAP
    ensures var r := AfterUnpatchEither(o, w, true).w.objs; SECONDARY_KEY in r ==> r[SECONDARY_KEY].meta.deleting
  {
    assert o.fault(w.calls, GetVerb, SECONDARY_KEY) == NoFault;
    assert o.fault(w.calls + 1, DeleteVerb, SECONDARY_KEY) == NoFault;
  }

  /** Without faults an unpatch frees the scheduler even if the ConfigMap is not there. */
  lemma {:induction false} UnpatchFreesAnyway(o: Oracle, w: World, mem: Memory)
    requires Quiet(o, w.calls) && NotMarked(w.objs, SCHEDULER_KEY)
    ensures var m, r := AfterUseSecondary(o, w, mem, OpenShift), AfterUnpatchOpenShift(o, w, mem).w.objs;
            && (m.mode == Some(false) && SCHEDULER_KEY in w.objs && Policy(w.objs[SCHEDULER_KEY]) == POLICY_MAP ==>
                  SCHEDULER_KEY in r && Policy(r[SCHEDULER_KEY]) == "")
            && (m.mode == Some(true) && SECONDARY_KEY in w.objs && Config(w.objs[SECONDARY_KEY]) == SECONDARY_MAP ==>
                  SECONDARY_KEY in r ==> r[SECONDARY_KEY].meta.deleting)
  {
    hide AfterUnpatchEither;
    var m := AfterUseSecondary(o, w, mem, OpenShift);
    if m.mode.Some? {
      var d := AfterDelete(o, m.w, OpenShiftMapKey(m.mode.value));
      assert Same(w.objs, d.w.objs, SCHEDULER_KEY) && Same(w.objs, d.w.objs, SECONDARY_KEY);
      QuietEither(o, d.w, NO_CSI, m.mode.value);
      if Unpatchable(d.w.objs, m.mode.value) { EitherUnpatched(o, d.w, m.mode.value); }
      if SECONDARY_KEY in w.objs && Config(w.objs[SECONDARY_KEY]) == SECONDARY_MAP { OursIsDeleted(o, d.w); }
    }
  }

  /** Whatever fails, a scheduler is changed only when the ConfigMap it will refer to has
      been stored. */
  lemma {:induction false} SchedulerFollowsMap(o: Oracle, w: World, mem: Memory, csi: Csi, secondary: bool, key: Key)
    requires key in Schedulers() && NotMarked(w.objs, OpenShiftMapKey(secondary))
    requires !Same(w.objs, AfterPatchOpenShift(o, w, mem, csi, secondary).w.objs, key)
    ensures var a, r := AddressFor(o, w, mem, csi, secondary), AfterPatchOpenShift(o, w, mem, csi, secondary).w.objs;
            && a.ip.Some? && OpenShiftMapKey(secondary) in r
            && Data(r[OpenShiftMapKey(secondary)]) == DataFor(csi, secondary, a.ip.value)
  {
    hide AfterAddressRetries, AfterApplyConfigMap, AfterPatchEither, DataFor, Foreign;
    var a := AddressFor(o, w, mem, csi, secondary);
    AddressRetries(o, w, mem, csi, ADDRESS_RETRIES);
    assert Same(w.objs, a.w.objs, SCHEDULER_KEY) && Same(w.objs, a.w.objs, SECONDARY_KEY);
    if a.ip.Some? {
      var map_, data := OpenShiftMapKey(secondary), DataFor(csi, secondary, a.ip.value);
      DataIs(csi, secondary, a.ip.value);
      assert Same(w.objs, a.w.objs, map_);
      var c := AfterApplyConfigMap(o, a.w, map_, data);
      ApplyConfigMapEffect(o, a.w, map_, data);
      assert Same(a.w.objs, c.w.objs, SCHEDULER_KEY) && Same(a.w.objs, c.w.objs, SECONDARY_KEY);
      PatchEither(o, c.w, csi, secondary);
      assert Same(c.w.objs, AfterPatchEither(o, c.w, csi, secondary).w.objs, map_);
    }
  }

  lemma {:induction false} DataIs(csi: Csi, secondary: bool, ip: string)
    ensures DataFor(csi, secondary, ip) == if secondary then SecondaryData(ip, csi) else PolicyData(csi)
  {
  }

  /** A retry on OpenShift whose unpatch reports an error does not patch again. */
  lemma {:induction false} FailedUnpatchEndsRetry(o: Oracle, w: World, mem: Memory, csi: Csi, secondary: bool)
    requires !AfterUnpatchOpenShift(o, w, mem).ok
    ensures AfterRetryOpenShift(o, w, mem, csi, secondary) == AfterUnpatchOpenShift(o, w, mem)
  {
    hide AfterUnpatchOpenShift, AfterPatchOpenShift;
  }

  /** Without patching enabled, or while the version is unknown, an update writes nothing. */
  lemma {:induction false} UpdateWaits(o: Oracle, w: World, mem: Memory, csi: Csi)
    ensures !csi.enabled || csi.platform.Unsupported? ==> AfterPatcherUpdate(o, w, mem, csi) == PStep(w, mem, true)
    ensures PatchingEnabled(csi) && csi.platform.OpenShift? && mem.version.None? && o.version(w.calls).None? ==>
              AfterPatcherUpdate(o, w, mem, csi) == PStep(Tick(o, w), mem, false)
  {
    hide AfterPatch, AfterReadiness;
  }

  /** An update reports no error only after its patch and its readiness pass both did not;
      a failed patch is not followed by a readiness pass. */
  lemma {:induction false} UpdateSteps(o: Oracle, w: World, mem: Memory, csi: Csi)
    requires PatchingEnabled(csi) && AfterUseSecondary(o, w, mem, csi.platform).mode.Some?
    ensures var m := AfterUseSecondary(o, w, mem, csi.platform);
            var ready := if m.mode.value then m.mem.(pattern := "/filter") else m.mem;
            var p, u := AfterPatch(o, m.w, ready, csi, m.mode.value), AfterPatcherUpdate(o, w, mem, csi);
            var d := AfterDecision(o, p.w, csi, m.mode.value);
            && (u.ok ==> p.ok && d.ok)
            && (!p.ok ==> u.w == p.w)
            && (p.ok && !d.retry ==> u.w == d.w && u.ok == d.ok)
  {
    hide AfterPatch, AfterStatuses, AfterSecondaryLooks, AfterApplyConfigMap, AfterRetry, Yaml;
  }

  // ----- which scheduler, which data -----

  /** From Kubernetes 1.23 on the secondary scheduler is used; the version is asked for only
      on OpenShift and only while it is unknown. */
  lemma {:induction false} ModeOfVersion(o: Oracle, w: World, mem: Memory, platform: Platform)
    ensures var m := AfterUseSecondary(o, w, mem, platform);
            if platform.OpenShift? && mem.version.None? then
              match o.version(w.calls)
              case None => m == ModeStep(Tick(o, w), mem, None)
              case Some(v) =>
                m.w == Tick(o, w) && m.mem.version == Some(v) && m.mode == Some(m.mem.secondary)
                && (m.mem.secondary <==> v.major >= 1 && v.minor >= 23)
            else m == ModeStep(w, mem, Some(mem.secondary))
  {
  }

  /** Different addresses give different configurations. */
  lemma {:induction false} SecondaryDataTells(csi: Csi, a: string, b: string)
    requires SecondaryData(a, csi) == SecondaryData(b, csi)
    ensures a == b
  {
    var s, t := "http://" + a + ":" + csi.extenderPort, "http://" + b + ":" + csi.extenderPort;
    assert SecondaryData(a, csi)["config.yaml"] == s && SecondaryData(b, csi)["config.yaml"] == t;
    assert |s| == 7 + |a| + 1 + |csi.extenderPort| && |t| == 7 + |b| + 1 + |csi.extenderPort|;
    assert a == s[7..7 + |a|] && b == t[7..7 + |b|];
  }

  // ----- readiness -----

  /** What a readiness pass without an error has stored: the statuses of the listed
      scheduler pods, or for the secondary scheduler one restarted status for each master;
      and it decides to retry exactly when one of them is not ready and the timeout since
      the creation of the watched ConfigMap has passed. */
  lemma {:induction false} ReadinessStored(o: Oracle, w: World, csi: Csi, secondary: bool)
    returns (items: seq<Item>, statuses: seq<Status>)
    requires AfterDecision(o, w, csi, secondary).ok && NotMarked(w.objs, ReadinessKey(csi))
    ensures WatchedKey(csi, secondary) in w.objs
    ensures Lists(w.objs, if secondary then MASTERS else SchedulerPods(csi, false), items)
    ensures |statuses| == |items|
    ensures !secondary ==> forall i :: 0 <= i < |items| ==>
              statuses[i] == StatusOf(items[i], w.objs[WatchedKey(csi, secondary)].meta.created)
    ensures secondary ==> forall i :: 0 <= i < |items| ==>
              statuses[i].node == items[i].key.name && statuses[i].restarted
    ensures var d := AfterDecision(o, w, csi, secondary);
            && ReadinessKey(csi) in d.w.objs && Data(d.w.objs[ReadinessKey(csi)]) == map["nodes.yaml" := Yaml(statuses)]
            && (d.retry <==>
                  && (exists i :: 0 <= i < |statuses| && !statuses[i].restarted)
                  && w.objs[WatchedKey(csi, secondary)].meta.created < d.w.clock - 60000 * csi.readinessTimeout)
  {
    hide AfterApplyConfigMap, AfterSecondaryLooks, Yaml;
    var g := AfterGet(o, w, WatchedKey(csi, secondary));
    var created := g.reply.obj.meta.created;
    var s := if secondary then AfterSecondaryStatuses(o, g.w, csi, created, STATUS_RETRIES)
             else AfterStatuses(o, g.w, csi, false, created);
    statuses := s.statuses.value;
    if secondary {
      SecondaryLooks(o, g.w, csi, created, [], STATUS_RETRIES);
      items := AfterList(o, AfterSecondaryLooks(o, g.w, csi, created, [], STATUS_RETRIES).w, MASTERS).items;
    } else {
      items := AfterList(o, g.w, SchedulerPods(csi, false)).items;
    }
    ApplyConfigMapEffect(o, s.w, ReadinessKey(csi), map["nodes.yaml" := Yaml(statuses)]);
    assert AllReady(statuses) <==> forall i :: 0 <= i < |statuses| ==> statuses[i].restarted;
  }

  /** Whose pods are watched: kube-scheduler's, or the secondary scheduler's. */
  lemma {:induction false} SchedulerPodsOnFields(csi: Csi, secondary: bool, key: Key, obj: Object)
    ensures var name := if csi.platform.OpenShift? then "app" else "component";
            var value := if secondary then "secondary-scheduler"
                         else if csi.platform.OpenShift? then "openshift-kube-scheduler" else "kube-scheduler";
            (Selects(SchedulerPods(csi, secondary), key, obj) <==>
             key.kind == Pod && name in obj.meta.labels && obj.meta.labels[name] == value)
    ensures Selects(MASTERS, key, obj) <==> key.kind == Host && "node-role.kubernetes.io/master" in obj.meta.labels
  {
  }

  /** The ConfigMap whose age is watched is the one the patch writes, by name. */
  lemma {:induction false} WatchedIsWritten(csi: Csi, secondary: bool)
    ensures csi.platform.OpenShift? ==>
              && WatchedKey(csi, secondary) == OpenShiftMapKey(secondary)
              && OpenShiftMapKey(secondary)
                 == if secondary then
                      Key(ConfigMap, "openshift-secondary-scheduler-operator", "csi-baremetal-scheduler-config")
                    else Key(ConfigMap, "openshift-config", "scheduler-policy")
    ensures !csi.platform.OpenShift? ==> WatchedKey(csi, secondary) == Key(ConfigMap, csi.namespace, csi.configMapName)
  {
  }

  /** A pod counts as restarted when its first container is recorded as running since the
      given time or later, and only then. */
  lemma {:induction false} RestartedOnFields(
    meta: Meta, nodeName: string, owners: seq<string>, phase: string, ip: string, created: int, started: int)
    ensures !Restarted(Object(meta, PodSpec(nodeName, owners, phase, ip, None)), created)
    ensures !Restarted(Object(meta, PodSpec(nodeName, owners, phase, ip, Some(None))), created)
    ensures Restarted(Object(meta, PodSpec(nodeName, owners, phase, ip, Some(Some(started)))), created)
       <==> started >= created
  {
  }

  // ----- vanilla and RKE -----

  /** The scheduler's account is granted what its pod security policy asks for. */
  predicate PolicyGranted(objs: Store, csi: Csi) {
    csi.policyCheck.Some? ==> Rbac.Bound(objs, csi.policyCheck.value)
  }

  lemma {:induction false} CheckDecides(o: Oracle, w: World, csi: Csi)
    ensures AfterPolicyCheck(o, w, csi).verdict.Valid? ==> PolicyGranted(w.objs, csi)
    ensures Quiet(o, w.calls) && PolicyGranted(w.objs, csi) ==> AfterPolicyCheck(o, w, csi).verdict.Valid?
  {
    hide Rbac.Bound, Rbac.Joined, Rbac.AnyNamed;
    if csi.policyCheck.Some? {
      var request := csi.policyCheck.value;
      if Quiet(o, w.calls) {
        assert o.fault(w.calls, ListVerb, Key(RoleBinding, request.namespace, "")) == NoFault;
        assert o.fault(w.calls + 1, ListVerb, Key(Role, request.namespace, "")) == NoFault;
      }
      if !Rbac.AfterValidate(o, w, request).verdict.Failed? { Rbac.ValidIffBound(o, w, request); }
    }
  }

  /** Writing a ConfigMap grants and revokes nothing. */
  lemma {:induction false} GrantKept(a: Store, b: Store, csi: Csi)
    requires OnlyAt(a, b, WatchedKey(csi, false))
    ensures PolicyGranted(a, csi) <==> PolicyGranted(b, csi)
  {
    hide Rbac.Bound;
    assert WatchedKey(csi, false).kind == ConfigMap;
    forall k: Key | k.kind == Role || k.kind == RoleBinding ensures Same(a, b, k) {}
    assert Rbac.GrowsTo(a, b) && Rbac.GrowsTo(b, a);
    if csi.policyCheck.Some? {
      if Rbac.Bound(a, csi.policyCheck.value) { Rbac.BoundIsMonotone(a, b, csi.policyCheck.value); }
      if Rbac.Bound(b, csi.policyCheck.value) { Rbac.BoundIsMonotone(b, a, csi.policyCheck.value); }
    }
  }

  /** Without faults and with the account bound both objects end up as expected; with
      faults, or unbound, the patch still claims to have succeeded. */
  lemma {:induction false} VanillaPatched(o: Oracle, w: World, mem: Memory, csi: Csi)
    requires !csi.platform.OpenShift?
    requires NotMarked(w.objs, WatchedKey(csi, false)) && NotMarked(w.objs, PatcherKey(csi))
    ensures AfterPatch(o, w, mem, csi, false).ok
    ensures Quiet(o, w.calls) && PolicyGranted(w.objs, csi) ==>
              var r := AfterPatch(o, w, mem, csi, false).w.objs;
              && WatchedKey(csi, false) in r && Data(r[WatchedKey(csi, false)]) == csi.vanillaData
              && PatcherKey(csi) in r && r[PatcherKey(csi)].spec == PatcherSpec(csi)
  {
    hide AfterApplyConfigMap, AfterApplyDaemonSet, AfterPolicyCheck, PolicyGranted;
    var key := WatchedKey(csi, false);
    var c := AfterApplyConfigMap(o, w, key, csi.vanillaData);
    var v := AfterPolicyCheck(o, c.w, csi).w;
    ApplyConfigMapEffect(o, w, key, csi.vanillaData);
    assert OnlyAt(w.objs, c.w.objs, key);
    GrantKept(w.objs, c.w.objs, csi);
    CheckReadsOnly(o, c.w, csi);
    CheckDecides(o, c.w, csi);
    ApplyDaemonSetEffect(o, v, PatcherKey(csi), PatcherSpec(csi));
    assert Same(w.objs, c.w.objs, PatcherKey(csi));
    if Quiet(o, w.calls) {
      QuietMapApplies(o, w, key, csi.vanillaData);
      QuietSetApplies(o, v, PatcherKey(csi), PatcherSpec(csi));
      assert Same(v.objs, AfterApplyDaemonSet(o, v, PatcherKey(csi), PatcherSpec(csi)).w.objs, key);
    }
  }

  /** Whatever fails, the patcher's daemonset is written only for a bound account. */
  lemma {:induction false} NoDaemonSetUnlessGranted(o: Oracle, w: World, csi: Csi)
    requires !Same(w.objs, AfterVanilla(o, w, csi).objs, PatcherKey(csi))
    ensures PolicyGranted(w.objs, csi)
  {
    hide AfterApplyConfigMap, AfterApplyDaemonSet, AfterPolicyCheck, PolicyGranted;
    var c := AfterApplyConfigMap(o, w, WatchedKey(csi, false), csi.vanillaData);
    ApplyMap(o, w, WatchedKey(csi, false), csi.vanillaData);
    assert Same(w.objs, c.w.objs, PatcherKey(csi));
    GrantKept(w.objs, c.w.objs, csi);
    CheckReadsOnly(o, c.w, csi);
    CheckDecides(o, c.w, csi);
  }

  predicate InPlace(objs: Store, csi: Csi) {
    PatcherKey(csi) in objs && objs[PatcherKey(csi)].spec == PatcherSpec(csi)
  }

  /** Without faults the claimed success is true exactly when the account is bound or the
      daemonset was in place before. */
  lemma {:induction false} VanillaPatchedIff(o: Oracle, w: World, mem: Memory, csi: Csi)
    requires !csi.platform.OpenShift? && Quiet(o, w.calls)
    requires NotMarked(w.objs, WatchedKey(csi, false)) && NotMarked(w.objs, PatcherKey(csi))
    ensures var r := AfterPatch(o, w, mem, csi, false);
            r.ok && (InPlace(r.w.objs, csi) <==> PolicyGranted(w.objs, csi) || InPlace(w.objs, csi))
  {
    hide PolicyGranted, PatcherSpec, AfterVanilla;
    VanillaPatched(o, w, mem, csi);
    if !PolicyGranted(w.objs, csi) {
      if !Same(w.objs, AfterVanilla(o, w, csi).objs, PatcherKey(csi)) { NoDaemonSetUnlessGranted(o, w, csi); }
    }
  }

  /** In an empty cluster no account is bound, so with the policy enabled the first patch
      claims success and leaves no daemonset behind. */
  lemma {:induction false} UnboundPatchClaimsSuccess(o: Oracle, w: World, mem: Memory, csi: Csi)
    requires !csi.platform.OpenShift? && Quiet(o, w.calls) && w.objs == map[] && csi.policyCheck.Some?
    ensures var r := AfterPatch(o, w, mem, csi, false);
            r.ok && PatcherKey(csi) !in r.w.objs
  {
    hide AfterVanilla;
    assert !PolicyGranted(w.objs, csi);
    if !Same(w.objs, AfterVanilla(o, w, csi).objs, PatcherKey(csi)) { NoDaemonSetUnlessGranted(o, w, csi); }
  }

  /** A refused read of the ConfigMap is swallowed as well: success, and nothing stored. */
  lemma {:induction false} RefusedPatchClaimsSuccess(o: Oracle, w: World, mem: Memory, csi: Csi)
    requires !csi.platform.OpenShift? && o.fault(w.calls, GetVerb, WatchedKey(csi, false)).Refused?
    ensures AfterPatch(o, w, mem, csi, false).ok && AfterPatch(o, w, mem, csi, false).w.objs == w.objs
  {
  }

  /** Whatever fails, the patcher's daemonset is changed only when the ConfigMap it mounts
      has been stored. */
  lemma {:induction false} DaemonSetFollowsMap(o: Oracle, w: World, csi: Csi)
    requires NotMarked(w.objs, WatchedKey(csi, false))
    requires !Same(w.objs, AfterVanilla(o, w, csi).objs, PatcherKey(csi))
    ensures WatchedKey(csi, false) in AfterVanilla(o, w, csi).objs
    ensures Data(AfterVanilla(o, w, csi).objs[WatchedKey(csi, false)]) == csi.vanillaData
  {
    hide AfterApplyConfigMap, AfterVanillaDaemonSet;
    var key := WatchedKey(csi, false);
    var c := AfterApplyConfigMap(o, w, key, csi.vanillaData);
    ApplyConfigMapEffect(o, w, key, csi.vanillaData);
    assert Same(w.objs, c.w.objs, PatcherKey(csi));
    CheckedSet(o, c.w, csi);
    assert Same(c.w.objs, AfterVanillaDaemonSet(o, c.w, csi).objs, key);
  }

  /** A vanilla retry deletes daemonset and ConfigMap in this order, and stops, leaving the
      rest alone, at the first deletion that fails. */
  lemma {:induction false} RetryVanillaStops(o: Oracle, w: World, csi: Csi)
    ensures o.fault(w.calls, DeleteVerb, PatcherKey(csi)) == Refused || PatcherKey(csi) !in w.objs ==>
              !AfterRetryVanilla(o, w, csi).ok && AfterRetryVanilla(o, w, csi).w.objs == w.objs
    ensures PatcherKey(csi) in w.objs && o.fault(w.calls, DeleteVerb, PatcherKey(csi)) == NoFault
            && o.fault(w.calls + 1, DeleteVerb, WatchedKey(csi, false)) == Refused ==>
              && !AfterRetryVanilla(o, w, csi).ok
              && AfterRetryVanilla(o, w, csi).w.objs == Deleted(w.objs, PatcherKey(csi))
  {
    hide AfterVanilla;
  }

  // ----- the remembered mode -----

  lemma {:induction false} RetryMode(o: Oracle, w: World, mem: Memory, csi: Csi, secondary: bool)
    requires mem.version.Some?
    ensures var r := AfterRetry(o, w, mem, csi, secondary).mem; r.version == mem.version && r.secondary == mem.secondary
  {
    hide AfterPatchOpenShift, AfterUnpatchEither, AfterDelete, AfterRetryVanilla;
    if csi.platform.OpenShift? {
      var u := AfterUnpatchOpenShift(o, w, mem);
      assert u.mem == mem;
      PatchMode(o, u.w, u.mem, csi, secondary);
    }
  }

  lemma {:induction false} UpdateMode(o: Oracle, w: World, mem: Memory, csi: Csi)
    requires mem.version.Some?
    ensures var r := AfterPatcherUpdate(o, w, mem, csi).mem; r.version == mem.version && r.secondary == mem.secondary
  {
    hide AfterPatch, AfterDecision, AfterRetry;
    if PatchingEnabled(csi) {
      var ready := if mem.secondary then mem.(pattern := "/filter") else mem;
      var p := AfterPatch(o, w, ready, csi, mem.secondary);
      PatchMode(o, w, ready, csi, mem.secondary);
      RetryMode(o, AfterDecision(o, p.w, csi, mem.secondary).w, p.mem, csi, mem.secondary);
    }
  }

  /** Once the operator process has learnt the Kubernetes version, it treats the scheduler
      the same way until it restarts, whatever the server reports later. */
  lemma {:induction false} ModeIsStable(o: Oracle, csi: Csi, states: seq<State>, events: seq<Event>, i: nat, j: nat)
    requires Run(o, csi, states, events) && i <= j < |states|
    requires forall m :: i <= m < j ==> !events[m].RestartEvent?
    requires states[i].mem.version.Some?
    ensures states[j].mem.version == states[i].mem.version && states[j].mem.secondary == states[i].mem.secondary
    decreases j
  {
    hide AfterPatcherUpdate, AfterUnpatchEither, AfterDelete;
    if i < j {
      ModeIsStable(o, csi, states, events, i, j - 1);
      var a := states[j - 1];
      assert StepOf(o, csi, a, states[j], events[j - 1]);
      UpdateMode(o, a.w, a.mem, csi);
    }
  }
}
