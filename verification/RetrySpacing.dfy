/** How far apart two retries of the patch are, exactly: runs that reach the bound. */
module RetrySpacing {
  import opened Api
  import opened Updates
  import opened Patching
  import opened PatchingEffects
  import opened PatchingRuns
  import opened PatchingOutcomes

  /** No call fails and none takes time. */
  ghost predicate Calm(o: Oracle) {
    Quiet(o, 0) && forall n: nat :: o.delay(n) == 0
  }

  /** Patching on plain Kubernetes, without a pod security policy. */
  predicate Plain(csi: Csi) {
    && PatchingEnabled(csi) && !csi.platform.OpenShift?
    && csi.policyCheck.None?
    && ReadinessKey(csi) != WatchedKey(csi, false)
  }

  predicate Removable(objs: Store, key: Key) {
    key in objs && objs[key].meta.finalizers == [] && !objs[key].meta.deleting
  }

  /** The patch is in place since `created`, and a scheduler pod has never come up. */
  predicate Stuck(objs: Store, csi: Csi, pod: Key, created: int) {
    && Removable(objs, WatchedKey(csi, false)) && Removable(objs, PatcherKey(csi))
    && objs[WatchedKey(csi, false)].meta.created == created
    && Data(objs[WatchedKey(csi, false)]) == csi.vanillaData
    && NeverUp(objs, csi, pod)
  }

  predicate NeverUp(objs: Store, csi: Csi, pod: Key) {
    && pod in objs && Selects(SchedulerPods(csi, false), pod, objs[pod])
    && objs[pod].spec.PodSpec? && objs[pod].spec.started.None?
  }

  lemma {:induction false} CalmCalls(o: Oracle, w: World, key: Key)
    requires Calm(o)
    ensures AfterGet(o, w, key).reply == (if key in w.objs then Found(w.objs[key]) else NotFound)
    ensures Tick(o, w).clock == w.clock
  {
    assert o.fault(w.calls, GetVerb, key) == NoFault;
  }

  /** Applying the patch again changes at most the daemonset's spec. */
  lemma {:induction false} VanillaAgain(o: Oracle, w: World, csi: Csi, pod: Key, created: int)
    requires Calm(o) && Plain(csi) && Stuck(w.objs, csi, pod, created)
    ensures var r := AfterVanilla(o, w, csi); r.clock == w.clock && Stuck(r.objs, csi, pod, created)
  {
    hide HasLabels;
    CalmCalls(o, w, WatchedKey(csi, false));
    var c := AfterApplyConfigMap(o, w, WatchedKey(csi, false), csi.vanillaData);
    assert c == Step(Tick(o, w), true);
    CalmCalls(o, c.w, PatcherKey(csi));
    CalmCalls(o, Tick(o, c.w), PatcherKey(csi));
    var d := AfterApplyDaemonSet(o, c.w, PatcherKey(csi), PatcherSpec(csi));
    assert AfterVanilla(o, w, csi) == d.w;
  }

  /** Statuses are not ready while the pod is not up. */
  lemma {:induction false} NotReady(o: Oracle, w: World, csi: Csi, pod: Key, created: int)
    requires Calm(o) && NeverUp(w.objs, csi, pod)
    ensures var s := AfterStatuses(o, w, csi, false, created);
            s.w == Tick(o, w) && s.statuses.Some? && !AllReady(s.statuses.value)
  {
    var sel := SchedulerPods(csi, false);
    assert o.fault(w.calls, ListVerb, Key(Pod, "", "")) == NoFault;
    var l := AfterList(o, w, sel);
    assert Has(l.items, pod);
    var i :| 0 <= i < |l.items| && l.items[i].key == pod;
    assert StatusesOf(l.items, created)[i] in StatusesOf(l.items, created);
  }

  lemma {:induction false} CalmApply(o: Oracle, w: World, key: Key, data: map<string, string>)
    requires Calm(o)
    ensures var r := AfterApplyConfigMap(o, w, key, data); r.ok && r.w.clock == w.clock && OnlyAt(w.objs, r.w.objs, key)
  {
    QuietMapApplies(o, w, key, data);
    ApplyConfigMapEffect(o, w, key, data);
    CalmCalls(o, w, key);
    CalmCalls(o, Tick(o, w), key);
  }

  lemma {:induction false} StuckElsewhere(a: Store, b: Store, csi: Csi, pod: Key, created: int)
    requires Stuck(a, csi, pod, created) && Plain(csi) && OnlyAt(a, b, ReadinessKey(csi))
    ensures Stuck(b, csi, pod, created)
  {
    assert Same(a, b, WatchedKey(csi, false)) && Same(a, b, PatcherKey(csi)) && Same(a, b, pod);
  }

  /** Once the timeout has passed since `created`, and only then, the readiness pass
      decides to retry. */
  lemma {:induction false} DecidesWhenPassed(o: Oracle, w: World, csi: Csi, pod: Key, created: int)
    requires Calm(o) && Plain(csi) && Stuck(w.objs, csi, pod, created)
    ensures var d := AfterDecision(o, w, csi, false);
            && d.w.clock == w.clock && Stuck(d.w.objs, csi, pod, created)
            && (d.retry <==> TimeoutPassed(created, w.clock, csi.readinessTimeout))
  {
    hide Yaml, AfterStatuses, AfterApplyConfigMap, AllReady, Stuck;
    StuckMeans(w.objs, csi, pod, created);
    CalmCalls(o, w, WatchedKey(csi, false));
    var g := AfterGet(o, w, WatchedKey(csi, false)).w;
    NotReady(o, g, csi, pod, created);
    CalmCalls(o, g, WatchedKey(csi, false));
    var s := AfterStatuses(o, g, csi, false, created);
    var data := map["nodes.yaml" := Yaml(s.statuses.value)];
    CalmApply(o, s.w, ReadinessKey(csi), data);
    StuckElsewhere(w.objs, AfterApplyConfigMap(o, s.w, ReadinessKey(csi), data).w.objs, csi, pod, created);
  }

  lemma {:induction false} StuckMeans(objs: Store, csi: Csi, pod: Key, created: int)
    requires Stuck(objs, csi, pod, created)
    ensures WatchedKey(csi, false) in objs && objs[WatchedKey(csi, false)].meta.created == created
    ensures NeverUp(objs, csi, pod)
  {
  }

  // ----- a retry -----

  /** The retry puts the same patch in place again, created in the current second. */
  lemma {:induction false} RetryStartsOver(o: Oracle, w: World, csi: Csi, pod: Key, created: int)
    requires Calm(o) && Plain(csi) && Stuck(w.objs, csi, pod, created)
    ensures var r := AfterRetryVanilla(o, w, csi);
            r.ok && r.w.clock == w.clock && Stuck(r.w.objs, csi, pod, Stamp(w.clock))
    ensures WatchedKey(csi, false) !in AfterRetryDeletion(o, w, csi).objs
  {
    hide AfterVanilla, HasLabels;
    var d := AfterDelete(o, w, PatcherKey(csi));
    assert o.fault(w.calls, DeleteVerb, PatcherKey(csi)) == NoFault;
    CalmCalls(o, w, PatcherKey(csi));
    var c := AfterDelete(o, d.w, WatchedKey(csi, false));
    assert o.fault(d.w.calls, DeleteVerb, WatchedKey(csi, false)) == NoFault;
    CalmCalls(o, d.w, PatcherKey(csi));
    assert c.w.objs == w.objs - {PatcherKey(csi)} - {WatchedKey(csi, false)};
    VanillaFromScratch(o, c.w, csi, pod);
  }

  lemma {:induction false} VanillaFromScratch(o: Oracle, w: World, csi: Csi, pod: Key)
    requires Calm(o) && Plain(csi) && NeverUp(w.objs, csi, pod)
    requires WatchedKey(csi, false) !in w.objs && PatcherKey(csi) !in w.objs
    ensures var r := AfterVanilla(o, w, csi); r.clock == w.clock && Stuck(r.objs, csi, pod, Stamp(w.clock))
  {
    hide HasLabels;
    var key := WatchedKey(csi, false);
    CalmCalls(o, w, key);
    var g := AfterGet(o, w, key).w;
    CalmCalls(o, g, key);
    assert o.fault(g.calls, CreateVerb, key) == NoFault;
    var c := AfterApplyConfigMap(o, w, key, csi.vanillaData);
    CalmCalls(o, c.w, PatcherKey(csi));
    var h := AfterGet(o, c.w, PatcherKey(csi)).w;
    CalmCalls(o, h, PatcherKey(csi));
    assert o.fault(h.calls, CreateVerb, PatcherKey(csi)) == NoFault;
  }

  // ----- whole updates -----

  predicate Due(csi: Csi, created: int, clock: int) {
    TimeoutPassed(created, clock, csi.readinessTimeout)
  }

  lemma {:induction false} UpdateRetries(o: Oracle, s: State, csi: Csi, pod: Key, created: int)
    requires Calm(o) && Plain(csi) && !s.mem.secondary
    requires Stuck(s.w.objs, csi, pod, created) && Due(csi, created, s.w.clock)
    ensures RetryRemoves(o, s, csi) && DecidesRetry(o, s, csi).value.w.clock == s.w.clock
    ensures var p := AfterPatcherUpdate(o, s.w, s.mem, csi);
            p.mem == s.mem && p.w.clock == s.w.clock && Stuck(p.w.objs, csi, pod, Stamp(s.w.clock))
  {
    hide AfterVanilla, AfterDecision, AfterRetryVanilla, AfterRetryDeletion, Stuck;
    var p := AfterVanilla(o, s.w, csi);
    VanillaAgain(o, s.w, csi, pod, created);
    DecidesWhenPassed(o, p, csi, pod, created);
    var d := AfterDecision(o, p, csi, false).w;
    RetryStartsOver(o, d, csi, pod, created);
    StuckMeans(d.objs, csi, pod, created);
  }

  /** The bound of `RetriesAreSpaced` is reached: from a cluster with a stuck scheduler
      there is a run whose second retry comes in the very first millisecond the bound
      leaves open. */
  lemma {:induction false} SpacingIsTight(o: Oracle, csi: Csi, w: World, pod: Key, created: int)
    returns (states: seq<State>, events: seq<Event>)
    requires Calm(o) && Plain(csi) && csi.readinessTimeout >= 1
    requires Stuck(w.objs, csi, pod, created) && Due(csi, created, w.clock)
    ensures Run(o, csi, states, events) && events == [UpdateEvent, ClusterEvent, UpdateEvent]
    ensures RetryRemoves(o, states[0], csi) && DecidesRetry(o, states[0], csi).value.w.clock == w.clock
    ensures DecidesRetry(o, states[2], csi).Some?
    ensures DecidesRetry(o, states[2], csi).value.w.clock - w.clock == 60000 * csi.readinessTimeout - w.clock % 1000 + 1
  {
    hide AfterPatcherUpdate, RetryRemoves, DecidesRetry, Stuck;
    var s0 := State(w, FORGETFUL);
    UpdateRetries(o, s0, csi, pod, created);
    var p := AfterPatcherUpdate(o, s0.w, s0.mem, csi);
    var s1 := State(p.w, p.mem);
    var s2 := State(p.w.(clock := Stamp(w.clock) + 60000 * csi.readinessTimeout + 1), p.mem);
    UpdateRetries(o, s2, csi, pod, Stamp(w.clock));
    assert DecidesRetry(o, s2, csi).Some? by { RemovesMeansDecides(o, s2, csi); }
    var q := AfterPatcherUpdate(o, s2.w, s2.mem, csi);
    states, events := [s0, s1, s2, State(q.w, q.mem)], [UpdateEvent, ClusterEvent, UpdateEvent];
    assert Ages(s1.w, s2.w);
    assert StepOf(o, csi, states[0], states[1], events[0]);
    assert StepOf(o, csi, states[1], states[2], events[1]);
    assert StepOf(o, csi, states[2], states[3], events[2]);
  }

  // ----- when the full timeout is kept -----

  /** Two retries of a run, the first of which was decided at `time` and removed the
      watched ConfigMap. */
  ghost predicate Retries(
    o: Oracle, csi: Csi, states: seq<State>, events: seq<Event>, i: nat, j: nat, time: int)
  {
    && Run(o, csi, states, events) && i < j < |events|
    && events[i].UpdateEvent? && RetryRemoves(o, states[i], csi)
    && DecidesRetry(o, states[i], csi).value.w.clock == time
    && events[j].UpdateEvent? && DecidesRetry(o, states[j], csi).Some?
  }

  /** In every run, what follows a retry decided at `time` keeps the full timeout. */
  ghost predicate KeepsFullTimeout(o: Oracle, csi: Csi, time: int) {
    forall states: seq<State>, events: seq<Event>, i: nat, j: nat :: Retries(o, csi, states, events, i, j, time) ==>
      DecidesRetry(o, states[j], csi).value.w.clock - time > 60000 * csi.readinessTimeout
  }

  /** A cluster with a stuck scheduler, at any time of the clock. */
  lemma {:induction false} SomeStuckCluster(csi: Csi, time: int) returns (w: World, pod: Key, created: int)
    requires Plain(csi)
    ensures w.clock == time && Stuck(w.objs, csi, pod, created) && Due(csi, created, time)
  {
    pod := Key(Pod, "kube-system", "kube-scheduler");
    created := time - 60000 * csi.readinessTimeout - 1;
    var meta := Meta(map[], [], false, created);
    w := World(map[
      WatchedKey(csi, false) := Object(meta, ConfigMapSpec(csi.vanillaData)),
      PatcherKey(csi) := Object(meta, PatcherSpec(csi)),
      pod := Object(meta.(labels := map["component" := "kube-scheduler"]), PodSpec("", [], "Pending", "", None))],
      0, time);
  }

  /** On plain Kubernetes the full timeout is kept after a retry, in every run, exactly
      when that retry was decided on a whole second. */
  lemma {:induction false} FullTimeoutIffWholeSecond(o: Oracle, csi: Csi, time: int)
    requires Calm(o) && Plain(csi) && csi.readinessTimeout >= 1
    ensures KeepsFullTimeout(o, csi, time) <==> time % 1000 == 0
  {
    hide RetryRemoves, DecidesRetry, Stuck, StepOf;
    if time % 1000 == 0 {
      forall states: seq<State>, events: seq<Event>, i: nat, j: nat | Retries(o, csi, states, events, i, j, time)
        ensures DecidesRetry(o, states[j], csi).value.w.clock - time > 60000 * csi.readinessTimeout
      {
        RetriesAreSpaced(o, csi, states, events, i, j);
      }
    } else {
      var w, pod, created := SomeStuckCluster(csi, time);
      var states, events := SpacingIsTight(o, csi, w, pod, created);
      assert Retries(o, csi, states, events, 0, 2, time);
    }
  }

  // ----- what readiness says about the time of the start -----

  /** The cluster right after the retry, in which the pod is recorded as started in the
      second of the retry. */
  function ComesUp(objs: Store, csi: Csi, pod: Key, time: int): Store
    requires WatchedKey(csi, false) in objs && NeverUp(objs, csi, pod)
  {
    map[WatchedKey(csi, false) := objs[WatchedKey(csi, false)],
        pod := objs[pod].(spec := objs[pod].spec.(started := Some(Some(Stamp(time)))))]
  }

  /** All pods that are listed are up since the creation of the ConfigMap. */
  lemma {:induction false} ReadyOnceUp(o: Oracle, w: World, csi: Csi, pod: Key, created: int)
    requires Calm(o)
    requires forall k :: k in w.objs && Selects(SchedulerPods(csi, false), k, w.objs[k]) ==>
               Restarted(w.objs[k], created)
    ensures var s := AfterStatuses(o, w, csi, false, created); s.statuses.Some? && AllReady(s.statuses.value)
  {
    hide Restarted;
    assert o.fault(w.calls, ListVerb, Key(Pod, "", "")) == NoFault;
    var l := AfterList(o, w, SchedulerPods(csi, false));
    forall s | s in StatusesOf(l.items, created) ensures s.restarted {
      var i :| 0 <= i < |l.items| && StatusesOf(l.items, created)[i] == s;
      assert l.items[i].key in w.objs;
    }
  }

  /** After a retry in the middle of a second all statuses may be ready although a pod is
      recorded as started before that retry. */
  lemma {:induction false} ReadyTooSoon(o: Oracle, csi: Csi, w: World, pod: Key, created: int)
    returns (states: seq<State>, events: seq<Event>)
    requires Calm(o) && Plain(csi)
    requires Stuck(w.objs, csi, pod, created) && Due(csi, created, w.clock) && w.clock % 1000 != 0
    ensures Run(o, csi, states, events) && events == [UpdateEvent, ClusterEvent]
    ensures ReadyAfter(o, csi, states, events, 0, 2, pod, w.clock)
    ensures pod in states[2].w.objs && !Restarted(states[2].w.objs[pod], w.clock)
  {
    hide AfterPatcherUpdate, RetryRemoves, DecidesRetry, Stuck, AfterStatuses;
    var s0 := State(w, FORGETFUL);
    UpdateRetries(o, s0, csi, pod, created);
    var p := AfterPatcherUpdate(o, s0.w, s0.mem, csi);
    StuckMeans(p.w.objs, csi, pod, Stamp(w.clock));
    var s1 := State(p.w, p.mem);
    var s2 := State(p.w.(objs := ComesUp(p.w.objs, csi, pod, w.clock)), p.mem);
    states, events := [s0, s1, s2], [UpdateEvent, ClusterEvent];
    assert Ages(s1.w, s2.w);
    assert StepOf(o, csi, states[0], states[1], events[0]);
    assert StepOf(o, csi, states[1], states[2], events[1]);
    ReadyOnceUp(o, s2.w, csi, pod, Stamp(w.clock));
    StampMonotone(w.clock, w.clock);
  }

  /** A retry decided at `time` removed the ConfigMap, and later all statuses are ready. */
  ghost predicate ReadyAfter(
    o: Oracle, csi: Csi, states: seq<State>, events: seq<Event>, i: nat, j: nat, pod: Key, time: int)
  {
    && Run(o, csi, states, events) && i < j < |states|
    && events[i].UpdateEvent? && RetryRemoves(o, states[i], csi)
    && DecidesRetry(o, states[i], csi).value.w.clock == time
    && WatchedKey(csi, false) in states[j].w.objs
    && (var s := AfterStatuses(o, states[j].w, csi, false, states[j].w.objs[WatchedKey(csi, false)].meta.created);
        s.statuses.Some? && AllReady(s.statuses.value))
    && pod in states[j].w.objs && Selects(SchedulerPods(csi, false), pod, states[j].w.objs[pod])
  }

  /** In every run, all ready after a retry decided at `time` means that the scheduler pods
      have been started since that time. */
  ghost predicate ReadyMeansSinceRetry(o: Oracle, csi: Csi, time: int) {
    forall states: seq<State>, events: seq<Event>, i: nat, j: nat, pod: Key
      :: ReadyAfter(o, csi, states, events, i, j, pod, time) ==> Restarted(states[j].w.objs[pod], time)
  }

  /** On plain Kubernetes, all ready means started since the retry, in every run, exactly
      when that retry was decided on a whole second. */
  lemma {:induction false} ReadySinceRetryIffWholeSecond(o: Oracle, csi: Csi, time: int)
    requires Calm(o) && Plain(csi)
    ensures ReadyMeansSinceRetry(o, csi, time) <==> time % 1000 == 0
  {
    hide RetryRemoves, DecidesRetry, Stuck, StepOf, AfterStatuses, Restarted, Selects;
    if time % 1000 == 0 {
      forall states: seq<State>, events: seq<Event>, i: nat, j: nat, pod: Key
        | ReadyAfter(o, csi, states, events, i, j, pod, time)
        ensures Restarted(states[j].w.objs[pod], time)
      {
        ReadyAfterRetry(o, csi, states, events, i, j, pod);
      }
    } else {
      var w, pod, created := SomeStuckCluster(csi, time);
      var states, events := ReadyTooSoon(o, csi, w, pod, created);
      assert !Restarted(states[2].w.objs[pod], time);
    }
  }
}
