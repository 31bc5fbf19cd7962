/** Whole runs of the patcher: updates, uninstalls, restarts of the operator process and
    anything the cluster does in between. */
module PatchingRuns {
  import opened Api
  import opened Updates
  import opened Patching
  import opened PatchingEffects

  datatype Event = UpdateEvent | UninstallEvent | RestartEvent | ClusterEvent

  datatype State = State(w: World, mem: Memory)

  ghost predicate StepOf(o: Oracle, csi: Csi, a: State, b: State, event: Event) {
    match event
    case UpdateEvent =>
      b == State(AfterPatcherUpdate(o, a.w, a.mem, csi).w, AfterPatcherUpdate(o, a.w, a.mem, csi).mem)
    case UninstallEvent =>
      b == State(AfterUninstall(o, a.w, a.mem, csi).w, AfterUninstall(o, a.w, a.mem, csi).mem)
    case RestartEvent => b == State(a.w, FORGETFUL)
    case ClusterEvent => Ages(a.w, b.w) && b.mem == a.mem
  }

  ghost predicate Run(o: Oracle, csi: Csi, states: seq<State>, events: seq<Event>) {
    && |states| == |events| + 1
    && states[0].mem == FORGETFUL
    && forall i :: 0 <= i < |events| ==> StepOf(o, csi, states[i], states[i + 1], events[i])
  }

  // ----- retries -----

  /** The state in which an update decides to patch again, if it does. */
  function DecidesRetry(o: Oracle, s: State, csi: Csi): Option<State> {
    if !PatchingEnabled(csi) then None
    else
      var m := AfterUseSecondary(o, s.w, s.mem, csi.platform);
      if m.mode.None? then None
      else
        var ready := if m.mode.value then m.mem.(pattern := "/filter") else m.mem;
        var p := AfterPatch(o, m.w, ready, csi, m.mode.value);
        var d := AfterDecision(o, p.w, csi, m.mode.value);
        if p.ok && d.retry then Some(State(d.w, p.mem)) else None
  }

  /** The world right after the retry's call to delete the watched ConfigMap. */
  function AfterRetryDeletion(o: Oracle, w: World, csi: Csi): World {
    if csi.platform.OpenShift? then AfterDelete(o, w, WatchedKey(csi, false)).w
    else
      var d := AfterDelete(o, w, PatcherKey(csi));
      if d.ok then AfterDelete(o, d.w, WatchedKey(csi, false)).w else d.w
  }

  /** The update patches again and that call removes the watched ConfigMap. */
  predicate RetryRemoves(o: Oracle, s: State, csi: Csi) {
    var d := DecidesRetry(o, s, csi);
    && d.Some?
    && WatchedKey(csi, false) in d.value.w.objs
    && WatchedKey(csi, false) !in AfterRetryDeletion(o, d.value.w, csi).objs
  }

  /** With the secondary scheduler every status says restarted, so there is no retry. */
  lemma {:induction false} SecondaryNeverRetries(o: Oracle, w: World, csi: Csi)
    ensures !AfterDecision(o, w, csi, true).retry
  {
    hide AfterSecondaryLooks, AfterApplyConfigMap, Yaml;
  }

  /** Whatever is stored under the key is no older than `time`. */
  predicate Young(objs: Store, key: Key, time: int) {
    key in objs ==> objs[key].meta.created >= Stamp(time)
  }

  lemma {:induction false} StampMonotone(a: int, b: int)
    requires a <= b
    ensures Stamp(a) <= Stamp(b) && a - 1000 < Stamp(a) <= a
  {
    assert Stamp(a) == 1000 * (a / 1000) && Stamp(b) == 1000 * (b / 1000);
    assert a / 1000 <= b / 1000;
  }

  lemma {:induction false} StaysYoung(w: World, r: World, key: Key, time: int)
    requires Ages(w, r) && Young(w.objs, key, time) && time <= w.clock
    ensures Young(r.objs, key, time)
  {
    StampMonotone(time, w.clock);
    if key in r.objs { assert Aged(w, r, key); }
  }

  /** After a retry that removed the ConfigMap, its successor is younger than the
      decision to retry. */
  lemma {:induction false} RetryRejuvenates(o: Oracle, s: State, csi: Csi)
    requires RetryRemoves(o, s, csi)
    ensures var time, r := DecidesRetry(o, s, csi).value.w.clock, AfterPatcherUpdate(o, s.w, s.mem, csi).w;
            Young(r.objs, WatchedKey(csi, false), time) && time <= r.clock
  {
    hide AfterDecision, AfterPatch, AfterRetryOpenShift, AfterRetryVanilla, AfterRetryDeletion;
    var m := AfterUseSecondary(o, s.w, s.mem, csi.platform);
    var ready := if m.mode.value then m.mem.(pattern := "/filter") else m.mem;
    var p := AfterPatch(o, m.w, ready, csi, m.mode.value);
    SecondaryNeverRetries(o, p.w, csi);
    PatchMode(o, m.w, ready, csi, m.mode.value);
    var d := DecidesRetry(o, s, csi).value;
    if csi.platform.OpenShift? {
      OpenShiftRetryRejuvenates(o, d.w, d.mem, csi);
    } else {
      VanillaRetryRejuvenates(o, d.w, csi);
    }
  }

  lemma {:induction false} OpenShiftRetryRejuvenates(o: Oracle, w: World, mem: Memory, csi: Csi)
    requires csi.platform.OpenShift? && mem.version.Some? && !mem.secondary
    requires WatchedKey(csi, false) in w.objs && WatchedKey(csi, false) !in AfterRetryDeletion(o, w, csi).objs
    ensures var r := AfterRetryOpenShift(o, w, mem, csi, false).w;
            Young(r.objs, WatchedKey(csi, false), w.clock) && w.clock <= r.clock
  {
    hide AfterUnpatchEither, AfterPatchOpenShift, AfterDelete;
    var key := WatchedKey(csi, false);
    var d := AfterDelete(o, w, key);
    DeleteTouches(o, w, key);
    var u := AfterUnpatchOpenShift(o, w, mem);
    PatchEither(o, d.w, csi, false);
    assert u.w == AfterUnpatchEither(o, d.w, false).w && u.mem == mem;
    StaysYoung(d.w, u.w, key, w.clock);
    PatchOpenShift(o, u.w, u.mem, csi, false);
    StaysYoung(u.w, AfterPatchOpenShift(o, u.w, u.mem, csi, false).w, key, w.clock);
  }

  lemma {:induction false} VanillaRetryRejuvenates(o: Oracle, w: World, csi: Csi)
    requires !csi.platform.OpenShift?
    requires WatchedKey(csi, false) in w.objs && WatchedKey(csi, false) !in AfterRetryDeletion(o, w, csi).objs
    ensures var r := AfterRetryVanilla(o, w, csi).w;
            Young(r.objs, WatchedKey(csi, false), w.clock) && w.clock <= r.clock
  {
    hide AfterVanilla, AfterDelete;
    var key := WatchedKey(csi, false);
    var d := AfterDelete(o, w, PatcherKey(csi));
    var c := AfterDelete(o, d.w, key);
    DeleteTouches(o, w, PatcherKey(csi));
    DeleteTouches(o, d.w, key);
    assert Same(w.objs, d.w.objs, key);
    VanillaTouches(o, c.w, csi);
    StaysYoung(c.w, AfterVanilla(o, c.w, csi), key, w.clock);
  }

  lemma {:induction false} StepAges(o: Oracle, csi: Csi, a: State, b: State, event: Event)
    requires StepOf(o, csi, a, b, event)
    ensures Ages(a.w, b.w)
  {
    hide AfterPatcherUpdate, AfterUninstall;
    UpdateTouches(o, a.w, a.mem, csi);
    UninstallTouches(o, a.w, a.mem, csi);
    Nothing(a.w, a.w);
  }

  /** From the removal on, the run knows no watched ConfigMap older than it. */
  lemma {:induction false} YoungFromThenOn(o: Oracle, csi: Csi, states: seq<State>, events: seq<Event>, i: nat, j: nat)
    requires Run(o, csi, states, events) && i < j < |states|
    requires events[i].UpdateEvent? && RetryRemoves(o, states[i], csi)
    ensures var time := DecidesRetry(o, states[i], csi).value.w.clock;
            Young(states[j].w.objs, WatchedKey(csi, false), time) && time <= states[j].w.clock
    decreases j
  {
    hide AfterPatcherUpdate, AfterUninstall, DecidesRetry, Young;
    assert StepOf(o, csi, states[j - 1], states[j], events[j - 1]);
    if i + 1 == j {
      RetryRejuvenates(o, states[i], csi);
    } else {
      YoungFromThenOn(o, csi, states, events, i, j - 1);
      StepAges(o, csi, states[j - 1], states[j], events[j - 1]);
      StaysYoung(states[j - 1].w, states[j].w, WatchedKey(csi, false), DecidesRetry(o, states[i], csi).value.w.clock);
    }
  }

  /** What the decision to retry says about the watched ConfigMap. */
  lemma {:induction false} RetryMeansOld(o: Oracle, s: State, csi: Csi, time: int)
    requires DecidesRetry(o, s, csi).Some?
    requires Young(s.w.objs, WatchedKey(csi, false), time) && time <= s.w.clock
    ensures Stamp(time) < DecidesRetry(o, s, csi).value.w.clock - 60000 * csi.readinessTimeout
  {
    hide AfterPatch, AfterStatuses, AfterApplyConfigMap, Yaml;
    var m := AfterUseSecondary(o, s.w, s.mem, csi.platform);
    var ready := if m.mode.value then m.mem.(pattern := "/filter") else m.mem;
    var p := AfterPatch(o, m.w, ready, csi, m.mode.value);
    PatchTouches(o, m.w, ready, csi, m.mode.value);
    SecondaryNeverRetries(o, p.w, csi);
    StaysYoung(m.w, p.w, WatchedKey(csi, false), time);
  }

  /** Two retries, of which the first removed the watched ConfigMap, are decided more than
      the readiness timeout apart, whatever calls fail: the guard reads the creation time,
      and re-creation resets it. What is missing is the part of the second that had passed
      at the first decision, because timestamps are whole seconds. */
  lemma {:induction false} RetriesAreSpaced(
    o: Oracle, csi: Csi, states: seq<State>, events: seq<Event>, i: nat, j: nat)
    requires Run(o, csi, states, events) && i < j < |events|
    requires events[i].UpdateEvent? && RetryRemoves(o, states[i], csi)
    requires events[j].UpdateEvent? && DecidesRetry(o, states[j], csi).Some?
    ensures var time := DecidesRetry(o, states[i], csi).value.w.clock;
            DecidesRetry(o, states[j], csi).value.w.clock - time > 60000 * csi.readinessTimeout - time % 1000
  {
    hide AfterPatcherUpdate, DecidesRetry, StepOf, Young;
    var time := DecidesRetry(o, states[i], csi).value.w.clock;
    YoungFromThenOn(o, csi, states, events, i, j);
    RetryMeansOld(o, states[j], csi, time);
  }

  /** The guard waits for the full timeout exactly when the ConfigMap was created on a
      whole second. */
  lemma {:induction false} GuardIsExactIffWholeSecond(created: int, minutes: int)
    ensures (forall now :: TimeoutPassed(Stamp(created), now, minutes) ==> now - created > 60000 * minutes)
       <==> created % 1000 == 0
  {
    var first := Stamp(created) + 60000 * minutes + 1;
    assert TimeoutPassed(Stamp(created), first, minutes);
  }

  // ----- statuses -----

  /** A ConfigMap created later leaves fewer schedulers ready. */
  lemma {:induction false} ReadinessIsAntitone(pods: seq<Item>, earlier: int, later: int)
    requires earlier <= later && AllReady(StatusesOf(pods, later))
    ensures AllReady(StatusesOf(pods, earlier))
  {
    var a, b := StatusesOf(pods, earlier), StatusesOf(pods, later);
    forall s | s in a ensures s.restarted {
      var i :| 0 <= i < |a| && a[i] == s;
      assert b[i] in b;
    }
  }

  /** All ready: every kube-scheduler pod has been started since the watched ConfigMap was
      created. */
  lemma {:induction false} ReadyMeansRestartedSince(o: Oracle, w: World, csi: Csi, pod: Key)
    requires WatchedKey(csi, false) in w.objs
    requires var s := AfterStatuses(o, w, csi, false, w.objs[WatchedKey(csi, false)].meta.created);
             s.statuses.Some? && AllReady(s.statuses.value)
    requires pod in w.objs && Selects(SchedulerPods(csi, false), pod, w.objs[pod])
    ensures Restarted(w.objs[pod], w.objs[WatchedKey(csi, false)].meta.created)
  {
    var created := w.objs[WatchedKey(csi, false)].meta.created;
    var l := AfterList(o, w, SchedulerPods(csi, false));
    assert Has(l.items, pod);
    var i :| 0 <= i < |l.items| && l.items[i].key == pod;
    assert StatusesOf(l.items, created)[i] in StatusesOf(l.items, created);
  }

  /** Along a run: if all statuses computed after a retry that removed the ConfigMap say
      ready, then every kube-scheduler pod has been started since the second of that retry,
      and since the retry itself if that was decided on a whole second. */
  lemma {:induction false} ReadyAfterRetry(
    o: Oracle, csi: Csi, states: seq<State>, events: seq<Event>, i: nat, j: nat, pod: Key)
    requires Run(o, csi, states, events) && i < j < |states|
    requires events[i].UpdateEvent? && RetryRemoves(o, states[i], csi)
    requires WatchedKey(csi, false) in states[j].w.objs
    requires var s := AfterStatuses(o, states[j].w, csi, false, states[j].w.objs[WatchedKey(csi, false)].meta.created);
             s.statuses.Some? && AllReady(s.statuses.value)
    requires pod in states[j].w.objs && Selects(SchedulerPods(csi, false), pod, states[j].w.objs[pod])
    ensures var time := DecidesRetry(o, states[i], csi).value.w.clock;
            && Restarted(states[j].w.objs[pod], Stamp(time))
            && (time % 1000 == 0 ==> Restarted(states[j].w.objs[pod], time))
  {
    hide AfterStatuses, DecidesRetry, StepOf, RetryRemoves;
    assert DecidesRetry(o, states[i], csi).Some? by { RemovesMeansDecides(o, states[i], csi); }
    YoungFromThenOn(o, csi, states, events, i, j);
    ReadyMeansRestartedSince(o, states[j].w, csi, pod);
  }

  lemma {:induction false} RemovesMeansDecides(o: Oracle, s: State, csi: Csi)
    requires RetryRemoves(o, s, csi)
    ensures DecidesRetry(o, s, csi).Some?
  {
    hide DecidesRetry;
  }

  /** The statuses describe every listed scheduler pod, each once. */
  lemma {:induction false} StatusesAreExact(o: Oracle, w: World, csi: Csi, created: int) returns (pods: seq<Item>)
    requires AfterStatuses(o, w, csi, false, created).statuses.Some?
    ensures Lists(w.objs, SchedulerPods(csi, false), pods)
    ensures var statuses := AfterStatuses(o, w, csi, false, created).statuses.value;
            |statuses| == |pods| && forall i :: 0 <= i < |pods| ==>
              && statuses[i].node == NodeName(pods[i].obj) && statuses[i].scheduler == pods[i].key.name
              && (statuses[i].restarted <==> Restarted(pods[i].obj, created))
  {
    pods := AfterList(o, w, SchedulerPods(csi, false)).items;
  }

  // ----- schedulers of others -----

  /** No step of the operator changes a scheduler that somebody else has configured. */
  lemma {:induction false} ForeignSchedulersStay(
    o: Oracle, csi: Csi, states: seq<State>, events: seq<Event>, i: nat, key: Key)
    requires Run(o, csi, states, events) && i < |events| && !events[i].ClusterEvent?
    requires Foreign(states[i].w.objs, key)
    ensures Same(states[i].w.objs, states[i + 1].w.objs, key)
  {
    hide AfterPatcherUpdate, AfterUninstall;
    var a := states[i];
    assert StepOf(o, csi, a, states[i + 1], events[i]);
    UpdateTouches(o, a.w, a.mem, csi);
    UninstallTouches(o, a.w, a.mem, csi);
  }
}
