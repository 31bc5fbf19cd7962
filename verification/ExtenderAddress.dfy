/** The three levels at which the address of the chosen extender is kept: the memory of
    the operator process, a ConfigMap, and the running pods. */
module ExtenderAddress {
  import opened Api
  import opened Updates
  import opened Patching
  import opened PatchingEffects
  import opened PatchingRuns

  const FILTER := "/filter"

  /** No read of the address ConfigMap fails. */
  ghost predicate ReadsWork(o: Oracle, csi: Csi) {
    forall n: nat :: o.fault(n, GetVerb, AddressKey(csi)) == NoFault
  }

  /** An address in memory is the stored one. */
  predicate Coherent(objs: Store, mem: Memory, csi: Csi) {
    NotMarked(objs, AddressKey(csi)) && (mem.ip != "" ==> IsStored(objs, csi, mem.ip))
  }

  predicate IsStored(objs: Store, csi: Csi, ip: string) {
    AddressKey(csi) in objs && StoredAddress(objs[AddressKey(csi)]) == ip
  }

  // ----- when an address gets stored -----

  /** The calls that store an address: a read that succeeds, then a write that takes
      effect, even if its reply is lost. */
  predicate Lands(o: Oracle, w: World, csi: Csi) {
    && o.fault(w.calls, GetVerb, AddressKey(csi)) == NoFault
    && o.fault(w.calls + 1, if AddressKey(csi) in w.objs then UpdateVerb else CreateVerb, AddressKey(csi)) != Refused
  }

  /** The address is stored afterwards exactly when the calls land or it was there. */
  lemma {:induction false} StoredIffLands(o: Oracle, w: World, csi: Csi, ip: string)
    requires NotMarked(w.objs, AddressKey(csi))
    ensures var r := AfterApplyConfigMap(o, w, AddressKey(csi), map[IP_FIELD := ip]).w.objs;
            && NotMarked(r, AddressKey(csi))
            && (IsStored(r, csi, ip) <==> Lands(o, w, csi) || IsStored(w.objs, csi, ip))
  {
  }

  /** The search ended by storing the address of a pod, from the world `v` on. */
  ghost predicate StoresFrom(o: Oracle, w: World, a: AddressStep, csi: Csi, v: World) {
    && a.ip.Some? && v.objs == w.objs && w.calls <= v.calls
    && a.w == AfterApplyConfigMap(o, v, AddressKey(csi), map[IP_FIELD := a.ip.value]).w
  }

  /** The address of a pod was chosen, but it could not be stored. */
  ghost predicate LosesStore(o: Oracle, w: World, a: AddressStep, csi: Csi) {
    exists v :: StoresFrom(o, w, a, csi, v) && !Lands(o, v, csi) && !IsStored(v.objs, csi, a.ip.value)
  }

  /** How a search ends: with nothing, with an address that was stored before, or with one
      that is stored now. */
  ghost predicate Ends(o: Oracle, w: World, mem: Memory, a: AddressStep, csi: Csi) {
    && a.mem.(ip := mem.ip) == mem
    && (a.ip.Some? ==> a.mem.ip == a.ip.value && a.ip.value != "")
    && (a.ip.None? ==> a.w.objs == w.objs && (a.mem.ip == mem.ip || a.mem.ip == ""))
    && (a.ip.Some? ==> (a.w.objs == w.objs && IsStored(w.objs, csi, a.ip.value))
                       || exists v :: StoresFrom(o, w, a, csi, v))
  }

  lemma {:induction false} EndsLater(o: Oracle, w: World, v: World, mem: Memory, a: AddressStep, csi: Csi)
    requires v.objs == w.objs && w.calls <= v.calls && Ends(o, v, mem, a, csi)
    ensures Ends(o, w, mem, a, csi)
  {
    hide AfterApplyConfigMap;
    if u :| StoresFrom(o, v, a, csi, u) { assert StoresFrom(o, w, a, csi, u); }
  }

  lemma {:induction false} ScanEnds(o: Oracle, w: World, mem: Memory, csi: Csi, pods: seq<Item>, i: nat)
    requires i <= |pods|
    ensures Ends(o, w, mem, AfterScan(o, w, mem, csi, pods, i), csi)
    decreases |pods| - i
  {
    hide AfterApplyConfigMap, Ends;
    var a := AfterScan(o, w, mem, csi, pods, i);
    if i == |pods| {
      EndsEmpty(o, w, mem, csi);
    } else {
      var ip, t := PodIp(pods[i].obj), Tick(o, w);
      if Phase(pods[i].obj) != "Running" || ip == "" {
        ScanEnds(o, w, mem, csi, pods, i + 1);
      } else if !o.healthy(w.calls, Url(ip, csi, mem)) {
        ScanEnds(o, t, mem, csi, pods, i + 1);
        EndsLater(o, w, t, mem, AfterScan(o, t, mem, csi, pods, i + 1), csi);
      } else {
        EndsStoring(o, w, mem, csi, t, ip);
      }
    }
  }

  lemma {:induction false} EndsEmpty(o: Oracle, w: World, mem: Memory, csi: Csi)
    ensures Ends(o, w, mem, AddressStep(w, mem, None), csi)
  {
  }

  lemma {:induction false} EndsStoring(o: Oracle, w: World, mem: Memory, csi: Csi, v: World, ip: string)
    requires v.objs == w.objs && w.calls <= v.calls && ip != ""
    ensures var r := AfterApplyConfigMap(o, v, AddressKey(csi), map[IP_FIELD := ip]).w;
            Ends(o, w, mem, AddressStep(r, mem.(ip := ip), Some(ip)), csi)
  {
    hide AfterApplyConfigMap;
    var r := AfterApplyConfigMap(o, v, AddressKey(csi), map[IP_FIELD := ip]).w;
    assert StoresFrom(o, w, AddressStep(r, mem.(ip := ip), Some(ip)), csi, v);
  }

  lemma {:induction false} ListEnds(o: Oracle, w: World, mem: Memory, csi: Csi)
    ensures Ends(o, w, mem, AfterListAndScan(o, w, mem, csi), csi)
  {
    hide AfterScan, Ends;
    var l := AfterList(o, w, EXTENDER_PODS);
    EndsEmpty(o, l.w, mem, csi);
    EndsLater(o, w, l.w, mem, AddressStep(l.w, mem, None), csi);
    if l.ok {
      ScanEnds(o, l.w, mem, csi, l.items, 0);
      EndsLater(o, w, l.w, mem, AfterScan(o, l.w, mem, csi, l.items, 0), csi);
    }
  }

  /** One search, from a coherent memory. */
  lemma {:induction false} AddressEnds(o: Oracle, w: World, mem: Memory, csi: Csi)
    requires Coherent(w.objs, mem, csi)
    ensures Ends(o, w, mem, AfterGetAddress(o, w, mem, csi), csi)
  {
    hide AfterListAndScan, StoresFrom;
    forall v: World | v.objs == w.objs && w.calls <= v.calls
      ensures Ends(o, w, mem, AfterListAndScan(o, v, mem, csi), csi)
    {
      ListEnds(o, v, mem, csi);
      EndsLater(o, w, v, mem, AfterListAndScan(o, v, mem, csi), csi);
    }
  }

  lemma {:induction false} RetriesEnd(o: Oracle, w: World, mem: Memory, csi: Csi, left: nat)
    requires Coherent(w.objs, mem, csi)
    ensures Ends(o, w, mem, AfterAddressRetries(o, w, mem, csi, left), csi)
    decreases left
  {
    hide AfterGetAddress, StoresFrom;
    if left > 0 {
      var a := AfterGetAddress(o, w, mem, csi);
      AddressEnds(o, w, mem, csi);
      GetAddress(o, w, mem, csi);
      if a.ip.None? {
        var blank, next := a.mem.(ip := ""), Wait(a.w);
        RetriesEnd(o, next, blank, csi, left - 1);
        EndsLater(o, w, next, blank, AfterAddressRetries(o, next, blank, csi, left - 1), csi);
      }
    }
  }

  // ----- memory and ConfigMap agree -----

  /** A search keeps the memory coherent exactly when it does not lose the store of an
      address it chose. */
  lemma {:induction false} CoherentIffStored(o: Oracle, w: World, mem: Memory, a: AddressStep, csi: Csi)
    requires Coherent(w.objs, mem, csi) && Ends(o, w, mem, a, csi)
    ensures NotMarked(a.w.objs, AddressKey(csi))
    ensures Coherent(a.w.objs, a.mem, csi) <==> !LosesStore(o, w, a, csi)
  {
    hide AfterApplyConfigMap, Lands;
    if a.ip.Some? {
      forall v | StoresFrom(o, w, a, csi, v)
        ensures NotMarked(a.w.objs, AddressKey(csi))
        ensures IsStored(a.w.objs, csi, a.ip.value) <==> Lands(o, v, csi) || IsStored(v.objs, csi, a.ip.value)
      {
        StoredIffLands(o, v, csi, a.ip.value);
      }
    }
  }

  /** What the rest of an operation touches is never the address. */
  lemma {:induction false} Elsewhere(w: World, r: World, s: set<Key>, csi: Csi)
    requires Touches(w, r, s) && AddressKey(csi) !in s
    ensures Same(w.objs, r.objs, AddressKey(csi))
  {
  }

  lemma {:induction false} PatchRest(o: Oracle, w: World, csi: Csi, secondary: bool, data: map<string, string>)
    ensures var c := AfterApplyConfigMap(o, w, OpenShiftMapKey(secondary), data);
            && Same(w.objs, c.w.objs, AddressKey(csi))
            && Same(w.objs, AfterPatchEither(o, c.w, csi, secondary).w.objs, AddressKey(csi))
  {
    hide Touches, AfterApplyConfigMap, AfterPatchEither;
    var c := AfterApplyConfigMap(o, w, OpenShiftMapKey(secondary), data);
    ApplyMap(o, w, OpenShiftMapKey(secondary), data);
    Elsewhere(w, c.w, {OpenShiftMapKey(secondary)}, csi);
    PatchEither(o, c.w, csi, secondary);
    Elsewhere(c.w, AfterPatchEither(o, c.w, csi, secondary).w, Schedulers(), csi);
  }

  lemma {:induction false} UnpatchKeepsAddress(o: Oracle, w: World, mem: Memory, csi: Csi)
    ensures var u := AfterUnpatchOpenShift(o, w, mem);
            && Same(w.objs, u.w.objs, AddressKey(csi))
            && u.mem.ip == mem.ip && u.mem.pattern == mem.pattern
  {
    hide Touches, AfterDelete, AfterUnpatchEither;
    var m := AfterUseSecondary(o, w, mem, OpenShift);
    if m.mode.Some? {
      var d := AfterDelete(o, m.w, OpenShiftMapKey(m.mode.value));
      DeleteTouches(o, m.w, OpenShiftMapKey(m.mode.value));
      Elsewhere(m.w, d.w, {OpenShiftMapKey(m.mode.value)}, csi);
      PatchEither(o, d.w, csi, m.mode.value);
      Elsewhere(d.w, AfterUnpatchEither(o, d.w, m.mode.value).w, Schedulers(), csi);
    }
  }

  lemma {:induction false} DecisionKeepsAddress(o: Oracle, w: World, csi: Csi, secondary: bool)
    ensures Same(w.objs, AfterDecision(o, w, csi, secondary).w.objs, AddressKey(csi))
  {
    hide Touches, AfterDecision;
    DecisionTouches(o, w, csi, secondary);
    Elsewhere(w, AfterDecision(o, w, csi, secondary).w, {ReadinessKey(csi)}, csi);
  }

  /** The search an update makes, if it makes one: only for the secondary scheduler. */
  function Search(o: Oracle, s: State, csi: Csi): Option<(State, AddressStep)> {
    var m := AfterUseSecondary(o, s.w, s.mem, csi.platform);
    if !PatchingEnabled(csi) || !csi.platform.OpenShift? || m.mode != Some(true) then None
    else
      var mem := m.mem.(pattern := FILTER);
      Some((State(m.w, mem), AfterAddressRetries(o, m.w, mem, csi, ADDRESS_RETRIES)))
  }

  /** An update changes memory and address ConfigMap through its search alone. */
  lemma {:induction false} UpdateIsSearch(o: Oracle, s: State, csi: Csi)
    requires csi.platform.OpenShift?
    ensures var p, search := AfterPatcherUpdate(o, s.w, s.mem, csi), Search(o, s, csi);
            && (search.None? ==> Same(s.w.objs, p.w.objs, AddressKey(csi)) && p.mem.ip == s.mem.ip)
            && (search.Some? ==>
                  && search.value.0.w.objs == s.w.objs && s.w.calls <= search.value.0.w.calls
                  && search.value.0.mem.ip == s.mem.ip && search.value.0.mem.pattern == FILTER
                  && Same(search.value.1.w.objs, p.w.objs, AddressKey(csi)) && p.mem.ip == search.value.1.mem.ip)
  {
    hide AfterAddressRetries, AfterApplyConfigMap, AfterPatchEither, AfterDecision, AfterUnpatchOpenShift;
    var m := AfterUseSecondary(o, s.w, s.mem, csi.platform);
    if PatchingEnabled(csi) && m.mode.Some? {
      var secondary := m.mode.value;
      var ready := if secondary then m.mem.(pattern := FILTER) else m.mem;
      var p := AfterPatchOpenShift(o, m.w, ready, csi, secondary);
      PatchIsSearch(o, m.w, ready, csi, secondary);
      var d := AfterDecision(o, p.w, csi, secondary);
      DecisionKeepsAddress(o, p.w, csi, secondary);
      SecondaryNeverRetries(o, p.w, csi);
      var u := AfterUnpatchOpenShift(o, d.w, p.mem);
      UnpatchKeepsAddress(o, d.w, p.mem, csi);
      PatchIsSearch(o, u.w, u.mem, csi, secondary);
    }
  }

  lemma {:induction false} PatchIsSearch(o: Oracle, w: World, mem: Memory, csi: Csi, secondary: bool)
    ensures var p := AfterPatchOpenShift(o, w, mem, csi, secondary);
            var a := if secondary then AfterAddressRetries(o, w, mem, csi, ADDRESS_RETRIES)
                     else AddressStep(w, mem, Some(""));
            Same(a.w.objs, p.w.objs, AddressKey(csi)) && p.mem == a.mem
  {
    hide AfterAddressRetries, AfterApplyConfigMap, AfterPatchEither;
    var a := if secondary then AfterAddressRetries(o, w, mem, csi, ADDRESS_RETRIES) else AddressStep(w, mem, Some(""));
    if a.ip.Some? {
      PatchRest(o, a.w, csi, secondary, if secondary then SecondaryData(a.ip.value, csi) else PolicyData(csi));
    }
  }

  /** The update chose an address and could not store it. */
  ghost predicate UpdateLosesStore(o: Oracle, s: State, csi: Csi) {
    var search := Search(o, s, csi);
    search.Some? && LosesStore(o, search.value.0.w, search.value.1, csi)
  }

  lemma {:induction false} UpdateCoherentIff(o: Oracle, s: State, csi: Csi)
    requires csi.platform.OpenShift? && Coherent(s.w.objs, s.mem, csi)
    ensures var p := AfterPatcherUpdate(o, s.w, s.mem, csi);
            Coherent(p.w.objs, p.mem, csi) <==> !UpdateLosesStore(o, s, csi)
  {
    hide AfterPatcherUpdate, AfterAddressRetries, LosesStore, Ends;
    UpdateIsSearch(o, s, csi);
    var search := Search(o, s, csi);
    if search.Some? {
      var start := search.value.0;
      RetriesEnd(o, start.w, start.mem, csi, ADDRESS_RETRIES);
      CoherentIffStored(o, start.w, start.mem, search.value.1, csi);
    }
  }

  /** Nobody but the operator writes the address ConfigMap. */
  ghost predicate AddressIsOurs(csi: Csi, states: seq<State>, events: seq<Event>)
    requires |states| == |events| + 1
  {
    forall i :: 0 <= i < |events| && events[i].ClusterEvent? ==>
      Same(states[i].w.objs, states[i + 1].w.objs, AddressKey(csi))
  }

  lemma {:induction false} OtherStepsCoherent(o: Oracle, csi: Csi, states: seq<State>, events: seq<Event>, i: nat)
    requires csi.platform.OpenShift? && Run(o, csi, states, events) && AddressIsOurs(csi, states, events)
    requires i < |events| && !events[i].UpdateEvent? && Coherent(states[i].w.objs, states[i].mem, csi)
    ensures Coherent(states[i + 1].w.objs, states[i + 1].mem, csi)
  {
    hide AfterUnpatchOpenShift, AfterPatcherUpdate;
    assert StepOf(o, csi, states[i], states[i + 1], events[i]);
    UnpatchKeepsAddress(o, states[i].w, states[i].mem, csi);
  }

  ghost predicate CoherentUpTo(csi: Csi, states: seq<State>, n: nat)
    requires n < |states|
  {
    forall i :: 0 <= i <= n ==> Coherent(states[i].w.objs, states[i].mem, csi)
  }

  ghost predicate NoStoreLost(o: Oracle, csi: Csi, states: seq<State>, events: seq<Event>, n: nat)
    requires n <= |events| < |states|
  {
    forall i :: 0 <= i < n && events[i].UpdateEvent? ==> !UpdateLosesStore(o, states[i], csi)
  }

  /** In every run on OpenShift the address in memory is empty or the one in the ConfigMap,
      in all states, exactly when no update loses the store of an address it chose;
      whatever other calls fail does not matter. */
  lemma {:induction false} MemoryIsCoherentIff(o: Oracle, csi: Csi, states: seq<State>, events: seq<Event>, n: nat)
    requires csi.platform.OpenShift? && Run(o, csi, states, events) && AddressIsOurs(csi, states, events)
    requires NotMarked(states[0].w.objs, AddressKey(csi)) && n < |states|
    ensures CoherentUpTo(csi, states, n) <==> NoStoreLost(o, csi, states, events, n)
  {
    hide AfterPatcherUpdate, UpdateLosesStore, Coherent, AfterUninstall;
    if n == 0 {
      assert Coherent(states[0].w.objs, states[0].mem, csi) by { StartsCoherent(states[0], csi); }
    } else {
      MemoryIsCoherentIff(o, csi, states, events, n - 1);
      if CoherentUpTo(csi, states, n - 1) {
        var s := states[n - 1];
        assert Coherent(s.w.objs, s.mem, csi) && StepOf(o, csi, s, states[n], events[n - 1]);
        if events[n - 1].UpdateEvent? {
          UpdateCoherentIff(o, s, csi);
        } else {
          OtherStepsCoherent(o, csi, states, events, n - 1);
        }
      }
    }
  }

  lemma {:induction false} StartsCoherent(s: State, csi: Csi)
    requires s.mem == FORGETFUL && NotMarked(s.w.objs, AddressKey(csi))
    ensures Coherent(s.w.objs, s.mem, csi)
  {
  }

  /** Reads that work and writes that are not refused never lose a store; a lost reply
      does no harm. */
  lemma {:induction false} LandedWritesKeepMemory(o: Oracle, csi: Csi, states: seq<State>, events: seq<Event>, i: nat)
    requires ReadsWork(o, csi)
    requires forall n: nat :: o.fault(n, CreateVerb, AddressKey(csi)) != Refused
                           && o.fault(n, UpdateVerb, AddressKey(csi)) != Refused
    requires csi.platform.OpenShift? && Run(o, csi, states, events) && AddressIsOurs(csi, states, events)
    requires NotMarked(states[0].w.objs, AddressKey(csi)) && i < |states|
    ensures Coherent(states[i].w.objs, states[i].mem, csi)
  {
    hide Search, Coherent, StoresFrom, Run;
    forall v ensures Lands(o, v, csi) {}
    MemoryIsCoherentIff(o, csi, states, events, i);
    assert CoherentUpTo(csi, states, i);
  }

  // ----- a restart changes no answer -----

  /** The environment gives the same answers whenever it is asked. */
  ghost predicate Steady(o: Oracle) {
    && (forall n: nat, m: nat, url :: o.healthy(n, url) == o.healthy(m, url))
    && (forall n: nat, m: nat, s :: o.order(n, s) == o.order(m, s))
    && (forall n: nat, m: nat, v, k :: o.fault(n, v, k) == o.fault(m, v, k))
  }

  /** The two attempts find the same address; a failed attempt leaves the store alone. */
  predicate Agree(objs: Store, a: AddressStep, b: AddressStep) {
    && a.ip == b.ip
    && (a.ip.Some? ==> a.mem == b.mem && a.mem.ip == a.ip.value)
    && (a.ip.None? ==> a.w.objs == objs && b.w.objs == objs)
  }

  lemma {:induction false} ScansAgree(
    o: Oracle, w: World, v: World, mem: Memory, other: Memory, csi: Csi, pods: seq<Item>, i: nat)
    requires Steady(o) && w.objs == v.objs && i <= |pods| && other == mem.(ip := other.ip)
    ensures Agree(w.objs, AfterScan(o, w, mem, csi, pods, i), AfterScan(o, v, other, csi, pods, i))
    decreases |pods| - i
  {
    hide AfterApplyConfigMap;
    if i < |pods| {
      var url := Url(PodIp(pods[i].obj), csi, mem);
      assert o.healthy(w.calls, url) == o.healthy(v.calls, url);
      ScansAgree(o, w, v, mem, other, csi, pods, i + 1);
      ScansAgree(o, Tick(o, w), Tick(o, v), mem, other, csi, pods, i + 1);
    }
  }

  lemma {:induction false} ListsAgree(o: Oracle, w: World, v: World, mem: Memory, other: Memory, csi: Csi)
    requires Steady(o) && w.objs == v.objs && other == mem.(ip := other.ip)
    ensures Agree(w.objs, AfterListAndScan(o, w, mem, csi), AfterListAndScan(o, v, other, csi))
  {
    hide AfterScan;
    var l, r := AfterList(o, w, EXTENDER_PODS), AfterList(o, v, EXTENDER_PODS);
    var key := Key(Pod, "", "");
    assert o.fault(w.calls, ListVerb, key) == o.fault(v.calls, ListVerb, key);
    var chosen := set k | k in w.objs && Selects(EXTENDER_PODS, k, w.objs[k]);
    assert o.order(w.calls, chosen) == o.order(v.calls, chosen);
    assert l.items == r.items;
    ScansAgree(o, l.w, r.w, mem, other, csi, l.items, 0);
  }

  /** With fixed answers an operator that has forgotten the address finds the one it
      would have used, and a failed search leaves the store alone. */
  lemma {:induction false} RestartFindsTheSame(o: Oracle, w: World, v: World, mem: Memory, csi: Csi)
    requires Steady(o) && ReadsWork(o, csi) && Coherent(w.objs, mem, csi) && w.objs == v.objs
    ensures Agree(w.objs, AfterGetAddress(o, w, mem, csi), AfterGetAddress(o, v, mem.(ip := ""), csi))
  {
    hide AfterListAndScan;
    ScansAgreeAnyway(o, w, mem, csi);
    var url := Url(mem.ip, csi, mem);
    assert forall n: nat :: o.healthy(n, url) == o.healthy(w.calls, url);
    if mem.ip == "" && AddressKey(csi) in w.objs {
      var stored := Url(StoredAddress(w.objs[AddressKey(csi)]), csi, mem);
      assert forall n: nat :: o.healthy(n, stored) == o.healthy(w.calls, stored);
    }
  }

  lemma {:induction false} ScansAgreeAnyway(o: Oracle, w: World, mem: Memory, csi: Csi)
    requires Steady(o)
    ensures var blank := mem.(ip := "");
            forall x: World, y: World, a: Memory, b: Memory
              :: x.objs == w.objs && y.objs == w.objs && (a == mem || a == blank) && (b == mem || b == blank) ==>
                   Agree(w.objs, AfterListAndScan(o, x, a, csi), AfterListAndScan(o, y, b, csi))
  {
    hide AfterListAndScan, Agree, Steady;
    var blank := mem.(ip := "");
    forall x: World, y: World, a: Memory, b: Memory
      | x.objs == w.objs && y.objs == w.objs && (a == mem || a == blank) && (b == mem || b == blank)
      ensures Agree(w.objs, AfterListAndScan(o, x, a, csi), AfterListAndScan(o, y, b, csi))
    {
      ListsAgree(o, x, y, a, b, csi);
    }
  }

  /** Without the assumption on reads: the two find the same exactly when there is nothing
      to forget, the remembered address does not answer, the ConfigMap can be read, or the
      pods lead to the same address. */
  lemma {:induction false} RestartFindsTheSameIff(o: Oracle, w: World, v: World, mem: Memory, csi: Csi)
    requires Steady(o) && Coherent(w.objs, mem, csi) && w.objs == v.objs
    ensures AfterGetAddress(o, w, mem, csi).ip == AfterGetAddress(o, v, mem.(ip := ""), csi).ip
       <==> || mem.ip == "" || !o.healthy(w.calls, Url(mem.ip, csi, mem))
            || o.fault(v.calls, GetVerb, AddressKey(csi)) == NoFault
            || AfterListAndScan(o, v, mem.(ip := ""), csi).ip == Some(mem.ip)
  {
    hide AfterListAndScan;
    ScansAgreeAnyway(o, w, mem, csi);
    var url := Url(mem.ip, csi, mem);
    assert forall n: nat :: o.healthy(n, url) == o.healthy(w.calls, url);
    assert forall n: nat :: o.fault(n, GetVerb, AddressKey(csi)) == o.fault(v.calls, GetVerb, AddressKey(csi));
    if mem.ip == "" && AddressKey(csi) in w.objs {
      var stored := Url(StoredAddress(w.objs[AddressKey(csi)]), csi, mem);
      assert forall n: nat :: o.healthy(n, stored) == o.healthy(w.calls, stored);
    }
  }

  /** The same through all retries: a forgetful operator writes the same configuration. */
  lemma {:induction false} RestartConfiguresTheSame(
    o: Oracle, w: World, v: World, mem: Memory, csi: Csi, left: nat)
    requires Steady(o) && ReadsWork(o, csi) && Coherent(w.objs, mem, csi) && w.objs == v.objs
    ensures AfterAddressRetries(o, w, mem, csi, left).ip == AfterAddressRetries(o, v, mem.(ip := ""), csi, left).ip
    decreases left
  {
    hide AfterGetAddress, Steady, ReadsWork;
    if left > 0 {
      var blank := mem.(ip := "");
      var a, b := AfterGetAddress(o, w, mem, csi), AfterGetAddress(o, v, blank, csi);
      RestartFindsTheSame(o, w, v, mem, csi);
      AddressMode(o, w, mem, csi);
      AddressMode(o, v, blank, csi);
      if a.ip.None? {
        assert a.mem.(ip := "") == blank && b.mem.(ip := "") == blank;
        RestartConfiguresTheSame(o, Wait(a.w), Wait(b.w), blank, csi, left - 1);
      }
    }
  }

  // ----- a healthy selection stays -----

  ghost predicate Healthy(o: Oracle, csi: Csi, ip: string) {
    forall n: nat, mem: Memory :: mem.pattern == FILTER ==> o.healthy(n, Url(ip, csi, mem))
  }

  /** `ip` is the stored address, and the remembered one unless that is empty. */
  predicate Selected(objs: Store, mem: Memory, csi: Csi, ip: string) {
    ip != "" && IsStored(objs, csi, ip) && (mem.ip == "" || mem.ip == ip)
  }

  /** A remembered address that answers is used without any call on the ConfigMap. */
  lemma {:induction false} RememberedStays(o: Oracle, w: World, mem: Memory, csi: Csi, ip: string)
    requires Healthy(o, csi, ip) && ip != "" && mem.ip == ip && mem.pattern == FILTER
    ensures AfterGetAddress(o, w, mem, csi) == AddressStep(Tick(o, w), mem, Some(ip))
  {
  }

  /** One search keeps a selection that answers exactly when it is remembered, can be
      read, or is what the pods lead to. */
  lemma {:induction false} SearchKeepsIff(o: Oracle, w: World, mem: Memory, csi: Csi, ip: string)
    requires Healthy(o, csi, ip) && Selected(w.objs, mem, csi, ip) && mem.pattern == FILTER
    ensures AfterGetAddress(o, w, mem, csi).ip == Some(ip)
       <==> || mem.ip == ip || o.fault(w.calls, GetVerb, AddressKey(csi)) == NoFault
            || AfterListAndScan(o, Tick(o, w), mem, csi).ip == Some(ip)
  {
    hide AfterListAndScan;
  }

  /** Through all attempts: the address is forgotten, its reads fail, and the first attempt
      whose pods lead anywhere leads to another address. */
  predicate Replaced(o: Oracle, w: World, mem: Memory, csi: Csi, ip: string, left: nat)
    decreases left
  {
    && left > 0 && mem.ip != ip && o.fault(w.calls, GetVerb, AddressKey(csi)) != NoFault
    && var a := AfterListAndScan(o, Tick(o, w), mem, csi);
       if a.ip.Some? then a.ip.value != ip
       else Replaced(o, Wait(a.w), a.mem.(ip := ""), csi, ip, left - 1)
  }

  lemma {:induction false} RetriesKeepIff(o: Oracle, w: World, mem: Memory, csi: Csi, ip: string, left: nat)
    requires Healthy(o, csi, ip) && Selected(w.objs, mem, csi, ip) && mem.pattern == FILTER
    requires NotMarked(w.objs, AddressKey(csi))
    ensures var a := AfterAddressRetries(o, w, mem, csi, left);
            && (Selected(a.w.objs, a.mem, csi, ip) <==> !Replaced(o, w, mem, csi, ip, left))
    decreases left
  {
    hide AfterListAndScan, Ends, StoresFrom;
    if left > 0 {
      var a := AfterGetAddress(o, w, mem, csi);
      if mem.ip == ip {
        RememberedStays(o, w, mem, csi, ip);
      } else if o.fault(w.calls, GetVerb, AddressKey(csi)) != NoFault {
        assert a == AfterListAndScan(o, Tick(o, w), mem, csi);
        ListEnds(o, Tick(o, w), mem, csi);
        ScannedKeepsIff(o, Tick(o, w), mem, a, csi, ip);
        if a.ip.None? { RetriesKeepIff(o, Wait(a.w), a.mem.(ip := ""), csi, ip, left - 1); }
      }
    }
  }

  /** What a scan stores is the address it returns, or nothing changes. */
  lemma {:induction false} ScannedKeepsIff(o: Oracle, w: World, mem: Memory, a: AddressStep, csi: Csi, ip: string)
    requires Ends(o, w, mem, a, csi) && Selected(w.objs, mem, csi, ip) && NotMarked(w.objs, AddressKey(csi))
    requires mem.pattern == FILTER
    ensures a.ip.Some? ==> (Selected(a.w.objs, a.mem, csi, ip) <==> a.ip.value == ip)
    ensures a.ip.None? ==> a.w.objs == w.objs && a.mem.pattern == FILTER
  {
    hide AfterApplyConfigMap;
    if a.ip == Some(ip) {
      forall v | StoresFrom(o, w, a, csi, v) ensures IsStored(a.w.objs, csi, ip) {
        StoredIffLands(o, v, csi, ip);
      }
    }
  }

  /** The update began without the address in memory, could not read it, and took another. */
  ghost predicate UpdateReplaces(o: Oracle, s: State, csi: Csi, ip: string) {
    var search := Search(o, s, csi);
    search.Some? && Replaced(o, search.value.0.w, search.value.0.mem, csi, ip, ADDRESS_RETRIES)
  }

  lemma {:induction false} UpdateKeepsIff(o: Oracle, s: State, csi: Csi, ip: string)
    requires csi.platform.OpenShift? && Healthy(o, csi, ip) && Selected(s.w.objs, s.mem, csi, ip)
    requires NotMarked(s.w.objs, AddressKey(csi))
    ensures var p := AfterPatcherUpdate(o, s.w, s.mem, csi);
            Selected(p.w.objs, p.mem, csi, ip) <==> !UpdateReplaces(o, s, csi, ip)
  {
    hide AfterPatcherUpdate, AfterAddressRetries, Replaced, Healthy;
    UpdateIsSearch(o, s, csi);
    var search := Search(o, s, csi);
    if search.Some? { RetriesKeepIff(o, search.value.0.w, search.value.0.mem, csi, ip, ADDRESS_RETRIES); }
  }

  /** Updates never mark the address ConfigMap, whatever fails. */
  lemma {:induction false} UpdateKeepsUnmarked(o: Oracle, s: State, csi: Csi)
    requires csi.platform.OpenShift? && NotMarked(s.w.objs, AddressKey(csi))
    ensures NotMarked(AfterPatcherUpdate(o, s.w, s.mem, csi).w.objs, AddressKey(csi))
  {
    hide AfterPatcherUpdate, AfterAddressRetries;
    UpdateIsSearch(o, s, csi);
    var search := Search(o, s, csi);
    if search.Some? { RetriesKeepUnmarked(o, search.value.0.w, search.value.0.mem, csi, ADDRESS_RETRIES); }
  }

  lemma {:induction false} RetriesKeepUnmarked(o: Oracle, w: World, mem: Memory, csi: Csi, left: nat)
    requires NotMarked(w.objs, AddressKey(csi))
    ensures NotMarked(AfterAddressRetries(o, w, mem, csi, left).w.objs, AddressKey(csi))
    decreases left
  {
    hide AfterListAndScan, Ends;
    if left > 0 {
      var a := AfterGetAddress(o, w, mem, csi);
      forall v: World | v.objs == w.objs ensures NotMarked(AfterListAndScan(o, v, mem, csi).w.objs, AddressKey(csi)) {
        ScanKeepsUnmarked(o, v, mem, csi);
      }
      if a.ip.None? { RetriesKeepUnmarked(o, Wait(a.w), a.mem.(ip := ""), csi, left - 1); }
    }
  }

  lemma {:induction false} ScanKeepsUnmarked(o: Oracle, w: World, mem: Memory, csi: Csi)
    requires NotMarked(w.objs, AddressKey(csi))
    ensures NotMarked(AfterListAndScan(o, w, mem, csi).w.objs, AddressKey(csi))
  {
    hide AfterListAndScan, AfterApplyConfigMap;
    ListEnds(o, w, mem, csi);
    var a := AfterListAndScan(o, w, mem, csi);
    if v :| StoresFrom(o, w, a, csi, v) { StoredIffLands(o, v, csi, a.ip.value); }
  }

  lemma {:induction false} RunKeepsUnmarked(o: Oracle, csi: Csi, states: seq<State>, events: seq<Event>, i: nat)
    requires csi.platform.OpenShift? && Run(o, csi, states, events) && AddressIsOurs(csi, states, events)
    requires NotMarked(states[0].w.objs, AddressKey(csi)) && i < |states|
    ensures NotMarked(states[i].w.objs, AddressKey(csi))
  {
    hide AfterPatcherUpdate, AfterUnpatchOpenShift;
    if i > 0 {
      RunKeepsUnmarked(o, csi, states, events, i - 1);
      var s := states[i - 1];
      assert StepOf(o, csi, s, states[i], events[i - 1]);
      UpdateKeepsUnmarked(o, s, csi);
      UnpatchKeepsAddress(o, s.w, s.mem, csi);
    }
  }

  ghost predicate SelectedFromTo(csi: Csi, states: seq<State>, i: nat, j: nat, ip: string)
    requires j < |states|
  {
    forall m :: i <= m <= j ==> Selected(states[m].w.objs, states[m].mem, csi, ip)
  }

  ghost predicate NoneReplaces(o: Oracle, csi: Csi, states: seq<State>, events: seq<Event>, i: nat, j: nat, ip: string)
    requires j <= |events| < |states|
  {
    forall m :: i <= m < j && events[m].UpdateEvent? ==> !UpdateReplaces(o, states[m], csi, ip)
  }

  /** From a state with a selection that keeps answering, the run keeps it, in memory or at
      least in the ConfigMap, restarts included, exactly when no update replaces it; what
      writes fail does not matter. */
  lemma {:induction false} HealthySelectionStaysIff(
    o: Oracle, csi: Csi, states: seq<State>, events: seq<Event>, i: nat, j: nat, ip: string)
    requires csi.platform.OpenShift? && Healthy(o, csi, ip)
    requires Run(o, csi, states, events) && AddressIsOurs(csi, states, events)
    requires NotMarked(states[0].w.objs, AddressKey(csi))
    requires i <= j < |states| && Selected(states[i].w.objs, states[i].mem, csi, ip)
    ensures SelectedFromTo(csi, states, i, j, ip) <==> NoneReplaces(o, csi, states, events, i, j, ip)
    decreases j
  {
    hide AfterPatcherUpdate, AfterUnpatchOpenShift, Healthy, UpdateReplaces;
    if i < j {
      HealthySelectionStaysIff(o, csi, states, events, i, j - 1, ip);
      var s := states[j - 1];
      assert StepOf(o, csi, s, states[j], events[j - 1]);
      RunKeepsUnmarked(o, csi, states, events, j - 1);
      if SelectedFromTo(csi, states, i, j - 1, ip) {
        assert Selected(s.w.objs, s.mem, csi, ip);
        UpdateKeepsIff(o, s, csi, ip);
        UnpatchKeepsAddress(o, s.w, s.mem, csi);
      }
    }
  }

  /** A replacement in a run takes an update that began without the address in memory and
      whose first read of the ConfigMap failed. */
  lemma {:induction false} ReplacementMeansFailedRead(
    o: Oracle, csi: Csi, states: seq<State>, events: seq<Event>, i: nat, j: nat, ip: string) returns (m: nat)
    requires csi.platform.OpenShift? && Healthy(o, csi, ip)
    requires Run(o, csi, states, events) && AddressIsOurs(csi, states, events)
    requires NotMarked(states[0].w.objs, AddressKey(csi))
    requires i <= j < |states| && Selected(states[i].w.objs, states[i].mem, csi, ip)
    requires !Selected(states[j].w.objs, states[j].mem, csi, ip)
    ensures i <= m < j && events[m].UpdateEvent? && Selected(states[m].w.objs, states[m].mem, csi, ip)
    ensures states[m].mem.ip == ""
    ensures var search := Search(o, states[m], csi);
            search.Some? && o.fault(search.value.0.w.calls, GetVerb, AddressKey(csi)) != NoFault
    decreases j
  {
    hide AfterPatcherUpdate, Search, Healthy, StepOf, AfterListAndScan;
    assert !SelectedFromTo(csi, states, i, j, ip);
    HealthySelectionStaysIff(o, csi, states, events, i, j, ip);
    if Selected(states[j - 1].w.objs, states[j - 1].mem, csi, ip) {
      m := j - 1;
      LastStepReplaces(o, csi, states, events, m, ip);
    } else {
      m := ReplacementMeansFailedRead(o, csi, states, events, i, j - 1, ip);
    }
  }

  lemma {:induction false} LastStepReplaces(
    o: Oracle, csi: Csi, states: seq<State>, events: seq<Event>, m: nat, ip: string)
    requires csi.platform.OpenShift? && Healthy(o, csi, ip)
    requires Run(o, csi, states, events) && AddressIsOurs(csi, states, events)
    requires NotMarked(states[0].w.objs, AddressKey(csi)) && m < |events|
    requires Selected(states[m].w.objs, states[m].mem, csi, ip)
    requires !Selected(states[m + 1].w.objs, states[m + 1].mem, csi, ip)
    ensures events[m].UpdateEvent? && UpdateReplaces(o, states[m], csi, ip) && states[m].mem.ip == ""
    ensures var search := Search(o, states[m], csi);
            search.Some? && o.fault(search.value.0.w.calls, GetVerb, AddressKey(csi)) != NoFault
  {
    hide AfterPatcherUpdate, Search, Healthy, AfterListAndScan;
    HealthySelectionStaysIff(o, csi, states, events, m, m + 1, ip);
    assert !SelectedFromTo(csi, states, m, m + 1, ip);
    UpdateIsSearch(o, states[m], csi);
  }

  /** With reads that work a selection that keeps answering is never replaced, whatever
      writes fail. */
  lemma {:induction false} HealthySelectionStays(
    o: Oracle, csi: Csi, states: seq<State>, events: seq<Event>, i: nat, j: nat, ip: string)
    requires csi.platform.OpenShift? && ReadsWork(o, csi) && Healthy(o, csi, ip)
    requires Run(o, csi, states, events) && AddressIsOurs(csi, states, events)
    requires NotMarked(states[0].w.objs, AddressKey(csi))
    requires i <= j < |states| && Selected(states[i].w.objs, states[i].mem, csi, ip)
    ensures Selected(states[j].w.objs, states[j].mem, csi, ip)
  {
    hide Search, Healthy, Run, AddressIsOurs, Selected;
    if !Selected(states[j].w.objs, states[j].mem, csi, ip) {
      var m := ReplacementMeansFailedRead(o, csi, states, events, i, j, ip);
      assert false;
    }
  }

  // ----- why the calls on the ConfigMap have to succeed -----

  /** One extender pod runs, and it answers. */
  ghost predicate OnePod(o: Oracle, objs: Store, csi: Csi, pod: Key, ip: string) {
    && ip != "" && pod in objs && Phase(objs[pod]) == "Running" && PodIp(objs[pod]) == ip
    && (forall k :: k in objs ==> (Selects(EXTENDER_PODS, k, objs[k]) <==> k == pod))
    && forall n: nat, mem :: o.healthy(n, Url(ip, csi, mem))
  }

  lemma {:induction false} TakesOnlyPod(o: Oracle, w: World, mem: Memory, csi: Csi, pod: Key, ip: string)
    requires OnePod(o, w.objs, csi, pod, ip) && o.fault(w.calls, ListVerb, Key(Pod, "", "")) == NoFault
    ensures AfterListAndScan(o, w, mem, csi)
         == AddressStep(
              AfterApplyConfigMap(o, Tick(o, Tick(o, w)), AddressKey(csi), map[IP_FIELD := ip]).w,
              mem.(ip := ip), Some(ip))
  {
    hide AfterApplyConfigMap, Url, Selects;
    var l := AfterList(o, w, EXTENDER_PODS);
    assert Has(l.items, pod);
    assert l.items[0].key == pod && l.items[0].obj == w.objs[pod];
    assert o.healthy(l.w.calls, Url(ip, csi, mem));
  }

  /** A write that is refused leaves the memory ahead of the ConfigMap. */
  lemma {:induction false} RefusedWriteBreaksCoherence(o: Oracle, w: World, csi: Csi, pod: Key, ip: string)
    requires OnePod(o, w.objs, csi, pod, ip) && AddressKey(csi) !in w.objs
    requires o.fault(w.calls, GetVerb, AddressKey(csi)) == NoFault
    requires o.fault(w.calls + 1, ListVerb, Key(Pod, "", "")) == NoFault
    requires o.fault(w.calls + 4, CreateVerb, AddressKey(csi)) == Refused
    ensures Coherent(w.objs, FORGETFUL, csi)
    ensures var a := AfterGetAddress(o, w, FORGETFUL, csi); a.ip == Some(ip) && !Coherent(a.w.objs, a.mem, csi)
  {
    hide AfterListAndScan;
    TakesOnlyPod(o, AfterGet(o, w, AddressKey(csi)).w, FORGETFUL, csi, pod, ip);
  }

  /** A read that is refused makes a restarted operator replace an address that answers. */
  lemma {:induction false} RefusedReadReplacesSelection(
    o: Oracle, w: World, csi: Csi, pod: Key, ip: string, selected: string)
    requires OnePod(o, w.objs, csi, pod, ip) && selected != ip && Healthy(o, csi, selected)
    requires Selected(w.objs, FORGETFUL, csi, selected) && NotMarked(w.objs, AddressKey(csi))
    requires o.fault(w.calls, GetVerb, AddressKey(csi)) == Refused
    requires o.fault(w.calls + 1, ListVerb, Key(Pod, "", "")) == NoFault
    requires o.fault(w.calls + 3, GetVerb, AddressKey(csi)) == NoFault
    requires o.fault(w.calls + 4, UpdateVerb, AddressKey(csi)) == NoFault
    ensures var a := AfterGetAddress(o, w, FORGETFUL, csi);
            && AddressKey(csi) in a.w.objs && StoredAddress(a.w.objs[AddressKey(csi)]) == ip
            && !Selected(a.w.objs, a.mem, csi, selected)
  {
    hide AfterListAndScan;
    TakesOnlyPod(o, AfterGet(o, w, AddressKey(csi)).w, FORGETFUL, csi, pod, ip);
  }

  // ----- an address that is found answers -----

  /** Asked between the two worlds, the address answered, or did not. */
  ghost predicate Asked(o: Oracle, w: World, r: World, csi: Csi, pattern: string, ip: string, answer: bool) {
    exists n: nat :: w.calls <= n < r.calls && o.healthy(n, "http://" + ip + ":" + csi.extenderPort + pattern) == answer
  }

  /** A running pod of the extender with this address. */
  predicate Extender(pod: Item, ip: string) {
    ip != "" && pod.obj.spec.PodSpec? && pod.obj.spec.phase == "Running" && pod.obj.spec.ip == ip
  }

  /** The j-th pod has the address, and those before it from the i-th on did not answer. */
  ghost predicate Takes(
    o: Oracle, w: World, r: World, csi: Csi, pattern: string, pods: seq<Item>, i: nat, j: nat, ip: string)
    requires i <= j < |pods|
  {
    && Extender(pods[j], ip)
    && forall m, x :: i <= m < j && Extender(pods[m], x) ==> Asked(o, w, r, csi, pattern, x, false)
  }

  lemma {:induction false} AskedWithin(
    o: Oracle, w: World, v: World, u: World, r: World, csi: Csi, pattern: string, ip: string, answer: bool)
    requires w.calls <= v.calls && u.calls <= r.calls && Asked(o, v, u, csi, pattern, ip, answer)
    ensures Asked(o, w, r, csi, pattern, ip, answer)
  {
  }

  lemma {:induction false} ApplyCalls(o: Oracle, w: World, key: Key, data: map<string, string>)
    ensures w.calls < AfterApplyConfigMap(o, w, key, data).w.calls
  {
  }

  /** What a scan returns is the address of a running pod that answered; if it returns
      nothing, every running pod was asked and did not answer. */
  lemma {:induction false} ScanAnswers(o: Oracle, w: World, mem: Memory, csi: Csi, pods: seq<Item>, i: nat)
    requires i <= |pods|
    ensures var a := AfterScan(o, w, mem, csi, pods, i);
            && w.calls <= a.w.calls
            && (a.ip.Some? ==> Asked(o, w, a.w, csi, mem.pattern, a.ip.value, true)
                               && exists j :: i <= j < |pods|
                                              && Takes(o, w, a.w, csi, mem.pattern, pods, i, j, a.ip.value))
            && (a.ip.None? ==> forall j, ip :: i <= j < |pods| && Extender(pods[j], ip) ==>
                                 Asked(o, w, a.w, csi, mem.pattern, ip, false))
    decreases |pods| - i
  {
    hide AfterApplyConfigMap, Asked;
    var a := AfterScan(o, w, mem, csi, pods, i);
    if i < |pods| {
      var ip, t := PodIp(pods[i].obj), Tick(o, w);
      if Phase(pods[i].obj) != "Running" || ip == "" {
        ScanAnswers(o, w, mem, csi, pods, i + 1);
        if a.ip.Some? {
          var j :| i < j < |pods| && Takes(o, w, a.w, csi, mem.pattern, pods, i + 1, j, a.ip.value);
          assert Takes(o, w, a.w, csi, mem.pattern, pods, i, j, a.ip.value);
        }
      } else if !o.healthy(w.calls, Url(ip, csi, mem)) {
        ScanAnswers(o, t, mem, csi, pods, i + 1);
        AskedNow(o, w, a.w, csi, mem, ip);
        forall x, answer | Asked(o, t, a.w, csi, mem.pattern, x, answer)
          ensures Asked(o, w, a.w, csi, mem.pattern, x, answer)
        {
          AskedWithin(o, w, t, a.w, a.w, csi, mem.pattern, x, answer);
        }
        if a.ip.Some? {
          var j :| i < j < |pods| && Takes(o, t, a.w, csi, mem.pattern, pods, i + 1, j, a.ip.value);
          assert Takes(o, w, a.w, csi, mem.pattern, pods, i, j, a.ip.value);
        }
      } else {
        ApplyCalls(o, t, AddressKey(csi), map[IP_FIELD := ip]);
        AskedNow(o, w, a.w, csi, mem, ip);
        assert Takes(o, w, a.w, csi, mem.pattern, pods, i, i, ip);
      }
    }
  }

  lemma {:induction false} AskedNow(o: Oracle, w: World, r: World, csi: Csi, mem: Memory, ip: string)
    requires w.calls < r.calls
    ensures Asked(o, w, r, csi, mem.pattern, ip, o.healthy(w.calls, Url(ip, csi, mem)))
  {
  }

  /** A running extender pod of the store with this address. */
  predicate StoredExtender(objs: Store, pod: Key, ip: string) {
    && pod in objs && pod.kind == Pod
    && "name" in objs[pod].meta.labels && objs[pod].meta.labels["name"] == "csi-baremetal-se"
    && Extender(Item(pod, objs[pod]), ip)
  }

  lemma {:induction false} ListAnswers(o: Oracle, w: World, mem: Memory, csi: Csi)
    ensures var a := AfterListAndScan(o, w, mem, csi);
            && w.calls < a.w.calls
            && (a.ip.Some? ==> Asked(o, w, a.w, csi, mem.pattern, a.ip.value, true)
                               && exists k :: StoredExtender(w.objs, k, a.ip.value))
            && (a.ip.None? && o.fault(w.calls, ListVerb, Key(Pod, "", "")) == NoFault ==>
                  forall k, ip :: StoredExtender(w.objs, k, ip) ==> Asked(o, w, a.w, csi, mem.pattern, ip, false))
  {
    hide AfterScan, Asked, Extender;
    var l, a := AfterList(o, w, EXTENDER_PODS), AfterListAndScan(o, w, mem, csi);
    if l.ok {
      ScanAnswers(o, l.w, mem, csi, l.items, 0);
      forall x, answer | Asked(o, l.w, a.w, csi, mem.pattern, x, answer)
        ensures Asked(o, w, a.w, csi, mem.pattern, x, answer)
      {
        AskedWithin(o, w, l.w, a.w, a.w, csi, mem.pattern, x, answer);
      }
      if a.ip.Some? {
        var j :| 0 <= j < |l.items| && Takes(o, l.w, a.w, csi, mem.pattern, l.items, 0, j, a.ip.value);
        assert l.items[j] == Item(l.items[j].key, w.objs[l.items[j].key]);
        assert StoredExtender(w.objs, l.items[j].key, a.ip.value);
      } else {
        forall k, ip | StoredExtender(w.objs, k, ip) ensures Asked(o, w, a.w, csi, mem.pattern, ip, false) {
          assert Selects(EXTENDER_PODS, k, w.objs[k]) && Has(l.items, k);
          var j :| 0 <= j < |l.items| && l.items[j].key == k;
          assert Extender(l.items[j], ip);
        }
      }
    }
  }

  /** Where an address comes from: it was remembered, it was stored, or a running pod of
      the store has it. */
  ghost predicate Known(objs: Store, mem: Memory, csi: Csi, ip: string) {
    (mem.ip == ip && ip != "") || IsStored(objs, csi, ip) || exists k :: StoredExtender(objs, k, ip)
  }

  /** Every address the search returns has answered in this search, and it is known. */
  lemma {:induction false} FoundAnswers(o: Oracle, w: World, mem: Memory, csi: Csi)
    ensures var a := AfterGetAddress(o, w, mem, csi);
            && w.calls < a.w.calls
            && (a.ip.Some? ==> Asked(o, w, a.w, csi, mem.pattern, a.ip.value, true)
                               && Known(w.objs, mem, csi, a.ip.value))
  {
    hide AfterListAndScan, Asked, StoredExtender;
    var a := AfterGetAddress(o, w, mem, csi);
    forall v: World | v.objs == w.objs && w.calls <= v.calls
      ensures var b := AfterListAndScan(o, v, mem, csi);
              && w.calls < b.w.calls
              && (b.ip.Some? ==> Asked(o, w, b.w, csi, mem.pattern, b.ip.value, true)
                                 && Known(w.objs, mem, csi, b.ip.value))
    {
      ListAnswers(o, v, mem, csi);
      var b := AfterListAndScan(o, v, mem, csi);
      if b.ip.Some? { AskedWithin(o, w, v, b.w, b.w, csi, mem.pattern, b.ip.value, true); }
    }
    forall v: World, r: World, ip | w.calls <= v.calls < r.calls && o.healthy(v.calls, Url(ip, csi, mem))
      ensures Asked(o, w, r, csi, mem.pattern, ip, true)
    {
      AskedNow(o, v, r, csi, mem, ip);
      AskedWithin(o, w, v, r, r, csi, mem.pattern, ip, true);
    }
    if mem.ip != "" && o.healthy(w.calls, Url(mem.ip, csi, mem)) {
      assert w.calls <= w.calls < Tick(o, w).calls;
    } else {
      var x := if mem.ip == "" then w else Tick(o, w);
      assert a == AfterLookup(o, x, mem, csi);
      var g := AfterGet(o, x, AddressKey(csi)).w;
      assert w.calls <= g.calls < Tick(o, g).calls;
    }
  }

  /** Through all attempts: an address is returned only if it answered. */
  lemma {:induction false} RetriesAnswer(o: Oracle, w: World, mem: Memory, csi: Csi, left: nat)
    ensures var a := AfterAddressRetries(o, w, mem, csi, left);
            && w.calls <= a.w.calls
            && (a.ip.Some? ==> Asked(o, w, a.w, csi, mem.pattern, a.ip.value, true))
    decreases left
  {
    hide AfterGetAddress, Asked;
    if left > 0 {
      var a := AfterGetAddress(o, w, mem, csi);
      FoundAnswers(o, w, mem, csi);
      if a.ip.None? {
        AddressMode(o, w, mem, csi);
        var next := a.mem.(ip := "");
        RetriesAnswer(o, Wait(a.w), next, csi, left - 1);
        var b := AfterAddressRetries(o, Wait(a.w), next, csi, left - 1);
        if b.ip.Some? { AskedWithin(o, w, Wait(a.w), b.w, b.w, csi, mem.pattern, b.ip.value, true); }
      }
    }
  }

  /** Without faults a search with at least one attempt finds an address if some running
      extender pod answers whenever it is asked. */
  lemma {:induction false} AnsweringPodIsFound(
    o: Oracle, w: World, mem: Memory, csi: Csi, left: nat, pod: Key, ip: string)
    requires Quiet(o, w.calls) && left > 0 && StoredExtender(w.objs, pod, ip)
    requires forall n: nat :: o.healthy(n, "http://" + ip + ":" + csi.extenderPort + mem.pattern)
    ensures AfterAddressRetries(o, w, mem, csi, left).ip.Some?
  {
    hide AfterListAndScan, StoredExtender;
    forall v: World | v.objs == w.objs && w.calls <= v.calls ensures AfterListAndScan(o, v, mem, csi).ip.Some? {
      ListAnswers(o, v, mem, csi);
      assert o.fault(v.calls, ListVerb, Key(Pod, "", "")) == NoFault;
    }
  }
}
