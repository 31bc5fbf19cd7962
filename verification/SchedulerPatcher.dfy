/** The patcher of the kube-scheduler configuration. */
module SchedulerPatcher {
  import opened Api
  import opened Updates
  import opened Patching
  import Rbac

  class Patcher {
    const server: Server
    const validator: Rbac.Validator
    var kubernetesVersion: Option<Version>
    var useSecondary: bool
    var selectedIp: string
    var pattern: string

    constructor (server: Server)
      ensures this.server == server && Valid() && Remembers() == FORGETFUL
    {
      this.server := server;
      validator := new Rbac.Validator(server);
      kubernetesVersion, useSecondary, selectedIp, pattern := None, false, "", "";
    }

    predicate Valid() {
      validator.server == server
    }

    function Remembers(): Memory
      reads this
    {
      Memory(kubernetesVersion, useSecondary, selectedIp, pattern)
    }

    method UseSecondaryScheduler(platform: Platform) returns (mode: Option<bool>)
      modifies this, server
      ensures ModeStep(server.Now(), Remembers(), mode)
           == AfterUseSecondary(server.oracle, old(server.Now()), old(Remembers()), platform)
    {
      if platform.OpenShift? && kubernetesVersion.None? {
        var v := server.oracle.version(server.calls);
        server.Elapse();
        if v.None? { return None; }
        kubernetesVersion := v;
        useSecondary := v.value.major >= 1 && v.value.minor > 22;
      }
      return Some(useSecondary);
    }

    method CheckExtender(ip: string, csi: Csi) returns (healthy: bool)
      modifies server
      ensures server.Now() == Tick(server.oracle, old(server.Now()))
      ensures healthy == server.oracle.healthy(old(server.calls), Url(ip, csi, Remembers()))
    {
      healthy := server.oracle.healthy(server.calls, Url(ip, csi, Remembers()));
      server.Elapse();
    }

    method GetExtenderAddress(csi: Csi) returns (ip: Option<string>)
      modifies this, server
      ensures AddressStep(server.Now(), Remembers(), ip)
           == AfterGetAddress(server.oracle, old(server.Now()), old(Remembers()), csi)
    {
      hide AfterGet, AfterList, AfterApplyConfigMap, Url, Lists;
      if selectedIp != "" {
        var healthy := CheckExtender(selectedIp, csi);
        if healthy { return Some(selectedIp); }
      }
      var stored := server.Get(AddressKey(csi));
      if stored.Found? {
        var storedIp := StoredAddress(stored.obj);
        if storedIp != selectedIp {
          var healthy := CheckExtender(storedIp, csi);
          if healthy {
            selectedIp := storedIp;
            return Some(storedIp);
          }
        }
      }
      var listed, pods := server.List(EXTENDER_PODS);
      if !listed { return None; }
      ghost var start, mem := server.Now(), Remembers();
      for i := 0 to |pods|
        invariant Remembers() == mem
        invariant AfterScan(server.oracle, start, mem, csi, pods, 0)
               == AfterScan(server.oracle, server.Now(), mem, csi, pods, i)
      {
        if Phase(pods[i].obj) != "Running" { continue; }
        var podIp := PodIp(pods[i].obj);
        if podIp != "" {
          var healthy := CheckExtender(podIp, csi);
          if healthy {
            selectedIp := podIp;
            var _ := ApplyConfigMap(server, AddressKey(csi), map[IP_FIELD := podIp]);
            return Some(podIp);
          }
        }
      }
      return None;
    }

    method CreateOpenShiftConfig(csi: Csi, maxRetries: nat) returns (ip: Option<string>)
      modifies this, server
      ensures AddressStep(server.Now(), Remembers(), ip)
           == AfterAddressRetries(server.oracle, old(server.Now()), old(Remembers()), csi, maxRetries)
    {
      hide AfterGetAddress;
      for i := 0 to maxRetries
        invariant AfterAddressRetries(server.oracle, old(server.Now()), old(Remembers()), csi, maxRetries)
               == AfterAddressRetries(server.oracle, server.Now(), Remembers(), csi, maxRetries - i)
      {
        ip := GetExtenderAddress(csi);
        if ip.Some? { return; }
        selectedIp := "";
        server.clock := server.clock + RETRY_INTERVAL;
      }
      return None;
    }

    method PatchOpenShift(csi: Csi, secondary: bool) returns (ok: bool)
      modifies this, server
      ensures PStep(server.Now(), Remembers(), ok)
           == AfterPatchOpenShift(server.oracle, old(server.Now()), old(Remembers()), csi, secondary)
    {
      var data := PolicyData(csi);
      if secondary {
        var ip := CreateOpenShiftConfig(csi, ADDRESS_RETRIES);
        if ip.None? { return false; }
        data := SecondaryData(ip.value, csi);
      }
      var stored := ApplyConfigMap(server, OpenShiftMapKey(secondary), data);
      if !stored { return false; }
      if secondary {
        ok := PatchSecondaryScheduler(csi);
      } else {
        ok := PatchScheduler();
      }
    }

    method UnpatchOpenShift() returns (ok: bool)
      modifies this, server
      ensures PStep(server.Now(), Remembers(), ok)
           == AfterUnpatchOpenShift(server.oracle, old(server.Now()), old(Remembers()))
    {
      var mode := UseSecondaryScheduler(OpenShift);
      if mode.None? { return false; }
      var deleted := server.Delete(OpenShiftMapKey(mode.value));
      var unpatched;
      if mode.value {
        unpatched := UnpatchSecondaryScheduler();
      } else {
        unpatched := UnpatchScheduler();
      }
      ok := deleted && unpatched;
    }

    method RetryPatchOpenShift(csi: Csi, secondary: bool) returns (ok: bool)
      modifies this, server
      ensures PStep(server.Now(), Remembers(), ok)
           == AfterRetryOpenShift(server.oracle, old(server.Now()), old(Remembers()), csi, secondary)
    {
      ok := UnpatchOpenShift();
      if ok { ok := PatchOpenShift(csi, secondary); }
    }

    method PatchScheduler() returns (ok: bool)
      modifies server
      ensures Step(server.Now(), ok) == AfterPatchScheduler(server.oracle, old(server.Now()))
    {
      var sc := server.Get(SCHEDULER_KEY);
      if !sc.Found? { return false; }
      if Policy(sc.obj) == "" {
        ok := server.Update(SCHEDULER_KEY, sc.obj.(spec := SchedulerSpec(POLICY_MAP)));
      } else {
        ok := Policy(sc.obj) == POLICY_MAP;
      }
    }

    method UnpatchScheduler() returns (ok: bool)
      modifies server
      ensures Step(server.Now(), ok) == AfterUnpatchScheduler(server.oracle, old(server.Now()))
    {
      var sc := server.Get(SCHEDULER_KEY);
      if !sc.Found? { return false; }
      if Policy(sc.obj) == "" { return true; }
      if Policy(sc.obj) != POLICY_MAP { return false; }
      ok := server.Update(SCHEDULER_KEY, sc.obj.(spec := SchedulerSpec("")));
    }

    method PatchSecondaryScheduler(csi: Csi) returns (ok: bool)
      modifies server
      ensures Step(server.Now(), ok) == AfterPatchSecondary(server.oracle, old(server.Now()), csi)
    {
      var found := server.Get(SECONDARY_KEY);
      if found.Unknown? { return false; }
      if found.NotFound? {
        ok := server.Create(SECONDARY_KEY, Object(NewMeta(), SecondarySpec(SECONDARY_MAP, csi.image)));
        return;
      }
      if Config(found.obj) != SECONDARY_MAP { return false; }
      ok := true;
      if found.obj.spec.image != csi.image {
        ok := server.Update(SECONDARY_KEY, found.obj.(spec := found.obj.spec.(image := csi.image)));
      }
    }

    method UnpatchSecondaryScheduler() returns (ok: bool)
      modifies server
      ensures Step(server.Now(), ok) == AfterUnpatchSecondary(server.oracle, old(server.Now()))
    {
      var found := server.Get(SECONDARY_KEY);
      if !found.Found? { return false; }
      ok := true;
      if Config(found.obj) == SECONDARY_MAP { ok := server.Delete(SECONDARY_KEY); }
    }

    method UpdateVanillaDaemonSet(csi: Csi)
      requires Valid()
      modifies server
      ensures server.Now() == AfterVanillaDaemonSet(server.oracle, old(server.Now()), csi)
    {
      if csi.policyCheck.Some? {
        var verdict := validator.ValidateServiceAccountIsBound(csi.policyCheck.value);
        if !verdict.Valid? { return; }
      }
      var _ := ApplyDaemonSet(server, PatcherKey(csi), PatcherSpec(csi));
    }

    method UpdateVanilla(csi: Csi)
      requires Valid()
      modifies server
      ensures server.Now() == AfterVanilla(server.oracle, old(server.Now()), csi)
    {
      var stored := ApplyConfigMap(server, WatchedKey(csi, false), csi.vanillaData);
      if stored { UpdateVanillaDaemonSet(csi); }
    }

    method RetryPatchVanilla(csi: Csi) returns (ok: bool)
      requires Valid()
      modifies server
      ensures Step(server.Now(), ok) == AfterRetryVanilla(server.oracle, old(server.Now()), csi)
    {
      ok := server.Delete(PatcherKey(csi));
      if !ok { return; }
      ok := server.Delete(WatchedKey(csi, false));
      if !ok { return; }
      UpdateVanilla(csi);
    }

    method ReadinessStatuses(csi: Csi, secondary: bool, created: int) returns (statuses: Option<seq<Status>>)
      modifies server
      ensures StatusStep(server.Now(), statuses)
           == AfterStatuses(server.oracle, old(server.Now()), csi, secondary, created)
    {
      var listed, pods := server.List(SchedulerPods(csi, secondary));
      if !listed { return None; }
      var result: seq<Status> := [];
      for i := 0 to |pods|
        invariant |result| == i && forall j :: 0 <= j < i ==> result[j] == StatusOf(pods[j], created)
      {
        var pod, restarted := pods[i].obj, true;
        if !pod.spec.PodSpec? || pod.spec.started.None? {
          restarted := false;
        } else if pod.spec.started.value.None? {
          restarted := false;
        } else if pod.spec.started.value.value < created {
          restarted := false;
        }
        result := result + [Status(NodeName(pod), pods[i].key.name, restarted)];
      }
      assert result == StatusesOf(pods, created);
      return Some(result);
    }

    method SecondaryReadinessStatuses(csi: Csi, created: int, numRetries: nat) returns (statuses: Option<seq<Status>>)
      modifies server
      ensures StatusStep(server.Now(), statuses)
           == AfterSecondaryStatuses(server.oracle, old(server.Now()), csi, created, numRetries)
    {
      hide AfterStatuses, AfterList;
      var last: seq<Status> := [];
      ghost var start := server.Now();
      var i: nat := 0;
      var ready := false;
      while i < numRetries && !ready
        invariant i <= numRetries
        invariant AfterSecondaryLooks(server.oracle, start, csi, created, [], numRetries)
               == if ready then StatusStep(server.Now(), Some(last))
                  else AfterSecondaryLooks(server.oracle, server.Now(), csi, created, last, numRetries - i)
        decreases numRetries - i, !ready
      {
        var s := ReadinessStatuses(csi, true, created);
        if s.None? { return None; }
        last := s.value;
        ready := |last| == 1 && last[0].restarted;
        if !ready {
          server.clock := server.clock + RETRY_INTERVAL;
          i := i + 1;
        }
      }
      var scheduler := if |last| > 0 then last[0].scheduler else "";
      var listed, masters := server.List(MASTERS);
      if !listed { return None; }
      var result: seq<Status> := [];
      for j := 0 to |masters|
        invariant |result| == j
        invariant forall m :: 0 <= m < j ==> result[m] == Status(masters[m].key.name, scheduler, true)
      {
        result := result + [Status(masters[j].key.name, scheduler, true)];
      }
      assert result == MasterStatuses(masters, scheduler);
      return Some(result);
    }

    static method IsAllReady(statuses: seq<Status>) returns (ready: bool)
      ensures ready == AllReady(statuses)
    {
      for i := 0 to |statuses|
        invariant forall j :: 0 <= j < i ==> statuses[j].restarted
      {
        if !statuses[i].restarted { return false; }
      }
      return true;
    }

    method UpdateReadiness(csi: Csi, secondary: bool) returns (ok: bool)
      requires Valid()
      modifies this, server
      ensures PStep(server.Now(), Remembers(), ok)
           == AfterReadiness(server.oracle, old(server.Now()), old(Remembers()), csi, secondary)
    {
      if csi.platform.Unsupported? { return false; }
      var watched := server.Get(WatchedKey(csi, secondary));
      if !watched.Found? { return false; }
      var created := watched.obj.meta.created;
      var statuses;
      if secondary {
        statuses := SecondaryReadinessStatuses(csi, created, STATUS_RETRIES);
      } else {
        statuses := ReadinessStatuses(csi, false, created);
      }
      if statuses.None? { return false; }
      ok := ApplyConfigMap(server, ReadinessKey(csi), map["nodes.yaml" := Yaml(statuses.value)]);
      if !ok { return; }
      var isTimeoutPassed := TimeoutPassed(created, server.clock, csi.readinessTimeout);
      var ready := IsAllReady(statuses.value);
      if !ready && isTimeoutPassed {
        if csi.platform.OpenShift? {
          ok := RetryPatchOpenShift(csi, secondary);
        } else {
          ok := RetryPatchVanilla(csi);
        }
      }
    }

    method Update(csi: Csi) returns (ok: bool)
      requires Valid()
      modifies this, server
      ensures PStep(server.Now(), Remembers(), ok)
           == AfterPatcherUpdate(server.oracle, old(server.Now()), old(Remembers()), csi)
    {
      if !PatchingEnabled(csi) { return true; }
      var mode := UseSecondaryScheduler(csi.platform);
      if mode.None? { return false; }
      if mode.value { pattern := "/filter"; }
      if csi.platform.OpenShift? {
        ok := PatchOpenShift(csi, mode.value);
        if !ok { return; }
      } else {
        UpdateVanilla(csi);
      }
      ok := UpdateReadiness(csi, mode.value);
    }

    method Uninstall(csi: Csi) returns (ok: bool)
      modifies this, server
      ensures PStep(server.Now(), Remembers(), ok)
           == AfterUninstall(server.oracle, old(server.Now()), old(Remembers()), csi)
    {
      ok := true;
      if PatchingEnabled(csi) && csi.platform.OpenShift? { ok := UnpatchOpenShift(); }
    }
  }
}
