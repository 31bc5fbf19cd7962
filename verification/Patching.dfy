/** The scheduler patcher as functions of the world and of what the operator process
    remembers between calls. */
module Patching {
  import opened Api
  import opened Updates
  import Rbac

  datatype Platform = OpenShift | Vanilla | Rke | Unsupported

  /** The parts of the Deployment resource the patcher reads; `policyCheck` is what the
      scheduler's account has to be granted when its pod security policy is enabled. */
  datatype Csi = Csi(
    namespace: string, platform: Platform, enabled: bool, configMapName: string,
    readinessTimeout: int, extenderPort: string, image: string, vanillaData: map<string, string>,
    patcherTemplate: string, policyCheck: Option<Rbac.Request>)

  /** Fields of the SchedulerPatcher; `version` is the memoised Kubernetes version. */
  datatype Memory = Memory(version: Option<Version>, secondary: bool, ip: string, pattern: string)

  const FORGETFUL := Memory(None, false, "", "")

  datatype PStep = PStep(w: World, mem: Memory, ok: bool)
  datatype AddressStep = AddressStep(w: World, mem: Memory, ip: Option<string>)

  predicate PatchingEnabled(csi: Csi) {
    csi.enabled && !csi.platform.Unsupported?
  }

  // ----- names -----

  const POLICY_MAP := "scheduler-policy"
  const SECONDARY_MAP := "csi-baremetal-scheduler-config"
  const SECONDARY_NAMESPACE := "openshift-secondary-scheduler-operator"
  const IP_FIELD := "selectedSchedulerExtenderIP"

  const SCHEDULER_KEY := Key(Scheduler, "", "cluster")
  const SECONDARY_KEY := Key(SecondaryScheduler, SECONDARY_NAMESPACE, "cluster")

  function AddressKey(csi: Csi): Key {
    Key(ConfigMap, csi.namespace, "selected-scheduler-extender-ip")
  }

  function OpenShiftMapKey(secondary: bool): Key {
    if secondary then Key(ConfigMap, SECONDARY_NAMESPACE, SECONDARY_MAP)
    else Key(ConfigMap, "openshift-config", POLICY_MAP)
  }

  /** The ConfigMap whose age tells whether schedulers have picked up the patch. */
  function WatchedKey(csi: Csi, secondary: bool): Key {
    if csi.platform.OpenShift? then OpenShiftMapKey(secondary)
    else Key(ConfigMap, csi.namespace, csi.configMapName)
  }

  function ReadinessKey(csi: Csi): Key {
    Key(ConfigMap, csi.namespace, "extender-readiness")
  }

  function PatcherKey(csi: Csi): Key {
    Key(DaemonSet, csi.namespace, "csi-baremetal-se-patcher")
  }

  // ----- which scheduler -----

  datatype ModeStep = ModeStep(w: World, mem: Memory, mode: Option<bool>)

  function AfterUseSecondary(o: Oracle, w: World, mem: Memory, platform: Platform): ModeStep {
    if !platform.OpenShift? || mem.version.Some? then ModeStep(w, mem, Some(mem.secondary))
    else
      match o.version(w.calls)
      case None => ModeStep(Tick(o, w), mem, None)
      case Some(v) =>
        var secondary := v.major >= 1 && v.minor > 22;
        ModeStep(Tick(o, w), mem.(version := Some(v), secondary := secondary), Some(secondary))
  }

  // ----- the address of the extender -----

  function Url(ip: string, csi: Csi, mem: Memory): string {
    "http://" + ip + ":" + csi.extenderPort + mem.pattern
  }

  function StoredAddress(obj: Object): string {
    if IP_FIELD in Data(obj) then Data(obj)[IP_FIELD] else ""
  }

  const EXTENDER_PODS := Selection(Pod, "", map["name" := "csi-baremetal-se"], {}, None)

  function Phase(obj: Object): string {
    if obj.spec.PodSpec? then obj.spec.phase else ""
  }

  function PodIp(obj: Object): string {
    if obj.spec.PodSpec? then obj.spec.ip else ""
  }

  /** The first running pod, from the i-th on, that answers is taken and stored. */
  function AfterScan(o: Oracle, w: World, mem: Memory, csi: Csi, pods: seq<Item>, i: nat): AddressStep
    requires i <= |pods|
    decreases |pods| - i
  {
    if i == |pods| then AddressStep(w, mem, None)
    else
      var ip := PodIp(pods[i].obj);
      if Phase(pods[i].obj) != "Running" || ip == "" then AfterScan(o, w, mem, csi, pods, i + 1)
      else if !o.healthy(w.calls, Url(ip, csi, mem)) then AfterScan(o, Tick(o, w), mem, csi, pods, i + 1)
      else
        var u := AfterApplyConfigMap(o, Tick(o, w), AddressKey(csi), map[IP_FIELD := ip]);
        AddressStep(u.w, mem.(ip := ip), Some(ip))
  }

  function AfterListAndScan(o: Oracle, w: World, mem: Memory, csi: Csi): AddressStep {
    var l := AfterList(o, w, EXTENDER_PODS);
    if !l.ok then AddressStep(l.w, mem, None) else AfterScan(o, l.w, mem, csi, l.items, 0)
  }

  function AfterLookup(o: Oracle, w: World, mem: Memory, csi: Csi): AddressStep {
    var g := AfterGet(o, w, AddressKey(csi));
    if g.reply.Found? && StoredAddress(g.reply.obj) != mem.ip then
      var ip := StoredAddress(g.reply.obj);
      if o.healthy(g.w.calls, Url(ip, csi, mem)) then AddressStep(Tick(o, g.w), mem.(ip := ip), Some(ip))
      else AfterListAndScan(o, Tick(o, g.w), mem, csi)
    else AfterListAndScan(o, g.w, mem, csi)
  }

  function AfterGetAddress(o: Oracle, w: World, mem: Memory, csi: Csi): AddressStep {
    if mem.ip == "" then AfterLookup(o, w, mem, csi)
    else if o.healthy(w.calls, Url(mem.ip, csi, mem)) then AddressStep(Tick(o, w), mem, Some(mem.ip))
    else AfterLookup(o, Tick(o, w), mem, csi)
  }

  const ADDRESS_RETRIES: nat := 12
  const RETRY_INTERVAL := 10000

  function Wait(w: World): World {
    w.(clock := w.clock + RETRY_INTERVAL)
  }

  /** After a failed attempt the address is forgotten and the process waits. */
  function AfterAddressRetries(o: Oracle, w: World, mem: Memory, csi: Csi, left: nat): AddressStep
    decreases left
  {
    if left == 0 then AddressStep(w, mem, None)
    else
      var a := AfterGetAddress(o, w, mem, csi);
      if a.ip.Some? then a
      else AfterAddressRetries(o, Wait(a.w), a.mem.(ip := ""), csi, left - 1)
  }

  // ----- OpenShift -----

  /** The configuration text differs only in this address. */
  function SecondaryData(ip: string, csi: Csi): map<string, string> {
    map["config.yaml" := "http://" + ip + ":" + csi.extenderPort]
  }

  function PolicyData(csi: Csi): map<string, string> {
    map["policy.cfg" := "http://127.0.0.1:" + csi.extenderPort]
  }

  function Policy(obj: Object): string {
    if obj.spec.SchedulerSpec? then obj.spec.policy else ""
  }

  function AfterPatchScheduler(o: Oracle, w: World): Step {
    var g := AfterGet(o, w, SCHEDULER_KEY);
    if !g.reply.Found? then Step(g.w, false)
    else if Policy(g.reply.obj) == "" then
      AfterUpdate(o, g.w, SCHEDULER_KEY, g.reply.obj.(spec := SchedulerSpec(POLICY_MAP)))
    else Step(g.w, Policy(g.reply.obj) == POLICY_MAP)
  }

  function AfterUnpatchScheduler(o: Oracle, w: World): Step {
    var g := AfterGet(o, w, SCHEDULER_KEY);
    if !g.reply.Found? then Step(g.w, false)
    else if Policy(g.reply.obj) == "" then Step(g.w, true)
    else if Policy(g.reply.obj) == POLICY_MAP then
      AfterUpdate(o, g.w, SCHEDULER_KEY, g.reply.obj.(spec := SchedulerSpec("")))
    else Step(g.w, false)
  }

  function Config(obj: Object): string {
    if obj.spec.SecondarySpec? then obj.spec.config else ""
  }

  function AfterPatchSecondary(o: Oracle, w: World, csi: Csi): Step {
    var g := AfterGet(o, w, SECONDARY_KEY);
    match g.reply
    case Unknown => Step(g.w, false)
    case NotFound =>
      AfterCreate(o, g.w, SECONDARY_KEY, Object(NewMeta(), SecondarySpec(SECONDARY_MAP, csi.image)))
    case Found(obj) =>
      if Config(obj) != SECONDARY_MAP then Step(g.w, false)
      else if obj.spec.image != csi.image then
        AfterUpdate(o, g.w, SECONDARY_KEY, obj.(spec := obj.spec.(image := csi.image)))
      else Step(g.w, true)
  }

  function AfterUnpatchSecondary(o: Oracle, w: World): Step {
    var g := AfterGet(o, w, SECONDARY_KEY);
    if !g.reply.Found? then Step(g.w, false)
    else if Config(g.reply.obj) == SECONDARY_MAP then AfterDelete(o, g.w, SECONDARY_KEY)
    else Step(g.w, true)
  }

  function AfterPatchEither(o: Oracle, w: World, csi: Csi, secondary: bool): Step {
    if secondary then AfterPatchSecondary(o, w, csi) else AfterPatchScheduler(o, w)
  }

  function AfterUnpatchEither(o: Oracle, w: World, secondary: bool): Step {
    if secondary then AfterUnpatchSecondary(o, w) else AfterUnpatchScheduler(o, w)
  }

  function AfterPatchOpenShift(o: Oracle, w: World, mem: Memory, csi: Csi, secondary: bool): PStep {
    var a := if secondary then AfterAddressRetries(o, w, mem, csi, ADDRESS_RETRIES) else AddressStep(w, mem, Some(""));
    if a.ip.None? then PStep(a.w, a.mem, false)
    else
      var data := if secondary then SecondaryData(a.ip.value, csi) else PolicyData(csi);
      var c := AfterApplyConfigMap(o, a.w, OpenShiftMapKey(secondary), data);
      if !c.ok then PStep(c.w, a.mem, false)
      else
        var s := AfterPatchEither(o, c.w, csi, secondary);
        PStep(s.w, a.mem, s.ok)
  }

  function AfterUnpatchOpenShift(o: Oracle, w: World, mem: Memory): PStep {
    var m := AfterUseSecondary(o, w, mem, OpenShift);
    if m.mode.None? then PStep(m.w, m.mem, false)
    else
      var d := AfterDelete(o, m.w, OpenShiftMapKey(m.mode.value));
      var s := AfterUnpatchEither(o, d.w, m.mode.value);
      PStep(s.w, m.mem, d.ok && s.ok)
  }

  function AfterRetryOpenShift(o: Oracle, w: World, mem: Memory, csi: Csi, secondary: bool): PStep {
    var u := AfterUnpatchOpenShift(o, w, mem);
    if !u.ok then u else AfterPatchOpenShift(o, u.w, u.mem, csi, secondary)
  }

  // ----- vanilla and RKE -----

  function PatcherSpec(csi: Csi): Spec {
    DaemonSetSpec(map["name" := "csi-baremetal-se-patcher"], map[], csi.patcherTemplate)
  }

  function AfterPolicyCheck(o: Oracle, w: World, csi: Csi): Rbac.VerdictStep {
    if csi.policyCheck.Some? then Rbac.AfterValidate(o, w, csi.policyCheck.value) else Rbac.VerdictStep(w, Rbac.Valid)
  }

  /** The daemonset is applied only once the account is bound. */
  function AfterVanillaDaemonSet(o: Oracle, w: World, csi: Csi): World {
    var v := AfterPolicyCheck(o, w, csi);
    if !v.verdict.Valid? then v.w else AfterApplyDaemonSet(o, v.w, PatcherKey(csi), PatcherSpec(csi)).w
  }

  /** Errors are dropped: the result is always nil. */
  function AfterVanilla(o: Oracle, w: World, csi: Csi): World {
    var c := AfterApplyConfigMap(o, w, WatchedKey(csi, false), csi.vanillaData);
    if !c.ok then c.w else AfterVanillaDaemonSet(o, c.w, csi)
  }

  function AfterRetryVanilla(o: Oracle, w: World, csi: Csi): Step {
    var d := AfterDelete(o, w, PatcherKey(csi));
    if !d.ok then d
    else
      var c := AfterDelete(o, d.w, WatchedKey(csi, false));
      if !c.ok then c else Step(AfterVanilla(o, c.w, csi), true)
  }

  // ----- readiness -----

  datatype Status = Status(node: string, scheduler: string, restarted: bool)
  datatype StatusStep = StatusStep(w: World, statuses: Option<seq<Status>>)

  function SchedulerPods(csi: Csi, secondary: bool): Selection {
    var key := if csi.platform.OpenShift? then "app" else "component";
    var value := if secondary then "secondary-scheduler"
                 else if csi.platform.OpenShift? then "openshift-kube-scheduler" else "kube-scheduler";
    Selection(Pod, "", map[key := value], {}, None)
  }

  /** The first container is running, and has been since `created` or later. */
  predicate Restarted(pod: Object, created: int) {
    && pod.spec.PodSpec? && pod.spec.started.Some? && pod.spec.started.value.Some?
    && created <= pod.spec.started.value.value
  }

  function StatusOf(pod: Item, created: int): Status {
    Status(NodeName(pod.obj), pod.key.name, Restarted(pod.obj, created))
  }

  function StatusesOf(pods: seq<Item>, created: int): (statuses: seq<Status>)
    ensures |statuses| == |pods|
    ensures forall i :: 0 <= i < |pods| ==> statuses[i] == StatusOf(pods[i], created)
  {
    seq(|pods|, i requires 0 <= i < |pods| => StatusOf(pods[i], created))
  }

  function AfterStatuses(o: Oracle, w: World, csi: Csi, secondary: bool, created: int): StatusStep {
    var l := AfterList(o, w, SchedulerPods(csi, secondary));
    StatusStep(l.w, if l.ok then Some(StatusesOf(l.items, created)) else None)
  }

  predicate AllReady(statuses: seq<Status>) {
    forall s :: s in statuses ==> s.restarted
  }

  const STATUS_RETRIES: nat := 12
  const MASTERS := Selection(Host, "", map[], {"node-role.kubernetes.io/master"}, None)

  /** Up to twelve looks at the secondary scheduler's pods. */
  function AfterSecondaryLooks(o: Oracle, w: World, csi: Csi, created: int, last: seq<Status>, left: nat): StatusStep
    decreases left
  {
    if left == 0 then StatusStep(w, Some(last))
    else
      var s := AfterStatuses(o, w, csi, true, created);
      if s.statuses.None? then s
      else if |s.statuses.value| == 1 && s.statuses.value[0].restarted then s
      else AfterSecondaryLooks(o, Wait(s.w), csi, created, s.statuses.value, left - 1)
  }

  function MasterStatuses(masters: seq<Item>, scheduler: string): seq<Status> {
    seq(|masters|, i requires 0 <= i < |masters| => Status(masters[i].key.name, scheduler, true))
  }

  /** Whatever the looks found, every master is reported as restarted. */
  function AfterSecondaryStatuses(o: Oracle, w: World, csi: Csi, created: int, retries: nat): StatusStep {
    var s := AfterSecondaryLooks(o, w, csi, created, [], retries);
    if s.statuses.None? then s
    else
      var scheduler := if s.statuses.value == [] then "" else s.statuses.value[0].scheduler;
      var l := AfterList(o, s.w, MASTERS);
      StatusStep(l.w, if l.ok then Some(MasterStatuses(l.items, scheduler)) else None)
  }

  function Yaml(statuses: seq<Status>): string {
    if statuses == [] then "nodes:"
    else Yaml(statuses[..|statuses| - 1]) + "\n- node_name: " + statuses[|statuses| - 1].node
         + "\n  kube_scheduler: " + statuses[|statuses| - 1].scheduler
         + "\n  restarted: " + if statuses[|statuses| - 1].restarted then "true" else "false"
  }

  /** A readiness pass up to the decision whether to patch again. */
  datatype Decision = Decision(w: World, ok: bool, retry: bool)

  function AfterDecision(o: Oracle, w: World, csi: Csi, secondary: bool): Decision {
    var g := AfterGet(o, w, WatchedKey(csi, secondary));
    if csi.platform.Unsupported? then Decision(w, false, false)
    else if !g.reply.Found? then Decision(g.w, false, false)
    else
      var created := g.reply.obj.meta.created;
      var s := if secondary then AfterSecondaryStatuses(o, g.w, csi, created, STATUS_RETRIES)
               else AfterStatuses(o, g.w, csi, false, created);
      if s.statuses.None? then Decision(s.w, false, false)
      else
        var c := AfterApplyConfigMap(o, s.w, ReadinessKey(csi), map["nodes.yaml" := Yaml(s.statuses.value)]);
        if !c.ok then Decision(c.w, false, false)
        else Decision(c.w, true, !AllReady(s.statuses.value) && TimeoutPassed(created, c.w.clock, csi.readinessTimeout))
  }

  predicate TimeoutPassed(created: int, now: int, minutes: int) {
    created < now - 60000 * minutes
  }

  function AfterRetry(o: Oracle, w: World, mem: Memory, csi: Csi, secondary: bool): PStep {
    if csi.platform.OpenShift? then AfterRetryOpenShift(o, w, mem, csi, secondary)
    else
      var r := AfterRetryVanilla(o, w, csi);
      PStep(r.w, mem, r.ok)
  }

  function AfterReadiness(o: Oracle, w: World, mem: Memory, csi: Csi, secondary: bool): PStep {
    var d := AfterDecision(o, w, csi, secondary);
    if d.retry then AfterRetry(o, d.w, mem, csi, secondary) else PStep(d.w, mem, d.ok)
  }

  // ----- the operations of the patcher -----

  /** Everything of an update before the readiness pass. */
  function AfterPatch(o: Oracle, w: World, mem: Memory, csi: Csi, secondary: bool): PStep {
    if csi.platform.OpenShift? then AfterPatchOpenShift(o, w, mem, csi, secondary)
    else PStep(AfterVanilla(o, w, csi), mem, true)
  }

  function AfterPatcherUpdate(o: Oracle, w: World, mem: Memory, csi: Csi): PStep {
    if !PatchingEnabled(csi) then PStep(w, mem, true)
    else
      var m := AfterUseSecondary(o, w, mem, csi.platform);
      if m.mode.None? then PStep(m.w, m.mem, false)
      else
        var ready := if m.mode.value then m.mem.(pattern := "/filter") else m.mem;
        var p := AfterPatch(o, m.w, ready, csi, m.mode.value);
        if !p.ok then p else AfterReadiness(o, p.w, p.mem, csi, m.mode.value)
  }

  function AfterUninstall(o: Oracle, w: World, mem: Memory, csi: Csi): PStep {
    if PatchingEnabled(csi) && csi.platform.OpenShift? then AfterUnpatchOpenShift(o, w, mem)
    else PStep(w, mem, true)
  }
}
