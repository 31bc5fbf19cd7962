/** Platform labels of the nodes and the daemonsets that follow them. */
module NodeLabels {
  import opened Api
  import opened Updates
  import opened NodeOperations
  import opened Platform

  const PLATFORM_LABEL := "nodes.csi-baremetal.dell.com/platform"

  /** The label with the node's UUID; its key is declared in the csi-baremetal repository. */
  const NODE_ID_LABEL := "nodes.csi-baremetal.dell.com/uuid"

  const NODE_NAME := "csi-baremetal-node"

  /** What the node component reads of a Deployment resource; the pod template is opaque
      and differs from tag to tag. */
  datatype NodeCsi = NodeCsi(namespace: string, selector: Option<Selector>, template: map<string, string>)

  function Kernel(host: Object): string {
    if host.spec.HostSpec? then host.spec.kernel else ""
  }

  /** The platform of a host whose kernel version can be read. */
  function HostPlatform(host: Object): Option<string> {
    match KernelVersion(Kernel(host))
    case None => None
    case Some(v) => Some(PlatformOf(v))
  }

  function LabelTag(name: string): string {
    if name in PLATFORMS then PLATFORMS[name].labeltag else ""
  }

  function Placed(host: Object, name: string): Object {
    host.(meta := host.meta.(labels := host.meta.labels[PLATFORM_LABEL := LabelTag(name)]))
  }

  predicate HasPlatform(host: Object, name: string) {
    PLATFORM_LABEL in host.meta.labels && host.meta.labels[PLATFORM_LABEL] == LabelTag(name)
  }

  // ----- labelling -----

  datatype LabelStep = LabelStep(w: World, outcome: Outcome, need: map<string, bool>)

  function NoPlatforms(): map<string, bool> {
    map name | name in PLATFORMS :: false
  }

  /** One host of the loop. A host without any label has a nil label map, and writing to
      that stops the process. */
  function AfterPlace(o: Oracle, s: LabelStep, host: Item): LabelStep {
    if s.outcome.Panic? then s
    else
      match HostPlatform(host.obj)
      case None => s.(outcome := Errors)
      case Some(name) =>
        var need := s.need[name := true];
        if HasPlatform(host.obj, name) then s.(need := need)
        else if host.obj.meta.labels == map[] then s.(outcome := Panic, need := need)
        else
          var u := AfterUpdate(o, s.w, host.key, Placed(host.obj, name));
          LabelStep(u.w, if u.ok then s.outcome else Errors, need)
  }

  function AfterPlaces(o: Oracle, w: World, hosts: seq<Item>, n: nat): LabelStep
    requires n <= |hosts|
  {
    if n == 0 then LabelStep(w, Done, NoPlatforms())
    else AfterPlace(o, AfterPlaces(o, w, hosts, n - 1), hosts[n - 1])
  }

  function AfterNodeLabels(o: Oracle, w: World, selector: Option<Selector>): LabelStep {
    var l := AfterList(o, w, HostSelection(selector));
    if !l.ok then LabelStep(l.w, Errors, NoPlatforms()) else AfterPlaces(o, l.w, l.items, |l.items|)
  }

  // ----- cleaning -----

  const OUR_LABELS := {PLATFORM_LABEL, NODE_ID_LABEL}

  function Cleaned(host: Object): Object {
    host.(meta := host.meta.(labels := host.meta.labels - OUR_LABELS))
  }

  /** Failed writes are only logged. */
  function AfterCleans(o: Oracle, w: World, hosts: seq<Item>, n: nat): World
    requires n <= |hosts|
  {
    if n == 0 then w
    else
      var s := AfterCleans(o, w, hosts, n - 1);
      if hosts[n - 1].obj.meta.labels.Keys !! OUR_LABELS then s
      else AfterUpdate(o, s, hosts[n - 1].key, Cleaned(hosts[n - 1].obj)).w
  }

  function AfterCleanLabels(o: Oracle, w: World): Step {
    var l := AfterList(o, w, All(Host));
    if !l.ok then Step(l.w, false) else Step(AfterCleans(o, l.w, l.items, |l.items|), true)
  }

  // ----- daemonsets -----

  function DaemonSetKey(csi: NodeCsi, name: string): Key {
    Key(DaemonSet, csi.namespace, NameWithTag(NODE_NAME, if name in PLATFORMS then PLATFORMS[name].tag else ""))
  }

  function NodeDaemonSet(csi: NodeCsi, name: string): (spec: Spec)
    ensures spec.DaemonSetSpec?
  {
    DaemonSetSpec(
      NODE_POD_LABELS,
      SelectorMap(csi.selector)[PLATFORM_LABEL := LabelTag(name)],
      if name in csi.template then csi.template[name] else "")
  }

  /** `order` is the order in which the needed platforms are visited. */
  function AfterDeploys(
    o: Oracle, w: World, csi: NodeCsi, need: map<string, bool>, order: seq<string>, n: nat): Step
    requires n <= |order|
  {
    if n == 0 then Step(w, true)
    else
      var s := AfterDeploys(o, w, csi, need, order, n - 1);
      if order[n - 1] !in need || !need[order[n - 1]] then s
      else
        var d := AfterApplyDaemonSet(o, s.w, DaemonSetKey(csi, order[n - 1]), NodeDaemonSet(csi, order[n - 1]));
        Step(d.w, s.ok && d.ok)
  }

  function AfterNodeUpdate(o: Oracle, w: World, csi: NodeCsi, order: seq<string>): Sweep {
    var l := AfterNodeLabels(o, w, csi.selector);
    if !l.outcome.Done? then Sweep(l.w, l.outcome)
    else
      var d := AfterDeploys(o, l.w, csi, l.need, order, |order|);
      Sweep(d.w, if d.ok then Done else Errors)
  }

  // ----- the code -----

  class Node {
    const server: Server

    constructor (server: Server)
      ensures this.server == server
    {
      this.server := server;
    }

    method UpdateNodeLabels(selector: Option<Selector>) returns (outcome: Outcome, need: map<string, bool>)
      modifies server
      ensures LabelStep(server.Now(), outcome, need) == AfterNodeLabels(server.oracle, old(server.Now()), selector)
    {
      hide AfterList, AfterUpdate, Lists, KernelVersion;
      need := NoPlatforms();
      var listed, hosts := server.List(HostSelection(selector));
      if !listed { return Errors, need; }
      ghost var start := server.Now();
      outcome := Done;
      for i := 0 to |hosts|
        invariant LabelStep(server.Now(), outcome, need) == AfterPlaces(server.oracle, start, hosts, i)
        invariant !outcome.Panic?
      {
        var host := hosts[i].obj;
        var version := KernelVersion(Kernel(host));
        if version.None? {
          outcome := Errors;
          continue;
        }
        var name := FindPlatform(PLATFORMS, version.value);
        FoundIffPossible(PLATFORMS, version.value, name);
        TableDecides(version.value, name);
        need := need[name := true];
        if HasPlatform(host, name) { continue; }
        if host.meta.labels == map[] {
          LabelPanicStays(server.oracle, start, hosts, i + 1);
          return Panic, need;
        }
        var updated := server.Update(hosts[i].key, Placed(host, name));
        if !updated { outcome := Errors; }
      }
    }

    method CleanNodeLabels() returns (ok: bool)
      modifies server
      ensures Step(server.Now(), ok) == AfterCleanLabels(server.oracle, old(server.Now()))
    {
      hide AfterList, AfterUpdate, Lists;
      var listed, hosts := server.List(All(Host));
      if !listed { return false; }
      ghost var start := server.Now();
      for i := 0 to |hosts|
        invariant server.Now() == AfterCleans(server.oracle, start, hosts, i)
      {
        var labels, toUpdate := hosts[i].obj.meta.labels, false;
        if PLATFORM_LABEL in labels {
          labels := labels - {PLATFORM_LABEL};
          toUpdate := true;
        }
        if NODE_ID_LABEL in labels {
          labels := labels - {NODE_ID_LABEL};
          toUpdate := true;
        }
        if toUpdate {
          assert labels == hosts[i].obj.meta.labels - OUR_LABELS;
          var host := hosts[i].obj;
          var _ := server.Update(hosts[i].key, host.(meta := host.meta.(labels := labels)));
        }
      }
      ok := true;
    }

    /** The part of an update that follows the checks of the service account. */
    method Deploy(csi: NodeCsi, order: seq<string>) returns (outcome: Outcome)
      modifies server
      ensures Sweep(server.Now(), outcome) == AfterNodeUpdate(server.oracle, old(server.Now()), csi, order)
    {
      var need;
      outcome, need := UpdateNodeLabels(csi.selector);
      if !outcome.Done? { return; }
      ghost var start := server.Now();
      for i := 0 to |order|
        invariant !outcome.Panic?
        invariant Step(server.Now(), outcome.Done?) == AfterDeploys(server.oracle, start, csi, need, order, i)
      {
        if order[i] in need && need[order[i]] {
          var applied := ApplyDaemonSet(server, DaemonSetKey(csi, order[i]), NodeDaemonSet(csi, order[i]));
          if !applied { outcome := Errors; }
        }
      }
    }

    method Uninstall() returns (ok: bool)
      modifies server
      ensures Step(server.Now(), ok) == AfterCleanLabels(server.oracle, old(server.Now()))
    {
      ok := CleanNodeLabels();
    }
  }

  lemma {:induction false} LabelPanicStays(o: Oracle, w: World, hosts: seq<Item>, n: nat)
    requires n <= |hosts| && AfterPlaces(o, w, hosts, n).outcome.Panic?
    ensures AfterPlaces(o, w, hosts, |hosts|) == AfterPlaces(o, w, hosts, n)
    decreases |hosts| - n
  {
    hide HostPlatform, HasPlatform, AfterUpdate;
    if n < |hosts| { LabelPanicStays(o, w, hosts, n + 1); }
  }
}
