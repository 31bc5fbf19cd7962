/** One pass of node removal and node maintenance, as a function of the world before it.
    `AfterX(.., n)` is the state after the first `n` iterations of the loop in X. */
module NodeOperations {
  import opened Api

  const TAINT_KEY := "node.dell.com/drain"
  const REMOVAL_TAINT := Taint(TAINT_KEY, "drain", "NoSchedule")
  const MAINTENANCE_TAINT := Taint(TAINT_KEY, "planned-downtime", "NoSchedule")

  const APP_LABELS := map["app.kubernetes.io/name" := "csi-baremetal", "app" := "csi-baremetal"]
  const NODE_POD_LABELS := map["name" := "csi-baremetal-node"]

  datatype Selector = Selector(key: string, value: string)

  function SelectorMap(selector: Option<Selector>): map<string, string> {
    if selector.Some? then map[selector.value.key := selector.value.value] else map[]
  }

  function HostSelection(selector: Option<Selector>): Selection {
    Selection(Host, "", SelectorMap(selector), {}, None)
  }

  /** Go stops the process on an out-of-range index or a write to a nil map. */
  datatype Outcome = Done | Errors | Panic

  // ----- reading objects -----

  function Taints(obj: Object): seq<Taint> {
    if obj.spec.HostSpec? then obj.spec.taints else []
  }

  predicate HasTaint(obj: Object, taint: Taint) {
    taint in Taints(obj)
  }

  /** Host name to whether the host carries the taint; later entries win. */
  function TaintMap(hosts: seq<Item>, taint: Taint, n: nat): map<string, bool>
    requires n <= |hosts|
  {
    if n == 0 then map[]
    else TaintMap(hosts, taint, n - 1)[hosts[n - 1].key.name := HasTaint(hosts[n - 1].obj, taint)]
  }

  function NodeId(obj: Object): string {
    match obj.spec
    case CsiNodeSpec(uuid, _) => uuid
    case ResourceSpec(nodeId) => nodeId
    case _ => ""
  }

  function Hostname(obj: Object): string {
    if obj.spec.CsiNodeSpec? then obj.spec.hostname else ""
  }

  predicate Labelled(obj: Object) {
    TAINT_KEY in obj.meta.labels && obj.meta.labels[TAINT_KEY] == "drain"
  }

  function WithLabel(obj: Object): Object {
    obj.(meta := obj.meta.(labels := obj.meta.labels[TAINT_KEY := "drain"]))
  }

  function WithoutLabel(obj: Object): Object {
    obj.(meta := obj.meta.(labels := obj.meta.labels - {TAINT_KEY}))
  }

  function WithoutFinalizers(obj: Object): Object {
    obj.(meta := obj.meta.(finalizers := []))
  }

  // ----- labelling -----

  datatype Verdict = Remove | Label | Unlabel | Keep

  function Judge(node: Object, seen: map<string, bool>): Verdict {
    var present := Hostname(node) in seen;
    if Labelled(node) && !present then Remove
    else if present && !Labelled(node) && seen[Hostname(node)] then Label
    else if present && Labelled(node) && !seen[Hostname(node)] then Unlabel
    else Keep
  }

  function AfterJudge(o: Oracle, w: World, node: Item, seen: map<string, bool>): Step {
    match Judge(node.obj, seen)
    case Label => AfterUpdate(o, w, node.key, WithLabel(node.obj))
    case Unlabel => AfterUpdate(o, w, node.key, WithoutLabel(node.obj))
    case _ => Step(w, true)
  }

  function AfterSweep(o: Oracle, w: World, nodes: seq<Item>, seen: map<string, bool>, n: nat): Step
    requires n <= |nodes|
  {
    if n == 0 then Step(w, true)
    else
      var s := AfterSweep(o, w, nodes, seen, n - 1);
      var j := AfterJudge(o, s.w, nodes[n - 1], seen);
      Step(j.w, s.ok && j.ok)
  }

  function Removing(nodes: seq<Item>, seen: map<string, bool>, n: nat): seq<Item>
    requires n <= |nodes|
  {
    if n == 0 then []
    else Removing(nodes, seen, n - 1) + if Judge(nodes[n - 1].obj, seen).Remove? then [nodes[n - 1]] else []
  }

  // ----- removal -----

  predicate ClearsFinalizers(kind: Kind) {
    kind == VolumeGroup || kind == Volume
  }

  function AfterDeleteObject(o: Oracle, w: World, item: Item, clear: bool): Step {
    if clear && item.obj.meta.finalizers != [] then
      var u := AfterUpdate(o, w, item.key, WithoutFinalizers(item.obj));
      var g := AfterGet(o, u.w, item.key);
      var d := AfterDelete(o, g.w, item.key);
      Step(d.w, u.ok && g.reply.Found? && d.ok)
    else
      AfterDelete(o, w, item.key)
  }

  function AfterDeleteListed(o: Oracle, w: World, items: seq<Item>, uuid: string, clear: bool, n: nat): Step
    requires n <= |items|
  {
    if n == 0 then Step(w, true)
    else
      var s := AfterDeleteListed(o, w, items, uuid, clear, n - 1);
      if NodeId(items[n - 1].obj) != uuid then s
      else
        var d := AfterDeleteObject(o, s.w, items[n - 1], clear);
        Step(d.w, s.ok && d.ok)
  }

  function AfterDeleteKind(o: Oracle, w: World, kind: Kind, uuid: string): Step {
    var l := AfterList(o, w, All(kind));
    if !l.ok then Step(l.w, false)
    else AfterDeleteListed(o, l.w, l.items, uuid, ClearsFinalizers(kind), |l.items|)
  }

  const CASCADE: seq<Kind> := [Drive, Capacity, VolumeGroup, Volume]

  function AfterCascade(o: Oracle, w: World, uuid: string, n: nat): Step
    requires n <= |CASCADE|
  {
    if n == 0 then Step(w, true)
    else
      var s := AfterCascade(o, w, uuid, n - 1);
      var d := AfterDeleteKind(o, s.w, CASCADE[n - 1], uuid);
      Step(d.w, s.ok && d.ok)
  }

  function AfterDeleteResources(o: Oracle, w: World, node: Item): Step {
    var s := AfterCascade(o, w, NodeId(node.obj), 4);
    if !s.ok then s else AfterDeleteObject(o, s.w, node, false)
  }

  function NodePods(hostname: string): Selection {
    Selection(Pod, "", NODE_POD_LABELS, {}, Some(hostname))
  }

  /** What one labelled node without a host gets: nothing while its pod still runs. */
  function AfterTurn(o: Oracle, w: World, node: Item): Step {
    var l := AfterList(o, w, NodePods(Hostname(node.obj)));
    if !l.ok || l.items != [] then Step(l.w, false) else AfterDeleteResources(o, l.w, node)
  }

  function AfterRemoveNodes(o: Oracle, w: World, nodes: seq<Item>, n: nat): Step
    requires n <= |nodes|
  {
    if n == 0 then Step(w, true)
    else
      var s := AfterRemoveNodes(o, w, nodes, n - 1);
      var t := AfterTurn(o, s.w, nodes[n - 1]);
      Step(t.w, s.ok && t.ok)
  }

  function AfterNodeRemoval(o: Oracle, w: World, nodes: seq<Item>, hosts: seq<Item>): Step {
    var seen := TaintMap(hosts, REMOVAL_TAINT, |hosts|);
    var s := AfterSweep(o, w, nodes, seen, |nodes|);
    if !s.ok then s
    else
      var removing := Removing(nodes, seen, |nodes|);
      AfterRemoveNodes(o, s.w, removing, |removing|)
  }

  // ----- maintenance -----

  datatype Sweep = Sweep(w: World, outcome: Outcome)

  function OwnerKinds(obj: Object): seq<string> {
    if obj.spec.PodSpec? then obj.spec.ownerKinds else []
  }

  function AfterDeletePods(o: Oracle, w: World, pods: seq<Item>, n: nat): Sweep
    requires n <= |pods|
  {
    if n == 0 then Sweep(w, Done)
    else
      var s := AfterDeletePods(o, w, pods, n - 1);
      var owners := OwnerKinds(pods[n - 1].obj);
      if s.outcome.Panic? || |owners| > 1 then s
      else if |owners| == 0 then Sweep(s.w, Panic)
      else if owners[0] == "DaemonSet" then s
      else
        var d := AfterDelete(o, s.w, pods[n - 1].key);
        Sweep(d.w, if d.ok then s.outcome else Errors)
  }

  function AppPods(hostname: string): Selection {
    Selection(Pod, "", APP_LABELS, {}, Some(hostname))
  }

  function AfterDeleteCsiPods(o: Oracle, w: World, hostname: string): Sweep {
    var l := AfterList(o, w, AppPods(hostname));
    if !l.ok then Sweep(l.w, Errors) else AfterDeletePods(o, l.w, l.items, |l.items|)
  }

  function AfterMaintenance(o: Oracle, w: World, hosts: seq<Item>, n: nat): Sweep
    requires n <= |hosts|
  {
    if n == 0 then Sweep(w, Done)
    else
      var s := AfterMaintenance(o, w, hosts, n - 1);
      if s.outcome.Panic? || !HasTaint(hosts[n - 1].obj, MAINTENANCE_TAINT) then s
      else
        var d := AfterDeleteCsiPods(o, s.w, hosts[n - 1].key.name);
        Sweep(d.w, if d.outcome.Done? then s.outcome else d.outcome)
  }

  // ----- a pass -----

  function AfterReconcile(o: Oracle, w: World, selector: Option<Selector>): Sweep {
    var h := AfterList(o, w, HostSelection(selector));
    if !h.ok then Sweep(h.w, Done)
    else
      var n := AfterList(o, h.w, All(CsiNode));
      if !n.ok then Sweep(n.w, Done)
      else
        var r := AfterNodeRemoval(o, n.w, n.items, h.items);
        var m := AfterMaintenance(o, r.w, h.items, |h.items|);
        Sweep(m.w, if m.outcome.Done? && !r.ok then Errors else m.outcome)
  }
}
