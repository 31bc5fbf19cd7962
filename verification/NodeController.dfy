/** The controller that runs the passes, loop by loop. */
module NodeController {
  import opened Api
  import opened NodeOperations

  class Controller {
    const server: Server

    constructor (server: Server)
      ensures this.server == server
    {
      this.server := server;
    }

    static method CarriesTaint(host: Object, taint: Taint) returns (found: bool)
      ensures found == HasTaint(host, taint)
    {
      var taints := Taints(host);
      for i := 0 to |taints|
        invariant taint !in taints[..i]
      {
        var t := taints[i];
        if t.key == taint.key && t.value == taint.value && t.effect == taint.effect {
          return true;
        }
      }
      return false;
    }

    static method NodesTainted(hosts: seq<Item>, taint: Taint) returns (seen: map<string, bool>)
      ensures seen == TaintMap(hosts, taint, |hosts|)
    {
      seen := map[];
      for i := 0 to |hosts|
        invariant seen == TaintMap(hosts, taint, i)
      {
        var tainted := CarriesTaint(hosts[i].obj, taint);
        seen := seen[hosts[i].key.name := tainted];
      }
    }

    method Reconcile(selector: Option<Selector>) returns (outcome: Outcome)
      modifies server
      ensures Sweep(server.Now(), outcome) == AfterReconcile(server.oracle, old(server.Now()), selector)
    {
      var hostsListed, hosts := server.List(HostSelection(selector));
      if !hostsListed { return Done; }
      var nodesListed, nodes := server.List(All(CsiNode));
      if !nodesListed { return Done; }
      var removed := HandleNodeRemoval(nodes, hosts);
      outcome := HandleNodeMaintenance(hosts);
      if outcome.Done? && !removed { outcome := Errors; }
    }

    method HandleNodeRemoval(nodes: seq<Item>, hosts: seq<Item>) returns (ok: bool)
      modifies server
      ensures Step(server.Now(), ok) == AfterNodeRemoval(server.oracle, old(server.Now()), nodes, hosts)
    {
      hide AfterUpdate, AfterRemoveNodes, TaintMap;
      var seen := NodesTainted(hosts, REMOVAL_TAINT);
      var errors := 0;
      var removing: seq<Item> := [];
      for i := 0 to |nodes|
        invariant errors >= 0
        invariant Step(server.Now(), errors == 0) == AfterSweep(server.oracle, old(server.Now()), nodes, seen, i)
        invariant removing == Removing(nodes, seen, i)
      {
        var node := nodes[i].obj;
        var hasLabel := TAINT_KEY in node.meta.labels && node.meta.labels[TAINT_KEY] == REMOVAL_TAINT.value;
        var hasNode := Hostname(node) in seen;
        var hasTaint := hasNode && seen[Hostname(node)];
        if hasLabel && !hasNode {
          removing := removing + [nodes[i]];
          continue;
        }
        var needUpdate := false;
        if hasNode && !hasLabel && hasTaint {
          node := WithLabel(node);
          needUpdate := true;
        }
        if hasNode && hasLabel && !hasTaint {
          node := WithoutLabel(node);
          needUpdate := true;
        }
        if needUpdate {
          var updated := server.Update(nodes[i].key, node);
          if !updated { errors := errors + 1; }
        }
      }
      if errors != 0 { return false; }
      ok := RemoveNodes(removing);
    }

    method RemoveNodes(nodes: seq<Item>) returns (ok: bool)
      modifies server
      ensures Step(server.Now(), ok) == AfterRemoveNodes(server.oracle, old(server.Now()), nodes, |nodes|)
    {
      var errors := 0;
      for i := 0 to |nodes|
        invariant errors >= 0
        invariant Step(server.Now(), errors == 0) == AfterRemoveNodes(server.oracle, old(server.Now()), nodes, i)
      {
        var known, isRunning := CheckPodRunning(Hostname(nodes[i].obj));
        if !known || isRunning {
          errors := errors + 1;
          continue;
        }
        var deleted := DeleteResources(nodes[i]);
        if !deleted { errors := errors + 1; }
      }
      ok := errors == 0;
    }

    method CheckPodRunning(hostname: string) returns (known: bool, isRunning: bool)
      modifies server
      ensures var l := AfterList(server.oracle, old(server.Now()), NodePods(hostname));
              server.Now() == l.w && known == l.ok && isRunning == (l.ok && l.items != [])
    {
      var ok, pods := server.List(NodePods(hostname));
      known, isRunning := ok, ok && |pods| != 0;
    }

    method DeleteResources(node: Item) returns (ok: bool)
      modifies server
      ensures Step(server.Now(), ok) == AfterDeleteResources(server.oracle, old(server.Now()), node)
    {
      hide AfterDeleteKind, AfterDeleteObject;
      ghost var o, w, uuid := server.oracle, server.Now(), NodeId(node.obj);
      var drives := DeleteKind(Drive, NodeId(node.obj));
      assert Step(server.Now(), drives) == AfterCascade(o, w, uuid, 1);
      var capacities := DeleteKind(Capacity, NodeId(node.obj));
      assert Step(server.Now(), drives && capacities) == AfterCascade(o, w, uuid, 2);
      var groups := DeleteKind(VolumeGroup, NodeId(node.obj));
      assert Step(server.Now(), drives && capacities && groups) == AfterCascade(o, w, uuid, 3);
      var volumes := DeleteKind(Volume, NodeId(node.obj));
      assert Step(server.Now(), drives && capacities && groups && volumes) == AfterCascade(o, w, uuid, 4);
      if !(drives && capacities && groups && volumes) { return false; }
      ok := DeleteObject(node, false);
    }

    method DeleteKind(kind: Kind, uuid: string) returns (ok: bool)
      modifies server
      ensures Step(server.Now(), ok) == AfterDeleteKind(server.oracle, old(server.Now()), kind, uuid)
    {
      var listed, items := server.List(All(kind));
      if !listed { return false; }
      ghost var start := server.Now();
      var errors := 0;
      for i := 0 to |items|
        invariant errors >= 0
        invariant Step(server.Now(), errors == 0)
               == AfterDeleteListed(server.oracle, start, items, uuid, ClearsFinalizers(kind), i)
      {
        if NodeId(items[i].obj) == uuid {
          var deleted := DeleteObject(items[i], ClearsFinalizers(kind));
          if !deleted { errors := errors + 1; }
        }
      }
      ok := errors == 0;
    }

    method DeleteObject(item: Item, clear: bool) returns (ok: bool)
      modifies server
      ensures Step(server.Now(), ok) == AfterDeleteObject(server.oracle, old(server.Now()), item, clear)
    {
      ok := true;
      if clear && |item.obj.meta.finalizers| != 0 {
        var updated := server.Update(item.key, WithoutFinalizers(item.obj));
        var reply := server.Get(item.key);
        ok := updated && reply.Found?;
      }
      var deleted := server.Delete(item.key);
      ok := ok && deleted;
    }

    method HandleNodeMaintenance(hosts: seq<Item>) returns (outcome: Outcome)
      modifies server
      ensures Sweep(server.Now(), outcome)
           == AfterMaintenance(server.oracle, old(server.Now()), hosts, |hosts|)
    {
      hide AfterDeleteCsiPods;
      outcome := Done;
      for i := 0 to |hosts|
        invariant Sweep(server.Now(), outcome) == AfterMaintenance(server.oracle, old(server.Now()), hosts, i)
        invariant !outcome.Panic?
      {
        var tainted := CarriesTaint(hosts[i].obj, MAINTENANCE_TAINT);
        if tainted {
          var deleted := DeleteCsiPods(hosts[i].key.name);
          if !deleted.Done? { outcome := deleted; }
          if deleted.Panic? {
            PanicStays(server.oracle, old(server.Now()), hosts, i + 1);
            return;
          }
        }
      }
    }

    method DeleteCsiPods(hostname: string) returns (outcome: Outcome)
      modifies server
      ensures Sweep(server.Now(), outcome) == AfterDeleteCsiPods(server.oracle, old(server.Now()), hostname)
    {
      var listed, pods := server.List(AppPods(hostname));
      if !listed { return Errors; }
      ghost var start := server.Now();
      outcome := Done;
      for i := 0 to |pods|
        invariant Sweep(server.Now(), outcome) == AfterDeletePods(server.oracle, start, pods, i)
        invariant !outcome.Panic?
      {
        var owners := OwnerKinds(pods[i].obj);
        if |owners| > 1 { continue; }
        if |owners| == 0 {
          PodPanicStays(server.oracle, start, pods, i + 1);
          return Panic;
        }
        if owners[0] != "DaemonSet" {
          var deleted := server.Delete(pods[i].key);
          if !deleted { outcome := Errors; }
        }
      }
    }
  }

  /** Nothing happens after a panic. */
  lemma {:induction false} PanicStays(o: Oracle, w: World, hosts: seq<Item>, n: nat)
    requires n <= |hosts| && AfterMaintenance(o, w, hosts, n).outcome.Panic?
    ensures AfterMaintenance(o, w, hosts, |hosts|) == AfterMaintenance(o, w, hosts, n)
    decreases |hosts| - n
  {
    hide AfterDeleteCsiPods, HasTaint;
    if n < |hosts| { PanicStays(o, w, hosts, n + 1); }
  }

  lemma {:induction false} PodPanicStays(o: Oracle, w: World, pods: seq<Item>, n: nat)
    requires n <= |pods| && AfterDeletePods(o, w, pods, n).outcome.Panic?
    ensures AfterDeletePods(o, w, pods, |pods|) == AfterDeletePods(o, w, pods, n)
    decreases |pods| - n
  {
    if n < |pods| { PodPanicStays(o, w, pods, n + 1); }
  }
}
