/** Removal of several nodes in one pass, and labelling. */
module RemovalPass {
  import opened Api
  import opened NodeOperations
  import opened RemovalProofs

  ghost predicate FreshNodes(w: World, nodes: seq<Item>) {
    Distinct(nodes) && forall i :: 0 <= i < |nodes| ==> FreshNode(w, nodes[i])
  }

  // ----- several turns -----

  function TurnSets(objs: Store, nodes: seq<Item>, n: nat): set<Key>
    requires n <= |nodes|
  {
    if n == 0 then {} else TurnSets(objs, nodes, n - 1) + TurnSet(objs, nodes[n - 1])
  }

  lemma {:induction false} TurnSetsAre(objs: Store, nodes: seq<Item>, n: nat)
    requires n <= |nodes|
    ensures forall k :: k in TurnSets(objs, nodes, n) <==> exists j :: 0 <= j < n && k in TurnSet(objs, nodes[j])
  {
    if n > 0 { TurnSetsAre(objs, nodes, n - 1); }
  }

  /** Before its turn a node is as it was listed, and so are the pods. */
  ghost predicate Waiting(w: World, s: World, nodes: seq<Item>, n: nat)
    requires n <= |nodes|
  {
    && (forall j :: n <= j < |nodes| ==> Same(w.objs, s.objs, nodes[j].key))
    && (forall k: Key {:trigger Same(w.objs, s.objs, k)} ::
          k.kind != CsiNode && k.kind !in CASCADE ==> Same(w.objs, s.objs, k))
  }

  lemma {:induction false} PodsKept(a: Store, b: Store, hostname: string)
    requires forall k: Key {:trigger Same(a, b, k)} :: k.kind == Pod ==> Same(a, b, k)
    ensures PodsOn(a, hostname) == PodsOn(b, hostname)
  {
    forall k: Key | k.kind == Pod ensures Same(a, b, k) {}
  }

  lemma {:induction false} ShrinksTransitive(a: Store, b: Store, c: Store)
    requires Shrinks(a, b) && Shrinks(b, c)
    ensures Shrinks(a, c)
  {
    forall k | k in c ensures k in a && Decays(a[k], c[k]) {
      assert k in b && Decays(a[k], b[k]) && Decays(b[k], c[k]);
    }
  }

  /** Only what belongs to the first `n` nodes is touched, and it only decays. */
  ghost predicate Progress(w: World, s: World, nodes: seq<Item>, n: nat)
    requires n <= |nodes|
  {
    && w.calls <= s.calls
    && Outside(w.objs, s.objs, TurnSets(w.objs, nodes, n))
    && Shrinks(w.objs, s.objs)
    && Waiting(w, s, nodes, n)
  }

  lemma {:induction false} ProgressStep(o: Oracle, w: World, s: World, t: Step, nodes: seq<Item>, n: nat)
    requires n < |nodes| && FreshNodes(w, nodes)
    requires Progress(w, s, nodes, n)
    requires FreshNode(s, nodes[n]) && TakesTurn(o, s, t, nodes[n])
    ensures Progress(w, t.w, nodes, n + 1)
  {
    hide AllDischarged, NoneVanishes, PodsOn, Shrinks, Possessions;
    var node := nodes[n];
    ShrinksTransitive(w.objs, s.objs, t.w.objs);
    TurnSetShrinks(w.objs, s.objs, node);
    forall k | k !in TurnSets(w.objs, nodes, n + 1) ensures Same(w.objs, t.w.objs, k) {
      assert Same(w.objs, s.objs, k) && Same(s.objs, t.w.objs, k);
    }
    forall j | n + 1 <= j < |nodes| ensures Same(w.objs, t.w.objs, nodes[j].key) {
      assert FreshNode(w, nodes[j]) && nodes[j].key != node.key;
      if nodes[j].key in TurnSet(s.objs, node) { NotInTurn(s.objs, node, nodes[j].key); }
      assert Same(w.objs, s.objs, nodes[j].key) && Same(s.objs, t.w.objs, nodes[j].key);
    }
    forall k: Key | k.kind != CsiNode && k.kind !in CASCADE ensures Same(w.objs, t.w.objs, k) {
      if k in TurnSet(s.objs, node) { NotInTurn(s.objs, node, k); }
      assert Same(w.objs, s.objs, k) && Same(s.objs, t.w.objs, k);
    }
  }

  lemma {:induction false} NotInTurn(objs: Store, node: Item, key: Key)
    requires node.key.kind == CsiNode && key in TurnSet(objs, node)
    ensures key.kind == CsiNode ==> key == node.key
    ensures key.kind == CsiNode || key.kind in CASCADE
  {
  }

  /** One node after another, with whatever failures. */
  lemma {:induction false} RemoveNodesEffect(o: Oracle, w: World, nodes: seq<Item>, n: nat)
    requires n <= |nodes| && FreshNodes(w, nodes)
    ensures Progress(w, AfterRemoveNodes(o, w, nodes, n).w, nodes, n)
    decreases n, 0
  {
    hide AfterTurn, Progress, TakesTurn;
    if n == 0 {
      NoProgress(w, nodes);
    } else {
      var s := AfterRemoveNodes(o, w, nodes, n - 1);
      TurnOf(o, w, nodes, n - 1);
      RemoveNodesEffect(o, w, nodes, n - 1);
      ProgressStep(o, w, s.w, AfterTurn(o, s.w, nodes[n - 1]), nodes, n - 1);
    }
  }

  lemma {:induction false} OneMore(o: Oracle, w: World, nodes: seq<Item>, n: nat)
    requires n < |nodes|
    ensures AfterRemoveNodes(o, w, nodes, n + 1).w == AfterTurn(o, AfterRemoveNodes(o, w, nodes, n).w, nodes[n]).w
    ensures AfterRemoveNodes(o, w, nodes, n + 1).ok
         == (AfterRemoveNodes(o, w, nodes, n).ok && AfterTurn(o, AfterRemoveNodes(o, w, nodes, n).w, nodes[n]).ok)
  {
    hide AfterTurn;
  }

  lemma {:induction false} NoProgress(w: World, nodes: seq<Item>)
    ensures Progress(w, w, nodes, 0)
  {
  }

  /** Each node takes its turn as it was listed. */
  lemma {:induction false} TurnOf(o: Oracle, w: World, nodes: seq<Item>, n: nat)
    requires n < |nodes| && FreshNodes(w, nodes)
    ensures FreshNode(AfterRemoveNodes(o, w, nodes, n).w, nodes[n])
    ensures var s := AfterRemoveNodes(o, w, nodes, n);
            TakesTurn(o, s.w, AfterTurn(o, s.w, nodes[n]), nodes[n])
    decreases n, 1
  {
    hide AfterTurn, TakesTurn, AfterRemoveNodes;
    RemoveNodesEffect(o, w, nodes, n);
    var s := AfterRemoveNodes(o, w, nodes, n);
    assert Same(w.objs, s.w.objs, nodes[n].key);
    TurnEffect(o, s.w, nodes[n]);
  }

  lemma {:induction false} TurnSetShrinks(a: Store, b: Store, node: Item)
    requires Shrinks(a, b)
    ensures TurnSet(b, node) <= TurnSet(a, node)
  {
    forall k | k in Possessions(b, NodeId(node.obj)) ensures k in Possessions(a, NodeId(node.obj)) {
      assert Decays(a[k], b[k]);
    }
  }

  /** Whatever removal touches belongs to a node of the list that had no pod left. */
  lemma {:induction false} TouchedByATurn(o: Oracle, w: World, nodes: seq<Item>, n: nat, key: Key) returns (j: nat)
    requires n <= |nodes| && FreshNodes(w, nodes)
    requires !Same(w.objs, AfterRemoveNodes(o, w, nodes, n).w.objs, key)
    ensures j < n && key in TurnSet(w.objs, nodes[j]) && !PodsOn(w.objs, Hostname(nodes[j].obj))
  {
    hide AfterTurn, TurnSet, PodsOn;
    var s := AfterRemoveNodes(o, w, nodes, n - 1);
    if !Same(w.objs, s.w.objs, key) {
      j := TouchedByATurn(o, w, nodes, n - 1, key);
    } else {
      j := n - 1;
      LastTurnTouches(o, w, nodes, j, key);
    }
  }

  lemma {:induction false} LastTurnTouches(o: Oracle, w: World, nodes: seq<Item>, j: nat, key: Key)
    requires j < |nodes| && FreshNodes(w, nodes)
    requires !Same(AfterRemoveNodes(o, w, nodes, j).w.objs, AfterRemoveNodes(o, w, nodes, j + 1).w.objs, key)
    ensures key in TurnSet(w.objs, nodes[j]) && !PodsOn(w.objs, Hostname(nodes[j].obj))
  {
    hide AfterTurn, AfterRemoveNodes, TurnSet, PodsOn, AllDischarged, NoneVanishes;
    var s := AfterRemoveNodes(o, w, nodes, j);
    OneMore(o, w, nodes, j);
    TurnOf(o, w, nodes, j);
    RemoveNodesEffect(o, w, nodes, j);
    TurnSetShrinks(w.objs, s.w.objs, nodes[j]);
    PodsKept(w.objs, s.w.objs, Hostname(nodes[j].obj));
  }

  ghost predicate DistinctIds(nodes: seq<Item>) {
    forall i, j :: 0 <= i < j < |nodes| ==> NodeId(nodes[i].obj) != NodeId(nodes[j].obj)
  }

  /** Nodes with different UUIDs do not get in each other's way: each one's turn starts
      from what the pass found, and what it leaves is what the pass leaves. */
  lemma {:induction false} TurnsAreIndependent(o: Oracle, w: World, nodes: seq<Item>, j: nat, n: nat, key: Key)
    requires j < n <= |nodes| && FreshNodes(w, nodes) && DistinctIds(nodes)
    requires key in TurnSet(w.objs, nodes[j])
    ensures Same(w.objs, AfterRemoveNodes(o, w, nodes, j).w.objs, key)
    ensures Same(AfterRemoveNodes(o, w, nodes, j + 1).w.objs, AfterRemoveNodes(o, w, nodes, n).w.objs, key)
  {
    hide AfterTurn, AfterRemoveNodes, TurnSet;
    NotAnothers(w, nodes, j, key);
    if j + 1 < n {
      TurnsAreIndependent(o, w, nodes, j, n - 1, key);
      OthersTurn(o, w, nodes, n - 1, key);
    } else {
      NotYet(o, w, nodes, j, key);
    }
  }

  lemma {:induction false} NotYet(o: Oracle, w: World, nodes: seq<Item>, j: nat, key: Key)
    requires j <= |nodes| && FreshNodes(w, nodes)
    requires forall i :: 0 <= i < j ==> key !in TurnSet(w.objs, nodes[i])
    ensures Same(w.objs, AfterRemoveNodes(o, w, nodes, j).w.objs, key)
  {
    hide AfterTurn, AfterRemoveNodes, TurnSet;
    TurnSetsAre(w.objs, nodes, j);
    RemoveNodesEffect(o, w, nodes, j);
  }

  lemma {:induction false} OthersTurn(o: Oracle, w: World, nodes: seq<Item>, m: nat, key: Key)
    requires m < |nodes| && FreshNodes(w, nodes)
    requires key !in TurnSet(w.objs, nodes[m])
    ensures Same(AfterRemoveNodes(o, w, nodes, m).w.objs, AfterRemoveNodes(o, w, nodes, m + 1).w.objs, key)
  {
    hide AfterTurn, AfterRemoveNodes, TurnSet;
    OneMore(o, w, nodes, m);
    TurnOf(o, w, nodes, m);
    RemoveNodesEffect(o, w, nodes, m);
    TurnSetShrinks(w.objs, AfterRemoveNodes(o, w, nodes, m).w.objs, nodes[m]);
  }

  lemma {:induction false} NotAnothers(w: World, nodes: seq<Item>, j: nat, key: Key)
    requires j < |nodes| && FreshNodes(w, nodes) && DistinctIds(nodes)
    requires key in TurnSet(w.objs, nodes[j])
    ensures forall i :: 0 <= i < |nodes| && i != j ==> key !in TurnSet(w.objs, nodes[i])
  {
    forall i | 0 <= i < |nodes| && i != j ensures key !in TurnSet(w.objs, nodes[i]) {
      assert nodes[i].key != nodes[j].key && NodeId(nodes[i].obj) != NodeId(nodes[j].obj);
      assert FreshNode(w, nodes[i]) && FreshNode(w, nodes[j]);
    }
  }

  /** A pass over the list succeeds exactly when every single turn does. */
  lemma {:induction false} OkIffEveryTurnOk(o: Oracle, w: World, nodes: seq<Item>, n: nat)
    requires n <= |nodes|
    ensures AfterRemoveNodes(o, w, nodes, n).ok
       <==> forall j :: 0 <= j < n ==> AfterTurn(o, AfterRemoveNodes(o, w, nodes, j).w, nodes[j]).ok
  {
    hide AfterTurn;
    if n > 0 { OkIffEveryTurnOk(o, w, nodes, n - 1); }
  }

  /** Success means that everything of every listed node has been deleted. */
  lemma {:induction false} OkMeansAllDeleted(o: Oracle, w: World, nodes: seq<Item>, j: nat, key: Key)
    requires j < |nodes| && FreshNodes(w, nodes) && DistinctIds(nodes)
    requires AfterRemoveNodes(o, w, nodes, |nodes|).ok
    requires key in TurnSet(w.objs, nodes[j])
    ensures Discharged(AfterRemoveNodes(o, w, nodes, |nodes|).w.objs, key, w.objs[key])
  {
    hide AfterTurn, AfterRemoveNodes;
    OneMore(o, w, nodes, j);
    OkIffEveryTurnOk(o, w, nodes, |nodes|);
    TurnsAreIndependent(o, w, nodes, j, |nodes|, key);
    TurnOf(o, w, nodes, j);
    assert key in TurnSet(AfterRemoveNodes(o, w, nodes, j).w.objs, nodes[j]);
  }

  ghost predicate ClearedAtOnce(objs: Store, node: Item) {
    && !PodsOn(objs, Hostname(node.obj))
    && NoneVanishes(objs, Possessions(objs, NodeId(node.obj)))
  }

  /** Without faults the outcome can be read off the store beforehand: a node fails
      exactly when its pod is still there or one of its volume groups or volumes is
      already on its way out. */
  lemma {:induction false} FaultFreeOutcome(o: Oracle, w: World, nodes: seq<Item>, n: nat)
    requires n <= |nodes| && FreshNodes(w, nodes) && DistinctIds(nodes) && Quiet(o, w.calls)
    ensures AfterRemoveNodes(o, w, nodes, n).ok
       <==> forall j :: 0 <= j < n ==> ClearedAtOnce(w.objs, nodes[j])
  {
    hide AfterTurn, AfterRemoveNodes, TakesTurn, ClearedAtOnce, Progress;
    if n == 0 {
      NoTurns(o, w, nodes);
    } else {
      FaultFreeOutcome(o, w, nodes, n - 1);
      OneMore(o, w, nodes, n - 1);
      var s := AfterRemoveNodes(o, w, nodes, n - 1);
      TurnOf(o, w, nodes, n - 1);
      CallsGrow(o, w, nodes, n - 1);
      TurnOutcome(o, s.w, AfterTurn(o, s.w, nodes[n - 1]), nodes[n - 1]);
      StillMine(o, w, nodes, n - 1);
    }
  }

  lemma {:induction false} CallsGrow(o: Oracle, w: World, nodes: seq<Item>, n: nat)
    requires n <= |nodes| && FreshNodes(w, nodes)
    ensures w.calls <= AfterRemoveNodes(o, w, nodes, n).w.calls
  {
    hide AfterRemoveNodes;
    RemoveNodesEffect(o, w, nodes, n);
  }

  lemma {:induction false} TurnOutcome(o: Oracle, w: World, t: Step, node: Item)
    requires FreshNode(w, node) && TakesTurn(o, w, t, node) && Quiet(o, w.calls)
    ensures t.ok <==> ClearedAtOnce(w.objs, node)
  {
  }

  lemma {:induction false} NoTurns(o: Oracle, w: World, nodes: seq<Item>)
    ensures AfterRemoveNodes(o, w, nodes, 0) == Step(w, true)
  {
  }

  /** What a node is about to lose is what it had when the pass began. */
  lemma {:induction false} StillMine(o: Oracle, w: World, nodes: seq<Item>, j: nat)
    requires j < |nodes| && FreshNodes(w, nodes) && DistinctIds(nodes)
    ensures ClearedAtOnce(AfterRemoveNodes(o, w, nodes, j).w.objs, nodes[j]) <==> ClearedAtOnce(w.objs, nodes[j])
  {
    hide AfterRemoveNodes;
    var s, node := AfterRemoveNodes(o, w, nodes, j), nodes[j];
    var mine := Possessions(w.objs, NodeId(node.obj));
    RemoveNodesEffect(o, w, nodes, j);
    PodsKept(w.objs, s.w.objs, Hostname(node.obj));
    forall k | k in mine ensures Same(w.objs, s.w.objs, k) {
      TurnsAreIndependent(o, w, nodes, j, j + 1, k);
    }
    TurnSetShrinks(w.objs, s.w.objs, node);
    assert Possessions(s.w.objs, NodeId(node.obj)) <= TurnSet(w.objs, node);
    assert Possessions(s.w.objs, NodeId(node.obj)) == mine;
  }

  // ----- labelling -----

  function Target(node: Object, seen: map<string, bool>): Object {
    match Judge(node, seen)
    case Label => WithLabel(node)
    case Unlabel => WithoutLabel(node)
    case _ => node
  }

  predicate Relabelled(s: Step, node: Item, seen: map<string, bool>)
    requires node.key in s.w.objs
  {
    s.w.objs[node.key] == Target(node.obj, seen) || (!s.ok && s.w.objs[node.key] == node.obj)
  }

  predicate Among(nodes: seq<Item>, n: nat, key: Key)
    requires n <= |nodes|
  {
    exists j :: 0 <= j < n && nodes[j].key == key
  }

  /** The first `n` nodes carry their target label, or, after a failure, perhaps still
      the old one; everything else is as it was. */
  ghost predicate Swept(w: World, s: Step, nodes: seq<Item>, seen: map<string, bool>, n: nat)
    requires n <= |nodes|
  {
    && w.calls <= s.w.calls
    && s.w.objs.Keys == w.objs.Keys
    && Sound(s.w.objs)
    && (forall j :: 0 <= j < n ==> nodes[j].key in s.w.objs && Relabelled(s, nodes[j], seen))
    && (forall k {:trigger Same(w.objs, s.w.objs, k)} :: !Among(nodes, n, k) ==> Same(w.objs, s.w.objs, k))
  }

  ghost predicate Judged(w: World, r: Step, node: Item, seen: map<string, bool>)
    requires Fresh(w, node)
  {
    && w.calls <= r.w.calls
    && r.w.objs.Keys == w.objs.Keys
    && Sound(r.w.objs)
    && Outside(w.objs, r.w.objs, {node.key})
    && Relabelled(r, node, seen)
  }

  lemma {:induction false} JudgeEffect(o: Oracle, w: World, node: Item, seen: map<string, bool>)
    requires Fresh(w, node) && Sound(w.objs)
    ensures Judged(w, AfterJudge(o, w, node, seen), node, seen)
    ensures Quiet(o, w.calls) ==> AfterJudge(o, w, node, seen).ok
  {
  }

  lemma {:induction false} SweepStep(
    o: Oracle, w: World, s: Step, r: Step, nodes: seq<Item>, seen: map<string, bool>, n: nat)
    requires n < |nodes| && FreshNodes(w, nodes) && Swept(w, s, nodes, seen, n)
    requires Fresh(s.w, nodes[n]) && Judged(s.w, r, nodes[n], seen)
    ensures Swept(w, Step(r.w, s.ok && r.ok), nodes, seen, n + 1)
  {
    forall j | 0 <= j < n ensures Same(s.w.objs, r.w.objs, nodes[j].key) {
      assert nodes[j].key != nodes[n].key;
    }
    forall k | !Among(nodes, n + 1, k) ensures Same(w.objs, r.w.objs, k) {
      assert nodes[n].key != k && !Among(nodes, n, k);
      assert Same(w.objs, s.w.objs, k) && Same(s.w.objs, r.w.objs, k);
    }
  }

  lemma {:induction false} SweepEffect(o: Oracle, w: World, nodes: seq<Item>, seen: map<string, bool>, n: nat)
    requires n <= |nodes| && FreshNodes(w, nodes) && Sound(w.objs)
    ensures Swept(w, AfterSweep(o, w, nodes, seen, n), nodes, seen, n)
    ensures Quiet(o, w.calls) ==> AfterSweep(o, w, nodes, seen, n).ok
  {
    hide AfterJudge, Swept, Judged;
    if n == 0 {
      NothingSwept(w, nodes, seen);
    } else {
      SweepEffect(o, w, nodes, seen, n - 1);
      var s := AfterSweep(o, w, nodes, seen, n - 1);
      StillListed(w, s, nodes, seen, n - 1);
      JudgeEffect(o, s.w, nodes[n - 1], seen);
      SweepStep(o, w, s, AfterJudge(o, s.w, nodes[n - 1], seen), nodes, seen, n - 1);
    }
  }

  lemma {:induction false} NothingSwept(w: World, nodes: seq<Item>, seen: map<string, bool>)
    requires Sound(w.objs)
    ensures Swept(w, Step(w, true), nodes, seen, 0)
  {
  }

  lemma {:induction false} StillListed(w: World, s: Step, nodes: seq<Item>, seen: map<string, bool>, n: nat)
    requires n < |nodes| && FreshNodes(w, nodes) && Swept(w, s, nodes, seen, n)
    ensures Fresh(s.w, nodes[n]) && Sound(s.w.objs) && w.calls <= s.w.calls
  {
    NotAmongEarlier(w, nodes, n);
    assert FreshNode(w, nodes[n]) && Same(w.objs, s.w.objs, nodes[n].key);
  }

  lemma {:induction false} NotAmongEarlier(w: World, nodes: seq<Item>, n: nat)
    requires n < |nodes| && FreshNodes(w, nodes)
    ensures !Among(nodes, n, nodes[n].key)
  {
  }

  lemma {:induction false} RemovingAre(nodes: seq<Item>, seen: map<string, bool>, n: nat)
    requires n <= |nodes|
    ensures forall x :: x in Removing(nodes, seen, n) <==> x in nodes[..n] && Judge(x.obj, seen).Remove?
    ensures Distinct(nodes) ==> Distinct(Removing(nodes, seen, n))
  {
    if n > 0 {
      RemovingAre(nodes, seen, n - 1);
      assert nodes[..n] == nodes[..n - 1] + [nodes[n - 1]];
      var before := Removing(nodes, seen, n - 1);
      if Distinct(nodes) && Judge(nodes[n - 1].obj, seen).Remove? {
        forall i | 0 <= i < |before| ensures before[i].key != nodes[n - 1].key {
          assert before[i] in nodes[..n - 1];
        }
      }
    }
  }

  /** The nodes to remove are not relabelled, so they are still as listed. */
  lemma {:induction false} RemovingFresh(o: Oracle, w: World, nodes: seq<Item>, seen: map<string, bool>)
    requires FreshNodes(w, nodes) && Sound(w.objs)
    ensures FreshNodes(AfterSweep(o, w, nodes, seen, |nodes|).w, Removing(nodes, seen, |nodes|))
  {
    SweepEffect(o, w, nodes, seen, |nodes|);
    RemovingAre(nodes, seen, |nodes|);
    var s := AfterSweep(o, w, nodes, seen, |nodes|);
    var removing := Removing(nodes, seen, |nodes|);
    forall i | 0 <= i < |removing| ensures FreshNode(s.w, removing[i]) {
      assert removing[i] in nodes[..|nodes|];
      var j :| 0 <= j < |nodes| && nodes[j] == removing[i];
      assert FreshNode(w, nodes[j]);
    }
  }

  // ----- the whole of handleNodeRemoval -----

  ghost predicate RemovedIn(w: World, hosts: seq<Item>, node: Item)
  {
    && FreshNode(w, node)
    && Labelled(node.obj)
    && Hostname(node.obj) !in TaintMap(hosts, REMOVAL_TAINT, |hosts|)
    && !PodsOn(w.objs, Hostname(node.obj))
  }

  /** The object is still there, and nothing but its labels has changed. */
  predicate OnlyRelabelled(a: Store, b: Store, key: Key) {
    && key in a && key in b
    && b[key].spec == a[key].spec
    && b[key].meta == a[key].meta.(labels := b[key].meta.labels)
  }

  /** A label that cannot be written stops the removals of that pass. */
  lemma {:induction false} FailedLabelStopsRemoval(o: Oracle, w: World, nodes: seq<Item>, hosts: seq<Item>)
    requires FreshNodes(w, nodes) && Sound(w.objs)
    requires !AfterSweep(o, w, nodes, TaintMap(hosts, REMOVAL_TAINT, |hosts|), |nodes|).ok
    ensures var r := AfterNodeRemoval(o, w, nodes, hosts);
            && !r.ok
            && forall k :: k in w.objs ==>
                 OnlyRelabelled(w.objs, r.w.objs, k) && (k.kind != CsiNode ==> Same(w.objs, r.w.objs, k))
  {
    hide AfterSweep, AfterRemoveNodes;
    var seen := TaintMap(hosts, REMOVAL_TAINT, |hosts|);
    SweepEffect(o, w, nodes, seen, |nodes|);
    SweptOnlyRelabels(w, AfterSweep(o, w, nodes, seen, |nodes|), nodes, seen);
  }

  lemma {:induction false} SweptOnlyRelabels(w: World, s: Step, nodes: seq<Item>, seen: map<string, bool>)
    requires FreshNodes(w, nodes) && Swept(w, s, nodes, seen, |nodes|)
    ensures forall k :: k in w.objs ==> OnlyRelabelled(w.objs, s.w.objs, k)
    ensures forall k: Key {:trigger Same(w.objs, s.w.objs, k)} :: k.kind != CsiNode ==> Same(w.objs, s.w.objs, k)
  {
    forall k
      ensures k in w.objs ==> OnlyRelabelled(w.objs, s.w.objs, k)
      ensures k.kind != CsiNode ==> Same(w.objs, s.w.objs, k)
    {
      if Among(nodes, |nodes|, k) {
        var j :| 0 <= j < |nodes| && nodes[j].key == k;
        assert FreshNode(w, nodes[j]) && Relabelled(s, nodes[j], seen);
      } else {
        assert Same(w.objs, s.w.objs, k);
      }
    }
  }

  /** An object changed by handleNodeRemoval is either a relabelled node, or it belongs
      to a labelled node whose host was not seen and which had no pod. */
  lemma {:induction false} ChangedByRemoval(o: Oracle, w: World, nodes: seq<Item>, hosts: seq<Item>, key: Key)
    returns (node: Item)
    requires FreshNodes(w, nodes) && Sound(w.objs)
    requires !Same(w.objs, AfterNodeRemoval(o, w, nodes, hosts).w.objs, key)
    requires key.kind != CsiNode || !OnlyRelabelled(w.objs, AfterNodeRemoval(o, w, nodes, hosts).w.objs, key)
    ensures key in w.objs && node in nodes && RemovedIn(w, hosts, node) && key in TurnSet(w.objs, node)
  {
    hide AfterSweep, AfterRemoveNodes;
    var seen := TaintMap(hosts, REMOVAL_TAINT, |hosts|);
    SweepEffect(o, w, nodes, seen, |nodes|);
    var s := AfterSweep(o, w, nodes, seen, |nodes|);
    var removing := Removing(nodes, seen, |nodes|);
    SweptOnlyRelabels(w, s, nodes, seen);
    assert key.kind != CsiNode ==> Same(w.objs, s.w.objs, key);
    assert key in w.objs ==> OnlyRelabelled(w.objs, s.w.objs, key);
    assert s.ok && !Same(s.w.objs, AfterRemoveNodes(o, s.w, removing, |removing|).w.objs, key);
    RemovingFresh(o, w, nodes, seen);
    var j := TouchedByATurn(o, s.w, removing, |removing|, key);
    node := removing[j];
    var m := RemovedWasListed(nodes, seen, j);
    BeforeTheSweep(w, s, nodes, seen, m, key);
  }

  lemma {:induction false} RemovedWasListed(nodes: seq<Item>, seen: map<string, bool>, i: nat) returns (m: nat)
    requires i < |Removing(nodes, seen, |nodes|)|
    ensures m < |nodes| && nodes[m] == Removing(nodes, seen, |nodes|)[i] && Judge(nodes[m].obj, seen).Remove?
  {
    hide Removing;
    RemovingAre(nodes, seen, |nodes|);
    var node := Removing(nodes, seen, |nodes|)[i];
    assert node in nodes[..|nodes|];
    m :| 0 <= m < |nodes| && nodes[m] == node;
  }

  /** The sweep changes neither what a node owns nor the pods. */
  lemma {:induction false} BeforeTheSweep(
    w: World, s: Step, nodes: seq<Item>, seen: map<string, bool>, m: nat, key: Key)
    requires m < |nodes| && FreshNodes(w, nodes) && Swept(w, s, nodes, seen, |nodes|)
    requires key in TurnSet(s.w.objs, nodes[m])
    ensures key in TurnSet(w.objs, nodes[m]) && key in w.objs
    ensures PodsOn(w.objs, Hostname(nodes[m].obj)) == PodsOn(s.w.objs, Hostname(nodes[m].obj))
  {
    SweptOnlyRelabels(w, s, nodes, seen);
    PodsKept(w.objs, s.w.objs, Hostname(nodes[m].obj));
    assert FreshNode(w, nodes[m]);
    assert key != nodes[m].key ==> Same(w.objs, s.w.objs, key);
  }

  predicate Converged(a: Store, b: Store, node: Item, seen: map<string, bool>) {
    && (Hostname(node.obj) in seen ==>
          node.key in b && (Labelled(b[node.key]) <==> seen[Hostname(node.obj)]))
    && (Hostname(node.obj) !in seen && !Labelled(node.obj) ==> Same(a, b, node.key))
  }

  /** The same as `LabelsConverge`, once all labels could be written. */
  lemma {:induction false} LabelsConvergeAnyway(o: Oracle, w: World, nodes: seq<Item>, hosts: seq<Item>, j: nat)
    requires FreshNodes(w, nodes) && Sound(w.objs) && j < |nodes|
    requires AfterSweep(o, w, nodes, TaintMap(hosts, REMOVAL_TAINT, |hosts|), |nodes|).ok
    ensures Converged(w.objs, AfterNodeRemoval(o, w, nodes, hosts).w.objs, nodes[j],
                      TaintMap(hosts, REMOVAL_TAINT, |hosts|))
  {
    hide AfterSweep, AfterRemoveNodes;
    var seen := TaintMap(hosts, REMOVAL_TAINT, |hosts|);
    SweepEffect(o, w, nodes, seen, |nodes|);
    var s := AfterSweep(o, w, nodes, seen, |nodes|);
    var node, removing := nodes[j], Removing(nodes, seen, |nodes|);
    assert FreshNode(w, node) && Relabelled(s, node, seen);
    if !Judge(node.obj, seen).Remove? {
      RemovingFresh(o, w, nodes, seen);
      forall i | 0 <= i < |removing| ensures node.key !in TurnSet(s.w.objs, removing[i]) {
        var m := RemovedWasListed(nodes, seen, i);
        OtherKey(nodes, m, j);
      }
      NotYet(o, s.w, removing, |removing|, node.key);
    }
  }

  /** After an error-free pass a node whose host is selected is labelled exactly when
      the host carries the drain taint; an unlabelled node without a host is as before. */
  lemma {:induction false} LabelsConverge(o: Oracle, w: World, nodes: seq<Item>, hosts: seq<Item>, j: nat)
    requires FreshNodes(w, nodes) && Sound(w.objs) && j < |nodes|
    requires AfterNodeRemoval(o, w, nodes, hosts).ok
    ensures Converged(w.objs, AfterNodeRemoval(o, w, nodes, hosts).w.objs, nodes[j],
                      TaintMap(hosts, REMOVAL_TAINT, |hosts|))
  {
    hide AfterSweep, AfterRemoveNodes, TaintMap, Converged;
    LabelsConvergeAnyway(o, w, nodes, hosts, j);
  }

  lemma {:induction false} OtherKey(nodes: seq<Item>, i: nat, j: nat)
    requires i < |nodes| && j < |nodes| && i != j && Distinct(nodes)
    ensures nodes[i].key != nodes[j].key
  {
  }

  /** Sweeping nodes that already carry their target label makes no call at all. */
  lemma {:induction false} SecondSweepWritesNothing(
    o: Oracle, w: World, nodes: seq<Item>, seen: map<string, bool>, n: nat)
    requires n <= |nodes|
    requires forall j :: 0 <= j < |nodes| ==> !Judge(nodes[j].obj, seen).Label? && !Judge(nodes[j].obj, seen).Unlabel?
    ensures AfterSweep(o, w, nodes, seen, n) == Step(w, true)
  {
    if n > 0 {
      SecondSweepWritesNothing(o, w, nodes, seen, n - 1);
    }
  }
}
