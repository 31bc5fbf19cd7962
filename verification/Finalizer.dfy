/** The finalizer protocol of the Deployment controller. */
module Finalizer {
  import opened Api
  import opened Strings

  const CSI_FINALIZER := "dell.emc.csi/csi-deployment-cleanup"

  /** A substring test. */
  predicate ContainsFinalizer(finalizers: seq<string>) {
    exists f :: f in finalizers && Contains(f, CSI_FINALIZER)
  }

  /** An equality test. */
  function Stripped(finalizers: seq<string>): seq<string> {
    if finalizers == [] then []
    else
      var last := finalizers[|finalizers| - 1];
      Stripped(finalizers[..|finalizers| - 1]) + if last == CSI_FINALIZER then [] else [last]
  }

  function WithFinalizers(cr: Object, finalizers: seq<string>): Object {
    cr.(meta := cr.meta.(finalizers := finalizers))
  }

  /** What the components answer in one pass; they do not write the Deployment resource. */
  datatype Answers = Answers(uninstall: bool, update: bool, nodes: bool)

  datatype Action = Uninstalls | Deploys | ReconcilesNodes

  datatype Pass = Pass(w: World, ok: bool, actions: seq<Action>)

  function AfterDeploy(w: World, answers: Answers): Pass {
    if !answers.update then Pass(w, false, [Deploys]) else Pass(w, answers.nodes, [Deploys, ReconcilesNodes])
  }

  function AfterPass(o: Oracle, w: World, key: Key, answers: Answers): Pass {
    var g := AfterGet(o, w, key);
    if !g.reply.Found? then Pass(g.w, g.reply.NotFound?, [])
    else
      var cr := g.reply.obj;
      var finalizers := cr.meta.finalizers;
      if !cr.meta.deleting then
        if ContainsFinalizer(finalizers) then AfterDeploy(g.w, answers)
        else
          var u := AfterUpdate(o, g.w, key, WithFinalizers(cr, finalizers + [CSI_FINALIZER]));
          if u.ok then AfterDeploy(u.w, answers) else Pass(u.w, false, [])
      else if ContainsFinalizer(finalizers) then
        var u := AfterUpdate(o, g.w, key, WithFinalizers(cr, Stripped(finalizers)));
        Pass(u.w, u.ok, [Uninstalls])
      else AfterDeploy(g.w, answers)
  }

  class Reconciler {
    const server: Server

    constructor (server: Server)
      ensures this.server == server
    {
      this.server := server;
    }

    static method HasFinalizer(finalizers: seq<string>) returns (found: bool)
      ensures found == ContainsFinalizer(finalizers)
    {
      for i := 0 to |finalizers|
        invariant forall f :: f in finalizers[..i] ==> !Contains(f, CSI_FINALIZER)
      {
        if Contains(finalizers[i], CSI_FINALIZER) {
          assert finalizers[i] in finalizers;
          return true;
        }
      }
      return false;
    }

    static method DeleteFinalizer(finalizers: seq<string>) returns (result: seq<string>)
      ensures result == Stripped(finalizers)
    {
      result := [];
      for i := 0 to |finalizers|
        invariant result == Stripped(finalizers[..i])
      {
        assert finalizers[..i + 1][..i] == finalizers[..i];
        if finalizers[i] == CSI_FINALIZER { continue; }
        result := result + [finalizers[i]];
      }
      assert finalizers[..|finalizers|] == finalizers;
    }

    /** `actions` records in which order the components are called. */
    method Reconcile(key: Key, answers: Answers) returns (ok: bool, actions: seq<Action>)
      modifies server
      ensures Pass(server.Now(), ok, actions) == AfterPass(server.oracle, old(server.Now()), key, answers)
    {
      actions := [];
      var reply := server.Get(key);
      if !reply.Found? { return reply.NotFound?, actions; }
      var cr := reply.obj;
      var found := HasFinalizer(cr.meta.finalizers);
      if !cr.meta.deleting {
        if !found {
          cr := WithFinalizers(cr, cr.meta.finalizers + [CSI_FINALIZER]);
          ok := server.Update(key, cr);
          if !ok { return; }
        }
      } else if found {
        actions := actions + [Uninstalls];
        var rest := DeleteFinalizer(cr.meta.finalizers);
        ok := server.Update(key, WithFinalizers(cr, rest));
        return;
      }
      actions := actions + [Deploys];
      if !answers.update { return false, actions; }
      actions := actions + [ReconcilesNodes];
      ok := answers.nodes;
    }
  }

  // ----- the finalizer itself -----

  /** Some other finalizer has ours as a part of its text. */
  predicate Lookalike(finalizers: seq<string>) {
    exists f :: f in finalizers && f != CSI_FINALIZER && Contains(f, CSI_FINALIZER)
  }

  lemma {:induction false} OursContainsItself()
    ensures Contains(CSI_FINALIZER, CSI_FINALIZER)
  {
    assert OccursAt(CSI_FINALIZER, CSI_FINALIZER, 0);
  }

  /** Stripping removes ours and keeps all others, as often as they occur. */
  lemma {:induction false} StrippedKeepsOthers(finalizers: seq<string>)
    ensures multiset(Stripped(finalizers)) == multiset(finalizers)[CSI_FINALIZER := 0]
    ensures forall f :: f in Stripped(finalizers) <==> f in finalizers && f != CSI_FINALIZER
  {
    if finalizers != [] {
      StrippedKeepsOthers(finalizers[..|finalizers| - 1]);
      assert finalizers == finalizers[..|finalizers| - 1] + [finalizers[|finalizers| - 1]];
    }
  }

  /** Stripping works piece by piece, so the others keep their order. */
  lemma {:induction false} StrippedKeepsOrder(a: seq<string>, b: seq<string>)
    ensures Stripped(a + b) == Stripped(a) + Stripped(b)
  {
    if b == [] {
      assert a + b == a;
    } else {
      assert (a + b)[..|a + b| - 1] == a + b[..|b| - 1];
      StrippedKeepsOrder(a, b[..|b| - 1]);
    }
  }

  /** After stripping, the containment test fails exactly when there was no lookalike. */
  lemma {:induction false} StrippedIsGoneIff(finalizers: seq<string>)
    ensures ContainsFinalizer(Stripped(finalizers)) <==> Lookalike(finalizers)
  {
    StrippedKeepsOthers(finalizers);
  }

  const LOOKALIKE := CSI_FINALIZER + "-2"

  lemma {:induction false} LookalikeContainsOurs()
    ensures Contains(LOOKALIKE, CSI_FINALIZER) && LOOKALIKE != CSI_FINALIZER
  {
    assert LOOKALIKE[0..0 + |CSI_FINALIZER|] == CSI_FINALIZER;
    assert OccursAt(LOOKALIKE, CSI_FINALIZER, 0);
  }

  lemma {:induction false} LookalikeSurvives()
    ensures ContainsFinalizer(Stripped([CSI_FINALIZER, LOOKALIKE]))
  {
    LookalikeContainsOurs();
    assert LOOKALIKE in [CSI_FINALIZER, LOOKALIKE];
    StrippedIsGoneIff([CSI_FINALIZER, LOOKALIKE]);
  }

  // ----- one pass -----

  predicate Guarded(objs: Store, key: Key) {
    key in objs && ContainsFinalizer(objs[key].meta.finalizers)
  }

  predicate Carries(objs: Store, key: Key) {
    key in objs && CSI_FINALIZER in objs[key].meta.finalizers
  }

  /** When components are deployed for a live resource, the stored resource passes the
      containment test; for a resource under deletion they are deployed exactly when the
      test fails on it. */
  lemma {:induction false} DeploysOnlyGuarded(o: Oracle, w: World, key: Key, answers: Answers)
    requires Deploys in AfterPass(o, w, key, answers).actions
    ensures key in w.objs && Uninstalls !in AfterPass(o, w, key, answers).actions
    ensures if w.objs[key].meta.deleting then !Guarded(w.objs, key)
            else Guarded(AfterPass(o, w, key, answers).w.objs, key)
                 && !AfterPass(o, w, key, answers).w.objs[key].meta.deleting
  {
    hide Contains;
    OursContainsItself();
    var finalizers := w.objs[key].meta.finalizers;
    assert CSI_FINALIZER in finalizers + [CSI_FINALIZER];
  }

  lemma {:induction false} DeletingWithoutOursDeploys(o: Oracle, w: World, key: Key, answers: Answers)
    requires key in w.objs && w.objs[key].meta.deleting && o.fault(w.calls, GetVerb, key).NoFault?
    ensures Deploys in AfterPass(o, w, key, answers).actions <==> !ContainsFinalizer(w.objs[key].meta.finalizers)
  {
  }

  /** A fault-free pass over a live resource deploys its components, whether or not it was
      new, and its result is theirs. Afterwards the stored resource passes the containment
      test; a new one has our finalizer behind those it had. */
  lemma {:induction false} LiveIsDeployed(o: Oracle, w: World, key: Key, answers: Answers)
    requires Quiet(o, w.calls) && key in w.objs && !w.objs[key].meta.deleting
    ensures var p := AfterPass(o, w, key, answers);
            && p.actions == (if answers.update then [Deploys, ReconcilesNodes] else [Deploys])
            && (p.ok <==> answers.update && answers.nodes)
            && key in p.w.objs && Guarded(p.w.objs, key)
            && p.w.objs[key].spec == w.objs[key].spec && !p.w.objs[key].meta.deleting
            && p.w.objs[key].meta.finalizers
               == w.objs[key].meta.finalizers + if Guarded(w.objs, key) then [] else [CSI_FINALIZER]
  {
    hide Contains;
    OursContainsItself();
    var finalizers := w.objs[key].meta.finalizers;
    assert o.fault(w.calls, GetVerb, key) == NoFault && o.fault(w.calls + 1, UpdateVerb, key) == NoFault;
    assert CSI_FINALIZER in finalizers + [CSI_FINALIZER];
    assert finalizers + [] == finalizers;
  }

  /** A fault-free pass over a resource under deletion that passes the test uninstalls,
      reports no error however that ends, and leaves the other finalizers, or nothing if
      there are none; a resource that fails the test is deployed. */
  lemma {:induction false} DeletingIsUninstalled(o: Oracle, w: World, key: Key, answers: Answers)
    requires Quiet(o, w.calls) && key in w.objs && w.objs[key].meta.deleting
    ensures var p := AfterPass(o, w, key, answers);
            if Guarded(w.objs, key) then
              && p.ok && p.actions == [Uninstalls]
              && (if Stripped(w.objs[key].meta.finalizers) == [] then key !in p.w.objs
                  else key in p.w.objs
                       && p.w.objs[key].meta.finalizers == Stripped(w.objs[key].meta.finalizers)
                       && p.w.objs[key].meta.deleting)
            else Deploys in p.actions && p.w.objs == w.objs && (p.ok <==> answers.update && answers.nodes)
  {
    hide ContainsFinalizer, Stripped;
    assert o.fault(w.calls, GetVerb, key) == NoFault && o.fault(w.calls + 1, UpdateVerb, key) == NoFault;
  }

  /** A resource that is not there is no error and no work; one that cannot be read is an
      error and no work; so is a finalizer that cannot be written. */
  lemma {:induction false} UnreadIsLeftAlone(o: Oracle, w: World, key: Key, answers: Answers)
    ensures o.fault(w.calls, GetVerb, key) != NoFault ==>
              var p := AfterPass(o, w, key, answers); !p.ok && p.actions == [] && p.w.objs == w.objs
    ensures o.fault(w.calls, GetVerb, key) == NoFault && key !in w.objs ==>
              var p := AfterPass(o, w, key, answers); p.ok && p.actions == [] && p.w.objs == w.objs
    ensures key in w.objs && !w.objs[key].meta.deleting && !Guarded(w.objs, key)
            && o.fault(w.calls + 1, UpdateVerb, key) != NoFault ==>
              !AfterPass(o, w, key, answers).ok && AfterPass(o, w, key, answers).actions == []
  {
    hide ContainsFinalizer;
  }

  /** What a pass may write: our finalizer added to a live resource, or taken off one
      under deletion. */
  lemma {:induction false} PassWrites(o: Oracle, w: World, key: Key, answers: Answers)
    ensures var p := AfterPass(o, w, key, answers);
            || p.w.objs == w.objs
            || (&& key in w.objs && !w.objs[key].meta.deleting
                && p.w.objs == Written(
                     w.objs, key, WithFinalizers(w.objs[key], w.objs[key].meta.finalizers + [CSI_FINALIZER])))
            || (&& key in w.objs && w.objs[key].meta.deleting && Uninstalls in p.actions
                && p.w.objs == Written(w.objs, key, WithFinalizers(w.objs[key], Stripped(w.objs[key].meta.finalizers))))
  {
    hide ContainsFinalizer, Stripped, WithFinalizers, Written;
  }

  /** A pass touches the resource alone. Its finalizers other than ours stay as they were;
      ours goes only from a resource under deletion, after an attempt to uninstall. */
  lemma {:induction false} StripsOnlyAfterUninstall(o: Oracle, w: World, key: Key, answers: Answers)
    ensures var p := AfterPass(o, w, key, answers);
            && (forall k {:trigger Same(w.objs, p.w.objs, k)} :: k != key ==> Same(w.objs, p.w.objs, k))
            && (key in w.objs && key in p.w.objs ==>
                  Stripped(p.w.objs[key].meta.finalizers) == Stripped(w.objs[key].meta.finalizers)
                  && p.w.objs[key].meta.deleting == w.objs[key].meta.deleting)
            && (Carries(w.objs, key) && !Carries(p.w.objs, key) ==>
                  w.objs[key].meta.deleting && Uninstalls in p.actions)
  {
    hide AfterPass, Stripped;
    PassWrites(o, w, key, answers);
    if key in w.objs {
      var finalizers := w.objs[key].meta.finalizers;
      StrippedKeepsOrder(finalizers, [CSI_FINALIZER]);
      StrippedOurs();
      StrippedTwice(finalizers);
    }
  }

  lemma {:induction false} StrippedOurs()
    ensures Stripped([CSI_FINALIZER]) == []
  {
  }

  lemma {:induction false} StrippedTwice(finalizers: seq<string>)
    ensures Stripped(Stripped(finalizers)) == Stripped(finalizers)
  {
    if finalizers != [] {
      var init, last := finalizers[..|finalizers| - 1], finalizers[|finalizers| - 1];
      StrippedTwice(init);
      var tail := if last == CSI_FINALIZER then [] else [last];
      StrippedKeepsOrder(Stripped(init), tail);
      assert Stripped(tail) == tail;
    }
  }

  /** A fault-free pass over a resource under deletion settles it: the next pass uninstalls
      again exactly when a lookalike keeps the containment test true. */
  lemma {:induction false} UninstallsAgainIff(o: Oracle, w: World, v: World, key: Key, first: Answers, second: Answers)
    requires Sound(w.objs) && Quiet(o, w.calls) && w.calls <= v.calls
    requires Guarded(w.objs, key) && w.objs[key].meta.deleting
    requires v.objs == AfterPass(o, w, key, first).w.objs
    ensures Uninstalls in AfterPass(o, w, key, first).actions
    ensures Uninstalls in AfterPass(o, v, key, second).actions <==> Lookalike(w.objs[key].meta.finalizers)
  {
    hide ContainsFinalizer, Lookalike, Stripped;
    var finalizers := w.objs[key].meta.finalizers;
    StrippedIsGoneIff(finalizers);
    assert o.fault(w.calls, GetVerb, key) == NoFault && o.fault(w.calls + 1, UpdateVerb, key) == NoFault;
    assert o.fault(v.calls, GetVerb, key) == NoFault;
    NoneContains();
  }

  lemma {:induction false} NoneContains()
    ensures !ContainsFinalizer([])
  {
  }

  // ----- runs -----

  datatype Event = Environment | Reconciles(answers: Answers)

  /** Other writers respect our finalizer: they neither take it off nor drop an object
      that carries it. */
  ghost predicate Respects(a: World, b: World, key: Key) {
    Carries(a.objs, key) ==> Carries(b.objs, key)
  }

  ghost predicate StepOf(o: Oracle, key: Key, a: World, b: World, event: Event) {
    match event
    case Environment => Respects(a, b, key)
    case Reconciles(answers) => b == AfterPass(o, a, key, answers).w
  }

  ghost predicate Run(o: Oracle, key: Key, ws: seq<World>, events: seq<Event>) {
    && |ws| == |events| + 1
    && forall i :: 0 <= i < |events| ==> StepOf(o, key, ws[i], ws[i + 1], events[i])
  }

  predicate AttemptsUninstall(o: Oracle, key: Key, w: World, event: Event) {
    event.Reconciles? && Uninstalls in AfterPass(o, w, key, event.answers).actions
  }

  /** A resource that once carried the finalizer loses it, or disappears, only after a
      pass that saw it under deletion and attempted to uninstall. */
  lemma {:induction false} GoneOnlyAfterUninstall(
    o: Oracle, key: Key, ws: seq<World>, events: seq<Event>, i: nat, j: nat) returns (m: nat)
    requires Run(o, key, ws, events) && i <= j < |ws|
    requires Carries(ws[i].objs, key) && !Carries(ws[j].objs, key)
    ensures i <= m < j && AttemptsUninstall(o, key, ws[m], events[m])
    ensures key in ws[m].objs && ws[m].objs[key].meta.deleting
    decreases j
  {
    hide AfterPass;
    assert StepOf(o, key, ws[j - 1], ws[j], events[j - 1]);
    if Carries(ws[j - 1].objs, key) {
      m := j - 1;
      if events[m].Reconciles? { StripsOnlyAfterUninstall(o, ws[m], key, events[m].answers); }
    } else {
      m := GoneOnlyAfterUninstall(o, key, ws, events, i, j - 1);
    }
  }

  /** A live resource for which components were deployed carries the finalizer afterwards
      exactly when it did before or no lookalike stood in for it. */
  lemma {:induction false} DeployedCarriesIff(o: Oracle, w: World, key: Key, answers: Answers)
    requires Deploys in AfterPass(o, w, key, answers).actions
    requires key in w.objs && !w.objs[key].meta.deleting
    ensures Carries(AfterPass(o, w, key, answers).w.objs, key)
       <==> CSI_FINALIZER in w.objs[key].meta.finalizers || !Lookalike(w.objs[key].meta.finalizers)
  {
    hide Contains;
    OursContainsItself();
    var finalizers := w.objs[key].meta.finalizers;
    assert CSI_FINALIZER in finalizers + [CSI_FINALIZER];
    assert ContainsFinalizer(finalizers) <==> CSI_FINALIZER in finalizers || Lookalike(finalizers);
  }

  /** Whatever was deployed for a live resource is uninstalled, or at least tried to,
      before the resource can be gone, unless a lookalike stood in for our finalizer. */
  lemma {:induction false} DeployedIsUninstalled(
    o: Oracle, key: Key, ws: seq<World>, events: seq<Event>, i: nat, j: nat) returns (m: nat)
    requires Run(o, key, ws, events) && i < j < |ws| && events[i].Reconciles?
    requires Deploys in AfterPass(o, ws[i], key, events[i].answers).actions
    requires key in ws[i].objs && !ws[i].objs[key].meta.deleting
    requires CSI_FINALIZER in ws[i].objs[key].meta.finalizers || !Lookalike(ws[i].objs[key].meta.finalizers)
    requires key !in ws[j].objs
    ensures i < m < j && AttemptsUninstall(o, key, ws[m], events[m])
    ensures key in ws[m].objs && ws[m].objs[key].meta.deleting
  {
    hide AfterPass, Contains;
    assert StepOf(o, key, ws[i], ws[i + 1], events[i]);
    DeployedCarriesIff(o, ws[i], key, events[i].answers);
    m := GoneOnlyAfterUninstall(o, key, ws, events, i + 1, j);
  }

  /** The other case: a resource that carries a lookalike, but not our finalizer, is
      deployed, and then others may drop it without any attempt to uninstall. */
  lemma {:induction false} LookalikeSlipsAway(
    o: Oracle, key: Key, answers: Answers, spec: Spec, finalizers: seq<string>)
    returns (ws: seq<World>, events: seq<Event>)
    requires o.fault(0, GetVerb, key) == NoFault
    requires Lookalike(finalizers) && CSI_FINALIZER !in finalizers
    ensures Run(o, key, ws, events) && |events| == 2 && events[0].Reconciles?
    ensures key in ws[0].objs && !ws[0].objs[key].meta.deleting && ws[0].objs[key].meta.finalizers == finalizers
    ensures Deploys in AfterPass(o, ws[0], key, events[0].answers).actions
    ensures key !in ws[2].objs
    ensures forall m :: 0 <= m < |events| ==> !AttemptsUninstall(o, key, ws[m], events[m])
  {
    hide Contains;
    var w := World(map[key := Object(Meta(map[], finalizers, false, 0), spec)], 0, 0);
    var p := AfterPass(o, w, key, answers);
    ws, events := [w, p.w, p.w.(objs := map[])], [Reconciles(answers), Environment];
    assert p.w.objs == w.objs && StepOf(o, key, ws[0], ws[1], events[0]) && StepOf(o, key, ws[1], ws[2], events[1]);
  }

  // ----- a lookalike keeps uninstalling -----

  /** The resource is under deletion and a lookalike holds it there. */
  predicate Haunted(objs: Store, key: Key) {
    key in objs && objs[key].meta.deleting && Lookalike(objs[key].meta.finalizers)
  }

  lemma {:induction false} HauntedPass(o: Oracle, w: World, key: Key, answers: Answers)
    requires Haunted(w.objs, key)
    ensures Haunted(AfterPass(o, w, key, answers).w.objs, key)
    ensures Uninstalls in AfterPass(o, w, key, answers).actions <==> o.fault(w.calls, GetVerb, key) == NoFault
  {
    hide Contains, Stripped;
    var finalizers := w.objs[key].meta.finalizers;
    StrippedKeepsOthers(finalizers);
    assert ContainsFinalizer(finalizers);
    var f :| f in finalizers && f != CSI_FINALIZER && Contains(f, CSI_FINALIZER);
    assert f in Stripped(finalizers);
  }

  /** As long as others leave the lookalike in place, every later pass that can read the
      resource uninstalls again, and never gets rid of it. */
  lemma {:induction false} UninstallsForever(
    o: Oracle, key: Key, ws: seq<World>, events: seq<Event>, i: nat, j: nat)
    requires Run(o, key, ws, events) && i <= j < |ws| && Haunted(ws[i].objs, key)
    requires forall m :: i <= m < j && events[m].Environment? && Haunted(ws[m].objs, key) ==>
               Haunted(ws[m + 1].objs, key)
    ensures Haunted(ws[j].objs, key)
    ensures j < |events| && events[j].Reconciles? ==>
              (AttemptsUninstall(o, key, ws[j], events[j]) <==> o.fault(ws[j].calls, GetVerb, key) == NoFault)
    decreases j
  {
    hide AfterPass, Haunted;
    if i < j {
      UninstallsForever(o, key, ws, events, i, j - 1);
      assert StepOf(o, key, ws[j - 1], ws[j], events[j - 1]);
      if events[j - 1].Reconciles? { HauntedPass(o, ws[j - 1], key, events[j - 1].answers); }
    }
    if j < |events| && events[j].Reconciles? { HauntedPass(o, ws[j], key, events[j].answers); }
  }
}
