/** The sweep that removes reservations whose pod is gone or already running. */
module Reservations {
  import opened Api
  import opened Strings
  import Patching
  import RemovalProofs

  function PodNamespace(acr: Object): string {
    if acr.spec.ReservationSpec? then acr.spec.podNamespace else ""
  }

  function PodName(name: string, namespace: string): string {
    WithoutFirst(name, namespace + "-")
  }

  function PodKey(acr: Item): Key {
    Key(Pod, PodNamespace(acr.obj), PodName(acr.key.name, PodNamespace(acr.obj)))
  }

  predicate Outdated(reply: Lookup) {
    reply.NotFound? || (reply.Found? && Patching.Phase(reply.obj) == "Running")
  }

  function AfterReservation(o: Oracle, w: World, acr: Item): World {
    var g := AfterGet(o, w, PodKey(acr));
    if Outdated(g.reply) then AfterDelete(o, g.w, acr.key).w else g.w
  }

  function AfterReservations(o: Oracle, w: World, acrs: seq<Item>, n: nat): World
    requires n <= |acrs|
  {
    if n == 0 then w else AfterReservation(o, AfterReservations(o, w, acrs, n - 1), acrs[n - 1])
  }

  function AfterValidateReservations(o: Oracle, w: World): World {
    var l := AfterList(o, w, All(Reservation));
    if !l.ok then l.w else AfterReservations(o, l.w, l.items, |l.items|)
  }

  class ReservationValidator {
    const server: Server

    constructor (server: Server)
      ensures this.server == server
    {
      this.server := server;
    }

    method ValidateReservations()
      modifies server
      ensures server.Now() == AfterValidateReservations(server.oracle, old(server.Now()))
    {
      var listed, acrs := server.List(All(Reservation));
      if !listed { return; }
      ghost var start := server.Now();
      for i := 0 to |acrs|
        invariant server.Now() == AfterReservations(server.oracle, start, acrs, i)
      {
        var needed := NeedToRemove(acrs[i]);
        if needed { var _ := server.Delete(acrs[i].key); }
      }
    }

    method NeedToRemove(acr: Item) returns (needed: bool)
      modifies server
      ensures GetStep(server.Now(), AfterGet(server.oracle, old(server.Now()), PodKey(acr)).reply)
           == AfterGet(server.oracle, old(server.Now()), PodKey(acr))
      ensures needed == Outdated(AfterGet(server.oracle, old(server.Now()), PodKey(acr)).reply)
    {
      var pod := server.Get(PodKey(acr));
      if pod.Unknown? { return false; }
      if pod.NotFound? { return true; }
      needed := Patching.Phase(pod.obj) == "Running";
    }
  }

  // ----- names -----

  /** The name of a reservation is taken apart correctly for every namespace and pod, even
      when the pod's own name contains the prefix again. */
  lemma {:induction false} PodNameInverts(namespace: string, pod: string)
    ensures PodName(namespace + "-" + pod, namespace) == pod
  {
    var name, prefix := namespace + "-" + pod, namespace + "-";
    assert name[0..0 + |prefix|] == prefix;
    assert OccursAt(name, prefix, 0);
    assert name[|prefix|..] == pod;
  }

  /** A name without the prefix is taken as it is. */
  lemma {:induction false} ForeignNameStays(name: string, namespace: string)
    ensures PodName(name, namespace) == name <==> !Contains(name, namespace + "-")
  {
    match IndexFrom(name, namespace + "-", 0)
    case None =>
    case Some(i) =>
      assert |PodName(name, namespace)| == |name| - |namespace| - 1;
  }

  // ----- the sweep -----

  predicate IsStale(objs: Store, acr: Item) {
    Outdated(if PodKey(acr) in objs then Found(objs[PodKey(acr)]) else NotFound)
  }

  predicate Among(acrs: seq<Item>, n: nat, key: Key)
    requires n <= |acrs|
  {
    exists j :: 0 <= j < n && acrs[j].key == key
  }

  /** What happens to one listed reservation: a stale one is deleted, or, if a call
      fails, perhaps not; any other one stays. */
  predicate Treated(quiet: bool, a: Store, b: Store, acr: Item) {
    if IsStale(a, acr) then
      RemovalProofs.Discharged(b, acr.key, acr.obj) || (!quiet && Same(a, b, acr.key))
    else Same(a, b, acr.key)
  }

  ghost predicate FreshReservations(w: World, acrs: seq<Item>) {
    Distinct(acrs) && forall i :: 0 <= i < |acrs| ==> RemovalProofs.Fresh(w, acrs[i]) && acrs[i].key.kind == Reservation
  }

  ghost predicate Sweeping(o: Oracle, w: World, s: World, acrs: seq<Item>, n: nat)
    requires n <= |acrs|
  {
    && w.calls <= s.calls
    && (forall j :: 0 <= j < n ==> Treated(Quiet(o, w.calls), w.objs, s.objs, acrs[j]))
    && (forall k {:trigger Same(w.objs, s.objs, k)} :: !Among(acrs, n, k) ==> Same(w.objs, s.objs, k))
  }

  lemma {:induction false} SweepsOne(o: Oracle, w: World, acr: Item)
    requires RemovalProofs.Fresh(w, acr) && acr.key.kind == Reservation
    ensures var r := AfterReservation(o, w, acr);
            && w.calls <= r.calls
            && Treated(Quiet(o, w.calls), w.objs, r.objs, acr)
            && RemovalProofs.Outside(w.objs, r.objs, {acr.key})
  {
  }

  lemma {:induction false} SweepStep(o: Oracle, w: World, s: World, r: World, acrs: seq<Item>, n: nat)
    requires n < |acrs| && FreshReservations(w, acrs) && Sweeping(o, w, s, acrs, n)
    requires s.calls <= r.calls && RemovalProofs.Outside(s.objs, r.objs, {acrs[n].key})
    requires Treated(Quiet(o, s.calls), s.objs, r.objs, acrs[n])
    ensures Sweeping(o, w, r, acrs, n + 1)
  {
    hide PodKey;
    assert Quiet(o, w.calls) ==> Quiet(o, s.calls);
    forall j | 0 <= j < n ensures Same(s.objs, r.objs, acrs[j].key) {
      assert acrs[j].key != acrs[n].key;
    }
    PodKept(w.objs, s.objs, acrs, n);
    assert !Among(acrs, n, acrs[n].key);
    assert Same(w.objs, s.objs, acrs[n].key);
    forall k | !Among(acrs, n + 1, k) ensures Same(w.objs, r.objs, k) {
      assert acrs[n].key != k && !Among(acrs, n, k);
      assert Same(w.objs, s.objs, k) && Same(s.objs, r.objs, k);
    }
  }

  /** Deleting reservations does not change what is known about pods. */
  lemma {:induction false} PodKept(a: Store, b: Store, acrs: seq<Item>, n: nat)
    requires n < |acrs| && forall i :: 0 <= i < |acrs| ==> acrs[i].key.kind == Reservation
    requires forall k {:trigger Same(a, b, k)} :: !Among(acrs, n, k) ==> Same(a, b, k)
    ensures IsStale(a, acrs[n]) == IsStale(b, acrs[n])
  {
    assert PodKey(acrs[n]).kind == Pod;
    assert Same(a, b, PodKey(acrs[n]));
  }

  lemma {:induction false} SweepEffect(o: Oracle, w: World, acrs: seq<Item>, n: nat)
    requires n <= |acrs| && FreshReservations(w, acrs)
    ensures Sweeping(o, w, AfterReservations(o, w, acrs, n), acrs, n)
  {
    hide AfterReservation, PodKey, IsStale;
    if n > 0 {
      SweepEffect(o, w, acrs, n - 1);
      var s := AfterReservations(o, w, acrs, n - 1);
      assert !Among(acrs, n - 1, acrs[n - 1].key);
      assert RemovalProofs.Fresh(w, acrs[n - 1]) && Same(w.objs, s.objs, acrs[n - 1].key);
      SweepsOne(o, s, acrs[n - 1]);
      SweepStep(o, w, s, AfterReservation(o, s, acrs[n - 1]), acrs, n - 1);
    }
  }

  /** Whatever fails, only stale reservations are deleted; a fault-free sweep deletes all
      of them, so that those whose pod exists and is not running are left exactly as they
      were, and so is everything else. */
  lemma {:induction false} SweepIsExact(o: Oracle, w: World, key: Key)
    ensures var r := AfterValidateReservations(o, w).objs;
            if key in w.objs && key.kind == Reservation && IsStale(w.objs, Item(key, w.objs[key])) then
              || RemovalProofs.Discharged(r, key, w.objs[key])
              || (!Quiet(o, w.calls) && Same(w.objs, r, key))
            else Same(w.objs, r, key)
  {
    hide AfterReservations, IsStale;
    var l := AfterList(o, w, All(Reservation));
    if l.ok {
      ListedAreFresh(l.w, l.items);
      SweepEffect(o, l.w, l.items, |l.items|);
      if key in w.objs && key.kind == Reservation {
        assert Selects(All(Reservation), key, w.objs[key]) && Has(l.items, key);
        var j :| 0 <= j < |l.items| && l.items[j].key == key;
        assert Treated(Quiet(o, l.w.calls), w.objs, AfterValidateReservations(o, w).objs, l.items[j]);
      } else {
        assert !Among(l.items, |l.items|, key);
        assert Same(w.objs, AfterValidateReservations(o, w).objs, key);
      }
    } else {
      assert o.fault(w.calls, ListVerb, Key(Reservation, "", "")) != NoFault;
    }
  }

  lemma {:induction false} ListedAreFresh(w: World, acrs: seq<Item>)
    requires Lists(w.objs, All(Reservation), acrs)
    ensures FreshReservations(w, acrs)
  {
  }

  lemma {:induction false} FailedLookupKeeps(o: Oracle, w: World, acrs: seq<Item>, j: nat, n: nat)
    requires j < |acrs| && n <= |acrs| && FreshReservations(w, acrs)
    requires j < n ==> o.fault(AfterReservations(o, w, acrs, j).calls, GetVerb, PodKey(acrs[j])) != NoFault
    ensures Same(w.objs, AfterReservations(o, w, acrs, n).objs, acrs[j].key)
  {
    hide PodKey;
    if n > 0 {
      FailedLookupKeeps(o, w, acrs, j, n - 1);
      assert n - 1 != j ==> acrs[n - 1].key != acrs[j].key;
    }
  }

  /** The world in which the sweep looks up the pod of its j-th reservation. */
  function BeforeLookup(o: Oracle, w: World, j: nat): World
    requires j < |AfterList(o, w, All(Reservation)).items|
  {
    var l := AfterList(o, w, All(Reservation));
    AfterReservations(o, l.w, l.items, j)
  }

  /** A reservation whose own lookup fails in this sweep is kept, however other lookups of
      the same pod end. */
  lemma {:induction false} UnknownPodKeeps(o: Oracle, w: World, j: nat)
    requires AfterList(o, w, All(Reservation)).ok && j < |AfterList(o, w, All(Reservation)).items|
    requires var acr := AfterList(o, w, All(Reservation)).items[j];
             o.fault(BeforeLookup(o, w, j).calls, GetVerb, PodKey(acr)) != NoFault
    ensures Same(w.objs, AfterValidateReservations(o, w).objs, AfterList(o, w, All(Reservation)).items[j].key)
  {
    hide PodKey, AfterReservations;
    var l := AfterList(o, w, All(Reservation));
    ListedAreFresh(l.w, l.items);
    FailedLookupKeeps(o, l.w, l.items, j, |l.items|);
  }

  // ----- the sweep over the fields -----

  /** The reservation belongs to the pod of this name in its namespace. */
  predicate Reserves(objs: Store, key: Key, namespace: string, pod: string) {
    && key in objs && key.kind == Reservation && objs[key].spec == ReservationSpec(namespace)
    && key.name == namespace + "-" + pod
  }

  /** Its pod is missing, or stored as running. */
  predicate PodMissingOrRunning(objs: Store, namespace: string, pod: string) {
    var key := Key(Pod, namespace, pod);
    key !in objs || (objs[key].spec.PodSpec? && objs[key].spec.phase == "Running")
  }

  /** Whatever fails, a reservation whose pod is stored and not running is left exactly as
      it was; a fault-free sweep deletes the others: one without finalizers is gone
      exactly when its pod is missing or running. */
  lemma {:induction false} SweepOnFields(o: Oracle, w: World, key: Key, namespace: string, pod: string)
    requires Reserves(w.objs, key, namespace, pod)
    ensures var r := AfterValidateReservations(o, w).objs;
            && (!PodMissingOrRunning(w.objs, namespace, pod) ==> Same(w.objs, r, key))
            && (Quiet(o, w.calls) && PodMissingOrRunning(w.objs, namespace, pod) ==>
                  if w.objs[key].meta.finalizers == [] then key !in r else key in r ==> r[key].meta.deleting)
  {
    hide AfterValidateReservations, PodName;
    PodNameInverts(namespace, pod);
    SweepIsExact(o, w, key);
  }
}
