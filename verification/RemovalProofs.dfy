/** What one removal may touch, what it leaves, and when it succeeds. */
module RemovalProofs {
  import opened Api
  import opened NodeOperations

  // ----- vocabulary -----

  /** Only keys of `s` may differ. */
  ghost predicate Outside(a: Store, b: Store, s: set<Key>) {
    forall k {:trigger Same(a, b, k)} :: k !in s ==> Same(a, b, k)
  }

  /** Objects only go or move on towards deletion. */
  ghost predicate Shrinks(a: Store, b: Store) {
    forall k :: k in b ==> k in a && Decays(a[k], b[k])
  }

  function Victims(objs: Store, kind: Kind, uuid: string): set<Key> {
    set k | k in objs && k.kind == kind && NodeId(objs[k]) == uuid
  }

  /** A successful delete has gone through: the object is gone, or it is marked and
      finalizers nobody clears hold it back. */
  predicate Discharged(objs: Store, key: Key, before: Object) {
    if ClearsFinalizers(key.kind) || before.meta.finalizers == [] then key !in objs
    else key in objs ==> objs[key].meta.deleting
  }

  /** Clearing the finalizers of such an object already removes it, so the calls that
      follow report that it is not there. */
  predicate VanishesEarly(key: Key, obj: Object) {
    ClearsFinalizers(key.kind) && obj.meta.finalizers != [] && obj.meta.deleting
  }

  ghost predicate Fresh(w: World, item: Item) {
    item.key in w.objs && w.objs[item.key] == item.obj
  }

  // ----- one kind -----

  /** The keys among the first `n` items that belong to `uuid`. */
  function Hits(items: seq<Item>, uuid: string, n: nat): set<Key>
    requires n <= |items|
  {
    if n == 0 then {}
    else Hits(items, uuid, n - 1) + if NodeId(items[n - 1].obj) == uuid then {items[n - 1].key} else {}
  }

  lemma {:induction false} HitsAre(items: seq<Item>, uuid: string, n: nat)
    requires n <= |items|
    ensures forall k :: k in Hits(items, uuid, n) <==>
              exists j :: 0 <= j < n && NodeId(items[j].obj) == uuid && items[j].key == k
  {
    if n > 0 { HitsAre(items, uuid, n - 1); }
  }

  ghost predicate AllDischarged(a: Store, b: Store, s: set<Key>)
    requires s <= a.Keys
  {
    forall k :: k in s ==> Discharged(b, k, a[k])
  }

  ghost predicate NoneVanishes(a: Store, s: set<Key>)
    requires s <= a.Keys
  {
    forall k :: k in s ==> !VanishesEarly(k, a[k])
  }

  /** `b` and `ok` are what deleting `s` from `a` may lead to. */
  ghost predicate DeletedSet(o: Oracle, w: World, r: Step, s: set<Key>)
    requires s <= w.objs.Keys
  {
    && w.calls <= r.w.calls
    && Outside(w.objs, r.w.objs, s)
    && Shrinks(w.objs, r.w.objs)
    && (r.ok || Quiet(o, w.calls) ==> AllDischarged(w.objs, r.w.objs, s))
    && (Quiet(o, w.calls) ==> (r.ok <==> NoneVanishes(w.objs, s)))
  }

  lemma {:induction false} DeleteEffect(o: Oracle, w: World, item: Item)
    requires Fresh(w, item)
    requires !ClearsFinalizers(item.key.kind) || item.obj.meta.finalizers == []
    ensures DeletedSet(o, w, AfterDelete(o, w, item.key), {item.key})
  {
  }

  lemma {:induction false} ClearFrame(o: Oracle, w: World, item: Item)
    requires Fresh(w, item) && item.obj.meta.finalizers != []
    ensures var r := AfterDeleteObject(o, w, item, true).w;
            w.calls <= r.calls && Outside(w.objs, r.objs, {item.key}) && Shrinks(w.objs, r.objs)
  {
    hide Decays;
    var u := AfterUpdate(o, w, item.key, WithoutFinalizers(item.obj));
    var g := AfterGet(o, u.w, item.key);
    var d := AfterDelete(o, g.w, item.key);
    ClearedDecays(w.objs, item);
    if item.key in u.w.objs { MarkedDecays(item.obj, u.w.objs[item.key]); }
    forall k | k != item.key ensures Same(w.objs, d.w.objs, k) && Decays(item.obj, item.obj) {
      assert Same(w.objs, u.w.objs, k) && Same(u.w.objs, d.w.objs, k);
      DecaysToItself(item.obj);
    }
    forall k | k in w.objs ensures Decays(w.objs[k], w.objs[k]) { DecaysToItself(w.objs[k]); }
  }

  lemma {:induction false} DecaysToItself(obj: Object)
    ensures Decays(obj, obj)
  {
  }

  lemma {:induction false} ClearedDecays(objs: Store, item: Item)
    requires item.key in objs && objs[item.key] == item.obj
    ensures var r := Written(objs, item.key, WithoutFinalizers(item.obj));
            item.key in r ==> Decays(item.obj, r[item.key])
  {
  }

  lemma {:induction false} MarkedDecays(a: Object, b: Object)
    ensures Decays(a, b) ==> Decays(a, Marked(b))
  {
  }

  lemma {:induction false} ClearOutcome(o: Oracle, w: World, item: Item)
    requires Fresh(w, item)
    requires ClearsFinalizers(item.key.kind) && item.obj.meta.finalizers != []
    ensures var r := AfterDeleteObject(o, w, item, true);
            && (r.ok || Quiet(o, w.calls) ==> Discharged(r.w.objs, item.key, item.obj))
            && (Quiet(o, w.calls) ==> (r.ok <==> !VanishesEarly(item.key, item.obj)))
  {
    var u := AfterUpdate(o, w, item.key, WithoutFinalizers(item.obj));
    var g := AfterGet(o, u.w, item.key);
    if Quiet(o, w.calls) {
      assert o.fault(w.calls, UpdateVerb, item.key) == NoFault;
      assert o.fault(u.w.calls, GetVerb, item.key) == NoFault;
      assert o.fault(g.w.calls, DeleteVerb, item.key) == NoFault;
    }
  }

  lemma {:induction false} ClearAndDeleteEffect(o: Oracle, w: World, item: Item)
    requires Fresh(w, item)
    requires ClearsFinalizers(item.key.kind) && item.obj.meta.finalizers != []
    ensures DeletedSet(o, w, AfterDeleteObject(o, w, item, true), {item.key})
  {
    hide AfterDeleteObject, Discharged, VanishesEarly, Shrinks, Outside;
    ClearFrame(o, w, item);
    ClearOutcome(o, w, item);
  }

  lemma {:induction false} DeleteObjectEffect(o: Oracle, w: World, item: Item)
    requires Fresh(w, item)
    ensures DeletedSet(o, w, AfterDeleteObject(o, w, item, ClearsFinalizers(item.key.kind)), {item.key})
  {
    if ClearsFinalizers(item.key.kind) && item.obj.meta.finalizers != [] {
      ClearAndDeleteEffect(o, w, item);
    } else {
      DeleteEffect(o, w, item);
    }
  }

  /** Two deletions of different objects in a row. */
  lemma {:induction false} Compose(o: Oracle, w: World, m: Step, r: Step, s: set<Key>, t: set<Key>, ok: bool)
    requires s <= w.objs.Keys && t <= w.objs.Keys && s !! t
    requires DeletedSet(o, w, m, s)
    requires t <= m.w.objs.Keys && DeletedSet(o, m.w, r, t)
    requires ok == (m.ok && r.ok)
    ensures DeletedSet(o, w, Step(r.w, ok), s + t)
  {
    forall k | k in s ensures Same(m.w.objs, r.w.objs, k) {}
    forall k | k in t ensures Same(w.objs, m.w.objs, k) {}
    forall k | k in r.w.objs ensures k in w.objs && Decays(w.objs[k], r.w.objs[k]) {
      assert k in m.w.objs && Decays(w.objs[k], m.w.objs[k]) && Decays(m.w.objs[k], r.w.objs[k]);
    }
    forall k | k !in s + t ensures Same(w.objs, r.w.objs, k) {
      assert Same(w.objs, m.w.objs, k) && Same(m.w.objs, r.w.objs, k);
    }
  }

  lemma {:induction false} DeleteListedEffect(
    o: Oracle, w: World, kind: Kind, items: seq<Item>, uuid: string, n: nat)
    requires n <= |items| && Lists(w.objs, All(kind), items)
    ensures Hits(items, uuid, n) <= w.objs.Keys
    ensures DeletedSet(o, w, AfterDeleteListed(o, w, items, uuid, ClearsFinalizers(kind), n), Hits(items, uuid, n))
  {
    hide DeletedSet, AfterDeleteObject;
    HitsAre(items, uuid, n);
    if n == 0 {
      DeletesNone(o, w);
    } else {
      DeleteListedEffect(o, w, kind, items, uuid, n - 1);
      var s := AfterDeleteListed(o, w, items, uuid, ClearsFinalizers(kind), n - 1);
      var item := items[n - 1];
      if NodeId(item.obj) == uuid {
        HitsAre(items, uuid, n - 1);
        assert item.key !in Hits(items, uuid, n - 1);
        StillFresh(o, w, s, Hits(items, uuid, n - 1), item);
        DeleteObjectEffect(o, s.w, item);
        var d := AfterDeleteObject(o, s.w, item, ClearsFinalizers(kind));
        Compose(o, w, s, d, Hits(items, uuid, n - 1), {item.key}, s.ok && d.ok);
      } else {
        assert Hits(items, uuid, n) == Hits(items, uuid, n - 1);
      }
    }
  }

  lemma {:induction false} DeletesNone(o: Oracle, w: World)
    ensures DeletedSet(o, w, Step(w, true), {})
  {
  }

  lemma {:induction false} StillFresh(o: Oracle, w: World, s: Step, done: set<Key>, item: Item)
    requires done <= w.objs.Keys && DeletedSet(o, w, s, done) && Fresh(w, item) && item.key !in done
    ensures Fresh(s.w, item)
  {
    assert Same(w.objs, s.w.objs, item.key);
  }

  lemma {:induction false} DeleteKindEffect(o: Oracle, w: World, kind: Kind, uuid: string)
    ensures DeletedSet(o, w, AfterDeleteKind(o, w, kind, uuid), Victims(w.objs, kind, uuid))
  {
    var l := AfterList(o, w, All(kind));
    if l.ok {
      DeleteListedEffect(o, l.w, kind, l.items, uuid, |l.items|);
      HitsAre(l.items, uuid, |l.items|);
      forall k | k in Victims(w.objs, kind, uuid) ensures k in Hits(l.items, uuid, |l.items|) {
        assert Has(l.items, k);
      }
      assert Hits(l.items, uuid, |l.items|) == Victims(w.objs, kind, uuid);
    }
  }

  // ----- everything of one node -----

  /** The drives, capacities, volume groups and volumes that belong to `uuid`. */
  function Possessions(objs: Store, uuid: string): set<Key> {
    set k | k in objs && k.kind in CASCADE && NodeId(objs[k]) == uuid
  }

  function CascadeSet(objs: Store, uuid: string, n: nat): set<Key>
    requires n <= |CASCADE|
  {
    set k | k in objs && k.kind in CASCADE[..n] && NodeId(objs[k]) == uuid
  }

  lemma {:induction false} CascadeEffect(o: Oracle, w: World, uuid: string, n: nat)
    requires n <= |CASCADE|
    ensures DeletedSet(o, w, AfterCascade(o, w, uuid, n), CascadeSet(w.objs, uuid, n))
  {
    hide AfterDeleteKind, DeletedSet;
    if n == 0 {
      DeletesNone(o, w);
      assert CascadeSet(w.objs, uuid, 0) == {};
    } else {
      CascadeEffect(o, w, uuid, n - 1);
      var s := AfterCascade(o, w, uuid, n - 1);
      var kind := CASCADE[n - 1];
      var done, next := CascadeSet(w.objs, uuid, n - 1), Victims(w.objs, kind, uuid);
      assert CASCADE[..n] == CASCADE[..n - 1] + [kind] && kind !in CASCADE[..n - 1];
      assert CascadeSet(w.objs, uuid, n) == done + next && done !! next;
      VictimsKept(o, w, s, done, kind, uuid);
      var d := AfterDeleteKind(o, s.w, kind, uuid);
      DeleteKindEffect(o, s.w, kind, uuid);
      Compose(o, w, s, d, done, next, s.ok && d.ok);
    }
  }

  /** Deleting other kinds leaves the objects of this one. */
  lemma {:induction false} VictimsKept(o: Oracle, w: World, s: Step, done: set<Key>, kind: Kind, uuid: string)
    requires done <= w.objs.Keys && DeletedSet(o, w, s, done)
    requires forall k :: k in done ==> k.kind != kind
    ensures Victims(s.w.objs, kind, uuid) == Victims(w.objs, kind, uuid)
    ensures Victims(w.objs, kind, uuid) <= s.w.objs.Keys
  {
    forall k: Key | k.kind == kind ensures Same(w.objs, s.w.objs, k) {}
  }

  /** What removing the node may touch. */
  function TurnSet(objs: Store, node: Item): set<Key> {
    Possessions(objs, NodeId(node.obj)) + {node.key}
  }

  ghost predicate FreshNode(w: World, node: Item) {
    Fresh(w, node) && node.key.kind == CsiNode
  }

  predicate PodsOn(objs: Store, hostname: string) {
    exists k :: k in objs && Selects(NodePods(hostname), k, objs[k])
  }

  /** The node object goes last: it is touched only once every possession has been
      deleted without an error. */
  ghost predicate RemovesNode(o: Oracle, w: World, r: Step, node: Item)
    requires FreshNode(w, node)
  {
    var mine := Possessions(w.objs, NodeId(node.obj));
    && w.calls <= r.w.calls
    && Outside(w.objs, r.w.objs, TurnSet(w.objs, node))
    && Shrinks(w.objs, r.w.objs)
    && (!Same(w.objs, r.w.objs, node.key) ==> AllDischarged(w.objs, r.w.objs, mine))
    && (Quiet(o, w.calls) ==> AllDischarged(w.objs, r.w.objs, mine))
    && (r.ok ==> AllDischarged(w.objs, r.w.objs, TurnSet(w.objs, node)))
    && (Quiet(o, w.calls) ==> (r.ok <==> NoneVanishes(w.objs, mine)))
    && (Quiet(o, w.calls) && !r.ok ==> Same(w.objs, r.w.objs, node.key))
  }

  lemma {:induction false} CascadeThenNode(o: Oracle, w: World, s: Step, d: Step, node: Item)
    requires FreshNode(w, node)
    requires DeletedSet(o, w, s, Possessions(w.objs, NodeId(node.obj))) && s.ok
    requires node.key in s.w.objs && DeletedSet(o, s.w, d, {node.key})
    ensures RemovesNode(o, w, d, node)
  {
    var mine := Possessions(w.objs, NodeId(node.obj));
    Compose(o, w, s, d, mine, {node.key}, d.ok);
    forall k | k in mine ensures Discharged(d.w.objs, k, w.objs[k]) {
      assert Same(s.w.objs, d.w.objs, k);
    }
  }

  lemma {:induction false} DeleteResourcesEffect(o: Oracle, w: World, node: Item)
    requires FreshNode(w, node)
    ensures RemovesNode(o, w, AfterDeleteResources(o, w, node), node)
    ensures !Same(w.objs, AfterDeleteResources(o, w, node).w.objs, node.key) ==>
              AfterCascade(o, w, NodeId(node.obj), 4).ok
  {
    hide AfterCascade, AfterDeleteObject, Discharged, VanishesEarly;
    var uuid := NodeId(node.obj);
    var s := AfterCascade(o, w, uuid, 4);
    assert DeletedSet(o, w, s, Possessions(w.objs, uuid)) by {
      CascadeEffect(o, w, uuid, 4);
      assert CASCADE[..4] == CASCADE;
      assert CascadeSet(w.objs, uuid, 4) == Possessions(w.objs, uuid);
    }
    assert Same(w.objs, s.w.objs, node.key);
    if s.ok {
      DeleteObjectEffect(o, s.w, node);
      CascadeThenNode(o, w, s, AfterDeleteObject(o, s.w, node, false), node);
    }
  }

  /** A turn also waits for the node's pods to be gone. */
  ghost predicate TakesTurn(o: Oracle, w: World, r: Step, node: Item)
    requires FreshNode(w, node)
  {
    var mine, held := Possessions(w.objs, NodeId(node.obj)), PodsOn(w.objs, Hostname(node.obj));
    && w.calls <= r.w.calls
    && Outside(w.objs, r.w.objs, TurnSet(w.objs, node))
    && Shrinks(w.objs, r.w.objs)
    && (r.w.objs != w.objs || r.ok ==> !held)
    && (!Same(w.objs, r.w.objs, node.key) ==> AllDischarged(w.objs, r.w.objs, mine))
    && (r.ok ==> AllDischarged(w.objs, r.w.objs, TurnSet(w.objs, node)))
    && (Quiet(o, w.calls) && !held ==> AllDischarged(w.objs, r.w.objs, mine))
    && (Quiet(o, w.calls) ==> (r.ok <==> !held && NoneVanishes(w.objs, mine)))
    && (Quiet(o, w.calls) && !r.ok ==> Same(w.objs, r.w.objs, node.key))
  }

  lemma {:induction false} TurnEffect(o: Oracle, w: World, node: Item)
    requires FreshNode(w, node)
    ensures TakesTurn(o, w, AfterTurn(o, w, node), node)
  {
    var host := Hostname(node.obj);
    var l := AfterList(o, w, NodePods(host));
    if l.ok {
      if l.items != [] {
        assert Selects(NodePods(host), l.items[0].key, w.objs[l.items[0].key]);
        assert PodsOn(w.objs, host);
      } else {
        assert forall k :: k in w.objs && Selects(NodePods(host), k, w.objs[k]) ==> Has(l.items, k);
        assert !PodsOn(w.objs, host);
        DeleteResourcesEffect(o, l.w, node);
      }
    }
  }
}
