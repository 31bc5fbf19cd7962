/** The Kubernetes API server as the operator sees it: one store of objects, calls
    that may fail, and finalizers that hold back deletion.

    Everything the operator does not control is read from an `Oracle`, indexed by the
    number of the call: whether a call fails, in which order a list comes back, how
    long a call takes, what a health check answers. A statement that holds for every
    oracle holds for every pattern of failures. */
module Api {

  datatype Option<+T> = None | Some(value: T)

  datatype Kind =
    | Host | Pod | ConfigMap | DaemonSet | Role | RoleBinding
    | CsiNode | Drive | Capacity | VolumeGroup | Volume | Reservation
    | Scheduler | SecondaryScheduler | Deployment

  datatype Key = Key(kind: Kind, namespace: string, name: string)

  datatype Meta = Meta(labels: map<string, string>, finalizers: seq<string>, deleting: bool, created: int)

  datatype Taint = Taint(key: string, value: string, effect: string)

  datatype Subject = Subject(name: string, namespace: string)

  datatype PolicyRule = PolicyRule(verbs: seq<string>, groups: seq<string>, resources: seq<string>, names: seq<string>)

  /** The fields of each kind that the operator reads. */
  datatype Spec =
    | HostSpec(taints: seq<Taint>, kernel: string)
    | PodSpec(nodeName: string, ownerKinds: seq<string>, phase: string, ip: string, started: Option<Option<int>>)
    | ConfigMapSpec(data: map<string, string>)
    | DaemonSetSpec(selector: map<string, string>, nodeSelector: map<string, string>, template: string)
    | RoleSpec(rules: seq<PolicyRule>)
    | RoleBindingSpec(subjects: seq<Subject>, roleRef: string)
    | CsiNodeSpec(uuid: string, hostname: string)
    | ResourceSpec(nodeId: string)
    | ReservationSpec(podNamespace: string)
    | SchedulerSpec(policy: string)
    | SecondarySpec(config: string, image: string)
    | OtherSpec

  datatype Object = Object(meta: Meta, spec: Spec)

  datatype Item = Item(key: Key, obj: Object)

  type Store = map<Key, Object>

  datatype World = World(objs: Store, calls: nat, clock: int)

  // ----- what the environment decides -----

  datatype Verb = GetVerb | ListVerb | CreateVerb | UpdateVerb | DeleteVerb

  /** A call may be refused, or take effect while its reply is lost. */
  datatype Fault = NoFault | Refused | LostReply

  datatype Choices = Choices(
    fault: (nat, Verb, Key) -> Fault,
    order: (nat, set<Key>) -> seq<Key>,
    delay: nat -> nat,
    healthy: (nat, string) -> bool,
    version: nat -> Option<Version>)

  /** The Kubernetes version the server reports; absent when the call or its parsing fails. */
  datatype Version = Version(major: int, minor: int)

  /** `keys` lists `s`, each element once. */
  ghost predicate IsListing<T(!new)>(keys: seq<T>, s: set<T>) {
    && (forall k :: k in keys <==> k in s)
    && forall i, j :: 0 <= i < j < |keys| ==> keys[i] != keys[j]
  }

  ghost function Enumerate<T(!new)>(s: set<T>): (keys: seq<T>)
    ensures IsListing(keys, s)
  {
    if s == {} then [] else var k :| k in s; [k] + Enumerate(s - {k})
  }

  ghost predicate OrdersLists(c: Choices) {
    forall n: nat, s: set<Key> :: IsListing(c.order(n, s), s)
  }

  type Oracle = c: Choices | OrdersLists(c)
    ghost witness Choices((n, v, k) => NoFault, (n, s) => Enumerate(s), n => 0, (n, url) => true, n => None)

  /** No call fails from the n-th on. */
  ghost predicate Quiet(o: Oracle, n: nat) {
    forall m: nat, v, k :: n <= m ==> o.fault(m, v, k) == NoFault
  }

  // ----- selections -----

  /** A list request: the empty namespace stands for all of them. */
  datatype Selection = Selection(
    kind: Kind, namespace: string, labels: map<string, string>, present: set<string>, nodeName: Option<string>)

  function All(kind: Kind): Selection {
    Selection(kind, "", map[], {}, None)
  }

  predicate HasLabels(wanted: map<string, string>, labels: map<string, string>) {
    forall l | l in wanted :: l in labels && labels[l] == wanted[l]
  }

  function NodeName(obj: Object): string {
    if obj.spec.PodSpec? then obj.spec.nodeName else ""
  }

  predicate Selects(sel: Selection, key: Key, obj: Object) {
    && key.kind == sel.kind
    && (sel.namespace == "" || key.namespace == sel.namespace)
    && HasLabels(sel.labels, obj.meta.labels)
    && sel.present <= obj.meta.labels.Keys
    && (sel.nodeName.Some? ==> NodeName(obj) == sel.nodeName.value)
  }

  predicate Has(items: seq<Item>, key: Key) {
    exists i :: 0 <= i < |items| && items[i].key == key
  }

  /** `items` is a list reply for `sel`: each selected object once, in any order. */
  ghost predicate Lists(objs: Store, sel: Selection, items: seq<Item>) {
    && (forall i :: 0 <= i < |items| ==>
          && items[i].key in objs && objs[items[i].key] == items[i].obj
          && Selects(sel, items[i].key, items[i].obj))
    && (forall k :: k in objs && Selects(sel, k, objs[k]) ==> Has(items, k))
    && Distinct(items)
  }

  ghost predicate Distinct(items: seq<Item>) {
    forall i, j :: 0 <= i < j < |items| ==> items[i].key != items[j].key
  }

  // ----- calls -----

  datatype Step = Step(w: World, ok: bool)
  datatype ListStep = ListStep(w: World, ok: bool, items: seq<Item>)
  datatype Lookup = Found(obj: Object) | NotFound | Unknown
  datatype GetStep = GetStep(w: World, reply: Lookup)

  function Tick(o: Oracle, w: World): World {
    w.(calls := w.calls + 1, clock := w.clock + o.delay(w.calls))
  }

  /** The clock runs in milliseconds, object timestamps in whole seconds. */
  function Stamp(clock: int): int {
    clock - clock % 1000
  }

  function AfterGet(o: Oracle, w: World, key: Key): GetStep {
    if o.fault(w.calls, GetVerb, key) != NoFault then GetStep(Tick(o, w), Unknown)
    else if key in w.objs then GetStep(Tick(o, w), Found(w.objs[key]))
    else GetStep(Tick(o, w), NotFound)
  }

  function ItemsOf(objs: Store, keys: seq<Key>): (items: seq<Item>)
    requires forall k :: k in keys ==> k in objs
    ensures |items| == |keys|
    ensures forall i :: 0 <= i < |keys| ==> items[i] == Item(keys[i], objs[keys[i]])
  {
    seq(|keys|, i requires 0 <= i < |keys| => assert keys[i] in keys; Item(keys[i], objs[keys[i]]))
  }

  function AfterList(o: Oracle, w: World, sel: Selection): (r: ListStep)
    ensures r.w == Tick(o, w)
    ensures r.ok ==> Lists(w.objs, sel, r.items)
  {
    if o.fault(w.calls, ListVerb, Key(sel.kind, sel.namespace, "")) != NoFault then ListStep(Tick(o, w), false, [])
    else
      var chosen := set k | k in w.objs && Selects(sel, k, w.objs[k]);
      var keys := o.order(w.calls, chosen);
      assert OrdersLists(o) && IsListing(keys, chosen);
      var items := ItemsOf(w.objs, keys);
      assert forall i :: 0 <= i < |items| ==> items[i].key == keys[i] && keys[i] in keys;
      assert forall k :: k in keys ==> Has(items, k) by {
        forall k | k in keys ensures Has(items, k) {
          var i :| 0 <= i < |keys| && keys[i] == k;
          assert items[i].key == k;
        }
      }
      ListStep(Tick(o, w), true, items)
  }

  function AfterCreate(o: Oracle, w: World, key: Key, obj: Object): Step {
    var t := Tick(o, w);
    var f := o.fault(w.calls, CreateVerb, key);
    if f.Refused? || key in w.objs then Step(t, false)
    else
      var stored := obj.(meta := obj.meta.(deleting := false, created := Stamp(t.clock)));
      Step(t.(objs := w.objs[key := stored]), f.NoFault?)
  }

  /** Writing keeps the deletion mark and the creation time; a marked object goes with
      its last finalizer. */
  function Written(objs: Store, key: Key, obj: Object): Store
    requires key in objs
  {
    var stored := obj.(meta := obj.meta.(deleting := objs[key].meta.deleting, created := objs[key].meta.created));
    if stored.meta.deleting && stored.meta.finalizers == [] then objs - {key} else objs[key := stored]
  }

  function AfterUpdate(o: Oracle, w: World, key: Key, obj: Object): Step {
    var f := o.fault(w.calls, UpdateVerb, key);
    if f.Refused? || key !in w.objs then Step(Tick(o, w), false)
    else Step(Tick(o, w).(objs := Written(w.objs, key, obj)), f.NoFault?)
  }

  /** Deleting an object that has finalizers only marks it. */
  function Deleted(objs: Store, key: Key): Store
    requires key in objs
  {
    if objs[key].meta.finalizers == [] then objs - {key}
    else objs[key := Marked(objs[key])]
  }

  function Marked(obj: Object): Object {
    obj.(meta := obj.meta.(deleting := true))
  }

  function AfterDelete(o: Oracle, w: World, key: Key): Step {
    var f := o.fault(w.calls, DeleteVerb, key);
    if f.Refused? || key !in w.objs then Step(Tick(o, w), false)
    else Step(Tick(o, w).(objs := Deleted(w.objs, key)), f.NoFault?)
  }

  // ----- comparing stores -----

  /** The two stores hold the same under `key`. */
  predicate Same(a: Store, b: Store, key: Key) {
    (key in a <==> key in b) && (key in a ==> a[key] == b[key])
  }

  /** Kubernetes keeps a marked object only while it has finalizers. */
  ghost predicate Sound(objs: Store) {
    forall k :: k in objs && objs[k].meta.deleting ==> objs[k].meta.finalizers != []
  }

  /** `b` is `a` on a later stage of its deletion. */
  predicate Decays(a: Object, b: Object) {
    && b.spec == a.spec
    && b.meta.labels == a.meta.labels
    && b.meta.created == a.meta.created
    && (a.meta.deleting ==> b.meta.deleting)
    && (b.meta.finalizers == a.meta.finalizers || b.meta.finalizers == [])
  }

  // ----- the server itself -----

  class Server {
    const oracle: Oracle
    var objs: Store
    var calls: nat
    var clock: int

    constructor (oracle: Oracle, objs: Store, clock: int)
      ensures this.oracle == oracle && Now() == World(objs, 0, clock)
    {
      this.oracle, this.objs, this.calls, this.clock := oracle, objs, 0, clock;
    }

    function Now(): World
      reads this
    {
      World(objs, calls, clock)
    }

    method Elapse()
      modifies this
      ensures Now() == Tick(oracle, old(Now()))
    {
      clock := clock + oracle.delay(calls);
      calls := calls + 1;
    }

    method Get(key: Key) returns (reply: Lookup)
      modifies this
      ensures GetStep(Now(), reply) == AfterGet(oracle, old(Now()), key)
    {
      reply := if oracle.fault(calls, GetVerb, key) != NoFault then Unknown
               else if key in objs then Found(objs[key]) else NotFound;
      Elapse();
    }

    method List(sel: Selection) returns (ok: bool, items: seq<Item>)
      modifies this
      ensures ListStep(Now(), ok, items) == AfterList(oracle, old(Now()), sel)
    {
      var r := AfterList(oracle, Now(), sel);
      ok, items := r.ok, r.items;
      Elapse();
    }

    method Create(key: Key, obj: Object) returns (ok: bool)
      modifies this
      ensures Step(Now(), ok) == AfterCreate(oracle, old(Now()), key, obj)
    {
      var f := oracle.fault(calls, CreateVerb, key);
      Elapse();
      ok := f.NoFault? && key !in objs;
      if !f.Refused? && key !in objs {
        objs := objs[key := obj.(meta := obj.meta.(deleting := false, created := Stamp(clock)))];
      }
    }

    method Update(key: Key, obj: Object) returns (ok: bool)
      modifies this
      ensures Step(Now(), ok) == AfterUpdate(oracle, old(Now()), key, obj)
    {
      var f := oracle.fault(calls, UpdateVerb, key);
      Elapse();
      ok := f.NoFault? && key in objs;
      if !f.Refused? && key in objs {
        objs := Written(objs, key, obj);
      }
    }

    method Delete(key: Key) returns (ok: bool)
      modifies this
      ensures Step(Now(), ok) == AfterDelete(oracle, old(Now()), key)
    {
      var f := oracle.fault(calls, DeleteVerb, key);
      Elapse();
      ok := f.NoFault? && key in objs;
      if !f.Refused? && key in objs {
        objs := Deleted(objs, key);
      }
    }
  }
}
