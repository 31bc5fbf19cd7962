/** Create-or-update of the objects the operator deploys. */
module Updates {
  import opened Api

  function NewMeta(): Meta {
    Meta(map[], [], false, 0)
  }

  function Data(obj: Object): map<string, string> {
    if obj.spec.ConfigMapSpec? then obj.spec.data else map[]
  }

  function AfterApplyConfigMap(o: Oracle, w: World, key: Key, data: map<string, string>): Step {
    var g := AfterGet(o, w, key);
    match g.reply
    case Unknown => Step(g.w, false)
    case NotFound => AfterCreate(o, g.w, key, Object(NewMeta(), ConfigMapSpec(data)))
    case Found(obj) =>
      if Data(obj) == data then Step(g.w, true)
      else AfterUpdate(o, g.w, key, obj.(spec := ConfigMapSpec(data)))
  }

  /** Only the selector and the template, with its node selector, are compared. */
  predicate DaemonSetChanged(expected: Spec, found: Object)
    requires expected.DaemonSetSpec?
  {
    || !found.spec.DaemonSetSpec?
    || found.spec.selector != expected.selector
    || found.spec.nodeSelector != expected.nodeSelector
    || found.spec.template != expected.template
  }

  function AfterApplyDaemonSet(o: Oracle, w: World, key: Key, expected: Spec): Step
    requires expected.DaemonSetSpec?
  {
    var g := AfterGet(o, w, key);
    match g.reply
    case Unknown => Step(g.w, false)
    case NotFound => AfterCreate(o, g.w, key, Object(NewMeta(), expected))
    case Found(obj) =>
      if DaemonSetChanged(expected, obj) then AfterUpdate(o, g.w, key, obj.(spec := expected))
      else Step(g.w, true)
  }

  method ApplyConfigMap(server: Server, key: Key, data: map<string, string>) returns (ok: bool)
    modifies server
    ensures Step(server.Now(), ok) == AfterApplyConfigMap(server.oracle, old(server.Now()), key, data)
  {
    var found := server.Get(key);
    if found.Unknown? { return false; }
    if found.NotFound? {
      ok := server.Create(key, Object(NewMeta(), ConfigMapSpec(data)));
      return;
    }
    ok := true;
    if Data(found.obj) != data {
      ok := server.Update(key, found.obj.(spec := ConfigMapSpec(data)));
    }
  }

  method ApplyDaemonSet(server: Server, key: Key, expected: Spec) returns (ok: bool)
    requires expected.DaemonSetSpec?
    modifies server
    ensures Step(server.Now(), ok) == AfterApplyDaemonSet(server.oracle, old(server.Now()), key, expected)
  {
    var found := server.Get(key);
    if found.Unknown? { return false; }
    if found.NotFound? {
      ok := server.Create(key, Object(NewMeta(), expected));
      return;
    }
    ok := true;
    if DaemonSetChanged(expected, found.obj) {
      ok := server.Update(key, found.obj.(spec := expected));
    }
  }

  /** The two stores differ at most under `key`. */
  ghost predicate OnlyAt(a: Store, b: Store, key: Key) {
    forall k {:trigger Same(a, b, k)} :: k != key ==> Same(a, b, k)
  }

  /** An existing object keeps its creation time, a new one is stamped no earlier than
      the call began. */
  ghost predicate Aged(w: World, r: World, key: Key) {
    && w.clock <= r.clock
    && (key in r.objs ==>
          || (key in w.objs && r.objs[key].meta.created == w.objs[key].meta.created)
          || r.objs[key].meta.created >= Stamp(w.clock))
  }

  predicate NotMarked(objs: Store, key: Key) {
    key in objs ==> !objs[key].meta.deleting
  }

  /** Success means the stored data is the expected data; only that object changes, and
      it is never marked or removed. */
  lemma {:induction false} ApplyConfigMapEffect(o: Oracle, w: World, key: Key, data: map<string, string>)
    ensures var r := AfterApplyConfigMap(o, w, key, data);
            && w.calls <= r.w.calls
            && OnlyAt(w.objs, r.w.objs, key)
            && Aged(w, r.w, key)
            && (NotMarked(w.objs, key) ==> NotMarked(r.w.objs, key) && (key in w.objs ==> key in r.w.objs))
            && (r.ok && NotMarked(w.objs, key) ==> key in r.w.objs && Data(r.w.objs[key]) == data)
  {
  }

  /** Applying what is already stored writes nothing, whatever happens to the read. */
  lemma {:induction false} ReapplyConfigMapWritesNothing(o: Oracle, w: World, key: Key, data: map<string, string>)
    requires key in w.objs && Data(w.objs[key]) == data
    ensures AfterApplyConfigMap(o, w, key, data).w == Tick(o, w)
  {
  }

  lemma {:induction false} ReapplyDaemonSetWritesNothing(o: Oracle, w: World, key: Key, expected: Spec)
    requires expected.DaemonSetSpec? && key in w.objs && w.objs[key].spec == expected
    ensures AfterApplyDaemonSet(o, w, key, expected).w == Tick(o, w)
  {
  }

  /** What has been applied stays applied: right after a success the same call, whatever
      happens to it, leaves the store alone. */
  lemma {:induction false} ApplyingConverges(
    o: Oracle, w: World, v: World, key: Key, data: map<string, string>, other: Key, expected: Spec)
    requires expected.DaemonSetSpec? && NotMarked(w.objs, key) && NotMarked(w.objs, other)
    ensures AfterApplyConfigMap(o, w, key, data).ok && v.objs == AfterApplyConfigMap(o, w, key, data).w.objs ==>
              AfterApplyConfigMap(o, v, key, data).w.objs == v.objs
    ensures AfterApplyDaemonSet(o, w, other, expected).ok
            && v.objs == AfterApplyDaemonSet(o, w, other, expected).w.objs ==>
              AfterApplyDaemonSet(o, v, other, expected).w.objs == v.objs
  {
    hide AfterApplyConfigMap, AfterApplyDaemonSet;
    ApplyConfigMapEffect(o, w, key, data);
    ApplyDaemonSetEffect(o, w, other, expected);
    if key in v.objs && Data(v.objs[key]) == data { ReapplyConfigMapWritesNothing(o, v, key, data); }
    if other in v.objs && v.objs[other].spec == expected { ReapplyDaemonSetWritesNothing(o, v, other, expected); }
  }

  lemma {:induction false} ApplyDaemonSetEffect(o: Oracle, w: World, key: Key, expected: Spec)
    requires expected.DaemonSetSpec?
    ensures var r := AfterApplyDaemonSet(o, w, key, expected);
            && w.calls <= r.w.calls
            && w.clock <= r.w.clock
            && OnlyAt(w.objs, r.w.objs, key)
            && (NotMarked(w.objs, key) ==> NotMarked(r.w.objs, key) && (key in w.objs ==> key in r.w.objs))
            && (r.ok && NotMarked(w.objs, key) ==> key in r.w.objs && r.w.objs[key].spec == expected)
  {
  }

  /** Without faults both calls succeed. */
  lemma {:induction false} QuietMapApplies(o: Oracle, w: World, key: Key, data: map<string, string>)
    requires Quiet(o, w.calls)
    ensures AfterApplyConfigMap(o, w, key, data).ok
  {
    assert o.fault(w.calls, GetVerb, key) == NoFault;
    assert o.fault(w.calls + 1, CreateVerb, key) == NoFault && o.fault(w.calls + 1, UpdateVerb, key) == NoFault;
  }

  lemma {:induction false} QuietSetApplies(o: Oracle, w: World, key: Key, expected: Spec)
    requires Quiet(o, w.calls) && expected.DaemonSetSpec?
    ensures AfterApplyDaemonSet(o, w, key, expected).ok
  {
    assert o.fault(w.calls, GetVerb, key) == NoFault;
    assert o.fault(w.calls + 1, CreateVerb, key) == NoFault && o.fault(w.calls + 1, UpdateVerb, key) == NoFault;
  }

  /** A read that fails for another reason than a missing object ends the call. */
  lemma {:induction false} UnreadIsNotWritten(
    o: Oracle, w: World, key: Key, data: map<string, string>, expected: Spec)
    requires expected.DaemonSetSpec? && o.fault(w.calls, GetVerb, key) != NoFault
    ensures AfterApplyConfigMap(o, w, key, data) == Step(Tick(o, w), false)
    ensures AfterApplyDaemonSet(o, w, key, expected) == Step(Tick(o, w), false)
  {
  }
}
