/** Which labels the node component writes, that it takes them back, and that every node
    ends up with exactly one daemonset. */
module NodeLabelProofs {
  import opened Api
  import opened Updates
  import opened NodeOperations
  import opened Platform
  import opened NodeLabels
  import RemovalProofs
  import RemovalPass

  ghost predicate FreshHosts(w: World, hosts: seq<Item>) {
    Distinct(hosts) && forall i :: 0 <= i < |hosts| ==> RemovalProofs.Fresh(w, hosts[i]) && hosts[i].key.kind == Host
  }

  lemma {:induction false} ListedHostsFresh(w: World, sel: Selection, hosts: seq<Item>)
    requires Lists(w.objs, sel, hosts) && sel.kind == Host
    ensures FreshHosts(w, hosts)
  {
  }

  // ----- labelling -----

  function Target(host: Object): Object {
    match HostPlatform(host)
    case None => host
    case Some(name) => Placed(host, name)
  }

  /** A readable host that needs its first label stops the process. */
  predicate Stops(host: Object) {
    HostPlatform(host).Some? && host.meta.labels == map[]
  }

  predicate PlacedOrNot(s: LabelStep, host: Item)
    requires host.key in s.w.objs
  {
    || (s.w.objs[host.key] == Target(host.obj) && (s.outcome.Done? ==> HostPlatform(host.obj).Some?))
    || (!s.outcome.Done? && s.w.objs[host.key] == host.obj)
  }

  predicate Mapped(hosts: seq<Item>, n: nat, name: string)
    requires n <= |hosts|
  {
    exists j :: 0 <= j < n && HostPlatform(hosts[j].obj) == Some(name)
  }

  ghost predicate Placing(w: World, s: LabelStep, hosts: seq<Item>, n: nat)
    requires n <= |hosts|
  {
    && w.calls <= s.w.calls
    && Sound(s.w.objs)
    && s.w.objs.Keys == w.objs.Keys
    && (forall j :: 0 <= j < n ==> hosts[j].key in s.w.objs && PlacedOrNot(s, hosts[j]))
    && (forall k {:trigger Same(w.objs, s.w.objs, k)} :: !RemovalPass.Among(hosts, n, k) ==> Same(w.objs, s.w.objs, k))
    && s.need.Keys == PLATFORMS.Keys
    && (!s.outcome.Panic? ==> forall p :: p in s.need ==> (s.need[p] <==> Mapped(hosts, n, p)))
  }

  /** One host, its own object aside, changes nothing. */
  ghost predicate PlacesOne(s: LabelStep, t: LabelStep, host: Item)
  {
    && s.w.calls <= t.w.calls
    && Sound(t.w.objs)
    && t.w.objs.Keys == s.w.objs.Keys
    && host.key in t.w.objs && PlacedOrNot(t, host)
    && (forall k {:trigger Same(s.w.objs, t.w.objs, k)} :: k != host.key ==> Same(s.w.objs, t.w.objs, k))
    && (t.outcome.Done? ==> s.outcome.Done?)
    && (s.outcome.Panic? ==> t.outcome.Panic?)
    && t.need.Keys <= s.need.Keys + PLATFORMS.Keys && s.need.Keys <= t.need.Keys
    && (t.outcome.Panic? ||
        t.need == match HostPlatform(host.obj) case None => s.need case Some(p) => s.need[p := true])
  }

  lemma {:induction false} PlaceEffect(o: Oracle, s: LabelStep, host: Item)
    requires RemovalProofs.Fresh(s.w, host) && Sound(s.w.objs)
    requires HostPlatform(host.obj).Some? ==> HostPlatform(host.obj).value in PLATFORMS
    ensures PlacesOne(s, AfterPlace(o, s, host), host)
  {
    hide KernelVersion, PlatformOf;
    match HostPlatform(host.obj)
    case None =>
    case Some(name) =>
      if HasPlatform(host.obj, name) {
        assert host.obj.meta.labels[PLATFORM_LABEL := LabelTag(name)] == host.obj.meta.labels;
      }
  }

  lemma {:induction false} PlacingStep(w: World, s: LabelStep, t: LabelStep, hosts: seq<Item>, n: nat)
    requires n < |hosts| && FreshHosts(w, hosts) && Placing(w, s, hosts, n) && PlacesOne(s, t, hosts[n])
    requires HostPlatform(hosts[n].obj).Some? ==> HostPlatform(hosts[n].obj).value in PLATFORMS
    ensures Placing(w, t, hosts, n + 1)
  {
    hide HostPlatform;
    forall j | 0 <= j < n ensures Same(s.w.objs, t.w.objs, hosts[j].key) {
      assert hosts[j].key != hosts[n].key;
    }
    forall k | !RemovalPass.Among(hosts, n + 1, k) ensures Same(w.objs, t.w.objs, k) {
      assert hosts[n].key != k && !RemovalPass.Among(hosts, n, k);
      assert Same(w.objs, s.w.objs, k) && Same(s.w.objs, t.w.objs, k);
    }
    forall p | p in t.need
      ensures Mapped(hosts, n + 1, p) <==> Mapped(hosts, n, p) || HostPlatform(hosts[n].obj) == Some(p) {}
  }

  lemma {:induction false} PlatformKnown(host: Object)
    ensures HostPlatform(host).Some? ==> HostPlatform(host).value in PLATFORMS
  {
    if HostPlatform(host).Some? {
      TableDecides(KernelVersion(Kernel(host)).value, HostPlatform(host).value);
    }
  }

  lemma {:induction false} PlacesEffect(o: Oracle, w: World, hosts: seq<Item>, n: nat)
    requires n <= |hosts| && FreshHosts(w, hosts) && Sound(w.objs)
    ensures Placing(w, AfterPlaces(o, w, hosts, n), hosts, n)
  {
    hide AfterPlace, PlacesOne, HostPlatform;
    if n > 0 {
      PlacesEffect(o, w, hosts, n - 1);
      var s := AfterPlaces(o, w, hosts, n - 1);
      NotYetPlaced(w, s, hosts, n - 1);
      PlatformKnown(hosts[n - 1].obj);
      PlaceEffect(o, s, hosts[n - 1]);
      PlacingStep(w, s, AfterPlace(o, s, hosts[n - 1]), hosts, n - 1);
    }
  }

  lemma {:induction false} NotYetPlaced(w: World, s: LabelStep, hosts: seq<Item>, n: nat)
    requires n < |hosts| && FreshHosts(w, hosts) && Placing(w, s, hosts, n)
    ensures RemovalProofs.Fresh(s.w, hosts[n])
  {
    hide HostPlatform, Mapped, PlacedOrNot;
    assert RemovalProofs.Fresh(w, hosts[n]);
    assert !RemovalPass.Among(hosts, n, hosts[n].key);
    assert Same(w.objs, s.w.objs, hosts[n].key);
  }

  predicate IsSelected(objs: Store, selector: Option<Selector>, key: Key) {
    key in objs && Selects(HostSelection(selector), key, objs[key])
  }

  /** A platform is marked for deployment exactly when some selected host with a readable
      kernel version maps to it. */
  lemma {:induction false} NeedIsExact(o: Oracle, w: World, selector: Option<Selector>, name: string)
    requires Sound(w.objs) && name in PLATFORMS
    requires AfterList(o, w, HostSelection(selector)).ok
    requires !AfterNodeLabels(o, w, selector).outcome.Panic?
    ensures var need := AfterNodeLabels(o, w, selector).need;
            name in need &&
            (need[name] <==> exists k :: IsSelected(w.objs, selector, k) && HostPlatform(w.objs[k]) == Some(name))
  {
    hide AfterPlaces, HostPlatform;
    var l := AfterList(o, w, HostSelection(selector));
    var hosts := l.items;
    ListedHostsFresh(l.w, HostSelection(selector), hosts);
    PlacesEffect(o, l.w, hosts, |hosts|);
    if k :| IsSelected(w.objs, selector, k) && HostPlatform(w.objs[k]) == Some(name) {
      assert Has(hosts, k);
      var j :| 0 <= j < |hosts| && hosts[j].key == k;
      assert Mapped(hosts, |hosts|, name);
    }
    if Mapped(hosts, |hosts|, name) {
      var j :| 0 <= j < |hosts| && HostPlatform(hosts[j].obj) == Some(name);
      assert IsSelected(w.objs, selector, hosts[j].key);
    }
  }

  /** Whatever fails, an object is as it was, or it is a selected host that got the label
      of its own platform and nothing else; without an error every selected host has it. */
  lemma {:induction false} OnlyPlatformLabels(o: Oracle, w: World, selector: Option<Selector>, key: Key)
    requires Sound(w.objs)
    ensures var r := AfterNodeLabels(o, w, selector);
            && w.calls <= r.w.calls && Sound(r.w.objs)
            && r.w.objs.Keys == w.objs.Keys
            && (Same(w.objs, r.w.objs, key) ||
                (IsSelected(w.objs, selector, key) && r.w.objs[key] == Target(w.objs[key])))
            && (r.outcome.Done? && IsSelected(w.objs, selector, key) ==>
                  HostPlatform(w.objs[key]).Some? && r.w.objs[key] == Target(w.objs[key]))
  {
    hide AfterPlaces, HostPlatform, Mapped;
    var l := AfterList(o, w, HostSelection(selector));
    var hosts := l.items;
    if l.ok {
      ListedHostsFresh(l.w, HostSelection(selector), hosts);
      PlacesEffect(o, l.w, hosts, |hosts|);
      if IsSelected(w.objs, selector, key) {
        assert Has(hosts, key);
        var j :| 0 <= j < |hosts| && hosts[j].key == key;
        assert PlacedOrNot(AfterNodeLabels(o, w, selector), hosts[j]);
      } else {
        assert !RemovalPass.Among(hosts, |hosts|, key);
        assert Same(w.objs, AfterNodeLabels(o, w, selector).w.objs, key);
      }
    }
  }

  lemma {:induction false} PlacesPanicIff(o: Oracle, w: World, hosts: seq<Item>, n: nat)
    requires n <= |hosts|
    ensures AfterPlaces(o, w, hosts, n).outcome.Panic? <==> exists j :: 0 <= j < n && Stops(hosts[j].obj)
  {
    hide HostPlatform;
    if n > 0 { PlacesPanicIff(o, w, hosts, n - 1); }
  }

  /** Whatever calls fail, once the hosts are listed the process stops exactly when some
      selected host with a readable kernel version has no label at all. */
  lemma {:induction false} LabellingPanicsIff(o: Oracle, w: World, selector: Option<Selector>)
    requires AfterList(o, w, HostSelection(selector)).ok
    ensures AfterNodeLabels(o, w, selector).outcome.Panic?
       <==> exists k :: IsSelected(w.objs, selector, k) && Stops(w.objs[k])
  {
    hide AfterPlaces, Stops;
    var l := AfterList(o, w, HostSelection(selector));
    PlacesPanicIff(o, l.w, l.items, |l.items|);
    if k :| IsSelected(w.objs, selector, k) && Stops(w.objs[k]) {
      assert Has(l.items, k);
      var j :| 0 <= j < |l.items| && l.items[j].key == k;
      assert Stops(l.items[j].obj);
    }
    if j :| 0 <= j < |l.items| && Stops(l.items[j].obj) {
      assert IsSelected(w.objs, selector, l.items[j].key);
    }
  }

  /** A configured node selector rules that out: a selected host has at least its label. */
  lemma {:induction false} SelectorPreventsPanic(o: Oracle, w: World, selector: Option<Selector>)
    requires selector.Some?
    ensures !AfterNodeLabels(o, w, selector).outcome.Panic?
  {
    hide AfterNodeLabels, HostPlatform;
    if AfterList(o, w, HostSelection(selector)).ok {
      LabellingPanicsIff(o, w, selector);
      forall k | IsSelected(w.objs, selector, k) ensures !Stops(w.objs[k]) {
        assert selector.value.key in SelectorMap(selector) && selector.value.key in w.objs[k].meta.labels;
      }
    } else {
      ListingFails(o, w, selector);
    }
  }

  lemma {:induction false} ListingFails(o: Oracle, w: World, selector: Option<Selector>)
    requires !AfterList(o, w, HostSelection(selector)).ok
    ensures AfterNodeLabels(o, w, selector).outcome.Errors?
  {
  }

  /** A host that reports a kernel version, but has no label yet, stops the process. */
  lemma {:induction false} UnlabelledHostPanics(o: Oracle, w: World, host: Key, v: Version, tail: string)
    requires o.fault(w.calls, ListVerb, Key(Host, "", "")) == NoFault
    requires host.kind == Host && 0 <= v.major <= MAX_SEGMENT && 0 <= v.minor <= MAX_SEGMENT && !StartsWithDigit(tail)
    requires w.objs == map[host := Object(Meta(map[], [], false, 0),
                                          HostSpec([], Decimal(v.major) + "." + Decimal(v.minor) + tail))]
    ensures AfterNodeLabels(o, w, None).outcome.Panic?
  {
    hide AfterNodeLabels, KernelVersion;
    KernelRoundTrip(v, tail);
    LabellingPanicsIff(o, w, None);
    assert IsSelected(w.objs, None, host) && Stops(w.objs[host]);
  }

  // ----- labelling without faults -----

  lemma {:induction false} QuietPlace(o: Oracle, s: LabelStep, host: Item)
    requires RemovalProofs.Fresh(s.w, host) && Sound(s.w.objs) && Quiet(o, s.w.calls)
    requires !s.outcome.Panic? && !Stops(host.obj)
    ensures var t := AfterPlace(o, s, host);
            && host.key in t.w.objs && t.w.objs[host.key] == Target(host.obj)
            && t.outcome == if HostPlatform(host.obj).Some? then s.outcome else Errors
  {
    hide KernelVersion, PlatformOf;
    assert o.fault(s.w.calls, UpdateVerb, host.key) == NoFault;
    if HostPlatform(host.obj).Some? && HasPlatform(host.obj, HostPlatform(host.obj).value) {
      var name := HostPlatform(host.obj).value;
      assert host.obj.meta.labels[PLATFORM_LABEL := LabelTag(name)] == host.obj.meta.labels;
    }
  }

  lemma {:induction false} QuietPlaces(o: Oracle, w: World, hosts: seq<Item>, n: nat)
    requires n <= |hosts| && FreshHosts(w, hosts) && Sound(w.objs) && Quiet(o, w.calls)
    requires forall j :: 0 <= j < |hosts| ==> !Stops(hosts[j].obj)
    ensures var s := AfterPlaces(o, w, hosts, n);
            && !s.outcome.Panic?
            && (s.outcome.Done? <==> forall j :: 0 <= j < n ==> HostPlatform(hosts[j].obj).Some?)
            && forall j :: 0 <= j < n ==>
                 hosts[j].key in s.w.objs && s.w.objs[hosts[j].key] == Target(hosts[j].obj)
  {
    hide AfterPlace, HostPlatform, Target, Stops, Mapped;
    if n > 0 {
      QuietPlaces(o, w, hosts, n - 1);
      var s, host := AfterPlaces(o, w, hosts, n - 1), hosts[n - 1];
      PlacesEffect(o, w, hosts, n - 1);
      NotYetPlaced(w, s, hosts, n - 1);
      QuietPlace(o, s, host);
      PlatformKnown(host.obj);
      PlaceEffect(o, s, host);
      forall j | 0 <= j < n - 1 ensures Same(s.w.objs, AfterPlace(o, s, host).w.objs, hosts[j].key) {
        assert hosts[j].key != host.key;
      }
    }
  }

  /** Without faults, and with no host that stops the process, every selected host with a
      readable kernel gets the label of its platform, whatever the others are, and the
      labelling reports no error exactly when all kernels can be read. */
  lemma {:induction false} QuietLabelling(o: Oracle, w: World, selector: Option<Selector>)
    requires Sound(w.objs) && Quiet(o, w.calls)
    requires forall k :: IsSelected(w.objs, selector, k) ==> !Stops(w.objs[k])
    ensures var r := AfterNodeLabels(o, w, selector);
            && !r.outcome.Panic?
            && (r.outcome.Done? <==> forall k :: IsSelected(w.objs, selector, k) ==> HostPlatform(w.objs[k]).Some?)
            && forall k :: IsSelected(w.objs, selector, k) ==> k in r.w.objs && r.w.objs[k] == Target(w.objs[k])
  {
    hide AfterPlaces, HostPlatform, Target, Stops;
    var l := AfterList(o, w, HostSelection(selector));
    var hosts := l.items;
    assert o.fault(w.calls, ListVerb, Key(Host, "", "")) == NoFault;
    ListedHostsFresh(l.w, HostSelection(selector), hosts);
    forall j | 0 <= j < |hosts| ensures !Stops(hosts[j].obj) && IsSelected(w.objs, selector, hosts[j].key) {}
    QuietPlaces(o, l.w, hosts, |hosts|);
    forall k | IsSelected(w.objs, selector, k)
      ensures exists j :: 0 <= j < |hosts| && hosts[j].key == k && hosts[j].obj == w.objs[k]
    {
      assert Has(hosts, k);
      var j :| 0 <= j < |hosts| && hosts[j].key == k;
    }
  }

  /** What that label is, from the kernel's two leading numbers. */
  lemma {:induction false} LabelOnFields(host: Object, v: Version)
    requires host.spec.HostSpec? && KernelVersion(host.spec.kernel) == Some(v)
    ensures Target(host).spec == host.spec
    ensures Target(host).meta == host.meta.(labels := host.meta.labels[
              "nodes.csi-baremetal.dell.com/platform" :=
                if v.major > 5 || (v.major == 5 && v.minor >= 4) then "kernel-5.4" else "default"])
  {
  }

  lemma {:induction false} NothingToPlace(o: Oracle, w: World, hosts: seq<Item>, n: nat)
    requires n <= |hosts|
    requires forall j :: 0 <= j < |hosts| ==>
      HostPlatform(hosts[j].obj).Some? && HasPlatform(hosts[j].obj, HostPlatform(hosts[j].obj).value)
    ensures AfterPlaces(o, w, hosts, n).w == w && AfterPlaces(o, w, hosts, n).outcome.Done?
  {
    hide HostPlatform;
    if n > 0 { NothingToPlace(o, w, hosts, n - 1); }
  }

  /** Labelling again right after an error-free labelling lists the hosts and writes
      nothing. */
  lemma {:induction false} SecondLabellingWritesNothing(o: Oracle, w: World, v: World, selector: Option<Selector>)
    requires Sound(w.objs) && AfterNodeLabels(o, w, selector).outcome.Done?
    requires v.objs == AfterNodeLabels(o, w, selector).w.objs
    ensures AfterNodeLabels(o, v, selector).w == Tick(o, v)
  {
    hide AfterPlaces, HostPlatform, AfterNodeLabels;
    var l := AfterList(o, v, HostSelection(selector));
    assert l.w == Tick(o, v);
    if l.ok {
      forall j | 0 <= j < |l.items| ensures
        HostPlatform(l.items[j].obj).Some? && HasPlatform(l.items[j].obj, HostPlatform(l.items[j].obj).value)
      {
        var key := l.items[j].key;
        OnlyPlatformLabels(o, w, selector, key);
        assert IsSelected(w.objs, selector, key);
        TargetKeepsPlatform(w.objs[key]);
      }
      NothingToPlace(o, l.w, l.items, |l.items|);
    }
    AfterNodeLabelsIs(o, v, selector);
  }

  lemma {:induction false} AfterNodeLabelsIs(o: Oracle, w: World, selector: Option<Selector>)
    ensures var l := AfterList(o, w, HostSelection(selector));
            l.ok ==> AfterNodeLabels(o, w, selector) == AfterPlaces(o, l.w, l.items, |l.items|)
    ensures !AfterList(o, w, HostSelection(selector)).ok ==> AfterNodeLabels(o, w, selector).w == Tick(o, w)
  {
    hide AfterPlaces;
  }

  lemma {:induction false} TargetKeepsPlatform(host: Object)
    ensures HostPlatform(Target(host)) == HostPlatform(host)
    ensures HostPlatform(host).Some? ==> HasPlatform(Target(host), HostPlatform(host).value)
  {
  }

  // ----- cleaning -----

  ghost predicate CleanedOrNot(o: Oracle, w: World, s: World, host: Item)
    requires host.key in s.objs
  {
    || s.objs[host.key] == Cleaned(host.obj)
    || (!Quiet(o, w.calls) && s.objs[host.key] == host.obj)
  }

  /** The first `n` hosts are cleaned, or after a failure perhaps as before. */
  ghost predicate Cleaning(o: Oracle, w: World, s: World, hosts: seq<Item>, n: nat)
    requires n <= |hosts|
  {
    && w.calls <= s.calls
    && Sound(s.objs)
    && s.objs.Keys == w.objs.Keys
    && (forall j :: 0 <= j < n ==> hosts[j].key in s.objs && CleanedOrNot(o, w, s, hosts[j]))
    && (forall k {:trigger Same(w.objs, s.objs, k)} :: !RemovalPass.Among(hosts, n, k) ==> Same(w.objs, s.objs, k))
  }

  lemma {:induction false} CleanOne(o: Oracle, w: World, s: World, hosts: seq<Item>, n: nat)
    requires n < |hosts| && FreshHosts(w, hosts) && Cleaning(o, w, s, hosts, n)
    requires hosts[n].obj.meta.labels.Keys !! OUR_LABELS
    ensures Cleaning(o, w, s, hosts, n + 1)
  {
    var labels := hosts[n].obj.meta.labels;
    assert labels - OUR_LABELS == labels;
    assert !RemovalPass.Among(hosts, n, hosts[n].key);
    assert RemovalProofs.Fresh(w, hosts[n]) && Same(w.objs, s.objs, hosts[n].key);
    forall k | !RemovalPass.Among(hosts, n + 1, k) ensures Same(w.objs, s.objs, k) {
      assert !RemovalPass.Among(hosts, n, k);
    }
  }

  lemma {:induction false} CleanNext(o: Oracle, w: World, s: World, hosts: seq<Item>, n: nat)
    requires n < |hosts| && FreshHosts(w, hosts) && Cleaning(o, w, s, hosts, n)
    ensures Cleaning(o, w, AfterUpdate(o, s, hosts[n].key, Cleaned(hosts[n].obj)).w, hosts, n + 1)
  {
    hide Cleaned;
    CleanedKeeps(hosts[n].obj);
    var r := AfterUpdate(o, s, hosts[n].key, Cleaned(hosts[n].obj)).w;
    assert !RemovalPass.Among(hosts, n, hosts[n].key);
    assert RemovalProofs.Fresh(w, hosts[n]) && Same(w.objs, s.objs, hosts[n].key);
    if Quiet(o, w.calls) { assert o.fault(s.calls, UpdateVerb, hosts[n].key) == NoFault; }
    forall j | 0 <= j < n ensures Same(s.objs, r.objs, hosts[j].key) {
      assert hosts[j].key != hosts[n].key;
    }
    forall k | !RemovalPass.Among(hosts, n + 1, k) ensures Same(w.objs, r.objs, k) {
      assert hosts[n].key != k && !RemovalPass.Among(hosts, n, k);
      assert Same(w.objs, s.objs, k) && Same(s.objs, r.objs, k);
    }
  }

  lemma {:induction false} CleanedKeeps(host: Object)
    ensures Cleaned(host).meta == host.meta.(labels := Cleaned(host).meta.labels) && Cleaned(host).spec == host.spec
  {
  }

  lemma {:induction false} CleansEffect(o: Oracle, w: World, hosts: seq<Item>, n: nat)
    requires n <= |hosts| && FreshHosts(w, hosts) && Sound(w.objs)
    ensures Cleaning(o, w, AfterCleans(o, w, hosts, n), hosts, n)
  {
    hide Cleaning, Cleaned;
    if n == 0 {
      CleanNothing(o, w, hosts);
    } else {
      CleansEffect(o, w, hosts, n - 1);
      var s := AfterCleans(o, w, hosts, n - 1);
      if hosts[n - 1].obj.meta.labels.Keys !! OUR_LABELS {
        CleanOne(o, w, s, hosts, n - 1);
      } else {
        CleanNext(o, w, s, hosts, n - 1);
      }
    }
  }

  lemma {:induction false} CleanNothing(o: Oracle, w: World, hosts: seq<Item>)
    requires Sound(w.objs)
    ensures Cleaning(o, w, w, hosts, 0)
  {
  }

  /** A fault-free clean takes the two labels of the operator off every host and changes
      nothing else. */
  lemma {:induction false} CleanIsExact(o: Oracle, w: World, key: Key)
    requires Sound(w.objs) && Quiet(o, w.calls)
    ensures var r := AfterCleanLabels(o, w);
            && r.ok && r.w.objs.Keys == w.objs.Keys
            && (key in w.objs ==> r.w.objs[key] == if key.kind == Host then Cleaned(w.objs[key]) else w.objs[key])
  {
    hide AfterCleans, Cleaned;
    var l := AfterList(o, w, All(Host));
    assert o.fault(w.calls, ListVerb, Key(Host, "", "")) == NoFault;
    ListedHostsFresh(l.w, All(Host), l.items);
    CleansEffect(o, l.w, l.items, |l.items|);
    if key in w.objs {
      if key.kind == Host {
        assert Selects(All(Host), key, w.objs[key]) && Has(l.items, key);
        var j :| 0 <= j < |l.items| && l.items[j].key == key;
      } else {
        assert !RemovalPass.Among(l.items, |l.items|, key);
        assert Same(w.objs, AfterCleanLabels(o, w).w.objs, key);
      }
    }
  }

  /** Labelling, with whatever failures, followed by a fault-free clean gives every host
      its original labels without the two of the operator. */
  lemma {:induction false} CleanUndoesLabelling(o: Oracle, w: World, selector: Option<Selector>, key: Key)
    requires Sound(w.objs) && key in w.objs
    requires var s := AfterNodeLabels(o, w, selector).w; Quiet(o, s.calls)
    ensures var r := AfterCleanLabels(o, AfterNodeLabels(o, w, selector).w).w.objs;
            key in r && r[key] == if key.kind == Host then Cleaned(w.objs[key]) else w.objs[key]
  {
    hide AfterNodeLabels, AfterCleanLabels, HostPlatform;
    OnlyPlatformLabels(o, w, selector, key);
    CleanIsExact(o, AfterNodeLabels(o, w, selector).w, key);
    var host := w.objs[key];
    if HostPlatform(host).Some? {
      var placed := Placed(host, HostPlatform(host).value);
      assert placed.meta.labels - OUR_LABELS == host.meta.labels - OUR_LABELS;
    }
  }

  // ----- daemonsets -----

  /** A stored daemonset of a platform demands that platform's label. */
  predicate DemandsOwnTag(objs: Store, csi: NodeCsi, name: string) {
    DaemonSetKey(csi, name) in objs ==>
      var spec := objs[DaemonSetKey(csi, name)].spec;
      spec.DaemonSetSpec? && PLATFORM_LABEL in spec.nodeSelector && spec.nodeSelector[PLATFORM_LABEL] == LabelTag(name)
  }

  predicate DemandOwnTags(objs: Store, csi: NodeCsi) {
    forall name | name in PLATFORMS :: DemandsOwnTag(objs, csi, name)
  }

  predicate Deployed(objs: Store, csi: NodeCsi, name: string) {
    DaemonSetKey(csi, name) in objs && objs[DaemonSetKey(csi, name)].spec == NodeDaemonSet(csi, name)
  }

  predicate Needed(need: map<string, bool>, name: string) {
    name in need && need[name]
  }

  /** The needed daemonsets among the first `n` platforms are stored; only daemonsets
      change, and each still demands its own platform. */
  ghost predicate Deploying(w: World, s: Step, csi: NodeCsi, need: map<string, bool>, order: seq<string>, n: nat)
    requires n <= |order|
  {
    && w.calls <= s.w.calls
    && Sound(s.w.objs)
    && DemandOwnTags(s.w.objs, csi)
    && (forall k: Key {:trigger Same(w.objs, s.w.objs, k)} :: k.kind != DaemonSet ==> Same(w.objs, s.w.objs, k))
    && (s.ok ==> forall j :: 0 <= j < n && Needed(need, order[j]) ==> Deployed(s.w.objs, csi, order[j]))
  }

  ghost predicate DeploysOne(w: World, d: Step, csi: NodeCsi, name: string) {
    && w.calls <= d.w.calls
    && Sound(d.w.objs)
    && OnlyAt(w.objs, d.w.objs, DaemonSetKey(csi, name))
    && (d.ok ==> Deployed(d.w.objs, csi, name))
    && (Same(w.objs, d.w.objs, DaemonSetKey(csi, name)) || Deployed(d.w.objs, csi, name))
  }

  lemma {:induction false} ApplyDeploys(o: Oracle, w: World, csi: NodeCsi, name: string)
    requires Sound(w.objs)
    ensures DeploysOne(w, AfterApplyDaemonSet(o, w, DaemonSetKey(csi, name), NodeDaemonSet(csi, name)), csi, name)
  {
    hide NodeDaemonSet, DaemonSetKey;
  }

  lemma {:induction false} KeysDiffer(csi: NodeCsi, a: string, b: string)
    requires a in PLATFORMS && b in PLATFORMS && a != b
    ensures DaemonSetKey(csi, a) != DaemonSetKey(csi, b) && LabelTag(a) != LabelTag(b)
  {
    if DaemonSetKey(csi, a) == DaemonSetKey(csi, b) {
      NamesTellTags(NODE_NAME, PLATFORMS[a].tag, PLATFORMS[b].tag);
    }
  }

  lemma {:induction false} DeployStep(
    w: World, s: Step, d: Step, csi: NodeCsi, need: map<string, bool>, order: seq<string>, n: nat)
    requires n < |order| && order[n] in PLATFORMS
    requires Deploying(w, s, csi, need, order, n) && DeploysOne(s.w, d, csi, order[n])
    requires forall j :: 0 <= j < |order| ==> order[j] in PLATFORMS
    ensures Deploying(w, Step(d.w, s.ok && d.ok), csi, need, order, n + 1)
  {
    hide Sound, DaemonSetKey, NodeDaemonSet;
    var key := DaemonSetKey(csi, order[n]);
    KeyIsDaemonSet(csi, order[n]);
    DeployedDemandsOwnTag(d.w.objs, csi, order[n]);
    forall p | p in PLATFORMS && p != order[n] ensures Same(s.w.objs, d.w.objs, DaemonSetKey(csi, p)) {
      KeysDiffer(csi, p, order[n]);
    }
    forall k: Key | k.kind != DaemonSet ensures Same(w.objs, d.w.objs, k) {
      assert Same(w.objs, s.w.objs, k) && Same(s.w.objs, d.w.objs, k);
    }
  }

  lemma {:induction false} KeyIsDaemonSet(csi: NodeCsi, name: string)
    ensures DaemonSetKey(csi, name).kind == DaemonSet
  {
  }

  lemma {:induction false} DeployedDemandsOwnTag(objs: Store, csi: NodeCsi, name: string)
    ensures Deployed(objs, csi, name) ==> DemandsOwnTag(objs, csi, name)
  {
  }

  lemma {:induction false} DeploysEffect(
    o: Oracle, w: World, csi: NodeCsi, need: map<string, bool>, order: seq<string>, n: nat)
    requires n <= |order| && Sound(w.objs) && DemandOwnTags(w.objs, csi)
    requires forall j :: 0 <= j < |order| ==> order[j] in PLATFORMS
    ensures Deploying(w, AfterDeploys(o, w, csi, need, order, n), csi, need, order, n)
  {
    hide AfterApplyDaemonSet, DaemonSetKey, NodeDaemonSet, Sound, DemandOwnTags, DeploysOne, Deployed;
    if n > 0 {
      DeploysEffect(o, w, csi, need, order, n - 1);
      var s := AfterDeploys(o, w, csi, need, order, n - 1);
      if Needed(need, order[n - 1]) {
        ApplyDeploys(o, s.w, csi, order[n - 1]);
        DeployStep(w, s, AfterApplyDaemonSet(o, s.w, DaemonSetKey(csi, order[n - 1]), NodeDaemonSet(csi, order[n - 1])),
                   csi, need, order, n - 1);
      }
    }
  }

  lemma {:induction false} QuietDeploys(
    o: Oracle, w: World, csi: NodeCsi, need: map<string, bool>, order: seq<string>, n: nat)
    requires n <= |order| && Quiet(o, w.calls)
    ensures var s := AfterDeploys(o, w, csi, need, order, n); s.ok && w.calls <= s.w.calls
  {
    hide AfterApplyDaemonSet, DaemonSetKey, NodeDaemonSet;
    if n > 0 {
      QuietDeploys(o, w, csi, need, order, n - 1);
      var s := AfterDeploys(o, w, csi, need, order, n - 1);
      var key, spec := DaemonSetKey(csi, order[n - 1]), NodeDaemonSet(csi, order[n - 1]);
      QuietSetApplies(o, s.w, key, spec);
      ApplyDaemonSetEffect(o, s.w, key, spec);
    }
  }

  /** A needed daemonset whose own calls succeed is stored, even if others fail. */
  lemma {:induction false} DeploysEach(
    o: Oracle, w: World, csi: NodeCsi, need: map<string, bool>, order: seq<string>, n: nat, j: nat)
    requires j < n <= |order| && Sound(w.objs) && DemandOwnTags(w.objs, csi)
    requires forall i :: 0 <= i < |order| ==> order[i] in PLATFORMS
    requires Needed(need, order[j])
    requires forall m: nat, v :: o.fault(m, v, DaemonSetKey(csi, order[j])) == NoFault
    ensures Deployed(AfterDeploys(o, w, csi, need, order, n).w.objs, csi, order[j])
  {
    hide AfterApplyDaemonSet, DaemonSetKey, NodeDaemonSet, Sound, DemandOwnTags, Deployed;
    var s := AfterDeploys(o, w, csi, need, order, n - 1);
    DeploysEffect(o, w, csi, need, order, n - 1);
    if Needed(need, order[n - 1]) {
      var d := AfterApplyDaemonSet(o, s.w, DaemonSetKey(csi, order[n - 1]), NodeDaemonSet(csi, order[n - 1]));
      ApplyDeploys(o, s.w, csi, order[n - 1]);
      if order[n - 1] == order[j] {
        SparedSetApplies(o, s.w, DaemonSetKey(csi, order[j]), NodeDaemonSet(csi, order[j]));
      } else {
        DeploysEach(o, w, csi, need, order, n - 1, j);
        KeysDiffer(csi, order[j], order[n - 1]);
        assert Same(s.w.objs, d.w.objs, DaemonSetKey(csi, order[j]));
        StaysDeployed(s.w.objs, d.w.objs, csi, order[j]);
      }
    } else {
      DeploysEach(o, w, csi, need, order, n - 1, j);
    }
  }

  lemma {:induction false} SparedSetApplies(o: Oracle, w: World, key: Key, expected: Spec)
    requires expected.DaemonSetSpec? && forall m: nat, v :: o.fault(m, v, key) == NoFault
    ensures AfterApplyDaemonSet(o, w, key, expected).ok
  {
  }

  lemma {:induction false} StaysDeployed(a: Store, b: Store, csi: NodeCsi, name: string)
    requires Same(a, b, DaemonSetKey(csi, name)) && Deployed(a, csi, name)
    ensures Deployed(b, csi, name)
  {
  }

  /** After a labelling that reports an error no daemonset is touched. */
  lemma {:induction false} FailedLabellingDeploysNothing(
    o: Oracle, w: World, csi: NodeCsi, order: seq<string>, key: Key)
    requires Sound(w.objs) && key.kind == DaemonSet && !AfterNodeLabels(o, w, csi.selector).outcome.Done?
    ensures Same(w.objs, AfterNodeUpdate(o, w, csi, order).w.objs, key)
    ensures AfterNodeUpdate(o, w, csi, order).outcome == AfterNodeLabels(o, w, csi.selector).outcome
  {
    hide AfterNodeLabels, HostPlatform, Target;
    OnlyPlatformLabels(o, w, csi.selector, key);
  }

  /** Without faults an update succeeds exactly when every selected kernel can be read. */
  lemma {:induction false} QuietUpdate(o: Oracle, w: World, csi: NodeCsi, order: seq<string>)
    requires Sound(w.objs) && Quiet(o, w.calls)
    requires forall k :: IsSelected(w.objs, csi.selector, k) ==> !Stops(w.objs[k])
    ensures AfterNodeUpdate(o, w, csi, order).outcome.Done?
       <==> forall k :: IsSelected(w.objs, csi.selector, k) ==> HostPlatform(w.objs[k]).Some?
  {
    hide AfterNodeLabels, AfterDeploys, HostPlatform, Stops, Target;
    var l := AfterNodeLabels(o, w, csi.selector);
    QuietLabelling(o, w, csi.selector);
    OnlyPlatformLabels(o, w, csi.selector, DaemonSetKey(csi, DEFAULT));
    QuietDeploys(o, l.w, csi, l.need, order, |order|);
  }

  /** The daemonset's node selector admits the host. */
  predicate Admits(daemonSet: Object, host: Object) {
    daemonSet.spec.DaemonSetSpec? && HasLabels(daemonSet.spec.nodeSelector, host.meta.labels)
  }

  /** The stored node daemonsets that admit the host. */
  function ServedBy(objs: Store, csi: NodeCsi, host: Object): set<Key> {
    set name | name in PLATFORMS && DaemonSetKey(csi, name) in objs && Admits(objs[DaemonSetKey(csi, name)], host)
      :: DaemonSetKey(csi, name)
  }

  /** Whatever fails in an update, each stored node daemonset goes on demanding the label
      of its own platform. */
  lemma {:induction false} UpdateKeepsDemands(o: Oracle, w: World, csi: NodeCsi, order: seq<string>)
    requires Sound(w.objs) && DemandOwnTags(w.objs, csi)
    requires forall j :: 0 <= j < |order| ==> order[j] in PLATFORMS
    ensures var r := AfterNodeUpdate(o, w, csi, order).w.objs; Sound(r) && DemandOwnTags(r, csi)
  {
    hide AfterNodeLabels, AfterDeploys, HostPlatform;
    var l := AfterNodeLabels(o, w, csi.selector);
    LabellingKeepsDemands(o, w, csi);
    DeploysEffect(o, l.w, csi, l.need, order, |order|);
  }

  lemma {:induction false} LabellingKeepsDemands(o: Oracle, w: World, csi: NodeCsi)
    requires Sound(w.objs) && DemandOwnTags(w.objs, csi)
    ensures var l := AfterNodeLabels(o, w, csi.selector).w.objs; Sound(l) && DemandOwnTags(l, csi)
  {
    hide AfterNodeLabels, DaemonSetKey, HostPlatform, Target;
    var l := AfterNodeLabels(o, w, csi.selector).w.objs;
    forall name | name in PLATFORMS ensures DemandsOwnTag(l, csi, name) {
      KeyIsDaemonSet(csi, name);
      OnlyPlatformLabels(o, w, csi.selector, DaemonSetKey(csi, name));
    }
    OnlyPlatformLabels(o, w, csi.selector, DaemonSetKey(csi, DEFAULT));
  }

  /** After an update without errors every selected host carries the label of its
      platform and is admitted by exactly one stored node daemonset, its platform's, even
      when daemonsets of platforms no longer needed, or of an earlier selector, remain. */
  lemma {:induction false} ServedByExactlyOne(o: Oracle, w: World, csi: NodeCsi, order: seq<string>, key: Key)
    requires Sound(w.objs) && DemandOwnTags(w.objs, csi)
    requires forall name :: name in order <==> name in PLATFORMS
    requires AfterNodeUpdate(o, w, csi, order).outcome.Done?
    requires IsSelected(w.objs, csi.selector, key)
    ensures HostPlatform(w.objs[key]).Some?
    ensures var name, r := HostPlatform(w.objs[key]).value, AfterNodeUpdate(o, w, csi, order).w.objs;
            && key in r && r[key] == Placed(w.objs[key], name)
            && ServedBy(r, csi, r[key]) == {DaemonSetKey(csi, name)}
  {
    hide AfterNodeLabels, AfterDeploys, HostPlatform, Mapped;
    var l := AfterNodeLabels(o, w, csi.selector);
    OnlyPlatformLabels(o, w, csi.selector, key);
    LabellingKeepsDemands(o, w, csi);
    forall j | 0 <= j < |order| ensures order[j] in PLATFORMS { assert order[j] in order; }
    DeploysEffect(o, l.w, csi, l.need, order, |order|);
    var r := AfterNodeUpdate(o, w, csi, order).w.objs;
    assert Same(l.w.objs, r, key);
    var name := HostPlatform(w.objs[key]).value;
    PlatformKnown(w.objs[key]);
    NeedIncludes(o, w, csi.selector, key);
    assert name in order;
    var j :| 0 <= j < |order| && order[j] == name;
    assert Needed(l.need, order[j]) && Deployed(r, csi, name);
    OnlyOwnDaemonSet(r, csi, w.objs[key], name);
  }

  lemma {:induction false} NeedIncludes(o: Oracle, w: World, selector: Option<Selector>, key: Key)
    requires Sound(w.objs) && AfterNodeLabels(o, w, selector).outcome.Done?
    requires IsSelected(w.objs, selector, key) && HostPlatform(w.objs[key]).Some?
    ensures Needed(AfterNodeLabels(o, w, selector).need, HostPlatform(w.objs[key]).value)
  {
    hide AfterPlaces, HostPlatform;
    PlatformKnown(w.objs[key]);
    NeedIsExact(o, w, selector, HostPlatform(w.objs[key]).value);
  }

  lemma {:induction false} OnlyOwnDaemonSet(objs: Store, csi: NodeCsi, host: Object, name: string)
    requires name in PLATFORMS && DemandOwnTags(objs, csi) && Deployed(objs, csi, name)
    requires HasLabels(SelectorMap(csi.selector), host.meta.labels)
    ensures ServedBy(objs, csi, Placed(host, name)) == {DaemonSetKey(csi, name)}
  {
    hide DaemonSetKey;
    var placed := Placed(host, name);
    assert Admits(objs[DaemonSetKey(csi, name)], placed);
    forall p | p in PLATFORMS && p != name && DaemonSetKey(csi, p) in objs
      ensures !Admits(objs[DaemonSetKey(csi, p)], placed)
    {
      KeysDiffer(csi, p, name);
      assert DemandsOwnTag(objs, csi, p);
    }
  }

  // ----- over the fields -----

  /** After a fault-free clean no host has the platform or the UUID label, and every host
      has all its other labels. */
  lemma {:induction false} CleanOnFields(o: Oracle, w: World, host: Key, name: string)
    requires Sound(w.objs) && Quiet(o, w.calls) && host in w.objs && host.kind == Host
    ensures var a, r := w.objs[host].meta.labels, AfterCleanLabels(o, w).w.objs;
            && host in r
            && (if name == "nodes.csi-baremetal.dell.com/platform" || name == NODE_ID_LABEL then
                  name !in r[host].meta.labels
                else
                  (name in a <==> name in r[host].meta.labels)
                  && (name in a ==> r[host].meta.labels[name] == a[name]))
  {
    hide AfterCleanLabels;
    CleanIsExact(o, w, host);
  }

  /** The name of a platform's daemonset, and what it demands of its nodes: the label of
      the platform and that of the configured selector. */
  lemma {:induction false} DaemonSetsOnFields(csi: NodeCsi)
    ensures DaemonSetKey(csi, "default") == Key(DaemonSet, csi.namespace, "csi-baremetal-node")
    ensures DaemonSetKey(csi, "kernel-5.4") == Key(DaemonSet, csi.namespace, "csi-baremetal-node-kernel-5.4")
    ensures forall name {:trigger NodeDaemonSet(csi, name)} :: name == "default" || name == "kernel-5.4" ==>
              var demands := NodeDaemonSet(csi, name).nodeSelector;
              && "nodes.csi-baremetal.dell.com/platform" in demands
              && demands["nodes.csi-baremetal.dell.com/platform"] == name
              && (csi.selector.Some? && csi.selector.value.key != "nodes.csi-baremetal.dell.com/platform" ==>
                    csi.selector.value.key in demands && demands[csi.selector.value.key] == csi.selector.value.value)
  {
    assert NameWithTag(NODE_NAME, KERNEL_5_4) == "csi-baremetal-node-kernel-5.4";
  }
}
