/** The update of the node component: nothing is deployed before the node's service
    account is bound to the roles it needs. */
module NodeUpdate {
  import opened Api
  import opened NodeOperations
  import opened NodeLabels
  import NodeLabelProofs
  import opened Rbac
  import opened Watches
  import Platform

  /** The security context is checked first, then the pod security policy. */
  function AfterChecks(o: Oracle, w: World, csi: Watched): VerdictStep {
    var c := if ChecksContext(csi) then AfterValidate(o, w, ContextRequest(csi, csi.nodeAccount))
             else VerdictStep(w, Valid);
    if c.verdict.Valid? && csi.nodePolicy.Some? then
      AfterValidate(o, c.w, PolicyRequest(csi, csi.nodeAccount, csi.nodePolicy.value))
    else c
  }

  /** A missing binding ends the update without an error: the watches are to wake it. */
  function AfterUpdateNode(o: Oracle, w: World, csi: Watched, node: NodeCsi, order: seq<string>): Sweep {
    var c := AfterChecks(o, w, csi);
    match c.verdict
    case Failed => Sweep(c.w, Errors)
    case Insufficient => Sweep(c.w, Done)
    case Valid => AfterNodeUpdate(o, c.w, node, order)
  }

  method Update(node: Node, validator: Validator, csi: Watched, settings: NodeCsi, order: seq<string>)
    returns (outcome: Outcome)
    requires validator.server == node.server
    modifies node.server
    ensures Sweep(node.server.Now(), outcome)
         == AfterUpdateNode(node.server.oracle, old(node.server.Now()), csi, settings, order)
  {
    hide AfterValidate, AfterNodeUpdate;
    if ChecksContext(csi) {
      var verdict := validator.ValidateServiceAccountIsBound(ContextRequest(csi, csi.nodeAccount));
      if !verdict.Valid? { return if verdict.Failed? then Errors else Done; }
    }
    if csi.nodePolicy.Some? {
      var verdict := validator.ValidateServiceAccountIsBound(
        PolicyRequest(csi, csi.nodeAccount, csi.nodePolicy.value));
      if !verdict.Valid? { return if verdict.Failed? then Errors else Done; }
    }
    outcome := node.Deploy(settings, order);
  }

  /** Everything the node's account is checked for is granted. */
  predicate Cleared(objs: Store, csi: Watched) {
    && (ChecksContext(csi) ==> Bound(objs, ContextRequest(csi, csi.nodeAccount)))
    && (csi.nodePolicy.Some? ==> Bound(objs, PolicyRequest(csi, csi.nodeAccount, csi.nodePolicy.value)))
  }

  lemma {:induction false} ValidationReads(o: Oracle, w: World, request: Request)
    ensures AfterValidate(o, w, request).w.objs == w.objs && w.calls <= AfterValidate(o, w, request).w.calls
    ensures !AfterValidate(o, w, request).verdict.Failed? ==>
              (AfterValidate(o, w, request).verdict.Valid? <==> Bound(w.objs, request))
  {
    hide Bound, Joined, AnyNamed;
    if !AfterValidate(o, w, request).verdict.Failed? { ValidIffBound(o, w, request); }
  }

  lemma {:induction false} ChecksDecide(o: Oracle, w: World, csi: Watched)
    ensures var c := AfterChecks(o, w, csi);
            && c.w.objs == w.objs && w.calls <= c.w.calls
            && (c.verdict.Valid? ==> Cleared(w.objs, csi))
            && (c.verdict.Insufficient? ==> !Cleared(w.objs, csi))
  {
    hide AfterValidate, Bound;
    var c := AfterValidate(o, w, ContextRequest(csi, csi.nodeAccount));
    ValidationReads(o, w, ContextRequest(csi, csi.nodeAccount));
    if csi.nodePolicy.Some? {
      var request := PolicyRequest(csi, csi.nodeAccount, csi.nodePolicy.value);
      ValidationReads(o, w, request);
      ValidationReads(o, c.w, request);
    }
  }

  /** Whatever fails, an update changes nothing in the store unless the account has been
      granted everything it is checked for. */
  lemma {:induction false} NothingBeforeCleared(o: Oracle, w: World, csi: Watched, node: NodeCsi, order: seq<string>)
    requires AfterUpdateNode(o, w, csi, node, order).w.objs != w.objs
    ensures Cleared(w.objs, csi)
  {
    hide AfterChecks, AfterNodeUpdate;
    ChecksDecide(o, w, csi);
  }

  /** An update that reports success either left the store alone, because the account is
      not cleared, or serves the selected host with its one daemonset. */
  lemma {:induction false} DoneMeansServedOrNotCleared(
    o: Oracle, w: World, csi: Watched, node: NodeCsi, order: seq<string>, key: Key)
    requires Sound(w.objs) && NodeLabelProofs.DemandOwnTags(w.objs, node)
    requires forall name :: name in order <==> name in Platform.PLATFORMS
    requires AfterUpdateNode(o, w, csi, node, order).outcome.Done?
    requires NodeLabelProofs.IsSelected(w.objs, node.selector, key)
    ensures var r := AfterUpdateNode(o, w, csi, node, order).w.objs;
            if Cleared(w.objs, csi) then
              && HostPlatform(w.objs[key]).Some? && key in r
              && NodeLabelProofs.ServedBy(r, node, r[key]) == {DaemonSetKey(node, HostPlatform(w.objs[key]).value)}
            else r == w.objs
  {
    hide AfterChecks, AfterNodeUpdate, Cleared, HostPlatform, NodeLabelProofs.ServedBy, NodeLabelProofs.DemandOwnTags;
    var c := AfterChecks(o, w, csi);
    ChecksDecide(o, w, csi);
    if c.verdict.Valid? {
      NodeLabelProofs.ServedByExactlyOne(o, c.w, node, order, key);
    }
  }

  /** Without faults the checks decide by the bindings alone. */
  lemma {:induction false} QuietChecks(o: Oracle, w: World, csi: Watched)
    requires Quiet(o, w.calls)
    ensures AfterChecks(o, w, csi).verdict == if Cleared(w.objs, csi) then Valid else Insufficient
  {
    hide AfterValidate, Bound;
    ChecksDecide(o, w, csi);
    forall v: World, request: Request | w.calls <= v.calls ensures !AfterValidate(o, v, request).verdict.Failed? {
      QuietValidates(o, v, request);
    }
    ValidationReads(o, w, ContextRequest(csi, csi.nodeAccount));
  }

  lemma {:induction false} QuietValidates(o: Oracle, w: World, request: Request)
    requires Quiet(o, w.calls)
    ensures !AfterValidate(o, w, request).verdict.Failed?
  {
    hide AfterValidate;
    FailedIffListFails(o, w, request);
    assert o.fault(w.calls, ListVerb, Key(RoleBinding, request.namespace, "")) == NoFault;
    assert o.fault(w.calls + 1, ListVerb, Key(Role, request.namespace, "")) == NoFault;
  }

  /** Without faults, and with no host that stops the process: an update for a cleared
      account succeeds exactly when every selected kernel can be read, and then serves
      every selected host; for another account it ends quietly and changes nothing. */
  lemma {:induction false} QuietUpdateServes(o: Oracle, w: World, csi: Watched, node: NodeCsi, order: seq<string>)
    requires Sound(w.objs) && Quiet(o, w.calls) && NodeLabelProofs.DemandOwnTags(w.objs, node)
    requires forall name :: name in order <==> name in Platform.PLATFORMS
    requires forall k :: NodeLabelProofs.IsSelected(w.objs, node.selector, k) ==> !NodeLabelProofs.Stops(w.objs[k])
    ensures var r := AfterUpdateNode(o, w, csi, node, order);
            if !Cleared(w.objs, csi) then r.outcome.Done? && r.w.objs == w.objs
            else
              && (r.outcome.Done? <==>
                    forall k :: NodeLabelProofs.IsSelected(w.objs, node.selector, k) ==> HostPlatform(w.objs[k]).Some?)
              && (r.outcome.Done? ==>
                    forall k :: NodeLabelProofs.IsSelected(w.objs, node.selector, k) ==>
                      && k in r.w.objs
                      && NodeLabelProofs.ServedBy(r.w.objs, node, r.w.objs[k])
                         == {DaemonSetKey(node, HostPlatform(w.objs[k]).value)})
  {
    hide AfterChecks, AfterNodeUpdate, Cleared, HostPlatform, NodeLabelProofs.ServedBy, NodeLabelProofs.DemandOwnTags;
    hide NodeLabelProofs.Stops;
    var c, r := AfterChecks(o, w, csi), AfterUpdateNode(o, w, csi, node, order);
    ChecksDecide(o, w, csi);
    QuietChecks(o, w, csi);
    if c.verdict.Valid? {
      NodeLabelProofs.QuietUpdate(o, c.w, node, order);
      if r.outcome.Done? {
        forall k | NodeLabelProofs.IsSelected(w.objs, node.selector, k)
          ensures k in r.w.objs
          ensures NodeLabelProofs.ServedBy(r.w.objs, node, r.w.objs[k])
               == {DaemonSetKey(node, HostPlatform(w.objs[k]).value)}
        {
          NodeLabelProofs.ServedByExactlyOne(o, c.w, node, order, k);
        }
      }
    }
  }
}
