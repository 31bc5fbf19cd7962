/** The watch filters on roles and role bindings: they must not miss the write that makes
    a validation pass. */
module Watches {
  import opened Api
  import opened Rbac

  /** What the filters read of a Deployment resource; a security policy is present when
      the feature is enabled. */
  datatype Watched = Watched(
    key: Key, isOpenShift: bool, nodeAccount: string, schedulerAccount: string,
    nodePolicy: Option<string>, schedulerPolicy: Option<string>)

  const DEFAULT_NAMESPACE := "default"

  const SCC_RULES: seq<PolicyRule> :=
    [PolicyRule(["use"], ["security.openshift.io"], ["securitycontextconstraints"], ["privileged"])]

  function PolicyRules(resource: string): seq<PolicyRule> {
    [PolicyRule(["use"], ["policy"], ["podsecuritypolicies"], [resource])]
  }

  /** The security context of both accounts is checked on OpenShift outside the default
      namespace. */
  predicate ChecksContext(csi: Watched) {
    csi.isOpenShift && csi.key.namespace != DEFAULT_NAMESPACE
  }

  function ContextRequest(csi: Watched, account: string): Request {
    Request(account, csi.key.namespace, "", "", SCC_RULES)
  }

  function PolicyRequest(csi: Watched, account: string, resource: string): Request {
    Request(account, csi.key.namespace, "", "", PolicyRules(resource))
  }

  // ----- the filters -----

  /** Both filters give up unless the list came back with exactly one deployment. */
  function Only(listed: Option<seq<Watched>>): Option<Watched> {
    if listed.Some? && |listed.value| == 1 then Some(listed.value[0]) else None
  }

  /** A pod security policy is watched with the rules of the security context; its own
      resource name plays no part. */
  predicate WakesForRole(csi: Watched, role: Item) {
    var matches := Grants(Rules(role.obj), SCC_RULES);
    || (ChecksContext(csi) && csi.key.namespace == role.key.namespace && matches)
    || (csi.nodePolicy.Some? && matches)
    || (csi.schedulerPolicy.Some? && matches)
  }

  predicate WakesForBinding(csi: Watched, binding: Item) {
    var node := Names(binding.obj, csi.nodeAccount, csi.key.namespace);
    var scheduler := Names(binding.obj, csi.schedulerAccount, csi.key.namespace);
    || (ChecksContext(csi) && csi.key.namespace == binding.key.namespace && (node || scheduler))
    || (csi.nodePolicy.Some? && node)
    || (csi.schedulerPolicy.Some? && scheduler)
  }

  function RoleRequests(listed: Option<seq<Watched>>, role: Item): seq<Key> {
    if Only(listed).Some? && WakesForRole(Only(listed).value, role) then [Only(listed).value.key] else []
  }

  function BindingRequests(listed: Option<seq<Watched>>, binding: Item): seq<Key> {
    if Only(listed).Some? && WakesForBinding(Only(listed).value, binding) then [Only(listed).value.key] else []
  }

  // ----- one write that turns a validation -----

  /** Storing `key` makes the validation pass. */
  ghost predicate Turns(a: Store, b: Store, key: Key, request: Request) {
    && key in b
    && (forall k {:trigger Same(a, b, k)} :: k != key ==> Same(a, b, k))
    && !Bound(a, request) && Bound(b, request)
  }

  lemma {:induction false} TurnedBy(a: Store, b: Store, key: Key, request: Request) returns (binding: Key, role: Key)
    requires Turns(a, b, key, request)
    ensures BoundBy(b, request, binding, role) && (key == binding || key == role)
  {
    binding, role :| binding in b && role in b && BoundBy(b, request, binding, role);
    if key != binding && key != role {
      assert Same(a, b, binding) && Same(a, b, role);
      assert BoundBy(a, request, binding, role);
    }
  }

  /** The requests the operator validates for this deployment. */
  ghost predicate Validated(csi: Watched, request: Request) {
    || (ChecksContext(csi)
        && (request == ContextRequest(csi, csi.nodeAccount) || request == ContextRequest(csi, csi.schedulerAccount)))
    || IsPolicyRequest(csi, request)
  }

  predicate IsPolicyRequest(csi: Watched, request: Request) {
    || (csi.nodePolicy.Some? && request == PolicyRequest(csi, csi.nodeAccount, csi.nodePolicy.value))
    || (csi.schedulerPolicy.Some? && request == PolicyRequest(csi, csi.schedulerAccount, csi.schedulerPolicy.value))
  }

  /** No binding is missed: whichever validation a stored RoleBinding turns, the filter
      requests a reconciliation. */
  lemma {:induction false} NoLostBinding(csi: Watched, a: Store, b: Store, key: Key, request: Request)
    requires csi.key.namespace != "" && key.kind == RoleBinding
    requires Validated(csi, request) && Turns(a, b, key, request)
    ensures BindingRequests(Some([csi]), Item(key, b[key])) == [csi.key]
  {
    var binding, role := TurnedBy(a, b, key, request);
    assert role.kind == Role;
  }

  /** No role is missed as far as the security context goes. */
  lemma {:induction false} NoLostRole(csi: Watched, a: Store, b: Store, key: Key, account: string)
    requires csi.key.namespace != "" && key.kind == Role && ChecksContext(csi)
    requires Turns(a, b, key, ContextRequest(csi, account))
    ensures RoleRequests(Some([csi]), Item(key, b[key])) == [csi.key]
  {
    var binding, role := TurnedBy(a, b, key, ContextRequest(csi, account));
    assert binding.kind == RoleBinding;
  }

  /** For a pod security policy the filter wakes exactly when the role happens to grant
      the security context as well. */
  lemma {:induction false} PolicyRoleWakesIff(csi: Watched, a: Store, b: Store, key: Key, request: Request)
    requires csi.key.namespace != "" && key.kind == Role
    requires IsPolicyRequest(csi, request) && Turns(a, b, key, request)
    ensures RoleRequests(Some([csi]), Item(key, b[key])) == [csi.key] <==> Grants(Rules(b[key]), SCC_RULES)
  {
  }

  /** A role that grants just the pod security policy is missed. */
  lemma {:induction false} PolicyRoleIsMissed(
    csi: Watched, resource: string, binding: Key, role: Key, a: Store, b: Store)
    requires csi.key.namespace != "" && csi.nodePolicy == Some(resource)
    requires binding == Key(RoleBinding, csi.key.namespace, "b") && role == Key(Role, csi.key.namespace, "r")
    requires a == map[binding := Object(Meta(map[], [], false, 0),
                                        RoleBindingSpec([Subject(csi.nodeAccount, csi.key.namespace)], "r"))]
    requires b == a[role := Object(Meta(map[], [], false, 0), RoleSpec(PolicyRules(resource)))]
    ensures Turns(a, b, role, PolicyRequest(csi, csi.nodeAccount, resource))
    ensures RoleRequests(Some([csi]), Item(role, b[role])) == []
  {
    var request, rule := PolicyRequest(csi, csi.nodeAccount, resource), PolicyRules(resource)[0];
    assert rule in Rules(b[role]) && CoversAll(rule, request.rules);
    assert BoundBy(b, request, binding, role);
    assert SCC_RULES[0] in SCC_RULES && "security.openshift.io" in SCC_RULES[0].groups;
    assert "security.openshift.io" !in rule.groups;
    assert forall r :: r in Rules(b[role]) ==> r == rule;
  }

  /** A binding is noticed exactly when it names one of the two accounts for which it
      matters: any on OpenShift outside the default namespace, if the binding is in the
      deployment's namespace, and that of a component with a pod security policy. */
  lemma {:induction false} BindingWakesIff(csi: Watched, binding: Item, subjects: seq<Subject>, roleRef: string)
    requires binding.obj.spec == RoleBindingSpec(subjects, roleRef)
    ensures BindingRequests(Some([csi]), binding) == [csi.key]
       <==> || (Subject(csi.nodeAccount, csi.key.namespace) in subjects
                && (csi.nodePolicy.Some? || (ChecksContext(csi) && binding.key.namespace == csi.key.namespace)))
            || (Subject(csi.schedulerAccount, csi.key.namespace) in subjects
                && (csi.schedulerPolicy.Some? || (ChecksContext(csi) && binding.key.namespace == csi.key.namespace)))
  {
  }

  /** Neither filter asks for anything when the list failed, or when there is no deployment
      or more than one; nor does a binding that names neither account. */
  lemma {:induction false} OthersAreQuiet(listed: Option<seq<Watched>>, item: Item)
    ensures listed.None? || |listed.value| != 1 ==>
              BindingRequests(listed, item) == [] && RoleRequests(listed, item) == []
    ensures listed.Some? && |listed.value| == 1
            && Subject(listed.value[0].nodeAccount, listed.value[0].key.namespace) !in Subjects(item.obj)
            && Subject(listed.value[0].schedulerAccount, listed.value[0].key.namespace) !in Subjects(item.obj) ==>
              BindingRequests(listed, item) == []
    ensures listed.Some? && |listed.value| == 1 && (forall r :: r in Rules(item.obj) ==> "use" !in r.verbs) ==>
              RoleRequests(listed, item) == []
  {
    assert "use" in SCC_RULES[0].verbs && SCC_RULES[0] in SCC_RULES;
  }

  /** What the accounts have to be granted, over the fields: the use of the privileged
      security context, and of the named pod security policy. */
  lemma {:induction false} RequestsOnFields(csi: Watched, account: string, resource: string, objs: Store)
    requires csi.key.namespace != ""
    ensures Bound(objs, ContextRequest(csi, account))
       <==> exists b, r ::
              && Offers(objs, r, csi.key.namespace, [PolicyRule(["use"], ["security.openshift.io"],
                                                                ["securitycontextconstraints"], ["privileged"])])
              && BindsTo(objs, b, account, csi.key.namespace, r.name)
    ensures Bound(objs, PolicyRequest(csi, account, resource))
       <==> exists b, r ::
              && Offers(objs, r, csi.key.namespace, [PolicyRule(["use"], ["policy"],
                                                                ["podsecuritypolicies"], [resource])])
              && BindsTo(objs, b, account, csi.key.namespace, r.name)
  {
    BoundOnFields(objs, ContextRequest(csi, account));
    BoundOnFields(objs, PolicyRequest(csi, account, resource));
  }
}
