/** Whether a service account is bound to a role that grants what is asked for. */
module Rbac {
  import opened Api

  datatype Request = Request(
    account: string, namespace: string, roleName: string, roleNamespace: string, rules: seq<PolicyRule>)

  /** `Insufficient` is the validation error, `Failed` a list call that did not come back. */
  datatype Verdict = Valid | Insufficient | Failed

  datatype VerdictStep = VerdictStep(w: World, verdict: Verdict)

  function Rules(role: Object): seq<PolicyRule> {
    if role.spec.RoleSpec? then role.spec.rules else []
  }

  function Subjects(binding: Object): seq<Subject> {
    if binding.spec.RoleBindingSpec? then binding.spec.subjects else []
  }

  function RoleRef(binding: Object): string {
    if binding.spec.RoleBindingSpec? then binding.spec.roleRef else ""
  }

  // ----- what matching means -----

  predicate Subset(wanted: seq<string>, offered: seq<string>) {
    forall s :: s in wanted ==> s in offered
  }

  /** `actual` grants everything `requested` asks for. */
  predicate Covers(actual: PolicyRule, requested: PolicyRule) {
    && Subset(requested.verbs, actual.verbs)
    && Subset(requested.groups, actual.groups)
    && Subset(requested.resources, actual.resources)
    && Subset(requested.names, actual.names)
  }

  predicate CoversAll(actual: PolicyRule, requested: seq<PolicyRule>) {
    forall r :: r in requested ==> Covers(actual, r)
  }

  /** One rule grants the whole request, and the request is not empty. */
  predicate Grants(actual: seq<PolicyRule>, requested: seq<PolicyRule>) {
    requested != [] && exists a :: a in actual && CoversAll(a, requested)
  }

  predicate Names(binding: Object, account: string, namespace: string) {
    Subject(account, namespace) in Subjects(binding)
  }

  predicate Admissible(request: Request, role: Key) {
    && (request.roleName == "" || request.roleName == role.name)
    && (request.roleNamespace == "" || request.roleNamespace == role.namespace)
  }

  function In(kind: Kind, namespace: string): Selection {
    All(kind).(namespace := namespace)
  }

  /** A binding of the namespace names the account and refers to a role there that
      grants the request. */
  predicate BoundBy(objs: Store, request: Request, binding: Key, role: Key) {
    && binding in objs && Selects(In(RoleBinding, request.namespace), binding, objs[binding])
    && role in objs && Selects(In(Role, request.namespace), role, objs[role])
    && Names(objs[binding], request.account, request.namespace)
    && RoleRef(objs[binding]) == role.name
    && Admissible(request, role)
    && Grants(Rules(objs[role]), request.rules)
  }

  predicate Bound(objs: Store, request: Request) {
    exists b, r | b in objs && r in objs :: BoundBy(objs, request, b, r)
  }

  // ----- the validator -----

  class Matcher {
    constructor () {}

    static method Index(s: seq<string>) returns (prepared: set<string>)
      ensures forall x :: x in prepared <==> x in s
    {
      prepared := {};
      for i := 0 to |s|
        invariant forall x :: x in prepared <==> x in s[..i]
      {
        prepared := prepared + {s[i]};
      }
    }

    static method AllIn(wanted: seq<string>, prepared: set<string>) returns (all: bool)
      ensures all <==> forall x :: x in wanted ==> x in prepared
    {
      for i := 0 to |wanted|
        invariant forall x :: x in wanted[..i] ==> x in prepared
      {
        if wanted[i] !in prepared { return false; }
      }
      return true;
    }

    static method MatchPolicyRule(actual: PolicyRule, requested: PolicyRule) returns (matches: bool)
      ensures matches <==> Covers(actual, requested)
    {
      var verbs := Index(actual.verbs);
      var groups := Index(actual.groups);
      var resources := Index(actual.resources);
      var names := Index(actual.names);
      matches := AllIn(requested.verbs, verbs);
      if !matches { return; }
      matches := AllIn(requested.groups, groups);
      if !matches { return; }
      matches := AllIn(requested.resources, resources);
      if !matches { return; }
      matches := AllIn(requested.names, names);
    }

    static method MatchPolicyRules(actual: seq<PolicyRule>, requested: seq<PolicyRule>) returns (matches: bool)
      ensures matches <==> Grants(actual, requested)
    {
      matches := false;
      for i := 0 to |actual|
        invariant !matches
        invariant requested != [] ==> forall k :: 0 <= k < i ==> !CoversAll(actual[k], requested)
      {
        for j := 0 to |requested|
          invariant matches <==> j > 0
          invariant forall k :: 0 <= k < j ==> Covers(actual[i], requested[k])
        {
          matches := MatchPolicyRule(actual[i], requested[j]);
          if !matches { break; }
        }
        if matches {
          assert CoversAll(actual[i], requested);
          return true;
        }
      }
    }

    static method MatchRoleBindingSubjects(binding: Object, account: string, namespace: string) returns (matches: bool)
      ensures matches <==> Names(binding, account, namespace)
    {
      var subjects := Subjects(binding);
      for i := 0 to |subjects|
        invariant Subject(account, namespace) !in subjects[..i]
      {
        if subjects[i].name == account && subjects[i].namespace == namespace { return true; }
      }
      return false;
    }

    static method MatchRoleBindingsSubjects(bindings: seq<Item>, account: string, namespace: string)
      returns (matching: seq<Item>)
      ensures forall b :: b in matching <==> b in bindings && Names(b.obj, account, namespace)
    {
      matching := [];
      for i := 0 to |bindings|
        invariant forall b :: b in matching <==> b in bindings[..i] && Names(b.obj, account, namespace)
      {
        var named := MatchRoleBindingSubjects(bindings[i].obj, account, namespace);
        if named { matching := matching + [bindings[i]]; }
      }
    }

    static method MatchRoles(roles: seq<Item>, names: seq<string>) returns (matching: seq<Item>)
      ensures forall r :: r in matching <==> r in roles && r.key.name in names
    {
      var prepared := Index(names);
      matching := [];
      for i := 0 to |roles|
        invariant forall r :: r in matching <==> r in roles[..i] && r.key.name in names
      {
        if roles[i].key.name in prepared { matching := matching + [roles[i]]; }
      }
    }
  }

  predicate NamedIn(bindings: seq<Item>, request: Request, role: string) {
    exists b :: b in bindings && Names(b.obj, request.account, request.namespace) && RoleRef(b.obj) == role
  }

  predicate Suits(request: Request, role: Item) {
    Admissible(request, role.key) && Grants(Rules(role.obj), request.rules)
  }

  predicate Qualifies(bindings: seq<Item>, request: Request, role: Item) {
    NamedIn(bindings, request, role.key.name) && Suits(request, role)
  }

  /** The join of the two lists. */
  predicate Joined(bindings: seq<Item>, roles: seq<Item>, request: Request) {
    exists r :: r in roles && Qualifies(bindings, request, r)
  }

  predicate AnyNamed(bindings: seq<Item>, request: Request) {
    exists b :: b in bindings && Names(b.obj, request.account, request.namespace)
  }

  /** The roles are listed only if some binding names the account. */
  function AfterValidate(o: Oracle, w: World, request: Request): VerdictStep {
    var b := AfterList(o, w, In(RoleBinding, request.namespace));
    if !b.ok then VerdictStep(b.w, Failed)
    else if !AnyNamed(b.items, request) then VerdictStep(b.w, Insufficient)
    else
      var r := AfterList(o, b.w, In(Role, request.namespace));
      if !r.ok then VerdictStep(r.w, Failed)
      else VerdictStep(r.w, if Joined(b.items, r.items, request) then Valid else Insufficient)
  }

  class Validator {
    const server: Server

    constructor (server: Server)
      ensures this.server == server
    {
      this.server := server;
    }

    /** The references of the matching bindings, filled in by index. */
    static method References(matching: seq<Item>) returns (refs: array<string>)
      ensures fresh(refs) && refs.Length == |matching|
      ensures forall j :: 0 <= j < |matching| ==> refs[j] == RoleRef(matching[j].obj)
    {
      refs := new string[|matching|];
      for i := 0 to |matching|
        invariant forall j :: 0 <= j < i ==> refs[j] == RoleRef(matching[j].obj)
      {
        refs[i] := RoleRef(matching[i].obj);
      }
    }

    /** Some role passes the name filters and grants the request. */
    static method ScanRoles(request: Request, roles: seq<Item>) returns (found: bool)
      ensures found <==> exists r :: r in roles && Suits(request, r)
    {
      for i := 0 to |roles|
        invariant forall r :: r in roles[..i] ==> !Suits(request, r)
      {
        var role := roles[i];
        if request.roleName != "" && request.roleName != role.key.name { continue; }
        if request.roleNamespace != "" && request.roleNamespace != role.key.namespace { continue; }
        found := Matcher.MatchPolicyRules(Rules(role.obj), request.rules);
        if found {
          assert role in roles && Suits(request, role);
          return;
        }
      }
      return false;
    }

    method ValidateServiceAccountIsBound(request: Request) returns (verdict: Verdict)
      modifies server
      ensures VerdictStep(server.Now(), verdict) == AfterValidate(server.oracle, old(server.Now()), request)
    {
      hide NamedIn, Suits, Qualifies, Joined, AfterList;
      var bindingsListed, bindings := server.List(In(RoleBinding, request.namespace));
      if !bindingsListed { return Failed; }
      var matching := Matcher.MatchRoleBindingsSubjects(bindings, request.account, request.namespace);
      NoneNamed(bindings, request, matching);
      if |matching| == 0 { return Insufficient; }
      var rolesListed, roles := server.List(In(Role, request.namespace));
      if !rolesListed { return Failed; }
      var refs := References(matching);
      RefsAreNamed(bindings, request, matching, refs[..]);
      var matchingRoles := Matcher.MatchRoles(roles, refs[..]);
      JoinedIs(bindings, roles, request, matchingRoles);
      if |matchingRoles| == 0 { return Insufficient; }
      var found := ScanRoles(request, matchingRoles);
      verdict := if found then Valid else Insufficient;
    }
  }

  lemma {:induction false} NoneNamed(bindings: seq<Item>, request: Request, matching: seq<Item>)
    requires forall b :: b in matching <==> b in bindings && Names(b.obj, request.account, request.namespace)
    ensures AnyNamed(bindings, request) <==> |matching| != 0
  {
    if |matching| != 0 { assert matching[0] in matching; }
  }

  lemma {:induction false} JoinedIs(bindings: seq<Item>, roles: seq<Item>, request: Request, matching: seq<Item>)
    requires forall r :: r in matching <==> r in roles && NamedIn(bindings, request, r.key.name)
    ensures Joined(bindings, roles, request) <==> exists r :: r in matching && Suits(request, r)
  {
    hide NamedIn, Suits;
    if Joined(bindings, roles, request) {
      var r :| r in roles && Qualifies(bindings, request, r);
      assert r in matching;
    }
    if r :| r in matching && Suits(request, r) {
      assert Qualifies(bindings, request, r);
    }
  }

  lemma {:induction false} RefsAreNamed(bindings: seq<Item>, request: Request, matching: seq<Item>, refs: seq<string>)
    requires forall b :: b in matching <==> b in bindings && Names(b.obj, request.account, request.namespace)
    requires |refs| == |matching| && forall j :: 0 <= j < |refs| ==> refs[j] == RoleRef(matching[j].obj)
    ensures forall name :: name in refs <==> NamedIn(bindings, request, name)
  {
    forall name | NamedIn(bindings, request, name) ensures name in refs {
      var b :| b in bindings && Names(b.obj, request.account, request.namespace) && RoleRef(b.obj) == name;
      assert b in matching;
      var j :| 0 <= j < |matching| && matching[j] == b;
      assert refs[j] == name;
    }
    forall name | name in refs ensures NamedIn(bindings, request, name) {
      var j :| 0 <= j < |refs| && refs[j] == name;
      assert matching[j] in matching;
    }
  }

  // ----- what validation means -----

  lemma {:induction false} ListedOnce(objs: Store, sel: Selection, items: seq<Item>, key: Key)
    requires Lists(objs, sel, items) && key in objs && Selects(sel, key, objs[key])
    ensures Item(key, objs[key]) in items
  {
    assert Has(items, key);
  }

  lemma {:induction false} ItemIsStored(objs: Store, sel: Selection, items: seq<Item>, item: Item)
    requires Lists(objs, sel, items) && item in items
    ensures item.key in objs && objs[item.key] == item.obj && Selects(sel, item.key, item.obj)
  {
  }

  /** When the lists came back, validation succeeds exactly when the account is bound. */
  lemma {:induction false} ValidIffBound(o: Oracle, w: World, request: Request)
    requires !AfterValidate(o, w, request).verdict.Failed?
    ensures AfterValidate(o, w, request).verdict.Valid? <==> Bound(w.objs, request)
    ensures AfterValidate(o, w, request).w.objs == w.objs
  {
    var b := AfterList(o, w, In(RoleBinding, request.namespace));
    var r := AfterList(o, b.w, In(Role, request.namespace));
    if Bound(w.objs, request) {
      var bk, rk :| bk in w.objs && rk in w.objs && BoundBy(w.objs, request, bk, rk);
      ListedOnce(w.objs, In(RoleBinding, request.namespace), b.items, bk);
      assert AnyNamed(b.items, request) && NamedIn(b.items, request, rk.name);
      ListedOnce(w.objs, In(Role, request.namespace), r.items, rk);
      assert Qualifies(b.items, request, Item(rk, w.objs[rk]));
    }
    if AfterValidate(o, w, request).verdict.Valid? {
      var role :| role in r.items && Qualifies(b.items, request, role);
      var binding :| binding in b.items && Names(binding.obj, request.account, request.namespace)
                  && RoleRef(binding.obj) == role.key.name;
      ItemIsStored(w.objs, In(Role, request.namespace), r.items, role);
      ItemIsStored(w.objs, In(RoleBinding, request.namespace), b.items, binding);
      assert BoundBy(w.objs, request, binding.key, role.key);
    }
  }

  /** A binding of the namespace that names the account. */
  predicate NamesIn(binding: Object, key: Key, request: Request) {
    Selects(In(RoleBinding, request.namespace), key, binding) && Names(binding, request.account, request.namespace)
  }

  predicate SomeBindingNames(objs: Store, request: Request) {
    exists b :: b in objs && NamesIn(objs[b], b, request)
  }

  /** Validation ends with a list error exactly when the bindings could not be listed, or a
      binding names the account and the roles could not be listed. */
  lemma {:induction false} FailedIffListFails(o: Oracle, w: World, request: Request)
    ensures AfterValidate(o, w, request).verdict.Failed?
       <==> || o.fault(w.calls, ListVerb, Key(RoleBinding, request.namespace, "")) != NoFault
            || (&& o.fault(w.calls + 1, ListVerb, Key(Role, request.namespace, "")) != NoFault
                && SomeBindingNames(w.objs, request))
  {
    hide Joined, Lists, Selects, NamesIn;
    var l := AfterList(o, w, In(RoleBinding, request.namespace));
    if l.ok { AnyNamedMeans(w.objs, request, l.items); }
  }

  lemma {:induction false} AnyNamedMeans(objs: Store, request: Request, bindings: seq<Item>)
    requires Lists(objs, In(RoleBinding, request.namespace), bindings)
    ensures AnyNamed(bindings, request) <==> SomeBindingNames(objs, request)
  {
    hide Names;
    if SomeBindingNames(objs, request) {
      var b :| b in objs && NamesIn(objs[b], b, request);
      ListedOnce(objs, In(RoleBinding, request.namespace), bindings, b);
    }
    if AnyNamed(bindings, request) {
      var item :| item in bindings && Names(item.obj, request.account, request.namespace);
      ItemIsStored(objs, In(RoleBinding, request.namespace), bindings, item);
      assert NamesIn(objs[item.key], item.key, request);
    }
  }

  /** `b` has every binding and role of `a`, with at least the same subjects and rules. */
  ghost predicate GrowsTo(a: Store, b: Store) {
    forall k :: k in a && (k.kind == Role || k.kind == RoleBinding) ==>
      && k in b
      && RoleRef(b[k]) == RoleRef(a[k])
      && (forall s :: s in Subjects(a[k]) ==> s in Subjects(b[k]))
      && (forall r :: r in Rules(a[k]) ==> r in Rules(b[k]))
  }

  /** Adding bindings, subjects, roles or rules never takes validity away. */
  lemma {:induction false} BoundIsMonotone(a: Store, b: Store, request: Request)
    requires GrowsTo(a, b) && Bound(a, request)
    ensures Bound(b, request)
  {
    var bk, rk :| bk in a && rk in a && BoundBy(a, request, bk, rk);
    var rule :| rule in Rules(a[rk]) && CoversAll(rule, request.rules);
    assert rule in Rules(b[rk]);
    assert BoundBy(b, request, bk, rk);
  }

  /** Covering is a preorder, and a rule that covers more grants at least as much. */
  lemma {:induction false} CoversIsPreorder(a: PolicyRule, b: PolicyRule, c: PolicyRule)
    ensures Covers(a, a)
    ensures Covers(a, b) && Covers(b, c) ==> Covers(a, c)
  {
  }

  lemma {:induction false} WiderRuleGrants(
    actual: seq<PolicyRule>, requested: seq<PolicyRule>, i: nat, wider: PolicyRule)
    requires i < |actual| && Covers(wider, actual[i]) && Grants(actual, requested)
    ensures Grants(actual[i := wider], requested)
  {
    var a :| a in actual && CoversAll(a, requested);
    var j :| 0 <= j < |actual| && actual[j] == a;
    var changed := actual[i := wider];
    forall r | r in requested ensures Covers(changed[j], r) {
      CoversIsPreorder(wider, actual[i], r);
    }
    assert changed[j] in changed;
  }

  /** Two rules that cover a request only together do not grant it, nor does any rule
      grant the empty request. */
  lemma {:induction false} OneRuleMustCover(request: seq<PolicyRule>, a: PolicyRule, b: PolicyRule)
    ensures Grants([a, b], request) <==> request != [] && (CoversAll(a, request) || CoversAll(b, request))
    ensures !Grants([a, b], [])
  {
    assert a in [a, b] && b in [a, b];
  }

  // ----- over the fields -----

  /** A rule covers another exactly when verbs, API groups, resources and resource names
      are each included; missing one of the four is enough to fail. */
  lemma {:induction false} CoversOnFields(
    v: seq<string>, g: seq<string>, r: seq<string>, n: seq<string>,
    verbs: seq<string>, groups: seq<string>, resources: seq<string>, names: seq<string>)
    ensures Covers(PolicyRule(v, g, r, n), PolicyRule(verbs, groups, resources, names))
       <==> && (forall x :: x in verbs ==> x in v) && (forall x :: x in groups ==> x in g)
            && (forall x :: x in resources ==> x in r) && (forall x :: x in names ==> x in n)
  {
  }

  /** A binding of the namespace that names the account and refers to the role `name`. */
  predicate BindsTo(objs: Store, key: Key, account: string, namespace: string, name: string) {
    && key in objs && key.kind == RoleBinding && key.namespace == namespace
    && objs[key].spec.RoleBindingSpec? && objs[key].spec.roleRef == name
    && Subject(account, namespace) in objs[key].spec.subjects
  }

  /** A role of the namespace one rule of which covers the whole request. */
  predicate Offers(objs: Store, key: Key, namespace: string, requested: seq<PolicyRule>) {
    && key in objs && key.kind == Role && key.namespace == namespace && objs[key].spec.RoleSpec?
    && exists a :: a in objs[key].spec.rules && forall r :: r in requested ==> Covers(a, r)
  }

  /** Bound, over the fields of bindings and roles, in a namespace. */
  lemma {:induction false} BoundOnFields(objs: Store, request: Request)
    requires request.namespace != ""
    ensures Bound(objs, request)
       <==> && request.rules != []
            && exists b, r ::
                 && Offers(objs, r, request.namespace, request.rules)
                 && BindsTo(objs, b, request.account, request.namespace, r.name)
                 && (request.roleName == "" || request.roleName == r.name)
                 && (request.roleNamespace == "" || request.roleNamespace == r.namespace)
  {
    hide Covers;
    forall b, r ensures b in objs && r in objs && BoundBy(objs, request, b, r)
      <==> && request.rules != [] && Offers(objs, r, request.namespace, request.rules)
           && BindsTo(objs, b, request.account, request.namespace, r.name)
           && (request.roleName == "" || request.roleName == r.name)
           && (request.roleNamespace == "" || request.roleNamespace == r.namespace)
    {
      BoundByOnFields(objs, request, b, r);
    }
  }

  lemma {:induction false} BoundByOnFields(objs: Store, request: Request, b: Key, r: Key)
    requires request.namespace != ""
    ensures b in objs && r in objs && BoundBy(objs, request, b, r)
       <==> && request.rules != [] && Offers(objs, r, request.namespace, request.rules)
            && BindsTo(objs, b, request.account, request.namespace, r.name)
            && (request.roleName == "" || request.roleName == r.name)
            && (request.roleNamespace == "" || request.roleNamespace == r.namespace)
  {
    hide Covers;
    if r in objs && objs[r].spec.RoleSpec? {
      forall a ensures CoversAll(a, request.rules) <==> forall x :: x in request.rules ==> Covers(a, x) {}
    }
  }
}
