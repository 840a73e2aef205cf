/**
 Resource registration (internal/controller/cluster.go and the role reconcilers): nested loops over the
 role groups of three roles.  Go ranges over a map in no particular order; the loop below takes the groups
 in any order and reports it in a ghost result.
 */
module FullNames {

  /** RoleGroupInfo.GetFullName */
  function FullName(cluster: string, role: string, group: string): string {
    cluster + "-" + role + "-" + group
  }

  function FirstDash(s: string): nat {
    if s == "" || s[0] == '-' then 0 else 1 + FirstDash(s[1..])
  }

  lemma {:induction false} FirstDashEndsRole(role: string, group: string)
    requires '-' !in role
    ensures FirstDash(role + "-" + group) == |role|
  {
    if role != "" {
      FirstDashEndsRole(role[1..], group);
      assert (role + "-" + group)[1..] == role[1..] + "-" + group;
    }
  }

  /** Within a cluster, the full name tells role and group, whatever characters the group's name has,
      because no role name contains the separator. */
  lemma FullNameInjective(cluster: string, role: string, group: string, role': string, group': string)
    requires '-' !in role && '-' !in role'
    ensures FullName(cluster, role, group) == FullName(cluster, role', group') <==> role == role' && group == group'
  {
    if FullName(cluster, role, group) == FullName(cluster, role', group') {
      var tail, tail' := role + "-" + group, role' + "-" + group';
      assert FullName(cluster, role, group) == cluster + "-" + tail;
      assert FullName(cluster, role', group') == cluster + "-" + tail';
      assert tail == (cluster + "-" + tail)[|cluster| + 1..];
      assert tail' == (cluster + "-" + tail')[|cluster| + 1..];
      FirstDashEndsRole(role, group);
      FirstDashEndsRole(role', group');
      assert role == tail[..|role|] && group == tail[|role| + 1..];
      assert role' == tail'[..|role'|] && group' == tail'[|role'| + 1..];
    }
  }
}

module Registration {
  import opened Wrappers
  import opened RoleNames
  import opened FullNames
  import Types = AuthenticatorTypes
  import Auth = NewAuthentication

  datatype ConfigContent = ConfigContent(content: string)
  datatype OverridesContent = OverridesContent(content: string)
  datatype RoleGroupContent = RoleGroupContent(
    replicas: Option<int>, config: Option<ConfigContent>, overrides: Option<OverridesContent>)
  datatype RoleContent = RoleContent(
    roleGroups: map<string, RoleGroupContent>, config: Option<ConfigContent>, overrides: Option<OverridesContent>)

  /** The library and API-server calls that registration makes. */
  datatype Library = Library(
    mergeConfig: (Option<ConfigContent>, Option<ConfigContent>) -> Result<Option<ConfigContent>>,
    mergeOverrides: (Option<OverridesContent>, Option<OverridesContent>) -> Result<Option<OverridesContent>>,
    lookup: string -> Types.Lookup)

  datatype ContainerPort = ContainerPort(name: string, port: int)

  const PORTS := [ContainerPort("http", 8080), ContainerPort("metrics", 9102)]

  datatype Kind = ConfigMap | StatefulSet | Service

  datatype Content =
    | Configuration(config: Option<ConfigContent>)
    | Workload(replicas: Option<int>, roleGroupConfig: Option<ConfigContent>, overrides: Option<OverridesContent>)
    | PlainService(ports: seq<ContainerPort>)
    | MetricsService(port: int)

  datatype Resource = Resource(kind: Kind, name: string, role: string, group: string, content: Content)
  {
    function Key(): (Kind, string) {
      (kind, name)
    }
  }

  datatype FailureCause = MergeFailed(message: string) | AuthenticationFailed(error: Types.AuthError)

  /** Panicked stands for the nil dereference that ends the call. */
  datatype Outcome = Registered | Failed(cause: FailureCause) | Panicked

  // ---------- What one role group needs and yields ----------

  /** What a role reconciler knows: its cluster's name, configuration and libraries, its role and its spec. */
  datatype Role = Role(
    cluster: string, name: string, spec: RoleContent, authentication: Option<seq<Types.AuthenticationEntry>>,
    lib: Library)

  ghost predicate GroupSucceeds(r: Role, g: RoleGroupContent) {
    && r.lib.mergeConfig(r.spec.config, g.config).Success?
    && r.lib.mergeOverrides(r.spec.overrides, g.overrides).Success?
    && r.authentication.Some?
    && Auth.PassesUpTo(r.lib.lookup, r.authentication.value, |r.authentication.value|)
  }

  /** Entry i of the authentication list is the first to stop NewAuthentication, with this outcome. */
  ghost predicate AuthenticationStopsAt(r: Role, i: nat, outcome: Outcome)
    requires r.authentication.Some?
  {
    var auths := r.authentication.value;
    && i < |auths| && Auth.PassesUpTo(r.lib.lookup, auths, i)
    && match Auth.Stop(r.lib.lookup, auths, i)
       case Some(Error(error)) => outcome == Failed(AuthenticationFailed(error))
       case Some(Panic) => outcome == Panicked
       case _ => false
  }

  ghost predicate AuthenticationFails(r: Role, outcome: Outcome) {
    if r.authentication.None? then outcome == Panicked else exists i: nat :: AuthenticationStopsAt(r, i, outcome)
  }

  /** How a role group fails: the first of the two merges and the authentication that does not succeed. */
  ghost predicate GroupFails(r: Role, g: RoleGroupContent, outcome: Outcome) {
    match r.lib.mergeConfig(r.spec.config, g.config)
    case Failure(message) => outcome == Failed(MergeFailed(message))
    case Success(_) =>
      match r.lib.mergeOverrides(r.spec.overrides, g.overrides)
      case Failure(message) => outcome == Failed(MergeFailed(message))
      case Success(_) => AuthenticationFails(r, outcome)
  }

  lemma {:induction false} FirstStop(r: Role, n: nat) returns (i: nat)
    requires r.authentication.Some? && n <= |r.authentication.value|
    requires !Auth.PassesUpTo(r.lib.lookup, r.authentication.value, n)
    ensures i < n && Auth.PassesUpTo(r.lib.lookup, r.authentication.value, i)
    ensures Auth.Stop(r.lib.lookup, r.authentication.value, i).Some?
    decreases n
  {
    if Auth.PassesUpTo(r.lib.lookup, r.authentication.value, n - 1) {
      i := n - 1;
    } else {
      i := FirstStop(r, n - 1);
    }
  }

  /** A role group either succeeds, or fails in exactly one way: the merge of the configurations comes first,
      then that of the overrides, then the authentication. */
  lemma GroupOutcomeIsDetermined(r: Role, g: RoleGroupContent) returns (outcome: Outcome)
    ensures
      var config := r.lib.mergeConfig(r.spec.config, g.config);
      var overrides := r.lib.mergeOverrides(r.spec.overrides, g.overrides);
      if config.Failure? then outcome == Failed(MergeFailed(config.error))
      else if overrides.Failure? then outcome == Failed(MergeFailed(overrides.error))
      else if r.authentication.None? then outcome == Panicked
      else outcome == Registered || outcome == Panicked || (outcome.Failed? && outcome.cause.AuthenticationFailed?)
    ensures outcome.Registered? <==> GroupSucceeds(r, g)
    ensures forall o :: GroupFails(r, g, o) <==> o == outcome && outcome != Registered
  {
    var config := r.lib.mergeConfig(r.spec.config, g.config);
    var overrides := r.lib.mergeOverrides(r.spec.overrides, g.overrides);
    if config.Failure? {
      outcome := Failed(MergeFailed(config.error));
    } else if overrides.Failure? {
      outcome := Failed(MergeFailed(overrides.error));
    } else if r.authentication.None? {
      outcome := Panicked;
    } else {
      outcome := AuthenticationOutcome(r);
    }
  }

  lemma AuthenticationOutcome(r: Role) returns (outcome: Outcome)
    requires r.authentication.Some?
    ensures outcome.Registered? <==>
              Auth.PassesUpTo(r.lib.lookup, r.authentication.value, |r.authentication.value|)
    ensures outcome == Registered || outcome == Panicked || (outcome.Failed? && outcome.cause.AuthenticationFailed?)
    ensures forall o :: AuthenticationFails(r, o) <==> o == outcome && outcome != Registered
  {
    var lookup, auths := r.lib.lookup, r.authentication.value;
    if Auth.PassesUpTo(lookup, auths, |auths|) {
      outcome := Registered;
    } else {
      var i := FirstStop(r, |auths|);
      var stop := Auth.Stop(lookup, auths, i).value;
      outcome := if stop.Panic? then Panicked else Failed(AuthenticationFailed(stop.error));
      assert AuthenticationStopsAt(r, i, outcome);
      forall o, j: nat | AuthenticationStopsAt(r, j, o)
        ensures j == i && o == outcome
      {
      }
    }
  }

  /** If only one group of a role cannot register, the outcome does not depend on the order of the groups. */
  lemma LoneFailureDecides(r: Role, bad: string, name: string, name': string, outcome: Outcome, outcome': Outcome)
    requires forall n :: n in r.spec.roleGroups && n != bad ==> GroupSucceeds(r, r.spec.roleGroups[n])
    requires name in r.spec.roleGroups && GroupFails(r, r.spec.roleGroups[name], outcome)
    requires name' in r.spec.roleGroups && GroupFails(r, r.spec.roleGroups[name'], outcome')
    ensures name == name' == bad && outcome == outcome' != Registered
  {
    var _ := GroupOutcomeIsDetermined(r, r.spec.roleGroups[name]);
    var _ := GroupOutcomeIsDetermined(r, r.spec.roleGroups[name']);
  }

  function ResourcesPerGroup(role: string): nat {
    if role == WEBSERVERS then 4 else 3
  }

  function MakeResources(
    cluster: string, role: string, group: string, replicas: Option<int>, config: Option<ConfigContent>,
    overrides: Option<OverridesContent>): (resources: seq<Resource>)
    ensures |resources| == ResourcesPerGroup(role)
  {
    var name := FullName(cluster, role, group);
    var configMap := Resource(ConfigMap, name, role, group, Configuration(config));
    var statefulSet := Resource(StatefulSet, name, role, group, Workload(replicas, config, overrides));
    var metricsService := Resource(Service, name, role, group, MetricsService(9102));
    if role == WEBSERVERS then
      [configMap, statefulSet, Resource(Service, name, role, group, PlainService(PORTS)), metricsService]
    else
      [configMap, statefulSet, metricsService]
  }

  function GroupResources(r: Role, group: string): (resources: seq<Resource>)
    requires group in r.spec.roleGroups
    ensures |resources| == ResourcesPerGroup(r.name)
  {
    var g := r.spec.roleGroups[group];
    var config := r.lib.mergeConfig(r.spec.config, g.config);
    var overrides := r.lib.mergeOverrides(r.spec.overrides, g.overrides);
    MakeResources(r.cluster, r.name, group, g.replicas,
                  if config.Success? then config.value else None,
                  if overrides.Success? then overrides.value else None)
  }

  predicate Known(r: Role, order: seq<string>) {
    forall n :: n in order ==> n in r.spec.roleGroups
  }

  function RoleResources(r: Role, order: seq<string>): seq<Resource>
    requires Known(r, order)
  {
    if order == [] then []
    else RoleResources(r, order[..|order| - 1]) + GroupResources(r, order[|order| - 1])
  }

  ghost predicate NoDuplicates(order: seq<string>) {
    forall i, j :: 0 <= i < j < |order| ==> order[i] != order[j]
  }

  ghost predicate Enumerates(order: seq<string>, names: set<string>) {
    NoDuplicates(order) && forall n :: n in order <==> n in names
  }

  // ---------- Contents ----------

  /** What the resources of one kind for one role group contain, in order. */
  ghost function Contents(resources: seq<Resource>, role: string, group: string, kind: Kind): seq<Content> {
    if resources == [] then []
    else
      var rest, last := resources[..|resources| - 1], resources[|resources| - 1];
      Contents(rest, role, group, kind) + ContentFor(last, role, group, kind)
  }

  ghost function ContentFor(x: Resource, role: string, group: string, kind: Kind): seq<Content> {
    if x.role == role && x.group == group && x.kind == kind then [x.content] else []
  }

  /** Among the resources, a role group has one ConfigMap with the configurations of role and group merged, one
      StatefulSet with the group's own replicas and both merges, and a metrics Service on the port of that
      name, which for a webserver follows a plain Service with all ports. */
  ghost predicate Serves(resources: seq<Resource>, r: Role, group: string) {
    && group in r.spec.roleGroups
    && var g := r.spec.roleGroups[group];
       var config := r.lib.mergeConfig(r.spec.config, g.config);
       var overrides := r.lib.mergeOverrides(r.spec.overrides, g.overrides);
    && config.Success? && overrides.Success?
    && Contents(resources, r.name, group, ConfigMap) == [Configuration(config.value)]
    && Contents(resources, r.name, group, StatefulSet) == [Workload(g.replicas, config.value, overrides.value)]
    && Contents(resources, r.name, group, Service) ==
         (if r.name == "webservers" then [PlainService([ContainerPort("http", 8080), ContainerPort("metrics", 9102)])]
          else [])
         + [MetricsService(9102)]
  }

  /** Every resource is for a group in the list and has the name `cluster-role-group`. */
  ghost predicate OnlyFor(resources: seq<Resource>, r: Role, order: seq<string>) {
    forall x :: x in resources ==>
      x.role == r.name && x.group in order && x.name == r.cluster + "-" + r.name + "-" + x.group
  }

  ghost predicate RoleIsServed(resources: seq<Resource>, r: Role, order: seq<string>) {
    OnlyFor(resources, r, order) && forall n :: n in order ==> Serves(resources, r, n)
  }

  lemma {:induction false} ContentsOfConcat(
    a: seq<Resource>, b: seq<Resource>, role: string, group: string, kind: Kind)
    ensures Contents(a + b, role, group, kind) == Contents(a, role, group, kind) + Contents(b, role, group, kind)
  {
    if b == [] {
      assert a + b == a;
    } else {
      var front := b[..|b| - 1];
      ContentsOfConcat(a, front, role, group, kind);
      assert (a + b)[..|a + b| - 1] == a + front;
      ConcatIsAssociative(Contents(a, role, group, kind), Contents(front, role, group, kind),
                          ContentFor(b[|b| - 1], role, group, kind));
    }
  }

  lemma ConcatIsAssociative(a: seq<Content>, b: seq<Content>, c: seq<Content>)
    ensures (a + b) + c == a + (b + c)
  {
  }

  lemma {:induction false} NoContents(resources: seq<Resource>, role: string, group: string, kind: Kind)
    requires forall x :: x in resources ==> x.role != role || x.group != group
    ensures Contents(resources, role, group, kind) == []
  {
    if resources != [] {
      NoContents(resources[..|resources| - 1], role, group, kind);
    }
  }

  lemma GroupServes(r: Role, group: string)
    requires group in r.spec.roleGroups && GroupSucceeds(r, r.spec.roleGroups[group])
    ensures Serves(GroupResources(r, group), r, group)
    ensures OnlyFor(GroupResources(r, group), r, [group])
  {
    var made := GroupResources(r, group);
    FewContents(made, r.name, group, ConfigMap);
    FewContents(made, r.name, group, StatefulSet);
    FewContents(made, r.name, group, Service);
    GroupContents(r, group);
  }

  lemma GroupContents(r: Role, group: string)
    requires group in r.spec.roleGroups && GroupSucceeds(r, r.spec.roleGroups[group])
    ensures
      var g, made := r.spec.roleGroups[group], GroupResources(r, group);
      var config := r.lib.mergeConfig(r.spec.config, g.config).value;
      var overrides := r.lib.mergeOverrides(r.spec.overrides, g.overrides).value;
      && ContentsOfFew(made, ConfigMap) == [Configuration(config)]
      && ContentsOfFew(made, StatefulSet) == [Workload(g.replicas, config, overrides)]
      && ContentsOfFew(made, Service) ==
           (if r.name == WEBSERVERS then [PlainService(PORTS)] else []) + [MetricsService(9102)]
  {
  }

  ghost function ContentOf(x: Resource, kind: Kind): seq<Content> {
    if x.kind == kind then [x.content] else []
  }

  // The same for the few resources of one group.
  ghost function ContentsOfFew(made: seq<Resource>, kind: Kind): seq<Content>
    requires 3 <= |made| <= 4
  {
    var three := ContentOf(made[0], kind) + ContentOf(made[1], kind) + ContentOf(made[2], kind);
    if |made| == 4 then three + ContentOf(made[3], kind) else three
  }

  lemma FewContents(made: seq<Resource>, role: string, group: string, kind: Kind)
    requires 3 <= |made| <= 4 && forall x :: x in made ==> x.role == role && x.group == group
    ensures Contents(made, role, group, kind) == ContentsOfFew(made, kind)
  {
    ThreeContents(made, role, group, kind);
    if |made| == 4 {
      ContentsStep(made, 3, role, group, kind);
      assert made[..4] == made;
    } else {
      assert made[..3] == made;
    }
  }

  lemma ThreeContents(made: seq<Resource>, role: string, group: string, kind: Kind)
    requires 3 <= |made| && forall x :: x in made ==> x.role == role && x.group == group
    ensures Contents(made[..3], role, group, kind)
         == ContentOf(made[0], kind) + ContentOf(made[1], kind) + ContentOf(made[2], kind)
  {
    ContentsStep(made, 0, role, group, kind);
    ContentsStep(made, 1, role, group, kind);
    ContentsStep(made, 2, role, group, kind);
    assert Contents(made[..0], role, group, kind) == [];
    assert [] + ContentOf(made[0], kind) == ContentOf(made[0], kind);
  }

  lemma ContentsStep(made: seq<Resource>, i: nat, role: string, group: string, kind: Kind)
    requires i < |made| && made[i].role == role && made[i].group == group
    ensures Contents(made[..i + 1], role, group, kind)
         == Contents(made[..i], role, group, kind) + ContentOf(made[i], kind)
  {
    assert made[..i + 1][..i] == made[..i];
  }

  lemma ServesWithin(before: seq<Resource>, made: seq<Resource>, after: seq<Resource>, r: Role, group: string)
    requires Serves(made, r, group)
    requires forall x :: x in before || x in after ==> x.role != r.name || x.group != group
    ensures Serves(before + made + after, r, group)
  {
    forall kind
      ensures Contents(before + made + after, r.name, group, kind) == Contents(made, r.name, group, kind)
    {
      NoContents(before, r.name, group, kind);
      NoContents(after, r.name, group, kind);
      ContentsOfConcat(before, made, r.name, group, kind);
      ContentsOfConcat(before + made, after, r.name, group, kind);
    }
  }

  /** Whatever order a role's groups are taken in, each of them is served, and nothing else is registered. */
  lemma {:induction false} RoleServesEveryGroup(r: Role, order: seq<string>)
    requires Known(r, order) && NoDuplicates(order)
    requires forall n :: n in order ==> GroupSucceeds(r, r.spec.roleGroups[n])
    ensures RoleIsServed(RoleResources(r, order), r, order)
  {
    if order != [] {
      var front, last := order[..|order| - 1], order[|order| - 1];
      RoleServesEveryGroup(r, front);
      GroupServes(r, last);
      GroupIsAdded(RoleResources(r, front), GroupResources(r, last), r, front, last);
      assert order == front + [last];
    }
  }

  lemma GroupIsAdded(a: seq<Resource>, b: seq<Resource>, r: Role, front: seq<string>, last: string)
    requires RoleIsServed(a, r, front) && Serves(b, r, last) && OnlyFor(b, r, [last]) && last !in front
    ensures RoleIsServed(a + b, r, front + [last])
  {
    assert a + b + [] == a + b == [] + a + b;
    ServesWithin(a, b, [], r, last);
    forall n | n in front
      ensures Serves(a + b, r, n)
    {
      ServesWithin([], a, b, r, n);
    }
  }

  // ---------- The role reconcilers ----------

  /** GetServiceReconciler: the port of the first entry named "metrics"; None stands for nil. */
  method FindMetricsPort(ports: seq<ContainerPort>) returns (port: Option<int>)
    ensures port.Some? <==>
              exists i :: 0 <= i < |ports| && ports[i].name == "metrics" && ports[i].port > 0
                && forall j :: 0 <= j < i ==> ports[j].name != "metrics"
    ensures port.Some? ==>
              exists i :: 0 <= i < |ports| && ports[i] == ContainerPort("metrics", port.value)
                && forall j :: 0 <= j < i ==> ports[j].name != "metrics"
  {
    var metricsPort := 0;
    for i := 0 to |ports|
      invariant metricsPort == 0
      invariant forall j :: 0 <= j < i ==> ports[j].name != "metrics"
    {
      if ports[i].name == "metrics" {
        metricsPort := ports[i].port;
        return if metricsPort > 0 then Some(metricsPort) else None;
      }
    }
    return None;
  }

  class RoleReconciler {
    const role: Role
    var resources: seq<Resource>

    constructor (role: Role)
      ensures this.role == role && resources == []
    {
      this.role := role;
      resources := [];
    }

    method AddResource(resource: Resource)
      modifies this
      ensures resources == old(resources) + [resource]
    {
      resources := resources + [resource];
    }

    method AddResources(made: seq<Resource>)
      modifies this
      ensures resources == old(resources) + made
    {
      for i := 0 to |made|
        invariant resources == old(resources) + made[..i]
      {
        AddResource(made[i]);
      }
      assert made[..|made|] == made;
    }

    method RegisterResourceWithRoleGroup(
      group: string, replicas: Option<int>, config: Option<ConfigContent>, overrides: Option<OverridesContent>)
      returns (outcome: Outcome, made: seq<Resource>)
      ensures outcome.Registered? <==>
                role.authentication.Some?
                && Auth.PassesUpTo(role.lib.lookup, role.authentication.value, |role.authentication.value|)
      ensures !outcome.Registered? ==> AuthenticationFails(role, outcome)
      ensures outcome.Registered? ==> made == MakeResources(role.cluster, role.name, group, replicas, config, overrides)
    {
      made := [];
      if role.authentication.None? {
        return Panicked, [];
      }
      if |role.authentication.value| > 0 {
        var auth := Auth.New(role.lib.lookup, role.authentication.value);
        if !auth.Ok? {
          outcome := if auth.Panic? then Panicked else Failed(AuthenticationFailed(auth.error));
          ghost var auths := role.authentication.value;
          ghost var i: nat :| i < |auths| && Auth.PassesUpTo(role.lib.lookup, auths, i)
            && Auth.Stop(role.lib.lookup, auths, i)
               == Some(if auth.Panic? then Types.Panic else Types.Error(auth.error));
          assert AuthenticationStopsAt(role, i, outcome);
          return;
        }
      }
      var name := FullName(role.cluster, role.name, group);
      made := [Resource(ConfigMap, name, role.name, group, Configuration(config)),
               Resource(StatefulSet, name, role.name, group, Workload(replicas, config, overrides))];
      if role.name == WEBSERVERS {
        made := made + [Resource(Service, name, role.name, group, PlainService(PORTS))];
      }
      var metricsPort := FindMetricsPort(PORTS);
      assert PORTS[1].name == "metrics" && PORTS[0].name != "metrics";
      made := made + [Resource(Service, name, role.name, group, MetricsService(metricsPort.value))];
      outcome := Registered;
    }

    // The loop over the role groups.
    method RegisterGroups() returns (outcome: Outcome, ghost order: seq<string>)
      modifies this
      ensures Known(role, order) && NoDuplicates(order)
      ensures resources == old(resources) + RoleResources(role, order)
      ensures forall n :: n in order ==> GroupSucceeds(role, role.spec.roleGroups[n])
      ensures outcome.Registered? <==>
                forall n :: n in role.spec.roleGroups ==> GroupSucceeds(role, role.spec.roleGroups[n])
      ensures outcome.Registered? <==> Enumerates(order, role.spec.roleGroups.Keys)
      ensures !outcome.Registered? ==>
                exists n :: n in role.spec.roleGroups && n !in order
                  && GroupFails(role, role.spec.roleGroups[n], outcome)
    {
      order := [];
      var names := role.spec.roleGroups.Keys;
      while names != {}
        invariant names <= role.spec.roleGroups.Keys
        invariant Known(role, order) && NoDuplicates(order)
        invariant forall n :: n in order <==> n in role.spec.roleGroups.Keys && n !in names
        invariant forall n :: n in order ==> GroupSucceeds(role, role.spec.roleGroups[n])
        invariant resources == old(resources) + RoleResources(role, order)
      {
        var name :| name in names;
        var roleGroup := role.spec.roleGroups[name];
        var config := role.lib.mergeConfig(role.spec.config, roleGroup.config);
        if config.Failure? {
          return Failed(MergeFailed(config.error)), order;
        }
        var overrides := role.lib.mergeOverrides(role.spec.overrides, roleGroup.overrides);
        if overrides.Failure? {
          return Failed(MergeFailed(overrides.error)), order;
        }
        var made;
        outcome, made := RegisterResourceWithRoleGroup(name, roleGroup.replicas, config.value, overrides.value);
        if !outcome.Registered? {
          return outcome, order;
        }
        AddResources(made);
        assert made == GroupResources(role, name);
        assert (order + [name])[..|order|] == order;
        order := order + [name];
        names := names - {name};
      }
      outcome := Registered;
    }

    /** Adds the resources of the groups in some order, up to the first group that fails; `order` names the
        groups that were added, each of which is served.  Whether it succeeds does not depend on the order. */
    method RegisterResources() returns (outcome: Outcome, ghost order: seq<string>)
      modifies this
      ensures Known(role, order) && NoDuplicates(order)
      ensures resources == old(resources) + RoleResources(role, order)
      ensures RoleIsServed(RoleResources(role, order), role, order)
      ensures outcome.Registered? <==>
                forall n :: n in role.spec.roleGroups ==> GroupSucceeds(role, role.spec.roleGroups[n])
      ensures outcome.Registered? <==> Enumerates(order, role.spec.roleGroups.Keys)
      ensures !outcome.Registered? ==>
                exists n :: n in role.spec.roleGroups && n !in order
                  && GroupFails(role, role.spec.roleGroups[n], outcome)
    {
      outcome, order := RegisterGroups();
      RoleServesEveryGroup(role, order);
    }
  }

  // ---------- The cluster reconciler ----------

  datatype ClusterSpec = ClusterSpec(
    hasImage: bool, authentication: Option<seq<Types.AuthenticationEntry>>,
    celeryExecutors: Option<RoleContent>, schedulers: Option<RoleContent>, webservers: Option<RoleContent>)

  ghost predicate RoleSucceeds(
    cluster: string, lib: Library, spec: ClusterSpec, name: string, role: Option<RoleContent>)
  {
    && role.Some?
    && var r := Role(cluster, name, role.value, spec.authentication, lib);
       forall n :: n in role.value.roleGroups ==> GroupSucceeds(r, role.value.roleGroups[n])
  }

  /** How a role fails: a missing image or spec is dereferenced, or one of its groups fails. */
  ghost predicate RoleFails(
    cluster: string, lib: Library, spec: ClusterSpec, name: string, role: Option<RoleContent>, outcome: Outcome)
  {
    if !spec.hasImage || role.None? then outcome == Panicked
    else
      var r := Role(cluster, name, role.value, spec.authentication, lib);
      exists n :: n in role.value.roleGroups && GroupFails(r, role.value.roleGroups[n], outcome)
  }

  ghost predicate ClusterSucceeds(cluster: string, lib: Library, spec: ClusterSpec) {
    && spec.hasImage
    && RoleSucceeds(cluster, lib, spec, CELERY_EXECUTORS, spec.celeryExecutors)
    && RoleSucceeds(cluster, lib, spec, SCHEDULERS, spec.schedulers)
    && RoleSucceeds(cluster, lib, spec, WEBSERVERS, spec.webservers)
  }

  /** The order in which each role's groups were taken. */
  datatype Orders = Orders(celery: seq<string>, schedulers: seq<string>, webservers: seq<string>)

  class ClusterReconciler {
    const cluster: string
    const spec: ClusterSpec
    const lib: Library
    var roles: seq<RoleReconciler>

    constructor (cluster: string, spec: ClusterSpec, lib: Library)
      ensures this.cluster == cluster && this.spec == spec && this.lib == lib && roles == []
    {
      this.cluster, this.spec, this.lib := cluster, spec, lib;
      roles := [];
    }

    // One of the three parts of RegisterResource.
    method RegisterRole(name: string, role: Option<RoleContent>) returns (outcome: Outcome, ghost order: seq<string>)
      modifies this
      ensures outcome.Registered? <==> spec.hasImage && RoleSucceeds(cluster, lib, spec, name, role)
      ensures outcome.Registered? ==>
                var r := Role(cluster, name, role.value, spec.authentication, lib);
                && |roles| == |old(roles)| + 1 && roles[..|roles| - 1] == old(roles)
                && fresh(roles[|roles| - 1]) && Enumerates(order, role.value.roleGroups.Keys) && Known(r, order)
                && roles[|roles| - 1].resources == RoleResources(r, order)
                && RoleIsServed(RoleResources(r, order), r, order)
      ensures !outcome.Registered? ==> roles == old(roles) && RoleFails(cluster, lib, spec, name, role, outcome)
    {
      order := [];
      if !spec.hasImage || role.None? {
        return Panicked, order;
      }
      var reconciler := new RoleReconciler(Role(cluster, name, role.value, spec.authentication, lib));
      outcome, order := reconciler.RegisterResources();
      if outcome.Registered? {
        roles := roles + [reconciler];
      }
    }

    /** Celery executors, schedulers and webservers, in this order, with an early return on failure. */
    method RegisterResource() returns (outcome: Outcome, ghost orders: Orders)
      requires roles == []
      modifies this
      ensures outcome.Registered? <==> ClusterSucceeds(cluster, lib, spec)
      ensures !outcome.Registered? ==> |roles| < 3
      ensures !outcome.Registered? && |roles| == 0 ==>
                RoleFails(cluster, lib, spec, CELERY_EXECUTORS, spec.celeryExecutors, outcome)
      ensures !outcome.Registered? && |roles| == 1 ==>
                RoleFails(cluster, lib, spec, SCHEDULERS, spec.schedulers, outcome)
      ensures !outcome.Registered? && |roles| == 2 ==>
                RoleFails(cluster, lib, spec, WEBSERVERS, spec.webservers, outcome)
      ensures outcome.Registered? ==>
                && |roles| == 3 && OrdersFit(cluster, lib, spec, orders)
                && roles[0].resources + roles[1].resources + roles[2].resources
                   == ClusterResources(cluster, lib, spec, orders)
                && ClusterIsServed(ClusterResources(cluster, lib, spec, orders), cluster, lib, spec)
    {
      orders := Orders([], [], []);
      ghost var celery, schedulers, webservers;
      outcome, celery := RegisterRole(CELERY_EXECUTORS, spec.celeryExecutors);
      if !outcome.Registered? {
        return;
      }
      outcome, schedulers := RegisterRole(SCHEDULERS, spec.schedulers);
      if !outcome.Registered? {
        return;
      }
      outcome, webservers := RegisterRole(WEBSERVERS, spec.webservers);
      orders := Orders(celery, schedulers, webservers);
      if outcome.Registered? {
        ClusterServesEveryGroup(cluster, lib, spec, orders);
      }
    }

    /** The end of Reconcile: Run is reached only with every group of every role registered. */
    method Reconcile() returns (ran: bool, ghost orders: Orders)
      requires roles == []
      modifies this
      ensures ran <==> ClusterSucceeds(cluster, lib, spec)
      ensures ran ==>
                && |roles| == 3 && OrdersFit(cluster, lib, spec, orders)
                && roles[0].resources + roles[1].resources + roles[2].resources
                   == ClusterResources(cluster, lib, spec, orders)
                && ClusterIsServed(ClusterResources(cluster, lib, spec, orders), cluster, lib, spec)
    {
      var outcome;
      outcome, orders := RegisterResource();
      ran := outcome.Registered?;
    }
  }

  function CeleryRole(cluster: string, lib: Library, spec: ClusterSpec): Role
    requires spec.celeryExecutors.Some?
  {
    Role(cluster, CELERY_EXECUTORS, spec.celeryExecutors.value, spec.authentication, lib)
  }

  function SchedulersRole(cluster: string, lib: Library, spec: ClusterSpec): Role
    requires spec.schedulers.Some?
  {
    Role(cluster, SCHEDULERS, spec.schedulers.value, spec.authentication, lib)
  }

  function WebserversRole(cluster: string, lib: Library, spec: ClusterSpec): Role
    requires spec.webservers.Some?
  {
    Role(cluster, WEBSERVERS, spec.webservers.value, spec.authentication, lib)
  }

  /** One order of the groups for each role. */
  ghost predicate OrdersFit(cluster: string, lib: Library, spec: ClusterSpec, orders: Orders) {
    && spec.celeryExecutors.Some? && spec.schedulers.Some? && spec.webservers.Some?
    && Enumerates(orders.celery, spec.celeryExecutors.value.roleGroups.Keys)
    && Enumerates(orders.schedulers, spec.schedulers.value.roleGroups.Keys)
    && Enumerates(orders.webservers, spec.webservers.value.roleGroups.Keys)
    && Known(CeleryRole(cluster, lib, spec), orders.celery)
    && Known(SchedulersRole(cluster, lib, spec), orders.schedulers)
    && Known(WebserversRole(cluster, lib, spec), orders.webservers)
  }

  ghost function ClusterResources(
    cluster: string, lib: Library, spec: ClusterSpec, orders: Orders): seq<Resource>
    requires OrdersFit(cluster, lib, spec, orders)
  {
    RoleResources(CeleryRole(cluster, lib, spec), orders.celery)
    + RoleResources(SchedulersRole(cluster, lib, spec), orders.schedulers)
    + RoleResources(WebserversRole(cluster, lib, spec), orders.webservers)
  }

  /** Every group of every role is served. */
  ghost predicate ClusterIsServed(resources: seq<Resource>, cluster: string, lib: Library, spec: ClusterSpec) {
    && spec.celeryExecutors.Some? && spec.schedulers.Some? && spec.webservers.Some?
    && (forall n :: n in spec.celeryExecutors.value.roleGroups ==>
          Serves(resources, Role(cluster, "celeryexecutors", spec.celeryExecutors.value, spec.authentication, lib), n))
    && (forall n :: n in spec.schedulers.value.roleGroups ==>
          Serves(resources, Role(cluster, "schedulers", spec.schedulers.value, spec.authentication, lib), n))
    && (forall n :: n in spec.webservers.value.roleGroups ==>
          Serves(resources, Role(cluster, "webservers", spec.webservers.value, spec.authentication, lib), n))
  }

  lemma ClusterServesEveryGroup(cluster: string, lib: Library, spec: ClusterSpec, orders: Orders)
    requires OrdersFit(cluster, lib, spec, orders) && ClusterSucceeds(cluster, lib, spec)
    ensures ClusterIsServed(ClusterResources(cluster, lib, spec, orders), cluster, lib, spec)
  {
    var celery := CeleryRole(cluster, lib, spec);
    var schedulers := SchedulersRole(cluster, lib, spec);
    var webservers := WebserversRole(cluster, lib, spec);
    RoleServesEveryGroup(celery, orders.celery);
    RoleServesEveryGroup(schedulers, orders.schedulers);
    RoleServesEveryGroup(webservers, orders.webservers);
    assert CELERY_EXECUTORS[0] == 'c' && SCHEDULERS[0] == 's' && WEBSERVERS[0] == 'w';
    ServedTogether(
      RoleResources(celery, orders.celery), celery, orders.celery,
      RoleResources(schedulers, orders.schedulers), schedulers, orders.schedulers,
      RoleResources(webservers, orders.webservers), webservers, orders.webservers);
  }

  lemma ServedTogether(
    a: seq<Resource>, ra: Role, oa: seq<string>, b: seq<Resource>, rb: Role, ob: seq<string>,
    c: seq<Resource>, rc: Role, oc: seq<string>)
    requires RoleIsServed(a, ra, oa) && RoleIsServed(b, rb, ob) && RoleIsServed(c, rc, oc)
    requires ra.name != rb.name && ra.name != rc.name && rb.name != rc.name
    ensures forall n :: n in oa ==> Serves(a + b + c, ra, n)
    ensures forall n :: n in ob ==> Serves(a + b + c, rb, n)
    ensures forall n :: n in oc ==> Serves(a + b + c, rc, n)
  {
    RoleIsServedWithin([], a, b + c, ra, oa);
    RoleIsServedWithin(a, b, c, rb, ob);
    RoleIsServedWithin(a + b, c, [], rc, oc);
    assert a + b + c == [] + a + (b + c) == (a + b) + c + [];
  }

  lemma RoleIsServedWithin(
    before: seq<Resource>, made: seq<Resource>, after: seq<Resource>, r: Role, order: seq<string>)
    requires RoleIsServed(made, r, order)
    requires forall x :: x in before || x in after ==> x.role != r.name
    ensures forall n :: n in order ==> Serves(before + made + after, r, n)
  {
    forall n | n in order
      ensures Serves(before + made + after, r, n)
    {
      ServesWithin(before, made, after, r, n);
    }
  }

  // ---------- Counts ----------

  lemma {:induction false} RoleCount(r: Role, order: seq<string>)
    requires Known(r, order)
    ensures |RoleResources(r, order)| == ResourcesPerGroup(r.name) * |order|
  {
    if order != [] {
      RoleCount(r, order[..|order| - 1]);
    }
  }

  lemma {:induction false} EnumerationSize(order: seq<string>, names: set<string>)
    requires Enumerates(order, names)
    ensures |order| == |names|
  {
    if order == [] {
      assert names == {};
    } else {
      var last := order[|order| - 1];
      var front := order[..|order| - 1];
      forall n
        ensures n in front <==> n in names - {last}
      {
        assert order == front + [last];
      }
      EnumerationSize(front, names - {last});
    }
  }

  /** Three resources per celery and scheduler group, four per webserver group. */
  lemma ResourceCount(cluster: string, lib: Library, spec: ClusterSpec, orders: Orders)
    requires OrdersFit(cluster, lib, spec, orders)
    ensures |ClusterResources(cluster, lib, spec, orders)| ==
              3 * |spec.celeryExecutors.value.roleGroups| + 3 * |spec.schedulers.value.roleGroups|
              + 4 * |spec.webservers.value.roleGroups|
  {
    RoleCount(CeleryRole(cluster, lib, spec), orders.celery);
    RoleCount(SchedulersRole(cluster, lib, spec), orders.schedulers);
    RoleCount(WebserversRole(cluster, lib, spec), orders.webservers);
    EnumerationSize(orders.celery, spec.celeryExecutors.value.roleGroups.Keys);
    EnumerationSize(orders.schedulers, spec.schedulers.value.roleGroups.Keys);
    EnumerationSize(orders.webservers, spec.webservers.value.roleGroups.Keys);
  }

  // ---------- Keys ----------

  /** A resource's own name, role and group fit together. */
  ghost predicate Named(cluster: string, role: string, x: Resource) {
    x.role == role && x.name == FullName(cluster, role, x.group)
  }

  /** Two resources with one key: a webserver group's plain Service and the metrics Service right after it. */
  ghost predicate ServicePair(x: Resource, y: Resource) {
    && x.role == y.role == WEBSERVERS && x.group == y.group && x.name == y.name
    && x.kind == y.kind == Service && x.content.PlainService? && y.content.MetricsService?
  }

  /** Keys collide only in such pairs, and those are adjacent. */
  ghost predicate OnlyServicePairs(resources: seq<Resource>) {
    forall i, j :: 0 <= i < j < |resources| && resources[i].Key() == resources[j].Key() ==>
      j == i + 1 && ServicePair(resources[i], resources[j])
  }

  lemma GroupKeys(r: Role, group: string)
    requires group in r.spec.roleGroups
    ensures
      var made := GroupResources(r, group);
      && OnlyServicePairs(made)
      && (forall i :: 0 <= i < |made| ==> Named(r.cluster, r.name, made[i]) && made[i].group == group)
      && (r.name == WEBSERVERS ==> ServicePair(made[2], made[3]) && made[2].Key() == made[3].Key())
  {
  }

  lemma {:induction false} RoleKeys(r: Role, order: seq<string>)
    requires Known(r, order) && NoDuplicates(order) && '-' !in r.name
    ensures
      var resources := RoleResources(r, order);
      && OnlyServicePairs(resources)
      && (forall i :: 0 <= i < |resources| ==> Named(r.cluster, r.name, resources[i]) && resources[i].group in order)
  {
    if order != [] {
      var front, last := order[..|order| - 1], order[|order| - 1];
      RoleKeys(r, front);
      GroupKeys(r, last);
      var a, b := RoleResources(r, front), GroupResources(r, last);
      forall x, y | x in a && y in b
        ensures x.Key() != y.Key()
      {
        assert last !in front;
        FullNameInjective(r.cluster, r.name, x.group, r.name, y.group);
      }
      OnlyPairsOfConcat(a, b);
    }
  }

  lemma OnlyPairsOfConcat(a: seq<Resource>, b: seq<Resource>)
    requires OnlyServicePairs(a) && OnlyServicePairs(b)
    requires forall x, y :: x in a && y in b ==> x.Key() != y.Key()
    ensures OnlyServicePairs(a + b)
  {
    var c := a + b;
    assert forall i :: 0 <= i < |a| ==> c[i] == a[i] && c[i] in a;
    assert forall j :: |a| <= j < |c| ==> c[j] == b[j - |a|] && c[j] in b;
  }

  lemma RolesDoNotCollide(cluster: string, role: string, role': string, a: seq<Resource>, b: seq<Resource>)
    requires '-' !in role && '-' !in role' && role != role'
    requires forall i :: 0 <= i < |a| ==> Named(cluster, role, a[i])
    requires forall i :: 0 <= i < |b| ==> Named(cluster, role', b[i])
    ensures forall x, y :: x in a && y in b ==> x.Key() != y.Key()
  {
    forall x, y | x in a && y in b
      ensures x.Key() != y.Key()
    {
      FullNameInjective(cluster, role, x.group, role', y.group);
    }
  }

  /** Over all roles and groups of a cluster, the keys of the registered resources are distinct, except that
      the metrics Service of a webserver group follows a plain Service of the same key. */
  lemma KeysAreUniqueButForWebserverServices(
    cluster: string, lib: Library, spec: ClusterSpec, orders: Orders)
    requires OrdersFit(cluster, lib, spec, orders)
    ensures OnlyServicePairs(ClusterResources(cluster, lib, spec, orders))
  {
    var celery := CeleryRole(cluster, lib, spec);
    var schedulers := SchedulersRole(cluster, lib, spec);
    var webservers := WebserversRole(cluster, lib, spec);
    RoleKeys(celery, orders.celery);
    RoleKeys(schedulers, orders.schedulers);
    RoleKeys(webservers, orders.webservers);
    var a := RoleResources(celery, orders.celery);
    var b := RoleResources(schedulers, orders.schedulers);
    var c := RoleResources(webservers, orders.webservers);
    assert CELERY_EXECUTORS[0] == 'c' && SCHEDULERS[0] == 's' && WEBSERVERS[0] == 'w';
    RolesDoNotCollide(cluster, CELERY_EXECUTORS, SCHEDULERS, a, b);
    RolesDoNotCollide(cluster, CELERY_EXECUTORS, WEBSERVERS, a, c);
    RolesDoNotCollide(cluster, SCHEDULERS, WEBSERVERS, b, c);
    OnlyPairsOfConcat(a, b);
    OnlyPairsOfConcat(a + b, c);
  }

  ghost predicate PairAt(resources: seq<Resource>, group: string, i: nat) {
    i + 1 < |resources| && resources[i].group == group && ServicePair(resources[i], resources[i + 1])
  }

  /** And every webserver group does have that pair. */
  lemma {:induction false} EveryWebserverGroupHasThePair(r: Role, order: seq<string>, group: string)
    requires Known(r, order) && r.name == WEBSERVERS && group in order
    ensures exists i :: PairAt(RoleResources(r, order), group, i)
  {
    var front, last := order[..|order| - 1], order[|order| - 1];
    var a, b := RoleResources(r, front), GroupResources(r, last);
    var resources := RoleResources(r, order);
    if group == last {
      GroupKeys(r, last);
      var i := |a| + 2;
      assert |b| == 4 && b[2].group == group && resources == a + b;
      assert resources[i] == b[2] && resources[i + 1] == b[3];
      assert PairAt(resources, group, i);
    } else {
      EveryWebserverGroupHasThePair(r, front, group);
      var i :| PairAt(a, group, i);
      assert PairAt(resources, group, i);
    }
  }

  // ---------- Order independence ----------

  lemma {:induction false} RoleResourcesOfConcat(r: Role, a: seq<string>, b: seq<string>)
    requires Known(r, a + b) && Known(r, a) && Known(r, b)
    ensures RoleResources(r, a + b) == RoleResources(r, a) + RoleResources(r, b)
  {
    if b == [] {
      assert a + b == a;
    } else {
      var front := b[..|b| - 1];
      assert (a + b)[..|a + b| - 1] == a + front;
      RoleResourcesOfConcat(r, a, front);
    }
  }

  /** Whatever order the groups of a role are taken in, the same resources come out, each as often. */
  lemma {:induction false} RoleOrderIsIrrelevant(r: Role, order: seq<string>, order': seq<string>, names: set<string>)
    requires Known(r, order) && Known(r, order')
    requires Enumerates(order, names) && Enumerates(order', names)
    ensures multiset(RoleResources(r, order)) == multiset(RoleResources(r, order'))
    decreases |order|
  {
    if order == [] {
      assert forall n :: n in order' ==> n in order;
    } else {
      var last := order[|order| - 1];
      assert last in order && last in order';
      var front, rest := TakeOut(r, order, last, names);
      var a, b := TakeOut(r, order', last, names);
      RoleOrderIsIrrelevant(r, front + rest, a + b, names - {last});
      MoveToEnd(r, front, last, rest);
      MoveToEnd(r, a, last, b);
    }
  }

  lemma TakeOut(r: Role, order: seq<string>, name: string, names: set<string>) returns (a: seq<string>, b: seq<string>)
    requires Known(r, order) && Enumerates(order, names) && name in order
    ensures order == a + [name] + b && Enumerates(a + b, names - {name})
    ensures Known(r, a) && name in r.spec.roleGroups && Known(r, b) && Known(r, a + b)
  {
    var i :| 0 <= i < |order| && order[i] == name;
    a, b := order[..i], order[i + 1..];
    assert order == a + [name] + b;
    RemoveFromEnumeration(a, name, b, names);
    KnownParts(r, a, name, b);
  }

  lemma KnownParts(r: Role, a: seq<string>, name: string, b: seq<string>)
    requires Known(r, a + [name] + b)
    ensures Known(r, a) && name in r.spec.roleGroups && Known(r, b) && Known(r, a + b)
  {
    forall n | n in a + b
      ensures n in r.spec.roleGroups
    {
      assert n in a + [name] + b;
    }
    assert name in a + [name] + b;
    assert forall n :: n in a || n in b ==> n in a + b;
  }

  lemma RemoveFromEnumeration(a: seq<string>, name: string, b: seq<string>, names: set<string>)
    requires Enumerates(a + [name] + b, names)
    ensures Enumerates(a + b, names - {name})
  {
    var order := a + [name] + b;
    assert order[|a|] == name;
    forall i | 0 <= i < |a + b|
      ensures (a + b)[i] == order[if i < |a| then i else i + 1]
    {
    }
    forall n
      ensures n in a + b <==> n in names - {name}
    {
      assert n in order <==> n in a + b || n == name;
    }
  }

  lemma MoveToEnd(r: Role, a: seq<string>, name: string, b: seq<string>)
    requires Known(r, a) && name in r.spec.roleGroups && Known(r, b)
    ensures multiset(RoleResources(r, a + [name] + b)) == multiset(RoleResources(r, a + b) + GroupResources(r, name))
  {
    RoleResourcesOfConcat(r, a, b);
    RoleResourcesOfConcat(r, a, [name]);
    RoleResourcesOfConcat(r, a + [name], b);
    assert RoleResources(r, [name]) == GroupResources(r, name);
  }

  /** Two successful registrations of one cluster register the same resources, each as often. */
  lemma RegistrationIsOrderIndependent(
    cluster: string, lib: Library, spec: ClusterSpec, orders: Orders, orders': Orders)
    requires OrdersFit(cluster, lib, spec, orders) && OrdersFit(cluster, lib, spec, orders')
    ensures multiset(ClusterResources(cluster, lib, spec, orders))
         == multiset(ClusterResources(cluster, lib, spec, orders'))
  {
    var celery := CeleryRole(cluster, lib, spec);
    RoleOrderIsIrrelevant(celery, orders.celery, orders'.celery, celery.spec.roleGroups.Keys);
    var schedulers := SchedulersRole(cluster, lib, spec);
    RoleOrderIsIrrelevant(schedulers, orders.schedulers, orders'.schedulers, schedulers.spec.roleGroups.Keys);
    var webservers := WebserversRole(cluster, lib, spec);
    RoleOrderIsIrrelevant(webservers, orders.webservers, orders'.webservers, webservers.spec.roleGroups.Keys);
  }
}
