/**
 What the deep-copy contracts mean: a struct represents one abstract value only, so a copy that represents
 the source's value equals it field by field; and whatever is then written to the copy leaves the source as
 it was, whatever is written to the source leaves the copy, and whatever is written to one part of the copy
 leaves its other parts.
 */
module DeepCopyProperties {
  import opened Wrappers
  import opened GoMemory
  import opened DeepCopyLibrary
  import opened DeepCopyRole
  import opened DeepCopyClusterConfig
  import opened DeepCopyCluster

  // ---------- One value per struct ----------

  lemma LibValueUnique(x: Lib, v: LibValue, v': LibValue, r: set<object>, r': set<object>)
    requires LibRep(x, v, r, false) && LibRep(x, v', r', false)
    ensures v == v'
  {
    assert LibBody(x, v, r, false) && LibBody(x, v', r', false);
  }

  lemma LibPtrValueUnique(p: Ptr?<Lib>, v: Option<LibValue>, v': Option<LibValue>)
    requires LibPtrRep(p, v, false) && LibPtrRep(p, v', false)
    ensures v == v'
  {
    if p != null {
      assert LibPtrBody(p, v, false) && LibPtrBody(p, v', false);
      LibValueUnique(p.v, v.value, v'.value, p.below, p.below);
    }
  }

  lemma ConfigPtrValueUnique(p: Ptr?<ConfigSpec>, v: Option<ConfigValue>, v': Option<ConfigValue>)
    requires ConfigSpecPtrRep(p, v, false) && ConfigSpecPtrRep(p, v', false)
    ensures v == v'
  {
    if p != null {
      assert ConfigSpecPtrBody(p, v, false) && ConfigSpecPtrBody(p, v', false);
      assert ConfigSpecBody(p.v, v.value, p.below, false) && ConfigSpecBody(p.v, v'.value, p.below, false);
      LibPtrValueUnique(p.v.roleGroupConfigSpec, v.value.roleGroupConfigSpec, v'.value.roleGroupConfigSpec);
    }
  }

  lemma RoleGroupValueUnique(x: RoleGroupSpec, v: RoleGroupValue, v': RoleGroupValue, r: set<object>, r': set<object>)
    requires RoleGroupSpecRep(x, v, r, false) && RoleGroupSpecRep(x, v', r', false)
    ensures v == v'
  {
    assert RoleGroupSpecBody(x, v, r, false) && RoleGroupSpecBody(x, v', r', false);
    ConfigPtrValueUnique(x.config, v.config, v'.config);
    LibPtrValueUnique(x.overridesSpec, v.overridesSpec, v'.overridesSpec);
  }

  lemma RoleGroupsValueUnique(
    m: GoMap?<RoleGroupSpec>, v: Option<map<string, RoleGroupValue>>, v': Option<map<string, RoleGroupValue>>)
    requires RoleGroupsRep(m, v, false) && RoleGroupsRep(m, v', false)
    ensures v == v'
  {
    if m != null {
      assert RoleGroupsBody(m, v, false) && RoleGroupsBody(m, v', false);
      forall k | k in m.m
        ensures v.value[k] == v'.value[k]
      {
        RoleGroupValueUnique(m.m[k], v.value[k], v'.value[k], m.parts[k], m.parts[k]);
      }
      assert v.value == v'.value;
    }
  }

  lemma RolePtrValueUnique(p: Ptr?<RoleSpec>, v: Option<RoleValue>, v': Option<RoleValue>)
    requires RoleSpecPtrRep(p, v, false) && RoleSpecPtrRep(p, v', false)
    ensures v == v'
  {
    if p != null {
      assert RoleSpecPtrBody(p, v, false) && RoleSpecPtrBody(p, v', false);
      var x, a, b := p.v, v.value, v'.value;
      assert RoleSpecBody(x, a, p.below, false) && RoleSpecBody(x, b, p.below, false);
      RoleGroupsValueUnique(x.roleGroups, a.roleGroups, b.roleGroups);
      LibPtrValueUnique(x.roleConfig, a.roleConfig, b.roleConfig);
      ConfigPtrValueUnique(x.config, a.config, b.config);
      LibPtrValueUnique(x.overridesSpec, a.overridesSpec, b.overridesSpec);
    }
  }

  lemma KubernetesPtrValueUnique(
    p: Ptr?<KubernetesExecutorsSpec>, v: Option<KubernetesValue>, v': Option<KubernetesValue>)
    requires KubernetesExecutorsSpecPtrRep(p, v, false) && KubernetesExecutorsSpecPtrRep(p, v', false)
    ensures v == v'
  {
    if p != null {
      assert KubernetesExecutorsSpecPtrBody(p, v, false) && KubernetesExecutorsSpecPtrBody(p, v', false);
      var x, a, b := p.v, v.value, v'.value;
      assert KubernetesExecutorsSpecBody(x, a, p.below, false) && KubernetesExecutorsSpecBody(x, b, p.below, false);
      LibPtrValueUnique(x.roleConfig, a.roleConfig, b.roleConfig);
      ConfigPtrValueUnique(x.config, a.config, b.config);
      LibPtrValueUnique(x.overridesSpec, a.overridesSpec, b.overridesSpec);
      LibPtrValueUnique(x.roleGroupConfigSpec, a.roleGroupConfigSpec, b.roleGroupConfigSpec);
    }
  }

  lemma AuthenticationSliceValueUnique(
    s: Slice?<AuthenticationSpec>, v: Option<seq<AuthenticationValue>>, v': Option<seq<AuthenticationValue>>)
    requires AuthenticationSliceRep(s, v, false) && AuthenticationSliceRep(s, v', false)
    ensures v == v'
  {
    if s != null {
      assert AuthenticationSliceBody(s, v, false) && AuthenticationSliceBody(s, v', false);
      var a := s.a[..];
      forall i | 0 <= i < |a|
        ensures v.value[i] == v'.value[i]
      {
        assert AuthenticationSpecRep(a[i], v.value[i], s.parts[i], false);
        assert AuthenticationSpecRep(a[i], v'.value[i], s.parts[i], false);
        assert AuthenticationSpecBody(a[i], v.value[i], s.parts[i], false);
        assert AuthenticationSpecBody(a[i], v'.value[i], s.parts[i], false);
        LibPtrValueUnique(a[i].oidc, v.value[i].oidc, v'.value[i].oidc);
      }
      assert v.value == v'.value;
    }
  }

  lemma DagsGitSyncSliceValueUnique(
    s: Slice?<DagsGitSyncSpec>, v: Option<seq<DagsGitSyncValue>>, v': Option<seq<DagsGitSyncValue>>)
    requires DagsGitSyncSliceRep(s, v, false) && DagsGitSyncSliceRep(s, v', false)
    ensures v == v'
  {
    if s != null {
      assert DagsGitSyncSliceBody(s, v, false) && DagsGitSyncSliceBody(s, v', false);
      var a := s.a[..];
      forall i | 0 <= i < |a|
        ensures v.value[i] == v'.value[i]
      {
        assert DagsGitSyncSpecRep(a[i], v.value[i], s.parts[i], false);
        assert DagsGitSyncSpecRep(a[i], v'.value[i], s.parts[i], false);
        assert DagsGitSyncSpecBody(a[i], v.value[i], s.parts[i], false);
        assert DagsGitSyncSpecBody(a[i], v'.value[i], s.parts[i], false);
      }
      assert v.value == v'.value;
    }
  }

  lemma RawSliceValueUnique(s: Slice?<Lib>, v: Option<seq<LibValue>>, v': Option<seq<LibValue>>)
    requires RawSliceRep(s, v, false) && RawSliceRep(s, v', false)
    ensures v == v'
  {
    if s != null {
      assert RawSliceBody(s, v, false) && RawSliceBody(s, v', false);
      var a := s.a[..];
      forall i | 0 <= i < |a|
        ensures v.value[i] == v'.value[i]
      {
        LibValueUnique(a[i], v.value[i], v'.value[i], s.parts[i], s.parts[i]);
      }
      assert v.value == v'.value;
    }
  }

  lemma ClusterConfigPtrValueUnique(
    p: Ptr?<ClusterConfigSpec>, v: Option<ClusterConfigValue>, v': Option<ClusterConfigValue>)
    requires ClusterConfigSpecPtrRep(p, v, false) && ClusterConfigSpecPtrRep(p, v', false)
    ensures v == v'
  {
    if p != null {
      assert ClusterConfigSpecPtrBody(p, v, false) && ClusterConfigSpecPtrBody(p, v', false);
      var x, a, b := p.v, v.value, v'.value;
      assert ClusterConfigSpecBody(x, a, p.below, false) && ClusterConfigSpecBody(x, b, p.below, false);
      AuthenticationSliceValueUnique(x.authentication, a.authentication, b.authentication);
      DagsGitSyncSliceValueUnique(x.dagsGitSync, a.dagsGitSync, b.dagsGitSync);
      RawSliceValueUnique(x.volumes, a.volumes, b.volumes);
      RawSliceValueUnique(x.volumeMounts, a.volumeMounts, b.volumeMounts);
    }
  }

  /** The spec of a cluster, however its parts are shared, represents exactly one value. */
  lemma ClusterSpecValueUnique(
    x: AirflowClusterSpec, v: AirflowClusterSpecValue, v': AirflowClusterSpecValue, r: set<object>, r': set<object>)
    requires AirflowClusterSpecRep(x, v, r, false) && AirflowClusterSpecRep(x, v', r', false)
    ensures v == v'
  {
    assert AirflowClusterSpecBody(x, v, r, false) && AirflowClusterSpecBody(x, v', r', false);
    ClusterConfigPtrValueUnique(x.clusterConfig, v.clusterConfig, v'.clusterConfig);
    RolePtrValueUnique(x.celeryExecutors, v.celeryExecutors, v'.celeryExecutors);
    KubernetesPtrValueUnique(x.kubernetesExecutors, v.kubernetesExecutors, v'.kubernetesExecutors);
    RolePtrValueUnique(x.schedulers, v.schedulers, v'.schedulers);
    RolePtrValueUnique(x.webservers, v.webservers, v'.webservers);
  }

  lemma ClusterValueUnique(
    x: AirflowCluster, v: AirflowClusterValue, v': AirflowClusterValue, r: set<object>, r': set<object>)
    requires AirflowClusterRep(x, v, r, false) && AirflowClusterRep(x, v', r', false)
    ensures v == v'
  {
    assert AirflowClusterBody(x, v, r, false) && AirflowClusterBody(x, v', r', false);
    LibValueUnique(x.objectMeta, v.objectMeta, v'.objectMeta, r, r');
    ClusterSpecValueUnique(x.spec, v.spec, v'.spec, r, r');
  }

  /** So does a list of clusters, with its metadata. */
  lemma ClusterListValueUnique(
    x: AirflowClusterList, v: AirflowClusterListValue, v': AirflowClusterListValue, r: set<object>, r': set<object>)
    requires AirflowClusterListRep(x, v, r, false) && AirflowClusterListRep(x, v', r', false)
    ensures v == v'
  {
    assert AirflowClusterListBody(x, v, r, false) && AirflowClusterListBody(x, v', r', false);
    LibValueUnique(x.listMeta, v.listMeta, v'.listMeta, r, r');
    ClusterSliceValueUnique(x.items, v.items, v'.items);
  }

  lemma ClusterSliceValueUnique(
    s: Slice?<AirflowCluster>, v: Option<seq<AirflowClusterValue>>, v': Option<seq<AirflowClusterValue>>)
    requires AirflowClusterSliceRep(s, v, false) && AirflowClusterSliceRep(s, v', false)
    ensures v == v'
  {
    if s != null {
      assert AirflowClusterSliceBody(s, v, false) && AirflowClusterSliceBody(s, v', false);
      var a := s.a[..];
      forall i | 0 <= i < |a|
        ensures v.value[i] == v'.value[i]
      {
        ClusterValueUnique(a[i], v.value[i], v'.value[i], s.parts[i], s.parts[i]);
      }
      assert v.value == v'.value;
    }
  }

  // ---------- Sharing ----------

  /** A role that points to one configuration from two of its groups and from the role itself is a source
      that the copy functions accept. */
  method SharingIsAllowed(config: Ptr<ConfigSpec>, ghost v: ConfigValue, a: string, b: string)
    returns (role: Ptr<RoleSpec>, ghost value: RoleValue)
    requires ConfigSpecPtrRep(config, Some(v), false) && a != b
    ensures RoleSpecPtrRep(role, Some(value), false) && value.roleGroups.Some? && value.config == Some(v)
    ensures
      var groups := role.v.roleGroups;
      groups != null && {a, b} <= groups.m.Keys && role.v.config == groups.m[a].config == groups.m[b].config == config
  {
    var group := RoleGroupSpec(null, config, null);
    ghost var cells := PtrCell(config);
    var groups := new GoMap<RoleGroupSpec>(map[a := group, b := group], map[a := cells, b := cells]);
    role := new Ptr<RoleSpec>();
    role.v := RoleSpec(groups, null, config, null);
    role.below := MapCell(groups) + cells;
    ghost var groupValue := RoleGroupValue(None, Some(v), None);
    value := RoleValue(Some(map[a := groupValue, b := groupValue]), None, Some(v), None);
    assert RoleGroupSpecBody(group, groupValue, cells, false);
    assert RoleGroupsBody(groups, value.roleGroups, false);
    assert RoleSpecBody(role.v, value, role.below, false);
    assert RoleSpecPtrBody(role, Some(value), false);
  }

  ghost function RoleGroupCells(g: RoleGroupSpec): set<object>
    reads g.replicas, g.config, g.overridesSpec
  {
    PtrCell(g.replicas) + PtrCell(g.config) + PtrCell(g.overridesSpec)
  }

  /** No two role groups of a copied role share an object at any depth, nor does a group share one with the
      settings of its role. */
  lemma CopiedRoleSharesNothing(p: Ptr<RoleSpec>, v: RoleValue, key: string, key': string)
    requires RoleSpecPtrRep(p, Some(v), true)
    requires v.roleGroups.Some? && key in v.roleGroups.value && key' in v.roleGroups.value && key != key'
    ensures
      var groups := p.v.roleGroups;
      && groups != null && key in groups.m && key' in groups.m
      && RoleGroupCells(groups.m[key]) !! RoleGroupCells(groups.m[key'])
      && RoleGroupCells(groups.m[key]) !! RoleSpecSharedCells(p.v) + PtrCell(p.v.roleConfig)
  {
    assert RoleSpecPtrBody(p, Some(v), true);
    assert RoleSpecBody(p.v, v, p.below, true);
    assert RoleGroupsBody(p.v.roleGroups, v.roleGroups, true);
    forall k | k in {key, key'}
      ensures RoleGroupSpecBody(p.v.roleGroups.m[k], v.roleGroups.value[k], p.v.roleGroups.parts[k], true)
    {
      assert RoleGroupSpecRep(p.v.roleGroups.m[k], v.roleGroups.value[k], p.v.roleGroups.parts[k], true);
    }
  }

  // ---------- Writes stay local ----------

  /** Every group but one, and the settings of the role, have the values given. */
  ghost predicate OtherGroupsRep(x: RoleSpec, v: RoleValue, key: string)
    reads MapCell(x.roleGroups), PtrCell(x.roleConfig), PtrCell(x.config), PtrCell(x.overridesSpec)
    reads if x.roleGroups == null then {} else set k, o | k in x.roleGroups.parts && o in x.roleGroups.parts[k] :: o
  {
    && v.roleGroups.Some? && x.roleGroups != null
    && (forall k :: k in v.roleGroups.value && k != key ==>
          && k in x.roleGroups.m && k in x.roleGroups.parts
          && RoleGroupSpecRep(x.roleGroups.m[k], v.roleGroups.value[k], x.roleGroups.parts[k], true))
    && LibPtrRep(x.roleConfig, v.roleConfig, true)
    && ConfigSpecPtrRep(x.config, v.config, true)
    && LibPtrRep(x.overridesSpec, v.overridesSpec, true)
  }

  // The objects of one group of a copied role lie apart from all that OtherGroupsRep is about.
  lemma GroupIsApart(p: Ptr<RoleSpec>, v: RoleValue, key: string)
    requires RoleSpecPtrRep(p, Some(v), true) && v.roleGroups.Some? && key in v.roleGroups.value
    ensures OtherGroupsRep(p.v, v, key) && key in p.v.roleGroups.parts
    ensures
      var part := p.v.roleGroups.parts[key];
      && part <= PtrCell(p) && p !in part && p.v.roleGroups !in part
      && part !! PtrCell(p.v.roleConfig) + RoleSpecSharedCells(p.v)
      && (forall k :: k in p.v.roleGroups.parts && k != key ==> p.v.roleGroups.parts[k] !! part)
  {
    assert RoleSpecPtrBody(p, Some(v), true);
    assert RoleSpecBody(p.v, v, p.below, true);
    assert RoleGroupsBody(p.v.roleGroups, v.roleGroups, true);
  }

  /** Writes to the objects of one role group of a copied role leave every other group, and the settings of
      the role itself, as they were. */
  twostate lemma RoleGroupWritesStayLocal(p: Ptr<RoleSpec>, v: RoleValue, key: string)
    requires old(RoleSpecPtrRep(p, Some(v), true))
    requires v.roleGroups.Some? && key in v.roleGroups.value && old(p.v.roleGroups) != null
    requires old(key in p.v.roleGroups.parts) && unchanged(old(PtrCell(p) - p.v.roleGroups.parts[key]))
    ensures p.v == old(p.v) && p.v.roleGroups.m == old(p.v.roleGroups.m)
    ensures OtherGroupsRep(p.v, v, key)
  {
    var groups := old(p.v.roleGroups);
    assert old(RoleSpecPtrBody(p, Some(v), true));
    assert old(RoleSpecBody(p.v, v, p.below, true));
    assert old(RoleGroupsBody(groups, v.roleGroups, true));
  }

  /** The parts of a cluster's spec. */
  datatype SpecPart =
    | Image | ClusterOperation | ClusterConfig | CeleryExecutors | KubernetesExecutors | Schedulers | Webservers

  ghost function PartCells(x: AirflowClusterSpec, part: SpecPart): set<object>
    reads x.image, x.clusterOperation, x.clusterConfig, x.celeryExecutors, x.kubernetesExecutors, x.schedulers
    reads x.webservers
  {
    match part
    case Image => PtrCell(x.image)
    case ClusterOperation => PtrCell(x.clusterOperation)
    case ClusterConfig => PtrCell(x.clusterConfig)
    case CeleryExecutors => PtrCell(x.celeryExecutors)
    case KubernetesExecutors => PtrCell(x.kubernetesExecutors)
    case Schedulers => PtrCell(x.schedulers)
    case Webservers => PtrCell(x.webservers)
  }

  /** Every part but one has the value given. */
  ghost predicate OtherPartsRep(x: AirflowClusterSpec, v: AirflowClusterSpecValue, part: SpecPart)
    reads SettingsCells(x.image, x.clusterOperation, x.clusterConfig)
    reads ExecutorsCells(x.celeryExecutors, x.kubernetesExecutors), ServersCells(x.schedulers, x.webservers)
  {
    && (part != Image ==> FlatValue(x.image) == v.image)
    && (part != ClusterOperation ==> FlatValue(x.clusterOperation) == v.clusterOperation)
    && (part != ClusterConfig ==> ClusterConfigSpecPtrRep(x.clusterConfig, v.clusterConfig, true))
    && (part != CeleryExecutors ==> RoleSpecPtrRep(x.celeryExecutors, v.celeryExecutors, true))
    && (part != KubernetesExecutors ==>
          KubernetesExecutorsSpecPtrRep(x.kubernetesExecutors, v.kubernetesExecutors, true))
    && (part != Schedulers ==> RoleSpecPtrRep(x.schedulers, v.schedulers, true))
    && (part != Webservers ==> RoleSpecPtrRep(x.webservers, v.webservers, true))
  }

  /** Writes to the objects of one part of a copied spec leave all its other parts as they were. */
  twostate lemma SpecWritesStayLocal(
      x: AirflowClusterSpec, v: AirflowClusterSpecValue, region: set<object>, part: SpecPart)
    requires old(AirflowClusterSpecRep(x, v, region, true))
    requires unchanged(region - old(PartCells(x, part)))
    ensures OtherPartsRep(x, v, part)
  {
    assert old(AirflowClusterSpecBody(x, v, region, true));
  }

  // ---------- Copy, then write ----------

  /** A spec is copied and any part of the copy is written to, in any way: the source keeps its value, and the
      copy keeps it in all its other parts. */
  method CopySpecAndWritePart(x: AirflowClusterSpec, ghost v: AirflowClusterSpecValue, ghost within: set<object>,
      ghost part: SpecPart)
    returns (y: AirflowClusterSpec)
    requires AirflowClusterSpecRep(x, v, within, false)
    ensures AirflowClusterSpecRep(x, v, within, false)
    ensures OtherPartsRep(y, v, part)
  {
    ghost var region;
    y, region := AirflowClusterSpecCopy(x, v, within);
    assert AirflowClusterSpecBody(y, v, region, true);
    modify PartCells(y, part);
  }

  /** A spec is copied and its source is written to, in any way: the copy keeps the source's old value. */
  method CopySpecAndWriteSource(x: AirflowClusterSpec, ghost v: AirflowClusterSpecValue, ghost within: set<object>)
    returns (y: AirflowClusterSpec, ghost region: set<object>)
    requires AirflowClusterSpecRep(x, v, within, false)
    modifies within
    ensures fresh(region) && AirflowClusterSpecRep(y, v, region, true)
  {
    y, region := AirflowClusterSpecCopy(x, v, within);
    modify within;
  }

  /** A role is copied and one group of the copy is written to, in any way: the source, every other group of
      the copy and its role-level settings keep their values. */
  method CopyRoleAndWriteGroup(src: Ptr<RoleSpec>, ghost v: RoleValue, key: string) returns (out: Ptr<RoleSpec>)
    requires RoleSpecPtrRep(src, Some(v), false) && v.roleGroups.Some? && key in v.roleGroups.value
    ensures RoleSpecPtrRep(src, Some(v), false)
    ensures OtherGroupsRep(out.v, v, key)
  {
    ghost var sourceCells := PtrCell(src);
    out := RoleSpecDeepCopy(src, Some(v), sourceCells);
    GroupIsApart(out, v, key);
    ghost var written := out.v.roleGroups.parts[key];
    assert written !! sourceCells && RoleSpecPtrRep(src, Some(v), false);
    modify written;
    assert PtrCell(src) == sourceCells;
  }
}
