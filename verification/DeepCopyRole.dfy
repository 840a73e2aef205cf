module DeepCopyRole {
  import opened Wrappers
  import opened GoMemory
  import opened DeepCopyLibrary

  datatype ConfigSpec = ConfigSpec(roleGroupConfigSpec: Ptr?<Lib>)
  datatype ConfigValue = ConfigValue(roleGroupConfigSpec: Option<LibValue>)

  ghost predicate ConfigSpecRep(x: ConfigSpec, v: ConfigValue, region: set<object>, tree: bool)
    reads region
  {
    forall t: bool :: (t ==> tree) ==> ConfigSpecBody(x, v, region, t)
  }

  ghost predicate ConfigSpecBody(x: ConfigSpec, v: ConfigValue, region: set<object>, tree: bool)
    reads region
  {
    && Ref(x.roleGroupConfigSpec) <= region
    && PtrCell(x.roleGroupConfigSpec) <= region
    && LibPtrRep(x.roleGroupConfigSpec, v.roleGroupConfigSpec, tree)
  }

  method ConfigSpecCopy(x: ConfigSpec, ghost v: ConfigValue, ghost within: set<object>)
    returns (y: ConfigSpec, ghost region: set<object>)
    requires ConfigSpecRep(x, v, within, false)
    ensures fresh(region) && ConfigSpecRep(y, v, region, true)
  {
    assert ConfigSpecBody(x, v, within, false);
    y, region := x, {};
    var roleGroupConfigSpec := LibDeepCopy(x.roleGroupConfigSpec, v.roleGroupConfigSpec, region);
    y, region := y.(roleGroupConfigSpec := roleGroupConfigSpec), region + PtrCell(roleGroupConfigSpec);
  }

  ghost predicate ConfigSpecPtrRep(p: Ptr?<ConfigSpec>, v: Option<ConfigValue>, tree: bool)
    reads PtrCell(p)
  {
    (p == null <==> v.None?) && forall t: bool :: (t ==> tree) ==> ConfigSpecPtrBody(p, v, t)
  }

  ghost predicate ConfigSpecPtrBody(p: Ptr?<ConfigSpec>, v: Option<ConfigValue>, tree: bool)
    reads PtrCell(p)
  {
    p != null && v.Some? ==> (tree ==> p !in p.below) && ConfigSpecRep(p.v, v.value, p.below, tree)
  }

  method ConfigSpecDeepCopyInto(src: Ptr<ConfigSpec>, out: Ptr<ConfigSpec>, ghost v: Option<ConfigValue>)
    requires ConfigSpecPtrRep(src, v, false) && out !in PtrCell(src)
    modifies out
    ensures ConfigSpecPtrRep(out, v, true) && fresh(out.below)
  {
    assert ConfigSpecPtrBody(src, v, false);
    var y, region := ConfigSpecCopy(src.v, v.value, src.below);
    out.v, out.below := y, region;
  }

  method ConfigSpecDeepCopy(
      src: Ptr?<ConfigSpec>, ghost v: Option<ConfigValue>, ghost used: set<object>)
    returns (out: Ptr?<ConfigSpec>)
    requires ConfigSpecPtrRep(src, v, false)
    ensures ConfigSpecPtrRep(out, v, true) && fresh(PtrCell(out)) && PtrCell(out) !! used
  {
    if src == null {
      return null;
    }
    assert ConfigSpecPtrBody(src, v, false);
    out := new Ptr<ConfigSpec>();
    assert ConfigSpecPtrBody(src, v, false);
    ConfigSpecDeepCopyInto(src, out, v);
  }

  datatype RoleGroupSpec = RoleGroupSpec(replicas: Ptr?<int32>, config: Ptr?<ConfigSpec>, overridesSpec: Ptr?<Lib>)
  datatype RoleGroupValue =
    RoleGroupValue(replicas: Option<int32>, config: Option<ConfigValue>, overridesSpec: Option<LibValue>)

  ghost predicate RoleGroupSpecRep(x: RoleGroupSpec, v: RoleGroupValue, region: set<object>, tree: bool)
    reads region
  {
    forall t: bool :: (t ==> tree) ==> RoleGroupSpecBody(x, v, region, t)
  }

  ghost predicate RoleGroupSpecBody(x: RoleGroupSpec, v: RoleGroupValue, region: set<object>, tree: bool)
    reads region
  {
    && Ref(x.replicas) <= region && Ref(x.config) <= region && Ref(x.overridesSpec) <= region
    && PtrCell(x.replicas) <= region && PtrCell(x.config) <= region && PtrCell(x.overridesSpec) <= region
    && FlatValue(x.replicas) == v.replicas
    && ConfigSpecPtrRep(x.config, v.config, tree)
    && LibPtrRep(x.overridesSpec, v.overridesSpec, tree)
    && (tree ==>
        && PtrCell(x.replicas) !! PtrCell(x.config)
        && PtrCell(x.replicas) !! PtrCell(x.overridesSpec)
        && PtrCell(x.config) !! PtrCell(x.overridesSpec))
  }

  lemma FoldRoleGroupSpec(x: RoleGroupSpec, v: RoleGroupValue, region: set<object>)
    requires RoleGroupSpecBody(x, v, region, true)
    ensures RoleGroupSpecRep(x, v, region, true)
  {
  }

  method RoleGroupSpecCopy(x: RoleGroupSpec, ghost v: RoleGroupValue, ghost within: set<object>)
    returns (y: RoleGroupSpec, ghost region: set<object>)
    requires RoleGroupSpecRep(x, v, within, false)
    ensures fresh(region) && RoleGroupSpecRep(y, v, region, true)
  {
    assert RoleGroupSpecBody(x, v, within, false);
    y, region := x, {};
    var replicas := FlatCopy(x.replicas, region);
    y, region := y.(replicas := replicas), region + PtrCell(replicas);
    var config := ConfigSpecDeepCopy(x.config, v.config, region);
    y, region := y.(config := config), region + PtrCell(config);
    var overridesSpec := LibDeepCopy(x.overridesSpec, v.overridesSpec, region);
    y, region := y.(overridesSpec := overridesSpec), region + PtrCell(overridesSpec);
    FoldRoleGroupSpec(y, v, region);
  }

  ghost predicate RoleGroupEntries(
    m: map<string, RoleGroupSpec>, v: map<string, RoleGroupValue>, parts: map<string, set<object>>,
    within: set<object>, tree: bool)
    reads within
  {
    && m.Keys == v.Keys == parts.Keys
    && (tree ==> DisjointEntries(parts))
    && (forall k :: k in m ==> parts[k] <= within && RoleGroupSpecRep(m[k], v[k], parts[k], tree))
  }

  ghost predicate RoleGroupsRep(m: GoMap?<RoleGroupSpec>, v: Option<map<string, RoleGroupValue>>, tree: bool)
    reads MapCell(m)
  {
    (m == null <==> v.None?) && forall t: bool :: (t ==> tree) ==> RoleGroupsBody(m, v, t)
  }

  ghost predicate RoleGroupsBody(m: GoMap?<RoleGroupSpec>, v: Option<map<string, RoleGroupValue>>, tree: bool)
    reads MapCell(m)
  {
    m != null && v.Some? ==>
      (tree ==> m !in m.below) && RoleGroupEntries(m.m, v.value, m.parts, m.below, tree)
  }

  // The loop that fills the new map, over the entries in any order.
  method RoleGroupEntriesCopy(
    m: map<string, RoleGroupSpec>, ghost v: map<string, RoleGroupValue>, ghost parts: map<string, set<object>>,
    ghost within: set<object>)
    returns (out: map<string, RoleGroupSpec>, ghost regions: map<string, set<object>>)
    requires RoleGroupEntries(m, v, parts, within, false)
    ensures out.Keys == regions.Keys == v.Keys && DisjointEntries(regions)
    ensures forall k :: k in out ==> fresh(regions[k]) && RoleGroupSpecRep(out[k], v[k], regions[k], true)
  {
    var keys := m.Keys;
    out, regions := map[], map[];
    while keys != {}
      invariant keys <= m.Keys && out.Keys == regions.Keys == m.Keys - keys
      invariant forall k :: k in out ==> fresh(regions[k]) && RoleGroupSpecRep(out[k], v[k], regions[k], true)
      invariant DisjointEntries(regions)
    {
      var key :| key in keys;
      var val, region := RoleGroupSpecCopy(m[key], v[key], parts[key]);
      keys := keys - {key};
      out, regions := out[key := val], regions[key := region];
    }
  }

  method RoleGroupsCopy(
      src: GoMap?<RoleGroupSpec>, ghost v: Option<map<string, RoleGroupValue>>, ghost used: set<object>)
    returns (out: GoMap?<RoleGroupSpec>)
    requires RoleGroupsRep(src, v, false)
    ensures RoleGroupsRep(out, v, true) && fresh(MapCell(out)) && MapCell(out) !! used
  {
    if src == null {
      return null;
    }
    assert RoleGroupsBody(src, v, false);
    var m, regions := RoleGroupEntriesCopy(src.m, v.value, src.parts, src.below);
    out := new GoMap<RoleGroupSpec>(m, regions);
  }

  // CeleryExecutorsSpec, SchedulersSpec and WebserversSpec have the same fields and the same copy code.
  datatype RoleSpec = RoleSpec(
    roleGroups: GoMap?<RoleGroupSpec>, roleConfig: Ptr?<Lib>, config: Ptr?<ConfigSpec>, overridesSpec: Ptr?<Lib>)
  datatype RoleValue = RoleValue(
    roleGroups: Option<map<string, RoleGroupValue>>, roleConfig: Option<LibValue>, config: Option<ConfigValue>,
    overridesSpec: Option<LibValue>)

  type CeleryExecutorsSpec = RoleSpec
  type SchedulersSpec = RoleSpec
  type WebserversSpec = RoleSpec

  ghost function RoleSpecGroupCells(x: RoleSpec): set<object>
    reads x.roleGroups, x.roleConfig
  {
    MapCell(x.roleGroups) + PtrCell(x.roleConfig)
  }

  ghost function RoleSpecSharedCells(x: RoleSpec): set<object>
    reads x.config, x.overridesSpec
  {
    PtrCell(x.config) + PtrCell(x.overridesSpec)
  }

  ghost predicate RoleSpecRep(x: RoleSpec, v: RoleValue, region: set<object>, tree: bool)
    reads region
  {
    forall t: bool :: (t ==> tree) ==> RoleSpecBody(x, v, region, t)
  }

  ghost predicate RoleSpecBody(x: RoleSpec, v: RoleValue, region: set<object>, tree: bool)
    reads region
  {
    && Ref(x.roleGroups) <= region && Ref(x.roleConfig) <= region && RoleSpecGroupCells(x) <= region
    && Ref(x.config) <= region && Ref(x.overridesSpec) <= region && RoleSpecSharedCells(x) <= region
    && RoleGroupsRep(x.roleGroups, v.roleGroups, tree)
    && LibPtrRep(x.roleConfig, v.roleConfig, tree)
    && ConfigSpecPtrRep(x.config, v.config, tree)
    && LibPtrRep(x.overridesSpec, v.overridesSpec, tree)
    && (tree ==>
        && MapCell(x.roleGroups) !! PtrCell(x.roleConfig)
        && PtrCell(x.config) !! PtrCell(x.overridesSpec)
        && RoleSpecGroupCells(x) !! RoleSpecSharedCells(x))
  }

  lemma FoldRoleSpec(x: RoleSpec, v: RoleValue, region: set<object>)
    requires RoleSpecBody(x, v, region, true)
    ensures RoleSpecRep(x, v, region, true)
  {
  }

  method RoleSpecCopyGroup(x: RoleSpec, ghost v: RoleValue, ghost within: set<object>, ghost used: set<object>)
    returns (roleGroups: GoMap?<RoleGroupSpec>, roleConfig: Ptr?<Lib>, ghost region: set<object>)
    requires RoleSpecRep(x, v, within, false)
    ensures fresh(region) && region !! used
    ensures MapCell(roleGroups) <= region && RoleGroupsRep(roleGroups, v.roleGroups, true)
    ensures PtrCell(roleConfig) <= region && LibPtrRep(roleConfig, v.roleConfig, true)
    ensures MapCell(roleGroups) !! PtrCell(roleConfig)
  {
    assert RoleSpecBody(x, v, within, false);
    region := {};
    roleGroups := RoleGroupsCopy(x.roleGroups, v.roleGroups, used + region);
    region := region + MapCell(roleGroups);
    roleConfig := LibDeepCopy(x.roleConfig, v.roleConfig, used + region);
    region := region + PtrCell(roleConfig);
  }

  method RoleSpecCopyShared(x: RoleSpec, ghost v: RoleValue, ghost within: set<object>, ghost used: set<object>)
    returns (config: Ptr?<ConfigSpec>, overridesSpec: Ptr?<Lib>, ghost region: set<object>)
    requires RoleSpecRep(x, v, within, false)
    ensures fresh(region) && region !! used
    ensures PtrCell(config) <= region && ConfigSpecPtrRep(config, v.config, true)
    ensures PtrCell(overridesSpec) <= region && LibPtrRep(overridesSpec, v.overridesSpec, true)
    ensures PtrCell(config) !! PtrCell(overridesSpec)
  {
    assert RoleSpecBody(x, v, within, false);
    region := {};
    config := ConfigSpecDeepCopy(x.config, v.config, used + region);
    region := region + PtrCell(config);
    overridesSpec := LibDeepCopy(x.overridesSpec, v.overridesSpec, used + region);
    region := region + PtrCell(overridesSpec);
  }

  method RoleSpecCopy(x: RoleSpec, ghost v: RoleValue, ghost within: set<object>)
    returns (y: RoleSpec, ghost region: set<object>)
    requires RoleSpecRep(x, v, within, false)
    ensures fresh(region) && RoleSpecRep(y, v, region, true)
  {
    assert RoleSpecBody(x, v, within, false);
    y, region := x, {};
    var roleGroups, roleConfig, region0 := RoleSpecCopyGroup(x, v, within, region);
    region := region + region0;
    y := y.(roleGroups := roleGroups, roleConfig := roleConfig);
    var config, overridesSpec, region1 := RoleSpecCopyShared(x, v, within, region);
    region := region + region1;
    y := y.(config := config, overridesSpec := overridesSpec);
    FoldRoleSpec(y, v, region);
  }

  ghost predicate RoleSpecPtrRep(p: Ptr?<RoleSpec>, v: Option<RoleValue>, tree: bool)
    reads PtrCell(p)
  {
    (p == null <==> v.None?) && forall t: bool :: (t ==> tree) ==> RoleSpecPtrBody(p, v, t)
  }

  ghost predicate RoleSpecPtrBody(p: Ptr?<RoleSpec>, v: Option<RoleValue>, tree: bool)
    reads PtrCell(p)
  {
    p != null && v.Some? ==> (tree ==> p !in p.below) && RoleSpecRep(p.v, v.value, p.below, tree)
  }

  method RoleSpecDeepCopyInto(src: Ptr<RoleSpec>, out: Ptr<RoleSpec>, ghost v: Option<RoleValue>)
    requires RoleSpecPtrRep(src, v, false) && out !in PtrCell(src)
    modifies out
    ensures RoleSpecPtrRep(out, v, true) && fresh(out.below)
  {
    assert RoleSpecPtrBody(src, v, false);
    var y, region := RoleSpecCopy(src.v, v.value, src.below);
    out.v, out.below := y, region;
  }

  method RoleSpecDeepCopy(
      src: Ptr?<RoleSpec>, ghost v: Option<RoleValue>, ghost used: set<object>)
    returns (out: Ptr?<RoleSpec>)
    requires RoleSpecPtrRep(src, v, false)
    ensures RoleSpecPtrRep(out, v, true) && fresh(PtrCell(out)) && PtrCell(out) !! used
  {
    if src == null {
      return null;
    }
    assert RoleSpecPtrBody(src, v, false);
    out := new Ptr<RoleSpec>();
    assert RoleSpecPtrBody(src, v, false);
    RoleSpecDeepCopyInto(src, out, v);
  }

  datatype KubernetesExecutorsSpec = KubernetesExecutorsSpec(
    roleConfig: Ptr?<Lib>, config: Ptr?<ConfigSpec>, overridesSpec: Ptr?<Lib>, roleGroupConfigSpec: Ptr?<Lib>)
  datatype KubernetesValue = KubernetesValue(
    roleConfig: Option<LibValue>, config: Option<ConfigValue>, overridesSpec: Option<LibValue>,
    roleGroupConfigSpec: Option<LibValue>)

  ghost function KubernetesExecutorsSpecRoleCells(x: KubernetesExecutorsSpec): set<object>
    reads x.roleConfig, x.config
  {
    PtrCell(x.roleConfig) + PtrCell(x.config)
  }

  ghost function KubernetesExecutorsSpecOverrideCells(x: KubernetesExecutorsSpec): set<object>
    reads x.overridesSpec, x.roleGroupConfigSpec
  {
    PtrCell(x.overridesSpec) + PtrCell(x.roleGroupConfigSpec)
  }

  ghost predicate KubernetesExecutorsSpecRep(
      x: KubernetesExecutorsSpec, v: KubernetesValue, region: set<object>, tree: bool)
    reads region
  {
    forall t: bool :: (t ==> tree) ==> KubernetesExecutorsSpecBody(x, v, region, t)
  }

  ghost predicate KubernetesExecutorsSpecBody(
      x: KubernetesExecutorsSpec, v: KubernetesValue, region: set<object>, tree: bool)
    reads region
  {
    && Ref(x.roleConfig) <= region && Ref(x.config) <= region && KubernetesExecutorsSpecRoleCells(x) <= region
    && Ref(x.overridesSpec) <= region && Ref(x.roleGroupConfigSpec) <= region
    && KubernetesExecutorsSpecOverrideCells(x) <= region
    && LibPtrRep(x.roleConfig, v.roleConfig, tree)
    && ConfigSpecPtrRep(x.config, v.config, tree)
    && LibPtrRep(x.overridesSpec, v.overridesSpec, tree)
    && LibPtrRep(x.roleGroupConfigSpec, v.roleGroupConfigSpec, tree)
    && (tree ==>
        && PtrCell(x.roleConfig) !! PtrCell(x.config)
        && PtrCell(x.overridesSpec) !! PtrCell(x.roleGroupConfigSpec)
        && KubernetesExecutorsSpecRoleCells(x) !! KubernetesExecutorsSpecOverrideCells(x))
  }

  lemma FoldKubernetesExecutorsSpec(x: KubernetesExecutorsSpec, v: KubernetesValue, region: set<object>)
    requires KubernetesExecutorsSpecBody(x, v, region, true)
    ensures KubernetesExecutorsSpecRep(x, v, region, true)
  {
  }

  method KubernetesExecutorsSpecCopyRole(
      x: KubernetesExecutorsSpec, ghost v: KubernetesValue, ghost within: set<object>, ghost used: set<object>)
    returns (roleConfig: Ptr?<Lib>, config: Ptr?<ConfigSpec>, ghost region: set<object>)
    requires KubernetesExecutorsSpecRep(x, v, within, false)
    ensures fresh(region) && region !! used
    ensures PtrCell(roleConfig) <= region && LibPtrRep(roleConfig, v.roleConfig, true)
    ensures PtrCell(config) <= region && ConfigSpecPtrRep(config, v.config, true)
    ensures PtrCell(roleConfig) !! PtrCell(config)
  {
    assert KubernetesExecutorsSpecBody(x, v, within, false);
    region := {};
    roleConfig := LibDeepCopy(x.roleConfig, v.roleConfig, used + region);
    region := region + PtrCell(roleConfig);
    config := ConfigSpecDeepCopy(x.config, v.config, used + region);
    region := region + PtrCell(config);
  }

  method KubernetesExecutorsSpecCopyOverride(
      x: KubernetesExecutorsSpec, ghost v: KubernetesValue, ghost within: set<object>, ghost used: set<object>)
    returns (overridesSpec: Ptr?<Lib>, roleGroupConfigSpec: Ptr?<Lib>, ghost region: set<object>)
    requires KubernetesExecutorsSpecRep(x, v, within, false)
    ensures fresh(region) && region !! used
    ensures PtrCell(overridesSpec) <= region && LibPtrRep(overridesSpec, v.overridesSpec, true)
    ensures PtrCell(roleGroupConfigSpec) <= region && LibPtrRep(roleGroupConfigSpec, v.roleGroupConfigSpec, true)
    ensures PtrCell(overridesSpec) !! PtrCell(roleGroupConfigSpec)
  {
    assert KubernetesExecutorsSpecBody(x, v, within, false);
    region := {};
    overridesSpec := LibDeepCopy(x.overridesSpec, v.overridesSpec, used + region);
    region := region + PtrCell(overridesSpec);
    roleGroupConfigSpec := LibDeepCopy(x.roleGroupConfigSpec, v.roleGroupConfigSpec, used + region);
    region := region + PtrCell(roleGroupConfigSpec);
  }

  method KubernetesExecutorsSpecCopy(x: KubernetesExecutorsSpec, ghost v: KubernetesValue, ghost within: set<object>)
    returns (y: KubernetesExecutorsSpec, ghost region: set<object>)
    requires KubernetesExecutorsSpecRep(x, v, within, false)
    ensures fresh(region) && KubernetesExecutorsSpecRep(y, v, region, true)
  {
    assert KubernetesExecutorsSpecBody(x, v, within, false);
    y, region := x, {};
    var roleConfig, config, region0 := KubernetesExecutorsSpecCopyRole(x, v, within, region);
    region := region + region0;
    y := y.(roleConfig := roleConfig, config := config);
    var overridesSpec, roleGroupConfigSpec, region1 := KubernetesExecutorsSpecCopyOverride(x, v, within, region);
    region := region + region1;
    y := y.(overridesSpec := overridesSpec, roleGroupConfigSpec := roleGroupConfigSpec);
    FoldKubernetesExecutorsSpec(y, v, region);
  }

  ghost predicate KubernetesExecutorsSpecPtrRep(
      p: Ptr?<KubernetesExecutorsSpec>, v: Option<KubernetesValue>, tree: bool)
    reads PtrCell(p)
  {
    (p == null <==> v.None?) && forall t: bool :: (t ==> tree) ==> KubernetesExecutorsSpecPtrBody(p, v, t)
  }

  ghost predicate KubernetesExecutorsSpecPtrBody(
      p: Ptr?<KubernetesExecutorsSpec>, v: Option<KubernetesValue>, tree: bool)
    reads PtrCell(p)
  {
    p != null && v.Some? ==> (tree ==> p !in p.below) && KubernetesExecutorsSpecRep(p.v, v.value, p.below, tree)
  }

  method KubernetesExecutorsSpecDeepCopyInto(
      src: Ptr<KubernetesExecutorsSpec>, out: Ptr<KubernetesExecutorsSpec>, ghost v: Option<KubernetesValue>)
    requires KubernetesExecutorsSpecPtrRep(src, v, false) && out !in PtrCell(src)
    modifies out
    ensures KubernetesExecutorsSpecPtrRep(out, v, true) && fresh(out.below)
  {
    assert KubernetesExecutorsSpecPtrBody(src, v, false);
    var y, region := KubernetesExecutorsSpecCopy(src.v, v.value, src.below);
    out.v, out.below := y, region;
  }

  method KubernetesExecutorsSpecDeepCopy(
      src: Ptr?<KubernetesExecutorsSpec>, ghost v: Option<KubernetesValue>, ghost used: set<object>)
    returns (out: Ptr?<KubernetesExecutorsSpec>)
    requires KubernetesExecutorsSpecPtrRep(src, v, false)
    ensures KubernetesExecutorsSpecPtrRep(out, v, true) && fresh(PtrCell(out)) && PtrCell(out) !! used
  {
    if src == null {
      return null;
    }
    assert KubernetesExecutorsSpecPtrBody(src, v, false);
    out := new Ptr<KubernetesExecutorsSpec>();
    assert KubernetesExecutorsSpecPtrBody(src, v, false);
    KubernetesExecutorsSpecDeepCopyInto(src, out, v);
  }
}
