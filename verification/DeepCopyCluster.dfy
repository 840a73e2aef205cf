module DeepCopyCluster {
  import opened Wrappers
  import opened GoMemory
  import opened DeepCopyLibrary
  import opened DeepCopyRole
  import opened DeepCopyClusterConfig

  datatype ImageSpec = ImageSpec(
    custom: string, repo: string, kubedoopVersion: string, productVersion: string, pullPolicy: string,
    pullSecretName: string)

  // A library struct that the generated code copies by assignment.
  datatype ClusterOperationSpec = ClusterOperationSpec(scalars: string)

  datatype AirflowClusterSpec = AirflowClusterSpec(
    image: Ptr?<ImageSpec>, clusterOperation: Ptr?<ClusterOperationSpec>, clusterConfig: Ptr?<ClusterConfigSpec>,
    celeryExecutors: Ptr?<CeleryExecutorsSpec>, kubernetesExecutors: Ptr?<KubernetesExecutorsSpec>,
    schedulers: Ptr?<SchedulersSpec>, webservers: Ptr?<WebserversSpec>)
  datatype AirflowClusterSpecValue = AirflowClusterSpecValue(
    image: Option<ImageSpec>, clusterOperation: Option<ClusterOperationSpec>,
    clusterConfig: Option<ClusterConfigValue>, celeryExecutors: Option<RoleValue>,
    kubernetesExecutors: Option<KubernetesValue>, schedulers: Option<RoleValue>, webservers: Option<RoleValue>)

  // The fields in three groups: what all roles share, the executors, and the two servers.

  ghost function SettingsCells(
      image: Ptr?<ImageSpec>, clusterOperation: Ptr?<ClusterOperationSpec>, clusterConfig: Ptr?<ClusterConfigSpec>):
      set<object>
    reads image, clusterOperation, clusterConfig
  {
    PtrCell(image) + PtrCell(clusterOperation) + PtrCell(clusterConfig)
  }

  ghost predicate SettingsRep(
      image: Ptr?<ImageSpec>, clusterOperation: Ptr?<ClusterOperationSpec>, clusterConfig: Ptr?<ClusterConfigSpec>,
      v: AirflowClusterSpecValue, tree: bool)
    reads SettingsCells(image, clusterOperation, clusterConfig)
  {
    && FlatValue(image) == v.image && FlatValue(clusterOperation) == v.clusterOperation
    && ClusterConfigSpecPtrRep(clusterConfig, v.clusterConfig, tree)
    && (tree ==>
        && PtrCell(image) !! PtrCell(clusterOperation) && PtrCell(image) !! PtrCell(clusterConfig)
        && PtrCell(clusterOperation) !! PtrCell(clusterConfig))
  }

  ghost function ExecutorsCells(
      celeryExecutors: Ptr?<CeleryExecutorsSpec>, kubernetesExecutors: Ptr?<KubernetesExecutorsSpec>): set<object>
    reads celeryExecutors, kubernetesExecutors
  {
    PtrCell(celeryExecutors) + PtrCell(kubernetesExecutors)
  }

  ghost predicate ExecutorsRep(
      celeryExecutors: Ptr?<CeleryExecutorsSpec>, kubernetesExecutors: Ptr?<KubernetesExecutorsSpec>,
      v: AirflowClusterSpecValue, tree: bool)
    reads ExecutorsCells(celeryExecutors, kubernetesExecutors)
  {
    && RoleSpecPtrRep(celeryExecutors, v.celeryExecutors, tree)
    && KubernetesExecutorsSpecPtrRep(kubernetesExecutors, v.kubernetesExecutors, tree)
    && (tree ==> PtrCell(celeryExecutors) !! PtrCell(kubernetesExecutors))
  }

  ghost function ServersCells(schedulers: Ptr?<SchedulersSpec>, webservers: Ptr?<WebserversSpec>): set<object>
    reads schedulers, webservers
  {
    PtrCell(schedulers) + PtrCell(webservers)
  }

  ghost predicate ServersRep(
      schedulers: Ptr?<SchedulersSpec>, webservers: Ptr?<WebserversSpec>, v: AirflowClusterSpecValue, tree: bool)
    reads ServersCells(schedulers, webservers)
  {
    && RoleSpecPtrRep(schedulers, v.schedulers, tree) && RoleSpecPtrRep(webservers, v.webservers, tree)
    && (tree ==> PtrCell(schedulers) !! PtrCell(webservers))
  }

  ghost predicate AirflowClusterSpecRep(
      x: AirflowClusterSpec, v: AirflowClusterSpecValue, region: set<object>, tree: bool)
    reads region
  {
    forall t: bool :: (t ==> tree) ==> AirflowClusterSpecBody(x, v, region, t)
  }

  ghost predicate AirflowClusterSpecBody(
      x: AirflowClusterSpec, v: AirflowClusterSpecValue, region: set<object>, tree: bool)
    reads region
  {
    && Ref(x.image) + Ref(x.clusterOperation) + Ref(x.clusterConfig) <= region
    && Ref(x.celeryExecutors) + Ref(x.kubernetesExecutors) + Ref(x.schedulers) + Ref(x.webservers) <= region
    && SettingsCells(x.image, x.clusterOperation, x.clusterConfig) <= region
    && ExecutorsCells(x.celeryExecutors, x.kubernetesExecutors) <= region
    && ServersCells(x.schedulers, x.webservers) <= region
    && SettingsRep(x.image, x.clusterOperation, x.clusterConfig, v, tree)
    && ExecutorsRep(x.celeryExecutors, x.kubernetesExecutors, v, tree)
    && ServersRep(x.schedulers, x.webservers, v, tree)
    && (tree ==>
        && SettingsCells(x.image, x.clusterOperation, x.clusterConfig)
           !! ExecutorsCells(x.celeryExecutors, x.kubernetesExecutors) !! ServersCells(x.schedulers, x.webservers))
  }

  lemma FoldAirflowClusterSpec(x: AirflowClusterSpec, v: AirflowClusterSpecValue, region: set<object>)
    requires AirflowClusterSpecBody(x, v, region, true)
    ensures AirflowClusterSpecRep(x, v, region, true)
  {
  }

  lemma UnfoldAirflowClusterSpec(x: AirflowClusterSpec, v: AirflowClusterSpecValue, region: set<object>)
    requires AirflowClusterSpecRep(x, v, region, false)
    ensures SettingsRep(x.image, x.clusterOperation, x.clusterConfig, v, false)
    ensures ExecutorsRep(x.celeryExecutors, x.kubernetesExecutors, v, false)
    ensures ServersRep(x.schedulers, x.webservers, v, false)
  {
    assert AirflowClusterSpecBody(x, v, region, false);
  }

  method AirflowClusterSpecCopySettings(
      x: AirflowClusterSpec, ghost v: AirflowClusterSpecValue, ghost within: set<object>, ghost used: set<object>)
    returns (image: Ptr?<ImageSpec>, clusterOperation: Ptr?<ClusterOperationSpec>,
        clusterConfig: Ptr?<ClusterConfigSpec>)
    requires AirflowClusterSpecRep(x, v, within, false)
    ensures SettingsRep(image, clusterOperation, clusterConfig, v, true)
    ensures
      var region := SettingsCells(image, clusterOperation, clusterConfig);
      fresh(region) && region !! used
  {
    UnfoldAirflowClusterSpec(x, v, within);
    image := FlatCopy(x.image, used);
    clusterOperation := FlatCopy(x.clusterOperation, used + PtrCell(image));
    UnfoldAirflowClusterSpec(x, v, within);
    clusterConfig := ClusterConfigSpecDeepCopy(
      x.clusterConfig, v.clusterConfig, used + PtrCell(image) + PtrCell(clusterOperation));
  }

  method AirflowClusterSpecCopyExecutors(
      x: AirflowClusterSpec, ghost v: AirflowClusterSpecValue, ghost within: set<object>, ghost used: set<object>)
    returns (celeryExecutors: Ptr?<CeleryExecutorsSpec>, kubernetesExecutors: Ptr?<KubernetesExecutorsSpec>)
    requires AirflowClusterSpecRep(x, v, within, false)
    ensures ExecutorsRep(celeryExecutors, kubernetesExecutors, v, true)
    ensures
      var region := ExecutorsCells(celeryExecutors, kubernetesExecutors);
      fresh(region) && region !! used
  {
    UnfoldAirflowClusterSpec(x, v, within);
    celeryExecutors := RoleSpecDeepCopy(x.celeryExecutors, v.celeryExecutors, used);
    UnfoldAirflowClusterSpec(x, v, within);
    kubernetesExecutors :=
      KubernetesExecutorsSpecDeepCopy(x.kubernetesExecutors, v.kubernetesExecutors, used + PtrCell(celeryExecutors));
  }

  method AirflowClusterSpecCopyServers(
      x: AirflowClusterSpec, ghost v: AirflowClusterSpecValue, ghost within: set<object>, ghost used: set<object>)
    returns (schedulers: Ptr?<SchedulersSpec>, webservers: Ptr?<WebserversSpec>)
    requires AirflowClusterSpecRep(x, v, within, false)
    ensures ServersRep(schedulers, webservers, v, true)
    ensures
      var region := ServersCells(schedulers, webservers);
      fresh(region) && region !! used
  {
    UnfoldAirflowClusterSpec(x, v, within);
    schedulers := RoleSpecDeepCopy(x.schedulers, v.schedulers, used);
    UnfoldAirflowClusterSpec(x, v, within);
    webservers := RoleSpecDeepCopy(x.webservers, v.webservers, used + PtrCell(schedulers));
  }

  method AirflowClusterSpecCopy(x: AirflowClusterSpec, ghost v: AirflowClusterSpecValue, ghost within: set<object>)
    returns (y: AirflowClusterSpec, ghost region: set<object>)
    requires AirflowClusterSpecRep(x, v, within, false)
    ensures fresh(region) && AirflowClusterSpecRep(y, v, region, true)
  {
    y := x;
    var image, clusterOperation, clusterConfig := AirflowClusterSpecCopySettings(x, v, within, {});
    region := SettingsCells(image, clusterOperation, clusterConfig);
    y := y.(image := image, clusterOperation := clusterOperation, clusterConfig := clusterConfig);
    var celeryExecutors, kubernetesExecutors := AirflowClusterSpecCopyExecutors(x, v, within, region);
    region := region + ExecutorsCells(celeryExecutors, kubernetesExecutors);
    y := y.(celeryExecutors := celeryExecutors, kubernetesExecutors := kubernetesExecutors);
    var schedulers, webservers := AirflowClusterSpecCopyServers(x, v, within, region);
    region := region + ServersCells(schedulers, webservers);
    y := y.(schedulers := schedulers, webservers := webservers);
    FoldAirflowClusterSpec(y, v, region);
  }

  ghost predicate AirflowClusterSpecPtrRep(p: Ptr?<AirflowClusterSpec>, v: Option<AirflowClusterSpecValue>, tree: bool)
    reads PtrCell(p)
  {
    (p == null <==> v.None?) && forall t: bool :: (t ==> tree) ==> AirflowClusterSpecPtrBody(p, v, t)
  }

  ghost predicate AirflowClusterSpecPtrBody(p: Ptr?<AirflowClusterSpec>, v: Option<AirflowClusterSpecValue>, tree: bool)
    reads PtrCell(p)
  {
    p != null && v.Some? ==> (tree ==> p !in p.below) && AirflowClusterSpecRep(p.v, v.value, p.below, tree)
  }

  method AirflowClusterSpecDeepCopyInto(
      src: Ptr<AirflowClusterSpec>, out: Ptr<AirflowClusterSpec>, ghost v: Option<AirflowClusterSpecValue>)
    requires AirflowClusterSpecPtrRep(src, v, false) && out !in PtrCell(src)
    modifies out
    ensures AirflowClusterSpecPtrRep(out, v, true) && fresh(out.below)
  {
    assert AirflowClusterSpecPtrBody(src, v, false);
    var y, region := AirflowClusterSpecCopy(src.v, v.value, src.below);
    out.v, out.below := y, region;
  }

  method AirflowClusterSpecDeepCopy(
      src: Ptr?<AirflowClusterSpec>, ghost v: Option<AirflowClusterSpecValue>, ghost used: set<object>)
    returns (out: Ptr?<AirflowClusterSpec>)
    requires AirflowClusterSpecPtrRep(src, v, false)
    ensures AirflowClusterSpecPtrRep(out, v, true) && fresh(PtrCell(out)) && PtrCell(out) !! used
  {
    if src == null {
      return null;
    }
    assert AirflowClusterSpecPtrBody(src, v, false);
    out := new Ptr<AirflowClusterSpec>();
    assert AirflowClusterSpecPtrBody(src, v, false);
    AirflowClusterSpecDeepCopyInto(src, out, v);
  }

  // metav1.TypeMeta and AirflowClusterStatus hold no pointers.
  datatype AirflowCluster = AirflowCluster(typeMeta: string, objectMeta: Lib, spec: AirflowClusterSpec)
  datatype AirflowClusterValue = AirflowClusterValue(typeMeta: string, objectMeta: LibValue,
      spec: AirflowClusterSpecValue)

  ghost predicate AirflowClusterRep(x: AirflowCluster, v: AirflowClusterValue, region: set<object>, tree: bool)
    reads region
  {
    forall t: bool :: (t ==> tree) ==> AirflowClusterBody(x, v, region, t)
  }

  ghost predicate AirflowClusterBody(x: AirflowCluster, v: AirflowClusterValue, region: set<object>, tree: bool)
    reads region
  {
    && x.typeMeta == v.typeMeta
    && Ref(x.objectMeta.buffer) <= region && LibRep(x.objectMeta, v.objectMeta, region, tree)
    && AirflowClusterSpecRep(x.spec, v.spec, if tree then region - Ref(x.objectMeta.buffer) else region, tree)
  }

  method AirflowClusterCopy(x: AirflowCluster, ghost v: AirflowClusterValue, ghost within: set<object>)
    returns (y: AirflowCluster, ghost region: set<object>)
    requires AirflowClusterRep(x, v, within, false)
    ensures fresh(region) && AirflowClusterRep(y, v, region, true)
  {
    assert AirflowClusterBody(x, v, within, false);
    y := x;
    var objectMeta, metaRegion := LibCopy(x.objectMeta, v.objectMeta, within);
    var spec, specRegion := AirflowClusterSpecCopy(x.spec, v.spec, within);
    y := y.(objectMeta := objectMeta, spec := spec);
    region := metaRegion + specRegion;
    FoldAirflowCluster(y, v, metaRegion, specRegion);
  }

  lemma FoldAirflowCluster(x: AirflowCluster, v: AirflowClusterValue, metaRegion: set<object>, specRegion: set<object>)
    requires x.typeMeta == v.typeMeta && metaRegion == Ref(x.objectMeta.buffer) && metaRegion !! specRegion
    requires LibRep(x.objectMeta, v.objectMeta, metaRegion, true)
    requires AirflowClusterSpecRep(x.spec, v.spec, specRegion, true)
    ensures AirflowClusterRep(x, v, metaRegion + specRegion, true)
  {
    var region := metaRegion + specRegion;
    assert region - metaRegion == specRegion;
    assert LibBody(x.objectMeta, v.objectMeta, metaRegion, true);
    assert AirflowClusterBody(x, v, region, true);
    AirflowClusterSpecGrows(x.spec, v.spec, specRegion, region);
    assert AirflowClusterBody(x, v, region, false);
  }

  lemma AirflowClusterSpecGrows(
      x: AirflowClusterSpec, v: AirflowClusterSpecValue, region: set<object>, larger: set<object>)
    requires AirflowClusterSpecRep(x, v, region, true) && region <= larger
    ensures AirflowClusterSpecRep(x, v, larger, true)
  {
    assert AirflowClusterSpecBody(x, v, region, true);
    FoldAirflowClusterSpec(x, v, larger);
  }

  ghost predicate AirflowClusterPtrRep(p: Ptr?<AirflowCluster>, v: Option<AirflowClusterValue>, tree: bool)
    reads PtrCell(p)
  {
    (p == null <==> v.None?) && forall t: bool :: (t ==> tree) ==> AirflowClusterPtrBody(p, v, t)
  }

  ghost predicate AirflowClusterPtrBody(p: Ptr?<AirflowCluster>, v: Option<AirflowClusterValue>, tree: bool)
    reads PtrCell(p)
  {
    p != null && v.Some? ==> (tree ==> p !in p.below) && AirflowClusterRep(p.v, v.value, p.below, tree)
  }

  method AirflowClusterDeepCopyInto(
      src: Ptr<AirflowCluster>, out: Ptr<AirflowCluster>, ghost v: Option<AirflowClusterValue>)
    requires AirflowClusterPtrRep(src, v, false) && out !in PtrCell(src)
    modifies out
    ensures AirflowClusterPtrRep(out, v, true) && fresh(out.below)
  {
    assert AirflowClusterPtrBody(src, v, false);
    var y, region := AirflowClusterCopy(src.v, v.value, src.below);
    out.v, out.below := y, region;
  }

  method AirflowClusterDeepCopy(
      src: Ptr?<AirflowCluster>, ghost v: Option<AirflowClusterValue>, ghost used: set<object>)
    returns (out: Ptr?<AirflowCluster>)
    requires AirflowClusterPtrRep(src, v, false)
    ensures AirflowClusterPtrRep(out, v, true) && fresh(PtrCell(out)) && PtrCell(out) !! used
  {
    if src == null {
      return null;
    }
    assert AirflowClusterPtrBody(src, v, false);
    out := new Ptr<AirflowCluster>();
    assert AirflowClusterPtrBody(src, v, false);
    AirflowClusterDeepCopyInto(src, out, v);
  }

  ghost predicate AirflowClusterElements(
      a: seq<AirflowCluster>, v: seq<AirflowClusterValue>, parts: seq<set<object>>, within: set<object>, tree: bool)
    reads within
  {
    && |a| == |v| == |parts|
    && (tree ==> DisjointElements(parts))
    && (forall i :: 0 <= i < |a| ==> parts[i] <= within && AirflowClusterRep(a[i], v[i], parts[i], tree))
  }

  ghost predicate AirflowClusterSliceRep(s: Slice?<AirflowCluster>, v: Option<seq<AirflowClusterValue>>, tree: bool)
    reads SliceCell(s)
  {
    (s == null <==> v.None?) && forall t: bool :: (t ==> tree) ==> AirflowClusterSliceBody(s, v, t)
  }

  ghost predicate AirflowClusterSliceBody(s: Slice?<AirflowCluster>, v: Option<seq<AirflowClusterValue>>, tree: bool)
    reads SliceCell(s)
  {
    s != null && v.Some? ==>
      && (tree ==> s !in s.below && s.a !in s.below)
      && AirflowClusterElements(s.a[..], v.value, s.parts, s.below, tree)
  }

  method AirflowClusterSliceCopy(
      src: Slice?<AirflowCluster>, ghost v: Option<seq<AirflowClusterValue>>, ghost used: set<object>)
    returns (out: Slice?<AirflowCluster>)
    requires AirflowClusterSliceRep(src, v, false)
    ensures AirflowClusterSliceRep(out, v, true) && fresh(SliceCell(out)) && SliceCell(out) !! used
  {
    if src == null {
      return null;
    }
    assert AirflowClusterSliceBody(src, v, false);
    var a := new AirflowCluster[src.a.Length];
    ghost var copies: seq<AirflowCluster>, regions: seq<set<object>> := [], [];
    for i := 0 to src.a.Length
      invariant |copies| == |regions| == i && a[..i] == copies
      invariant forall j :: 0 <= j < i ==> fresh(regions[j]) && a !in regions[j]
      invariant forall j :: 0 <= j < i ==> AirflowClusterRep(copies[j], v.value[j], regions[j], true)
      invariant DisjointElements(regions)
    {
      assert AirflowClusterRep(src.a[..][i], v.value[i], src.parts[i], false);
      var y, region := AirflowClusterCopy(src.a[i], v.value[i], src.parts[i]);
      a[i] := y;
      copies, regions := copies + [y], regions + [region];
    }
    out := new Slice<AirflowCluster>(a, regions);
    assert a[..] == copies;
  }

  datatype AirflowClusterList = AirflowClusterList(typeMeta: string, listMeta: Lib, items: Slice?<AirflowCluster>)
  datatype AirflowClusterListValue =
    AirflowClusterListValue(typeMeta: string, listMeta: LibValue, items: Option<seq<AirflowClusterValue>>)

  ghost predicate AirflowClusterListRep(
      x: AirflowClusterList, v: AirflowClusterListValue, region: set<object>, tree: bool)
    reads region
  {
    forall t: bool :: (t ==> tree) ==> AirflowClusterListBody(x, v, region, t)
  }

  ghost predicate AirflowClusterListBody(
      x: AirflowClusterList, v: AirflowClusterListValue, region: set<object>, tree: bool)
    reads region
  {
    && x.typeMeta == v.typeMeta
    && Ref(x.listMeta.buffer) <= region && LibRep(x.listMeta, v.listMeta, region, tree)
    && Ref(x.items) <= region && SliceCell(x.items) <= region && AirflowClusterSliceRep(x.items, v.items, tree)
    && (tree ==> Ref(x.listMeta.buffer) !! SliceCell(x.items))
  }

  method AirflowClusterListCopy(x: AirflowClusterList, ghost v: AirflowClusterListValue, ghost within: set<object>)
    returns (y: AirflowClusterList, ghost region: set<object>)
    requires AirflowClusterListRep(x, v, within, false)
    ensures fresh(region) && AirflowClusterListRep(y, v, region, true)
  {
    assert AirflowClusterListBody(x, v, within, false);
    y := x;
    var listMeta, metaRegion := LibCopy(x.listMeta, v.listMeta, within);
    var items := AirflowClusterSliceCopy(x.items, v.items, metaRegion);
    y := y.(listMeta := listMeta, items := items);
    region := metaRegion + SliceCell(items);
    assert LibBody(listMeta, v.listMeta, metaRegion, true);
    assert LibBody(listMeta, v.listMeta, region, true);
    FoldAirflowClusterList(y, v, region);
  }

  lemma FoldAirflowClusterList(x: AirflowClusterList, v: AirflowClusterListValue, region: set<object>)
    requires AirflowClusterListBody(x, v, region, true)
    ensures AirflowClusterListRep(x, v, region, true)
  {
  }

  ghost predicate AirflowClusterListPtrRep(p: Ptr?<AirflowClusterList>, v: Option<AirflowClusterListValue>, tree: bool)
    reads PtrCell(p)
  {
    (p == null <==> v.None?) && forall t: bool :: (t ==> tree) ==> AirflowClusterListPtrBody(p, v, t)
  }

  ghost predicate AirflowClusterListPtrBody(p: Ptr?<AirflowClusterList>, v: Option<AirflowClusterListValue>, tree: bool)
    reads PtrCell(p)
  {
    p != null && v.Some? ==> (tree ==> p !in p.below) && AirflowClusterListRep(p.v, v.value, p.below, tree)
  }

  method AirflowClusterListDeepCopyInto(
      src: Ptr<AirflowClusterList>, out: Ptr<AirflowClusterList>, ghost v: Option<AirflowClusterListValue>)
    requires AirflowClusterListPtrRep(src, v, false) && out !in PtrCell(src)
    modifies out
    ensures AirflowClusterListPtrRep(out, v, true) && fresh(out.below)
  {
    assert AirflowClusterListPtrBody(src, v, false);
    var y, region := AirflowClusterListCopy(src.v, v.value, src.below);
    out.v, out.below := y, region;
  }

  method AirflowClusterListDeepCopy(
      src: Ptr?<AirflowClusterList>, ghost v: Option<AirflowClusterListValue>, ghost used: set<object>)
    returns (out: Ptr?<AirflowClusterList>)
    requires AirflowClusterListPtrRep(src, v, false)
    ensures AirflowClusterListPtrRep(out, v, true) && fresh(PtrCell(out)) && PtrCell(out) !! used
  {
    if src == null {
      return null;
    }
    assert AirflowClusterListPtrBody(src, v, false);
    out := new Ptr<AirflowClusterList>();
    assert AirflowClusterListPtrBody(src, v, false);
    AirflowClusterListDeepCopyInto(src, out, v);
  }
}
