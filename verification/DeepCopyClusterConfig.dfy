module DeepCopyClusterConfig {
  import opened Wrappers
  import opened GoMemory
  import opened DeepCopyLibrary

  datatype AuthenticationSpec = AuthenticationSpec(
    authenticationClass: string, oidc: Ptr?<Lib>, syncRolesAt: string, userRegistration: bool,
    userRegistrationRole: string)
  datatype AuthenticationValue = AuthenticationValue(
    authenticationClass: string, oidc: Option<LibValue>, syncRolesAt: string, userRegistration: bool,
    userRegistrationRole: string)

  ghost predicate AuthenticationSpecRep(x: AuthenticationSpec, v: AuthenticationValue, region: set<object>, tree: bool)
    reads region
  {
    forall t: bool :: (t ==> tree) ==> AuthenticationSpecBody(x, v, region, t)
  }

  ghost predicate AuthenticationSpecBody(x: AuthenticationSpec, v: AuthenticationValue, region: set<object>, tree: bool)
    reads region
  {
    && Ref(x.oidc) <= region
    && PtrCell(x.oidc) <= region
    && LibPtrRep(x.oidc, v.oidc, tree)
    && x.authenticationClass == v.authenticationClass && x.syncRolesAt == v.syncRolesAt
    && x.userRegistration == v.userRegistration && x.userRegistrationRole == v.userRegistrationRole
  }

  method AuthenticationSpecCopy(x: AuthenticationSpec, ghost v: AuthenticationValue, ghost within: set<object>)
    returns (y: AuthenticationSpec, ghost region: set<object>)
    requires AuthenticationSpecRep(x, v, within, false)
    ensures fresh(region) && AuthenticationSpecRep(y, v, region, true)
  {
    assert AuthenticationSpecBody(x, v, within, false);
    y, region := x, {};
    var oidc := LibDeepCopy(x.oidc, v.oidc, region);
    y, region := y.(oidc := oidc), region + PtrCell(oidc);
  }

  ghost predicate AuthenticationElements(
      a: seq<AuthenticationSpec>, v: seq<AuthenticationValue>, parts: seq<set<object>>, within: set<object>,
      tree: bool)
    reads within
  {
    && |a| == |v| == |parts|
    && (tree ==> DisjointElements(parts))
    && (forall i :: 0 <= i < |a| ==> parts[i] <= within && AuthenticationSpecRep(a[i], v[i], parts[i], tree))
  }

  ghost predicate AuthenticationSliceRep(s: Slice?<AuthenticationSpec>, v: Option<seq<AuthenticationValue>>, tree: bool)
    reads SliceCell(s)
  {
    (s == null <==> v.None?) && forall t: bool :: (t ==> tree) ==> AuthenticationSliceBody(s, v, t)
  }

  ghost predicate AuthenticationSliceBody(
      s: Slice?<AuthenticationSpec>, v: Option<seq<AuthenticationValue>>, tree: bool)
    reads SliceCell(s)
  {
    s != null && v.Some? ==>
      && (tree ==> s !in s.below && s.a !in s.below)
      && AuthenticationElements(s.a[..], v.value, s.parts, s.below, tree)
  }

  method AuthenticationSliceCopy(
      src: Slice?<AuthenticationSpec>, ghost v: Option<seq<AuthenticationValue>>, ghost used: set<object>)
    returns (out: Slice?<AuthenticationSpec>)
    requires AuthenticationSliceRep(src, v, false)
    ensures AuthenticationSliceRep(out, v, true) && fresh(SliceCell(out)) && SliceCell(out) !! used
  {
    if src == null {
      return null;
    }
    assert AuthenticationSliceBody(src, v, false);
    var a := new AuthenticationSpec[src.a.Length];
    ghost var copies: seq<AuthenticationSpec>, regions: seq<set<object>> := [], [];
    for i := 0 to src.a.Length
      invariant |copies| == |regions| == i && a[..i] == copies
      invariant forall j :: 0 <= j < i ==> fresh(regions[j]) && a !in regions[j]
      invariant forall j :: 0 <= j < i ==> AuthenticationSpecRep(copies[j], v.value[j], regions[j], true)
      invariant DisjointElements(regions)
    {
      assert AuthenticationSpecRep(src.a[..][i], v.value[i], src.parts[i], false);
      var y, region := AuthenticationSpecCopy(src.a[i], v.value[i], src.parts[i]);
      a[i] := y;
      copies, regions := copies + [y], regions + [region];
    }
    out := new Slice<AuthenticationSpec>(a, regions);
    assert a[..] == copies;
  }

  datatype DagsGitSyncSpec = DagsGitSyncSpec(
    branch: string, crdentialsSecret: string, depth: Ptr?<int8>, gitFolder: string, gitSyncConf: GoMap?<string>,
    repo: string, wait: Ptr?<int16>)
  datatype DagsGitSyncValue = DagsGitSyncValue(
    branch: string, crdentialsSecret: string, depth: Option<int8>, gitFolder: string,
    gitSyncConf: Option<map<string, string>>, repo: string, wait: Option<int16>)

  ghost predicate DagsGitSyncSpecRep(x: DagsGitSyncSpec, v: DagsGitSyncValue, region: set<object>, tree: bool)
    reads region
  {
    forall t: bool :: (t ==> tree) ==> DagsGitSyncSpecBody(x, v, region, t)
  }

  ghost predicate DagsGitSyncSpecBody(x: DagsGitSyncSpec, v: DagsGitSyncValue, region: set<object>, tree: bool)
    reads region
  {
    && Ref(x.depth) <= region && Ref(x.gitSyncConf) <= region && Ref(x.wait) <= region
    && PtrCell(x.depth) <= region && MapCell(x.gitSyncConf) <= region && PtrCell(x.wait) <= region
    && x.branch == v.branch && x.crdentialsSecret == v.crdentialsSecret && x.gitFolder == v.gitFolder
    && x.repo == v.repo
    && FlatValue(x.depth) == v.depth && FlatMapValue(x.gitSyncConf) == v.gitSyncConf && FlatValue(x.wait) == v.wait
    && (tree ==>
        && PtrCell(x.depth) !! MapCell(x.gitSyncConf)
        && PtrCell(x.depth) !! PtrCell(x.wait)
        && MapCell(x.gitSyncConf) !! PtrCell(x.wait))
  }

  lemma FoldDagsGitSyncSpec(x: DagsGitSyncSpec, v: DagsGitSyncValue, region: set<object>)
    requires DagsGitSyncSpecBody(x, v, region, true)
    ensures DagsGitSyncSpecRep(x, v, region, true)
  {
  }

  method DagsGitSyncSpecCopy(x: DagsGitSyncSpec, ghost v: DagsGitSyncValue, ghost within: set<object>)
    returns (y: DagsGitSyncSpec, ghost region: set<object>)
    requires DagsGitSyncSpecRep(x, v, within, false)
    ensures fresh(region) && DagsGitSyncSpecRep(y, v, region, true)
  {
    assert DagsGitSyncSpecBody(x, v, within, false);
    y, region := x, {};
    var depth := FlatCopy(x.depth, region);
    y, region := y.(depth := depth), region + PtrCell(depth);
    var gitSyncConf := FlatMapCopy(x.gitSyncConf, region);
    y, region := y.(gitSyncConf := gitSyncConf), region + MapCell(gitSyncConf);
    var wait := FlatCopy(x.wait, region);
    y, region := y.(wait := wait), region + PtrCell(wait);
    FoldDagsGitSyncSpec(y, v, region);
  }

  ghost predicate DagsGitSyncElements(
      a: seq<DagsGitSyncSpec>, v: seq<DagsGitSyncValue>, parts: seq<set<object>>, within: set<object>, tree: bool)
    reads within
  {
    && |a| == |v| == |parts|
    && (tree ==> DisjointElements(parts))
    && (forall i :: 0 <= i < |a| ==> parts[i] <= within && DagsGitSyncSpecRep(a[i], v[i], parts[i], tree))
  }

  ghost predicate DagsGitSyncSliceRep(s: Slice?<DagsGitSyncSpec>, v: Option<seq<DagsGitSyncValue>>, tree: bool)
    reads SliceCell(s)
  {
    (s == null <==> v.None?) && forall t: bool :: (t ==> tree) ==> DagsGitSyncSliceBody(s, v, t)
  }

  ghost predicate DagsGitSyncSliceBody(s: Slice?<DagsGitSyncSpec>, v: Option<seq<DagsGitSyncValue>>, tree: bool)
    reads SliceCell(s)
  {
    s != null && v.Some? ==>
      && (tree ==> s !in s.below && s.a !in s.below)
      && DagsGitSyncElements(s.a[..], v.value, s.parts, s.below, tree)
  }

  method DagsGitSyncSliceCopy(
      src: Slice?<DagsGitSyncSpec>, ghost v: Option<seq<DagsGitSyncValue>>, ghost used: set<object>)
    returns (out: Slice?<DagsGitSyncSpec>)
    requires DagsGitSyncSliceRep(src, v, false)
    ensures DagsGitSyncSliceRep(out, v, true) && fresh(SliceCell(out)) && SliceCell(out) !! used
  {
    if src == null {
      return null;
    }
    assert DagsGitSyncSliceBody(src, v, false);
    var a := new DagsGitSyncSpec[src.a.Length];
    ghost var copies: seq<DagsGitSyncSpec>, regions: seq<set<object>> := [], [];
    for i := 0 to src.a.Length
      invariant |copies| == |regions| == i && a[..i] == copies
      invariant forall j :: 0 <= j < i ==> fresh(regions[j]) && a !in regions[j]
      invariant forall j :: 0 <= j < i ==> DagsGitSyncSpecRep(copies[j], v.value[j], regions[j], true)
      invariant DisjointElements(regions)
    {
      assert DagsGitSyncSpecRep(src.a[..][i], v.value[i], src.parts[i], false);
      var y, region := DagsGitSyncSpecCopy(src.a[i], v.value[i], src.parts[i]);
      a[i] := y;
      copies, regions := copies + [y], regions + [region];
    }
    out := new Slice<DagsGitSyncSpec>(a, regions);
    assert a[..] == copies;
  }

  datatype ClusterConfigSpec = ClusterConfigSpec(
    authentication: Slice?<AuthenticationSpec>, credentials: string, dagsGitSync: Slice?<DagsGitSyncSpec>,
    exposeConfig: bool, loadExamples: bool, listenerClass: string, vectorAggregatorConfigMapName: string,
    volumes: Slice?<Lib>, volumeMounts: Slice?<Lib>)
  datatype ClusterConfigValue = ClusterConfigValue(
    authentication: Option<seq<AuthenticationValue>>, credentials: string, dagsGitSync: Option<seq<DagsGitSyncValue>>,
    exposeConfig: bool, loadExamples: bool, listenerClass: string, vectorAggregatorConfigMapName: string,
    volumes: Option<seq<LibValue>>, volumeMounts: Option<seq<LibValue>>)

  ghost function ClusterConfigSpecListsCells(x: ClusterConfigSpec): set<object>
    reads x.authentication, x.dagsGitSync
  {
    SliceCell(x.authentication) + SliceCell(x.dagsGitSync)
  }

  ghost function ClusterConfigSpecStorageCells(x: ClusterConfigSpec): set<object>
    reads x.volumes, x.volumeMounts
  {
    SliceCell(x.volumes) + SliceCell(x.volumeMounts)
  }

  ghost predicate ClusterConfigSpecRep(x: ClusterConfigSpec, v: ClusterConfigValue, region: set<object>, tree: bool)
    reads region
  {
    forall t: bool :: (t ==> tree) ==> ClusterConfigSpecBody(x, v, region, t)
  }

  ghost predicate ClusterConfigSpecBody(x: ClusterConfigSpec, v: ClusterConfigValue, region: set<object>, tree: bool)
    reads region
  {
    && Ref(x.authentication) <= region && Ref(x.dagsGitSync) <= region && ClusterConfigSpecListsCells(x) <= region
    && Ref(x.volumes) <= region && Ref(x.volumeMounts) <= region && ClusterConfigSpecStorageCells(x) <= region
    && AuthenticationSliceRep(x.authentication, v.authentication, tree)
    && DagsGitSyncSliceRep(x.dagsGitSync, v.dagsGitSync, tree)
    && RawSliceRep(x.volumes, v.volumes, tree)
    && RawSliceRep(x.volumeMounts, v.volumeMounts, tree)
    && x.credentials == v.credentials && x.exposeConfig == v.exposeConfig && x.loadExamples == v.loadExamples
    && x.listenerClass == v.listenerClass && x.vectorAggregatorConfigMapName == v.vectorAggregatorConfigMapName
    && (tree ==>
        && SliceCell(x.authentication) !! SliceCell(x.dagsGitSync)
        && SliceCell(x.volumes) !! SliceCell(x.volumeMounts)
        && ClusterConfigSpecListsCells(x) !! ClusterConfigSpecStorageCells(x))
  }

  lemma FoldClusterConfigSpec(x: ClusterConfigSpec, v: ClusterConfigValue, region: set<object>)
    requires ClusterConfigSpecBody(x, v, region, true)
    ensures ClusterConfigSpecRep(x, v, region, true)
  {
  }

  method ClusterConfigSpecCopyLists(
      x: ClusterConfigSpec, ghost v: ClusterConfigValue, ghost within: set<object>, ghost used: set<object>)
    returns (authentication: Slice?<AuthenticationSpec>, dagsGitSync: Slice?<DagsGitSyncSpec>,
        ghost region: set<object>)
    requires ClusterConfigSpecRep(x, v, within, false)
    ensures fresh(region) && region !! used
    ensures SliceCell(authentication) <= region && AuthenticationSliceRep(authentication, v.authentication, true)
    ensures SliceCell(dagsGitSync) <= region && DagsGitSyncSliceRep(dagsGitSync, v.dagsGitSync, true)
    ensures SliceCell(authentication) !! SliceCell(dagsGitSync)
  {
    assert ClusterConfigSpecBody(x, v, within, false);
    region := {};
    authentication := AuthenticationSliceCopy(x.authentication, v.authentication, used + region);
    region := region + SliceCell(authentication);
    dagsGitSync := DagsGitSyncSliceCopy(x.dagsGitSync, v.dagsGitSync, used + region);
    region := region + SliceCell(dagsGitSync);
  }

  method ClusterConfigSpecCopyStorage(
      x: ClusterConfigSpec, ghost v: ClusterConfigValue, ghost within: set<object>, ghost used: set<object>)
    returns (volumes: Slice?<Lib>, volumeMounts: Slice?<Lib>, ghost region: set<object>)
    requires ClusterConfigSpecRep(x, v, within, false)
    ensures fresh(region) && region !! used
    ensures SliceCell(volumes) <= region && RawSliceRep(volumes, v.volumes, true)
    ensures SliceCell(volumeMounts) <= region && RawSliceRep(volumeMounts, v.volumeMounts, true)
    ensures SliceCell(volumes) !! SliceCell(volumeMounts)
  {
    assert ClusterConfigSpecBody(x, v, within, false);
    region := {};
    volumes := RawSliceCopy(x.volumes, v.volumes, used + region);
    region := region + SliceCell(volumes);
    volumeMounts := RawSliceCopy(x.volumeMounts, v.volumeMounts, used + region);
    region := region + SliceCell(volumeMounts);
  }

  method ClusterConfigSpecCopy(x: ClusterConfigSpec, ghost v: ClusterConfigValue, ghost within: set<object>)
    returns (y: ClusterConfigSpec, ghost region: set<object>)
    requires ClusterConfigSpecRep(x, v, within, false)
    ensures fresh(region) && ClusterConfigSpecRep(y, v, region, true)
  {
    assert ClusterConfigSpecBody(x, v, within, false);
    y, region := x, {};
    var authentication, dagsGitSync, region0 := ClusterConfigSpecCopyLists(x, v, within, region);
    region := region + region0;
    y := y.(authentication := authentication, dagsGitSync := dagsGitSync);
    var volumes, volumeMounts, region1 := ClusterConfigSpecCopyStorage(x, v, within, region);
    region := region + region1;
    y := y.(volumes := volumes, volumeMounts := volumeMounts);
    FoldClusterConfigSpec(y, v, region);
  }

  ghost predicate ClusterConfigSpecPtrRep(p: Ptr?<ClusterConfigSpec>, v: Option<ClusterConfigValue>, tree: bool)
    reads PtrCell(p)
  {
    (p == null <==> v.None?) && forall t: bool :: (t ==> tree) ==> ClusterConfigSpecPtrBody(p, v, t)
  }

  ghost predicate ClusterConfigSpecPtrBody(p: Ptr?<ClusterConfigSpec>, v: Option<ClusterConfigValue>, tree: bool)
    reads PtrCell(p)
  {
    p != null && v.Some? ==> (tree ==> p !in p.below) && ClusterConfigSpecRep(p.v, v.value, p.below, tree)
  }

  method ClusterConfigSpecDeepCopyInto(
      src: Ptr<ClusterConfigSpec>, out: Ptr<ClusterConfigSpec>, ghost v: Option<ClusterConfigValue>)
    requires ClusterConfigSpecPtrRep(src, v, false) && out !in PtrCell(src)
    modifies out
    ensures ClusterConfigSpecPtrRep(out, v, true) && fresh(out.below)
  {
    assert ClusterConfigSpecPtrBody(src, v, false);
    var y, region := ClusterConfigSpecCopy(src.v, v.value, src.below);
    out.v, out.below := y, region;
  }

  method ClusterConfigSpecDeepCopy(
      src: Ptr?<ClusterConfigSpec>, ghost v: Option<ClusterConfigValue>, ghost used: set<object>)
    returns (out: Ptr?<ClusterConfigSpec>)
    requires ClusterConfigSpecPtrRep(src, v, false)
    ensures ClusterConfigSpecPtrRep(out, v, true) && fresh(PtrCell(out)) && PtrCell(out) !! used
  {
    if src == null {
      return null;
    }
    assert ClusterConfigSpecPtrBody(src, v, false);
    out := new Ptr<ClusterConfigSpec>();
    assert ClusterConfigSpecPtrBody(src, v, false);
    ClusterConfigSpecDeepCopyInto(src, out, v);
  }
}
