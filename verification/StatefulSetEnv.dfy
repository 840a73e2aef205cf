/**
 The environment of the main container (internal/controller/common/statefulset.go): how the variables are
 assembled, and whether the credentials of an OIDC provider get there.
 */
module StatefulSetEnv {
  import opened Wrappers
  import opened EnvVars
  import opened RoleNames
  import opened AuthenticatorTypes
  import Aggregates = AuthenticationAggregates
  import opened NewAuthentication

  /** The source's int32; any other number is an unknown executor. */
  datatype ExecutorType = LocalExecutor | CeleryExecutor | KubernetesExecutor | OtherExecutor(number: int)

  function GetExecutorName(executor: ExecutorType): string {
    match executor
    case LocalExecutor => "LocalExecutor"
    case CeleryExecutor => "CeleryExecutor"
    case KubernetesExecutor => "KubernetesExecutor"
    case OtherExecutor(_) => "UnknownExecutor"
  }

  /** What the builder reads of the cluster configuration; gitFolders has one entry per git-sync. */
  datatype ClusterConfig =
    ClusterConfig(credentials: string, gitFolders: seq<string>, loadExamples: bool, exposeConfig: bool)

  function FormatBool(b: bool): string {
    if b then "true" else "false"
  }

  function GitFolder(c: ClusterConfig): string {
    if c.gitFolders == [] then "" else c.gitFolders[0]
  }

  function PathVars(gitFolder: string): seq<EnvVar> {
    [EnvVar("PYTHONPATH", PythonPath(gitFolder)), EnvVar("AIRFLOW__CORE__DAGS_FOLDER", DagFolder(gitFolder))]
  }

  const FIXED_VARS :=
    [EnvVar("AIRFLOW__LOGGING__LOGGING_CONFIG_CLASS", Plain("log_config.LOGGING_CONFIG")),
     EnvVar("AIRFLOW__METRICS__STATSD_ON", Plain("True")), EnvVar("AIRFLOW__METRICS__STATSD_HOST", Plain("0.0.0.0")),
     EnvVar("AIRFLOW__METRICS__STATSD_PORT", Plain("8125")),
     EnvVar("AIRFLOW__API__AUTH_BACKENDS", Plain("airflow.api.auth.backend.basic_auth"))]

  function FlagVars(c: ClusterConfig, executor: ExecutorType): seq<EnvVar> {
    [EnvVar("AIRFLOW__CORE__LOAD_EXAMPLES", Plain(FormatBool(c.loadExamples))),
     EnvVar("AIRFLOW__WEBSERVER__EXPOSE_CONFIG", Plain(FormatBool(c.exposeConfig))),
     EnvVar("AIRFLOW__CORE__EXECUTOR", Plain(GetExecutorName(executor)))]
  }

  /** Names, each with its key in the secret that holds the credentials. */
  type Keys = seq<(string, string)>

  const BASE_KEYS: Keys :=
    [("AIRFLOW__WEBSERVER__SECRET_KEY", "appSecretKey"),
     ("AIRFLOW__DATABASE__SQL_ALCHEMY_CONN", "connections.sqlalchemyDatabaseUri")]

  const CELERY_KEYS: Keys :=
    [("AIRFLOW__CELERY__RESULT_BACKEND", "connections.celeryResultBackend"),
     ("AIRFLOW__CELERY__BROKER_URL", "connections.celeryBrokerUrl")]

  const ADMIN_KEYS: Keys :=
    [("ADMIN_USERNAME", "adminUser.username"), ("ADMIN_FIRSTNAME", "adminUser.firstname"),
     ("ADMIN_LASTNAME", "adminUser.lastname"), ("ADMIN_EMAIL", "adminUser.email"),
     ("ADMIN_PASSWORD", "adminUser.password")]

  function SecretVars(credentials: string, keys: Keys): (r: seq<EnvVar>)
    ensures |r| == |keys|
    ensures forall i :: 0 <= i < |r| ==> r[i] == EnvVar(keys[i].0, FromSecret(credentials, keys[i].1))
  {
    seq(|keys|, i requires 0 <= i < |keys| => EnvVar(keys[i].0, FromSecret(credentials, keys[i].1)))
  }

  function BaseVars(c: ClusterConfig, gitFolder: string, executor: ExecutorType): seq<EnvVar> {
    PathVars(gitFolder) + FIXED_VARS + SecretVars(c.credentials, BASE_KEYS) + FlagVars(c, executor)
  }

  datatype EnvResult = Env(vars: seq<EnvVar>) | NoCredentials | NilDereference

  /** The variables that do not depend on authentication. */
  function OwnVars(roleName: string, c: ClusterConfig, executor: ExecutorType): seq<EnvVar> {
    var base := BaseVars(c, GitFolder(c), executor);
    var vars := if executor == CeleryExecutor then base + SecretVars(c.credentials, CELERY_KEYS) else base;
    if roleName == SCHEDULERS then vars + SecretVars(c.credentials, ADMIN_KEYS) else vars
  }

  /** No OIDC entry whose variables are asked for lacks its section. */
  ghost predicate AuthVarsExist(roleGroupName: string, auth: Option<Aggregates.Lists>) {
    roleGroupName == WEBSERVERS && auth.Some? ==> Aggregates.ConfiguredOidc(ListOf(auth.value, OIDC))
  }

  /** All variables; those for authentication go by the name of the role group, not of the role. */
  ghost function MainContainerVars(
    roleName: string, roleGroupName: string, c: ClusterConfig, executor: ExecutorType,
    auth: Option<Aggregates.Lists>): seq<EnvVar>
    requires AuthVarsExist(roleGroupName, auth)
  {
    var vars := OwnVars(roleName, c, executor);
    if roleGroupName == WEBSERVERS && auth.Some? then vars + Aggregates.OidcEnvVars(ListOf(auth.value, OIDC)) else vars
  }

  // ---------- What the variables are ----------

  ghost predicate IsPathVar(v: EnvVar, c: ClusterConfig) {
    var folder := if |c.gitFolders| > 0 then c.gitFolders[0] else "";
    || v == EnvVar("PYTHONPATH", PythonPath(folder))
    || v == EnvVar("AIRFLOW__CORE__DAGS_FOLDER", DagFolder(folder))
  }

  ghost predicate IsFixedVar(v: EnvVar) {
    || v == EnvVar("AIRFLOW__LOGGING__LOGGING_CONFIG_CLASS", Plain("log_config.LOGGING_CONFIG"))
    || v == EnvVar("AIRFLOW__METRICS__STATSD_ON", Plain("True"))
    || v == EnvVar("AIRFLOW__METRICS__STATSD_HOST", Plain("0.0.0.0"))
    || v == EnvVar("AIRFLOW__METRICS__STATSD_PORT", Plain("8125"))
    || v == EnvVar("AIRFLOW__API__AUTH_BACKENDS", Plain("airflow.api.auth.backend.basic_auth"))
  }

  ghost predicate IsFlagVar(v: EnvVar, c: ClusterConfig, executor: ExecutorType) {
    || v == EnvVar("AIRFLOW__CORE__LOAD_EXAMPLES", Plain(if c.loadExamples then "true" else "false"))
    || v == EnvVar("AIRFLOW__WEBSERVER__EXPOSE_CONFIG", Plain(if c.exposeConfig then "true" else "false"))
    || v == EnvVar("AIRFLOW__CORE__EXECUTOR", Plain(match executor
                                                    case LocalExecutor => "LocalExecutor"
                                                    case CeleryExecutor => "CeleryExecutor"
                                                    case KubernetesExecutor => "KubernetesExecutor"
                                                    case OtherExecutor(_) => "UnknownExecutor"))
  }

  ghost predicate IsBaseSecretVar(v: EnvVar, credentials: string) {
    || v == EnvVar("AIRFLOW__WEBSERVER__SECRET_KEY", FromSecret(credentials, "appSecretKey"))
    || v == EnvVar("AIRFLOW__DATABASE__SQL_ALCHEMY_CONN", FromSecret(credentials, "connections.sqlalchemyDatabaseUri"))
  }

  ghost predicate IsCeleryVar(v: EnvVar, credentials: string) {
    || v == EnvVar("AIRFLOW__CELERY__RESULT_BACKEND", FromSecret(credentials, "connections.celeryResultBackend"))
    || v == EnvVar("AIRFLOW__CELERY__BROKER_URL", FromSecret(credentials, "connections.celeryBrokerUrl"))
  }

  ghost predicate IsAdminVar(v: EnvVar, credentials: string) {
    || v == EnvVar("ADMIN_USERNAME", FromSecret(credentials, "adminUser.username"))
    || v == EnvVar("ADMIN_FIRSTNAME", FromSecret(credentials, "adminUser.firstname"))
    || v == EnvVar("ADMIN_LASTNAME", FromSecret(credentials, "adminUser.lastname"))
    || v == EnvVar("ADMIN_EMAIL", FromSecret(credentials, "adminUser.email"))
    || v == EnvVar("ADMIN_PASSWORD", FromSecret(credentials, "adminUser.password"))
  }

  /** Each variable that does not depend on authentication, with what it is set to: the Celery connections for
      the Celery executor only, and the administrator for the schedulers only. */
  ghost predicate IsOwnVar(v: EnvVar, roleName: string, c: ClusterConfig, executor: ExecutorType) {
    || IsPathVar(v, c) || IsFixedVar(v) || IsBaseSecretVar(v, c.credentials) || IsFlagVar(v, c, executor)
    || (executor.CeleryExecutor? && IsCeleryVar(v, c.credentials))
    || (roleName == "schedulers" && IsAdminVar(v, c.credentials))
  }

  /** The credentials of one of the OIDC authenticators, for a role group called "webservers". */
  ghost predicate IsAuthVar(v: EnvVar, roleGroupName: string, auth: Option<Aggregates.Lists>) {
    roleGroupName == "webservers" && auth.Some?
    && exists i :: 0 <= i < |ListOf(auth.value, OIDC)| && IsClientVar(v, ListOf(auth.value, OIDC)[i])
  }

  ghost predicate IsClientVar(v: EnvVar, a: Authenticator) {
    && a.OidcAuthenticator? && a.config.Some?
    && (|| v == EnvVar("OIDC_CLIENT_ID", FromSecret(a.config.value.clientCredentialsSecret, "CLIENT_ID"))
        || v == EnvVar("OIDC_CLIENT_SECRET", FromSecret(a.config.value.clientCredentialsSecret, "CLIENT_SECRET")))
  }

  ghost predicate NamesDiffer(vars: seq<EnvVar>) {
    forall i, j :: 0 <= i < j < |vars| ==> vars[i].name != vars[j].name
  }

  lemma BaseVarsAreOwn(c: ClusterConfig, executor: ExecutorType)
    ensures forall v :: v in PathVars(GitFolder(c)) <==> IsPathVar(v, c)
    ensures forall v :: v in FIXED_VARS <==> IsFixedVar(v)
    ensures forall v :: v in FlagVars(c, executor) <==> IsFlagVar(v, c, executor)
  {
  }

  lemma BaseSecretVarsAreOwn(credentials: string)
    ensures forall v :: v in SecretVars(credentials, BASE_KEYS) <==> IsBaseSecretVar(v, credentials)
  {
    var r := SecretVars(credentials, BASE_KEYS);
    assert r == [r[0], r[1]];
  }

  lemma CeleryVarsAreOwn(credentials: string)
    ensures forall v :: v in SecretVars(credentials, CELERY_KEYS) <==> IsCeleryVar(v, credentials)
  {
    var r := SecretVars(credentials, CELERY_KEYS);
    assert r == [r[0], r[1]];
  }

  lemma AdminVarsAreOwn(credentials: string)
    ensures forall v :: v in SecretVars(credentials, ADMIN_KEYS) <==> IsAdminVar(v, credentials)
  {
    var r := SecretVars(credentials, ADMIN_KEYS);
    assert r == [r[0], r[1], r[2], r[3], r[4]];
  }

  /** The variables are these and no others. */
  lemma OwnVarsExactly(roleName: string, c: ClusterConfig, executor: ExecutorType)
    ensures forall v :: v in OwnVars(roleName, c, executor) <==> IsOwnVar(v, roleName, c, executor)
  {
    BaseVarsAreOwn(c, executor);
    BaseSecretVarsAreOwn(c.credentials);
    CeleryVarsAreOwn(c.credentials);
    AdminVarsAreOwn(c.credentials);
  }

  lemma {:induction false} AuthVarsExactly(list: seq<Authenticator>)
    requires Aggregates.ConfiguredOidc(list)
    ensures forall v :: v in Aggregates.OidcEnvVars(list) <==>
                          exists i :: 0 <= i < |list| && IsClientVar(v, list[i])
  {
    var vars := Aggregates.OidcEnvVars(list);
    forall v | v in vars
      ensures exists i :: 0 <= i < |list| && IsClientVar(v, list[i])
    {
      var k :| 0 <= k < |vars| && vars[k] == v;
      assert k == 2 * (k / 2) || k == 2 * (k / 2) + 1;
      assert IsClientVar(v, list[k / 2]);
    }
    forall v, i | 0 <= i < |list| && IsClientVar(v, list[i])
      ensures v in vars
    {
      assert v == vars[2 * i] || v == vars[2 * i + 1];
    }
  }

  // The names have fixed places, told apart by length and at most two letters.
  function Place(name: string): nat {
    if |name| < 10 then 0
    else
      match |name|
      case 10 => 1
      case 26 => 2
      case 38 => 3
      case 27 => if name[9] == 'M' then 4 else if name[9] == 'A' then 7 else 14
      case 29 => if name[25] == 'H' then 5 else 6
      case 30 => 8
      case 35 => 9
      case 28 => 10
      case 33 => 11
      case 23 => 12
      case 31 => 13
      case 14 => if name[9] == 'R' then 15 else if name[9] == 'T' then 17 else if name[9] == 'S' then 19 else 20
      case 15 => 16
      case 11 => 18
      case _ => 21
  }

  ghost predicate InPlace(vars: seq<EnvVar>, from: nat, to: nat) {
    && (forall i :: 0 <= i < |vars| ==> from <= Place(vars[i].name) < to)
    && (forall i, j :: 0 <= i < j < |vars| ==> Place(vars[i].name) < Place(vars[j].name))
  }

  lemma InPlaceConcat(a: seq<EnvVar>, b: seq<EnvVar>, from: nat, mid: nat, to: nat)
    requires InPlace(a, from, mid) && InPlace(b, mid, to) && from <= mid <= to
    ensures InPlace(a + b, from, to)
  {
    var c := a + b;
    assert forall i :: 0 <= i < |a| ==> c[i] == a[i];
    assert forall i :: |a| <= i < |c| ==> c[i] == b[i - |a|];
  }

  lemma SideBySide(vars: seq<EnvVar>, from: nat)
    requires forall i :: 0 <= i < |vars| ==> Place(vars[i].name) == from + i
    ensures InPlace(vars, from, from + |vars|)
  {
  }

  lemma PlainVarsInPlace(gitFolder: string, c: ClusterConfig, executor: ExecutorType)
    ensures InPlace(PathVars(gitFolder), 1, 3) && InPlace(FlagVars(c, executor), 10, 13)
  {
    SideBySide(PathVars(gitFolder), 1);
    SideBySide(FlagVars(c, executor), 10);
  }

  lemma FixedVarsInPlace()
    ensures InPlace(FIXED_VARS, 3, 8)
  {
    assert Place(FIXED_VARS[0].name) == 3 && Place(FIXED_VARS[1].name) == 4 && Place(FIXED_VARS[2].name) == 5;
    assert Place(FIXED_VARS[3].name) == 6 && Place(FIXED_VARS[4].name) == 7;
    SideBySide(FIXED_VARS, 3);
  }

  lemma KeysInPlace(credentials: string, keys: Keys, from: nat)
    requires forall i :: 0 <= i < |keys| ==> Place(keys[i].0) == from + i
    ensures InPlace(SecretVars(credentials, keys), from, from + |keys|)
  {
    SideBySide(SecretVars(credentials, keys), from);
  }

  lemma SecretVarsInPlace(credentials: string)
    ensures InPlace(SecretVars(credentials, BASE_KEYS), 8, 10)
    ensures InPlace(SecretVars(credentials, CELERY_KEYS), 13, 15)
    ensures InPlace(SecretVars(credentials, ADMIN_KEYS), 15, 20)
  {
    KeyPlaces();
    AdminPlaces();
    KeysInPlace(credentials, BASE_KEYS, 8);
    KeysInPlace(credentials, CELERY_KEYS, 13);
    KeysInPlace(credentials, ADMIN_KEYS, 15);
  }

  lemma KeyPlaces()
    ensures |BASE_KEYS| == |CELERY_KEYS| == 2
    ensures Place(BASE_KEYS[0].0) == 8 && Place(BASE_KEYS[1].0) == 9
    ensures Place(CELERY_KEYS[0].0) == 13 && Place(CELERY_KEYS[1].0) == 14
  {
  }

  lemma AdminPlaces()
    ensures |ADMIN_KEYS| == 5
    ensures Place(ADMIN_KEYS[0].0) == 15 && Place(ADMIN_KEYS[1].0) == 16 && Place(ADMIN_KEYS[2].0) == 17
    ensures Place(ADMIN_KEYS[3].0) == 18 && Place(ADMIN_KEYS[4].0) == 19
  {
  }

  lemma BaseVarsInPlace(gitFolder: string, c: ClusterConfig, executor: ExecutorType)
    ensures InPlace(BaseVars(c, gitFolder, executor), 1, 13)
  {
    PlainVarsInPlace(gitFolder, c, executor);
    FixedVarsInPlace();
    SecretVarsInPlace(c.credentials);
    var keys := SecretVars(c.credentials, BASE_KEYS);
    InPlaceConcat(PathVars(gitFolder), FIXED_VARS, 1, 3, 8);
    InPlaceConcat(PathVars(gitFolder) + FIXED_VARS, keys, 1, 8, 10);
    InPlaceConcat(PathVars(gitFolder) + FIXED_VARS + keys, FlagVars(c, executor), 1, 10, 13);
  }

  lemma OwnVarsInPlace(roleName: string, c: ClusterConfig, executor: ExecutorType)
    ensures InPlace(OwnVars(roleName, c, executor), 1, 20)
  {
    var folder := GitFolder(c);
    BaseVarsInPlace(folder, c, executor);
    SecretVarsInPlace(c.credentials);
    var base := BaseVars(c, folder, executor);
    var celery := SecretVars(c.credentials, CELERY_KEYS);
    InPlaceConcat(base, celery, 1, 13, 15);
    var vars := if executor == CeleryExecutor then base + celery else base;
    assert InPlace(vars, 1, 15);
    InPlaceConcat(vars, SecretVars(c.credentials, ADMIN_KEYS), 1, 15, 20);
  }

  lemma ClientPlaces()
    ensures Place("OIDC_CLIENT_ID") == 20 && Place("OIDC_CLIENT_SECRET") == 21
  {
    assert "OIDC_CLIENT_ID"[9] == 'N';
  }

  /** No two variables have one name, unless more than one OIDC authenticator sets its credentials: then the
      names of the first are set again by the second. */
  lemma NamesDifferExactly(
    roleName: string, roleGroupName: string, c: ClusterConfig, executor: ExecutorType,
    auth: Option<Aggregates.Lists>)
    requires AuthVarsExist(roleGroupName, auth)
    ensures NamesDiffer(MainContainerVars(roleName, roleGroupName, c, executor, auth)) <==>
              !(roleGroupName == WEBSERVERS && auth.Some? && |ListOf(auth.value, OIDC)| > 1)
  {
    var own := OwnVars(roleName, c, executor);
    OwnVarsInPlace(roleName, c, executor);
    if roleGroupName == WEBSERVERS && auth.Some? {
      ClientNamesDiffer(own, ListOf(auth.value, OIDC));
    }
  }

  lemma ClientNamesDiffer(own: seq<EnvVar>, list: seq<Authenticator>)
    requires InPlace(own, 1, 20) && Aggregates.ConfiguredOidc(list)
    ensures NamesDiffer(own + Aggregates.OidcEnvVars(list)) <==> |list| <= 1
  {
    var more := Aggregates.OidcEnvVars(list);
    var all := own + more;
    if |list| > 1 {
      assert more[2 * 0].name == more[2 * 1].name;
      assert all[|own|] == more[0] && all[|own| + 2] == more[2];
    } else {
      ClientVarsInPlace(list);
      InPlaceConcat(own, more, 1, 20, 22);
    }
  }

  lemma ClientVarsInPlace(list: seq<Authenticator>)
    requires Aggregates.ConfiguredOidc(list) && |list| <= 1
    ensures InPlace(Aggregates.OidcEnvVars(list), 20, 22)
  {
    ClientPlaces();
    var vars := Aggregates.OidcEnvVars(list);
    if |list| == 1 {
      assert vars[2 * 0].name == "OIDC_CLIENT_ID" && vars[2 * 0 + 1].name == "OIDC_CLIENT_SECRET";
    }
  }

  lemma VarsExactly(
    roleName: string, roleGroupName: string, c: ClusterConfig, executor: ExecutorType,
    auth: Option<Aggregates.Lists>)
    requires AuthVarsExist(roleGroupName, auth)
    ensures
      var vars := MainContainerVars(roleName, roleGroupName, c, executor, auth);
      && (forall v :: v in vars <==> IsOwnVar(v, roleName, c, executor) || IsAuthVar(v, roleGroupName, auth))
      && (NamesDiffer(vars) <==> !(roleGroupName == WEBSERVERS && auth.Some? && |ListOf(auth.value, OIDC)| > 1))
  {
    OwnVarsExactly(roleName, c, executor);
    NamesDifferExactly(roleName, roleGroupName, c, executor, auth);
    if roleGroupName == WEBSERVERS && auth.Some? {
      AuthVarsExactly(ListOf(auth.value, OIDC));
    }
  }

  // ---------- The builder ----------

  // The loop over the names of the administrator's variables.
  method AppendSecretVars(vars: seq<EnvVar>, credentials: string, keys: Keys) returns (r: seq<EnvVar>)
    ensures r == vars + SecretVars(credentials, keys)
  {
    r := vars;
    for i := 0 to |keys|
      invariant r == vars + SecretVars(credentials, keys)[..i]
    {
      r := r + [EnvVar(keys[i].0, FromSecret(credentials, keys[i].1))];
    }
    assert SecretVars(credentials, keys)[..|keys|] == SecretVars(credentials, keys);
  }

  class StatefulSetBuilder {
    const roleName: string
    const roleGroupName: string
    const clusterConfig: Option<ClusterConfig>
    const executor: ExecutorType
    var auth: Option<Aggregates.Lists>

    /** NewStatefulSetBuilder: its `auth` argument is not put in the struct. */
    constructor (
      roleName: string, roleGroupName: string, clusterConfig: Option<ClusterConfig>, executor: ExecutorType,
      auth: Option<Aggregates.Lists>)
      ensures this.roleName == roleName && this.roleGroupName == roleGroupName
      ensures this.clusterConfig == clusterConfig && this.executor == executor
      ensures this.auth == None
    {
      this.roleName, this.roleGroupName := roleName, roleGroupName;
      this.clusterConfig, this.executor := clusterConfig, executor;
      this.auth := None;
    }

    method SetMainContainerEnv() returns (r: EnvResult)
      requires auth.Some? ==> Aggregates.Typed(auth.value)
      ensures r.NoCredentials? <==> clusterConfig.Some? && clusterConfig.value.credentials == ""
      ensures r.NilDereference? <==>
                clusterConfig.None?
                || (clusterConfig.value.credentials != "" && !AuthVarsExist(roleGroupName, auth))
      ensures r.Env? ==>
                r.vars == MainContainerVars(roleName, roleGroupName, clusterConfig.value, executor, auth)
      ensures r.Env? ==> forall v :: v in r.vars <==>
                IsOwnVar(v, roleName, clusterConfig.value, executor) || IsAuthVar(v, roleGroupName, auth)
      ensures r.Env? ==>
                (NamesDiffer(r.vars) <==>
                  !(roleGroupName == "webservers" && auth.Some? && |ListOf(auth.value, OIDC)| > 1))
    {
      if clusterConfig.None? {
        return NilDereference;
      }
      var c := clusterConfig.value;
      if c.credentials == "" {
        return NoCredentials;
      }
      var gitFolder := "";
      if |c.gitFolders| > 0 {
        var dag := c.gitFolders[0];
        if dag != "" {
          gitFolder := dag;
        }
      }
      var envs := BaseVars(c, gitFolder, executor);
      assert gitFolder == GitFolder(c);
      if executor == CeleryExecutor {
        envs := envs + SecretVars(c.credentials, CELERY_KEYS);
      }
      if roleName == SCHEDULERS {
        envs := AppendSecretVars(envs, c.credentials, ADMIN_KEYS);
      }
      assert envs == OwnVars(roleName, c, executor);
      if roleGroupName == WEBSERVERS && auth.Some? {
        var more := Aggregates.GetEnvVars(auth.value);
        if more.None? {
          assert !AuthVarsExist(roleGroupName, auth);
          return NilDereference;
        }
        envs := envs + more.value;
      }
      assert AuthVarsExist(roleGroupName, auth);
      VarsExactly(roleName, roleGroupName, c, executor, auth);
      r := Env(envs);
    }
  }

  predicate IsOidcVariable(v: EnvVar) {
    v.name == Aggregates.ENV_KEY_OIDC_CLIENT_ID || v.name == Aggregates.ENV_KEY_OIDC_CLIENT_SECRET
  }

  predicate NoOidcVariable(vars: seq<EnvVar>) {
    forall v :: v in vars ==> !IsOidcVariable(v)
  }

  lemma OwnVarsAreNotOidc(roleName: string, c: ClusterConfig, executor: ExecutorType)
    ensures NoOidcVariable(OwnVars(roleName, c, executor))
  {
    OwnVarsInPlace(roleName, c, executor);
    ClientPlaces();
  }

  /** The OIDC credentials, which the web server's configuration reads from its environment, are in the
      container if and only if the builder has an authentication with an OIDC provider and the role group,
      of whatever role, is called "webservers". */
  lemma OidcVariablesArriveExactly(
    roleName: string, roleGroupName: string, c: ClusterConfig, executor: ExecutorType,
    auth: Option<Aggregates.Lists>)
    requires AuthVarsExist(roleGroupName, auth)
    ensures (exists v :: v in MainContainerVars(roleName, roleGroupName, c, executor, auth) && IsOidcVariable(v)) <==>
              roleGroupName == WEBSERVERS && auth.Some? && ListOf(auth.value, OIDC) != []
  {
    OwnVarsAreNotOidc(roleName, c, executor);
    if roleGroupName == WEBSERVERS && auth.Some? && ListOf(auth.value, OIDC) != [] {
      var first := MainContainerVars(roleName, roleGroupName, c, executor, auth)[|OwnVars(roleName, c, executor)|];
      assert first == Aggregates.OidcEnvVars(ListOf(auth.value, OIDC))[2 * 0] && IsOidcVariable(first);
    }
  }

  /** As the builder drops its `auth` argument, no container gets them. */
  method ContainerEnv(
    roleName: string, roleGroupName: string, clusterConfig: Option<ClusterConfig>, executor: ExecutorType,
    auth: Option<Aggregates.Lists>)
    returns (r: EnvResult)
    ensures r.Env? <==> clusterConfig.Some? && clusterConfig.value.credentials != ""
    ensures r.Env? ==> r.vars == OwnVars(roleName, clusterConfig.value, executor)
    ensures r.Env? ==> NoOidcVariable(r.vars)
  {
    var builder := new StatefulSetBuilder(roleName, roleGroupName, clusterConfig, executor, auth);
    r := builder.SetMainContainerEnv();
    if clusterConfig.Some? {
      OwnVarsAreNotOidc(roleName, clusterConfig.value, executor);
    }
  }
}
