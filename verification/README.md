# Verified model of airflow-operator

A Dafny 4.11 model of the parts of airflow-operator that have something to prove, and the proofs.

- **Shutdown protocol** (`ShutdownProtocol.dfy`, `ContainerShell.dfy`): the start scripts of the main and metric
  containers as data, and a transition system over TERM arrivals, child exits, shell steps and container restarts.
  Signals follow section 2.11 of POSIX.1-2017, Shell Command Language. bash's `-u` (`nounset`) and the disposition of an
  untrapped TERM (ignored for PID 1, fatal otherwise) are parameters. The variables of the script start with any
  value, since the container environment may set them.
- **Deep copy** (`GoMemory.dfy`, `DeepCopy*.dfy`): the generated copy functions over a heap of pointers, maps and
  slices. A source may share whole objects in any way. The ghost field `below` bounds what is reachable through an
  object; it is bookkeeping that any heap can be given.
- **Authentication** (`Authentication.dfy`, `StatefulSetEnv.dfy`): the validating loop, the aggregators over a map of
  lists, the configuration merge, and the way of the variables to the container.
- **Registration** (`Registration.dfy`): the loops over role groups, the resources they yield, and their keys.
- **Text transforms** (`TextTransforms.dfy`): line splitting and block uncommenting, with `bufio.Scanner` in full.

Go ranges over a map in no particular order. Loops over maps take a key with `:|`, so what is proved holds for every
order. A nil dereference is an outcome of its own (`Panic`, `Panicked`, `NilDereference` or `None`), not a precondition.

What the proofs say about the code, where it differs from what its comments or names suggest:

- With `-u`, which both containers use, a TERM handled before `term_child_pid` is set ends the shell instead of being
  deferred, so `term_kill_needed` is never set (`NounsetExactly`, `EarlyTerm`).
- `NewStatefulSetBuilder` does not store its `auth` argument, so the OIDC credentials that the web server's
  configuration reads from its environment never reach a container; had it stored them, the comparison of the role
  *group's* name with `webservers` would decide (`ContainerEnv`, `OidcVariablesArriveExactly`).
- Nothing calls `GetVolumes` and `GetVolumeMounts` of `Authentication` either (line 187 of `statefulset.go` calls the
  builder's own method), so the bind files that the LDAP configuration opens are not mounted through them.
- The OIDC template ranges over `providers` and reads fields of each element, but the data it gets there is one flat
  map of properties (`GetOidcData`), whose elements are strings.
- A TERM that arrives after the trap is reset ends a shell that is not PID 1, over a living child and before it has
  made the marker (`LateTerm`).
- With several LDAP authenticators the log says that the first one is used, but the last one's settings are
  (`GetLdapData`, `MergeConfigs`). That message is never logged, since a map has its LDAP key only once.
- Several OIDC authenticators set the same two variables, so only one of them can get its credentials
  (`NamesDifferExactly`).
- Two LDAP providers bound with one secret class give two volumes of one name (`VolumeNamesDifferExactly`).
- A webserver group's plain and metrics Services have one key (`KeysAreUniqueButForWebserverServices`).
- Uncommenting a block that was commented line by line restores the file exactly if no commented line ends in a
  carriage return or is too long for the scanner (`UncommentInvertsComment`, `CarriageReturnIsLost`).

## Model

| member | source | states |
|---|---|---|
| ShutdownProtocol.MainScriptFits | internal/controller/common/statefulset.go:193-239 | every role's script removes the left-over marker after setting the trap and before its only launch, then runs wait_for_termination, then leaves the marker |
| ShutdownProtocol.MainCommandsAreTheRoles | internal/controller/common/statefulset.go:193-239 | a script exists for three role names only; each has its own program in the background, and the scheduler's starts after the database commands and the creation of the administrator, which alone runs without tracing |
| ShutdownProtocol.RunKeepsInv | internal/controller/common/statefulset.go:45-74 | what holds at each point of a start script (trap, errexit, pid, deferred flag, child, counts of kills and caught TERMs) is kept by every run of events, restarts included |
| ShutdownProtocol.MarkerNeverLies | internal/controller/common/statefulset.go:231-237 | in every reachable state no living child exists beside the shutdown file, and once a child was launched the file exists exactly when the script has reached its end |
| ShutdownProtocol.NoTrappedTermIsLost | internal/controller/common/statefulset.go:53-73 | each single TERM that arrives while the trap is set is followed by a kill that reached the living child or found it gone, or the running shell still owes one, or nounset has ended the shell, or errexit has before there was a child; once the trap is reset, so at the second wait and on completion, only the first |
| ShutdownProtocol.CaughtTermsAreForwarded | internal/controller/common/statefulset.go:53-73 | in total: with any TERM caught, on entry to the second wait a kill has reached the child or found it gone; before that, without nounset, it is pending, deferred, delivered or moot |
| ShutdownProtocol.NounsetExactly | internal/controller/common/statefulset.go:46-60 | the shell ends on an unset variable if and only if nounset is on and a handler ran before the pid was set; the deferred flag is set if and only if nounset is off and one did |
| ShutdownProtocol.EarlyTerm | internal/controller/common/statefulset.go:53-68 | from every reachable state with the trap set and no pid, also inside a foreground command, a TERM kills the shell without a kill sent under nounset, and is remembered otherwise; a command that fails meanwhile ends the script by errexit before there is a child |
| ShutdownProtocol.LaunchWindowIsReachable | internal/controller/common/statefulset.go:193-239 | every start script, main or metric, reaches such a state with a living child; in a main script without the marker |
| ShutdownProtocol.LateTerm | internal/controller/common/statefulset.go:69-73 | every start script reaches its second wait over a living child, where a TERM does nothing if the shell is PID 1 and otherwise ends the shell, with the child left alive and no marker |
| ShutdownProtocol.ForwardingNeverAborts | internal/controller/common/statefulset.go:55-72 | no reachable state has the script ended by a failed kill, errexit is off wherever a kill can run, and kills are the handler runs that knew the pid plus one for a deferred TERM |
| ShutdownProtocol.ForegroundCommandReturns | internal/controller/common/statefulset.go:201-235 | from every reachable state inside a foreground command, trap and pending TERM or not, a failure ends the script by errexit before there is a child, and success goes on to the next command |
| ShutdownProtocol.OutsideEvents | internal/controller/common/statefulset.go:50-73 | a living child can exit at any time; a TERM is noted under the trap, ignored by an untrapped PID 1 and fatal to any other untrapped shell; a restart keeps the marker only |
| ShutdownProtocol.HistoryIsTrue | internal/controller/common/statefulset.go:53-68 | the counts that the other statements use grow exactly with the events they count: caught TERMs, handler runs without and with a pid, kills, and kills that found the child alive |
| ShutdownProtocol.CommandsAreBounded | internal/controller/common/statefulset.go:62-73 | in any run without restart the shell steps that are not handler runs are bounded by a measure that no event increases |
| ShutdownProtocol.ShutdownTerminates | internal/controller/common/statefulset.go:62-73 | from the launch on, whatever TERMs arrive and whatever the commands, the waits included, return, a run in which handlers run at most once per command has ended after a bounded number of shell steps; an ended run is complete, with the marker made, if and only if the final mkdir and touch did not fail, no TERM arrived untrapped (or the shell is PID 1) and, with nounset, no handler ran before the pid was known |
| ShutdownProtocol.CompletionIsReachable | internal/controller/common/statefulset.go:231-237 | every start script does complete, with and without a TERM on the way and with any status of its waits, after its child has exited; a main script has then made the marker, and a restart finds it |
| ShutdownProtocol.ShellBlocksOnlyOnChild | internal/controller/common/statefulset.go:69-71 | a running shell cannot step exactly when it is inside a wait with a living child and no pending TERM |
| ShutdownProtocol.FloodStarves | internal/controller/common/statefulset.go:50-60 | with a TERM before each command the shell stays where it is for any number of handler runs |
| ShutdownProtocol.HandlersCanStarveShutdown | internal/controller/common/statefulset.go:50-73 | so the limit on handler runs is needed: every start script reaches a state with a living child from which that happens |
| ContainerShell.BashShell.HandleTermSignal | internal/controller/common/statefulset.go:53-60 | the field updates of the handler are the protocol's handler transition |
| ContainerShell.BashShell.RunCommand | internal/controller/common/statefulset.go:62-73 | the field updates of each command, with errexit and exit statuses, are the protocol's transition for it |
| ContainerShell.BashShell.RunUntilBlocked | internal/controller/common/statefulset.go:223-237 | letting the shell run, with any exit statuses, terminates, is a run of the protocol, and stops only at its end or in a wait for a child that has not exited |
| DeepCopyLibrary.RawSliceCopy | api/v1alpha1/zz_generated.deepcopy.go:227-240 | a slice of any length is copied to a fresh backing array with element values equal, nil kept apart from empty, and no memory shared between elements |
| DeepCopyLibrary.FlatMapCopy | api/v1alpha1/zz_generated.deepcopy.go:281-287 | a map of strings is copied entry by entry, in any order, to an equal fresh map |
| DeepCopyRole.ConfigSpecDeepCopyInto | api/v1alpha1/zz_generated.deepcopy.go:254-261 | writes only its target, which then has the source's value over fresh memory |
| DeepCopyRole.RoleGroupSpecCopy | api/v1alpha1/zz_generated.deepcopy.go:356-373 | the copied role group has the source's value, reaches only fresh objects and none of them twice |
| DeepCopyRole.RoleGroupEntriesCopy | api/v1alpha1/zz_generated.deepcopy.go:176-182 | the loop over the role groups gives every key a copy of its own, with pairwise disjoint fresh memory even where the source shares |
| DeepCopyRole.RoleSpecDeepCopyInto | api/v1alpha1/zz_generated.deepcopy.go:174-198 | the same for a whole role (celery executors here; schedulers at 386-410 and webservers at 423-447 have the same fields and code) |
| DeepCopyRole.KubernetesExecutorsSpecDeepCopyInto | api/v1alpha1/zz_generated.deepcopy.go:321-343 | the same for the Kubernetes executors |
| DeepCopyClusterConfig.AuthenticationSliceCopy | api/v1alpha1/zz_generated.deepcopy.go:213-219 | the authentication list is copied element by element into disjoint fresh memory |
| DeepCopyClusterConfig.DagsGitSyncSpecCopy | api/v1alpha1/zz_generated.deepcopy.go:274-293 | a git-sync entry is copied with its two numbers and its string map, each fresh and apart |
| DeepCopyClusterConfig.ClusterConfigSpecDeepCopyInto | api/v1alpha1/zz_generated.deepcopy.go:211-241 | the cluster configuration with its four lists is copied into a tree of fresh objects, writing only its target |
| DeepCopyCluster.AirflowClusterSpecDeepCopyInto | api/v1alpha1/zz_generated.deepcopy.go:89-126 | for any source graph the target gets the same abstract value, reaches only fresh objects and none twice, and no other existing object is written |
| DeepCopyCluster.AirflowClusterDeepCopy | api/v1alpha1/zz_generated.deepcopy.go:39-46 | nil for nil, otherwise a fresh cluster of equal value that shares nothing with any given set of existing objects |
| DeepCopyCluster.AirflowClusterListDeepCopyInto | api/v1alpha1/zz_generated.deepcopy.go:57-68 | the list's items are copied with equal length and values into disjoint fresh memory |
| DeepCopyProperties.ClusterSpecValueUnique | api/v1alpha1/zz_generated.deepcopy.go:89-126 | a spec represents one value only, so a copy that represents the source's value agrees with it in every field at every depth |
| DeepCopyProperties.ClusterListValueUnique | api/v1alpha1/zz_generated.deepcopy.go:57-68 | the same for a list of clusters with all metadata |
| DeepCopyProperties.CopiedRoleSharesNothing | api/v1alpha1/zz_generated.deepcopy.go:174-198 | no two role groups of a copied role, nor a group and the settings of its role, have an object in common, at any depth |
| DeepCopyProperties.SharingIsAllowed | api/v1alpha1/airflowcluster_types.go:161-178 | a role that points to one configuration from two groups and from the role level is a source the copy functions accept |
| DeepCopyProperties.RoleGroupWritesStayLocal | api/v1alpha1/zz_generated.deepcopy.go:356-373 | whatever is written to the objects of one copied role group, all other groups and the role's settings keep their values |
| DeepCopyProperties.SpecWritesStayLocal | api/v1alpha1/zz_generated.deepcopy.go:89-126 | whatever is written to the objects of any one of the seven parts of a copied spec, all other parts keep their values |
| DeepCopyProperties.CopySpecAndWritePart | api/v1alpha1/zz_generated.deepcopy.go:89-126 | copy a spec, then write anything to the objects of one part of the copy: the source keeps its value and the copy keeps it in all other parts |
| DeepCopyProperties.CopySpecAndWriteSource | api/v1alpha1/zz_generated.deepcopy.go:89-126 | copy a spec, then write anything to the source: the copy keeps the value the source had |
| DeepCopyProperties.CopyRoleAndWriteGroup | api/v1alpha1/zz_generated.deepcopy.go:174-198 | copy a role, then write anything to the objects of one group of the copy: the source, the other groups and the role-level settings keep their values |
| AuthenticatorTypes.ContainsAuthType | internal/controller/common/auth.go:76-83 | true exactly for a listed type |
| NewAuthentication.New | internal/controller/common/auth.go:85-133 | succeeds exactly when every entry's provider has an OIDC or LDAP section and all agree with the first on the three settings; then each entry stands at its place in its list, for OIDC with the entry's own and the provider's section, else with the provider's LDAP section; otherwise the first entry that is not accepted decides, by the first check that it fails; the kept settings are those of the first entry because each iteration has its own variable |
| NewAuthentication.ValidationIsPairwise | internal/controller/common/auth.go:94-125 | comparing with the first entry is enough: the loop runs through if and only if every provider is found and supported and all entries agree pairwise on the three settings |
| NewAuthentication.EntryPosition | internal/controller/common/auth.go:100-108 | each entry's authenticator stands in its type's list right after those of the earlier entries of that type |
| NewAuthentication.EntriesAreConserved | internal/controller/common/auth.go:100-108 | the two lists together hold exactly one authenticator per entry |
| AuthenticationAggregates.GetTotalAuthenticatorCount | internal/controller/common/auth.go:135-142 | the sum of both lists, for every order of the map |
| AuthenticationAggregates.OidcEnvVars | internal/controller/common/auth.go:427-453 | two variables per authenticator, the client id and secret of the i-th at positions 2i and 2i + 1 |
| AuthenticationAggregates.GetEnvVars | internal/controller/common/auth.go:144-153 | the variables of the OIDC list in order, for every order of the map; a nil dereference exactly for an OIDC entry without its section |
| AuthenticationAggregates.AuthenticatorVolumes | internal/controller/common/auth.go:329-359 | one volume, named for its secret class and with the pod, node and service scopes of the credentials, for an LDAP provider with bind credentials and none otherwise |
| AuthenticationAggregates.GetVolumes | internal/controller/common/auth.go:155-164 | the volumes of the LDAP list in order, for every order of the map |
| AuthenticationAggregates.GetVolumeMounts | internal/controller/common/auth.go:166-175 | the mounts of the LDAP list in order, for every order of the map |
| AuthenticationAggregates.MountsMatchVolumes | internal/controller/common/auth.go:329-375 | volumes and mounts, from two independent walks, have equal length and match in name and secret class at each position |
| AuthenticationAggregates.VolumeNamesDifferExactly | internal/controller/common/auth.go:329-363 | the volumes have distinct names if and only if no two LDAP providers are bound with one secret class |
| AuthenticationConfig.AuthenticatorConfig | internal/controller/common/auth.go:377-416 | every authenticator of a type writes the same keys (OIDC at 463-489) |
| AuthenticationConfig.MergeConfigs | internal/controller/common/auth.go:246-252 | the merge over a list of one type, in any key order, leaves the last authenticator's configuration; it fails exactly if some authenticator has no configuration |
| AuthenticationConfig.GetLdapData | internal/controller/common/auth.go:237-259 | exactly if every LDAP provider has bind credentials, the template's data are, key by key, the last provider's server, search, field names (or all defaults) and the files of its secret class, with AUTH_LDAP and the three shared settings, for every order of the map |
| AuthenticationConfig.LdapDataAreRight | internal/controller/common/auth.go:377-416 | the same for the data that GetConfig hands to the LDAP template |
| AuthenticationConfig.GetOidcData | internal/controller/common/auth.go:181-199 | exactly if every OIDC entry has its section, the template's data are AUTH_OAUTH, the three shared settings and, if there is an OIDC authenticator, the last one's six properties under one key |
| AuthenticationConfig.OidcDataAreRight | internal/controller/common/auth.go:463-489 | the same for the data that GetConfig hands to the OIDC template: credentials by variable name, the provider's scopes before the entry's, two addresses at the issuer |
| AuthenticationConfig.GetConfig | internal/controller/common/auth.go:298-319 | database authentication exactly for an empty map, otherwise both templates rendered from their data and in this order; which of a nil dereference and the two parse errors stops it |
| AuthenticationConfig.Assemble | internal/controller/common/auth.go:85-142 | from configured entries to configuration: the count equals the number of entries, database authentication is chosen exactly for none, there is no configuration if some entry's authenticator has none, and a nil dereference for no other reason |
| StatefulSetEnv.StatefulSetBuilder.SetMainContainerEnv | internal/controller/common/statefulset.go:241-400 | a variable is in the environment if and only if it is one of those listed, each with its value or its own secret key: the Celery ones for the Celery executor only, the administrator's for schedulers only, the OIDC ones for a role group called webservers; an error exactly for an empty credentials name; a nil dereference exactly without a cluster configuration or for an OIDC entry without its section |
| StatefulSetEnv.OwnVarsExactly | internal/controller/common/statefulset.go:260-390 | the variables that do not depend on authentication are exactly the listed ones, with their values and secret keys |
| StatefulSetEnv.NamesDifferExactly | internal/controller/common/statefulset.go:260-397 | no two variables have one name, except if and only if more than one OIDC authenticator sets its credentials |
| StatefulSetEnv.OidcVariablesArriveExactly | internal/controller/common/statefulset.go:395-397 | OIDC variables are in the environment if and only if the builder has an OIDC authenticator and the role group is called webservers |
| StatefulSetEnv.ContainerEnv | internal/controller/common/statefulset.go:123-149 | with a builder as constructed they never are, whatever authentication is passed |
| FullNames.FullNameInjective | test/e2e/observability/cluster-assert.yaml:1-22 | within a cluster two full names are equal if and only if role and group are, for group names of any characters |
| Registration.FindMetricsPort | internal/controller/common/service.go:13-20 | the port of the first entry named metrics, none if there is no such entry or its port is not positive |
| Registration.GroupOutcomeIsDetermined | internal/controller/role/webserver.go:39-138 | a role group either registers or fails in exactly one way: the first of its two merges and its authentication that does not succeed |
| Registration.LoneFailureDecides | internal/controller/role/webserver.go:39-67 | if one group of a role cannot register, any order of the groups reports that group's failure |
| Registration.RoleReconciler.RegisterResourceWithRoleGroup | internal/controller/role/webserver.go:69-138 | registers exactly if the cluster configuration exists and its authentication is valid; four resources for a webserver group (three at scheduler.go:70-133 and celeryexecutor.go:70-133); how it fails |
| Registration.RoleReconciler.RegisterResources | internal/controller/role/webserver.go:39-67 | success does not depend on the order of the groups; the resources added are those of the groups taken, in that order, each group served with both merges of role and group settings; a failure is that of a group not added |
| Registration.RoleServesEveryGroup | internal/controller/role/webserver.go:39-138 | each group taken has one ConfigMap with the merged configuration, one StatefulSet with its own replicas and both merges, and a metrics Service on port 9102, after a plain Service with both ports for a webserver; every resource is for such a group and named after it |
| Registration.ClusterReconciler.RegisterResource | internal/controller/cluster.go:62-116 | success exactly if every group of all three roles succeeds; then the roles' resources in the order celery, schedulers, webservers, which serve every group of every role with its merged settings; otherwise the first failing role decides |
| Registration.ClusterServesEveryGroup | internal/controller/cluster.go:62-116 | over the whole cluster each group of each role still has exactly its own resources |
| Registration.ClusterReconciler.Reconcile | internal/controller/airflowclusters_controller.go:79-86 | Run is reached if and only if every group of every role registers |
| Registration.ResourceCount | internal/controller/cluster.go:62-116 | three resources per celery and scheduler group and four per webserver group |
| Registration.KeysAreUniqueButForWebserverServices | internal/controller/role/webserver.go:129-137 | over all roles, groups and orders two resources have one key only if they are adjacent and are the plain and the metrics Service of one webserver group |
| Registration.EveryWebserverGroupHasThePair | internal/controller/role/webserver.go:129-137 | and every webserver group has that pair, plain first |
| Registration.RegistrationIsOrderIndependent | internal/controller/role/scheduler.go:40-68 | for any two orders of the groups the multisets of registered resources are equal |
| NonEmptyLines.GetNonEmptyLines | test/utils/utils.go:182-192 | the loop's result is the non-empty lines of the input, in order |
| NonEmptyLines.NonEmptyLinesAreLossless | test/utils/utils.go:180-192 | no empty line, no newline, nothing lost but newlines, and joining and splitting again gives the same lines |
| UncommentCode.Scanner.Scan | test/utils/utils.go:226-241 | each call delivers the next token of the remaining text, with bufio's handling of carriage returns, a missing last line and overlong lines |
| UncommentCode.TokensLineByLine | test/utils/utils.go:226-241 | line by line, a token is the line without its newline and one carriage return before it; the empty text has none, and a line of 65536 characters ends the scan |
| UncommentCode.TrimPrefixExactly | test/utils/utils.go:231-236 | a line loses the prefix once if it starts with it and is kept otherwise |
| UncommentCode.Uncomment | test/utils/utils.go:206-251 | not found exactly if there is no occurrence; else, at the first occurrence, untouched without tokens, or the bytes before it, the tokens each without one prefix, and the bytes after |
| UncommentCode.TokensAreTheLines | test/utils/utils.go:226-241 | the scanner sees the lines of the target if and only if the target does not end in a newline, no line ends in a carriage return and none is overlong |
| UncommentCode.UncommentIsLocal | test/utils/utils.go:204-251 | for such a target the rest of the file is kept and each of its lines loses one prefix |
| UncommentCode.UncommentInvertsComment | test/utils/utils.go:204-251 | commenting every line of a block and uncommenting it restores the file if and only if every line is restorable |
| UncommentCode.CarriageReturnIsLost | test/utils/utils.go:226-241 | a block with a CRLF line end does not come back |

## Left out

- Flag handling, `SetupWithManager`, API-server calls and event wiring: network and library code. What the API server says about an authentication class is a parameter.
- Internals of operator-go and controller-runtime: `MergeObject` is a deterministic function parameter, `GetFullName` is `cluster-role-group` as in the e2e assertions, and how objects are applied, and the vector container added after `GetObject`, are not modelled.
- Library structs in the deep copy (`RoleGroupConfigSpec`, `RoleConfigSpec`, `OverridesSpec`, `OidcSpec`, `RawExtension`, metadata) are plain fields and one buffer; their own source is not part of this model. Slice capacity is not modelled.
- Pointers into the middle of an object, and slices over parts of one backing array, as sources of the deep copy: sharing is of whole objects.
- The API's structs are heap structs in the deep copy; `AuthenticationEntry`, `RoleContent` and the like in `Authentication.dfy` and `Registration.dfy` are plain values with the fields that decide there.
- The three role specs are one datatype, since their fields and copy code are the same; likewise the three role reconcilers are one class with a branch for the webserver's extra Service.
- DeepCopyRole.RoleGroupSpecCopy: like every `...Copy` method, returns the copied struct instead of writing it through a pointer field by field; nobody can see the intermediate states of a target that the source does not reach.
- DeepCopyRole.RoleGroupEntriesCopy: returns the filled map as a value, which then becomes the contents of the new map object.
- Go template rendering, URL formatting and the Python text: rendering is a function parameter of `GetConfig`, which may fail; URLs and joined paths are kept as the parts they are made from.
- AuthenticationConfig.AuthenticatorConfig: does not model that `append` may write into spare capacity of the provider's scope list.
- AuthenticationAggregates.AuthenticatorVolumes: takes the library's name of the service scope as a parameter.
- A handler is one step of the protocol, a background launch does not fail, and process ids are not reused; a kill of an exited child counts as failed. What the vector container does with the marker is code outside the repository. The metric container does not use the marker.
- `getLogging`, `GetImage` beyond its nil dereference, port and version constants, annotations: one-branch facts.
- Generated manifests, Helm charts, RBAC, Makefile, and everything in `test/utils/utils.go` that runs a command or touches a file. Strings are sequences of characters that stand for bytes.
