/**
 Authentication assembly (internal/controller/common/auth.go): a validating loop over the configured
 authentication entries, and the aggregators over the resulting map of authenticator lists.  Go iterates
 over a map in no particular order; the loops below take the keys in any order.
 */
module AuthenticatorTypes {
  import opened Wrappers

  datatype AuthenticatorType = LDAP | OIDC

  const SUPPORTED_AUTH_TYPES := [LDAP, OIDC]

  datatype SecretScope = SecretScope(pod: bool, node: bool, services: Option<seq<string>>)
  datatype BindCredentials = BindCredentials(secretClass: string, scope: Option<SecretScope>)
  datatype FieldNames = FieldNames(uid: string, surname: string, givenName: string, email: string, group: string)

  datatype LDAPProvider = LDAPProvider(
    hostname: string, port: int, searchBase: string, searchFilter: string, fieldNames: Option<FieldNames>,
    bindCredentials: Option<BindCredentials>)

  datatype OIDCProvider = OIDCProvider(
    hostname: string, port: int, rootPath: string, scopes: seq<string>, providerHint: string)

  datatype OidcSpec = OidcSpec(clientCredentialsSecret: string, extraScopes: seq<string>)

  /** An entry of the cluster configuration. */
  datatype AuthenticationEntry = AuthenticationEntry(
    authenticationClass: string, oidc: Option<OidcSpec>, syncRolesAt: string, userRegistration: bool,
    userRegistrationRole: string)

  datatype AuthenticationProvider = AuthenticationProvider(oidc: Option<OIDCProvider>, ldap: Option<LDAPProvider>)

  /** What the API server says about an authentication class; for a missing class GetAuthProvider goes on
      with an empty object, whose provider is nil. */
  datatype Lookup = ApiError(message: string) | Provider(provider: Option<AuthenticationProvider>)

  datatype Authenticator =
    | LdapAuthenticator(provider: LDAPProvider)
    | OidcAuthenticator(config: Option<OidcSpec>, oidcProvider: OIDCProvider)
  {
    function Type(): AuthenticatorType {
      if LdapAuthenticator? then LDAP else OIDC
    }
  }

  datatype AuthError =
    | LookupFailed(message: string)
    | UnsupportedProvider(authenticationClass: string)
    | SyncRolesAtDiffers
    | UserRegistrationDiffers
    | UserRegistrationRoleDiffers

  /** Panic stands for the nil dereference that ends the call. */
  datatype Outcome<+T> = Ok(value: T) | Error(error: AuthError) | Panic

  method ContainsAuthType(authTypes: seq<AuthenticatorType>, authType: AuthenticatorType) returns (found: bool)
    ensures found <==> authType in authTypes
  {
    for i := 0 to |authTypes|
      invariant authType !in authTypes[..i]
    {
      if authTypes[i] == authType {
        return true;
      }
    }
    return false;
  }
}

module NewAuthentication {
  import opened Wrappers
  import opened AuthenticatorTypes

  // ---------- What the loop must do, entry by entry ----------

  /** The authenticator of a provider that offers at least one supported type; OIDC wins. */
  function AuthenticatorOf(p: AuthenticationProvider, auth: AuthenticationEntry): Option<Authenticator> {
    if p.oidc.Some? then Some(OidcAuthenticator(auth.oidc, p.oidc.value))
    else if p.ldap.Some? then Some(LdapAuthenticator(p.ldap.value))
    else None
  }

  /** How entry i stops the loop, if it does, in the order of the checks. */
  function Stop(lookup: string -> Lookup, auths: seq<AuthenticationEntry>, i: nat): Option<Outcome<()>>
    requires i < |auths|
  {
    var auth, first := auths[i], auths[0];
    match lookup(auth.authenticationClass)
    case ApiError(message) => Some(Error(LookupFailed(message)))
    case Provider(None) => Some(Panic)
    case Provider(Some(p)) =>
      if AuthenticatorOf(p, auth).None? then Some(Error(UnsupportedProvider(auth.authenticationClass)))
      else if auth.syncRolesAt != first.syncRolesAt then Some(Error(SyncRolesAtDiffers))
      else if auth.userRegistration != first.userRegistration then Some(Error(UserRegistrationDiffers))
      else if auth.userRegistrationRole != first.userRegistrationRole then Some(Error(UserRegistrationRoleDiffers))
      else None
  }

  ghost predicate PassesUpTo(lookup: string -> Lookup, auths: seq<AuthenticationEntry>, n: nat)
    requires n <= |auths|
  {
    forall i :: 0 <= i < n ==> Stop(lookup, auths, i).None?
  }

  function EntryAuthenticator(lookup: string -> Lookup, auth: AuthenticationEntry): Option<Authenticator> {
    match lookup(auth.authenticationClass)
    case Provider(Some(p)) => AuthenticatorOf(p, auth)
    case _ => None
  }

  /** The authenticators of one type, in the order of their entries. */
  function OfType(
      lookup: string -> Lookup, auths: seq<AuthenticationEntry>, t: AuthenticatorType): (r: seq<Authenticator>)
    ensures forall i :: 0 <= i < |r| ==> r[i].Type() == t
  {
    if auths == [] then []
    else
      var rest, last := OfType(lookup, auths[..|auths| - 1], t), EntryAuthenticator(lookup, auths[|auths| - 1]);
      if last.Some? && last.value.Type() == t then rest + [last.value] else rest
  }

  /** The lists of a map that has a key only for a non-empty list. */
  function ListOf(m: map<AuthenticatorType, seq<Authenticator>>, t: AuthenticatorType): seq<Authenticator> {
    if t in m then m[t] else []
  }

  ghost predicate Groups(
    m: map<AuthenticatorType, seq<Authenticator>>, lookup: string -> Lookup, auths: seq<AuthenticationEntry>)
  {
    forall t :: (t in m <==> OfType(lookup, auths, t) != []) && ListOf(m, t) == OfType(lookup, auths, t)
  }

  // ---------- The loop ----------

  /** A variable of the range loop; each iteration has its own. */
  class LoopVariable {
    const auth: AuthenticationEntry

    constructor (auth: AuthenticationEntry)
      ensures this.auth == auth
    {
      this.auth := auth;
    }
  }

  /** The three settings are kept as pointers into a loop variable. */
  datatype Settings = Settings(
    syncRolesAt: LoopVariable?, userRegistration: LoopVariable?, userRegistrationRole: LoopVariable?)

  datatype Authentication = Authentication(
    authenticators: map<AuthenticatorType, seq<Authenticator>>, settings: Settings)

  method Append(m: map<AuthenticatorType, seq<Authenticator>>, a: Authenticator)
    returns (m': map<AuthenticatorType, seq<Authenticator>>)
    ensures m' == m[a.Type() := ListOf(m, a.Type()) + [a]]
  {
    m' := m[a.Type() := (if a.Type() in m then m[a.Type()] else []) + [a]];
  }

  lemma AppendKeepsGroups(
    m: map<AuthenticatorType, seq<Authenticator>>, lookup: string -> Lookup, auths: seq<AuthenticationEntry>,
    a: Authenticator)
    requires auths != [] && EntryAuthenticator(lookup, auths[|auths| - 1]) == Some(a)
    requires Groups(m, lookup, auths[..|auths| - 1])
    ensures Groups(m[a.Type() := ListOf(m, a.Type()) + [a]], lookup, auths)
  {
  }

  // The loop over the entries.
  method TakeEntries(lookup: string -> Lookup, auths: seq<AuthenticationEntry>) returns (r: Outcome<Authentication>)
    ensures r.Ok? <==> PassesUpTo(lookup, auths, |auths|)
    ensures r.Ok? ==> Groups(r.value.authenticators, lookup, auths)
    ensures r.Ok? && auths == [] ==> r.value.settings == Settings(null, null, null)
    ensures r.Ok? && auths != [] ==>
              var s := r.value.settings;
              s.syncRolesAt != null && s.syncRolesAt == s.userRegistration == s.userRegistrationRole
              && s.syncRolesAt.auth == auths[0]
    ensures !r.Ok? ==>
              exists i: nat :: i < |auths| && PassesUpTo(lookup, auths, i)
                && Stop(lookup, auths, i) == Some(if r.Panic? then Panic else Error(r.error))
  {
    var authenticators: map<AuthenticatorType, seq<Authenticator>> := map[];
    var syncRolesAt: LoopVariable? := null;
    var userRegistration: LoopVariable? := null;
    var userRegistrationRole: LoopVariable? := null;
    for i := 0 to |auths|
      invariant PassesUpTo(lookup, auths, i)
      invariant Groups(authenticators, lookup, auths[..i])
      invariant syncRolesAt == userRegistration == userRegistrationRole
      invariant i == 0 ==> syncRolesAt == null
      invariant i > 0 ==> syncRolesAt != null && syncRolesAt.auth == auths[0]
    {
      var auth := new LoopVariable(auths[i]);
      assert auths[..i + 1][..i] == auths[..i];
      var found := lookup(auth.auth.authenticationClass);
      if found.ApiError? {
        assert Stop(lookup, auths, i) == Some(Error(LookupFailed(found.message)));
        return Error(LookupFailed(found.message));
      }
      if found.provider.None? {
        assert Stop(lookup, auths, i) == Some(Panic);
        return Panic;
      }
      var provider := found.provider.value;
      var oidcSupported := ContainsAuthType(SUPPORTED_AUTH_TYPES, OIDC);
      var ldapSupported := ContainsAuthType(SUPPORTED_AUTH_TYPES, LDAP);
      if provider.oidc.Some? && oidcSupported {
        var oidcAuth := OidcAuthenticator(auth.auth.oidc, provider.oidc.value);
        AppendKeepsGroups(authenticators, lookup, auths[..i + 1], oidcAuth);
        authenticators := Append(authenticators, oidcAuth);
      } else if provider.ldap.Some? && ldapSupported {
        var ldapAuth := LdapAuthenticator(provider.ldap.value);
        AppendKeepsGroups(authenticators, lookup, auths[..i + 1], ldapAuth);
        authenticators := Append(authenticators, ldapAuth);
      } else {
        assert Stop(lookup, auths, i) == Some(Error(UnsupportedProvider(auth.auth.authenticationClass)));
        return Error(UnsupportedProvider(auth.auth.authenticationClass));
      }
      if syncRolesAt == null {
        syncRolesAt := auth;
      } else if syncRolesAt.auth.syncRolesAt != auth.auth.syncRolesAt {
        assert Stop(lookup, auths, i) == Some(Error(SyncRolesAtDiffers));
        return Error(SyncRolesAtDiffers);
      }
      if userRegistration == null {
        userRegistration := auth;
      } else if userRegistration.auth.userRegistration != auth.auth.userRegistration {
        assert Stop(lookup, auths, i) == Some(Error(UserRegistrationDiffers));
        return Error(UserRegistrationDiffers);
      }
      if userRegistrationRole == null {
        userRegistrationRole := auth;
      } else if userRegistrationRole.auth.userRegistrationRole != auth.auth.userRegistrationRole {
        assert Stop(lookup, auths, i) == Some(Error(UserRegistrationRoleDiffers));
        return Error(UserRegistrationRoleDiffers);
      }
    }
    assert auths[..|auths|] == auths;
    r := Ok(Authentication(authenticators, Settings(syncRolesAt, userRegistration, userRegistrationRole)));
  }

  // ---------- What the loop means for the entries ----------

  /** The provider behind an entry, if the API server has one. */
  function EntryProvider(lookup: string -> Lookup, auth: AuthenticationEntry): Option<AuthenticationProvider> {
    match lookup(auth.authenticationClass)
    case Provider(provider) => provider
    case ApiError(_) => None
  }

  predicate UsesOidc(lookup: string -> Lookup, auth: AuthenticationEntry) {
    EntryProvider(lookup, auth).Some? && EntryProvider(lookup, auth).value.oidc.Some?
  }

  predicate UsesLdap(lookup: string -> Lookup, auth: AuthenticationEntry) {
    && EntryProvider(lookup, auth).Some?
    && EntryProvider(lookup, auth).value.oidc.None? && EntryProvider(lookup, auth).value.ldap.Some?
  }

  /** How many of the entries use a provider of the type. */
  function Uses(lookup: string -> Lookup, auths: seq<AuthenticationEntry>, t: AuthenticatorType): nat {
    if auths == [] then 0
    else
      var last := auths[|auths| - 1];
      Uses(lookup, auths[..|auths| - 1], t)
      + if (t == OIDC && UsesOidc(lookup, last)) || (t == LDAP && UsesLdap(lookup, last)) then 1 else 0
  }

  /** Entry i stands at its place in its list: for OIDC, with its own section and the provider's OIDC section;
      else with the provider's LDAP section. */
  ghost predicate IsPlaced(
    m: map<AuthenticatorType, seq<Authenticator>>, lookup: string -> Lookup, auths: seq<AuthenticationEntry>, i: nat)
    requires i < |auths|
  {
    var auth := auths[i];
    && (UsesOidc(lookup, auth) ==>
          var place := Uses(lookup, auths[..i], OIDC);
          && OIDC in m && place < |m[OIDC]|
          && m[OIDC][place] == OidcAuthenticator(auth.oidc, EntryProvider(lookup, auth).value.oidc.value))
    && (UsesLdap(lookup, auth) ==>
          var place := Uses(lookup, auths[..i], LDAP);
          && LDAP in m && place < |m[LDAP]|
          && m[LDAP][place] == LdapAuthenticator(EntryProvider(lookup, auth).value.ldap.value))
  }

  /** The lists hold the entries' authenticators and nothing else. */
  ghost predicate HoldsEntries(
    m: map<AuthenticatorType, seq<Authenticator>>, lookup: string -> Lookup, auths: seq<AuthenticationEntry>)
  {
    && (forall t :: |ListOf(m, t)| == Uses(lookup, auths, t) && (t in m <==> Uses(lookup, auths, t) > 0))
    && (forall i :: 0 <= i < |auths| ==> IsPlaced(m, lookup, auths, i))
  }

  ghost predicate IsAccepted(lookup: string -> Lookup, auth: AuthenticationEntry, first: AuthenticationEntry) {
    && (UsesOidc(lookup, auth) || UsesLdap(lookup, auth))
    && auth.syncRolesAt == first.syncRolesAt && auth.userRegistration == first.userRegistration
    && auth.userRegistrationRole == first.userRegistrationRole
  }

  /** Entry i is the first that is not accepted, and this is what stops it: the first of the lookup, the
      provider and the three settings that is not as it must be. */
  ghost predicate IsRejected<T>(
    lookup: string -> Lookup, auths: seq<AuthenticationEntry>, i: nat, outcome: Outcome<T>)
  {
    && i < |auths| && (forall j :: 0 <= j < i ==> IsAccepted(lookup, auths[j], auths[0]))
    && var auth, first := auths[i], auths[0];
       var supported := UsesOidc(lookup, auth) || UsesLdap(lookup, auth);
       match outcome
       case Ok(_) => false
       case Panic => lookup(auth.authenticationClass) == Provider(None)
       case Error(LookupFailed(message)) => lookup(auth.authenticationClass) == ApiError(message)
       case Error(UnsupportedProvider(authenticationClass)) =>
         && authenticationClass == auth.authenticationClass
         && EntryProvider(lookup, auth) == Some(AuthenticationProvider(None, None))
       case Error(SyncRolesAtDiffers) => supported && auth.syncRolesAt != first.syncRolesAt
       case Error(UserRegistrationDiffers) =>
         && supported && auth.syncRolesAt == first.syncRolesAt
         && auth.userRegistration != first.userRegistration
       case Error(UserRegistrationRoleDiffers) =>
         && supported && auth.syncRolesAt == first.syncRolesAt
         && auth.userRegistration == first.userRegistration
         && auth.userRegistrationRole != first.userRegistrationRole
  }

  lemma StopsExactly(lookup: string -> Lookup, auths: seq<AuthenticationEntry>, i: nat)
    requires i < |auths|
    ensures Stop(lookup, auths, i).None? <==> IsAccepted(lookup, auths[i], auths[0])
  {
  }

  lemma PassesExactly(lookup: string -> Lookup, auths: seq<AuthenticationEntry>, n: nat)
    requires n <= |auths|
    ensures PassesUpTo(lookup, auths, n) <==> forall i :: 0 <= i < n ==> IsAccepted(lookup, auths[i], auths[0])
  {
    forall i | 0 <= i < n
      ensures Stop(lookup, auths, i).None? <==> IsAccepted(lookup, auths[i], auths[0])
    {
      StopsExactly(lookup, auths, i);
    }
  }

  lemma StopRejects<T>(lookup: string -> Lookup, auths: seq<AuthenticationEntry>, i: nat, outcome: Outcome<T>)
    requires i < |auths| && PassesUpTo(lookup, auths, i) && !outcome.Ok?
    requires Stop(lookup, auths, i) == Some(if outcome.Panic? then Panic else Error(outcome.error))
    ensures IsRejected(lookup, auths, i, outcome)
  {
    PassesExactly(lookup, auths, i);
  }

  lemma {:induction false} UsesCounts(lookup: string -> Lookup, auths: seq<AuthenticationEntry>, t: AuthenticatorType)
    ensures |OfType(lookup, auths, t)| == Uses(lookup, auths, t)
  {
    if auths != [] {
      UsesCounts(lookup, auths[..|auths| - 1], t);
    }
  }

  lemma GroupsHoldEntries(
    m: map<AuthenticatorType, seq<Authenticator>>, lookup: string -> Lookup, auths: seq<AuthenticationEntry>)
    requires Groups(m, lookup, auths)
    ensures HoldsEntries(m, lookup, auths)
  {
    forall t
      ensures |ListOf(m, t)| == Uses(lookup, auths, t) && (t in m <==> Uses(lookup, auths, t) > 0)
    {
      UsesCounts(lookup, auths, t);
    }
    forall i | 0 <= i < |auths|
      ensures IsPlaced(m, lookup, auths, i)
    {
      if EntryAuthenticator(lookup, auths[i]).Some? {
        EntryPosition(lookup, auths, i);
        UsesCounts(lookup, auths[..i], EntryAuthenticator(lookup, auths[i]).value.Type());
      }
    }
  }

  /** NewAuthentication succeeds exactly when every entry is accepted, and then holds an authenticator for each
      in its type's list, in order; otherwise the first entry that is not accepted decides the error.  The
      settings are those of the first entry. */
  method New(lookup: string -> Lookup, auths: seq<AuthenticationEntry>) returns (r: Outcome<Authentication>)
    ensures r.Ok? <==> PassesUpTo(lookup, auths, |auths|)
    ensures r.Ok? ==> Groups(r.value.authenticators, lookup, auths)
    ensures r.Ok? && auths == [] ==> r.value.settings == Settings(null, null, null)
    ensures r.Ok? && auths != [] ==>
              var s := r.value.settings;
              s.syncRolesAt != null && s.syncRolesAt == s.userRegistration == s.userRegistrationRole
              && s.syncRolesAt.auth == auths[0]
    ensures r.Ok? <==> forall i :: 0 <= i < |auths| ==> IsAccepted(lookup, auths[i], auths[0])
    ensures r.Ok? ==> HoldsEntries(r.value.authenticators, lookup, auths)
    ensures !r.Ok? ==> exists i :: IsRejected(lookup, auths, i, r)
    ensures !r.Ok? ==>
              exists i: nat :: i < |auths| && PassesUpTo(lookup, auths, i)
                && Stop(lookup, auths, i) == Some(if r.Panic? then Panic else Error(r.error))
  {
    r := TakeEntries(lookup, auths);
    PassesExactly(lookup, auths, |auths|);
    if r.Ok? {
      GroupsHoldEntries(r.value.authenticators, lookup, auths);
    } else {
      ghost var i: nat :| i < |auths| && PassesUpTo(lookup, auths, i)
        && Stop(lookup, auths, i) == Some(if r.Panic? then Panic else Error(r.error));
      StopRejects(lookup, auths, i, r);
    }
  }

  // ---------- What validation and grouping mean ----------

  ghost predicate Agree(a: AuthenticationEntry, b: AuthenticationEntry) {
    && a.syncRolesAt == b.syncRolesAt
    && a.userRegistration == b.userRegistration
    && a.userRegistrationRole == b.userRegistrationRole
  }

  /** Comparing with the first entry only is enough: the loop runs through exactly if every entry has a
      supported provider and all entries agree with each other. */
  lemma ValidationIsPairwise(lookup: string -> Lookup, auths: seq<AuthenticationEntry>)
    ensures PassesUpTo(lookup, auths, |auths|) <==>
              && (forall i :: 0 <= i < |auths| ==> EntryAuthenticator(lookup, auths[i]).Some?)
              && (forall i, j :: 0 <= i < |auths| && 0 <= j < |auths| ==> Agree(auths[i], auths[j]))
  {
    forall i | 0 <= i < |auths|
      ensures Stop(lookup, auths, i).None? <==>
                EntryAuthenticator(lookup, auths[i]).Some? && Agree(auths[i], auths[0])
    {
    }
  }

  /** An entry's authenticator stands in its type's list behind those of the earlier entries of that type. */
  lemma {:induction false} EntryPosition(lookup: string -> Lookup, auths: seq<AuthenticationEntry>, i: nat)
    requires i < |auths| && EntryAuthenticator(lookup, auths[i]).Some?
    ensures
      var a := EntryAuthenticator(lookup, auths[i]).value;
      var position := |OfType(lookup, auths[..i], a.Type())|;
      position < |OfType(lookup, auths, a.Type())| && OfType(lookup, auths, a.Type())[position] == a
    decreases |auths|
  {
    var front := auths[..|auths| - 1];
    if i == |auths| - 1 {
      assert auths[..i] == front;
    } else {
      EntryPosition(lookup, front, i);
      assert front[..i] == auths[..i];
    }
  }

  /** Entries are conserved: with every entry resolved, the two lists hold as many authenticators as there
      are entries. */
  lemma {:induction false} EntriesAreConserved(lookup: string -> Lookup, auths: seq<AuthenticationEntry>)
    requires forall i :: 0 <= i < |auths| ==> EntryAuthenticator(lookup, auths[i]).Some?
    ensures |OfType(lookup, auths, LDAP)| + |OfType(lookup, auths, OIDC)| == |auths|
    decreases |auths|
  {
    if auths != [] {
      EntriesAreConserved(lookup, auths[..|auths| - 1]);
    }
  }
}

module AuthenticationAggregates {
  import opened Wrappers
  import opened EnvVars
  import opened AuthenticatorTypes
  import opened NewAuthentication

  type Lists = map<AuthenticatorType, seq<Authenticator>>

  /** What NewAuthentication establishes about the map: a list holds authenticators of its key's type. */
  ghost predicate Typed(m: Lists) {
    forall t, i :: t in m && 0 <= i < |m[t]| ==> m[t][i].Type() == t
  }

  /** GetTotalAuthenticatorCount counts every entry, in any order of the map. */
  method GetTotalAuthenticatorCount(m: Lists) returns (total: nat)
    ensures total == |ListOf(m, LDAP)| + |ListOf(m, OIDC)|
  {
    total := 0;
    var types := m.Keys;
    while types != {}
      invariant types <= m.Keys
      invariant total ==
                  (if LDAP in types then 0 else |ListOf(m, LDAP)|) + (if OIDC in types then 0 else |ListOf(m, OIDC)|)
    {
      var t :| t in types;
      assert t == LDAP || t == OIDC;
      total := total + |m[t]|;
      types := types - {t};
    }
  }

  // ---------- Environment variables ----------

  const ENV_KEY_OIDC_CLIENT_ID := "OIDC_CLIENT_ID"
  const ENV_KEY_OIDC_CLIENT_SECRET := "OIDC_CLIENT_SECRET"

  /** None stands for the nil dereference of an OIDC entry without an `oidc` section. */
  function AuthenticatorEnvVars(a: Authenticator): Option<seq<EnvVar>> {
    match a
    case LdapAuthenticator(_) => Some([])
    case OidcAuthenticator(None, _) => None
    case OidcAuthenticator(Some(config), _) =>
      Some([EnvVar(ENV_KEY_OIDC_CLIENT_ID, FromSecret(config.clientCredentialsSecret, "CLIENT_ID")),
            EnvVar(ENV_KEY_OIDC_CLIENT_SECRET, FromSecret(config.clientCredentialsSecret, "CLIENT_SECRET"))])
  }

  predicate Configured(list: seq<Authenticator>) {
    forall i :: 0 <= i < |list| && list[i].OidcAuthenticator? ==> list[i].config.Some?
  }

  predicate ConfiguredOidc(list: seq<Authenticator>) {
    forall i :: 0 <= i < |list| ==> list[i].OidcAuthenticator? && list[i].config.Some?
  }

  /** Two variables per OIDC authenticator, in list order. */
  function OidcEnvVars(list: seq<Authenticator>): (r: seq<EnvVar>)
    requires ConfiguredOidc(list)
    ensures |r| == 2 * |list|
    ensures forall i :: 0 <= i < |list| ==>
              var secret := list[i].config.value.clientCredentialsSecret;
              && r[2 * i] == EnvVar(ENV_KEY_OIDC_CLIENT_ID, FromSecret(secret, "CLIENT_ID"))
              && r[2 * i + 1] == EnvVar(ENV_KEY_OIDC_CLIENT_SECRET, FromSecret(secret, "CLIENT_SECRET"))
  {
    if list == [] then []
    else
      var last := |list| - 1;
      assert list[last].OidcAuthenticator?;
      OidcEnvVars(list[..last]) + AuthenticatorEnvVars(list[last]).value
  }

  method EnvVarsOfList(list: seq<Authenticator>, t: AuthenticatorType) returns (r: Option<seq<EnvVar>>)
    requires forall i :: 0 <= i < |list| ==> list[i].Type() == t
    ensures r.Some? <==> Configured(list)
    ensures t == OIDC && r.Some? ==> ConfiguredOidc(list)
    ensures r.Some? ==> r.value == if t == OIDC then OidcEnvVars(list) else []
  {
    var envVars: seq<EnvVar> := [];
    for i := 0 to |list|
      invariant Configured(list[..i])
      invariant envVars == if t == OIDC then OidcEnvVars(list[..i]) else []
    {
      assert list[i].Type() == t;
      var more := AuthenticatorEnvVars(list[i]);
      if more.None? {
        return None;
      }
      assert list[..i + 1][..i] == list[..i];
      envVars := envVars + more.value;
    }
    assert list[..|list|] == list;
    r := Some(envVars);
  }

  /** The same variables in the same order, whichever order the map is walked in. */
  method GetEnvVars(m: Lists) returns (r: Option<seq<EnvVar>>)
    requires Typed(m)
    ensures r.Some? <==> Configured(ListOf(m, OIDC))
    ensures r.Some? ==> r.value == OidcEnvVars(ListOf(m, OIDC))
  {
    var envVars: seq<EnvVar> := [];
    var types := m.Keys;
    while types != {}
      invariant types <= m.Keys
      invariant OIDC in types || Configured(ListOf(m, OIDC))
      invariant envVars == if OIDC in types then [] else OidcEnvVars(ListOf(m, OIDC))
    {
      var t :| t in types;
      var more := EnvVarsOfList(m[t], t);
      if more.None? {
        return None;
      }
      envVars := envVars + more.value;
      types := types - {t};
    }
    r := Some(envVars);
  }

  // ---------- Volumes and volume mounts ----------

  datatype Volume = Volume(name: string, secretClass: string, pod: bool, node: bool, services: seq<string>)
  datatype VolumeMount = VolumeMount(name: string, secretClass: string)  // mounted at <secret dir>/<secret class>

  function VolumeName(c: BindCredentials): string {
    "ldap-" + c.secretClass
  }

  function ServiceScopes(serviceScope: string, services: seq<string>): (r: seq<string>)
    ensures |r| == |services| && forall i :: 0 <= i < |services| ==> r[i] == serviceScope + "=" + services[i]
  {
    seq(|services|, i requires 0 <= i < |services| => serviceScope + "=" + services[i])
  }

  /** The volume of an authenticator with bind credentials; no other has one. */
  function VolumeOf(a: Authenticator, serviceScope: string): seq<Volume> {
    if a.OidcAuthenticator? || a.provider.bindCredentials.None? then []
    else
      var c := a.provider.bindCredentials.value;
      match c.scope
      case None => [Volume(VolumeName(c), c.secretClass, false, false, [])]
      case Some(scope) =>
        [Volume(VolumeName(c), c.secretClass, scope.pod, scope.node,
                ServiceScopes(serviceScope, if scope.services.Some? then scope.services.value else []))]
  }

  method AuthenticatorVolumes(a: Authenticator, serviceScope: string) returns (volumes: seq<Volume>)
    ensures volumes == VolumeOf(a, serviceScope)
    ensures volumes != [] <==> a.LdapAuthenticator? && a.provider.bindCredentials.Some?
    ensures volumes != [] ==>
              var v, c := volumes[0], a.provider.bindCredentials.value;
              && volumes == [v] && v.name == "ldap-" + c.secretClass && v.secretClass == c.secretClass
              && (v.pod <==> c.scope.Some? && c.scope.value.pod)
              && (v.node <==> c.scope.Some? && c.scope.value.node)
              && var services := if c.scope.Some? then c.scope.value.services else None;
              && (services.None? ==> v.services == [])
              && (services.Some? ==> |v.services| == |services.value|)
              && forall i :: 0 <= i < |v.services| ==> v.services[i] == serviceScope + "=" + services.value[i]
  {
    if a.OidcAuthenticator? || a.provider.bindCredentials.None? {
      return [];
    }
    var c := a.provider.bindCredentials.value;
    var svcScope, podScope, nodeScope := [], false, false;
    if c.scope.Some? {
      if c.scope.value.pod {
        podScope := true;
      }
      if c.scope.value.node {
        nodeScope := true;
      }
      if c.scope.value.services.Some? {
        var services := c.scope.value.services.value;
        for i := 0 to |services|
          invariant svcScope == ServiceScopes(serviceScope, services)[..i]
        {
          svcScope := svcScope + [serviceScope + "=" + services[i]];
        }
        assert svcScope == ServiceScopes(serviceScope, services);
      }
    }
    volumes := [Volume(VolumeName(c), c.secretClass, podScope, nodeScope, svcScope)];
  }

  function MountOf(a: Authenticator): seq<VolumeMount> {
    if a.OidcAuthenticator? || a.provider.bindCredentials.None? then []
    else [VolumeMount(VolumeName(a.provider.bindCredentials.value), a.provider.bindCredentials.value.secretClass)]
  }

  function VolumesOf(list: seq<Authenticator>, serviceScope: string): seq<Volume> {
    if list == [] then []
    else VolumesOf(list[..|list| - 1], serviceScope) + VolumeOf(list[|list| - 1], serviceScope)
  }

  function MountsOf(list: seq<Authenticator>): seq<VolumeMount> {
    if list == [] then [] else MountsOf(list[..|list| - 1]) + MountOf(list[|list| - 1])
  }

  lemma {:induction false} OidcHasNoVolumes(list: seq<Authenticator>, serviceScope: string)
    requires forall i :: 0 <= i < |list| ==> list[i].Type() == OIDC
    ensures VolumesOf(list, serviceScope) == [] && MountsOf(list) == []
  {
    if list != [] {
      assert list[|list| - 1].Type() == OIDC;
      OidcHasNoVolumes(list[..|list| - 1], serviceScope);
    }
  }

  method VolumesOfList(list: seq<Authenticator>, serviceScope: string) returns (volumes: seq<Volume>)
    ensures volumes == VolumesOf(list, serviceScope)
  {
    volumes := [];
    for i := 0 to |list|
      invariant volumes == VolumesOf(list[..i], serviceScope)
    {
      var more := AuthenticatorVolumes(list[i], serviceScope);
      assert list[..i + 1][..i] == list[..i];
      volumes := volumes + more;
    }
    assert list[..|list|] == list;
  }

  method MountsOfList(list: seq<Authenticator>) returns (mounts: seq<VolumeMount>)
    ensures mounts == MountsOf(list)
  {
    mounts := [];
    for i := 0 to |list|
      invariant mounts == MountsOf(list[..i])
    {
      assert list[..i + 1][..i] == list[..i];
      mounts := mounts + MountOf(list[i]);
    }
    assert list[..|list|] == list;
  }

  /** The volumes of the LDAP list, whichever order the map is walked in. */
  method GetVolumes(m: Lists, serviceScope: string) returns (volumes: seq<Volume>)
    requires Typed(m)
    ensures volumes == VolumesOf(ListOf(m, LDAP), serviceScope)
  {
    volumes := [];
    var types := m.Keys;
    while types != {}
      invariant types <= m.Keys
      invariant volumes == if LDAP in types then [] else VolumesOf(ListOf(m, LDAP), serviceScope)
    {
      var t :| t in types;
      var more := VolumesOfList(m[t], serviceScope);
      if t == OIDC {
        OidcHasNoVolumes(m[t], serviceScope);
      }
      volumes := volumes + more;
      types := types - {t};
    }
  }

  /** The mounts of the LDAP list, in a walk and an order of its own. */
  method GetVolumeMounts(m: Lists) returns (mounts: seq<VolumeMount>)
    requires Typed(m)
    ensures mounts == MountsOf(ListOf(m, LDAP))
  {
    mounts := [];
    var types := m.Keys;
    while types != {}
      invariant types <= m.Keys
      invariant mounts == if LDAP in types then [] else MountsOf(ListOf(m, LDAP))
    {
      var t :| t in types;
      var more := MountsOfList(m[t]);
      if t == OIDC {
        OidcHasNoVolumes(m[t], "");
      }
      mounts := mounts + more;
      types := types - {t};
    }
  }

  /** Every mount has its volume: the two walks, each in an order of its own, give lists that match name for
      name and secret class for secret class. */
  lemma {:induction false} MountsMatchVolumes(list: seq<Authenticator>, serviceScope: string)
    ensures |MountsOf(list)| == |VolumesOf(list, serviceScope)|
    ensures forall i :: 0 <= i < |MountsOf(list)| ==>
              && MountsOf(list)[i].name == VolumesOf(list, serviceScope)[i].name
              && MountsOf(list)[i].secretClass == VolumesOf(list, serviceScope)[i].secretClass
    ensures (forall i :: 0 <= i < |list| ==> list[i].LdapAuthenticator? && list[i].provider.bindCredentials.Some?)
              ==> |MountsOf(list)| == |list|
  {
    if list != [] {
      MountsMatchVolumes(list[..|list| - 1], serviceScope);
    }
  }

  ghost predicate IsBoundTo(a: Authenticator, secretClass: string) {
    && a.LdapAuthenticator? && a.provider.bindCredentials.Some?
    && a.provider.bindCredentials.value.secretClass == secretClass
  }

  /** No two authenticators are bound with one secret class. */
  ghost predicate SecretClassesDiffer(list: seq<Authenticator>) {
    forall i, j, secretClass :: 0 <= i < j < |list| ==>
      !(IsBoundTo(list[i], secretClass) && IsBoundTo(list[j], secretClass))
  }

  ghost predicate VolumeNamesDiffer(volumes: seq<Volume>) {
    forall i, j :: 0 <= i < j < |volumes| ==> volumes[i].name != volumes[j].name
  }

  lemma {:induction false} VolumesOfClass(list: seq<Authenticator>, serviceScope: string, secretClass: string)
    ensures (exists v :: v in VolumesOf(list, serviceScope) && v.name == "ldap-" + secretClass) <==>
              exists a :: a in list && IsBoundTo(a, secretClass)
  {
    if list != [] {
      var front, last := list[..|list| - 1], list[|list| - 1];
      VolumesOfClass(front, serviceScope, secretClass);
      VolumeOfClass(last, serviceScope, secretClass);
      assert list == front + [last];
    }
  }

  lemma VolumeOfClass(a: Authenticator, serviceScope: string, secretClass: string)
    ensures (exists v :: v in VolumeOf(a, serviceScope) && v.name == "ldap-" + secretClass) <==>
              IsBoundTo(a, secretClass)
  {
    if a.LdapAuthenticator? && a.provider.bindCredentials.Some? {
      var bound := a.provider.bindCredentials.value.secretClass;
      var v := VolumeOf(a, serviceScope)[0];
      assert VolumeOf(a, serviceScope) == [v] && v.name == "ldap-" + bound;
      assert bound == ("ldap-" + bound)[5..] && secretClass == ("ldap-" + secretClass)[5..];
    }
  }

  /** A pod cannot have two volumes of one name.  The names differ if and only if no two authenticators are
      bound with one secret class, which nothing in the validation of the entries asks for. */
  lemma {:induction false} VolumeNamesDifferExactly(list: seq<Authenticator>, serviceScope: string)
    ensures VolumeNamesDiffer(VolumesOf(list, serviceScope)) <==> SecretClassesDiffer(list)
  {
    if list != [] {
      var front, last := list[..|list| - 1], list[|list| - 1];
      VolumeNamesDifferExactly(front, serviceScope);
      assert list == front + [last];
      if last.LdapAuthenticator? && last.provider.bindCredentials.Some? {
        AppendedIsBound(front, last, serviceScope);
      } else {
        assert VolumesOf(list, serviceScope) == VolumesOf(front, serviceScope);
        AppendedIsNotBound(front, last);
      }
    }
  }

  lemma AppendedIsNotBound(list: seq<Authenticator>, last: Authenticator)
    requires forall secretClass :: !IsBoundTo(last, secretClass)
    ensures SecretClassesDiffer(list + [last]) <==> SecretClassesDiffer(list)
  {
    var all := list + [last];
    assert forall i :: 0 <= i < |list| ==> all[i] == list[i];
    assert all[|list|] == last;
  }

  lemma AppendedIsBound(list: seq<Authenticator>, last: Authenticator, serviceScope: string)
    requires last.LdapAuthenticator? && last.provider.bindCredentials.Some?
    requires VolumeNamesDiffer(VolumesOf(list, serviceScope)) <==> SecretClassesDiffer(list)
    ensures VolumeNamesDiffer(VolumesOf(list, serviceScope) + VolumeOf(last, serviceScope)) <==>
              SecretClassesDiffer(list + [last])
  {
    var secretClass := last.provider.bindCredentials.value.secretClass;
    var more := VolumeOf(last, serviceScope);
    assert more == [more[0]] && more[0].name == "ldap-" + secretClass;
    VolumesOfClass(list, serviceScope, secretClass);
    AppendedNameDiffers(VolumesOf(list, serviceScope), more[0]);
    AppendedClassDiffers(list, last, secretClass);
  }

  lemma AppendedNameDiffers(volumes: seq<Volume>, last: Volume)
    ensures VolumeNamesDiffer(volumes + [last]) <==>
              VolumeNamesDiffer(volumes) && !exists v :: v in volumes && v.name == last.name
  {
    var all := volumes + [last];
    assert forall i :: 0 <= i < |volumes| ==> all[i] == volumes[i];
    if VolumeNamesDiffer(all) {
      forall v | v in volumes
        ensures v.name != last.name
      {
        var i :| 0 <= i < |volumes| && volumes[i] == v;
        assert all[i].name != all[|volumes|].name;
      }
    }
  }

  lemma AppendedClassDiffers(list: seq<Authenticator>, last: Authenticator, secretClass: string)
    requires IsBoundTo(last, secretClass)
    ensures SecretClassesDiffer(list + [last]) <==>
              SecretClassesDiffer(list) && !exists a :: a in list && IsBoundTo(a, secretClass)
  {
    var all := list + [last];
    assert forall i :: 0 <= i < |list| ==> all[i] == list[i];
    assert IsBoundTo(all[|list|], secretClass);
    if SecretClassesDiffer(all) {
      forall a | a in list
        ensures !IsBoundTo(a, secretClass)
      {
        var i :| 0 <= i < |list| && list[i] == a;
        assert !IsBoundTo(all[i], secretClass);
      }
    }
  }
}

module AuthenticationConfig {
  import opened Wrappers
  import opened AuthenticatorTypes
  import opened NewAuthentication
  import opened AuthenticationAggregates

  /** Property values; URLs and joined paths are left as what they are made from. */
  datatype ConfigValue =
    | Text(text: string)
    | LdapUrl(hostname: string, port: int)                    // the port is left out when it is 0
    | OidcUrl(hostname: string, port: int, rootPath: string, suffix: string)
    | SecretFile(secretClass: string, file: string)
    | Words(words: seq<string>)                               // joined by blanks

  /** The keys of properties and template data, as the source spells them. */
  datatype Key =
    | auth_ldap_server | auth_ldap_search | auth_ldap_search_filter | auth_ldap_uid_field | auth_ldap_group_field
    | auth_ldap_firstname_field | auth_ldap_lastname_field | auth_ldap_email_field | auth_ldap_bind_user_file
    | auth_ldap_bind_password_file
    | client_id | client_secret | scopes | api_base_url | server_metadata_url | provider_hint
    | auth_type | auth_roles_sync_at_login | user_registration | user_registration_role | providers

  type Properties = map<Key, ConfigValue>

  const DEFAULT_FIELD_NAMES := FieldNames("uid", "sn", "givenName", "email", "memberOf")

  const LDAP_KEYS := {auth_ldap_server, auth_ldap_search, auth_ldap_search_filter, auth_ldap_uid_field,
                      auth_ldap_group_field, auth_ldap_firstname_field, auth_ldap_lastname_field,
                      auth_ldap_email_field, auth_ldap_bind_user_file, auth_ldap_bind_password_file}

  const OIDC_KEYS := {client_id, client_secret, scopes, api_base_url, server_metadata_url, provider_hint}

  const SHARED_KEYS := {auth_type, auth_roles_sync_at_login, user_registration, user_registration_role}

  function KeysOf(t: AuthenticatorType): set<Key> {
    if t == LDAP then LDAP_KEYS else OIDC_KEYS
  }

  function LdapProperty(p: LDAPProvider, secretClass: string, k: Key): ConfigValue
    requires k in LDAP_KEYS
  {
    var names := if p.fieldNames.Some? then p.fieldNames.value else DEFAULT_FIELD_NAMES;
    match k
    case auth_ldap_server => LdapUrl(p.hostname, p.port)
    case auth_ldap_search => Text(p.searchBase)
    case auth_ldap_search_filter => Text(p.searchFilter)
    case auth_ldap_uid_field => Text(names.uid)
    case auth_ldap_group_field => Text(names.group)
    case auth_ldap_firstname_field => Text(names.givenName)
    case auth_ldap_lastname_field => Text(names.surname)
    case auth_ldap_email_field => Text(names.email)
    case auth_ldap_bind_user_file => SecretFile(secretClass, "username")
    case auth_ldap_bind_password_file => SecretFile(secretClass, "password")
  }

  function OidcProperty(p: OIDCProvider, config: OidcSpec, k: Key): ConfigValue
    requires k in OIDC_KEYS
  {
    match k
    case client_id => Text("os.environ.get('" + ENV_KEY_OIDC_CLIENT_ID + "')")
    case client_secret => Text("os.environ.get('" + ENV_KEY_OIDC_CLIENT_SECRET + "')")
    case scopes => Words(p.scopes + config.extraScopes)
    case api_base_url => OidcUrl(p.hostname, p.port, p.rootPath, "/protocol/")
    case server_metadata_url => OidcUrl(p.hostname, p.port, p.rootPath, "/.well-known/openid-configuration")
    case provider_hint => Text(p.providerHint)
  }

  /** The configuration of an authenticator; None for the nil dereference of an LDAP provider without bind
      credentials or an OIDC entry without an `oidc` section. */
  function AuthenticatorConfig(a: Authenticator): (r: Option<Properties>)
    ensures r.Some? ==> r.value.Keys == KeysOf(a.Type())
  {
    match a
    case LdapAuthenticator(p) =>
      if p.bindCredentials.None? then None
      else Some(map k | k in LDAP_KEYS :: LdapProperty(p, p.bindCredentials.value.secretClass, k))
    case OidcAuthenticator(None, _) => None
    case OidcAuthenticator(Some(config), p) => Some(map k | k in OIDC_KEYS :: OidcProperty(p, config, k))
  }

  /** An LDAP provider needs bind credentials and an OIDC entry its section. */
  predicate HasItsSection(a: Authenticator) {
    if a.LdapAuthenticator? then a.provider.bindCredentials.Some? else a.config.Some?
  }

  lemma ConfigurableExactly(list: seq<Authenticator>)
    ensures AllConfigurable(list) <==> AllHaveTheirSections(list)
  {
    forall i | 0 <= i < |list|
      ensures AuthenticatorConfig(list[i]).Some? <==> HasItsSection(list[i])
    {
    }
  }

  ghost predicate AllHaveTheirSections(list: seq<Authenticator>) {
    forall i :: 0 <= i < |list| ==> HasItsSection(list[i])
  }

  predicate AllConfigurable(list: seq<Authenticator>) {
    forall i :: 0 <= i < |list| ==> AuthenticatorConfig(list[i]).Some?
  }

  method CopyProperties(data: Properties, cfg: Properties) returns (r: Properties)
    ensures r == data + cfg
  {
    r := data;
    var keys := cfg.Keys;
    while keys != {}
      invariant keys <= cfg.Keys
      invariant r.Keys == data.Keys + (cfg.Keys - keys)
      invariant forall k :: k in r ==> r[k] == if k in cfg.Keys - keys then cfg[k] else data[k]
    {
      var k :| k in keys;
      r := r[k := cfg[k]];
      keys := keys - {k};
    }
  }

  /** Copies the properties of each authenticator of a list over those of the ones before, key by key in any
      order.  Since all authenticators of a type write the same keys, the last one's configuration is left. */
  method MergeConfigs(list: seq<Authenticator>) returns (merged: Option<Properties>)
    requires forall i, j :: 0 <= i < |list| && 0 <= j < |list| ==> list[i].Type() == list[j].Type()
    ensures merged.Some? <==> AllConfigurable(list)
    ensures merged.Some? ==> merged.value == if list == [] then map[] else AuthenticatorConfig(list[|list| - 1]).value
  {
    var data: Properties := map[];
    for i := 0 to |list|
      invariant AllConfigurable(list[..i])
      invariant data == if i == 0 then map[] else AuthenticatorConfig(list[i - 1]).value
    {
      var cfg := AuthenticatorConfig(list[i]);
      if cfg.None? {
        return None;
      }
      assert i > 0 ==> list[i].Type() == list[i - 1].Type();
      assert data.Keys <= cfg.value.Keys;
      data := CopyProperties(data, cfg.value);
      assert data == cfg.value;
      assert forall j :: 0 <= j < i ==> list[..i][j] == list[j];
    }
    assert list[..|list|] == list;
    merged := Some(data);
  }

  /** The values handed to a configuration template. */
  datatype TemplateValue =
    | Property(value: ConfigValue)
    | AuthTypeName(name: string)
    | SyncRolesAt(of: LoopVariable?)             // a pointer to this field of a loop variable
    | UserRegistration(of: LoopVariable?)
    | UserRegistrationRole(of: LoopVariable?)
    | Providers(properties: Properties)

  type TemplateData = map<Key, TemplateValue>

  function AsTemplateData(m: Properties): (r: TemplateData)
    ensures r.Keys == m.Keys && forall k :: k in m ==> r[k] == Property(m[k])
  {
    map k | k in m :: Property(m[k])
  }

  function SharedValue(name: string, s: Settings, k: Key): TemplateValue
    requires k in SHARED_KEYS
  {
    match k
    case auth_type => AuthTypeName(name)
    case auth_roles_sync_at_login => SyncRolesAt(s.syncRolesAt)
    case user_registration => UserRegistration(s.userRegistration)
    case user_registration_role => UserRegistrationRole(s.userRegistrationRole)
  }

  function Shared(name: string, s: Settings): TemplateData {
    map k | k in SHARED_KEYS :: SharedValue(name, s, k)
  }

  function LastConfig(list: seq<Authenticator>): Properties
    requires AllConfigurable(list)
  {
    if list == [] then map[] else AuthenticatorConfig(list[|list| - 1]).value
  }

  /** No authenticator's property can overwrite a shared key, nor be overwritten by one. */
  lemma SharedKeysAreSeparate(list: seq<Authenticator>, name: string, s: Settings)
    requires AllConfigurable(list)
    ensures LastConfig(list).Keys !! SHARED_KEYS
    ensures
      var data := AsTemplateData(LastConfig(list)) + Shared(name, s);
      && (forall k :: k in LastConfig(list) ==> k in data && data[k] == Property(LastConfig(list)[k]))
      && (forall k :: k in SHARED_KEYS ==> k in data && data[k] == SharedValue(name, s, k))
  {
    PropertyKeysAreNotShared(list);
    DisjointUnion(AsTemplateData(LastConfig(list)), Shared(name, s));
  }

  lemma PropertyKeysAreNotShared(list: seq<Authenticator>)
    requires AllConfigurable(list)
    ensures LastConfig(list).Keys !! SHARED_KEYS
  {
    if list != [] {
      KeySetsAreSeparate(list[|list| - 1].Type());
    }
  }

  lemma KeySetsAreSeparate(t: AuthenticatorType)
    ensures KeysOf(t) !! SHARED_KEYS
  {
    if t == LDAP {
      assert LDAP_KEYS !! SHARED_KEYS;
    } else {
      assert OIDC_KEYS !! SHARED_KEYS;
    }
  }

  lemma DisjointUnion(a: TemplateData, b: TemplateData)
    requires a.Keys !! b.Keys
    ensures forall k :: k in a ==> (a + b)[k] == a[k]
    ensures forall k :: k in b ==> (a + b)[k] == b[k]
  {
  }

  function LdapData(m: Lists, s: Settings): TemplateData
    requires AllConfigurable(ListOf(m, LDAP))
  {
    AsTemplateData(LastConfig(ListOf(m, LDAP))) + Shared("AUTH_LDAP", s)
  }

  function OidcData(m: Lists, s: Settings): TemplateData
    requires AllConfigurable(ListOf(m, OIDC))
  {
    (if OIDC in m then map[providers := Providers(LastConfig(m[OIDC]))] else map[]) + Shared("AUTH_OAUTH", s)
  }

  ghost predicate Holds(m: Properties, k: Key, v: ConfigValue) {
    k in m && m[k] == v
  }

  /** An LDAP provider's configuration: its own server, search and field names, which default as a whole, and
      the files of its secret class for the bind credentials. */
  ghost predicate IsLdapConfig(m: Properties, p: LDAPProvider) {
    && Holds(m, auth_ldap_server, LdapUrl(p.hostname, p.port))
    && Holds(m, auth_ldap_search, Text(p.searchBase)) && Holds(m, auth_ldap_search_filter, Text(p.searchFilter))
    && (match p.fieldNames
        case None =>
          && Holds(m, auth_ldap_uid_field, Text("uid")) && Holds(m, auth_ldap_group_field, Text("memberOf"))
          && Holds(m, auth_ldap_firstname_field, Text("givenName")) && Holds(m, auth_ldap_lastname_field, Text("sn"))
          && Holds(m, auth_ldap_email_field, Text("email"))
        case Some(names) =>
          && Holds(m, auth_ldap_uid_field, Text(names.uid)) && Holds(m, auth_ldap_group_field, Text(names.group))
          && Holds(m, auth_ldap_firstname_field, Text(names.givenName))
          && Holds(m, auth_ldap_lastname_field, Text(names.surname))
          && Holds(m, auth_ldap_email_field, Text(names.email)))
    && p.bindCredentials.Some?
    && var secretClass := p.bindCredentials.value.secretClass;
    && Holds(m, auth_ldap_bind_user_file, SecretFile(secretClass, "username"))
    && Holds(m, auth_ldap_bind_password_file, SecretFile(secretClass, "password"))
  }

  /** An OIDC authenticator's configuration: the credentials by the names of the variables that OidcEnvVars
      sets, the provider's scopes before the entry's, and two addresses at the issuer. */
  ghost predicate IsOidcConfig(m: Properties, config: OidcSpec, p: OIDCProvider) {
    && m.Keys == {client_id, client_secret, scopes, api_base_url, server_metadata_url, provider_hint}
    && m[client_id] == Text("os.environ.get('OIDC_CLIENT_ID')")
    && m[client_secret] == Text("os.environ.get('OIDC_CLIENT_SECRET')")
    && m[scopes] == Words(p.scopes + config.extraScopes)
    && m[api_base_url] == OidcUrl(p.hostname, p.port, p.rootPath, "/protocol/")
    && m[server_metadata_url] == OidcUrl(p.hostname, p.port, p.rootPath, "/.well-known/openid-configuration")
    && m[provider_hint] == Text(p.providerHint)
  }

  ghost predicate HasSettings(data: TemplateData, authType: string, s: Settings) {
    && {auth_type, auth_roles_sync_at_login, user_registration, user_registration_role} <= data.Keys
    && data[auth_type] == AuthTypeName(authType)
    && data[auth_roles_sync_at_login] == SyncRolesAt(s.syncRolesAt)
    && data[user_registration] == UserRegistration(s.userRegistration)
    && data[user_registration_role] == UserRegistrationRole(s.userRegistrationRole)
  }

  /** The template data without the settings, as properties again. */
  ghost function PropertiesIn(data: TemplateData): Properties {
    map k | k in data && data[k].Property? :: data[k].value
  }

  lemma LdapConfigIsRight(a: Authenticator)
    requires a.LdapAuthenticator? && AuthenticatorConfig(a).Some?
    ensures IsLdapConfig(AuthenticatorConfig(a).value, a.provider)
  {
  }

  lemma OidcConfigIsRight(a: Authenticator)
    requires a.OidcAuthenticator? && AuthenticatorConfig(a).Some?
    ensures a.config.Some? && IsOidcConfig(AuthenticatorConfig(a).value, a.config.value, a.oidcProvider)
  {
    ClientIdLookup();
    ClientSecretLookup();
  }

  lemma ClientIdLookup()
    ensures "os.environ.get('" + ENV_KEY_OIDC_CLIENT_ID + "')" == "os.environ.get('OIDC_CLIENT_ID')"
  {
  }

  lemma ClientSecretLookup()
    ensures "os.environ.get('" + ENV_KEY_OIDC_CLIENT_SECRET + "')" == "os.environ.get('OIDC_CLIENT_SECRET')"
  {
  }

  /** With an LDAP authenticator, the data hold the last one's configuration, besides the settings. */
  ghost predicate IsLdapData(data: TemplateData, m: Lists, s: Settings) {
    && HasSettings(data, "AUTH_LDAP", s)
    && var list := ListOf(m, LDAP);
       if list == [] then PropertiesIn(data) == map[]
       else list[|list| - 1].LdapAuthenticator? && IsLdapConfig(PropertiesIn(data), list[|list| - 1].provider)
  }

  /** With an OIDC authenticator, the data hold the last one's configuration as `providers`. */
  ghost predicate IsOidcData(data: TemplateData, m: Lists, s: Settings) {
    && HasSettings(data, "AUTH_OAUTH", s) && PropertiesIn(data) == map[]
    && var list := ListOf(m, OIDC);
       if OIDC !in m then providers !in data
       else
         && providers in data && data[providers].Providers?
         && (list != [] ==>
               var last := list[|list| - 1];
               && last.OidcAuthenticator? && last.config.Some?
               && IsOidcConfig(data[providers].properties, last.config.value, last.oidcProvider))
  }

  lemma LdapPropertiesIn(m: Lists, s: Settings)
    requires AllConfigurable(ListOf(m, LDAP))
    ensures PropertiesIn(LdapData(m, s)) == LastConfig(ListOf(m, LDAP)) && HasSettings(LdapData(m, s), "AUTH_LDAP", s)
  {
    PropertyKeysAreNotShared(ListOf(m, LDAP));
    PropertiesOfUnion(LastConfig(ListOf(m, LDAP)), Shared("AUTH_LDAP", s));
    SettingsOfUnion(AsTemplateData(LastConfig(ListOf(m, LDAP))), "AUTH_LDAP", s);
  }

  lemma PropertiesOfUnion(properties: Properties, shared: TemplateData)
    requires properties.Keys !! shared.Keys && forall k :: k in shared ==> !shared[k].Property?
    ensures PropertiesIn(AsTemplateData(properties) + shared) == properties
  {
  }

  lemma SettingsOfUnion(data: TemplateData, authType: string, s: Settings)
    ensures HasSettings(data + Shared(authType, s), authType, s)
  {
  }

  lemma LdapDataAreRight(m: Lists, s: Settings)
    requires Typed(m) && AllConfigurable(ListOf(m, LDAP))
    ensures IsLdapData(LdapData(m, s), m, s)
  {
    var list := ListOf(m, LDAP);
    LdapPropertiesIn(m, s);
    if list != [] {
      assert list[|list| - 1].Type() == LDAP;
      LdapConfigIsRight(list[|list| - 1]);
    }
  }

  lemma OidcDataAreRight(m: Lists, s: Settings)
    requires Typed(m) && AllConfigurable(ListOf(m, OIDC))
    ensures IsOidcData(OidcData(m, s), m, s)
  {
    var list := ListOf(m, OIDC);
    SettingsOfUnion(if OIDC in m then map[providers := Providers(LastConfig(m[OIDC]))] else map[], "AUTH_OAUTH", s);
    assert PropertiesIn(OidcData(m, s)) == map[];
    if list != [] {
      assert list[|list| - 1].Type() == OIDC;
      OidcConfigIsRight(list[|list| - 1]);
    }
  }

  // The loop over the map for the LDAP template.
  method CollectLdapData(m: Lists) returns (r: Option<TemplateData>)
    requires Typed(m)
    ensures r.Some? <==> AllConfigurable(ListOf(m, LDAP))
    ensures r.Some? ==> r.value == AsTemplateData(LastConfig(ListOf(m, LDAP)))
  {
    var data: TemplateData := map[];
    var types, exist := m.Keys, false;
    while types != {}
      invariant types <= m.Keys && (exist ==> LDAP in m.Keys && LDAP !in types)
      invariant LDAP in types || AllConfigurable(ListOf(m, LDAP))
      invariant data == if LDAP in types then map[] else AsTemplateData(LastConfig(ListOf(m, LDAP)))
    {
      var t :| t in types;
      types := types - {t};
      if t == LDAP {
        if exist {
          continue;
        }
        var merged := MergeConfigs(m[t]);
        if merged.None? {
          return None;
        }
        data := AsTemplateData(merged.value);
        exist := true;
      }
    }
    r := Some(data);
  }

  /** The LDAP template gets the last LDAP authenticator's properties, untouched, and the four shared keys. */
  method GetLdapData(m: Lists, s: Settings) returns (r: Option<TemplateData>)
    requires Typed(m)
    ensures r.Some? <==> AllConfigurable(ListOf(m, LDAP))
    ensures r.Some? <==> AllHaveTheirSections(ListOf(m, LDAP))
    ensures r.Some? ==> r.value == LdapData(m, s) && IsLdapData(r.value, m, s)
    ensures r.Some? ==> forall k :: k in LastConfig(ListOf(m, LDAP)) ==>
              k !in SHARED_KEYS && k in r.value && r.value[k] == Property(LastConfig(ListOf(m, LDAP))[k])
  {
    ConfigurableExactly(ListOf(m, LDAP));
    r := CollectLdapData(m);
    if r.Some? {
      SharedKeysAreSeparate(ListOf(m, LDAP), "AUTH_LDAP", s);
      LdapDataAreRight(m, s);
      r := Some(r.value + Shared("AUTH_LDAP", s));
    }
  }

  /** The OIDC template gets the last OIDC authenticator's properties under one key, if there is any OIDC
      authenticator, and the four shared keys. */
  method GetOidcData(m: Lists, s: Settings) returns (r: Option<TemplateData>)
    requires Typed(m)
    ensures r.Some? <==> AllConfigurable(ListOf(m, OIDC))
    ensures r.Some? <==> AllHaveTheirSections(ListOf(m, OIDC))
    ensures r.Some? ==> r.value == OidcData(m, s) && IsOidcData(r.value, m, s)
  {
    ConfigurableExactly(ListOf(m, OIDC));
    var data: TemplateData := map[];
    var types := m.Keys;
    while types != {}
      invariant types <= m.Keys
      invariant OIDC in types || AllConfigurable(ListOf(m, OIDC))
      invariant data == if OIDC in m && OIDC !in types then map[providers := Providers(LastConfig(m[OIDC]))] else map[]
    {
      var t :| t in types;
      types := types - {t};
      if t == OIDC {
        var merged := MergeConfigs(m[t]);
        if merged.None? {
          return None;
        }
        data := data[providers := Providers(merged.value)];
      }
    }
    OidcDataAreRight(m, s);
    r := Some(data + Shared("AUTH_OAUTH", s));
  }

  datatype Template = LdapTemplate | OidcTemplate

  /** The configuration text: a line for the database, or the two rendered templates. */
  datatype WebserverConfig = AuthDb | Rendered(ldap: string, oidc: string)
  {
    function ToString(): (text: string)
      ensures AuthDb? ==> text == "AUTH_TYPE = 'AUTH_DB'"
      ensures Rendered? ==> |text| == |ldap| + 1 + |oidc|
      ensures Rendered? ==> text[..|ldap|] == ldap && text[|ldap|] == '\n' && text[|ldap| + 1..] == oidc
    {
      if AuthDb? then "AUTH_TYPE = 'AUTH_DB'" else ldap + "\n" + oidc
    }
  }

  datatype ConfigResult = Config(config: WebserverConfig) | ParseFailed(error: string) | NilDereference

  /** What rendering the templates needs and gives: the library's parser is a parameter. */
  method GetConfig(m: Lists, s: Settings, parse: (Template, TemplateData) -> Result<string>)
    returns (r: ConfigResult)
    requires Typed(m)
    ensures r == Config(AuthDb) <==> m == map[]
    ensures r.NilDereference? <==>
              && m != map[]
              && (!AllConfigurable(ListOf(m, LDAP))
                  || (parse(LdapTemplate, LdapData(m, s)).Success? && !AllConfigurable(ListOf(m, OIDC))))
    ensures r.Config? && m != map[] ==>
              && AllConfigurable(ListOf(m, LDAP)) && AllConfigurable(ListOf(m, OIDC))
              && parse(LdapTemplate, LdapData(m, s)) == Success(r.config.ldap)
              && parse(OidcTemplate, OidcData(m, s)) == Success(r.config.oidc)
    ensures r.ParseFailed? ==>
              && m != map[] && AllConfigurable(ListOf(m, LDAP))
              && (parse(LdapTemplate, LdapData(m, s)) == Failure(r.error)
                  || (parse(LdapTemplate, LdapData(m, s)).Success? && AllConfigurable(ListOf(m, OIDC))
                      && parse(OidcTemplate, OidcData(m, s)) == Failure(r.error)))
  {
    if |m| == 0 {
      return Config(AuthDb);
    }
    var ldapData := GetLdapData(m, s);
    if ldapData.None? {
      return NilDereference;
    }
    var ldap := parse(LdapTemplate, ldapData.value);
    if ldap.Failure? {
      return ParseFailed(ldap.error);
    }
    var oidcData := GetOidcData(m, s);
    if oidcData.None? {
      return NilDereference;
    }
    var oidc := parse(OidcTemplate, oidcData.value);
    if oidc.Failure? {
      return ParseFailed(oidc.error);
    }
    r := Config(Rendered(ldap.value, oidc.value));
  }

  /** The entry's authenticator has what its configuration needs. */
  predicate EntryConfigurable(lookup: string -> Lookup, auth: AuthenticationEntry) {
    var a := EntryAuthenticator(lookup, auth);
    a.Some? && AuthenticatorConfig(a.value).Some?
  }

  /** From the configured entries to the configuration: a successful NewAuthentication counts every entry and
      gives the database configuration exactly for an empty list.  GetConfig gives no configuration if some
      LDAP provider lacks bind credentials or some OIDC entry its section, and panics for no other reason. */
  method Assemble(
    lookup: string -> Lookup, auths: seq<AuthenticationEntry>, parse: (Template, TemplateData) -> Result<string>)
    returns (r: Outcome<Authentication>, total: nat, config: ConfigResult)
    ensures r.Ok? ==> total == |auths|
    ensures r.Ok? ==> (config == Config(AuthDb) <==> auths == [])
    ensures r.Ok? && config.Config? ==> forall i :: 0 <= i < |auths| ==> EntryConfigurable(lookup, auths[i])
    ensures r.Ok? && config.NilDereference? ==> exists i :: 0 <= i < |auths| && !EntryConfigurable(lookup, auths[i])
  {
    total, config := 0, NilDereference;
    r := New(lookup, auths);
    if r.Ok? {
      var m := r.value.authenticators;
      ValidationIsPairwise(lookup, auths);
      GroupsAreTyped(m, lookup, auths);
      EntriesAreConserved(lookup, auths);
      ConfigurableEntries(lookup, auths);
      total := GetTotalAuthenticatorCount(m);
      config := GetConfig(m, r.value.settings, parse);
      if m == map[] {
        assert ListOf(m, LDAP) == [] && ListOf(m, OIDC) == [];
      }
    }
  }

  lemma GroupsAreTyped(m: Lists, lookup: string -> Lookup, auths: seq<AuthenticationEntry>)
    requires Groups(m, lookup, auths)
    ensures Typed(m)
  {
    forall t | t in m
      ensures m[t] == OfType(lookup, auths, t)
    {
      assert ListOf(m, t) == OfType(lookup, auths, t);
    }
  }

  lemma {:induction false} ConfigurableEntries(lookup: string -> Lookup, auths: seq<AuthenticationEntry>)
    requires forall i :: 0 <= i < |auths| ==> EntryAuthenticator(lookup, auths[i]).Some?
    ensures AllConfigurable(OfType(lookup, auths, LDAP)) && AllConfigurable(OfType(lookup, auths, OIDC)) <==>
              forall i :: 0 <= i < |auths| ==> EntryConfigurable(lookup, auths[i])
    decreases |auths|
  {
    if auths != [] {
      var last := |auths| - 1;
      var a := EntryAuthenticator(lookup, auths[last]).value;
      ConfigurableEntries(lookup, auths[..last]);
      ConfigurableAppend(OfType(lookup, auths[..last], a.Type()), a);
      assert forall i :: 0 <= i < last ==> auths[..last][i] == auths[i];
    }
  }

  lemma ConfigurableAppend(list: seq<Authenticator>, a: Authenticator)
    ensures AllConfigurable(list + [a]) <==> AllConfigurable(list) && AuthenticatorConfig(a).Some?
  {
    assert (list + [a])[|list|] == a;
    assert forall i :: 0 <= i < |list| ==> (list + [a])[i] == list[i];
  }
}
