/** The session orchestrator of pyrax/__init__.py: one process-wide session holding the
    identity, one client handle per cloud service, the default region and the table of services
    to start. The functions below state what each operation does to the whole session, as a
    value; the class SessionState at the end holds the session in fields, as the module globals
    do, and its methods are proved to act as these functions say. */
module Session {
  import opened Common
  import opened Text

  /** The region used when neither the caller nor the session names one. */
  const FallbackRegion: string := "DFW"

  /** The region key whose URL is a template without a region in its host name. */
  const AllRegions: string := "ALL"

  /** The service catalog: service name -> region code -> public URL. */
  type Catalog = map<string, map<string, string>>

  /** What the identity object exposes to the orchestrator. */
  datatype Identity = Identity(
    username: string,
    apiKey: string,
    authenticated: bool,
    token: string,
    tenantName: string,
    tenantId: string,
    authEndpoint: string,
    services: Catalog)

  /** A newly created identity object, before any credentials are set. */
  const NewIdentity: Identity := Identity("", "", false, "", "", "", "", map[])

  /** The six connectors, in the order connect_to_services runs them. */
  datatype Connector = Servers | Files | Keystone | LoadBalancers | Dns | Databases

  const ConnectOrder: seq<Connector> := [Servers, Files, Keystone, LoadBalancers, Dns, Databases]

  /** The `services_to_start` key that switches a connector on. */
  function FlagKey(c: Connector): string {
    match c
    case Servers => "servers"
    case Files => "files"
    case Keystone => "keystone"
    case LoadBalancers => "loadbalancers"
    case Dns => "dns"
    case Databases => "databases"
  }

  /** The function name the authentication gate reports for a connector. */
  function OperationName(c: Connector): string {
    match c
    case Servers => "connect_to_cloudservers"
    case Files => "connect_to_cloudfiles"
    case Keystone => "connect_to_keystone"
    case LoadBalancers => "connect_to_cloud_loadbalancers"
    case Dns => "connect_to_cloud_dns"
    case Databases => "connect_to_cloud_databases"
  }

  /** The compiled-in `services_to_start` table. "blockstorage" has no connector. */
  const DefaultServices: map<string, bool> := map[
    "servers" := true, "files" := true, "keystone" := true, "loadbalancers" := true,
    "dns" := true, "databases" := false, "blockstorage" := false]

  /** Every compiled-in key is present, so looking a connector's flag up never fails. */
  predicate HasServiceFlags(flags: map<string, bool>) {
    DefaultServices.Keys <= flags.Keys
  }

  /** A client handle, recorded by the parameters the orchestrator built it from. `urls` are the
      endpoints it resolved for the client; `userAgent` is the tagged user-agent string. */
  datatype Client = Client(
    service: Connector,
    username: string,
    apiKey: string,
    region: Option<string>,
    urls: seq<string>,
    userAgent: string)

  /** What the foreign modules supply: the package version, the user agents the client
      libraries start with, and whether the DNS library could be imported. */
  datatype Platform = Platform(
    version: string,
    serversAgent: string,
    filesAgent: string,
    keystoneAgent: string,
    lbAgent: string,
    dnsAgent: string,
    databasesAgent: string,
    dnsAvailable: bool)

  /** The module globals of the orchestrator. `keystoneAgent` and `lbAgent` are the user agents
      held by the keystone client class and the load-balancer library's constants, which the
      connectors rewrite in place. */
  datatype State = State(
    identity: Identity,
    cloudservers: Option<Client>,
    cloudfiles: Option<Client>,
    keystone: Option<Client>,
    cloudLoadbalancers: Option<Client>,
    cloudLb: Option<Client>,
    cloudDns: Option<Client>,
    cloudDatabases: Option<Client>,
    defaultRegion: Option<string>,
    servicesToStart: map<string, bool>,
    keystoneAgent: string,
    lbAgent: string,
    platform: Platform)

  /** The handle a connector stores. */
  function Handle(s: State, c: Connector): Option<Client> {
    match c
    case Servers => s.cloudservers
    case Files => s.cloudfiles
    case Keystone => s.keystone
    case LoadBalancers => s.cloudLoadbalancers
    case Dns => s.cloudDns
    case Databases => s.cloudDatabases
  }

  /** The session when the module has been imported, before the configuration is applied. */
  function InitialState(p: Platform): State {
    State(NewIdentity, None, None, None, None, None, None, None, None, DefaultServices,
          p.keystoneAgent, p.lbAgent, p)
  }

  /** The new session and the outcome of an operation on it. */
  datatype Step = Step(state: State, outcome: Outcome<Error>)

  // ---------------------------------------------------------------------------------------
  // Regions and endpoints

  /** `safe_region`: the region if it is truthy, else the default region if that is truthy,
      else the fallback region. */
  function SafeRegion(region: Option<string>, defaultRegion: Option<string>): (r: string)
    ensures r != ""
  {
    if Truthy(region) then region.value
    else if Truthy(defaultRegion) then defaultRegion.value
    else FallbackRegion
  }

  /** Precedence: an explicit region wins over the default, which wins over the fallback. */
  lemma RegionPrecedence(region: Option<string>, defaultRegion: Option<string>)
    ensures Truthy(region) ==> SafeRegion(region, defaultRegion) == region.value
    ensures !Truthy(region) && Truthy(defaultRegion) ==>
      SafeRegion(region, defaultRegion) == defaultRegion.value
    ensures !Truthy(region) && !Truthy(defaultRegion) ==>
      SafeRegion(region, defaultRegion) == FallbackRegion
  {
  }

  /** A resolved region resolves to itself, whatever the default. */
  lemma SafeRegionStable(region: Option<string>, d: Option<string>, d': Option<string>)
    ensures SafeRegion(Some(SafeRegion(region, d)), d') == SafeRegion(region, d)
  {
  }

  /** The public URL the catalog lists for a service in a region, if any. */
  function CatalogUrl(services: Catalog, svc: string, region: string): Option<string> {
    if svc in services && region in services[svc] then Some(services[svc][region]) else None
  }

  /** What every "//" of an "ALL" template is rewritten to. */
  function RegionPrefix(region: string): string {
    "//" + Lower(region) + "."
  }

  /** `_get_service_endpoint(svc, region)`: the catalog URL of exactly that region when it is
      non-empty; otherwise the "ALL" URL with every "//" rewritten to "//<region lower-cased>.";
      a failure when there is no "ALL" entry either (the source calls `replace` on None). */
  function GetServiceEndpoint(services: Catalog, svc: string, region: Option<string>,
                              defaultRegion: Option<string>): (r: Result<string, Error>)
    ensures Truthy(CatalogUrl(services, svc, SafeRegion(region, defaultRegion))) ==>
      r == Success(CatalogUrl(services, svc, SafeRegion(region, defaultRegion)).value)
    ensures r.Failure? <==>
      !Truthy(CatalogUrl(services, svc, SafeRegion(region, defaultRegion))) &&
      CatalogUrl(services, svc, AllRegions).None?
    ensures r.Failure? ==> r.error == EndpointMissing(svc)
  {
    var given := if region.None? then Some(SafeRegion(None, defaultRegion)) else region;
    var reg := SafeRegion(given, defaultRegion);
    SafeRegionStable(None, defaultRegion, defaultRegion);
    var exact := CatalogUrl(services, svc, reg);
    if Truthy(exact) then Success(exact.value)
    else
      match CatalogUrl(services, svc, AllRegions)
      case None => Failure(EndpointMissing(svc))
      case Some(template) => Success(ReplaceAll(template, "//", RegionPrefix(reg)))
  }

  /** "//" does not occur in `s`. */
  predicate NoDoubleSlash(s: string) {
    forall i :: 0 <= i < |s| ==> !MatchAt(s, "//", i)
  }

  /** The first "//" of `a + "//"` is the one after `a`. */
  predicate FirstDoubleSlashAfter(a: string) {
    forall i :: 0 <= i < |a| ==> !MatchAt(a + "//", "//", i)
  }

  /** Template fallback: with no usable entry for the region, an "ALL" URL `a + "//" + b`
      (its first "//" after `a`) becomes `a`, the region prefix, and `b` with each of its own
      "//" rewritten too. */
  lemma EndpointFromTemplate(services: Catalog, svc: string, region: Option<string>,
                             defaultRegion: Option<string>, a: string, b: string)
    requires !Truthy(CatalogUrl(services, svc, SafeRegion(region, defaultRegion)))
    requires CatalogUrl(services, svc, AllRegions) == Some(a + "//" + b)
    requires FirstDoubleSlashAfter(a)
    ensures GetServiceEndpoint(services, svc, region, defaultRegion) ==
      Success(a + RegionPrefix(SafeRegion(region, defaultRegion)) +
              ReplaceAll(b, "//", RegionPrefix(SafeRegion(region, defaultRegion))))
  {
    var reg := SafeRegion(region, defaultRegion);
    var given := if region.None? then Some(SafeRegion(None, defaultRegion)) else region;
    SafeRegionStable(None, defaultRegion, defaultRegion);
    assert SafeRegion(given, defaultRegion) == reg;
    var rep := RegionPrefix(reg);
    ReplaceAllFirst(a, "//", b, rep);
    calc {
      GetServiceEndpoint(services, svc, region, defaultRegion);
      Success(ReplaceAll(a + "//" + b, "//", rep));
      Success(a + rep + ReplaceAll(b, "//", rep));
    }
  }

  /** With a single "//" in the template, the region is inserted as the first label of the host. */
  lemma EndpointFromSimpleTemplate(services: Catalog, svc: string, region: Option<string>,
                                   defaultRegion: Option<string>, a: string, b: string)
    requires !Truthy(CatalogUrl(services, svc, SafeRegion(region, defaultRegion)))
    requires CatalogUrl(services, svc, AllRegions) == Some(a + "//" + b)
    requires FirstDoubleSlashAfter(a) && NoDoubleSlash(b)
    ensures GetServiceEndpoint(services, svc, region, defaultRegion) ==
      Success(a + "//" + Lower(SafeRegion(region, defaultRegion)) + "." + b)
  {
    var reg := SafeRegion(region, defaultRegion);
    EndpointFromTemplate(services, svc, region, defaultRegion, a, b);
    ReplaceAllNoMatch(b, "//", RegionPrefix(reg));
    Regroup(a, "//", Lower(reg), ".", b);
  }

  /** Template fallback for a template without "//", the empty template included: `replace`
      finds nothing to rewrite, so the template is the endpoint as it is. */
  lemma EndpointFromPlainTemplate(services: Catalog, svc: string, region: Option<string>,
                                  defaultRegion: Option<string>, t: string)
    requires !Truthy(CatalogUrl(services, svc, SafeRegion(region, defaultRegion)))
    requires CatalogUrl(services, svc, AllRegions) == Some(t)
    requires NoDoubleSlash(t)
    ensures GetServiceEndpoint(services, svc, region, defaultRegion) == Success(t)
  {
    SafeRegionStable(None, defaultRegion, defaultRegion);
    ReplaceAllNoMatch(t, "//", RegionPrefix(SafeRegion(region, defaultRegion)));
  }

  /** Concatenation regrouped: the rewritten separator spliced between `a` and `b`. */
  lemma Regroup(a: string, x: string, y: string, z: string, b: string)
    ensures a + (x + y + z) + b == a + x + y + z + b
  {
  }

  // ---------------------------------------------------------------------------------------
  // User agents

  /** The user-agent token of this package. */
  function UserAgent(version: string): string {
    "pyrax/" + version
  }

  /** `_make_agent_name(base)`: the base agent followed by ":pyrax/<version>". */
  function MakeAgentName(base: string, version: string): (r: string)
    ensures |r| == |base| + 1 + |UserAgent(version)|
    ensures r[..|base|] == base && r[|base|..] == ":" + UserAgent(version)
  {
    base + ":" + UserAgent(version)
  }

  /** `base` tagged `n` times. */
  function Tagged(base: string, version: string, n: nat): string {
    if n == 0 then base else MakeAgentName(Tagged(base, version, n - 1), version)
  }

  /** Tagging keeps the base as a prefix and adds one suffix per tagging. */
  lemma {:induction false} TaggedGrows(base: string, version: string, n: nat)
    ensures |Tagged(base, version, n)| == |base| + n * (1 + |UserAgent(version)|)
    ensures Tagged(base, version, n)[..|base|] == base
  {
    if n > 0 {
      TaggedGrows(base, version, n - 1);
      var t := Tagged(base, version, n - 1);
      assert Tagged(base, version, n)[..|t|] == t;
      assert Tagged(base, version, n)[..|base|] == t[..|base|];
    }
  }

  // ---------------------------------------------------------------------------------------
  // The authentication gate and the connectors

  /** `_require_auth`: the wrapped function runs only when the identity is authenticated. */
  function RequireAuth(id: Identity, operation: string): (r: Outcome<Error>)
    ensures r == Pass <==> id.authenticated
    ensures r != Pass ==> r == Fail(NotAuthenticated(operation))
  {
    if !id.authenticated then Fail(NotAuthenticated(operation)) else Pass
  }

  /** `connect_to_cloudservers(region)`. */
  function CloudserversStep(s: State, region: Option<string>): Step {
    var gate := RequireAuth(s.identity, OperationName(Servers));
    if gate.Fail? then Step(s, gate)
    else
      var reg := SafeRegion(region, s.defaultRegion);
      match GetServiceEndpoint(s.identity.services, "compute", Some(reg), s.defaultRegion)
      case Failure(e) => Step(s, Fail(e))
      case Success(url) =>
        var agent := MakeAgentName(s.platform.serversAgent, s.platform.version);
        var client := Client(Servers, s.identity.username, s.identity.apiKey, Some(reg), [url], agent);
        Step(s.(cloudservers := Some(client)), Pass)
  }

  /** `connect_to_cloudfiles(region)`: needs both the storage and the CDN endpoint. */
  function CloudfilesStep(s: State, region: Option<string>): Step {
    var gate := RequireAuth(s.identity, OperationName(Files));
    if gate.Fail? then Step(s, gate)
    else
      var reg := SafeRegion(region, s.defaultRegion);
      match GetServiceEndpoint(s.identity.services, "object_store", Some(reg), s.defaultRegion)
      case Failure(e) => Step(s, Fail(e))
      case Success(cfUrl) =>
        match GetServiceEndpoint(s.identity.services, "object_cdn", Some(reg), s.defaultRegion)
        case Failure(e) => Step(s, Fail(e))
        case Success(cdnUrl) =>
          var agent := MakeAgentName(s.platform.filesAgent, s.platform.version);
          var client := Client(Files, s.identity.username, s.identity.apiKey, Some(reg),
                               [cfUrl, cdnUrl], agent);
          Step(s.(cloudfiles := Some(client)), Pass)
  }

  /** `connect_to_keystone()`: tags the user agent shared by every keystone client, then builds
      a client that uses it. */
  function KeystoneStep(s: State): Step {
    var gate := RequireAuth(s.identity, OperationName(Keystone));
    if gate.Fail? then Step(s, gate)
    else
      var agent := MakeAgentName(s.keystoneAgent, s.platform.version);
      var client := Client(Keystone, s.identity.username, s.identity.apiKey, None, [], agent);
      Step(s.(keystoneAgent := agent, keystone := Some(client)), Pass)
  }

  /** `connect_to_cloud_loadbalancers(region)`: tags the library-wide user agent; the library
      finds its own endpoint. `cloud_lb` is declared but never assigned. */
  function LoadBalancersStep(s: State, region: Option<string>): Step {
    var gate := RequireAuth(s.identity, OperationName(LoadBalancers));
    if gate.Fail? then Step(s, gate)
    else
      var reg := SafeRegion(region, s.defaultRegion);
      var agent := MakeAgentName(s.lbAgent, s.platform.version);
      var client := Client(LoadBalancers, s.identity.username, s.identity.apiKey, Some(reg), [], agent);
      Step(s.(lbAgent := agent, cloudLoadbalancers := Some(client)), Pass)
  }

  /** `connect_to_cloud_dns(region)`: does nothing when the DNS library is unavailable; the
      region it computes is never passed on. */
  function DnsStep(s: State, region: Option<string>): Step {
    var gate := RequireAuth(s.identity, OperationName(Dns));
    if gate.Fail? then Step(s, gate)
    else if !s.platform.dnsAvailable then Step(s, Pass)
    else
      var agent := MakeAgentName(s.platform.dnsAgent, s.platform.version);
      var client := Client(Dns, s.identity.username, s.identity.apiKey, None, [], agent);
      Step(s.(cloudDns := Some(client)), Pass)
  }

  /** `connect_to_cloud_databases(region)`. */
  function DatabasesStep(s: State, region: Option<string>): Step {
    var gate := RequireAuth(s.identity, OperationName(Databases));
    if gate.Fail? then Step(s, gate)
    else
      var reg := SafeRegion(region, s.defaultRegion);
      match GetServiceEndpoint(s.identity.services, "database", Some(reg), s.defaultRegion)
      case Failure(e) => Step(s, Fail(e))
      case Success(url) =>
        var agent := MakeAgentName(s.platform.databasesAgent, s.platform.version);
        var client := Client(Databases, s.identity.username, s.identity.apiKey, Some(reg), [url], agent);
        Step(s.(cloudDatabases := Some(client)), Pass)
  }

  /** Any connector; keystone takes no region. */
  function ConnectStep(c: Connector, s: State, region: Option<string>): Step {
    match c
    case Servers => CloudserversStep(s, region)
    case Files => CloudfilesStep(s, region)
    case Keystone => KeystoneStep(s)
    case LoadBalancers => LoadBalancersStep(s, region)
    case Dns => DnsStep(s, region)
    case Databases => DatabasesStep(s, region)
  }

  /** Unauthenticated, every connector fails with NotAuthenticated naming itself and changes
      nothing. */
  lemma ConnectorsRequireAuth(c: Connector, s: State, region: Option<string>)
    requires !s.identity.authenticated
    ensures ConnectStep(c, s, region) == Step(s, Fail(NotAuthenticated(OperationName(c))))
  {
  }

  /** A connector that fails builds nothing: the session is unchanged. */
  lemma ConnectorFailureChangesNothing(c: Connector, s: State, region: Option<string>)
    ensures ConnectStep(c, s, region).outcome.Fail? ==> ConnectStep(c, s, region).state == s
  {
  }

  /** A connector touches its own handle (and, for keystone and load balancers, the shared user
      agent it tags) and nothing else. */
  lemma ConnectorFrame(c: Connector, s: State, region: Option<string>)
    ensures var t := ConnectStep(c, s, region).state;
      && t.identity == s.identity && t.defaultRegion == s.defaultRegion
      && t.servicesToStart == s.servicesToStart && t.platform == s.platform
      && t.cloudLb == s.cloudLb
      && (forall d :: d != c ==> Handle(t, d) == Handle(s, d))
      && (c != Keystone ==> t.keystoneAgent == s.keystoneAgent)
      && (c != LoadBalancers ==> t.lbAgent == s.lbAgent)
  {
  }

  /** A connector that succeeds while authenticated stores a handle for its own service, tagged
      with this package's user agent — except DNS when its library is unavailable. */
  lemma ConnectorSuccessStoresHandle(c: Connector, s: State, region: Option<string>)
    requires s.identity.authenticated && ConnectStep(c, s, region).outcome.Pass?
    requires c == Dns ==> s.platform.dnsAvailable
    ensures var h := Handle(ConnectStep(c, s, region).state, c);
      && h.Some? && h.value.service == c
      && h.value.username == s.identity.username && h.value.apiKey == s.identity.apiKey
      && h.value.userAgent[|h.value.userAgent| - |UserAgent(s.platform.version)| - 1..]
           == ":" + UserAgent(s.platform.version)
  {
  }

  /** The catalog services a connector resolves endpoints for, in the order it resolves them. */
  function CatalogNames(c: Connector): seq<string> {
    match c
    case Servers => ["compute"]
    case Files => ["object_store", "object_cdn"]
    case Databases => ["database"]
    case _ => []
  }

  /** A connector that succeeds records the region `safe_region` resolved and the endpoints
      `_get_service_endpoint` gave for it; keystone and DNS take no region and no endpoint. */
  lemma ConnectorUsesResolvedRegion(c: Connector, s: State, region: Option<string>)
    requires s.identity.authenticated && ConnectStep(c, s, region).outcome.Pass?
    requires c == Dns ==> s.platform.dnsAvailable
    ensures var h := Handle(ConnectStep(c, s, region).state, c);
      var reg := SafeRegion(region, s.defaultRegion);
      && h.Some?
      && h.value.region == (if c == Keystone || c == Dns then None else Some(reg))
      && |h.value.urls| == |CatalogNames(c)|
      && forall i :: 0 <= i < |h.value.urls| ==>
           GetServiceEndpoint(s.identity.services, CatalogNames(c)[i], Some(reg), s.defaultRegion)
             == Success(h.value.urls[i])
  {
  }

  /** With DNS unavailable the DNS connector succeeds without setting a handle. */
  lemma DnsUnavailableIsNoop(s: State, region: Option<string>)
    requires s.identity.authenticated && !s.platform.dnsAvailable
    ensures DnsStep(s, region) == Step(s, Pass)
  {
  }

  /** Calling connect_to_keystone `n` times. */
  function KeystoneTimes(s: State, n: nat): Step {
    if n == 0 then Step(s, Pass) else KeystoneStep(KeystoneTimes(s, n - 1).state)
  }

  /** Every keystone connection tags the shared user agent again, so it grows by one suffix per
      call while the connector keeps succeeding. */
  lemma {:induction false} KeystoneAgentGrows(s: State, n: nat)
    requires s.identity.authenticated
    ensures KeystoneTimes(s, n).outcome == Pass
    ensures KeystoneTimes(s, n).state.identity == s.identity
    ensures KeystoneTimes(s, n).state.platform == s.platform
    ensures KeystoneTimes(s, n).state.keystoneAgent == Tagged(s.keystoneAgent, s.platform.version, n)
    ensures |KeystoneTimes(s, n).state.keystoneAgent| ==
      |s.keystoneAgent| + n * (1 + |UserAgent(s.platform.version)|)
  {
    if n > 0 {
      KeystoneAgentGrows(s, n - 1);
    }
    TaggedGrows(s.keystoneAgent, s.platform.version, n);
  }

  // ---------------------------------------------------------------------------------------
  // connect_to_services

  /** One `if services_to_start[...]` of connect_to_services: an exception stops the rest. */
  function ConnectIf(flag: bool, c: Connector, prev: Step): Step {
    if prev.outcome.Fail? || !flag then prev else ConnectStep(c, prev.state, None)
  }

  /** `connect_to_services()`. */
  function ConnectToServicesStep(s: State): Step
    requires HasServiceFlags(s.servicesToStart)
  {
    var gate := RequireAuth(s.identity, "connect_to_services");
    if gate.Fail? then Step(s, gate)
    else
      var f := s.servicesToStart;
      var r1 := ConnectIf(f["servers"], Servers, Step(s, Pass));
      var r2 := ConnectIf(f["files"], Files, r1);
      var r3 := ConnectIf(f["keystone"], Keystone, r2);
      var r4 := ConnectIf(f["loadbalancers"], LoadBalancers, r3);
      var r5 := ConnectIf(f["dns"], Dns, r4);
      ConnectIf(f["databases"], Databases, r5)
  }

  /** The connectors of `cs` whose flag is on, in the order of `cs`. */
  function Enabled(flags: map<string, bool>, cs: seq<Connector>): (r: seq<Connector>)
    requires forall c :: c in cs ==> FlagKey(c) in flags
  {
    if cs == [] then []
    else if flags[FlagKey(cs[0])] then [cs[0]] + Enabled(flags, cs[1..])
    else Enabled(flags, cs[1..])
  }

  /** The connectors connect_to_services runs. */
  function Plan(flags: map<string, bool>): seq<Connector>
    requires HasServiceFlags(flags)
  {
    Enabled(flags, ConnectOrder)
  }

  /** Running connectors one after the other; the first failure ends the run. */
  function RunAll(s: State, plan: seq<Connector>): Step
    decreases |plan|
  {
    if plan == [] then Step(s, Pass)
    else
      var r := ConnectStep(plan[0], s, None);
      if r.outcome.Fail? then r else RunAll(r.state, plan[1..])
  }

  /** Exactly the connectors whose flag is true are planned. */
  lemma {:induction false} EnabledMembers(flags: map<string, bool>, cs: seq<Connector>, c: Connector)
    requires forall d :: d in cs ==> FlagKey(d) in flags
    ensures c in Enabled(flags, cs) <==> c in cs && flags[FlagKey(c)]
  {
    if cs != [] {
      EnabledMembers(flags, cs[1..], c);
    }
  }

  /** Rank of a connector in the fixed order. */
  function Rank(c: Connector): nat {
    match c
    case Servers => 0
    case Files => 1
    case Keystone => 2
    case LoadBalancers => 3
    case Dns => 4
    case Databases => 5
  }

  predicate Ascending(cs: seq<Connector>) {
    forall i, j :: 0 <= i < j < |cs| ==> Rank(cs[i]) < Rank(cs[j])
  }

  /** Filtering keeps the order. */
  lemma {:induction false} EnabledAscending(flags: map<string, bool>, cs: seq<Connector>)
    requires forall d :: d in cs ==> FlagKey(d) in flags
    requires Ascending(cs)
    ensures Ascending(Enabled(flags, cs))
    ensures forall c :: c in Enabled(flags, cs) ==> c in cs
  {
    if cs != [] {
      EnabledAscending(flags, cs[1..]);
      forall c | c in Enabled(flags, cs[1..]) ensures Rank(cs[0]) < Rank(c) {
        var j :| 0 <= j < |cs[1..]| && cs[1..][j] == c;
        assert cs[j + 1] == c;
      }
    }
  }

  /** The plan holds exactly the enabled connectors, each once, in the fixed order
      servers, files, keystone, loadbalancers, dns, databases. */
  lemma PlanIsOrderedSelection(flags: map<string, bool>)
    requires HasServiceFlags(flags)
    ensures forall c :: c in Plan(flags) <==> flags[FlagKey(c)]
    ensures Ascending(Plan(flags))
  {
    forall c ensures c in Plan(flags) <==> flags[FlagKey(c)] {
      EnabledMembers(flags, ConnectOrder, c);
      assert c in ConnectOrder by { assert ConnectOrder[Rank(c)] == c; }
    }
    EnabledAscending(flags, ConnectOrder);
  }

  /** The "blockstorage" flag has no connector: it never changes the plan. */
  lemma {:induction false} BlockstorageIgnored(flags: map<string, bool>, b: bool, cs: seq<Connector>)
    requires forall d :: d in cs ==> FlagKey(d) in flags
    ensures Enabled(flags["blockstorage" := b], cs) == Enabled(flags, cs)
  {
    if cs != [] {
      BlockstorageIgnored(flags, b, cs[1..]);
    }
  }

  /** `ConnectIf` run over a list of connectors, with the flags read once. */
  function RunIfs(prev: Step, flags: map<string, bool>, cs: seq<Connector>): Step
    requires forall c :: c in cs ==> FlagKey(c) in flags
    decreases |cs|
  {
    if cs == [] then prev else RunIfs(ConnectIf(flags[FlagKey(cs[0])], cs[0], prev), flags, cs[1..])
  }

  lemma {:induction false} RunIfsAfterFailure(prev: Step, flags: map<string, bool>, cs: seq<Connector>)
    requires forall c :: c in cs ==> FlagKey(c) in flags
    requires prev.outcome.Fail?
    ensures RunIfs(prev, flags, cs) == prev
  {
    if cs != [] {
      RunIfsAfterFailure(prev, flags, cs[1..]);
    }
  }

  lemma {:induction false} RunIfsIsRunAll(s: State, flags: map<string, bool>, cs: seq<Connector>)
    requires forall c :: c in cs ==> FlagKey(c) in flags
    ensures RunIfs(Step(s, Pass), flags, cs) == RunAll(s, Enabled(flags, cs))
    decreases |cs|
  {
    if cs != [] {
      var c := cs[0];
      if flags[FlagKey(c)] {
        var r := ConnectStep(c, s, None);
        assert Enabled(flags, cs)[0] == c && Enabled(flags, cs)[1..] == Enabled(flags, cs[1..]);
        if r.outcome.Fail? {
          RunIfsAfterFailure(r, flags, cs[1..]);
        } else {
          assert r == Step(r.state, Pass);
          RunIfsIsRunAll(r.state, flags, cs[1..]);
        }
      } else {
        RunIfsIsRunAll(s, flags, cs[1..]);
      }
    }
  }

  /** connect_to_services runs exactly the planned connectors, in order, stopping at the first
      failure; unauthenticated it fails with NotAuthenticated and changes nothing. */
  lemma ConnectToServicesRunsPlan(s: State)
    requires HasServiceFlags(s.servicesToStart)
    ensures s.identity.authenticated ==>
      ConnectToServicesStep(s) == RunAll(s, Plan(s.servicesToStart))
    ensures !s.identity.authenticated ==>
      ConnectToServicesStep(s) == Step(s, Fail(NotAuthenticated("connect_to_services")))
  {
    if s.identity.authenticated {
      RunIfsIsRunAll(s, s.servicesToStart, ConnectOrder);
      ConnectToServicesIsRunIfs(s);
    }
  }

  /** Running a plan leaves the handle of every connector outside the plan as it was. */
  lemma {:induction false} RunAllFrame(s: State, plan: seq<Connector>, d: Connector)
    requires d !in plan
    ensures Handle(RunAll(s, plan).state, d) == Handle(s, d)
    decreases |plan|
  {
    if plan != [] {
      var r := ConnectStep(plan[0], s, None);
      ConnectorFrame(plan[0], s, None);
      if r.outcome.Pass? {
        assert plan == [plan[0]] + plan[1..];
        RunAllFrame(r.state, plan[1..], d);
      }
    }
  }

  /** connect_to_services leaves the handle of a service whose flag is off as it was. */
  lemma DisabledHandleKept(s: State, d: Connector)
    requires HasServiceFlags(s.servicesToStart) && !s.servicesToStart[FlagKey(d)]
    ensures Handle(ConnectToServicesStep(s).state, d) == Handle(s, d)
  {
    ConnectToServicesRunsPlan(s);
    PlanIsOrderedSelection(s.servicesToStart);
    if s.identity.authenticated {
      RunAllFrame(s, Plan(s.servicesToStart), d);
    }
  }

  /** The six `if` lines of connect_to_services are `RunIfs` over the fixed order. */
  lemma ConnectToServicesIsRunIfs(s: State)
    requires HasServiceFlags(s.servicesToStart) && s.identity.authenticated
    ensures ConnectToServicesStep(s) == RunIfs(Step(s, Pass), s.servicesToStart, ConnectOrder)
  {
    SixIfs(Step(s, Pass), s.servicesToStart);
  }

  /** `RunIfs` over the fixed order, written out line by line. */
  lemma SixIfs(p: Step, f: map<string, bool>)
    requires HasServiceFlags(f)
    ensures RunIfs(p, f, ConnectOrder) ==
      ConnectIf(f["databases"], Databases,
        ConnectIf(f["dns"], Dns,
          ConnectIf(f["loadbalancers"], LoadBalancers,
            ConnectIf(f["keystone"], Keystone,
              ConnectIf(f["files"], Files,
                ConnectIf(f["servers"], Servers, p))))))
  {
    var cs := ConnectOrder;
    assert cs[1..] == [Files, Keystone, LoadBalancers, Dns, Databases];
    assert cs[1..][1..] == [Keystone, LoadBalancers, Dns, Databases];
    assert cs[1..][1..][1..] == [LoadBalancers, Dns, Databases];
    assert cs[1..][1..][1..][1..] == [Dns, Databases];
    assert cs[1..][1..][1..][1..][1..] == [Databases];
    assert cs[1..][1..][1..][1..][1..][1..] == [];
  }

  /** The example of a configuration with servers off and files on. */
  lemma ServersOffFilesOn(flags: map<string, bool>)
    requires HasServiceFlags(flags) && !flags["servers"] && flags["files"]
    ensures Files in Plan(flags) && Servers !in Plan(flags)
  {
    PlanIsOrderedSelection(flags);
    assert FlagKey(Files) == "files" && FlagKey(Servers) == "servers";
  }

  // ---------------------------------------------------------------------------------------
  // Credentials

  /** `clear_credentials()`: a new identity, every handle (cloud_lb too) and the default region
      back to None; the table of services to start is kept. */
  function ClearedState(s: State): State {
    s.(identity := NewIdentity, cloudservers := None, cloudfiles := None, keystone := None,
       cloudLb := None, cloudLoadbalancers := None, cloudDns := None, cloudDatabases := None,
       defaultRegion := None)
  }

  lemma ClearResets(s: State)
    ensures var t := ClearedState(s);
      && !t.identity.authenticated && t.identity.token == "" && t.identity.services == map[]
      && (forall c :: Handle(t, c) == None) && t.cloudLb == None && t.defaultRegion == None
      && t.servicesToStart == s.servicesToStart && t.platform == s.platform
    ensures ClearedState(ClearedState(s)) == ClearedState(s)
  {
  }

  /** After clear_credentials every connector, and connect_to_services, is refused. */
  lemma ClearedRefusesConnections(s: State, c: Connector, region: Option<string>)
    requires HasServiceFlags(s.servicesToStart)
    ensures ConnectStep(c, ClearedState(s), region).outcome == Fail(NotAuthenticated(OperationName(c)))
    ensures ConnectToServicesStep(ClearedState(s)) ==
      Step(ClearedState(s), Fail(NotAuthenticated("connect_to_services")))
  {
    ConnectorsRequireAuth(c, ClearedState(s), region);
  }

  /** What `identity.set_credentials(...)`, `identity.set_credential_file(...)` or
      `identity.authenticate()` did: raised an exception, or returned; either way the identity
      object is left in the given state, since it may have stored credentials before raising. */
  datatype IdentityReply = Raised(error: Error, identity: Identity) | Updated(identity: Identity)

  /** The common tail of `set_credentials` and `set_credential_file`: on AuthenticationFailed
      clear the credentials and re-raise; other exceptions pass through, leaving the identity as
      the identity object left it; otherwise connect to the services if the identity is now
      authenticated. */
  function CredentialsStep(s: State, reply: IdentityReply): Step
    requires HasServiceFlags(s.servicesToStart)
  {
    match reply
    case Raised(e, id) =>
      if e == AuthenticationFailed then Step(ClearedState(s), Fail(e))
      else Step(s.(identity := id), Fail(e))
    case Updated(id) =>
      var s' := s.(identity := id);
      if id.authenticated then ConnectToServicesStep(s') else Step(s', Pass)
  }

  /** A rejected authentication rolls the session back to the cleared state. */
  lemma RejectedCredentialsRollBack(s: State, id: Identity)
    requires HasServiceFlags(s.servicesToStart)
    ensures var r := CredentialsStep(s, Raised(AuthenticationFailed, id));
      && r.outcome == Fail(AuthenticationFailed)
      && r.state == ClearedState(s)
      && !r.state.identity.authenticated
      && (forall c :: Handle(r.state, c) == None)
  {
  }

  /** Any other exception of the identity object is raised again without clearing and without
      connecting: only the identity object may have changed. */
  lemma OtherErrorsPassThrough(s: State, e: Error, id: Identity)
    requires HasServiceFlags(s.servicesToStart) && e != AuthenticationFailed
    ensures var r := CredentialsStep(s, Raised(e, id));
      && r.outcome == Fail(e)
      && r.state == s.(identity := id)
      && (forall c :: Handle(r.state, c) == Handle(s, c))
      && r.state.defaultRegion == s.defaultRegion
  {
  }

  /** `set_credential_file` on a file the identity object cannot read or parse: its
      InvalidCredentialFile is raised again, nothing is cleared and nothing is connected. */
  lemma UnreadableCredentialFile(s: State, id: Identity)
    requires HasServiceFlags(s.servicesToStart)
    ensures CredentialsStep(s, Raised(InvalidCredentialFile, id)) ==
      Step(s.(identity := id), Fail(InvalidCredentialFile))
  {
    OtherErrorsPassThrough(s, InvalidCredentialFile, id);
  }

  /** Accepted credentials connect the planned services exactly when the identity came out
      authenticated; otherwise only the identity changes. */
  lemma AcceptedCredentials(s: State, id: Identity)
    requires HasServiceFlags(s.servicesToStart)
    ensures id.authenticated ==>
      CredentialsStep(s, Updated(id)) == RunAll(s.(identity := id), Plan(s.servicesToStart))
    ensures !id.authenticated ==> CredentialsStep(s, Updated(id)) == Step(s.(identity := id), Pass)
  {
    ConnectToServicesRunsPlan(s.(identity := id));
  }

  /** Module-level `authenticate()`: the identity's own exception passes through and nothing is
      cleared. */
  function AuthenticateStep(s: State, reply: IdentityReply): Step {
    match reply
    case Raised(e, id) => Step(s.(identity := id), Fail(e))
    case Updated(id) => Step(s.(identity := id), Pass)
  }

  /** Unlike set_credentials, authenticate() clears nothing when authentication is rejected: the
      handles and the default region stay, and the identity is as the identity object left it. */
  lemma AuthenticateDoesNotRollBack(s: State, id: Identity)
    ensures var r := AuthenticateStep(s, Raised(AuthenticationFailed, id));
      && r == Step(s.(identity := id), Fail(AuthenticationFailed))
      && (forall c :: Handle(r.state, c) == Handle(s, c))
      && r.state.defaultRegion == s.defaultRegion
  {
  }

  /** `set_default_region(region)`. */
  function DefaultRegionSet(s: State, region: Option<string>): State {
    s.(defaultRegion := region)
  }

  /** After set_default_region with a non-empty region, a connector called without a region
      uses it: its handle records that region and the endpoints resolved for it. */
  lemma DefaultRegionUsed(s: State, r: string, c: Connector)
    requires r != "" && c != Keystone && c != Dns
    requires s.identity.authenticated && ConnectStep(c, DefaultRegionSet(s, Some(r)), None).outcome.Pass?
    ensures var h := Handle(ConnectStep(c, DefaultRegionSet(s, Some(r)), None).state, c);
      && h.Some? && h.value.region == Some(r)
      && |h.value.urls| == |CatalogNames(c)|
      && forall i :: 0 <= i < |h.value.urls| ==>
           GetServiceEndpoint(s.identity.services, CatalogNames(c)[i], Some(r), Some(r))
             == Success(h.value.urls[i])
  {
    var s' := DefaultRegionSet(s, Some(r));
    ConnectorUsesResolvedRegion(c, s', None);
    assert SafeRegion(None, s'.defaultRegion) == r;
  }

  // ---------------------------------------------------------------------------------------
  // Configuration

  /** `safe_get("settings", "region") or default_region`. */
  function ConfiguredRegion(setting: Option<string>, current: Option<string>): (r: Option<string>)
    ensures Truthy(setting) ==> r == setting
    ensures !Truthy(setting) ==> r == current
  {
    if Truthy(setting) then setting else current
  }

  /** The `[services]` overrides merged over the table: a key of the section is switched on
      exactly when its value is the string "True"; other keys keep their value. */
  function MergeServiceFlags(flags: map<string, bool>, overrides: map<string, string>): (r: map<string, bool>)
    ensures r.Keys == flags.Keys + overrides.Keys
  {
    map k | k in flags.Keys + overrides.Keys ::
      if k in overrides then overrides[k] == "True" else flags[k]
  }

  /** Merging is last-writer-wins per key: applying two sections in turn is applying their
      union, and re-applying a section changes nothing. */
  lemma MergeComposes(flags: map<string, bool>, o1: map<string, string>, o2: map<string, string>)
    ensures MergeServiceFlags(MergeServiceFlags(flags, o1), o2) == MergeServiceFlags(flags, o1 + o2)
    ensures MergeServiceFlags(MergeServiceFlags(flags, o1), o1) == MergeServiceFlags(flags, o1)
  {
  }

  /** Only "True" switches a service on: "true", "yes" or "1" switch it off. */
  lemma MergeExactTrue(flags: map<string, bool>, overrides: map<string, string>, k: string)
    requires k in overrides
    ensures MergeServiceFlags(flags, overrides)[k] <==> overrides[k] == "True"
  {
  }

  /** A key the section does not mention keeps its value, and the merged table still has every
      compiled-in key. */
  lemma MergeKeepsOthers(flags: map<string, bool>, overrides: map<string, string>, k: string)
    requires k in flags && k !in overrides
    ensures MergeServiceFlags(flags, overrides)[k] == flags[k]
    ensures HasServiceFlags(flags) ==> HasServiceFlags(MergeServiceFlags(flags, overrides))
  {
  }

  /** Applying the configuration file: the region setting first, then the `[services]`
      section, whose absence raises (after the region has been applied). */
  function ConfigStep(s: State, regionSetting: Option<string>, services: Option<map<string, string>>): Step {
    var s' := s.(defaultRegion := ConfiguredRegion(regionSetting, s.defaultRegion));
    match services
    case None => Step(s', Fail(NoServicesSection))
    case Some(o) => Step(s'.(servicesToStart := MergeServiceFlags(s'.servicesToStart, o)), Pass)
  }

  // ---------------------------------------------------------------------------------------
  // The session as mutable state

  /** The module globals, updated in place by the operations. */
  class SessionState {
    var identity: Identity
    var cloudservers: Option<Client>
    var cloudfiles: Option<Client>
    var keystone: Option<Client>
    var cloudLoadbalancers: Option<Client>
    var cloudLb: Option<Client>
    var cloudDns: Option<Client>
    var cloudDatabases: Option<Client>
    var defaultRegion: Option<string>
    var servicesToStart: map<string, bool>
    var keystoneAgent: string
    var lbAgent: string
    const platform: Platform

    /** The session as a value. */
    function View(): State
      reads this
    {
      State(identity, cloudservers, cloudfiles, keystone, cloudLoadbalancers, cloudLb, cloudDns,
            cloudDatabases, defaultRegion, servicesToStart, keystoneAgent, lbAgent, platform)
    }

    predicate Valid()
      reads this
    {
      HasServiceFlags(servicesToStart)
    }

    /** Importing the module. */
    constructor (p: Platform)
      ensures Valid() && View() == InitialState(p)
    {
      identity := NewIdentity;
      cloudservers, cloudfiles, keystone := None, None, None;
      cloudLoadbalancers, cloudLb, cloudDns, cloudDatabases := None, None, None, None;
      defaultRegion := None;
      servicesToStart := DefaultServices;
      keystoneAgent, lbAgent := p.keystoneAgent, p.lbAgent;
      platform := p;
    }

    /** Applying an already parsed configuration file, whose `[settings]` region and
        `[services]` section are given. */
    method ApplyConfig(regionSetting: Option<string>, services: Option<map<string, string>>)
      returns (res: Outcome<Error>)
      requires Valid()
      modifies this
      ensures Valid()
      ensures Step(View(), res) == ConfigStep(old(View()), regionSetting, services)
    {
      defaultRegion := ConfiguredRegion(regionSetting, defaultRegion);
      if services.None? {
        return Fail(NoServicesSection);
      }
      var svc := services.value;
      var todo := svc.Keys;
      while todo != {}
        invariant todo <= svc.Keys
        invariant servicesToStart.Keys == old(servicesToStart).Keys + (svc.Keys - todo)
        invariant forall k :: k in servicesToStart ==>
          servicesToStart[k] == if k in svc && k !in todo then svc[k] == "True" else old(servicesToStart)[k]
        invariant identity == old(identity) && defaultRegion == ConfiguredRegion(regionSetting, old(defaultRegion))
        invariant cloudservers == old(cloudservers) && cloudfiles == old(cloudfiles) && keystone == old(keystone)
        invariant cloudLoadbalancers == old(cloudLoadbalancers) && cloudLb == old(cloudLb)
        invariant cloudDns == old(cloudDns) && cloudDatabases == old(cloudDatabases)
        invariant keystoneAgent == old(keystoneAgent) && lbAgent == old(lbAgent)
        decreases todo
      {
        var k :| k in todo;
        servicesToStart := servicesToStart[k := svc[k] == "True"];
        todo := todo - {k};
      }
      assert servicesToStart == MergeServiceFlags(old(servicesToStart), svc);
      res := Pass;
    }

    method ConnectToCloudservers(region: Option<string>) returns (res: Outcome<Error>)
      modifies this
      ensures servicesToStart == old(servicesToStart)
      ensures Step(View(), res) == CloudserversStep(old(View()), region)
    {
      var gate := RequireAuth(identity, OperationName(Servers));
      if gate.Fail? {
        return gate;
      }
      var reg := SafeRegion(region, defaultRegion);
      var url := GetServiceEndpoint(identity.services, "compute", Some(reg), defaultRegion);
      if url.Failure? {
        return Fail(url.error);
      }
      var agent := MakeAgentName(platform.serversAgent, platform.version);
      cloudservers := Some(Client(Servers, identity.username, identity.apiKey, Some(reg), [url.value], agent));
      res := Pass;
    }

    method ConnectToCloudfiles(region: Option<string>) returns (res: Outcome<Error>)
      modifies this
      ensures servicesToStart == old(servicesToStart)
      ensures Step(View(), res) == CloudfilesStep(old(View()), region)
    {
      var gate := RequireAuth(identity, OperationName(Files));
      if gate.Fail? {
        return gate;
      }
      var reg := SafeRegion(region, defaultRegion);
      var cfUrl := GetServiceEndpoint(identity.services, "object_store", Some(reg), defaultRegion);
      if cfUrl.Failure? {
        return Fail(cfUrl.error);
      }
      var cdnUrl := GetServiceEndpoint(identity.services, "object_cdn", Some(reg), defaultRegion);
      if cdnUrl.Failure? {
        return Fail(cdnUrl.error);
      }
      var agent := MakeAgentName(platform.filesAgent, platform.version);
      cloudfiles := Some(Client(Files, identity.username, identity.apiKey, Some(reg),
                                [cfUrl.value, cdnUrl.value], agent));
      res := Pass;
    }

    method ConnectToKeystone() returns (res: Outcome<Error>)
      modifies this
      ensures servicesToStart == old(servicesToStart)
      ensures Step(View(), res) == KeystoneStep(old(View()))
    {
      var gate := RequireAuth(identity, OperationName(Keystone));
      if gate.Fail? {
        return gate;
      }
      keystoneAgent := MakeAgentName(keystoneAgent, platform.version);
      keystone := Some(Client(Keystone, identity.username, identity.apiKey, None, [], keystoneAgent));
      res := Pass;
    }

    method ConnectToCloudLoadbalancers(region: Option<string>) returns (res: Outcome<Error>)
      modifies this
      ensures servicesToStart == old(servicesToStart)
      ensures Step(View(), res) == LoadBalancersStep(old(View()), region)
    {
      var gate := RequireAuth(identity, OperationName(LoadBalancers));
      if gate.Fail? {
        return gate;
      }
      var reg := SafeRegion(region, defaultRegion);
      lbAgent := MakeAgentName(lbAgent, platform.version);
      cloudLoadbalancers := Some(Client(LoadBalancers, identity.username, identity.apiKey, Some(reg), [], lbAgent));
      res := Pass;
    }

    method ConnectToCloudDns(region: Option<string>) returns (res: Outcome<Error>)
      modifies this
      ensures servicesToStart == old(servicesToStart)
      ensures Step(View(), res) == DnsStep(old(View()), region)
    {
      var gate := RequireAuth(identity, OperationName(Dns));
      if gate.Fail? {
        return gate;
      }
      if !platform.dnsAvailable {
        return Pass;
      }
      var agent := MakeAgentName(platform.dnsAgent, platform.version);
      cloudDns := Some(Client(Dns, identity.username, identity.apiKey, None, [], agent));
      res := Pass;
    }

    method ConnectToCloudDatabases(region: Option<string>) returns (res: Outcome<Error>)
      modifies this
      ensures servicesToStart == old(servicesToStart)
      ensures Step(View(), res) == DatabasesStep(old(View()), region)
    {
      var gate := RequireAuth(identity, OperationName(Databases));
      if gate.Fail? {
        return gate;
      }
      var reg := SafeRegion(region, defaultRegion);
      var url := GetServiceEndpoint(identity.services, "database", Some(reg), defaultRegion);
      if url.Failure? {
        return Fail(url.error);
      }
      var agent := MakeAgentName(platform.databasesAgent, platform.version);
      cloudDatabases := Some(Client(Databases, identity.username, identity.apiKey, Some(reg), [url.value], agent));
      res := Pass;
    }

    /** Calls the connector for `c`, with no region. */
    method Connect(c: Connector) returns (res: Outcome<Error>)
      modifies this
      ensures servicesToStart == old(servicesToStart)
      ensures Step(View(), res) == ConnectStep(c, old(View()), None)
    {
      match c
      case Servers => res := ConnectToCloudservers(None);
      case Files => res := ConnectToCloudfiles(None);
      case Keystone => res := ConnectToKeystone();
      case LoadBalancers => res := ConnectToCloudLoadbalancers(None);
      case Dns => res := ConnectToCloudDns(None);
      case Databases => res := ConnectToCloudDatabases(None);
    }

    /** One `if services_to_start[<key>]: connect_to_<service>()` line of connect_to_services. */
    method ConnectIfEnabled(c: Connector) returns (res: Outcome<Error>)
      requires Valid()
      modifies this
      ensures Valid() && servicesToStart == old(servicesToStart)
      ensures Step(View(), res) == ConnectIf(servicesToStart[FlagKey(c)], c, Step(old(View()), Pass))
    {
      if servicesToStart[FlagKey(c)] {
        res := Connect(c);
      } else {
        res := Pass;
      }
    }

    method ConnectToServices() returns (res: Outcome<Error>)
      requires Valid()
      modifies this
      ensures Valid()
      ensures Step(View(), res) == ConnectToServicesStep(old(View()))
    {
      var gate := RequireAuth(identity, "connect_to_services");
      if gate.Fail? {
        return gate;
      }
      res := ConnectIfEnabled(Servers);
      if res.Fail? {
        return;
      }
      res := ConnectIfEnabled(Files);
      if res.Fail? {
        return;
      }
      res := ConnectIfEnabled(Keystone);
      if res.Fail? {
        return;
      }
      res := ConnectIfEnabled(LoadBalancers);
      if res.Fail? {
        return;
      }
      res := ConnectIfEnabled(Dns);
      if res.Fail? {
        return;
      }
      res := ConnectIfEnabled(Databases);
    }

    method ClearCredentials()
      modifies this
      ensures View() == ClearedState(old(View()))
    {
      identity := NewIdentity;
      cloudservers := None;
      cloudfiles := None;
      keystone := None;
      cloudLb := None;
      cloudLoadbalancers := None;
      cloudDns := None;
      cloudDatabases := None;
      defaultRegion := None;
    }

    method SetDefaultRegion(region: Option<string>)
      modifies this
      ensures View() == DefaultRegionSet(old(View()), region)
    {
      defaultRegion := region;
    }

    /** The tail shared by set_credentials and set_credential_file, once the identity object
        has answered. */
    method FinishCredentials(reply: IdentityReply) returns (res: Outcome<Error>)
      requires Valid()
      modifies this
      ensures Valid()
      ensures Step(View(), res) == CredentialsStep(old(View()), reply)
    {
      if reply.Raised? {
        if reply.error == AuthenticationFailed {
          ClearCredentials();
        } else {
          identity := reply.identity;
        }
        return Fail(reply.error);
      }
      identity := reply.identity;
      if identity.authenticated {
        res := ConnectToServices();
      } else {
        res := Pass;
      }
    }

    /** `set_credentials(username, api_key, authenticate)`; `provider` stands for the identity
        object's own set_credentials, which is not part of this model. */
    method SetCredentials(username: string, apiKey: string, authenticate: bool,
                          provider: (Identity, string, string, bool) -> IdentityReply)
      returns (res: Outcome<Error>)
      requires Valid()
      modifies this
      ensures Valid()
      ensures Step(View(), res) ==
        CredentialsStep(old(View()), provider(old(identity), username, apiKey, authenticate))
    {
      var reply := provider(identity, username, apiKey, authenticate);
      res := FinishCredentials(reply);
    }

    /** `set_credential_file(cred_file, authenticate)`; `provider` stands for the identity
        object's own set_credential_file, which answers `Raised(InvalidCredentialFile, _)` when
        the file cannot be read or parsed. */
    method SetCredentialFile(credFile: string, authenticate: bool,
                             provider: (Identity, string, bool) -> IdentityReply)
      returns (res: Outcome<Error>)
      requires Valid()
      modifies this
      ensures Valid()
      ensures Step(View(), res) ==
        CredentialsStep(old(View()), provider(old(identity), credFile, authenticate))
    {
      var reply := provider(identity, credFile, authenticate);
      res := FinishCredentials(reply);
    }

    /** Module-level `authenticate()`; `provider` stands for the identity object's own
        authenticate. */
    method Authenticate(provider: Identity -> IdentityReply) returns (res: Outcome<Error>)
      modifies this
      ensures Step(View(), res) == AuthenticateStep(old(View()), provider(old(identity)))
    {
      var reply := provider(identity);
      identity := reply.identity;
      if reply.Raised? {
        return Fail(reply.error);
      }
      res := Pass;
    }
  }
}
