# pyrax session orchestrator, in Dafny

This project models the core of pyrax, an early Python SDK for the Rackspace cloud. Its core
is the process-wide session kept in `pyrax/__init__.py`. The session holds:

- the identity object;
- one client handle per cloud service (servers, files, keystone, load balancers, DNS, databases);
- the default region;
- the `services_to_start` table.

Around that state the module provides:

- `safe_region`, the region precedence rule;
- `_get_service_endpoint`, which resolves a service URL from the service catalog;
- `_require_auth`, the authentication gate;
- the six `connect_to_*` connectors, and `connect_to_services`, which runs them in a fixed order;
- `clear_credentials`, `set_default_region`, `set_credentials`, `set_credential_file` and `authenticate`;
- user-agent tagging;
- the merge of the configuration file's `[services]` section.

The model also covers four self-contained helpers of `pyrax/utils.py`:

- `coerce_string_to_list`;
- `env`;
- the bounded `wait_until` loop;
- `slugify` after its unicode normalisation step.

Layout:

- `common.dfy` (module `Common`): `Option`, `Result`, `Outcome` (pass, or the exception
  raised), Python truthiness of an optional string, and the exceptions the core raises.
- `text.dfy` (module `Text`): Python 2 `str.lower()` on ASCII text and `str.replace`, which rewrites
  every non-overlapping occurrence from left to right.
- `utils.dfy` (module `Utils`): the helpers of `pyrax/utils.py`. `env` and `wait_until` are
  loops, so they are methods; `coerce_string_to_list` and `slugify` are functions.
- `session.dfy` (module `Session`):
  - the session as a value (`State`). Every operation is a function from a state to a `Step`,
    which holds the new state and the outcome. The lemmas state what each operation promises.
  - `class SessionState`, whose fields are the module globals. Its methods update them in
    place, and each method is proved to end in the state its function gives.
- `scenarios.dfy` (module `Scenarios`): concrete catalogs, configurations and strings run
  through the rules.

The identity object (`rax_identity`) is not modelled. Whatever it answers to `set_credentials`,
`set_credential_file` or `authenticate` is a `provider` parameter. The answer is either the
exception it raised or the identity it left behind. The package version, the user agents the
client libraries start with, and whether the DNS library could be imported are fields of a
`Platform` record.

Behaviour of the code worth noting:

- Module-level `authenticate()` does not clear the session when authentication is rejected.
  Only `set_credentials` and `set_credential_file` do (`Session.AuthenticateDoesNotRollBack`).
  An exception other than AuthenticationFailed clears nothing either
  (`Session.OtherErrorsPassThrough`).
- `_get_service_endpoint` rewrites every `//` of the `"ALL"` template, not only the first one,
  because it uses `str.replace` (`Scenarios.EveryDoubleSlashRewritten`).
- With the DNS library absent, `connect_to_cloud_dns` still exists. It passes the
  authentication gate and then does nothing (`Session.DnsUnavailableIsNoop`).
- An empty exact catalog entry falls through to the template. An `"ALL"` entry that is the
  empty string gives the empty URL (`Scenarios.EmptyTemplate`). Only a missing `"ALL"` entry fails, which the source
  does by calling `replace` on `None`. The model reports that failure as
  `EndpointMissing(service)`.

## Model

| member | source | states |
|---|---|---|
| Text.Lower | pyrax/__init__.py:196 | the lower-cased string has the same length, each character is the ASCII lower case of the original one, and no capital letter remains |
| Text.LowerIdentity | pyrax/utils.py:278 | a string without capital letters is unchanged by `lower()` |
| Text.LowerAppend | pyrax/utils.py:278 | `lower()` works character by character, so lower-casing a concatenation lower-cases each part |
| Text.ReplaceAll | pyrax/__init__.py:196 | `str.replace`: scans left to right, rewriting each occurrence and resuming after it; characterised by `Text.ReplaceAllNoMatch` and `Text.ReplaceAllFirst` |
| Text.ReplaceAllNoMatch | pyrax/__init__.py:196 | `replace` leaves a string in which the pattern does not occur unchanged |
| Text.ReplaceAllFirst | pyrax/__init__.py:196 | when the first occurrence of the pattern in `a + pat + b` follows `a`, `replace` keeps `a`, puts the replacement there and goes on rewriting `b` |
| Utils.CoerceStringToList | pyrax/utils.py:116-127 | the result is always a list or tuple; a falsy value gives `[]`; a truthy list or tuple is returned as it is; any other truthy value gives `[val]` |
| Utils.CoerceElements | pyrax/utils.py:116-127 | iterating over the coerced value visits nothing for a falsy value, else the elements of a list or tuple, else the value itself |
| Utils.CoerceIdempotent | pyrax/utils.py:116-127 | coercing an already coerced value changes nothing |
| Utils.Env | pyrax/utils.py:213-222 | when some name is set to a non-empty value, the result is the value of the first such name in argument order; otherwise it is the `default` keyword, or "" |
| Utils.WaitUntil | pyrax/utils.py:169-210 | with `attempts > 0`: between 1 and `attempts` rounds run; every round before the last saw a value not in `desired`; True exactly when the last round saw a desired value (a single `desired` counts as a one-element list); False exactly when it saw another value, and then every attempt was used; NoReloadError exactly when the object could not be reloaded |
| Utils.AsciiOnly | pyrax/utils.py:277 | `.encode("ascii", "ignore")` leaves only ASCII characters |
| Utils.AsciiOnlyMembers | pyrax/utils.py:277 | a character survives the ASCII encoding exactly when it is in the input and is ASCII |
| Utils.StripDisallowed | pyrax/utils.py:273-278 | removing `[^\w\s-]` leaves only word characters, whitespace and hyphens |
| Utils.StripDisallowedMembers | pyrax/utils.py:273-278 | a character survives the removal exactly when it is in the input and is a word character, whitespace or a hyphen |
| Utils.TrimLeft | pyrax/utils.py:278 | the left half of `strip()`: the result is a suffix of the input, everything removed before it is whitespace, and it does not start with whitespace |
| Utils.TrimRight | pyrax/utils.py:278 | the right half of `strip()`: the result is a prefix of the input, everything removed after it is whitespace, and it does not end with whitespace |
| Utils.Trim | pyrax/utils.py:278 | `strip()`: the result neither starts nor ends with whitespace |
| Utils.TrimMembers | pyrax/utils.py:278 | `strip()` keeps every character that is not whitespace |
| Utils.DropSeparators | pyrax/utils.py:274-279 | skipping a run of `[-\s]` gives a suffix, everything skipped is a separator, the suffix does not start with a separator, and it is shorter when the input starts with one |
| Utils.Hyphenate | pyrax/utils.py:274-279 | `re.sub(r"[-\s]+", "-", s)`: each maximal separator run becomes one hyphen; characterised by `Utils.HyphenateRun`, `Utils.HyphenateWord`, `Utils.HyphenateOrder`, `Utils.HyphenateMembers`, `Utils.HyphenateSlug` and `Utils.HyphenateIdentity` |
| Utils.HyphenateMembers | pyrax/utils.py:274-279 | a character that is not a separator is in the result exactly when it is in the input |
| Utils.Slugify | pyrax/utils.py:265-279 | the result is a slug: only `[a-z0-9_-]`, so lower case with no whitespace, and no two hyphens in a row |
| Utils.LowerMembers | pyrax/utils.py:278 | a character is in the lower-cased string exactly when it is the lower case of a character of the original |
| Utils.SlugifyKeepsWordChars | pyrax/utils.py:265-279 | apart from hyphens, the slug holds exactly the lower-cased word characters (letters, digits, underscore) of the input |
| Utils.WordCharInSlug | pyrax/utils.py:265-279 | every word character of the input reaches the slug, lower-cased |
| Utils.SlugCharFromWordChar | pyrax/utils.py:265-279 | every slug character other than a hyphen is the lower case of a word character of the input |
| Utils.SlugCons | pyrax/utils.py:279 | a slug character before a slug is a slug, unless it puts two hyphens together |
| Utils.TrimKeeps | pyrax/utils.py:278 | stripping whitespace from a string of kept characters leaves kept characters |
| Utils.HyphenateSlug | pyrax/utils.py:274-279 | collapsing the `[-\s]+` runs of a lower-cased kept string gives a slug, empty exactly when the input is, starting with a hyphen exactly when the input starts with a separator |
| Utils.AsciiOnlyIdentity | pyrax/utils.py:277 | an ASCII string survives the ASCII encoding unchanged |
| Utils.StripDisallowedIdentity | pyrax/utils.py:278 | a string of kept characters is unchanged by the removal of disallowed characters |
| Utils.HyphenateIdentity | pyrax/utils.py:279 | a slug has no run to collapse |
| Utils.SlugifyIdempotent | pyrax/utils.py:265-279 | slugifying a slug returns it unchanged |
| Utils.AsciiOnlyAppend | pyrax/utils.py:277 | the ASCII encoding of a concatenation is the concatenation of the encodings |
| Utils.StripDisallowedAppend | pyrax/utils.py:278 | removing `[^\w\s-]` from a concatenation removes it from each part |
| Utils.AsciiOnlyWordChars | pyrax/utils.py:277 | the ASCII encoding keeps every word character, in order |
| Utils.StripDisallowedOrder | pyrax/utils.py:278 | apart from whitespace and hyphens, what survives the removal of `[^\w\s-]` is exactly the word characters, in order |
| Utils.TrimOrder | pyrax/utils.py:278 | `strip()` removes whitespace only: the other characters stay, in order |
| Utils.LowerOrder | pyrax/utils.py:278 | lower-casing neither creates nor removes a separator, so it commutes with taking the separators out |
| Utils.HyphenateOrder | pyrax/utils.py:279 | collapsing the `[-\s]+` runs rewrites separators only: every other character stays, in order |
| Utils.HyphenateRun | pyrax/utils.py:279 | a whole run of separators up to the next other character becomes exactly one hyphen |
| Utils.HyphenateWord | pyrax/utils.py:279 | characters that are not separators are copied unchanged, in front of whatever the rest becomes |
| Utils.SlugifyOrder | pyrax/utils.py:265-279 | with its hyphens taken out, the slug is exactly the input's word characters lower-cased, in their original order |
| Utils.SlugifyJoinsWords | pyrax/utils.py:265-279 | spaces become hyphens: two words separated by a run of whitespace or hyphens become the two words lower-cased, joined by one hyphen |
| Session.SafeRegion | pyrax/__init__.py:200-202 | the region used is never empty |
| Session.RegionPrecedence | pyrax/__init__.py:200-202 | a truthy explicit region wins; otherwise a truthy default region; otherwise "DFW" |
| Session.SafeRegionStable | pyrax/__init__.py:200-202 | a region resolved once resolves to itself again, whatever the default |
| Session.GetServiceEndpoint | pyrax/__init__.py:188-197 | a non-empty catalog URL for exactly the resolved region is returned unchanged; the lookup fails exactly when there is no such URL and no "ALL" entry, and the failure names the service; the template's value is given by `Session.EndpointFromTemplate` (with `//`) and `Session.EndpointFromPlainTemplate` (without) |
| Session.CatalogUrl | pyrax/__init__.py:192 | the `public_url` the catalog lists for a service and region, or None when either key is missing |
| Session.EndpointFromTemplate | pyrax/__init__.py:194-196 | without a usable exact entry, an "ALL" URL `a//b` becomes `a`, then `//<region lower-cased>.`, then `b` with each of its own `//` rewritten too |
| Session.EndpointFromSimpleTemplate | pyrax/__init__.py:194-196 | with a single `//` in the template, the lower-cased region is inserted as the first label of the host name |
| Session.EndpointFromPlainTemplate | pyrax/__init__.py:194-196 | without a usable exact entry, an "ALL" template with no `//`, the empty template included, is the endpoint as it is |
| Session.MakeAgentName | pyrax/__init__.py:167-168 | the tagged agent is the base followed by ":pyrax/<version>" |
| Session.TaggedGrows | pyrax/__init__.py:167-168 | tagging n times keeps the base as a prefix and adds n suffixes of ":pyrax/<version>" |
| Session.RequireAuth | pyrax/__init__.py:94-101 | the gate passes exactly when the identity is authenticated, and otherwise raises NotAuthenticated naming the wrapped function |
| Session.CloudserversStep | pyrax/__init__.py:205-214 | `connect_to_cloudservers` as a state change; characterised by the connector lemmas below |
| Session.CloudfilesStep | pyrax/__init__.py:217-229 | `connect_to_cloudfiles` as a state change; characterised by the connector lemmas below |
| Session.KeystoneStep | pyrax/__init__.py:232-237 | `connect_to_keystone` as a state change; characterised by the connector lemmas below and `Session.KeystoneAgentGrows` |
| Session.LoadBalancersStep | pyrax/__init__.py:240-251 | `connect_to_cloud_loadbalancers` as a state change; characterised by the connector lemmas below |
| Session.DnsStep | pyrax/__init__.py:254-262 | `connect_to_cloud_dns` as a state change; characterised by the connector lemmas below and `Session.DnsUnavailableIsNoop` |
| Session.DatabasesStep | pyrax/__init__.py:265-275 | `connect_to_cloud_databases` as a state change; characterised by the connector lemmas below |
| Session.ConnectStep | pyrax/__init__.py:205-275 | any of the six connectors, by service |
| Session.CatalogNames | pyrax/__init__.py:205-275 | the catalog services a connector resolves endpoints for: "compute"; "object_store" then "object_cdn"; "database"; none for keystone, load balancers and DNS |
| Session.ConnectorsRequireAuth | pyrax/__init__.py:205-275 | unauthenticated, every connector raises NotAuthenticated naming itself and leaves the session unchanged |
| Session.ConnectorFailureChangesNothing | pyrax/__init__.py:205-275 | a connector refused by the authentication gate or by endpoint resolution changes nothing |
| Session.ConnectorFrame | pyrax/__init__.py:205-275 | a connector changes only its own handle and, for keystone and load balancers, the shared user agent it tags; identity, default region, flags and `cloud_lb` are unchanged |
| Session.ConnectorSuccessStoresHandle | pyrax/__init__.py:205-275 | a connector that succeeds stores a handle for its own service, built from the identity's username and API key, whose user agent ends in ":pyrax/<version>" |
| Session.ConnectorUsesResolvedRegion | pyrax/__init__.py:205-275 | a connector that succeeds records the region `safe_region` resolved, and, one by one, the endpoints `_get_service_endpoint` gave for that region; keystone and DNS record no region and no endpoint |
| Session.DnsUnavailableIsNoop | pyrax/__init__.py:254-257 | without the DNS library, `connect_to_cloud_dns` succeeds and changes nothing |
| Session.KeystoneAgentGrows | pyrax/__init__.py:232-237 | n calls of `connect_to_keystone` all succeed and re-tag the shared user agent n times, so it grows by one suffix per call |
| Session.ConnectToServicesStep | pyrax/__init__.py:171-185 | `connect_to_services`: the gate, then the six `if` lines; characterised by `Session.ConnectToServicesRunsPlan` |
| Session.Plan | pyrax/__init__.py:174-185 | the connectors `connect_to_services` runs; characterised by `Session.PlanIsOrderedSelection` |
| Session.RunAll | pyrax/__init__.py:174-185 | the connectors of a plan run one after the other, the first exception ending the run |
| Session.EnabledMembers | pyrax/__init__.py:174-185 | a connector is selected exactly when it is listed and its flag is true |
| Session.EnabledAscending | pyrax/__init__.py:174-185 | the selection keeps the fixed order and adds no connector |
| Session.PlanIsOrderedSelection | pyrax/__init__.py:174-185 | `connect_to_services` plans exactly the connectors whose flag is true, in the order servers, files, keystone, loadbalancers, dns, databases |
| Session.BlockstorageIgnored | pyrax/__init__.py:62-70 | the "blockstorage" flag never changes which connectors run |
| Session.RunIfsAfterFailure | pyrax/__init__.py:174-185 | once a connector has raised, the remaining `if` lines do nothing |
| Session.RunIfsIsRunAll | pyrax/__init__.py:174-185 | the sequence of `if flag: connect()` lines is running the selected connectors one after the other, stopping at the first exception |
| Session.ConnectToServicesRunsPlan | pyrax/__init__.py:171-185 | authenticated, `connect_to_services` runs exactly the planned connectors in order and stops at the first failure; unauthenticated, it raises NotAuthenticated and changes nothing |
| Session.RunAllFrame | pyrax/__init__.py:174-185 | running the connectors of a plan leaves the handle of every connector outside the plan as it was |
| Session.DisabledHandleKept | pyrax/__init__.py:171-185 | `connect_to_services` leaves the handle of a service whose flag is off as it was |
| Session.ConnectToServicesIsRunIfs | pyrax/__init__.py:171-185 | authenticated, the body of `connect_to_services` is the six `if` lines run over the fixed order |
| Session.SixIfs | pyrax/__init__.py:174-185 | the `if` lines over the fixed order, written out line by line in source order |
| Session.ServersOffFilesOn | pyrax/__init__.py:174-177 | with servers off and files on, the files connector runs and the servers connector does not |
| Session.InitialState | pyrax/__init__.py:48-70 | the globals at import: a new identity, no handles, no default region, the compiled-in table |
| Session.ClearedState | pyrax/__init__.py:147-159 | `clear_credentials` as a state change; characterised by `Session.ClearResets` |
| Session.ClearResets | pyrax/__init__.py:147-159 | after clearing, the identity is new and unauthenticated with no token or catalog; every handle, `cloud_lb` included, and the default region are None; the service flags are kept; clearing twice is clearing once |
| Session.ClearedRefusesConnections | pyrax/__init__.py:147-159 | after clearing, every connector and `connect_to_services` raise NotAuthenticated |
| Session.CredentialsStep | pyrax/__init__.py:104-131 | the tail of `set_credentials` and `set_credential_file` after the identity object answered; characterised by the three lemmas below |
| Session.RejectedCredentialsRollBack | pyrax/__init__.py:104-112 | when authentication is rejected, the session is cleared and AuthenticationFailed is raised again |
| Session.OtherErrorsPassThrough | pyrax/__init__.py:104-131 | any other exception is raised again with nothing cleared and nothing connected: only the identity may have changed, as the identity object left it |
| Session.UnreadableCredentialFile | pyrax/__init__.py:115-131 | a credential file the identity object cannot read or parse: InvalidCredentialFile is raised again, nothing cleared, nothing connected |
| Session.AcceptedCredentials | pyrax/__init__.py:104-131 | when the identity object returns normally, the services are connected exactly when it is now authenticated; otherwise only the identity changes |
| Session.AuthenticateStep | pyrax/__init__.py:134-144 | module-level `authenticate()` as a state change; characterised by `Session.AuthenticateDoesNotRollBack` |
| Session.AuthenticateDoesNotRollBack | pyrax/__init__.py:134-144 | a rejected module-level `authenticate()` raises and clears nothing: the handles and the default region stay, and the identity is as the identity object left it |
| Session.DefaultRegionSet | pyrax/__init__.py:162-164 | `set_default_region` as a state change; characterised by `Session.DefaultRegionUsed` |
| Session.DefaultRegionUsed | pyrax/__init__.py:162-164 | after `set_default_region` with a non-empty region, a connector called without a region that succeeds records that region in its handle, with the endpoints resolved for it |
| Session.ConfiguredRegion | pyrax/__init__.py:88 | a non-empty configured region replaces the default; an empty or missing one keeps it |
| Session.MergeServiceFlags | pyrax/__init__.py:89-91 | the merged table has the keys of the table and of the section |
| Session.ConfigStep | pyrax/__init__.py:88-91 | applying the configuration as a state change: the region first, then the `[services]` merge, or NoServicesSection when the section is missing |
| Session.MergeComposes | pyrax/__init__.py:89-91 | merging two sections in turn is merging their union with the later one winning, and merging a section again changes nothing |
| Session.MergeExactTrue | pyrax/__init__.py:91 | a key of the section is switched on exactly when its value is the string "True" |
| Session.MergeKeepsOthers | pyrax/__init__.py:89-91 | a key the section does not mention keeps its value, and no compiled-in key is lost |
| Session.SessionState.constructor | pyrax/__init__.py:48-70 | the new session has a new identity, no handles, no default region and the compiled-in service table |
| Session.SessionState.ApplyConfig | pyrax/__init__.py:88-91 | the loop sets the region, then rewrites `services_to_start` key by key to the merged table; a missing `[services]` section raises after the region is set |
| Session.SessionState.ConnectToCloudservers | pyrax/__init__.py:205-214 | behaves as `connect_to_cloudservers`: gate, region, "compute" endpoint, handle tagged with the agent |
| Session.SessionState.ConnectToCloudfiles | pyrax/__init__.py:217-229 | behaves as `connect_to_cloudfiles`: needs both the "object_store" and the "object_cdn" endpoint |
| Session.SessionState.ConnectToKeystone | pyrax/__init__.py:232-237 | behaves as `connect_to_keystone`: re-tags the shared agent, then builds the handle with it |
| Session.SessionState.ConnectToCloudLoadbalancers | pyrax/__init__.py:240-251 | behaves as `connect_to_cloud_loadbalancers`: re-tags the library agent and stores the handle; `cloud_lb` stays as it was |
| Session.SessionState.ConnectToCloudDns | pyrax/__init__.py:254-262 | behaves as `connect_to_cloud_dns`: nothing without the DNS library, else a tagged handle |
| Session.SessionState.ConnectToCloudDatabases | pyrax/__init__.py:265-275 | behaves as `connect_to_cloud_databases`: gate, region, "database" endpoint, tagged handle |
| Session.SessionState.Connect | pyrax/__init__.py:174-185 | calls the connector of the given service with no region |
| Session.SessionState.ConnectIfEnabled | pyrax/__init__.py:174-185 | one `if services_to_start[key]:` line: the connector runs exactly when its flag is on |
| Session.SessionState.ConnectToServices | pyrax/__init__.py:171-185 | ends in the state and outcome of `connect_to_services`, which `Session.ConnectToServicesRunsPlan` shows is the ordered, fail-fast run of the enabled connectors |
| Session.SessionState.ClearCredentials | pyrax/__init__.py:147-159 | ends in the cleared session described by `Session.ClearResets` |
| Session.SessionState.SetDefaultRegion | pyrax/__init__.py:162-164 | only the default region changes |
| Session.SessionState.FinishCredentials | pyrax/__init__.py:106-112 | the shared tail of the credential calls: clear and re-raise on AuthenticationFailed; re-raise other errors, keeping the identity as the identity object left it; connect when now authenticated |
| Session.SessionState.SetCredentials | pyrax/__init__.py:104-112 | hands the credentials to the identity object, then runs the tail above on its answer |
| Session.SessionState.SetCredentialFile | pyrax/__init__.py:115-131 | hands the file path to the identity object, then runs the same tail |
| Session.SessionState.Authenticate | pyrax/__init__.py:134-144 | only the identity changes, to what the identity object left; its exception passes through with nothing cleared |
| Scenarios.ExactRegionWins | pyrax/__init__.py:192-193 | with both an "ORD" and an "ALL" entry, region "ORD" gets "https://ord.x.com" |
| Scenarios.TemplateGetsRegion | pyrax/__init__.py:194-196 | with only "ALL" = "https://x.com", region "LON" gets "https://lon.x.com" |
| Scenarios.LookupIsCaseSensitive | pyrax/__init__.py:189-196 | an "ord" entry does not serve the default region "ORD", which falls back to the template |
| Scenarios.EveryDoubleSlashRewritten | pyrax/__init__.py:196 | "https://x.com//v1" becomes "https://ord.x.com//ord.v1" for region "ORD" |
| Scenarios.PathRewritten | pyrax/__init__.py:196 | the `//` inside a path is rewritten like the one after the scheme |
| Scenarios.NoTemplateFails | pyrax/__init__.py:195-196 | with neither the region nor "ALL" listed, the lookup fails naming the service |
| Scenarios.EmptyEntryFallsThrough | pyrax/__init__.py:193-196 | an empty exact entry falls through to the template |
| Scenarios.EmptyTemplate | pyrax/__init__.py:194-196 | an "ALL" entry that is the empty string gives the empty URL |
| Scenarios.DefaultPlan | pyrax/__init__.py:62-70 | the compiled-in table starts servers, files, keystone, load balancers and DNS, in that order, and not databases |
| Scenarios.ConfigEnablesDatabases | pyrax/__init__.py:89-91 | `databases = True` switches databases on; `dns = true` switches DNS off |
| Scenarios.SlugOfTitle | pyrax/utils.py:265-279 | "A, b!" becomes "a-b" |

## Left out

- The startup banner (`pyrax/__init__.py:30-38`) is output only.
- Reading `~/.pyrax.cfg` with ConfigParser (`pyrax/__init__.py:73-86`) is file I/O. The model takes the parsed `[settings]` region and `[services]` section as inputs. ConfigParser lower-cases option names; the section is taken as already parsed.
- `set_identity_class` (`pyrax/__init__.py:43-45`) is not modelled: the identity class is fixed, so import and `clear_credentials` always build `NewIdentity`. The `rax_identity` handshake is foreign code doing network I/O; the identity object's answer is a parameter.
- The client libraries (`novaclient`, `cf_wrapper`, `keystoneclient`, `cloudlb`, `clouddns`, `cloud_databases`) are foreign code. A handle records the service, username, API key, region, the endpoints it was given and its user agent.
  - The token, tenant and auth URL arguments are not recorded.
  - The attributes attached to the load-balancer handle after construction (`pyrax/__init__.py:247-251`) are not modelled.
- Session.ConnectorFailureChangesNothing: assumes the client constructors and the load-balancer manager calls (`get_protocols`, `get_algorithms`) do not raise. In the source, `connect_to_keystone` and `connect_to_cloud_loadbalancers` re-tag the shared user agent, and the latter stores its handle, before those foreign calls run (`pyrax/__init__.py:235-236`, `pyrax/__init__.py:244-250`). A failure there would leave the session partly changed; the model gives the foreign calls no failure path.
- Utils.AsciiOnly: its own contract states only that what remains is ASCII; that every ASCII character is kept is `Utils.AsciiOnlyMembers`, kept as a separate lemma because a membership quantifier in the function's contract makes every slugify proof too costly.
- Utils.StripDisallowed: its own contract states only that what remains is allowed; that every word character, whitespace and hyphen is kept is `Utils.StripDisallowedMembers`, separate for the same reason.
- Utils.Slugify: its own contract states only the shape of a slug. The other promises are separate lemmas: which characters survive (`Utils.SlugifyKeepsWordChars`), in which order (`Utils.SlugifyOrder`) and that whitespace between two words becomes one hyphen (`Utils.SlugifyJoinsWords`). Where hyphens fall in general, for instance where removed punctuation stood, is stated stage by stage (`Utils.HyphenateRun`, `Utils.HyphenateWord` and the `Append` lemmas), not as one formula over the input.
- Session.InitialState: `cloud_lb` is not defined at all until the first `clear_credentials`; the model starts it at None.
- `version.py` is not part of this model: the version string is a field of `Platform`.
- `_dev_only_auth`, `test_deletedb`, `test_createdb` and the `__main__` block (`pyrax/__init__.py:278-325`) are developer scripts doing network calls.
- Utils.Env: the `default=None` keyword, which Python would return as `None`, is not distinguished from an absent default; `default` is an optional string.
- Utils.WaitUntil: does not model `attempts == 0`, which loops without bound until the attribute matches, or a negative `attempts`, for which the source runs no round and returns False; the method takes `attempts` as a natural number and requires `attempts > 0`. The sleep between rounds, the elapsed-time measure and the verbose output are timing and I/O.
- Utils.Slugify: starts after the NFKD normalisation (`pyrax/utils.py:277`), which needs the Unicode tables; the input is the normalised text.
- The other helpers of `pyrax/utils.py` work on the filesystem, hashing, randomness or Python reflection:
  - `SelfDeletingTempfile`, `SelfDeletingTempDirectory`;
  - `get_checksum`, `random_name`, `folder_size`;
  - `add_method`, `unauthenticated`, `isunauthenticated`, `safe_issubclass`, `import_class`, `trace`.
- `pyrax/clouddns.py` wraps a base client and manager, and `tests/unit/test_cloud_dns.py` tests it through mocks; neither is part of this model.
