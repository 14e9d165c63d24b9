# hpOneView resource client and common helpers, in Dafny

This project models the request-building and validation core of the
python-hpOneView SDK, and proves properties of it:

- `ResourceClient` (hpOneView/resources/resource.py). This is the generic
  CRUD client every OneView resource type is built on. Given a collection
  base URI, each operation validates its argument and computes its target
  URI. It then issues its requests to the REST connection and the activity
  tracker (`activity`), and decides whether to wait on the returned task.
- The branching helpers of hpOneView/common.py:
  - member extraction from list envelopes;
  - the 8-bay interconnect map template, its in-place bay occupancy update
    and the bay lookup;
  - the payload builders whose shape depends on their arguments;
  - the `pages` iterator.

## Layout

| file | module | contents |
|---|---|---|
| values.dfy | `Values` | Python values (`Null`, `Bool`, `Int`, `Str`, `List`, `Dict`), Python truthiness, the exceptions raised |
| text.dfy | `Text` | Python's substring test `in`, split and join on a separator, `str(int)` and its inverse |
| percent.dfy | `PercentEncoding` | `urllib.parse.quote` with `safe='/'` (section 2.1 and the unreserved set of section 2.3 of RFC 3986, UTF-8, upper-case hex) and an ASCII decoder |
| resource_uris.dfy | `ResourceUris` | the error messages and the pure URI computations: `get_all`'s query string, `get_by`'s filter, `get`/`get_by_uri` target choice, `delete`/`update` target resolution |
| resource.dfy | `Resource` | class `ResourceClient` and the run functions that specify its methods |
| common.dfy | `Common` | the common.py helpers |
| paging.dfy | `Paging` | class `pages`, over an abstract page source |

The connection and the activity tracker are not part of this model. They are one
environment `Env`: a function from the calls issued so far and the next call
to that call's reply, which is a value or an exception. A `ResourceClient`
holds its base URI and the environment as constants. It keeps the history of
issued calls in `log`. Each method issues its calls through `Issue` and is
proved to return, and to append to `log`, exactly what a pure `...Run`
function computes. The lemmas state the client's behaviour on those run
functions.

Python's `None` is `Null`. Where an argument is either `None` or a string it
is an `Option<string>`. A Python runtime error that the code does not raise on
purpose (KeyError, TypeError, AttributeError) is `RuntimeFailure(kind)`. It is
kept apart from the designed errors `ValueError` and `UnknownType`
(HPOneViewUnknownType).

Two behaviours of the code are easy to misread, and the model keeps them as
the code has them:

- **URI membership.** `get_by_uri` does not test whether a URI starts with
  the collection's base URI. It tests whether the base occurs anywhere in the
  URI (resource.py:178). `ResourceUris.GetAcceptsUriNotPrefixedByBase` shows
  that `/rest/other/rest/fake` is accepted for base `/rest/fake`.
- **Missing `members`.** `get_members` does not give an empty list for every
  envelope without members. It raises KeyError on a truthy envelope that
  lacks the `members` key (common.py:195), and gives `[]` only for a falsy
  envelope or falsy members. `Common.GetMembersSpec` states this.

## Model

| member | source | states |
|---|---|---|
| Text.ContainsAt | hpOneView/resources/resource.py:178 | Python's `in` on strings holds exactly when the needle occurs at some offset of the haystack |
| Text.IntToDecimalRoundTrip | hpOneView/resources/resource.py:88 | reading back the decimal rendering of any integer `start` or `count`, negative ones included, gives that integer |
| PercentEncoding.HexDigit | hpOneView/resources/resource.py:76-86 | the digit written for 0..15 is upper-case (`0`-`9`, `A`-`F`) and reads back as that number |
| PercentEncoding.Quote | hpOneView/resources/resource.py:76-86 | `quote` output holds only unreserved characters, `/` and `%`, so it never contains the `&`, `=` or `?` that delimit the query; every `%` it writes is followed by two upper-case hexadecimal digits; it is never shorter than its input |
| PercentEncoding.QuoteUnsafeAscii | hpOneView/resources/resource.py:76-86 | an ASCII character outside the safe set becomes exactly `%` and the two upper-case hex digits of its code |
| PercentEncoding.QuoteEscapeExamples | hpOneView/test/unit/resources/test_resource.py:61 | `'`, `=` and `{` are written `%27`, `%3D` and `%7B`, in upper case, as the expected list URI has them |
| PercentEncoding.QuoteRoundTrip | hpOneView/resources/resource.py:76-86 | percent-decoding the quoted form of ASCII text gives the text back |
| PercentEncoding.QuoteIdentity | hpOneView/resources/resource.py:76-86 | quoting leaves a value unchanged exactly when all of its characters are safe |
| ResourceUris.GetAllDefaults | hpOneView/resources/resource.py:65-89 | with its defaults `get_all` asks for exactly `base?start=0&count=-1` |
| ResourceUris.GetAllUriRoundTrip | hpOneView/resources/resource.py:76-88 | the list URI starts with the base, and the query after it parses back to exactly the start, count, filter, query, sort and view given, with an empty optional parameter contributing nothing: the reader refuses a `name=` field with no value, so an empty parameter can only read back as absent |
| ResourceUris.EmptyFieldRefused | hpOneView/resources/resource.py:76-86 | a query whose next field names a parameter but gives it no value does not read back, since `get_all` writes a parameter only when it is non-empty |
| ResourceUris.GetByUriSpec | hpOneView/resources/resource.py:171-175 | `get_by` refuses exactly a missing or empty field with "Invalid field was provided", and otherwise lists from 0 with count -1 and the filter `"'field'='value'"` as the only optional parameter |
| ResourceUris.GetTargetSpec | hpOneView/resources/resource.py:123-129 | `get` refuses exactly an empty id with "Invalid id was provided"; an id without `/` names `base/id`; one with `/` is fetched unchanged exactly when the base occurs in it, and otherwise fails with "Unrecognized URI for this resource" |
| ResourceUris.GetTargetInCollection | hpOneView/resources/resource.py:126-129 | every URI `get` fetches contains the base |
| ResourceUris.GetAcceptsUriNotPrefixedByBase | hpOneView/resources/resource.py:178 | a URI that mentions the base without starting with it is accepted |
| ResourceUris.DeleteTargetSpec | hpOneView/resources/resource.py:93-102 | `delete` refuses exactly a falsy resource with "Resource was not provided"; a truthy mapping without a truthy `uri` fails with "Unknown object type"; a mapping's string `uri` is the target; a string id targets `base/id` |
| ResourceUris.DeleteForceAppendsFlag | hpOneView/resources/resource.py:104-105 | `force` appends exactly `?force=True` to the resolved target and changes nothing else, errors included |
| ResourceUris.UpdateTargetSpec | hpOneView/resources/resource.py:136-139 | `update` refuses exactly a falsy resource and otherwise targets the resource's own string `uri` verbatim; a truthy mapping without `uri` is a runtime KeyError, and any other truthy resource without a string `uri` a runtime failure |
| Resource.ResourceClient.constructor | hpOneView/resources/resource.py:56-59 | the client holds the given base and collaborators, and has issued nothing |
| Resource.ResourceClient.GetMembers | hpOneView/resources/resource.py:61-63 | one GET of the URI, whose page goes through `get_members` |
| Resource.ResourceClient.GetAll | hpOneView/resources/resource.py:65-89 | returns and logs what `GetAllRun` gives: the members of one GET of the list URI |
| Resource.ResourceClient.Delete | hpOneView/resources/resource.py:91-111 | returns and logs what `DeleteRun` gives |
| Resource.ResourceClient.GetSchema | hpOneView/resources/resource.py:113-114 | returns and logs what `GetSchemaRun` gives: one GET of `base/schema` |
| Resource.ResourceClient.Get | hpOneView/resources/resource.py:116-129 | returns and logs what `GetRun` gives |
| Resource.ResourceClient.BasicUpdate | hpOneView/resources/resource.py:131-133 | returns and logs what `BasicUpdateRun` gives |
| Resource.ResourceClient.Update | hpOneView/resources/resource.py:135-142 | returns and logs what `UpdateRun` gives |
| Resource.ResourceClient.Create | hpOneView/resources/resource.py:144-151 | returns and logs what `CreateRun` gives |
| Resource.ResourceClient.WaitForTask | hpOneView/resources/resource.py:153-158 | returns and logs what `WaitForTaskRun` gives |
| Resource.ResourceClient.GetBy | hpOneView/resources/resource.py:160-175 | returns and logs what `GetByRun` gives |
| Resource.ResourceClient.GetByUri | hpOneView/resources/resource.py:177-181 | returns and logs what `GetByUriRun` gives |
| Resource.ReadsIssueAtMostOneGet | hpOneView/resources/resource.py:61-129 | the reads issue nothing but GETs: `get_all` and `get_members` exactly one GET of their URI, `get_schema` one GET of `base/schema`, `get` and `get_by` at most one, and `get` issues nothing exactly when it refuses its argument |
| Resource.GetDispatch | hpOneView/resources/resource.py:123-129 | `get` refuses `None` and `""`, fetches `base/id` for a plain id, and is `get_by_uri` for anything containing `/` |
| Resource.GetByIsFilteredGetAll | hpOneView/resources/resource.py:171-175 | `get_by` with a non-empty field is `get_all(filter="'field'='value'")` and with an empty one raises without calling anything |
| Resource.GetAllReturnsMembers | hpOneView/resources/resource.py:88-89 | `get_all` returns the members of the page fetched, or the connection's exception |
| Resource.WaitForTaskSpec | hpOneView/resources/resource.py:153-158 | waiting issues exactly one `wait4task(task, tout, verbose=False)` first and at most three calls; a waited task that is not a `Task...` gives `None` after that one call; a `Task...` gives the GET of its associated resource's `resourceUri` |
| Resource.IsTaskTypeSpec | hpOneView/resources/resource.py:155 | the waited task counts as a `Task...` exactly when it is a mapping whose string `type` starts with `Task`; without `type` it does not |
| Resource.CreateSpec | hpOneView/resources/resource.py:144-151 | `create` refuses a falsy resource without calling anything; otherwise it first POSTs the resource to the base; without blocking it returns its task and never waits; with blocking it waits exactly once, with time-out 60 and no verbosity |
| Resource.UpdateSpec | hpOneView/resources/resource.py:135-142 | `update` calls nothing when its target is refused; otherwise it first PUTs the resource to its `uri`; without blocking it returns its task and never waits; with blocking it waits exactly once, with time-out 60 |
| Resource.DeleteSpec | hpOneView/resources/resource.py:107-111 | `delete` calls nothing when its target is refused; otherwise it sends one DELETE of the target; without blocking it returns that call's task; with blocking it waits once with the caller's time-out and verbosity and returns the waited task |
| Resource.BasicUpdateSpec | hpOneView/resources/resource.py:131-133 | `basic_update` sends one PUT of the given body to the given URI, never waits, and returns the reply's body, not its task |
| Common.GetMembersSpec | hpOneView/common.py:192-197 | `[]` for a falsy envelope or falsy `members`, otherwise the members unchanged; a truthy envelope succeeds only if it is a mapping with `members` |
| Common.GetMemberIsFirstOfMembers | hpOneView/common.py:200-205 | `get_member` fails where `get_members` fails, gives `None` where it gives `[]`, and otherwise gives the first member |
| Common.InterconnectMapTemplate | hpOneView/common.py:269-278 | the template has exactly 8 entries |
| Common.TemplateBays | hpOneView/common.py:269-278 | entry i holds `[Bay i+1, Enclosure 1]` with no permitted type and no downlink, and looking up bay b in the template finds entry b exactly when b is in 1..8 |
| Common.SetIobayOccupancy | hpOneView/common.py:351-356 | in place, every entry becomes its occupied form: the type is set on exactly the entries with a listed bay; count and order stay |
| Common.OccupyFrame | hpOneView/common.py:351-356 | occupancy changes only `permittedInterconnectTypeUri`, only on entries with a `Bay` in `bays`, and is idempotent |
| Common.TemplateOccupancy | hpOneView/common.py:351-356 | occupying the template sets the type on entry i exactly when bay i+1 is listed |
| Common.GetIobayEntry | hpOneView/common.py:359-367 | nothing for a falsy map; otherwise an entry with a `Bay` equal to `bay` and none before it has one; nothing when no entry has one |
| Common.FirstBayEntrySpec | hpOneView/common.py:359-367 | the first-match search finds nothing exactly when no entry has the bay, and otherwise the first entry that does |
| Common.MakeUplinkSetDict | hpOneView/common.py:370-389 | succeeds exactly for Ethernet or FibreChannel and otherwise raises "networkType must be Ethernet or FibreChannel."; `networkUris` is the given list; Ethernet is Tagged and adds `primaryPort` and `nativeNetworkUri`, FibreChannel is NotApplicable; exact key sets |
| Common.MakeEgroupDict | hpOneView/common.py:403-410 | exactly the keys name, type `EnclosureGroupV2`, the stacking mode and 8 bay mappings |
| Common.EgroupBaysMatchTemplate | hpOneView/common.py:403-410 | bay mapping i numbers bay i+1, the same bay as template entry i, and points to the given logical interconnect group |
| Common.MakeProfileConnectionBootDict | hpOneView/common.py:447-462 | only `priority` when both `arrayWwpn` and `lun` are `None`, otherwise also `targets`, a one-element list of `{arrayWwpn, lun}` |
| Common.MakeProfileConnectionBootTargetDict | hpOneView/common.py:460-462 | a list of exactly one target, a mapping with exactly the keys `arrayWwpn` and `lun` holding the given values |
| Common.MakeApplianceNetworkConfigDict | hpOneView/common.py:508-541 | succeeds exactly for DHCP or STATIC and otherwise raises "ipv4Type must be STATIC or DHCP."; one network on one node; DHCP has no address fields; STATIC adds address, subnet, gateway and an empty search-domain list |
| Common.MakeUserModifyDict | hpOneView/common.py:595-623 | grows the dictionary as `UserModifyFields` describes |
| Common.UserModifyPasswords | hpOneView/common.py:605-608 | the user name is always present; password and current password are present together, only when both are given; no other keys occur |
| Common.UserModifyRoles | hpOneView/common.py:609-614 | `replaceRoles`, `roles` and `emailAddress` are present exactly when given, with the given value |
| Common.UserModifyContact | hpOneView/common.py:615-622 | `officePhone`, `mobilePhone`, `enabled` and `fullName` are present exactly when given, with the given value |
| Common.MakeUpdateAlertDict | hpOneView/common.py:626-636 | exactly the keys whose arguments are given, with those values |
| Paging.Pages.constructor | hpOneView/common.py:665-667 | the iterator holds the connection and the initial page |
| Paging.Pages.Next | hpOneView/common.py:672-677 | with a next page, it fetches it, makes it `currentPage` and returns it; otherwise it stops and changes nothing |
| Paging.Collect | hpOneView/common.py:669-677 | iterating to exhaustion yields exactly the pages the connection still held, in order, leaves the connection with none, and leaves the last one yielded current (the initial page when none remained) |

## Left out

- The REST connection, `activity.wait4task` and `activity.get_task_associated_resource` are not part of this model. They are the environment `Env`, and polling, time-outs and transport are whatever it answers.
- `print_entity` and `print_task_tuple` are not modelled; they only write to standard output.
- The static `uri` table in common.py is not modelled; it is a constant with no behaviour.
- The fixed-shape builders without branching are not modelled: `make_user_dict`, `make_bw_dict`, `make_netset_dict`, `make_enet_dict`, `make_fc_dict`, `make_enet_settings`, the storage builders, `make_port_config_info`, `make_add_*`, and the audit, event and alert-map builders.
- `pages.__iter__` is not modelled separately, because it returns the iterator itself; `Paging.Collect` drives `Next` directly.
- Paging.PageSource stands for the connection's paging state. It has a next page exactly when pages remain; how the connection follows next-page links is not modelled.
- PercentEncoding.QuoteRoundTrip: proved for ASCII text only. `Quote` itself encodes any character as UTF-8, but the decoder reads back only `%XX` below 128.
- ResourceUris.GetAllUriRoundTrip: holds for ASCII parameter values only, for the same reason.
- PercentEncoding.IsUnreserved: keeps `~` unreserved, as `quote` does from Python 3.7. Earlier versions encode `~` as `%7E`.
- Resource.ResourceClient.Get: the argument is `None` or a string. Other Python types for `id_or_uri` are not modelled. `get_by`'s value is a string and its `field` is `None` or a string.
- ResourceUris.GetAllUri: its arguments are integers and strings. Python's `get_all` also takes `None`: `filter=None` (and likewise query, sort, view) is falsy and is left out just as `''` is, while `start=None` or `count=None` would be formatted into the URI as `None`. Neither case is modelled.
- ResourceUris.DeleteTarget: a truthy `uri` that is not a string, and a resource that is neither a mapping nor a string, become a TypeError runtime failure. What the connection would do with such a value is not modelled. The same holds for a non-string `uri` in `ResourceUris.UpdateTarget` and a non-string `resourceUri` in `Resource.ResourceUriOf`.
- Python exception messages of runtime failures are not modelled; only their class name is.
- Python dictionaries preserve insertion order; `map` does not, so the key order of built payloads is not modelled.
- Common.SetIobayOccupancy: works on a typed array of map entries. The `interconnectMapEntryTemplates` wrapper and the `logicalLocation` nesting are flattened away. Entries missing these keys (a KeyError in Python) are not modelled. Entry dictionaries that Python might share with other holders are copied values here.
- Common.GetIobayEntry: a `null` array stands for a falsy map (`None` or `{}`). The returned entry is a copy, not the shared dictionary.
- Common.InterconnectMapTemplate: returns the list of entries without the `interconnectMapEntryTemplates` wrapper dictionary.
- Common.MakeUplinkSetDict: `networks[:]` copies the list; a sequence value has no identity, so the copy adds nothing observable.
- Common.MakeUserModifyDict and Common.MakeUpdateAlertDict are generic in the type of value they store, since they never inspect it. An optional argument is `None` or `Some(value)`.
- Python default arguments (`smode='Enclosure'`, `priority='Primary'`, `ntype='Ethernet'`, `ipv4Type='DHCP'`, `blocking=True`, `force=False`, `timeout=60`) are explicit parameters.
