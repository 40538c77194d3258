# Manila scheduler filters, share-type extra specs and Neutron plugin bookkeeping, in Dafny

This project models three pieces of decision logic from OpenStack Manila and proves properties of them.

- **Scheduler host filters** (module `HostFilters`, `host_filters.dfy`). `CapacityFilter` and `RetryFilter` are total predicates over a host record and the request's filter properties. Capacity is `Numeric(gb) | Infinite | Unknown`. The reserved percentage defaults to 0 and is taken out of the *free* capacity: the usable capacity is ⌊free·(100 − reserved)/100⌋, computed on integers. The lookup that the tests build from `HostFilterHandler.get_all_classes` is a map from class name to filter, where a later class of the same name wins. The test cases are restated as lemmas that look each filter up by name, as the tests do.
- **Share-type extra specs** (module `ExtraSpecs`, `extra_specs.dfy`). Values are `Str | Bool | Dict(map) | Other`. `_verify_extra_specs` is a pair of mutually recursive predicates, and lemmas characterise what it accepts. The controller is a class over the extra-specs table (share type id → specs) with `index`, `create`, `update`, `show` and `delete`. Each method states which error comes from which check, in the source's order, and what the table holds afterwards. `_get_extra_specs` copies the stored specs in a loop, proved to give back exactly the stored specs.
- **Neutron plugin bookkeeping** (module `NeutronPlugin`, `neutron_plugin.dfy`). Neutron's answers are inputs (`NeutronApi`, a record of function values). The share-network and network-allocation tables are maps held by the class `NeutronNetworkPlugin`. `allocate_network`'s port loop is proved against a specification function, `CreatePorts`, and lemmas about that function give the count and shape of the records. `_delete_port` and `deallocate_network` state their success and failure bookkeeping. `NeutronSingleNetworkPlugin` wraps a base plugin by composition. It adds the configuration check and the share-network update that comes before allocation.

`wrappers.dfy` holds the `Option`, `Result` and `Outcome` datatypes that the three modules share.

The model follows Manila's code and its tests. The failing-capacity test (free 120, reserved 20 %, no total, size 100) fixes the reservation as a share of *free* capacity: ⌊120·80/100⌋ = 96 < 100. `HostFilters.TotalCapacityIgnored` proves that total capacity never changes the verdict.

## Model

| member | source | states |
|---|---|---|
| `HostFilters.UsableCapacity` | manila/tests/scheduler/test_host_filters.py:71-81 | the usable capacity is the free capacity minus the reserved percentage of it, rounded down (the largest u with 100·u ≤ free·(100−reserved)) |
| `HostFilters.CapacityPasses` | manila/tests/scheduler/test_host_filters.py:49-103 | `CapacityFilter.host_passes`: for a live, enabled host, it passes iff its free capacity is `infinite` or `unknown`, or free·(100−reserved) ≥ 100·size — in both directions, stated without the rounding of `UsableCapacity` |
| `HostFilters.ReservedPercentage` | manila/tests/scheduler/test_host_filters.py:49-58 | a host that reports no reserved percentage reserves 0 % (its consequence is `UnreservedHostFitsIffFree`) |
| `HostFilters.UnreservedHostFitsIffFree` | manila/tests/scheduler/test_host_filters.py:49-58 | with no reserved percentage reported, the host passes iff its free capacity covers the size |
| `HostFilters.SentinelsAlwaysFit` | manila/tests/scheduler/test_host_filters.py:83-103 | a live host whose free capacity is `infinite` or `unknown` passes for every size |
| `HostFilters.EmptyRequestFits` | manila/tests/scheduler/test_host_filters.py:49-58 | a request of size 0 or less passes on every live host whose reservation is between 0 and 100 % |
| `HostFilters.FitsSmallerRequest` | manila/tests/scheduler/test_host_filters.py:49-58 | a host that passes a request also passes every smaller one |
| `HostFilters.MoreFreeStillFits` | manila/tests/scheduler/test_host_filters.py:71-81 | with a reservation between 0 and 100 %, more free capacity never turns a passing host away |
| `HostFilters.SmallerReservationStillFits` | manila/tests/scheduler/test_host_filters.py:71-81 | a smaller reserved percentage never turns a passing host away |
| `HostFilters.TotalCapacityIgnored` | manila/tests/scheduler/test_host_filters.py:71-81 | the verdict does not depend on total capacity: the reservation is not taken out of total |
| `HostFilters.RetryPasses` | manila/tests/scheduler/test_host_filters.py:105-126 | `RetryFilter.host_passes`: a host passes iff there is no retry record or no recorded attempt was on that host |
| `HostFilters.RetryHistoryOnlyNarrows` | manila/tests/scheduler/test_host_filters.py:112-126 | adding hosts to `retry.hosts` never re-admits a host, and every added host is rejected |
| `HostFilters.RetryDependsOnNameOnly` | manila/tests/scheduler/test_host_filters.py:105-126 | the retry verdict depends only on the host's name |
| `HostFilters.ClassMap` | manila/tests/scheduler/test_host_filters.py:38-42 | every entry of the class map is stored under its class's own name, and every key is the name of a listed class |
| `HostFilters.ClassMapResolves` | manila/tests/scheduler/test_host_filters.py:40-42 | every listed class can be looked up by its name and gives back that class |
| `HostFilters.StandardFiltersResolve` | manila/tests/scheduler/test_host_filters.py:38-42 | `CapacityFilter` and `RetryFilter` resolve to the two filters |
| `HostFilters.CapacityFilterPasses` | manila/tests/scheduler/test_host_filters.py:49-58 | free 200, no reservation, size 100: passes |
| `HostFilters.CapacityFilterCurrentHostPasses` | manila/tests/scheduler/test_host_filters.py:60-69 | the same host with a non-matching `share_exists_on` passes, on capacity alone |
| `HostFilters.CapacityFilterFails` | manila/tests/scheduler/test_host_filters.py:71-81 | free 120, reserved 20 %, size 100: usable 96, rejected |
| `HostFilters.CapacityFilterPassesInfinite` | manila/tests/scheduler/test_host_filters.py:83-92 | free `infinite`, size 100: passes |
| `HostFilters.CapacityFilterPassesUnknown` | manila/tests/scheduler/test_host_filters.py:94-103 | free `unknown`, size 100: passes |
| `HostFilters.RetryFilterDisabled` | manila/tests/scheduler/test_host_filters.py:105-110 | no retry record: passes |
| `HostFilters.RetryFilterPass` | manila/tests/scheduler/test_host_filters.py:112-118 | host1 with retry hosts [host2]: passes |
| `HostFilters.RetryFilterFail` | manila/tests/scheduler/test_host_filters.py:120-126 | host1 with retry hosts [host1]: rejected |
| `ExtraSpecs.IsValidString` | manila/api/contrib/types_extra_specs.py:56-57 | a string is valid iff its length is 1 to 255 |
| `ExtraSpecs.IsValidExtraSpec` | manila/api/contrib/types_extra_specs.py:59-66 | a leaf entry is valid iff its key is a valid string, its value a valid string or a bool, and the required-spec check answers None or True |
| `ExtraSpecs.SpecsAccepted` | manila/api/contrib/types_extra_specs.py:49-75 | the specs are accepted iff the optional required-spec validation passes and every entry is accepted; its meaning is stated by `AcceptedSpecsAreWellFormed`, `WellFormedSpecsAccepted`, `NestedDictsPassRequiredCheck` and `OtherRejected` |
| `ExtraSpecs.EntryAccepted` | manila/api/contrib/types_extra_specs.py:68-75 | a dict under a valid key is verified recursively with `verify_all_required` left at its default; any other entry must be a valid leaf |
| `ExtraSpecs.VerifyExtraSpecs` | manila/api/contrib/types_extra_specs.py:49-75 | the validator passes or raises BadRequest; no other error comes from any depth |
| `ExtraSpecs.AcceptedSpecsAreWellFormed` | manila/api/contrib/types_extra_specs.py:56-75 | whatever share_types answers, an accepted tree has keys of length 1 to 255 at every depth, and every leaf is a string of length 1 to 255 or a bool |
| `ExtraSpecs.WellFormedSpecsAccepted` | manila/api/contrib/types_extra_specs.py:59-70 | the converse: when the required-spec checks raise no objection, every such tree is accepted |
| `ExtraSpecs.NestedDictsPassRequiredCheck` | manila/api/contrib/types_extra_specs.py:49-70 | every nested dict of an accepted tree went through the required-spec validation, because the recursive call uses the default `verify_all_required=True` |
| `ExtraSpecs.InvalidKeyRejected` | manila/api/contrib/types_extra_specs.py:68-75 | an entry under an invalid key, including a dict, makes the request a BadRequest |
| `ExtraSpecs.OtherRejected` | manila/api/contrib/types_extra_specs.py:59-75 | a value that is not a string, bool or dict is a BadRequest at any depth |
| `ExtraSpecs.CheckKeyNames` | manila/api/contrib/types_extra_specs.py:152-157 | `_check_key_names` passes iff `validate_key_names` accepts the keys, and otherwise raises BadRequest |
| `ExtraSpecs.IsValidBody` | manila/api/contrib/types_extra_specs.py:88-89 | the body is valid iff it has an `extra_specs` entry whose value is a dict (a stand-in for the WSGI check) |
| `ExtraSpecs.ExtraSpecsController.GetExtraSpecs` | manila/api/contrib/types_extra_specs.py:36-41 | the result is a dict with the single key `extra_specs`, whose value equals the stored specs |
| `ExtraSpecs.ExtraSpecsController.Index` | manila/api/contrib/types_extra_specs.py:77-82 | NotFound iff the type is unknown; otherwise the stored specs under `extra_specs` |
| `ExtraSpecs.ExtraSpecsController.Show` | manila/api/contrib/types_extra_specs.py:121-130 | exactly `{id: value}` iff the type exists and `id` is stored; otherwise NotFound |
| `ExtraSpecs.ExtraSpecsController.Create` | manila/api/contrib/types_extra_specs.py:84-99 | BadRequest for a body without an `extra_specs` dict; then NotFound for an unknown type; then success iff verification (without the top-level required check) and key-name validation pass; on success the specs override the stored ones and the body is returned; on error nothing changes |
| `ExtraSpecs.ExtraSpecsController.Update` | manila/api/contrib/types_extra_specs.py:101-119 | BadRequest for an empty body, even for an unknown type; then NotFound for an unknown type; then BadRequest when `id` is absent, when there is more than one item, or when verification fails; on success the stored specs are the old ones with `id` set to the body's value; on error nothing changes |
| `ExtraSpecs.ExtraSpecsController.Delete` | manila/api/contrib/types_extra_specs.py:132-150 | NotFound for an unknown type, Forbidden for a required key, NotFound for an absent key, otherwise exactly that key is removed; on error nothing changes |
| `ExtraSpecs.UpdateThenShow` | manila/api/contrib/types_extra_specs.py:101-130 | a `show` after an accepted single-item `update` returns exactly `{id: value}` |
| `NeutronPlugin.IsSet` | manila/network/neutron/neutron_network_plugin.py:177 | a configuration option counts as set iff it is present and not the empty string (Python truthiness of a string) |
| `NeutronPlugin.VerifyNetAndSubnet` | manila/network/neutron/neutron_network_plugin.py:175-186 | unless both `net` and `subnet` are set, the check fails with the "both expected" error |
| `NeutronPlugin.VerifyNetAndSubnetPassIff` | manila/network/neutron/neutron_network_plugin.py:177-182 | the check passes iff both are set and the network's subnet list is present and contains the subnet; with both set, every failure is "subnet does not belong to network" |
| `NeutronPlugin.AllocationCount` | manila/network/neutron/neutron_network_plugin.py:76-80 | `count` ports are created, 1 when `count` is absent, none when it is negative (`range` of a negative bound is empty) |
| `NeutronPlugin.DeviceOwner` | manila/network/neutron/neutron_network_plugin.py:77-107 | the device owner sent to Neutron is `manila:` followed by `device_owner`, `share` when it is absent |
| `NeutronPlugin.AllocationFor` | manila/network/neutron/neutron_network_plugin.py:108-115 | the record carries the port's id and MAC, the first fixed IP's address, the share server's id and status ACTIVE; a port without fixed IPs raises |
| `NeutronPlugin.CreatePorts` | manila/network/neutron/neutron_network_plugin.py:79-82 | the ports loop after n iterations: at most n records, exactly n when no call has failed; it stops at the first failing call |
| `NeutronPlugin.CreatePortsRecords` | manila/network/neutron/neutron_network_plugin.py:79-82 | after n loop iterations, the records are those of the first calls in order; with no failure there are exactly n; after a failure, the call right after the last record is the one that failed |
| `NeutronPlugin.CreatePortsFailureSticks` | manila/network/neutron/neutron_network_plugin.py:79-82 | the loop stops at the first failure: later iterations change nothing |
| `NeutronPlugin.AllocatedPortsShape` | manila/network/neutron/neutron_network_plugin.py:76-84 | a successful allocation gives exactly `count` records (1 by default, none for a negative count); every port is requested with device owner `manila:` + owner (`share` by default) on the share network's net and subnet; every record is ACTIVE and has the port's first fixed IP |
| `NeutronPlugin.RecordedKeys` | manila/network/neutron/neutron_network_plugin.py:108-115 | writing the records adds exactly their ids to the allocation table |
| `NeutronPlugin.RecordedKeepsOthers` | manila/network/neutron/neutron_network_plugin.py:108-115 | rows whose id no record carries are unchanged |
| `NeutronPlugin.RecordedLastWins` | manila/network/neutron/neutron_network_plugin.py:108-115 | a record that no later record replaces is in the table as written |
| `NeutronPlugin.SavedNetworkData` | manila/network/neutron/neutron_network_plugin.py:131-155 | `_save_neutron_network_data` then `_save_neutron_subnet_data`: the share network's row gets Neutron's network type, segmentation id, cidr and IP version; its ids and every other row are unchanged; no row is added |
| `NeutronPlugin.NeutronNetworkPlugin.AllocateNetwork` | manila/network/neutron/neutron_network_plugin.py:55-84 | without the provider network extension it raises and saves nothing; otherwise the share network row gets the network and subnet data, the allocation table gets the records of `CreatePorts`, and the result is those records or the first failure |
| `NeutronPlugin.NeutronNetworkPlugin.DeletePort` | manila/network/neutron/neutron_network_plugin.py:117-125 | if Neutron deletes the port, the record is deleted; if Neutron fails, the record stays with status ERROR and the failure is re-raised |
| `NeutronPlugin.NeutronNetworkPlugin.DeallocateNetwork` | manila/network/neutron/neutron_network_plugin.py:86-100 | other servers' records are untouched, and a record disappears only when Neutron deleted its port; on success none of the server's records is left; on failure one of them is kept with status ERROR, and only such records have changed |
| `NeutronPlugin.NetDataUpdate` | manila/network/neutron/neutron_network_plugin.py:188-193 | `upd` holds `neutron_net_id` iff the share network's net id differs from the configured net (and likewise for the subnet), holds no other key, and carries the configured values |
| `NeutronPlugin.NoUpdateIffConfigured` | manila/network/neutron/neutron_network_plugin.py:189-197 | nothing is updated iff the share network already carries the configured net and subnet |
| `NeutronPlugin.NetDataResultUsesConfiguredNet` | manila/network/neutron/neutron_network_plugin.py:188-197 | when the share network passed in is the stored row, the share network passed on carries the configured net and subnet in either branch |
| `NeutronPlugin.NeutronSingleNetworkPlugin.Create` | manila/network/neutron/neutron_network_plugin.py:160-167 | construction fails iff `_verify_net_and_subnet` fails, with its error; otherwise the plugin holds the configured net and subnet |
| `NeutronPlugin.NeutronSingleNetworkPlugin.UpdateShareNetworkNetData` | manila/network/neutron/neutron_network_plugin.py:188-197 | when `upd` is empty the input comes back and the table is unchanged; otherwise the stored row is updated and returned |
| `NeutronPlugin.NeutronSingleNetworkPlugin.AllocateNetwork` | manila/network/neutron/neutron_network_plugin.py:169-173 | the share network is first updated as `_update_share_network_net_data` does, and the update stays even if allocation then fails; when the share network passed in is the stored row, this moves it onto the configured net and subnet; the base allocation runs on the updated share network; the result carries no port list |

## Left out

- CapacityPasses: a host whose service is disabled or down is rejected; every capacity test stubs the service as up and enabled, so no lemma and no contract states anything about that case: the ensures of `CapacityPasses` is guarded by a live, enabled host.
- CapacityPasses: no exemption for `share_exists_on`. The test that sets it uses a non-matching host id and passes on capacity alone, so the tests give no evidence for an exemption rule. The field is kept in `FilterProperties`.
- CapacityPasses: integer arithmetic only. The real filter's float arithmetic is not modelled, and neither is a free capacity that is not reported at all.
- The other filter classes of the scheduler's filter namespace, and the reflection-based discovery in `HostFilterHandler`, are not part of this model. Only the name → class map over the two modelled classes is kept.
- The scheduler driver that ANDs the filters over candidate hosts is not modelled.
- `utils.service_is_up` becomes the `serviceUp` parameter. The test fakes (`FakeHostState`), the unused JSON query and `updated_at` are left out.
- The retry tests' hosts report no capacity; `TestHost` gives them `unknown`, which `RetryFilter` never reads.
- `share_types.get_valid_required_extra_specs`, `is_valid_required_extra_spec`, `get_required_extra_specs` and `common.validate_key_names` are not part of this model. Their answers are the function values of `ShareTypes`.
- `_check_type`: the share-type lookup becomes "the type id is a key of the extra-specs table".
- `wsgi.Controller.is_valid_body` lives in the WSGI layer. `IsValidBody` stands in for it: the `extra_specs` entry is present and is a dict.
- Extra-spec keys are strings, as in a JSON body; Python's non-string keys are not modelled.
- The explanation texts of the errors are not modelled, and neither is which bad entry the validator reports first (that depends on dict order). All of the validator's rejections are BadRequest.
- Authorization, the RPC notifier, webob responses (`delete` returns a 202), the `Types_extra_specs` extension descriptor and `get_resources` are left out. They are REST and eventing glue.
- Neutron API calls (`create_port`, `delete_port`, `get_network`, `get_subnet`, `list_extensions`) are inputs, and their responses are well-formed records. Only `create_port` and `delete_port` can fail; `get_network`, `get_subnet` and `list_extensions` never raise in the model, so a NetworkException from `get_subnet` after the network data has already been saved (neutron_network_plugin.py:140-145) is not modelled. A missing key in a response (a KeyError) is not modelled either. A port without fixed IPs is modelled: `fixed_ips[0]` raises an IndexError, which becomes `PortWithoutFixedIp`.
- `PROVIDER_NW_EXT` comes from the Neutron constants module, which is not part of this model; its value here is `Provider Network`. The statuses are the two constructors `Active` and `Error`.
- The `db.*` functions are persistence; maps stand in for them. The model requires that a share network passed in is a stored row and that every row of the share network table carries its own id; it also requires that a port passed to `DeletePort` is a stored allocation. This is how the callers use them. What the database layer does with a missing row is not modelled.
- DeallocateNetwork: the database returns a server's allocations in some order; the model deletes them in an unspecified order.
- Configuration option registration, the `CONF` lookups and logging are left out.
- Python integers are unbounded and so are Dafny's; there is no width to model.
