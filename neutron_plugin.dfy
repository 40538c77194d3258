/**
 * The bookkeeping decisions of the Neutron network plugins: which ports
 * `allocate_network` asks Neutron for and which allocation records it writes,
 * what `_delete_port` and `deallocate_network` do to those records, and, for
 * the single-network plugin, the configuration check and the share-network
 * update that precede allocation. Neutron's answers are inputs; the share
 * network and network allocation tables are maps.
 */
module NeutronPlugin {
  import opened Wrappers

  /** Allocation statuses (STATUS_ACTIVE and STATUS_ERROR of the common constants). */
  datatype Status = Active | Error

  /** A row of the share network table, with the fields the plugins read or write. */
  datatype ShareNetwork = ShareNetwork(
    id: string,
    projectId: string,
    neutronNetId: Option<string>,
    neutronSubnetId: Option<string>,
    networkType: Option<string>,
    segmentationId: Option<int>,
    cidr: Option<string>,
    ipVersion: Option<int>)

  /** A row of the network allocation table. */
  datatype Allocation = Allocation(
    id: string,
    shareServerId: string,
    ipAddress: string,
    macAddress: string,
    status: Status)

  /** What Neutron reports about a network; `subnets` is absent when Neutron leaves the key out. */
  datatype NetworkInfo = NetworkInfo(networkType: string, segmentationId: Option<int>, subnets: Option<seq<string>>)

  /** What Neutron reports about a subnet. */
  datatype SubnetInfo = SubnetInfo(cidr: string, ipVersion: int)

  datatype FixedIp = FixedIp(ipAddress: string)

  /** A port as Neutron creates it. */
  datatype Port = Port(id: string, fixedIps: seq<FixedIp>, macAddress: string)

  /** The arguments of one create_port call. */
  datatype PortRequest = PortRequest(projectId: string, networkId: Option<string>, subnetId: Option<string>, deviceOwner: string)

  /**
   * Neutron's answers. `createPort(req, n)` is the answer to the n-th
   * create_port call of an allocation, None when Neutron raises;
   * `deletePort(id)` is false when delete_port raises.
   */
  datatype NeutronApi = NeutronApi(
    extensions: set<string>,
    getNetwork: Option<string> -> NetworkInfo,
    getSubnet: Option<string> -> SubnetInfo,
    createPort: (PortRequest, nat) -> Option<Port>,
    deletePort: string -> bool)

  /** The keyword arguments `count` and `device_owner` of allocate_network, each possibly absent. */
  datatype AllocationParams = AllocationParams(count: Option<int>, deviceOwner: Option<string>)

  datatype ConfigError = NetAndSubnetRequired | SubnetNotInNetwork

  datatype PluginError =
    | MissingProviderExtension   // NetworkBadConfigurationException
    | NeutronFailure             // a NetworkException from Neutron, re-raised
    | PortWithoutFixedIp         // the IndexError of fixed_ips[0]

  /** PROVIDER_NW_EXT of the Neutron constants. */
  const ProviderNetworkExtension: string := "Provider Network"

  // ---------------------------------------------------------------------------
  // _verify_net_and_subnet
  // ---------------------------------------------------------------------------

  /** A configuration option holds a value Python treats as true. */
  predicate IsSet(opt: Option<string>) {
    opt.Some? && opt.value != ""
  }

  /** _verify_net_and_subnet: both options must be set, and the network must list the subnet. */
  function VerifyNetAndSubnet(net: Option<string>, subnet: Option<string>, api: NeutronApi): (r: Outcome<ConfigError>)
    ensures !(IsSet(net) && IsSet(subnet)) ==> r == Fail(NetAndSubnetRequired)
  {
    if IsSet(net) && IsSet(subnet) then
      var info := api.getNetwork(net);
      if !(info.subnets.Some? && |info.subnets.value| > 0 && subnet.value in info.subnets.value) then
        Fail(SubnetNotInNetwork)
      else
        Pass
  else
    Fail(NetAndSubnetRequired)
  }

  /** The configuration is accepted exactly when both options are set and the net's subnet list contains the subnet. */
  lemma VerifyNetAndSubnetPassIff(net: Option<string>, subnet: Option<string>, api: NeutronApi)
    ensures VerifyNetAndSubnet(net, subnet, api) == Pass
        <==> IsSet(net) && IsSet(subnet)
             && api.getNetwork(net).subnets.Some? && subnet.value in api.getNetwork(net).subnets.value
    ensures IsSet(net) && IsSet(subnet) && VerifyNetAndSubnet(net, subnet, api).Fail?
        ==> VerifyNetAndSubnet(net, subnet, api) == Fail(SubnetNotInNetwork)
  {
    if IsSet(net) && IsSet(subnet) {
      var info := api.getNetwork(net);
      if info.subnets.Some? && subnet.value in info.subnets.value {
        assert |info.subnets.value| > 0;
      }
    }
  }

  // ---------------------------------------------------------------------------
  // allocate_network and _create_port
  // ---------------------------------------------------------------------------

  /** The number of ports to allocate: `count`, one by default; range() of a negative count is empty. */
  function AllocationCount(params: AllocationParams): nat {
    if params.count.None? then 1
    else if params.count.value < 0 then 0
    else params.count.value
  }

  /** The device owner sent to Neutron: `manila:` followed by the requested owner, `share` by default. */
  function DeviceOwner(params: AllocationParams): string {
    "manila:" + (if params.deviceOwner.Some? then params.deviceOwner.value else "share")
  }

  /** The create_port call _create_port makes for a share network. */
  function PortRequestFor(sn: ShareNetwork, params: AllocationParams): PortRequest {
    PortRequest(sn.projectId, sn.neutronNetId, sn.neutronSubnetId, DeviceOwner(params))
  }

  /** The allocation record _create_port writes for a created port. */
  function AllocationFor(port: Port, serverId: string): (r: Result<Allocation, PluginError>)
    ensures r.Err? <==> port.fixedIps == []
    ensures r.Ok? ==> (r.value.id == port.id && r.value.shareServerId == serverId
                       && r.value.ipAddress == port.fixedIps[0].ipAddress
                       && r.value.macAddress == port.macAddress && r.value.status == Active)
  {
    if |port.fixedIps| == 0 then Err(PortWithoutFixedIp)
    else Ok(Allocation(port.id, serverId, port.fixedIps[0].ipAddress, port.macAddress, Active))
  }

  /** The records made so far and, if a call failed, why. */
  datatype Creation = Creation(records: seq<Allocation>, failure: Option<PluginError>)

  /** The n-th create_port call succeeded and `a` is the record written for it. */
  predicate CreatedAt(api: NeutronApi, req: PortRequest, serverId: string, n: nat, a: Allocation) {
    api.createPort(req, n).Some? && AllocationFor(api.createPort(req, n).value, serverId) == Ok(a)
  }

  /** The ports loop of allocate_network after n iterations: it stops at the first failing call. */
  function CreatePorts(api: NeutronApi, req: PortRequest, serverId: string, n: nat): (c: Creation)
    ensures |c.records| <= n
    ensures c.failure.None? ==> |c.records| == n
    decreases n
  {
    if n == 0 then Creation([], None)
    else
      var c := CreatePorts(api, req, serverId, n - 1);
      if c.failure.Some? then c
      else
        match api.createPort(req, n - 1)
        case None => Creation(c.records, Some(NeutronFailure))
        case Some(port) =>
          match AllocationFor(port, serverId)
          case Err(e) => Creation(c.records, Some(e))
          case Ok(a) => Creation(c.records + [a], None)
  }

  /**
   * After n iterations the records are those of the first calls, in order; with no
   * failure there are exactly n of them, and after a failure the call right after
   * the last record is the one that failed.
   */
  lemma {:induction false} CreatePortsRecords(api: NeutronApi, req: PortRequest, serverId: string, n: nat)
    ensures var c := CreatePorts(api, req, serverId, n);
            && |c.records| <= n
            && (forall i :: 0 <= i < |c.records| ==> CreatedAt(api, req, serverId, i, c.records[i]))
            && (c.failure.None? ==> |c.records| == n)
            && (c.failure.Some? ==>
                  && |c.records| < n
                  && (api.createPort(req, |c.records|).None? <==> c.failure.value == NeutronFailure)
                  && (api.createPort(req, |c.records|).Some? ==>
                        AllocationFor(api.createPort(req, |c.records|).value, serverId).Err?))
  {
    if n > 0 {
      CreatePortsRecords(api, req, serverId, n - 1);
      var c := CreatePorts(api, req, serverId, n - 1);
      if c.failure.None? {
        assert |c.records| == n - 1;
      }
    }
  }

  /**
   * A successful allocation yields exactly `count` records (one by default), the
   * i-th made from the i-th port Neutron created for device owner `manila:` plus
   * the requested owner (`share` by default), each ACTIVE, for the server, with
   * the port's first fixed IP.
   */
  lemma AllocatedPortsShape(api: NeutronApi, sn: ShareNetwork, serverId: string, params: AllocationParams)
    requires CreatePorts(api, PortRequestFor(sn, params), serverId, AllocationCount(params)).failure.None?
    ensures var req := PortRequestFor(sn, params);
            var records := CreatePorts(api, req, serverId, AllocationCount(params)).records;
            && |records| == (if params.count.None? then 1 else if params.count.value < 0 then 0 else params.count.value)
            && req.deviceOwner == "manila:" + (if params.deviceOwner.None? then "share" else params.deviceOwner.value)
            && req.networkId == sn.neutronNetId && req.subnetId == sn.neutronSubnetId
            && forall i :: 0 <= i < |records| ==>
                 && api.createPort(req, i).Some?
                 && |api.createPort(req, i).value.fixedIps| > 0
                 && records[i].id == api.createPort(req, i).value.id
                 && records[i].ipAddress == api.createPort(req, i).value.fixedIps[0].ipAddress
                 && records[i].macAddress == api.createPort(req, i).value.macAddress
                 && records[i].shareServerId == serverId && records[i].status == Active
  {
    var req := PortRequestFor(sn, params);
    var records := CreatePorts(api, req, serverId, AllocationCount(params)).records;
    CreatePortsRecords(api, req, serverId, AllocationCount(params));
    forall i | 0 <= i < |records|
      ensures api.createPort(req, i).Some? && AllocationFor(api.createPort(req, i).value, serverId) == Ok(records[i])
    {
      assert CreatedAt(api, req, serverId, i, records[i]);
    }
  }

  /** Once a call has failed, further iterations change nothing. */
  lemma {:induction false} CreatePortsFailureSticks(api: NeutronApi, req: PortRequest, serverId: string, n: nat, m: nat)
    requires n <= m && CreatePorts(api, req, serverId, n).failure.Some?
    ensures CreatePorts(api, req, serverId, m) == CreatePorts(api, req, serverId, n)
    decreases m
  {
    if n < m {
      CreatePortsFailureSticks(api, req, serverId, n, m - 1);
    }
  }

  /** One more iteration after n successful ones runs the n-th call and stops if it fails. */
  lemma CreatePortsStep(api: NeutronApi, req: PortRequest, serverId: string, n: nat)
    requires CreatePorts(api, req, serverId, n).failure.None?
    ensures var records := CreatePorts(api, req, serverId, n).records;
            var port := api.createPort(req, n);
            CreatePorts(api, req, serverId, n + 1)
              == if port.None? then Creation(records, Some(NeutronFailure))
                 else match AllocationFor(port.value, serverId)
                      case Err(e) => Creation(records, Some(e))
                      case Ok(a) => Creation(records + [a], None)
  {
  }

  /** An allocation table after writing `records` one after the other. */
  function Recorded(table: map<string, Allocation>, records: seq<Allocation>): map<string, Allocation>
    decreases |records|
  {
    if records == [] then table
    else Recorded(table, records[..|records| - 1])[records[|records| - 1].id := records[|records| - 1]]
  }

  /** Writing one more record is one more map update. */
  lemma RecordedStep(table: map<string, Allocation>, records: seq<Allocation>, a: Allocation)
    ensures Recorded(table, records + [a]) == Recorded(table, records)[a.id := a]
  {
    assert (records + [a])[..|records|] == records;
  }

  /** The ids of a sequence of records. */
  function Ids(records: seq<Allocation>): set<string> {
    set i | 0 <= i < |records| :: records[i].id
  }

  /** Writing records adds exactly their ids to the table. */
  lemma {:induction false} RecordedKeys(table: map<string, Allocation>, records: seq<Allocation>)
    ensures Recorded(table, records).Keys == table.Keys + Ids(records)
    decreases |records|
  {
    if records != [] {
      var prefix := records[..|records| - 1];
      RecordedKeys(table, prefix);
      IdsOfExtension(prefix, records[|records| - 1]);
      assert prefix + [records[|records| - 1]] == records;
    }
  }

  lemma IdsOfExtension(records: seq<Allocation>, a: Allocation)
    ensures Ids(records + [a]) == Ids(records) + {a.id}
  {
    var ext := records + [a];
    assert ext[|records|] == a;
    forall id | id in Ids(ext) ensures id in Ids(records) + {a.id} {
      var i :| 0 <= i < |ext| && ext[i].id == id;
      if i < |records| {
        assert ext[i] == records[i];
      }
    }
    forall id | id in Ids(records) ensures id in Ids(ext) {
      var i :| 0 <= i < |records| && records[i].id == id;
      assert ext[i] == records[i];
    }
  }

  /** Rows whose id none of the records carries are left as they were. */
  lemma {:induction false} RecordedKeepsOthers(table: map<string, Allocation>, records: seq<Allocation>, id: string)
    requires id in table && id !in Ids(records)
    ensures id in Recorded(table, records) && Recorded(table, records)[id] == table[id]
    decreases |records|
  {
    if records != [] {
      var prefix := records[..|records| - 1];
      IdsOfExtension(prefix, records[|records| - 1]);
      assert prefix + [records[|records| - 1]] == records;
      RecordedKeepsOthers(table, prefix, id);
    }
  }

  /** A record that no later record replaces is in the table as written. */
  lemma {:induction false} RecordedLastWins(table: map<string, Allocation>, records: seq<Allocation>, i: nat)
    requires i < |records| && forall j :: i < j < |records| ==> records[j].id != records[i].id
    ensures records[i].id in Recorded(table, records) && Recorded(table, records)[records[i].id] == records[i]
    decreases |records|
  {
    if i < |records| - 1 {
      var prefix := records[..|records| - 1];
      assert prefix[i] == records[i];
      RecordedLastWins(table, prefix, i);
    }
  }

  /** network_allocations_get_for_share_server: the ids of the server's allocations. */
  function ServerPorts(table: map<string, Allocation>, serverId: string): set<string> {
    set id | id in table && table[id].shareServerId == serverId
  }

  /** The share network row after _save_neutron_network_data and _save_neutron_subnet_data. */
  function SavedNetworkData(table: map<string, ShareNetwork>, sn: ShareNetwork, api: NeutronApi): (t: map<string, ShareNetwork>)
    requires sn.id in table
    ensures t.Keys == table.Keys
    ensures forall id :: id in table && id != sn.id ==> t[id] == table[id]
    ensures var row, old_row := t[sn.id], table[sn.id];
            && row.id == old_row.id && row.projectId == old_row.projectId
            && row.neutronNetId == old_row.neutronNetId && row.neutronSubnetId == old_row.neutronSubnetId
            && row.networkType == Some(api.getNetwork(sn.neutronNetId).networkType)
            && row.segmentationId == api.getNetwork(sn.neutronNetId).segmentationId
            && row.cidr == Some(api.getSubnet(sn.neutronSubnetId).cidr)
            && row.ipVersion == Some(api.getSubnet(sn.neutronSubnetId).ipVersion)
  {
    var net := api.getNetwork(sn.neutronNetId);
    var subnet := api.getSubnet(sn.neutronSubnetId);
    table[sn.id := table[sn.id].(networkType := Some(net.networkType), segmentationId := net.segmentationId,
                                 cidr := Some(subnet.cidr), ipVersion := Some(subnet.ipVersion))]
  }

  /** NeutronNetworkPlugin, over the share network and network allocation tables. */
  class NeutronNetworkPlugin {
    var shareNetworks: map<string, ShareNetwork>
    var allocations: map<string, Allocation>

    constructor (shareNetworks: map<string, ShareNetwork>, allocations: map<string, Allocation>)
      ensures this.shareNetworks == shareNetworks && this.allocations == allocations
    {
      this.shareNetworks := shareNetworks;
      this.allocations := allocations;
    }

    /**
     * allocate_network: without the provider network extension nothing is
     * saved; otherwise the share network gets Neutron's network and subnet
     * data, and the ports loop runs as CreatePorts describes, every record it
     * makes being written to the allocation table.
     */
    method AllocateNetwork(sn: ShareNetwork, serverId: string, params: AllocationParams, api: NeutronApi)
      returns (r: Result<seq<Allocation>, PluginError>)
      requires sn.id in shareNetworks
      modifies this
      ensures ProviderNetworkExtension !in api.extensions ==>
        r == Err(MissingProviderExtension)
        && shareNetworks == old(shareNetworks) && allocations == old(allocations)
      ensures ProviderNetworkExtension in api.extensions ==>
        var c := CreatePorts(api, PortRequestFor(sn, params), serverId, AllocationCount(params));
        && shareNetworks == SavedNetworkData(old(shareNetworks), sn, api)
        && allocations == Recorded(old(allocations), c.records)
        && r == (if c.failure.None? then Ok(c.records) else Err(c.failure.value))
    {
      if ProviderNetworkExtension !in api.extensions {
        return Err(MissingProviderExtension);
      }
      ghost var saved := SavedNetworkData(shareNetworks, sn, api);
      var netInfo := api.getNetwork(sn.neutronNetId);
      shareNetworks := shareNetworks[sn.id := shareNetworks[sn.id].(
        networkType := Some(netInfo.networkType), segmentationId := netInfo.segmentationId)];
      var subnetInfo := api.getSubnet(sn.neutronSubnetId);
      shareNetworks := shareNetworks[sn.id := shareNetworks[sn.id].(
        cidr := Some(subnetInfo.cidr), ipVersion := Some(subnetInfo.ipVersion))];
      assert shareNetworks == saved;

      var count := AllocationCount(params);
      var req := PortRequestFor(sn, params);
      var ports: seq<Allocation> := [];
      var i := 0;
      while i < count
        invariant 0 <= i <= count
        invariant CreatePorts(api, req, serverId, i) == Creation(ports, None)
        invariant allocations == Recorded(old(allocations), ports)
        invariant shareNetworks == saved
      {
        CreatePortsStep(api, req, serverId, i);
        var port := api.createPort(req, i);
        if port.None? {
          CreatePortsFailureSticks(api, req, serverId, i + 1, count);
          assert CreatePorts(api, req, serverId, count) == Creation(ports, Some(NeutronFailure));
          return Err(NeutronFailure);
        }
        var record := AllocationFor(port.value, serverId);
        if record.Err? {
          CreatePortsFailureSticks(api, req, serverId, i + 1, count);
          assert CreatePorts(api, req, serverId, count) == Creation(ports, Some(record.error));
          return Err(record.error);
        }
        RecordedStep(old(allocations), ports, record.value);
        allocations := allocations[record.value.id := record.value];
        ports := ports + [record.value];
        i := i + 1;
      }
      return Ok(ports);
    }

    /**
     * _delete_port: when Neutron deletes the port its record goes; when
     * Neutron fails the record stays, marked ERROR, and the failure is re-raised.
     */
    method DeletePort(portId: string, api: NeutronApi) returns (r: Outcome<PluginError>)
      requires portId in allocations
      modifies this
      ensures api.deletePort(portId) ==> r == Pass && allocations == old(allocations) - {portId}
      ensures !api.deletePort(portId) ==>
        r == Fail(NeutronFailure)
        && allocations == old(allocations)[portId := old(allocations)[portId].(status := Error)]
      ensures shareNetworks == old(shareNetworks)
    {
      if !api.deletePort(portId) {
        allocations := allocations[portId := allocations[portId].(status := Error)];
        return Fail(NeutronFailure);
      }
      allocations := allocations - {portId};
      return Pass;
    }

    /**
     * deallocate_network: deletes the server's ports one by one, in the order
     * the table yields them, stopping at the first Neutron failure. Other
     * servers' records are never touched; a record disappears only when
     * Neutron deleted its port; on success none of the server's records is left.
     */
    method DeallocateNetwork(serverId: string, api: NeutronApi) returns (r: Outcome<PluginError>)
      modifies this
      ensures shareNetworks == old(shareNetworks)
      ensures forall id :: id in allocations ==> id in old(allocations)
      ensures forall id :: id in old(allocations) && old(allocations)[id].shareServerId != serverId ==>
                id in allocations && allocations[id] == old(allocations)[id]
      ensures forall id :: id in old(allocations) && id !in allocations ==>
                id in ServerPorts(old(allocations), serverId) && api.deletePort(id)
      ensures r == Pass ==> allocations == old(allocations) - ServerPorts(old(allocations), serverId)
      ensures r.Fail? ==> (r.error == NeutronFailure
        && exists failed :: failed in ServerPorts(old(allocations), serverId) && !api.deletePort(failed)
                          && failed in allocations
                          && allocations[failed] == old(allocations)[failed].(status := Error))
      ensures r.Fail? ==> forall id :: id in allocations && allocations[id] != old(allocations)[id] ==>
                !api.deletePort(id) && allocations[id] == old(allocations)[id].(status := Error)
    {
      ghost var before := allocations;
      var todo := ServerPorts(allocations, serverId);
      while todo != {}
        invariant todo <= ServerPorts(before, serverId)
        invariant allocations == before - (ServerPorts(before, serverId) - todo)
        invariant forall id :: id in ServerPorts(before, serverId) - todo ==> api.deletePort(id)
        invariant shareNetworks == old(shareNetworks)
        decreases todo
      {
        var id :| id in todo;
        var deleted := DeletePort(id, api);
        if deleted.Fail? {
          assert id in ServerPorts(before, serverId) && !api.deletePort(id);
          return deleted;
        }
        todo := todo - {id};
      }
      return Pass;
    }
  }

  // ---------------------------------------------------------------------------
  // NeutronSingleNetworkPlugin
  // ---------------------------------------------------------------------------

  /** The `upd` dict of _update_share_network_net_data: each id the share network does not already carry. */
  function NetDataUpdate(sn: ShareNetwork, net: string, subnet: string): (upd: map<string, string>)
    ensures "neutron_net_id" in upd <==> sn.neutronNetId != Some(net)
    ensures "neutron_subnet_id" in upd <==> sn.neutronSubnetId != Some(subnet)
    ensures upd.Keys <= {"neutron_net_id", "neutron_subnet_id"}
    ensures "neutron_net_id" in upd ==> upd["neutron_net_id"] == net
    ensures "neutron_subnet_id" in upd ==> upd["neutron_subnet_id"] == subnet
  {
    var netPart := if sn.neutronNetId != Some(net) then map["neutron_net_id" := net] else map[];
    var subnetPart := if sn.neutronSubnetId != Some(subnet) then map["neutron_subnet_id" := subnet] else map[];
    netPart + subnetPart
  }

  /** share_network_update with an `upd` dict on a row. */
  function ApplyNetIds(row: ShareNetwork, upd: map<string, string>): ShareNetwork {
    row.(neutronNetId := if "neutron_net_id" in upd then Some(upd["neutron_net_id"]) else row.neutronNetId,
         neutronSubnetId := if "neutron_subnet_id" in upd then Some(upd["neutron_subnet_id"]) else row.neutronSubnetId)
  }

  /** The share network _update_share_network_net_data returns: the input itself when nothing differs, else the updated row. */
  function NetDataResult(table: map<string, ShareNetwork>, sn: ShareNetwork, net: string, subnet: string): ShareNetwork
    requires sn.id in table
  {
    var upd := NetDataUpdate(sn, net, subnet);
    if |upd| == 0 then sn else ApplyNetIds(table[sn.id], upd)
  }

  /** The share network table after _update_share_network_net_data. */
  function NetDataTable(table: map<string, ShareNetwork>, sn: ShareNetwork, net: string, subnet: string): map<string, ShareNetwork>
    requires sn.id in table
  {
    if |NetDataUpdate(sn, net, subnet)| == 0 then table
    else table[sn.id := NetDataResult(table, sn, net, subnet)]
  }

  /** Nothing is updated exactly when the share network already carries the configured net and subnet. */
  lemma NoUpdateIffConfigured(sn: ShareNetwork, net: string, subnet: string)
    ensures |NetDataUpdate(sn, net, subnet)| == 0 <==> sn.neutronNetId == Some(net) && sn.neutronSubnetId == Some(subnet)
  {
    var upd := NetDataUpdate(sn, net, subnet);
    if |upd| == 0 {
      assert "neutron_net_id" !in upd && "neutron_subnet_id" !in upd;
    } else {
      var k :| k in upd;
    }
  }

  /** Whichever branch is taken, the share network handed on carries the configured net and subnet. */
  lemma NetDataResultUsesConfiguredNet(table: map<string, ShareNetwork>, sn: ShareNetwork, net: string, subnet: string)
    requires sn.id in table && table[sn.id] == sn
    ensures NetDataResult(table, sn, net, subnet).neutronNetId == Some(net)
    ensures NetDataResult(table, sn, net, subnet).neutronSubnetId == Some(subnet)
    ensures NetDataResult(table, sn, net, subnet).id == sn.id
  {
    NoUpdateIffConfigured(sn, net, subnet);
  }

  /** NeutronSingleNetworkPlugin: the base plugin, with one configured net and subnet it enforces. */
  class NeutronSingleNetworkPlugin {
    const base: NeutronNetworkPlugin
    const net: string
    const subnet: string

    /** Exists only for a configuration that _verify_net_and_subnet accepts; see Create. */
    constructor (base: NeutronNetworkPlugin, net: string, subnet: string, api: NeutronApi)
      requires VerifyNetAndSubnet(Some(net), Some(subnet), api) == Pass
      ensures this.base == base && this.net == net && this.subnet == subnet
    {
      this.base := base;
      this.net := net;
      this.subnet := subnet;
    }

    /** The plugin's construction: the configured options are verified first, and a bad configuration raises. */
    static method Create(base: NeutronNetworkPlugin, net: Option<string>, subnet: Option<string>, api: NeutronApi)
      returns (r: Result<NeutronSingleNetworkPlugin, ConfigError>)
      ensures r.Err? <==> VerifyNetAndSubnet(net, subnet, api).Fail?
      ensures r.Err? ==> r.error == VerifyNetAndSubnet(net, subnet, api).error
      ensures r.Ok? ==> (fresh(r.value) && r.value.base == base
                         && net == Some(r.value.net) && subnet == Some(r.value.subnet))
    {
      var verified := VerifyNetAndSubnet(net, subnet, api);
      if verified.Fail? {
        return Err(verified.error);
      }
      var plugin := new NeutronSingleNetworkPlugin(base, net.value, subnet.value, api);
      return Ok(plugin);
    }

    /**
     * _update_share_network_net_data: the ids that differ from the configured
     * ones are written to the share network's row, and the updated row is
     * returned; when none differs nothing is written and the input comes back.
     */
    method UpdateShareNetworkNetData(sn: ShareNetwork) returns (r: ShareNetwork)
      requires sn.id in base.shareNetworks && base.shareNetworks[sn.id].id == sn.id
      modifies base
      ensures r.id == sn.id && r.id in base.shareNetworks
      ensures r == NetDataResult(old(base.shareNetworks), sn, net, subnet)
      ensures base.shareNetworks == NetDataTable(old(base.shareNetworks), sn, net, subnet)
      ensures base.allocations == old(base.allocations)
    {
      var upd: map<string, string> := map[];
      if sn.neutronNetId != Some(net) {
        upd := upd["neutron_net_id" := net];
      }
      if sn.neutronSubnetId != Some(subnet) {
        upd := upd["neutron_subnet_id" := subnet];
      }
      assert upd == NetDataUpdate(sn, net, subnet);
      r := sn;
      if |upd| != 0 {
        r := ApplyNetIds(base.shareNetworks[sn.id], upd);
        base.shareNetworks := base.shareNetworks[sn.id := r];
      }
    }

    /**
     * allocate_network of the single-network plugin: the share network is first
     * moved onto the configured net and subnet (even when the base allocation
     * then fails), and the base allocation runs on the updated share network;
     * its port list is not returned.
     */
    method AllocateNetwork(sn: ShareNetwork, serverId: string, params: AllocationParams, api: NeutronApi)
      returns (r: Outcome<PluginError>)
      requires sn.id in base.shareNetworks && base.shareNetworks[sn.id].id == sn.id
      modifies base
      ensures
        var sn' := NetDataResult(old(base.shareNetworks), sn, net, subnet);
        var table := NetDataTable(old(base.shareNetworks), sn, net, subnet);
        && sn'.id == sn.id
        && (ProviderNetworkExtension !in api.extensions ==>
              r == Fail(MissingProviderExtension)
              && base.shareNetworks == table && base.allocations == old(base.allocations))
        && (ProviderNetworkExtension in api.extensions ==>
              var c := CreatePorts(api, PortRequestFor(sn', params), serverId, AllocationCount(params));
              && base.shareNetworks == SavedNetworkData(table, sn', api)
              && base.allocations == Recorded(old(base.allocations), c.records)
              && r == (if c.failure.None? then Pass else Fail(c.failure.value)))
    {
      var updated := UpdateShareNetworkNetData(sn);
      var result := base.AllocateNetwork(updated, serverId, params, api);
      if result.Err? {
        return Fail(result.error);
      }
      return Pass;
    }
  }
}
