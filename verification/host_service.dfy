/**
 * The host API calls: their parameter types, their endpoints, and the host
 * lookups. Field lists follow the order of each `toURLValues` in
 * cloudstack/HostService.go.
 */
module HostService {
  import opened Wrappers
  import opened Params
  import Lookup
  import AsyncJob
  import Dispatch

  // ------------------------------------------------------------ parameter types

  const AddHostFields: seq<Field> := [
    S("allocationstate"), S("clusterid"), S("clustername"), Field("hosttags", ListKind),
    S("hypervisor"), S("password"), S("podid"), S("url"), S("username"), S("zoneid")]

  const AddHostParams: ParamsType := ParamsType("AddHostParams", AddHostFields, SettersOf(AddHostFields),
    ["hypervisor", "password", "podid", "url", "username", "zoneid"])

  const ReconnectHostParams: ParamsType := ParamsType("ReconnectHostParams", [S("id")], SettersOf([S("id")]), ["id"])

  const UpdateHostFields: seq<Field> := [
    S("allocationstate"), Field("hosttags", ListKind), S("id"), S("oscategoryid"), S("url")]

  const UpdateHostParams: ParamsType := ParamsType("UpdateHostParams", UpdateHostFields, SettersOf(UpdateHostFields), ["id"])

  const DeleteHostFields: seq<Field> := [
    Field("forced", BoolKind), Field("forcedestroylocalstorage", BoolKind), S("id")]

  const DeleteHostParams: ParamsType := ParamsType("DeleteHostParams", DeleteHostFields, SettersOf(DeleteHostFields), ["id"])

  const PrepareHostForMaintenanceParams: ParamsType :=
    ParamsType("PrepareHostForMaintenanceParams", [S("id")], SettersOf([S("id")]), ["id"])

  const CancelHostMaintenanceParams: ParamsType :=
    ParamsType("CancelHostMaintenanceParams", [S("id")], SettersOf([S("id")]), ["id"])

  const ListHostsFields: seq<Field> := [
    S("clusterid"), Field("details", ListKind), Field("hahost", BoolKind), S("hypervisor"), S("id"),
    S("keyword"), S("name"), Field("page", IntKind), Field("pagesize", IntKind), S("podid"),
    S("resourcestate"), S("state"), S("type"), S("virtualmachineid"), S("zoneid")]

  /** `SetType` as the source writes it: under "hostType", a name the encoder never reads. */
  const SetTypeAsWritten: Setter := Setter("hostType", StringKind)

  /** `SetType` as the encoder expects it: under "type". */
  const SetTypeCorrected: Setter := Setter("type", StringKind)

  /** ListHostsParams with its setters as written (the 13th setter is `SetType`). */
  const ListHostsParamsAsWritten: ParamsType := ParamsType("ListHostsParams", ListHostsFields,
    SettersOf(ListHostsFields)[12 := SetTypeAsWritten], [])

  /** ListHostsParams with `SetType` corrected; the rest of the model uses this one. */
  const ListHostsParams: ParamsType := ParamsType("ListHostsParams", ListHostsFields, SettersOf(ListHostsFields), [])

  const FindHostsForMigrationFields: seq<Field> := [
    S("keyword"), Field("page", IntKind), Field("pagesize", IntKind), S("virtualmachineid")]

  const FindHostsForMigrationParams: ParamsType := ParamsType("FindHostsForMigrationParams",
    FindHostsForMigrationFields, SettersOf(FindHostsForMigrationFields), ["virtualmachineid"])

  const AddSecondaryStorageParams: ParamsType := ParamsType("AddSecondaryStorageParams",
    [S("url"), S("zoneid")], SettersOf([S("url"), S("zoneid")]), ["url"])

  const UpdateHostPasswordFields: seq<Field> := [S("clusterid"), S("hostid"), S("password"), S("username")]

  const UpdateHostPasswordParams: ParamsType := ParamsType("UpdateHostPasswordParams",
    UpdateHostPasswordFields, SettersOf(UpdateHostPasswordFields), ["password", "username"])

  const ReleaseHostReservationParams: ParamsType :=
    ParamsType("ReleaseHostReservationParams", [S("id")], SettersOf([S("id")]), ["id"])

  const AddBaremetalHostFields: seq<Field> := [
    S("allocationstate"), S("clusterid"), S("clustername"), Field("hosttags", ListKind), S("hypervisor"),
    S("ipaddress"), S("password"), S("podid"), S("url"), S("username"), S("zoneid")]

  const AddBaremetalHostParams: ParamsType := ParamsType("AddBaremetalHostParams",
    AddBaremetalHostFields, SettersOf(AddBaremetalHostFields),
    ["hypervisor", "password", "podid", "url", "username", "zoneid"])

  const DedicateHostFields: seq<Field> := [S("account"), S("domainid"), S("hostid")]

  const DedicateHostParams: ParamsType := ParamsType("DedicateHostParams",
    DedicateHostFields, SettersOf(DedicateHostFields), ["domainid", "hostid"])

  const ReleaseDedicatedHostParams: ParamsType :=
    ParamsType("ReleaseDedicatedHostParams", [S("hostid")], SettersOf([S("hostid")]), ["hostid"])

  const ListDedicatedHostsFields: seq<Field> := [
    S("account"), S("affinitygroupid"), S("domainid"), S("hostid"), S("keyword"),
    Field("page", IntKind), Field("pagesize", IntKind)]

  const ListDedicatedHostsParams: ParamsType := ParamsType("ListDedicatedHostsParams",
    ListDedicatedHostsFields, SettersOf(ListDedicatedHostsFields), [])

  // ------------------------------------------------------------------ endpoints

  const AddHost := Dispatch.Endpoint("addHost", AddHostParams, AsyncJob.Sync)
  const ReconnectHost := Dispatch.Endpoint("reconnectHost", ReconnectHostParams, AsyncJob.AwaitUnwrap)
  const UpdateHost := Dispatch.Endpoint("updateHost", UpdateHostParams, AsyncJob.Sync)
  const DeleteHost := Dispatch.Endpoint("deleteHost", DeleteHostParams, AsyncJob.Sync)
  const PrepareHostForMaintenance :=
    Dispatch.Endpoint("prepareHostForMaintenance", PrepareHostForMaintenanceParams, AsyncJob.AwaitUnwrap)
  const CancelHostMaintenance :=
    Dispatch.Endpoint("cancelHostMaintenance", CancelHostMaintenanceParams, AsyncJob.AwaitUnwrap)
  const ListHosts := Dispatch.Endpoint("listHosts", ListHostsParams, AsyncJob.Sync)
  const FindHostsForMigration :=
    Dispatch.Endpoint("findHostsForMigration", FindHostsForMigrationParams, AsyncJob.Sync)
  const AddSecondaryStorage := Dispatch.Endpoint("addSecondaryStorage", AddSecondaryStorageParams, AsyncJob.Sync)
  const UpdateHostPassword := Dispatch.Endpoint("updateHostPassword", UpdateHostPasswordParams, AsyncJob.Sync)
  const ReleaseHostReservation :=
    Dispatch.Endpoint("releaseHostReservation", ReleaseHostReservationParams, AsyncJob.AwaitRaw)
  const AddBaremetalHost := Dispatch.Endpoint("addBaremetalHost", AddBaremetalHostParams, AsyncJob.Sync)
  const DedicateHost := Dispatch.Endpoint("dedicateHost", DedicateHostParams, AsyncJob.AwaitUnwrap)
  const ReleaseDedicatedHost :=
    Dispatch.Endpoint("releaseDedicatedHost", ReleaseDedicatedHostParams, AsyncJob.AwaitRaw)
  const ListDedicatedHosts := Dispatch.Endpoint("listDedicatedHosts", ListDedicatedHostsParams, AsyncJob.Sync)

  // ------------------------------------------------------------- the catalogue

  // Facts about each literal field list, one quantifier per lemma so that
  // each list is unfolded once: every name is plain (maps only under
  // "details"), and any two names differ.

  lemma AddHostFieldsPlain()
    ensures forall i :: 0 <= i < |AddHostFields| ==>
      Plain(AddHostFields[i].name) && (AddHostFields[i].kind == MapKind ==> AddHostFields[i].name == DetailsName)
  {
  }

  lemma UpdateHostFieldsPlain()
    ensures forall i :: 0 <= i < |UpdateHostFields| ==>
      Plain(UpdateHostFields[i].name) && (UpdateHostFields[i].kind == MapKind ==> UpdateHostFields[i].name == DetailsName)
  {
  }

  lemma DeleteHostFieldsPlain()
    ensures forall i :: 0 <= i < |DeleteHostFields| ==>
      Plain(DeleteHostFields[i].name) && (DeleteHostFields[i].kind == MapKind ==> DeleteHostFields[i].name == DetailsName)
  {
  }

  lemma ListHostsFieldsPlain()
    ensures forall i :: 0 <= i < |ListHostsFields| ==>
      Plain(ListHostsFields[i].name) && (ListHostsFields[i].kind == MapKind ==> ListHostsFields[i].name == DetailsName)
  {
  }

  lemma FindHostsForMigrationFieldsPlain()
    ensures forall i :: 0 <= i < |FindHostsForMigrationFields| ==>
      Plain(FindHostsForMigrationFields[i].name) && (FindHostsForMigrationFields[i].kind == MapKind ==> FindHostsForMigrationFields[i].name == DetailsName)
  {
  }

  lemma UpdateHostPasswordFieldsPlain()
    ensures forall i :: 0 <= i < |UpdateHostPasswordFields| ==>
      Plain(UpdateHostPasswordFields[i].name) && (UpdateHostPasswordFields[i].kind == MapKind ==> UpdateHostPasswordFields[i].name == DetailsName)
  {
  }

  lemma AddBaremetalHostFieldsPlain()
    ensures forall i :: 0 <= i < |AddBaremetalHostFields| ==>
      Plain(AddBaremetalHostFields[i].name) && (AddBaremetalHostFields[i].kind == MapKind ==> AddBaremetalHostFields[i].name == DetailsName)
  {
  }

  lemma DedicateHostFieldsPlain()
    ensures forall i :: 0 <= i < |DedicateHostFields| ==>
      Plain(DedicateHostFields[i].name) && (DedicateHostFields[i].kind == MapKind ==> DedicateHostFields[i].name == DetailsName)
  {
  }

  lemma ListDedicatedHostsFieldsPlain()
    ensures forall i :: 0 <= i < |ListDedicatedHostsFields| ==>
      Plain(ListDedicatedHostsFields[i].name) && (ListDedicatedHostsFields[i].kind == MapKind ==> ListDedicatedHostsFields[i].name == DetailsName)
  {
  }

  lemma AddHostFieldsDiffer()
    ensures forall i, j :: 0 <= i < j < |AddHostFields| ==> ShapeDiffers(AddHostFields[i].name, AddHostFields[j].name)
  {
  }

  lemma UpdateHostFieldsDiffer()
    ensures forall i, j :: 0 <= i < j < |UpdateHostFields| ==> ShapeDiffers(UpdateHostFields[i].name, UpdateHostFields[j].name)
  {
  }

  lemma DeleteHostFieldsDiffer()
    ensures forall i, j :: 0 <= i < j < |DeleteHostFields| ==> ShapeDiffers(DeleteHostFields[i].name, DeleteHostFields[j].name)
  {
  }

  lemma ListHostsFieldsDiffer()
    ensures forall i, j :: 0 <= i < j < |ListHostsFields| ==> ShapeDiffers(ListHostsFields[i].name, ListHostsFields[j].name)
  {
  }

  lemma FindHostsForMigrationFieldsDiffer()
    ensures forall i, j :: 0 <= i < j < |FindHostsForMigrationFields| ==> ShapeDiffers(FindHostsForMigrationFields[i].name, FindHostsForMigrationFields[j].name)
  {
  }

  lemma UpdateHostPasswordFieldsDiffer()
    ensures forall i, j :: 0 <= i < j < |UpdateHostPasswordFields| ==> ShapeDiffers(UpdateHostPasswordFields[i].name, UpdateHostPasswordFields[j].name)
  {
  }

  lemma AddBaremetalHostFieldsDiffer()
    ensures forall i, j :: 0 <= i < j < |AddBaremetalHostFields| ==> ShapeDiffers(AddBaremetalHostFields[i].name, AddBaremetalHostFields[j].name)
  {
  }

  lemma DedicateHostFieldsDiffer()
    ensures forall i, j :: 0 <= i < j < |DedicateHostFields| ==> ShapeDiffers(DedicateHostFields[i].name, DedicateHostFields[j].name)
  {
  }

  lemma ListDedicatedHostsFieldsDiffer()
    ensures forall i, j :: 0 <= i < j < |ListDedicatedHostsFields| ==> ShapeDiffers(ListDedicatedHostsFields[i].name, ListDedicatedHostsFields[j].name)
  {
  }

  lemma AddHostParamsConsistent() ensures Consistent(AddHostParams) {
    AddHostFieldsPlain();
    AddHostFieldsDiffer();
    NamesDiffer(AddHostFields);
    GeneratedSettersFeed(AddHostParams, [4, 5, 6, 7, 8, 9]);
  }

  lemma ReconnectHostParamsConsistent() ensures Consistent(ReconnectHostParams) {
    GeneratedSettersFeed(ReconnectHostParams, [0]);
  }

  lemma UpdateHostParamsConsistent() ensures Consistent(UpdateHostParams) {
    UpdateHostFieldsPlain();
    UpdateHostFieldsDiffer();
    NamesDiffer(UpdateHostFields);
    GeneratedSettersFeed(UpdateHostParams, [2]);
  }

  lemma DeleteHostParamsConsistent() ensures Consistent(DeleteHostParams) {
    DeleteHostFieldsPlain();
    DeleteHostFieldsDiffer();
    NamesDiffer(DeleteHostFields);
    GeneratedSettersFeed(DeleteHostParams, [2]);
  }

  lemma PrepareHostForMaintenanceParamsConsistent() ensures Consistent(PrepareHostForMaintenanceParams) {
    GeneratedSettersFeed(PrepareHostForMaintenanceParams, [0]);
  }

  lemma CancelHostMaintenanceParamsConsistent() ensures Consistent(CancelHostMaintenanceParams) {
    GeneratedSettersFeed(CancelHostMaintenanceParams, [0]);
  }

  lemma ListHostsParamsConsistent() ensures Consistent(ListHostsParams) {
    ListHostsFieldsPlain();
    ListHostsFieldsDiffer();
    NamesDiffer(ListHostsFields);
    GeneratedSettersFeed(ListHostsParams, []);
  }

  lemma FindHostsForMigrationParamsConsistent() ensures Consistent(FindHostsForMigrationParams) {
    FindHostsForMigrationFieldsPlain();
    FindHostsForMigrationFieldsDiffer();
    NamesDiffer(FindHostsForMigrationFields);
    GeneratedSettersFeed(FindHostsForMigrationParams, [3]);
  }

  lemma AddSecondaryStorageParamsConsistent() ensures Consistent(AddSecondaryStorageParams) {
    GeneratedSettersFeed(AddSecondaryStorageParams, [0]);
  }

  lemma UpdateHostPasswordParamsConsistent() ensures Consistent(UpdateHostPasswordParams) {
    UpdateHostPasswordFieldsPlain();
    UpdateHostPasswordFieldsDiffer();
    NamesDiffer(UpdateHostPasswordFields);
    GeneratedSettersFeed(UpdateHostPasswordParams, [2, 3]);
  }

  lemma ReleaseHostReservationParamsConsistent() ensures Consistent(ReleaseHostReservationParams) {
    GeneratedSettersFeed(ReleaseHostReservationParams, [0]);
  }

  lemma AddBaremetalHostParamsConsistent() ensures Consistent(AddBaremetalHostParams) {
    AddBaremetalHostFieldsPlain();
    AddBaremetalHostFieldsDiffer();
    NamesDiffer(AddBaremetalHostFields);
    GeneratedSettersFeed(AddBaremetalHostParams, [4, 6, 7, 8, 9, 10]);
  }

  lemma DedicateHostParamsConsistent() ensures Consistent(DedicateHostParams) {
    DedicateHostFieldsPlain();
    DedicateHostFieldsDiffer();
    NamesDiffer(DedicateHostFields);
    GeneratedSettersFeed(DedicateHostParams, [1, 2]);
  }

  lemma ReleaseDedicatedHostParamsConsistent() ensures Consistent(ReleaseDedicatedHostParams) {
    GeneratedSettersFeed(ReleaseDedicatedHostParams, [0]);
  }

  lemma ListDedicatedHostsParamsConsistent() ensures Consistent(ListDedicatedHostsParams) {
    ListDedicatedHostsFieldsPlain();
    ListDedicatedHostsFieldsDiffer();
    NamesDiffer(ListDedicatedHostsFields);
    GeneratedSettersFeed(ListDedicatedHostsParams, []);
  }

  /** As written, ListHostsParams has a setter whose key the encoder does not whitelist. */
  lemma ListHostsAsWrittenHasUnlistedSetter()
    ensures SetTypeAsWritten in ListHostsParamsAsWritten.setters
    ensures "hostType" !in Names(ListHostsFields)
    ensures !SettersFeedEncoder(ListHostsParamsAsWritten)
  {
    assert ListHostsParamsAsWritten.setters[12] == SetTypeAsWritten;
    assert "hostType" !in Names(ListHostsFields);
  }

  /**
   * `ListHostsParams.SetType` as written is lost: the query encoded after it
   * is the query encoded before it, whatever type was set.
   */
  lemma SetTypeAsWrittenIsLost(bag: Bag, v: string, order: seq<string>)
    requires WellTyped(ListHostsParams, bag)
    requires OrderFits(Entries(bag), order)
    ensures OrderFits(Entries(ApplySetter(SetTypeAsWritten, bag, Str(v))), order)
    ensures ToURLValues(ListHostsParams, ApplySetter(SetTypeAsWritten, bag, Str(v)), order) ==
            ToURLValues(ListHostsParams, bag, order)
  {
    ListHostsParamsConsistent();
    assert "hostType" !in Names(ListHostsFields);
    UnlistedKeyIgnored(ListHostsParams, SetTypeAsWritten, bag, Str(v), order);
  }

  /** With the corrected key, the type filter reaches the query as given. */
  lemma SetTypeCorrectedIsSent(bag: Bag, v: string, order: seq<string>)
    requires WellTyped(ListHostsParams, bag)
    requires OrderFits(Entries(bag), order)
    ensures OrderFits(Entries(ApplySetter(SetTypeCorrected, bag, Str(v))), order)
    ensures var u := ToURLValues(ListHostsParams, ApplySetter(SetTypeCorrected, bag, Str(v)), order);
      "type" in u && u["type"] == v
  {
    ListHostsParamsConsistent();
    assert ListHostsFields[12].name == "type";
    assert Declares(ListHostsFields, "type", StringKind);
    ListedSetterEmitted(ListHostsParams, SetTypeCorrected, bag, Str(v), order);
  }

  /** `NewListHostsParams` gives an empty, non-nil bag, which encodes to the empty query. */
  lemma NewListHostsParamsEmpty()
    ensures NewParams(ListHostsParams, []) == Bag(map[])
    ensures ToURLValues(ListHostsParams, NewParams(ListHostsParams, []), []) == map[]
  {
    var b := NewParams(ListHostsParams, []);
    assert b.entries.Keys == {};
    ListHostsParamsConsistent();
    EmptyBagQuery(ListHostsParams);
  }

  /** The six calls with an async branch, and which of them skip the unwrap. */
  lemma AsyncBranches()
    ensures ReconnectHost.completion.AwaitUnwrap? && PrepareHostForMaintenance.completion.AwaitUnwrap?
    ensures CancelHostMaintenance.completion.AwaitUnwrap? && DedicateHost.completion.AwaitUnwrap?
    ensures ReleaseHostReservation.completion.AwaitRaw? && ReleaseDedicatedHost.completion.AwaitRaw?
  {
  }

  /** The two release calls give the same outcome whatever `getRawValue` would do. */
  lemma ReleaseCallsIgnoreUnwrap(cfg: AsyncJob.Config, bag: Bag, server: Dispatch.Server,
                                 poll: (string, int) -> AsyncJob.Poll,
                                 unwrap1: AsyncJob.Payload -> Result<AsyncJob.Payload, string>,
                                 unwrap2: AsyncJob.Payload -> Result<AsyncJob.Payload, string>,
                                 overlay: AsyncJob.Overlay)
    requires OrderFits(Entries(bag), [])
    ensures Dispatch.Invoke(cfg, ReleaseHostReservation, bag, [], server, poll, unwrap1, overlay) ==
            Dispatch.Invoke(cfg, ReleaseHostReservation, bag, [], server, poll, unwrap2, overlay)
    ensures Dispatch.Invoke(cfg, ReleaseDedicatedHost, bag, [], server, poll, unwrap1, overlay) ==
            Dispatch.Invoke(cfg, ReleaseDedicatedHost, bag, [], server, poll, unwrap2, overlay)
  {
  }

  // -------------------------------------------------------------------- lookups

  /** The `listHosts` call as the lookups use it: the outcome for each query. */
  type ListHostsCall = Query -> Lookup.ListOutcome

  /** The query a lookup sends: a fresh ListHostsParams bag holding one filter. */
  function FilterQuery(key: string, v: string): (q: Query)
    requires key == "name" || key == "id"
    ensures q == map[key := v]
  {
    ListHostsParamsConsistent();
    assert ListHostsFields[4].name == "id" && ListHostsFields[6].name == "name";
    assert Declares(ListHostsFields, key, StringKind);
    SingleEntryQuery(ListHostsParams, key, v);
    ToURLValues(ListHostsParams, Bag(map[key := Str(v)]), [])
  }

  /** `GetHostID`: lists hosts filtered by exactly this name and resolves the name. */
  function GetHostID(listHosts: ListHostsCall, name: string): (r: Result<string, Lookup.LookupError>)
    ensures r == Lookup.ResolveID(name, listHosts(map["name" := name]))
  {
    Lookup.ResolveID(name, listHosts(FilterQuery("name", name)))
  }

  /** `GetHostByID`: lists hosts filtered by exactly this ID and takes the single result. */
  function GetHostByID(listHosts: ListHostsCall, id: string): (r: Lookup.Fetched)
    ensures r == Lookup.FetchByID(listHosts(map["id" := id]))
  {
    Lookup.FetchByID(listHosts(FilterQuery("id", id)))
  }

  /** `GetHostByName`: count -1 when the name does not resolve, else exactly `GetHostByID`. */
  function GetHostByName(listHosts: ListHostsCall, name: string): (r: Lookup.Fetched)
    ensures GetHostID(listHosts, name).Failure? ==>
      r == Lookup.Fetched(None, -1, Some(GetHostID(listHosts, name).error))
    ensures GetHostID(listHosts, name).Success? ==>
      r == GetHostByID(listHosts, GetHostID(listHosts, name).value)
  {
    Lookup.FetchByName(name, listHosts(FilterQuery("name", name)), id => listHosts(FilterQuery("id", id)))
  }
}
