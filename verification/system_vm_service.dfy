/**
 * The system VM API calls: their parameter types, their endpoints, and the
 * system VM lookups. Field lists follow the order of each `toURLValues` in
 * cloudstack/SystemVMService.go.
 */
module SystemVmService {
  import opened Wrappers
  import opened Params
  import Lookup
  import AsyncJob
  import Dispatch

  // ------------------------------------------------------------ parameter types

  const StartSystemVmParams: ParamsType := ParamsType("StartSystemVmParams", [S("id")], SettersOf([S("id")]), ["id"])

  const RebootSystemVmParams: ParamsType := ParamsType("RebootSystemVmParams", [S("id")], SettersOf([S("id")]), ["id"])

  const StopSystemVmFields: seq<Field> := [Field("forced", BoolKind), S("id")]

  const StopSystemVmParams: ParamsType :=
    ParamsType("StopSystemVmParams", StopSystemVmFields, SettersOf(StopSystemVmFields), ["id"])

  const DestroySystemVmParams: ParamsType :=
    ParamsType("DestroySystemVmParams", [S("id")], SettersOf([S("id")]), ["id"])

  const ListSystemVmsFields: seq<Field> := [
    S("hostid"), S("id"), S("keyword"), S("name"), Field("page", IntKind), Field("pagesize", IntKind),
    S("podid"), S("state"), S("storageid"), S("systemvmtype"), S("zoneid")]

  const ListSystemVmsParams: ParamsType :=
    ParamsType("ListSystemVmsParams", ListSystemVmsFields, SettersOf(ListSystemVmsFields), [])

  const MigrateSystemVmFields: seq<Field> := [S("hostid"), S("virtualmachineid")]

  const MigrateSystemVmParams: ParamsType := ParamsType("MigrateSystemVmParams",
    MigrateSystemVmFields, SettersOf(MigrateSystemVmFields), ["hostid", "virtualmachineid"])

  /** The fields of both service-offering changes: a details map, the VM and the new offering. */
  const OfferingFields: seq<Field> := [Field(DetailsName, MapKind), S("id"), S("serviceofferingid")]

  const ChangeServiceForSystemVmParams: ParamsType := ParamsType("ChangeServiceForSystemVmParams",
    OfferingFields, SettersOf(OfferingFields), ["id", "serviceofferingid"])

  const ScaleSystemVmParams: ParamsType := ParamsType("ScaleSystemVmParams",
    OfferingFields, SettersOf(OfferingFields), ["id", "serviceofferingid"])

  // ------------------------------------------------------------------ endpoints

  const StartSystemVm := Dispatch.Endpoint("startSystemVm", StartSystemVmParams, AsyncJob.AwaitUnwrap)
  const RebootSystemVm := Dispatch.Endpoint("rebootSystemVm", RebootSystemVmParams, AsyncJob.AwaitUnwrap)
  const StopSystemVm := Dispatch.Endpoint("stopSystemVm", StopSystemVmParams, AsyncJob.AwaitUnwrap)
  const DestroySystemVm := Dispatch.Endpoint("destroySystemVm", DestroySystemVmParams, AsyncJob.AwaitUnwrap)
  const ListSystemVms := Dispatch.Endpoint("listSystemVms", ListSystemVmsParams, AsyncJob.Sync)
  const MigrateSystemVm := Dispatch.Endpoint("migrateSystemVm", MigrateSystemVmParams, AsyncJob.AwaitUnwrap)
  const ChangeServiceForSystemVm :=
    Dispatch.Endpoint("changeServiceForSystemVm", ChangeServiceForSystemVmParams, AsyncJob.Sync)
  const ScaleSystemVm := Dispatch.Endpoint("scaleSystemVm", ScaleSystemVmParams, AsyncJob.AwaitUnwrap)

  // ------------------------------------------------------------- the catalogue

  // Facts about each literal field list, one quantifier per lemma so that
  // each list is unfolded once: every name is plain (maps only under
  // "details"), and any two names differ.

  lemma StopSystemVmFieldsPlain()
    ensures forall i :: 0 <= i < |StopSystemVmFields| ==>
      Plain(StopSystemVmFields[i].name) && (StopSystemVmFields[i].kind == MapKind ==> StopSystemVmFields[i].name == DetailsName)
  {
  }

  lemma ListSystemVmsFieldsPlain()
    ensures forall i :: 0 <= i < |ListSystemVmsFields| ==>
      Plain(ListSystemVmsFields[i].name) && (ListSystemVmsFields[i].kind == MapKind ==> ListSystemVmsFields[i].name == DetailsName)
  {
  }

  lemma MigrateSystemVmFieldsPlain()
    ensures forall i :: 0 <= i < |MigrateSystemVmFields| ==>
      Plain(MigrateSystemVmFields[i].name) && (MigrateSystemVmFields[i].kind == MapKind ==> MigrateSystemVmFields[i].name == DetailsName)
  {
  }

  lemma OfferingFieldsPlain()
    ensures forall i :: 0 <= i < |OfferingFields| ==>
      Plain(OfferingFields[i].name) && (OfferingFields[i].kind == MapKind ==> OfferingFields[i].name == DetailsName)
  {
  }

  lemma ListSystemVmsFieldsDiffer()
    ensures forall i, j :: 0 <= i < j < |ListSystemVmsFields| ==> ShapeDiffers(ListSystemVmsFields[i].name, ListSystemVmsFields[j].name)
  {
  }

  lemma OfferingFieldsDiffer()
    ensures forall i, j :: 0 <= i < j < |OfferingFields| ==> ShapeDiffers(OfferingFields[i].name, OfferingFields[j].name)
  {
  }

  lemma StartSystemVmParamsConsistent() ensures Consistent(StartSystemVmParams) {
    GeneratedSettersFeed(StartSystemVmParams, [0]);
  }

  lemma RebootSystemVmParamsConsistent() ensures Consistent(RebootSystemVmParams) {
    GeneratedSettersFeed(RebootSystemVmParams, [0]);
  }

  lemma StopSystemVmParamsConsistent() ensures Consistent(StopSystemVmParams) {
    StopSystemVmFieldsPlain();
    GeneratedSettersFeed(StopSystemVmParams, [1]);
  }

  lemma DestroySystemVmParamsConsistent() ensures Consistent(DestroySystemVmParams) {
    GeneratedSettersFeed(DestroySystemVmParams, [0]);
  }

  lemma ListSystemVmsParamsConsistent() ensures Consistent(ListSystemVmsParams) {
    ListSystemVmsFieldsPlain();
    ListSystemVmsFieldsDiffer();
    NamesDiffer(ListSystemVmsFields);
    GeneratedSettersFeed(ListSystemVmsParams, []);
  }

  lemma MigrateSystemVmParamsConsistent() ensures Consistent(MigrateSystemVmParams) {
    MigrateSystemVmFieldsPlain();
    GeneratedSettersFeed(MigrateSystemVmParams, [0, 1]);
  }

  lemma ChangeServiceForSystemVmParamsConsistent() ensures Consistent(ChangeServiceForSystemVmParams) {
    OfferingFieldsPlain();
    OfferingFieldsDiffer();
    NamesDiffer(OfferingFields);
    GeneratedSettersFeed(ChangeServiceForSystemVmParams, [1, 2]);
  }

  lemma ScaleSystemVmParamsConsistent() ensures Consistent(ScaleSystemVmParams) {
    OfferingFieldsPlain();
    OfferingFieldsDiffer();
    NamesDiffer(OfferingFields);
    GeneratedSettersFeed(ScaleSystemVmParams, [1, 2]);
  }

  // ------------------------------------------------------ service-offering calls

  /**
   * `NewChangeServiceForSystemVmParams(id, serviceofferingid)` encodes to
   * exactly the two given values under their own names.
   */
  lemma NewChangeServiceQuery(id: string, offering: string)
    ensures ToURLValues(ChangeServiceForSystemVmParams, NewParams(ChangeServiceForSystemVmParams, [id, offering]), []) ==
            map["id" := id, "serviceofferingid" := offering]
  {
    var pt := ChangeServiceForSystemVmParams;
    ChangeServiceForSystemVmParamsConsistent();
    NewParamsQuery(pt, [id, offering]);
    var u := ToURLValues(pt, NewParams(pt, [id, offering]), []);
    var r := pt.required;
    assert r[0] == "id" && r[1] == "serviceofferingid";
    assert forall k :: k in r <==> k == "id" || k == "serviceofferingid";
  }

  /**
   * The `details` map of a service-offering change is sent in full and
   * nothing else: its flattened names are exactly the 2n indexed names, and
   * reading them back yields the map that was set.
   */
  lemma ScaleDetailsRoundTrip(bag: Bag, order: seq<string>)
    requires WellTyped(ScaleSystemVmParams, bag)
    requires OrderFits(Entries(bag), order)
    requires DetailsName in Entries(bag)
    ensures Entries(bag)[DetailsName].Details?
    ensures var u := ToURLValues(ScaleSystemVmParams, bag, order);
      && (set k | k in u && !Plain(k)) == DetailNames(|Entries(bag)[DetailsName].m|)
      && ReadDetails(u) == Entries(bag)[DetailsName].m
  {
    ScaleSystemVmParamsConsistent();
    assert ScaleSystemVmParams.fields[0].name == DetailsName;
    DetailsRoundTrip(ScaleSystemVmParams, bag, order);
  }

  /**
   * Without `details` no indexed name is sent, and `id` and
   * `serviceofferingid` pass through unchanged exactly when they are set.
   */
  lemma ScaleWithoutDetails(bag: Bag, order: seq<string>)
    requires WellTyped(ScaleSystemVmParams, bag)
    requires OrderFits(Entries(bag), order)
    requires DetailsName !in Entries(bag)
    ensures var u := ToURLValues(ScaleSystemVmParams, bag, order);
      && (forall k :: k in u ==> Plain(k))
      && ("id" in u <==> "id" in Entries(bag))
      && ("id" in u ==> Entries(bag)["id"] == Str(u["id"]))
      && ("serviceofferingid" in u <==> "serviceofferingid" in Entries(bag))
      && ("serviceofferingid" in u ==> Entries(bag)["serviceofferingid"] == Str(u["serviceofferingid"]))
  {
    ScaleSystemVmParamsConsistent();
    EncoderWhitelist(ScaleSystemVmParams, bag, order);
    assert OfferingFields[1].name == "id" && OfferingFields[2].name == "serviceofferingid";
    assert Plain("id") && Plain("serviceofferingid");
    assert "id" in Names(OfferingFields) && "serviceofferingid" in Names(OfferingFields);
  }

  /** The same round trip for `changeServiceForSystemVm`, which shares the fields. */
  lemma ChangeServiceDetailsRoundTrip(bag: Bag, order: seq<string>)
    requires WellTyped(ChangeServiceForSystemVmParams, bag)
    requires OrderFits(Entries(bag), order)
    requires DetailsName in Entries(bag)
    ensures Entries(bag)[DetailsName].Details?
    ensures var u := ToURLValues(ChangeServiceForSystemVmParams, bag, order);
      && (set k | k in u && !Plain(k)) == DetailNames(|Entries(bag)[DetailsName].m|)
      && ReadDetails(u) == Entries(bag)[DetailsName].m
  {
    ScaleDetailsRoundTrip(bag, order);
  }

  /**
   * `changeServiceForSystemVm` has no async branch: its outcome does not
   * depend on the job poll or the unwrap, and it never returns the timeout
   * warning, even in asynchronous mode.
   */
  lemma ChangeServiceNeverPolls(cfg: AsyncJob.Config, bag: Bag, order: seq<string>, server: Dispatch.Server,
                                poll1: (string, int) -> AsyncJob.Poll, poll2: (string, int) -> AsyncJob.Poll,
                                unwrap1: AsyncJob.Payload -> Result<AsyncJob.Payload, string>,
                                unwrap2: AsyncJob.Payload -> Result<AsyncJob.Payload, string>,
                                overlay: AsyncJob.Overlay)
    requires OrderFits(Entries(bag), order)
    ensures Dispatch.Invoke(cfg, ChangeServiceForSystemVm, bag, order, server, poll1, unwrap1, overlay) ==
            Dispatch.Invoke(cfg, ChangeServiceForSystemVm, bag, order, server, poll2, unwrap2, overlay)
    ensures !Dispatch.Invoke(cfg, ChangeServiceForSystemVm, bag, order, server, poll1, unwrap1, overlay).Warned?
  {
    var q := ToURLValues(ChangeServiceForSystemVmParams, bag, order);
    AsyncJob.SyncIgnoresJob(cfg, server("changeServiceForSystemVm", q), poll1, poll2, unwrap1, unwrap2, overlay);
  }

  /** Every other mutating system VM call awaits and unwraps its job. */
  lemma AsyncBranches()
    ensures StartSystemVm.completion.AwaitUnwrap? && RebootSystemVm.completion.AwaitUnwrap?
    ensures StopSystemVm.completion.AwaitUnwrap? && DestroySystemVm.completion.AwaitUnwrap?
    ensures MigrateSystemVm.completion.AwaitUnwrap? && ScaleSystemVm.completion.AwaitUnwrap?
    ensures ChangeServiceForSystemVm.completion.Sync?
  {
  }

  /** `NewListSystemVmsParams` gives an empty, non-nil bag, which encodes to the empty query. */
  lemma NewListSystemVmsParamsEmpty()
    ensures NewParams(ListSystemVmsParams, []) == Bag(map[])
    ensures ToURLValues(ListSystemVmsParams, NewParams(ListSystemVmsParams, []), []) == map[]
  {
    var b := NewParams(ListSystemVmsParams, []);
    assert b.entries.Keys == {};
    ListSystemVmsParamsConsistent();
    EmptyBagQuery(ListSystemVmsParams);
  }

  // -------------------------------------------------------------------- lookups

  /** The `listSystemVms` call as the lookups use it: the outcome for each query. */
  type ListSystemVmsCall = Query -> Lookup.ListOutcome

  /** The query a lookup sends: a fresh ListSystemVmsParams bag holding one filter. */
  function FilterQuery(key: string, v: string): (q: Query)
    requires key == "name" || key == "id"
    ensures q == map[key := v]
  {
    ListSystemVmsParamsConsistent();
    assert ListSystemVmsFields[1].name == "id" && ListSystemVmsFields[3].name == "name";
    assert Declares(ListSystemVmsFields, key, StringKind);
    SingleEntryQuery(ListSystemVmsParams, key, v);
    ToURLValues(ListSystemVmsParams, Bag(map[key := Str(v)]), [])
  }

  /** `GetSystemVmID`: lists system VMs filtered by exactly this name and resolves the name. */
  function GetSystemVmID(listSystemVms: ListSystemVmsCall, name: string): (r: Result<string, Lookup.LookupError>)
    ensures r == Lookup.ResolveID(name, listSystemVms(map["name" := name]))
  {
    Lookup.ResolveID(name, listSystemVms(FilterQuery("name", name)))
  }

  /** `GetSystemVmByID`: lists system VMs filtered by exactly this ID and takes the single result. */
  function GetSystemVmByID(listSystemVms: ListSystemVmsCall, id: string): (r: Lookup.Fetched)
    ensures r == Lookup.FetchByID(listSystemVms(map["id" := id]))
  {
    Lookup.FetchByID(listSystemVms(FilterQuery("id", id)))
  }

  /** `GetSystemVmByName`: count -1 when the name does not resolve, else exactly `GetSystemVmByID`. */
  function GetSystemVmByName(listSystemVms: ListSystemVmsCall, name: string): (r: Lookup.Fetched)
    ensures GetSystemVmID(listSystemVms, name).Failure? ==>
      r == Lookup.Fetched(None, -1, Some(GetSystemVmID(listSystemVms, name).error))
    ensures GetSystemVmID(listSystemVms, name).Success? ==>
      r == GetSystemVmByID(listSystemVms, GetSystemVmID(listSystemVms, name).value)
  {
    Lookup.FetchByName(name, listSystemVms(FilterQuery("name", name)), id => listSystemVms(FilterQuery("id", id)))
  }
}
