/**
 * The "courtesy helper" lookups that resolve a name to an ID and fetch one
 * resource by ID or by name, written once for hosts and system VMs.
 *
 * The list call they make is an input: its outcome is either a failure
 * (request or decode error) or the decoded response, whose server-reported
 * `count` need not equal the number of items returned.
 */
module Lookup {
  import opened Wrappers

  /** A listed host or system VM, reduced to the two fields the lookups read. */
  datatype Resource = Resource(id: string, name: string)

  /** The decoded list response: `count` and the item array, as sent by the server. */
  datatype ListResponse = ListResponse(count: int, items: seq<Resource>)

  /** Outcome of a list call: the response, or the request/decode error text. */
  type ListOutcome = Result<ListResponse, string>

  datatype LookupError =
    | ListFailed(cause: string)   // the list call itself failed
    | NoMatch                     // "No match found for ..."
    | NoExactMatch                // "Could not find an exact match for ..."
    | MoreThanOne                 // "There is more then one result for ... UUID"
    | IndexOutOfRange             // count 1 with an empty item array: Go indexes [0] and panics

  /** What `Get...ByID` and `Get...ByName` return: the item, the count, and the error. */
  datatype Fetched = Fetched(item: Option<Resource>, count: int, err: Option<LookupError>)

  /** Index of the first item, in list order, whose name equals `name` exactly. */
  function FirstNamed(items: seq<Resource>, name: string): (r: Option<nat>)
    ensures r.Some? ==> r.value < |items| && items[r.value].name == name
    ensures r.Some? ==> forall j :: 0 <= j < r.value ==> items[j].name != name
    ensures r.None? ==> forall j :: 0 <= j < |items| ==> items[j].name != name
  {
    if |items| == 0 then None
    else if items[0].name == name then Some(0)
    else match FirstNamed(items[1..], name)
      case None => None
      case Some(i) => Some(i + 1)
  }

  /** `Get...ID`: resolves a name against the response of a list-by-name call. */
  function ResolveID(name: string, l: ListOutcome): (r: Result<string, LookupError>)
    ensures l.Failure? ==> r == Failure(ListFailed(l.error))
    ensures l.Success? && l.value.count == 0 ==> r == Failure(NoMatch)
    ensures l.Success? && l.value.count == 1 && |l.value.items| >= 1 ==> r == Success(l.value.items[0].id)
    ensures l.Success? && l.value.count == 1 && |l.value.items| == 0 ==> r == Failure(IndexOutOfRange)
    ensures l.Success? && l.value.count > 1 ==>
      (r.Success? <==> exists i :: 0 <= i < |l.value.items| && l.value.items[i].name == name)
    ensures l.Success? && l.value.count > 1 && r.Success? ==>
      exists i :: 0 <= i < |l.value.items| && l.value.items[i].name == name && r.value == l.value.items[i].id
        && forall j :: 0 <= j < i ==> l.value.items[j].name != name
    ensures l.Success? && l.value.count > 1 && r.Failure? ==> r.error == NoExactMatch
    ensures l.Success? && l.value.count < 0 ==> r == Failure(NoExactMatch)
  {
    match l
    case Failure(e) => Failure(ListFailed(e))
    case Success(resp) =>
      if resp.count == 0 then Failure(NoMatch)
      else if resp.count == 1 then
        (if |resp.items| == 0 then Failure(IndexOutOfRange) else Success(resp.items[0].id))
      else if resp.count > 1 then
        match FirstNamed(resp.items, name)
        case Some(i) => Success(resp.items[i].id)
        case None => Failure(NoExactMatch)
      else Failure(NoExactMatch)
  }

  /** With a count of exactly one, the single item is taken whatever its name. */
  lemma SingleResultIgnoresName(a: string, b: string, l: ListOutcome)
    requires l.Success? && l.value.count == 1
    ensures ResolveID(a, l) == ResolveID(b, l)
  {
  }

  /** Only the three shapes of response with at least one fitting item ever resolve. */
  lemma ResolvedIdComesFromList(name: string, l: ListOutcome)
    requires ResolveID(name, l).Success?
    ensures l.Success? && l.value.count >= 1
    ensures exists i :: 0 <= i < |l.value.items| && l.value.items[i].id == ResolveID(name, l).value
  {
    var resp := l.value;
    if resp.count == 1 {
      assert resp.items[0].id == ResolveID(name, l).value;
    }
  }

  /** `Get...ByID`: succeeds exactly when the list-by-id call reports a count of one. */
  function FetchByID(l: ListOutcome): (r: Fetched)
    ensures r.item.Some? <==> r.err.None?
    ensures r.err.None? ==> l.Success? && l.value.count == 1 && |l.value.items| >= 1 && r.item.value == l.value.items[0]
    ensures l.Success? && l.value.count == 1 && |l.value.items| >= 1 ==> r.err.None?
    ensures l.Failure? ==> r.count == -1 && r.err == Some(ListFailed(l.error))
    ensures l.Success? ==> r.count == l.value.count
    ensures l.Success? && l.value.count == 0 ==> r.err == Some(NoMatch)
    ensures l.Success? && l.value.count != 0 && l.value.count != 1 ==> r.err == Some(MoreThanOne)
  {
    match l
    case Failure(e) => Fetched(None, -1, Some(ListFailed(e)))
    case Success(resp) =>
      if resp.count == 0 then Fetched(None, resp.count, Some(NoMatch))
      else if resp.count == 1 then
        (if |resp.items| == 0 then Fetched(None, resp.count, Some(IndexOutOfRange))
         else Fetched(Some(resp.items[0]), resp.count, None))
      else Fetched(None, resp.count, Some(MoreThanOne))
  }

  /**
   * `Get...ByName`: resolves the name with the first list call, then fetches
   * the resolved ID with a second list call, whose outcome `byId` gives for
   * each ID.
   */
  function FetchByName(name: string, byName: ListOutcome, byId: string -> ListOutcome): (r: Fetched)
    ensures ResolveID(name, byName).Failure? ==>
      r == Fetched(None, -1, Some(ResolveID(name, byName).error))
    ensures ResolveID(name, byName).Success? ==>
      r == FetchByID(byId(ResolveID(name, byName).value))
  {
    match ResolveID(name, byName)
    case Failure(e) => Fetched(None, -1, Some(e))
    case Success(id) =>
      var f := FetchByID(byId(id));
      if f.err.Some? then Fetched(None, f.count, f.err) else Fetched(f.item, f.count, None)
  }

  /** A successful fetch by name always reports a count of exactly one. */
  lemma FetchByNameFoundCountsOne(name: string, byName: ListOutcome, byId: string -> ListOutcome)
    ensures FetchByName(name, byName, byId).err.None? ==> FetchByName(name, byName, byId).count == 1
    ensures FetchByName(name, byName, byId).count == -1 ==>
      FetchByName(name, byName, byId).err.Some?
  {
  }
}
