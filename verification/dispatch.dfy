/**
 * One API call end to end: encode the parameter bag, send the command with
 * that query, decode the reply, then take the call's completion branch.
 * The server is an input giving the raw reply (or the request error) for a
 * command name and query.
 */
module Dispatch {
  import opened Wrappers
  import Params
  import AsyncJob

  /** An API call: its command name, its parameter type and how it treats its job. */
  datatype Endpoint = Endpoint(command: string, params: Params.ParamsType, completion: AsyncJob.Completion)

  type Server = (string, Params.Query) -> Result<AsyncJob.Payload, string>

  /** The call `ep` made with `bag`; `order` is the iteration order of its `details` map. */
  function Invoke(cfg: AsyncJob.Config, ep: Endpoint, bag: Params.Bag, order: seq<string>,
                  server: Server, poll: (string, int) -> AsyncJob.Poll,
                  unwrap: AsyncJob.Payload -> Result<AsyncJob.Payload, string>,
                  overlay: AsyncJob.Overlay): (out: AsyncJob.CallResult)
    requires Params.OrderFits(Params.Entries(bag), order)
    ensures ep.completion.Sync? ==> !out.Warned?
    ensures out.Warned? ==> cfg.async
    ensures bag.Nil? ==>
      out == AsyncJob.Call(cfg, ep.completion, server(ep.command, map[]), poll, unwrap, overlay)
  {
    var query := Params.ToURLValues(ep.params, bag, order);
    AsyncJob.Call(cfg, ep.completion, server(ep.command, query), poll, unwrap, overlay)
  }
}
