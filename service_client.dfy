/**
 * The data service client (`IServiceClient`). Its transport is not part of this model:
 * a client is given by the response it produces for each identifier, and records the
 * identifiers it was asked for.
 */
module Service {
  import opened Wrappers
  import opened Text
  import opened Records

  /** What one query yields: a record, `null` for nothing, or the client's exception. */
  type Response = Result<Metadata?, Error>

  /** The answers of a client, identifier by identifier. */
  type Responses = Str -> Response

  class ServiceClient {
    /** The answer the data service gives for each identifier. */
    const responses: Responses
    /** The records the data service can hand out, all existing before the client. */
    ghost const records: set<Metadata>
    /** The identifiers queried so far, in order. */
    ghost var log: seq<Str>

    /** Every record in an answer is one of `records`. */
    ghost predicate Valid()
    {
      forall id :: responses(id).Success? && responses(id).value != null ==> responses(id).value in records
    }

    constructor (responses: Responses, ghost records: set<Metadata>)
      requires forall id :: responses(id).Success? && responses(id).value != null ==> responses(id).value in records
      ensures this.responses == responses && this.records == records && log == []
      ensures Valid()
    {
      this.responses := responses;
      this.records := records;
      log := [];
    }

    /** `Query<T>(id)`: one round trip to the data service. */
    method Query(id: Str) returns (r: Response)
      modifies this
      ensures r == responses(id)
      ensures log == old(log) + [id]
    {
      r := responses(id);
      log := log + [id];
    }

    /** The record a query at `id` hands out, if any: the only object a caller may then change. */
    ghost function Fetched(id: Str): set<object>
    {
      var r := responses(id);
      if r.Success? && r.value != null then {r.value} else {}
    }
  }
}
