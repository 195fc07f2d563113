/**
 * `NullifyingServiceClientDecorator`: a client adapter that replaces every record whose
 * `Id` is null by the absent value, so that later code never sees an Id-less record.
 */
module Nullifying {
  import opened Wrappers
  import opened Text
  import opened Records
  import opened Service

  /** A response a caller may rely on: absent, an exception, or a record that has an `Id`. */
  predicate Normalized(r: Response)
  {
    r.Success? && r.value != null ==> r.value.id.Some?
  }

  /**
   * `Query` exactly as written: it dereferences `result.Id` unconditionally, so an inner
   * client answering `null` makes it throw a null-reference exception.
   */
  function QueryAsWritten(inner: Responses, id: Str): (r: Response)
    ensures id.None? ==> r == Failure(ArgumentNull("id"))
    ensures id.Some? && inner(id).Failure? ==> r == inner(id)
    ensures id.Some? && inner(id) == Success(null) ==> r == Failure(NullReference)
    ensures id.Some? && inner(id).Success? && inner(id).value != null ==>
              r == if inner(id).value.id.Some? then inner(id) else Success(null)
  {
    if id.None? then Failure(ArgumentNull("id"))
    else
      match inner(id)
      case Failure(e) => Failure(e)
      case Success(result) =>
        if result == null then Failure(NullReference)
        else if result.id.Some? then Success(result) else Success(null)
  }

  /** `Query` as intended: an absent inner answer stays absent instead of throwing. */
  function Query(inner: Responses, id: Str): (r: Response)
    ensures Normalized(r)
    ensures id.None? ==> r == Failure(ArgumentNull("id"))
    ensures id.Some? && inner(id).Failure? ==> r == inner(id)
    ensures id.Some? && inner(id).Success? ==>
              r == if inner(id).value != null && inner(id).value.id.Some? then inner(id) else Success(null)
  {
    if id.None? then Failure(ArgumentNull("id"))
    else
      match inner(id)
      case Failure(e) => Failure(e)
      case Success(result) =>
        if result != null && result.id.Some? then Success(result) else Success(null)
  }

  /** The decorated client, itself a client. */
  function Decorate(inner: Responses): Responses
  {
    id => Query(inner, id)
  }

  /** The constructor: a null client is refused. */
  function Construct(client: Option<Responses>): (r: Result<Responses, Error>)
    ensures client.None? ==> r == Failure(ArgumentNull("client"))
    ensures client.Some? ==> r.Success? && forall id :: r.value(id) == Query(client.value, id)
  {
    match client
    case None => Failure(ArgumentNull("client"))
    case Some(c) => Success(Decorate(c))
  }

  /** Every answer of a decorated client is normalized, whatever the inner client does. */
  lemma DecoratedAnswersNormalized(inner: Responses, id: Str)
    ensures Normalized(Decorate(inner)(id))
    ensures id.Some? ==> (Decorate(inner)(id).Success? <==> inner(id).Success?)
  {
  }

  /** Decorating an already decorated client changes none of its answers. */
  lemma DecorateIdempotent(inner: Responses, id: Str)
    ensures Query(Decorate(inner), id) == Query(inner, id)
  {
  }

  /** Outside an absent inner answer, the code as written and the intended behaviour coincide. */
  lemma QueryAsWrittenAgrees(inner: Responses, id: Str)
    requires inner(id) != Success(null)
    ensures QueryAsWritten(inner, id) == Query(inner, id)
  {
  }

  /**
   * Counterexample: an inner client whose record has no `Id`. One decorator as written
   * answers `null`; a second decorator as written around the first throws.
   */
  lemma DoubleDecorationAsWrittenThrows(record: Metadata)
    requires record.id.None?
    ensures
      var inner: Responses := id => Success(record);
      var once: Responses := id => QueryAsWritten(inner, id);
      && QueryAsWritten(inner, Some("data/XX")) == Success(null)
      && QueryAsWritten(once, Some("data/XX")) == Failure(NullReference)
      && Query(Decorate(inner), Some("data/XX")) == Success(null)
  {
  }
}
