/** What the account wrappers (account.go and its neighbours) share: the
    request records they build, the payload types they send them under, and
    the common tail "call `SendRequest`, pass its error on, else unmarshal
    the reply's payload". `SendRequest` is an abstract recorded call: each
    wrapper yields the calls it made and the result it returned. */
module Account {
  import opened Common
  import Correlation

  /** The members of `openapi.ProtoOAPayloadType` the wrappers send under.
      Their numeric values live in the generated `openapi` package, which is
      not part of this model. */
  datatype PayloadType =
    | ReconcileReq
    | DealListReq
    | OrderListReq
    | ExpectedMarginReq
    | CashFlowHistoryListReq
    | SymbolsListReq
    | SymbolByIdReq
    | SymbolsForConversionReq

  /** The request messages, with unset optional fields as `None`. */
  datatype Request =
    | ReconcileRequest(accountId: int64, returnProtectionOrders: bool)
    | DealListRequest(accountId: int64, fromTimestamp: Option<int64>, toTimestamp: Option<int64>,
                      maxRows: Option<int32>)
    | OrderListRequest(accountId: int64, fromTimestamp: Option<int64>, toTimestamp: Option<int64>)
    | ExpectedMarginRequest(accountId: int64, symbolId: int64, volume: Option<seq<int64>>)
    | CashFlowHistoryListRequest(accountId: int64)
    | CashFlowHistoryWindowRequest(accountId: int64, windowFrom: int64, windowTo: int64)
    | SymbolsListRequest(accountId: int64, includeArchivedSymbols: bool)
    | SymbolByIdRequest(accountId: int64, symbolIds: seq<int64>)
    | SymbolsForConversionRequest(accountId: int64, firstAssetId: int64, lastAssetId: int64)

  /** One `SendRequest(ctx, payloadType, request)`. */
  datatype Call = Call(payloadType: PayloadType, request: Request)

  /** The calls a wrapper made and what it returned. */
  datatype Exchange<R> = Exchange(calls: seq<Call>, result: Result<R>)

  /** An optional field that is set exactly when `condition` holds, and
      then to `value`. */
  predicate SetExactlyWhen<T(==)>(field: Option<T>, condition: bool, value: T) {
    (field.Some? <==> condition) && (field.Some? ==> field.value == value)
  }

  /** A wrapper run end to end: `planned` is its guard's verdict (the call
      to make, or the guard's error), `response` what `SendRequest` returned
      and `unmarshal` the reply's `proto.Unmarshal`. A guard error sends
      nothing; a `SendRequest` error is returned unchanged and nothing is
      decoded. */
  function Perform<R>(planned: Result<Call>, response: Result<Correlation.Envelope>,
                      unmarshal: Bytes -> Option<R>): (x: Exchange<R>)
    ensures planned.Err? ==> x.calls == [] && x.result == Err(planned.error)
    ensures planned.Ok? ==> x.calls == [planned.value]
    ensures planned.Ok? && response.Err? ==> x.result == Err(response.error)
    ensures planned.Ok? && response.Ok? && unmarshal(response.value.payload).None? ==>
      x.result == Err(UnmarshalFailed)
    ensures x.result.Ok? <==>
      planned.Ok? && response.Ok? && unmarshal(response.value.payload).Some?
    ensures x.result.Ok? ==> Some(x.result.value) == unmarshal(response.value.payload)
  {
    match planned
    case Err(e) => Exchange([], Err(e))
    case Ok(call) =>
      match response
      case Err(e) => Exchange([call], Err(e))
      case Ok(reply) =>
        match unmarshal(reply.payload)
        case None => Exchange([call], Err(UnmarshalFailed))
        case Some(res) => Exchange([call], Ok(res))
  }
}
