/** The guards and request builders of account_trader.go. */
module AccountTrader {
  import opened Common
  import opened Account

  /** The widest cash-flow window accepted: seven days in milliseconds. */
  const MaxCashFlowWindow: int := 604800000

  /** `Reconcile` as written: the flag it is given is not used, and the
      request always asks for protection orders. */
  function ReconcileCall(accountId: int64, returnProtectionOrders: bool): (c: Call)
    ensures c.payloadType == ReconcileReq && c.request.ReconcileRequest?
    ensures c.request.accountId == accountId && c.request.returnProtectionOrders
  {
    Call(ReconcileReq, ReconcileRequest(accountId, true))
  }

  /** The caller's flag is lost: asking for no protection orders builds the
      same request as asking for them. */
  lemma ReconcileIgnoresFlag(accountId: int64)
    ensures ReconcileCall(accountId, false) == ReconcileCall(accountId, true)
    ensures ReconcileCall(accountId, false).request.returnProtectionOrders != false
  {
  }

  /** `Reconcile` as its documentation describes it: the flag is sent as given. */
  function ReconcileCallPassingFlag(accountId: int64, returnProtectionOrders: bool): (c: Call)
    ensures c.payloadType == ReconcileReq && c.request.ReconcileRequest?
    ensures c.request.accountId == accountId
    ensures c.request.returnProtectionOrders == returnProtectionOrders
  {
    Call(ReconcileReq, ReconcileRequest(accountId, returnProtectionOrders))
  }

  /** `DealList`: the start is sent when non-negative, the end when
      non-negative and after the start, the row limit when positive. */
  function DealListCall(accountId: int64, fromTimestamp: int64, toTimestamp: int64, maxRows: int32): (c: Call)
    ensures c.payloadType == DealListReq && c.request.DealListRequest?
    ensures c.request.accountId == accountId
    ensures SetExactlyWhen(c.request.fromTimestamp, fromTimestamp >= 0, fromTimestamp)
    ensures SetExactlyWhen(c.request.toTimestamp, toTimestamp >= 0 && toTimestamp > fromTimestamp, toTimestamp)
    ensures SetExactlyWhen(c.request.maxRows, maxRows > 0, maxRows)
  {
    var from := if fromTimestamp >= 0 then Some(fromTimestamp) else None;
    var to := if toTimestamp >= 0 && toTimestamp > fromTimestamp then Some(toTimestamp) else None;
    var rows := if maxRows > 0 then Some(maxRows) else None;
    Call(DealListReq, DealListRequest(accountId, from, to, rows))
  }

  /** `OrderList`: the same rule for the window as `DealList`; the request
      has no row limit. */
  function OrderListCall(accountId: int64, fromTimestamp: int64, toTimestamp: int64): (c: Call)
    ensures c.payloadType == OrderListReq && c.request.OrderListRequest?
    ensures c.request.accountId == accountId
    ensures SetExactlyWhen(c.request.fromTimestamp, fromTimestamp >= 0, fromTimestamp)
    ensures SetExactlyWhen(c.request.toTimestamp, toTimestamp >= 0 && toTimestamp > fromTimestamp, toTimestamp)
  {
    var from := if fromTimestamp >= 0 then Some(fromTimestamp) else None;
    var to := if toTimestamp >= 0 && toTimestamp > fromTimestamp then Some(toTimestamp) else None;
    Call(OrderListReq, OrderListRequest(accountId, from, to))
  }

  /** The window a deal or order list sends is never negative and never
      inverted, and the two lists send the same window for the same input. */
  lemma HistoryWindowWellFormed(accountId: int64, fromTimestamp: int64, toTimestamp: int64, maxRows: int32)
    ensures var d := DealListCall(accountId, fromTimestamp, toTimestamp, maxRows).request;
      var o := OrderListCall(accountId, fromTimestamp, toTimestamp).request;
      && d.fromTimestamp == o.fromTimestamp && d.toTimestamp == o.toTimestamp
      && (d.fromTimestamp.Some? ==> d.fromTimestamp.value >= 0)
      && (d.toTimestamp.Some? ==> d.toTimestamp.value >= 0)
      && (d.fromTimestamp.Some? && d.toTimestamp.Some? ==> d.fromTimestamp.value < d.toTimestamp.value)
  {
  }

  /** `ExpectedMargin`'s guard and request: a zero symbol id is refused
      before anything is sent; the volumes are sent only when there are some. */
  function ExpectedMarginCall(accountId: int64, symbolId: int64, volumes: seq<int64>): (r: Result<Call>)
    ensures r.Err? <==> symbolId == 0
    ensures r.Err? ==> r.error == SymbolIdRequired
    ensures r.Ok? ==>
      && r.value.payloadType == ExpectedMarginReq && r.value.request.ExpectedMarginRequest?
      && r.value.request.accountId == accountId && r.value.request.symbolId == symbolId
      && SetExactlyWhen(r.value.request.volume, |volumes| > 0, volumes)
  {
    if symbolId == 0 then Err(SymbolIdRequired)
    else
      var volume := if |volumes| > 0 then Some(volumes) else None;
      Ok(Call(ExpectedMarginReq, ExpectedMarginRequest(accountId, symbolId, volume)))
  }

  /** The guards of `CashFlowHistoryList`, in the order they are checked. */
  function CashFlowWindowCheck(fromTimestamp: int64, toTimestamp: int64): (r: Option<Error>)
    ensures fromTimestamp <= 0 ==> r == Some(FromTimestampRequired)
    ensures fromTimestamp > 0 && toTimestamp <= 0 ==> r == Some(ToTimestampRequired)
    ensures fromTimestamp > 0 && toTimestamp > 0 && !(0 < toTimestamp - fromTimestamp <= MaxCashFlowWindow) ==>
      r == Some(TimestampRange)
    ensures r.None? <==> fromTimestamp > 0 && 0 < toTimestamp - fromTimestamp <= MaxCashFlowWindow
  {
    if fromTimestamp <= 0 then Some(FromTimestampRequired)
    else if toTimestamp <= 0 then Some(ToTimestampRequired)
    // `toTimestamp - fromTimestamp` is only computed once `toTimestamp > fromTimestamp > 0`,
    // so it cannot overflow int64.
    else if toTimestamp <= fromTimestamp || toTimestamp - fromTimestamp > MaxCashFlowWindow then Some(TimestampRange)
    else None
  }

  /** `CashFlowHistoryList` as written: after the guards, the request carries
      the account id only, not the window it has just checked. */
  function CashFlowHistoryListCall(accountId: int64, fromTimestamp: int64, toTimestamp: int64): (r: Result<Call>)
    ensures r.Err? <==> CashFlowWindowCheck(fromTimestamp, toTimestamp).Some?
    ensures r.Err? ==> Some(r.error) == CashFlowWindowCheck(fromTimestamp, toTimestamp)
    ensures r.Ok? ==> r.value == Call(CashFlowHistoryListReq, CashFlowHistoryListRequest(accountId))
  {
    match CashFlowWindowCheck(fromTimestamp, toTimestamp)
    case Some(e) => Err(e)
    case None => Ok(Call(CashFlowHistoryListReq, CashFlowHistoryListRequest(accountId)))
  }

  /** Two different accepted windows build the same request: the window
      checked never reaches the server. */
  lemma CashFlowWindowDropped(accountId: int64)
    ensures CashFlowHistoryListCall(accountId, 1, 2).Ok?
    ensures CashFlowHistoryListCall(accountId, 1, 2) == CashFlowHistoryListCall(accountId, 1000, 2000)
  {
  }

  /** `CashFlowHistoryList` with the checked window sent along. */
  function CashFlowHistoryListCallWithWindow(accountId: int64, fromTimestamp: int64, toTimestamp: int64): (r: Result<Call>)
    ensures r.Err? <==> CashFlowWindowCheck(fromTimestamp, toTimestamp).Some?
    ensures r.Err? ==> Some(r.error) == CashFlowWindowCheck(fromTimestamp, toTimestamp)
    ensures r.Ok? ==>
      && r.value.payloadType == CashFlowHistoryListReq
      && r.value.request == CashFlowHistoryWindowRequest(accountId, fromTimestamp, toTimestamp)
      && 0 < r.value.request.windowFrom < r.value.request.windowTo
      && r.value.request.windowTo - r.value.request.windowFrom <= MaxCashFlowWindow
  {
    match CashFlowWindowCheck(fromTimestamp, toTimestamp)
    case Some(e) => Err(e)
    case None => Ok(Call(CashFlowHistoryListReq, CashFlowHistoryWindowRequest(accountId, fromTimestamp, toTimestamp)))
  }
}
