/** The guards and request builders of account_symbol.go. */
module AccountSymbol {
  import opened Common
  import opened Account
  import Correlation

  /** `SymbolList`: the archive flag is passed through unchanged. */
  function SymbolListCall(accountId: int64, includeArchivedSymbols: bool): (c: Call)
    ensures c.payloadType == SymbolsListReq && c.request.SymbolsListRequest?
    ensures c.request.accountId == accountId
    ensures c.request.includeArchivedSymbols == includeArchivedSymbols
  {
    Call(SymbolsListReq, SymbolsListRequest(accountId, includeArchivedSymbols))
  }

  /** `SymbolById`: an empty id list is refused before anything is sent;
      otherwise the list is sent unchanged. */
  function SymbolByIdCall(accountId: int64, symbolIds: seq<int64>): (r: Result<Call>)
    ensures r.Err? <==> |symbolIds| == 0
    ensures r.Err? ==> r.error == SymbolIdRequired
    ensures r.Ok? ==> r.value == Call(SymbolByIdReq, SymbolByIdRequest(accountId, symbolIds))
  {
    if |symbolIds| == 0 then Err(SymbolIdRequired)
    else Ok(Call(SymbolByIdReq, SymbolByIdRequest(accountId, symbolIds)))
  }

  /** `SymbolsForConversion`: both asset ids are required (non-zero) and
      are then sent exactly as given. */
  function SymbolsForConversionCall(accountId: int64, firstAssetId: int64, lastAssetId: int64): (r: Result<Call>)
    ensures r.Err? <==> firstAssetId == 0 || lastAssetId == 0
    ensures r.Err? ==> r.error == AssetIdRequired
    ensures r.Ok? ==>
      r.value == Call(SymbolsForConversionReq, SymbolsForConversionRequest(accountId, firstAssetId, lastAssetId))
  {
    if firstAssetId == 0 || lastAssetId == 0 then Err(AssetIdRequired)
    else Ok(Call(SymbolsForConversionReq, SymbolsForConversionRequest(accountId, firstAssetId, lastAssetId)))
  }

  /** A refused lookup makes no call at all, whatever `SendRequest` would
      have answered; an accepted one makes exactly one. */
  lemma SymbolGuardsSendNothing<R>(accountId: int64, symbolIds: seq<int64>, firstAssetId: int64, lastAssetId: int64,
                                   response: Result<Correlation.Envelope>, unmarshal: Bytes -> Option<R>)
    ensures |Perform(SymbolByIdCall(accountId, symbolIds), response, unmarshal).calls| ==
      if |symbolIds| == 0 then 0 else 1
    ensures |Perform(SymbolsForConversionCall(accountId, firstAssetId, lastAssetId), response, unmarshal).calls| ==
      if firstAssetId == 0 || lastAssetId == 0 then 0 else 1
  {
  }
}
