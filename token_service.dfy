/** The token service: every delegation token, sorted by token id. */
module TokenService {
  import opened AdminErrors
  import opened Domain
  import opened AdminPort
  import opened Ordering
  import opened Pipelines

  datatype DelegationTokenResponse = DelegationTokenResponse(
    tokenId: string,
    owner: string,
    tokenRequester: string,
    renewers: seq<string>,
    issueTimestamp: int,
    expiryTimestamp: int,
    maxTimestamp: int)
  {
    function ToToken(): DelegationToken
    {
      DelegationToken(tokenId, owner, tokenRequester, renewers, issueTimestamp, expiryTimestamp, maxTimestamp)
    }
  }

  function TokenResponseFrom(t: DelegationToken): (r: DelegationTokenResponse)
    ensures r.ToToken() == t
  {
    DelegationTokenResponse(t.tokenId, t.owner, t.tokenRequester, t.renewers,
      t.issueTimestamp, t.expiryTimestamp, t.maxTimestamp)
  }

  function TokenKey(t: DelegationTokenResponse): SortKey { [Str(t.tokenId)] }

  /** `listTokens`. */
  function ListTokens(p: Port): (r: Result<seq<DelegationTokenResponse>>)
    ensures r.Ok? <==> p.describeDelegationTokens.Ok?
    ensures r.Err? ==> r.error == p.describeDelegationTokens.error
    ensures r.Ok? ==>
      var rows := MapSeq(p.describeDelegationTokens.value, TokenResponseFrom);
      multiset(r.value) == multiset(rows) && IsStableSortOf(r.value, rows, TokenKey)
    ensures r.Ok? ==> forall i, j :: 0 <= i < j < |r.value| ==> StrLe(r.value[i].tokenId, r.value[j].tokenId)
    ensures r.Ok? ==> (r.value == [] <==> p.describeDelegationTokens.value == [])
  {
    var tokens :- p.describeDelegationTokens;
    var sorted := SortByKey(MapSeq(tokens, TokenResponseFrom), TokenKey);
    assert forall i, j :: 0 <= i < j < |sorted| ==> StrLe(sorted[i].tokenId, sorted[j].tokenId) by {
      forall i, j | 0 <= i < j < |sorted|
        ensures StrLe(sorted[i].tokenId, sorted[j].tokenId)
      {
        KeyLeOne(Str(sorted[i].tokenId), Str(sorted[j].tokenId));
      }
    }
    Ok(sorted)
  }
}
