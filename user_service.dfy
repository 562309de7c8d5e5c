/** The user service: every user's SCRAM credentials, sorted by user name. */
module UserService {
  import opened AdminErrors
  import opened Domain
  import opened AdminPort
  import opened Ordering
  import opened Pipelines

  datatype ScramCredentialInfoResponse = ScramCredentialInfoResponse(
    mechanism: string,
    iterations: int)
  {
    function ToInfo(): ScramCredentialInfo
    {
      ScramCredentialInfo(mechanism, iterations)
    }
  }

  function InfoResponseFrom(i: ScramCredentialInfo): (r: ScramCredentialInfoResponse)
    ensures r.ToInfo() == i
  {
    ScramCredentialInfoResponse(i.mechanism, i.iterations)
  }

  datatype UserScramCredentialResponse = UserScramCredentialResponse(
    name: string,
    credentialInfos: seq<ScramCredentialInfoResponse>)
  {
    function ToCredential(): UserScramCredential
    {
      UserScramCredential(name,
        seq(|credentialInfos|, i requires 0 <= i < |credentialInfos| => credentialInfos[i].ToInfo()))
    }
  }

  /** The name is copied; the credential infos keep the port's order. */
  function CredentialResponseFrom(c: UserScramCredential): (r: UserScramCredentialResponse)
    ensures r.ToCredential() == c
  {
    var r := UserScramCredentialResponse(c.name, MapSeq(c.credentialInfos, InfoResponseFrom));
    assert r.ToCredential().credentialInfos == c.credentialInfos;
    r
  }

  function NameKey(c: UserScramCredentialResponse): SortKey { [Str(c.name)] }

  /** `listScramCredentials`. */
  function ListScramCredentials(p: Port): (r: Result<seq<UserScramCredentialResponse>>)
    ensures r.Ok? <==> p.describeUserScramCredentials.Ok?
    ensures r.Err? ==> r.error == p.describeUserScramCredentials.error
    ensures r.Ok? ==>
      var rows := MapSeq(p.describeUserScramCredentials.value, CredentialResponseFrom);
      multiset(r.value) == multiset(rows) && IsStableSortOf(r.value, rows, NameKey)
    ensures r.Ok? ==> forall i, j :: 0 <= i < j < |r.value| ==> StrLe(r.value[i].name, r.value[j].name)
    ensures r.Ok? ==> (r.value == [] <==> p.describeUserScramCredentials.value == [])
  {
    var credentials :- p.describeUserScramCredentials;
    var sorted := SortByKey(MapSeq(credentials, CredentialResponseFrom), NameKey);
    assert forall i, j :: 0 <= i < j < |sorted| ==> StrLe(sorted[i].name, sorted[j].name) by {
      forall i, j | 0 <= i < j < |sorted|
        ensures StrLe(sorted[i].name, sorted[j].name)
      {
        KeyLeOne(Str(sorted[i].name), Str(sorted[j].name));
      }
    }
    Ok(sorted)
  }
}
