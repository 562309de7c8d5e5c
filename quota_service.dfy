/**
 * The quota service: every client quota, sorted by entity type and then by entity name,
 * where a missing name compares as the empty string.
 */
module QuotaService {
  import opened AdminErrors
  import opened Domain
  import opened AdminPort
  import opened Ordering
  import opened Pipelines

  datatype ClientQuotaResponse = ClientQuotaResponse(
    entityType: string,
    entityName: Option<string>,
    quotas: map<string, real>)
  {
    function ToQuota(): ClientQuota
    {
      ClientQuota(entityType, entityName, quotas)
    }
  }

  function QuotaResponseFrom(q: ClientQuota): (r: ClientQuotaResponse)
    ensures r.ToQuota() == q
  {
    ClientQuotaResponse(q.entityType, q.entityName, q.quotas)
  }

  /** The name the comparator sees: a missing name is the empty string. */
  function SortName(q: ClientQuotaResponse): (s: string)
    ensures q.entityName.None? ==> s == []
    ensures q.entityName.Some? ==> s == q.entityName.value
  {
    match q.entityName
    case Some(name) => name
    case None => ""
  }

  function QuotaKey(q: ClientQuotaResponse): SortKey { [Str(q.entityType), Str(SortName(q))] }

  /** `listQuotas`. */
  function ListQuotas(p: Port): (r: Result<seq<ClientQuotaResponse>>)
    ensures r.Ok? <==> p.describeClientQuotas.Ok?
    ensures r.Err? ==> r.error == p.describeClientQuotas.error
    ensures r.Ok? ==>
      var rows := MapSeq(p.describeClientQuotas.value, QuotaResponseFrom);
      multiset(r.value) == multiset(rows) && IsStableSortOf(r.value, rows, QuotaKey)
    ensures r.Ok? ==> forall i, j :: 0 <= i < j < |r.value| ==>
      StrLt(r.value[i].entityType, r.value[j].entityType) ||
      (r.value[i].entityType == r.value[j].entityType && StrLe(SortName(r.value[i]), SortName(r.value[j])))
    ensures r.Ok? ==> (r.value == [] <==> p.describeClientQuotas.value == [])
  {
    var quotas :- p.describeClientQuotas;
    var sorted := SortByKey(MapSeq(quotas, QuotaResponseFrom), QuotaKey);
    assert forall i, j :: 0 <= i < j < |sorted| ==>
      StrLt(sorted[i].entityType, sorted[j].entityType) ||
      (sorted[i].entityType == sorted[j].entityType && StrLe(SortName(sorted[i]), SortName(sorted[j]))) by {
      forall i, j | 0 <= i < j < |sorted|
        ensures StrLt(sorted[i].entityType, sorted[j].entityType) ||
          (sorted[i].entityType == sorted[j].entityType && StrLe(SortName(sorted[i]), SortName(sorted[j])))
      {
        KeyLeTwo(Str(sorted[i].entityType), Str(SortName(sorted[i])), Str(sorted[j].entityType), Str(SortName(sorted[j])));
      }
    }
    Ok(sorted)
  }

  /**
   * Within one entity type, a quota without a name comes after nothing but other
   * quotas whose comparison name is empty: unnamed entries lead their type.
   */
  lemma UnnamedLeadsItsType(p: Port)
    requires ListQuotas(p).Ok?
    ensures var r := ListQuotas(p).value;
      forall i, j :: 0 <= i < j < |r| && r[i].entityType == r[j].entityType && r[j].entityName.None? ==>
        SortName(r[i]) == ""
  {
    var r := ListQuotas(p).value;
    forall i, j | 0 <= i < j < |r| && r[i].entityType == r[j].entityType && r[j].entityName.None?
      ensures SortName(r[i]) == ""
    {
      StrLtIrreflexive(r[i].entityType);
    }
  }
}
