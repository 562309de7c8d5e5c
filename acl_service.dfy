/** The ACL service: every binding, sorted by resource type, resource name and principal. */
module AclService {
  import opened AdminErrors
  import opened Domain
  import opened AdminPort
  import opened Ordering
  import opened Pipelines

  datatype AclResponse = AclResponse(
    resourceType: string,
    resourceName: string,
    patternType: string,
    principal: string,
    host: string,
    operation: string,
    permissionType: string)
  {
    function ToAcl(): Acl
    {
      Acl(resourceType, resourceName, patternType, principal, host, operation, permissionType)
    }
  }

  function AclResponseFrom(a: Acl): (r: AclResponse)
    ensures r.ToAcl() == a
  {
    AclResponse(a.resourceType, a.resourceName, a.patternType, a.principal, a.host, a.operation, a.permissionType)
  }

  function AclKey(a: AclResponse): SortKey { [Str(a.resourceType), Str(a.resourceName), Str(a.principal)] }

  /** `a` may come before `b`: the three-field comparison, field by field. */
  predicate AclOrdered(a: AclResponse, b: AclResponse)
  {
    StrLt(a.resourceType, b.resourceType) ||
    (a.resourceType == b.resourceType &&
      (StrLt(a.resourceName, b.resourceName) ||
       (a.resourceName == b.resourceName && StrLe(a.principal, b.principal))))
  }

  /** `listAcls`. */
  function ListAcls(p: Port): (r: Result<seq<AclResponse>>)
    ensures r.Ok? <==> p.describeAcls.Ok?
    ensures r.Err? ==> r.error == p.describeAcls.error
    ensures r.Ok? ==>
      var rows := MapSeq(p.describeAcls.value, AclResponseFrom);
      multiset(r.value) == multiset(rows) && IsStableSortOf(r.value, rows, AclKey)
    ensures r.Ok? ==> forall i, j :: 0 <= i < j < |r.value| ==> AclOrdered(r.value[i], r.value[j])
    ensures r.Ok? ==> (r.value == [] <==> p.describeAcls.value == [])
  {
    var acls :- p.describeAcls;
    var sorted := SortByKey(MapSeq(acls, AclResponseFrom), AclKey);
    assert forall i, j :: 0 <= i < j < |sorted| ==> AclOrdered(sorted[i], sorted[j]) by {
      forall i, j | 0 <= i < j < |sorted|
        ensures AclOrdered(sorted[i], sorted[j])
      {
        var a, b := sorted[i], sorted[j];
        KeyLeThree(Str(a.resourceType), Str(a.resourceName), Str(a.principal),
          Str(b.resourceType), Str(b.resourceName), Str(b.principal));
      }
    }
    Ok(sorted)
  }
}
