/**
 * The list-then-describe step some services run: every listed key is described in list
 * order, and the first failing description aborts the whole stream with its failure.
 */
module Pipelines {
  import opened AdminErrors

  /** `stream().map(f).toList()`. */
  function MapSeq<A, B>(s: seq<A>, f: A -> B): (r: seq<B>)
    ensures |r| == |s|
    ensures forall i :: 0 <= i < |s| ==> r[i] == f(s[i])
  {
    seq(|s|, i requires 0 <= i < |s| => f(s[i]))
  }

  function DescribeEach<K, V>(keys: seq<K>, describe: K -> Result<V>): (r: Result<seq<V>>)
    ensures r.Ok? <==> forall i :: 0 <= i < |keys| ==> describe(keys[i]).Ok?
    ensures r.Ok? ==> |r.value| == |keys| && forall i :: 0 <= i < |keys| ==> r.value[i] == describe(keys[i]).value
    ensures r.Err? ==>
      exists i :: 0 <= i < |keys| && describe(keys[i]) == Err(r.error) &&
        forall j :: 0 <= j < i ==> describe(keys[j]).Ok?
  {
    if keys == [] then Ok([])
    else
      match describe(keys[0])
      case Err(e) => Err(e)
      case Ok(v) =>
        var rest := DescribeEach(keys[1..], describe);
        assert forall i :: 1 <= i < |keys| ==> keys[1..][i - 1] == keys[i];
        if rest.Err? then
          var i :| 0 <= i < |keys[1..]| && describe(keys[1..][i]) == Err(rest.error) &&
            forall j :: 0 <= j < i ==> describe(keys[1..][j]).Ok?;
          assert describe(keys[i + 1]) == Err(rest.error);
          Err(rest.error)
        else
          Ok([v] + rest.value)
  }
}
