/** The strict-mode gate of internal/config/middleware.go: a request goes on
    only when its relationship name is one of the configured relationships. */
module StrictMode {
  import opened Models
  import opened Http

  /** The keys of a map as a list without repetitions, in an order the caller
      may not rely on (Go's map-key enumeration order is unspecified). */
  method Keys(a: map<string, string>) returns (k: seq<string>)
    ensures |k| == |a|
    ensures forall x :: x in k <==> x in a
    ensures forall i, j :: 0 <= i < j < |k| ==> k[i] != k[j]
  {
    k := [];
    var rest := a.Keys;
    while rest != {}
      invariant rest <= a.Keys
      invariant forall x :: x in k <==> x in a && x !in rest
      invariant forall i, j :: 0 <= i < j < |k| ==> k[i] != k[j]
      invariant |k| + |rest| == |a|
      decreases |rest|
    {
      var x :| x in rest;
      k := k + [x];
      rest := rest - {x};
    }
  }

  /** `StrictMW`: the relationship named in the request parameters is looked
      up among the keys of the configured relationships. A hit forwards the
      request untouched; a miss answers 400 and the next handler is skipped. */
  method StrictMW(relationships: map<string, string>, params: Relationship) returns (d: Decision)
    ensures d.CallNext? <==> params.relationship in relationships
    ensures d.CallNext? ==> d.params == params
    ensures d.Respond? ==> d.status == StatusBadRequest
    ensures relationships == map[] ==> d == Respond(StatusBadRequest)
  {
    var names := Keys(relationships);
    var valid := RelationshipInArray(params, names);
    if valid {
      d := CallNext(params);
    } else {
      d := Respond(StatusBadRequest);
    }
  }
}
