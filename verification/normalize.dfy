/** `normalizeRequestParams` of internal/app/tomolink/middleware.go: request
    parameters taken from the URL path variables and from the JSON body are
    merged, with the URL record as the merge receiver, and the request always
    goes on with the merged record in its context. */
module RequestParams {
  import opened Wrappers
  import opened Models
  import opened Http
  import MergeLaws

  /** A path variable, or "" when the route has no such variable (Go's
      zero value for a missing map key). */
  function Var(vars: map<string, string>, key: string): string {
    if key in vars then vars[key] else ""
  }

  /** The record projected from the path variables. Direction and delta
      never come from the URL; the emptiness guards of the source change
      nothing, since a missing variable reads as "". */
  function UrlParams(vars: map<string, string>): (p: Relationship)
    ensures p.direction == "" && p.delta == 0
    ensures p.uuidSource == Var(vars, "UUIDSource")
    ensures p.uuidTarget == Var(vars, "UUIDTarget")
    ensures p.relationship == Var(vars, "relationship")
  {
    if |vars| > 0 then
      var p0 := Empty.(uuidSource := Var(vars, "UUIDSource"));
      var p1 := if Var(vars, "UUIDTarget") != "" then p0.(uuidTarget := Var(vars, "UUIDTarget")) else p0;
      if Var(vars, "relationship") != "" then p1.(relationship := Var(vars, "relationship")) else p1
    else Empty
  }

  /** What the JSON decoder left in the body record, and the error it
      reported, if any. */
  datatype DecodedBody = DecodedBody(params: Relationship, err: Option<string>)

  const EmptyBodyMessage := "Request body is empty"

  /** The middleware's decision, and which of the two errors it logs. */
  datatype Normalized = Normalized(decision: Decision, decodeErrorLogged: bool, mergeErrorLogged: bool)

  /** `normalizeRequestParams`. An empty body is not an error; any other
      decode error and any merge conflict is only logged. */
  function NormalizeRequestParams(vars: map<string, string>, body: DecodedBody): (n: Normalized)
    ensures n.decision.CallNext?
    ensures n.decision.params == Merge(UrlParams(vars), body.params).merged  // the URL record is the receiver
    ensures n.decodeErrorLogged <==> body.err.Some? && body.err.value != EmptyBodyMessage
    ensures var url, b := UrlParams(vars), body.params;
      n.mergeErrorLogged <==>
        || (url.relationship != "" && b.relationship != "" && url.relationship != b.relationship)
        || (url.uuidSource != "" && b.uuidSource != "" && url.uuidSource != b.uuidSource)
        || (url.uuidTarget != "" && b.uuidTarget != "" && url.uuidTarget != b.uuidTarget)
    ensures n.decision.params.direction == body.params.direction
    ensures !n.mergeErrorLogged ==> n.decision.params.delta == body.params.delta
    ensures !n.mergeErrorLogged ==>
      forall f :: MergedField(UrlParams(vars), body.params, n.decision.params, f)
  {
    var url := UrlParams(vars);
    var merged := Merge(url, body.params);
    UrlMergeErrors(url, body.params);
    UrlMergeDirection(url, body.params);
    Normalized(
      CallNext(merged.merged),
      body.err.Some? && body.err.value != EmptyBodyMessage,
      merged.err.Some?)
  }

  /** With a receiver that has no direction and no delta, only the
      relationship name and the two UUIDs can conflict; without a conflict
      the delta comes from the body and every field follows `MergedField`. */
  lemma UrlMergeErrors(url: Relationship, b: Relationship)
    requires url.direction == "" && url.delta == 0
    ensures Merge(url, b).err.Some? <==>
        || (url.relationship != "" && b.relationship != "" && url.relationship != b.relationship)
        || (url.uuidSource != "" && b.uuidSource != "" && url.uuidSource != b.uuidSource)
        || (url.uuidTarget != "" && b.uuidTarget != "" && url.uuidTarget != b.uuidTarget)
    ensures Merge(url, b).err.None? ==> Merge(url, b).merged.delta == b.delta
    ensures Merge(url, b).err.None? ==> forall f :: MergedField(url, b, Merge(url, b).merged, f)
  {
    MergeLaws.MergeSucceedsIffNoConflict(url, b);
    assert !Conflicts(url, b, DirectionField) && !Conflicts(url, b, DeltaField);
    assert (|| Conflicts(url, b, RelationshipField)
            || Conflicts(url, b, SourceField)
            || Conflicts(url, b, TargetField)) ==> Merge(url, b).err.Some?;
    if Merge(url, b).err.None? {
      assert MergedField(url, b, Merge(url, b).merged, DeltaField);
    }
  }

  /** With a receiver that has no direction, the merged direction is the
      body's, whether or not a later field conflicts. */
  lemma UrlMergeDirection(url: Relationship, b: Relationship)
    requires url.direction == ""
    ensures Merge(url, b).merged.direction == b.direction
  {
    assert !Conflicts(url, b, DirectionField);
    MergeLaws.MergeFieldwiseBelow(url, b, 1);
    assert MergedField(url, b, Merge(url, b).merged, DirectionField);
  }

  /** A relationship name given both in the path and, identically, in the
      body is dropped by the merge, even when a later field conflicts: the
      request goes on with an empty relationship name. */
  lemma SameNameTwiceIsDropped(vars: map<string, string>, body: DecodedBody)
    requires Var(vars, "relationship") != "" && body.params.relationship == Var(vars, "relationship")
    ensures NormalizeRequestParams(vars, body).decision.params.relationship == ""
  {
  }
}
