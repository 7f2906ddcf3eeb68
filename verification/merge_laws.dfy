/** Properties of `Models.Merge` stated against the field-wise reference
    predicates `Conflicts` and `MergedField`. */
module MergeLaws {
  import opened Wrappers
  import opened Models

  /** When no field before position `n` conflicts, those fields are merged as
      promised. */
  lemma {:induction false} MergeFieldwiseBelow(a: Relationship, b: Relationship, n: nat)
    requires forall g :: Position(g) < n ==> !Conflicts(a, b, g)
    ensures forall g :: Position(g) < n ==> MergedField(a, b, Merge(a, b).merged, g)
  {
    var m := Merge(a, b).merged;
    forall g | Position(g) < n
      ensures MergedField(a, b, m, g)
    {
      assert Position(DirectionField) < n;
      assert !MergeText(a.direction, b.direction).Clash?;
      match g
      case DirectionField =>
      case RelationshipField =>
      case DeltaField =>
        assert Position(RelationshipField) < n;
        assert !MergeText(a.relationship, b.relationship).Clash?;
      case SourceField =>
        assert Position(RelationshipField) < n && Position(DeltaField) < n;
        assert !MergeText(a.relationship, b.relationship).Clash?;
        assert !MergeNumber(a.delta, b.delta).Clash?;
      case TargetField =>
        assert Position(RelationshipField) < n && Position(DeltaField) < n;
        assert Position(SourceField) < n;
        assert !MergeText(a.relationship, b.relationship).Clash?;
        assert !MergeNumber(a.delta, b.delta).Clash?;
        assert !MergeText(a.uuidSource, b.uuidSource).Clash?;
    }
  }

  /** The merge reports an error exactly when some field holds two different
      non-empty values; when it succeeds every field follows `MergedField`. */
  lemma {:induction false} MergeSucceedsIffNoConflict(a: Relationship, b: Relationship)
    ensures Merge(a, b).err.None? <==> forall f :: !Conflicts(a, b, f)
    ensures Merge(a, b).err.Some? ==> Merge(a, b).err.value == ConflictMessage
    ensures Merge(a, b).err.None? ==> forall f :: MergedField(a, b, Merge(a, b).merged, f)
  {
    if forall f :: !Conflicts(a, b, f) {
      MergeFieldwiseBelow(a, b, 5);
      assert !Conflicts(a, b, DirectionField) && !Conflicts(a, b, RelationshipField);
      assert !Conflicts(a, b, DeltaField) && !Conflicts(a, b, SourceField);
      assert !Conflicts(a, b, TargetField);
      forall f ensures MergedField(a, b, Merge(a, b).merged, f) {
        assert Position(f) < 5;
      }
    } else {
      var f :| Conflicts(a, b, f);
      assert Merge(a, b).err == Some(ConflictMessage) by {
        match f
        case DirectionField =>
        case RelationshipField =>
        case DeltaField =>
        case SourceField =>
        case TargetField =>
      }
    }
  }

  /** On a conflict the merge returns early: fields before the first conflicting
      one are merged, the conflicting field keeps the receiver's value and every
      later field is left empty. */
  lemma {:induction false} MergeStopsAtFirstConflict(a: Relationship, b: Relationship, f: Field)
    requires Conflicts(a, b, f)
    requires forall g :: Position(g) < Position(f) ==> !Conflicts(a, b, g)
    ensures Merge(a, b).err == Some(ConflictMessage)
    ensures forall g :: Position(g) < Position(f) ==> MergedField(a, b, Merge(a, b).merged, g)
    ensures Get(Merge(a, b).merged, f) == Get(a, f)
    ensures forall g :: Position(g) > Position(f) ==> Get(Merge(a, b).merged, g) == Get(Empty, g)
  {
    var m := Merge(a, b).merged;
    MergeFieldwiseBelow(a, b, Position(f));
    match f
    case DirectionField =>
      assert m == Empty.(direction := a.direction);
    case RelationshipField =>
      assert !Conflicts(a, b, DirectionField);
      assert m.delta == 0 && m.uuidSource == "" && m.uuidTarget == "";
    case DeltaField =>
      assert !Conflicts(a, b, DirectionField) && !Conflicts(a, b, RelationshipField);
      assert m.uuidSource == "" && m.uuidTarget == "";
    case SourceField =>
      assert !Conflicts(a, b, DirectionField) && !Conflicts(a, b, RelationshipField);
      assert !Conflicts(a, b, DeltaField);
      assert m.uuidTarget == "";
    case TargetField =>
      assert !Conflicts(a, b, DirectionField) && !Conflicts(a, b, RelationshipField);
      assert !Conflicts(a, b, DeltaField) && !Conflicts(a, b, SourceField);
  }

  /** Whether a merge fails does not depend on which record is the receiver,
      and a successful merge gives the same record in both orders. */
  lemma MergeCommutesOnSuccess(a: Relationship, b: Relationship)
    ensures Merge(a, b).err.None? <==> Merge(b, a).err.None?
    ensures Merge(a, b).err.None? ==> Merge(b, a) == Merge(a, b)
  {
  }

  /** Merging a record with itself succeeds and yields the empty record, because
      values both sides agree on are not carried over. */
  lemma MergeWithSelfIsEmpty(r: Relationship)
    ensures Merge(r, r) == MergeResult(Empty, None)
  {
  }

  /** The empty record is a two-sided identity of the merge. */
  lemma MergeWithEmptyIsIdentity(r: Relationship)
    ensures Merge(r, Empty) == MergeResult(r, None)
    ensures Merge(Empty, r) == MergeResult(r, None)
  {
  }

  /** A value that only one side gives ends up in the merged record, whichever
      side is the receiver, provided the merge gets that far. */
  lemma {:induction false} OneSidedValueIsTaken(a: Relationship, b: Relationship, f: Field)
    requires IsEmpty(Get(a, f)) != IsEmpty(Get(b, f))
    requires forall g :: Position(g) < Position(f) ==> !Conflicts(a, b, g)
    ensures Get(Merge(a, b).merged, f) == (if IsEmpty(Get(a, f)) then Get(b, f) else Get(a, f))
    ensures Get(Merge(b, a).merged, f) == Get(Merge(a, b).merged, f)
  {
    MergeFieldwiseBelow(a, b, Position(f) + 1);
    MergeFieldwiseBelow(b, a, Position(f) + 1);
  }
}
