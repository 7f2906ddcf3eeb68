/** The relationship request record of internal/models/relationship.go: its
    field-by-field merge of two partially filled records, the two direction
    vocabularies and the membership test against a list of relationship names. */
module Models {
  import opened Wrappers

  /** One relationship request, fields in declaration order. The empty value
      of every string field is "" and of `delta` is 0. */
  datatype Relationship = Relationship(
    direction: string,
    relationship: string,
    delta: int,
    uuidSource: string,
    uuidTarget: string)

  /** The record with every field empty (Go's `Relationship{}`). */
  const Empty := Relationship("", "", 0, "", "")

  /** The five fields, so that properties can quantify over them. */
  datatype Field = DirectionField | RelationshipField | DeltaField | SourceField | TargetField

  /** Declaration order of the fields, which is the order the merge visits them. */
  function Position(f: Field): nat {
    match f
    case DirectionField => 0
    case RelationshipField => 1
    case DeltaField => 2
    case SourceField => 3
    case TargetField => 4
  }

  /** A field's content, whichever its type. */
  datatype Value = Text(text: string) | Number(number: int)

  function Get(r: Relationship, f: Field): Value {
    match f
    case DirectionField => Text(r.direction)
    case RelationshipField => Text(r.relationship)
    case DeltaField => Number(r.delta)
    case SourceField => Text(r.uuidSource)
    case TargetField => Text(r.uuidTarget)
  }

  predicate IsEmpty(v: Value) {
    v == Text("") || v == Number(0)
  }

  /** Both records give the field a value, and the two values differ. */
  predicate Conflicts(a: Relationship, b: Relationship, f: Field) {
    !IsEmpty(Get(a, f)) && !IsEmpty(Get(b, f)) && Get(a, f) != Get(b, f)
  }

  /** What the merge promises for a field on which `a` and `b` do not conflict:
      a value given by exactly one side is taken, and a value both sides agree
      on is NOT carried over (the field is left empty). */
  predicate MergedField(a: Relationship, b: Relationship, m: Relationship, f: Field) {
    && (Get(a, f) == Get(b, f) ==> Get(m, f) == Get(Empty, f))
    && (IsEmpty(Get(a, f)) && !IsEmpty(Get(b, f)) ==> Get(m, f) == Get(b, f))
    && (!IsEmpty(Get(a, f)) && IsEmpty(Get(b, f)) ==> Get(m, f) == Get(a, f))
  }

  const ConflictMessage := "relationship field conflict - the same field has two different, non-empty values"

  /** Go's `Merge` returns the merged record together with an error; on a
      conflict the record is the partial one built so far. */
  datatype MergeResult = MergeResult(merged: Relationship, err: Option<string>)

  /** The outcome of merging one field: the value written into the merged
      record, and whether the merge must stop with a conflict. */
  datatype FieldMerge<T> = Agreed(value: T) | Clash(value: T)

  /** One string field. When the values differ the receiver's value is written
      first, replaced by the other value if the receiver's is empty; two
      non-empty values clash. Equal values leave the field at "". */
  function MergeText(mine: string, other: string): FieldMerge<string> {
    if mine == other then Agreed("")
    else if mine == "" then Agreed(other)
    else if other != "" then Clash(mine)
    else Agreed(mine)
  }

  /** One integer field, with 0 as the empty value. */
  function MergeNumber(mine: int, other: int): FieldMerge<int> {
    if mine == other then Agreed(0)
    else if mine == 0 then Agreed(other)
    else if other != 0 then Clash(mine)
    else Agreed(mine)
  }

  /** `rel.Merge(rel2)`: visits the fields in declaration order, starting from
      the empty record, and returns at the first conflict. */
  function Merge(rel: Relationship, rel2: Relationship): (r: MergeResult)
    ensures r.err.None? || r.err == Some(ConflictMessage)
  {
    var d := MergeText(rel.direction, rel2.direction);
    var m0 := Empty.(direction := d.value);
    if d.Clash? then MergeResult(m0, Some(ConflictMessage)) else
    var n := MergeText(rel.relationship, rel2.relationship);
    var m1 := m0.(relationship := n.value);
    if n.Clash? then MergeResult(m1, Some(ConflictMessage)) else
    var k := MergeNumber(rel.delta, rel2.delta);
    var m2 := m1.(delta := k.value);
    if k.Clash? then MergeResult(m2, Some(ConflictMessage)) else
    var s := MergeText(rel.uuidSource, rel2.uuidSource);
    var m3 := m2.(uuidSource := s.value);
    if s.Clash? then MergeResult(m3, Some(ConflictMessage)) else
    var t := MergeText(rel.uuidTarget, rel2.uuidTarget);
    var m4 := m3.(uuidTarget := t.value);
    if t.Clash? then MergeResult(m4, Some(ConflictMessage)) else
    MergeResult(m4, None)
  }

  const SingleDirections: set<string> := {"", "unary", "discrete", "one", "uni", "single"}
  const MultipleDirections: set<string> := {"multiple", "reciprocal", "bi", "mutual"}

  /** An empty direction defaults to a one-way (source to target) update. */
  function IsSingleDirection(rel: Relationship): (single: bool)
    ensures single <==> rel.direction in SingleDirections
  {
    rel.direction == "" ||
    rel.direction == "unary" ||
    rel.direction == "discrete" ||
    rel.direction == "one" ||
    rel.direction == "uni" ||
    rel.direction == "single"
  }

  function IsMultipleDirection(rel: Relationship): (multiple: bool)
    ensures multiple <==> rel.direction in MultipleDirections
  {
    rel.direction == "multiple" ||
    rel.direction == "reciprocal" ||
    rel.direction == "bi" ||
    rel.direction == "mutual"
  }

  /** No direction is both one-way and reciprocal. */
  lemma DirectionsExclusive(rel: Relationship)
    ensures !(IsSingleDirection(rel) && IsMultipleDirection(rel))
  {
  }

  function InvalidDirectionMessage(direction: string): string {
    "invalid relationship direction '" + direction + "'"
  }

  /** No error exactly when the direction belongs to one of the two vocabularies. */
  function Validate(rel: Relationship): (err: Option<string>)
    ensures err.None? <==> rel.direction in SingleDirections + MultipleDirections
    ensures err.Some? ==> err.value == InvalidDirectionMessage(rel.direction)
  {
    if IsSingleDirection(rel) || IsMultipleDirection(rel) then None
    else Some(InvalidDirectionMessage(rel.direction))
  }

  /** True when some element of `relArray` equals the record's relationship
      name exactly; the source scans the whole list without stopping early. */
  function RelationshipInArray(rel: Relationship, relArray: seq<string>): (valid: bool)
    ensures valid <==> rel.relationship in relArray
  {
    if |relArray| == 0 then false
    else
      var last := relArray[|relArray| - 1];
      assert relArray == relArray[..|relArray| - 1] + [last];
      RelationshipInArray(rel, relArray[..|relArray| - 1]) || rel.relationship == last
  }

  /** A placeholder in the source that accepts nothing. */
  function IsValid(rel: Relationship): (valid: bool)
    ensures !valid
  {
    false
  }
}
