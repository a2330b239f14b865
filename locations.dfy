/**
 * GraphQLLocation: a (column, line) pair with value equality. A C# reference
 * that may be null is an `Option<GraphQLLocation>`.
 */
module Locations {
  import opened Wrappers

  newtype uint32 = x: int | 0 <= x < 0x1_0000_0000

  datatype GraphQLLocation = GraphQLLocation(column: uint32, line: uint32)

  /**
   * IEquatable<GraphQLLocation>.Equals: false for null, otherwise the column
   * and the line are compared in turn. (The reference-identity arm that comes
   * first in the source gives true, as the field comparison would.)
   */
  function Equals(location: GraphQLLocation, other: Option<GraphQLLocation>): (r: bool)
    ensures r <==> other == Some(location)
  {
    match other
    case None => false
    case Some(l) =>
      if location.column != l.column then false
      else if location.line != l.line then false
      else true
  }

  /** operator ==: two nulls are equal, a null and a location are not, otherwise Equals decides. */
  function OpEquality(location1: Option<GraphQLLocation>, location2: Option<GraphQLLocation>): (r: bool)
    ensures location1.None? && location2.None? ==> r
    ensures location1.None? != location2.None? ==> !r
    ensures location1.Some? ==> r == Equals(location1.value, location2)
    ensures r <==> location1 == location2
  {
    if location1.None? then
      (if location2.None? then true else false)
    else
      Equals(location1.value, location2)
  }

  /** operator !=: written out separately in the source; always the negation of ==. */
  function OpInequality(location1: Option<GraphQLLocation>, location2: Option<GraphQLLocation>): (r: bool)
    ensures r == !OpEquality(location1, location2)
  {
    if location1.None? then
      (if location2.None? then false else true)
    else
      !Equals(location1.value, location2)
  }

  /** == is an equivalence relation on possibly-null locations. */
  lemma OpEqualityIsEquivalence(a: Option<GraphQLLocation>, b: Option<GraphQLLocation>, c: Option<GraphQLLocation>)
    ensures OpEquality(a, a)
    ensures OpEquality(a, b) == OpEquality(b, a)
    ensures OpEquality(a, b) && OpEquality(b, c) ==> OpEquality(a, c)
  {
  }

  /** Two non-null locations are equal exactly when their columns and lines agree. */
  lemma EqualsIsFieldwise(location: GraphQLLocation, other: GraphQLLocation)
    ensures Equals(location, Some(other)) <==> location.column == other.column && location.line == other.line
    ensures Equals(location, Some(location))
    ensures !Equals(location, None)
  {
  }
}
