/**
 * The string helpers the client relies on: .NET's IsNullOrWhiteSpace, the
 * blank-to-null normalisation `NotNullOrWhiteSpace(otherwise: null)`, and
 * `string.Join`.
 */
module Strings {
  import opened Wrappers

  /** char.IsWhiteSpace: U+0009..U+000D, U+0020, U+0085, U+00A0 and the Unicode space separators. */
  predicate IsWhiteSpace(c: char) {
    var code := c as int;
    || (0x09 <= code <= 0x0D)
    || code == 0x20
    || code == 0x85
    || code == 0xA0
    || code == 0x1680
    || (0x2000 <= code <= 0x200A)
    || code == 0x2028
    || code == 0x2029
    || code == 0x202F
    || code == 0x205F
    || code == 0x3000
  }

  /** string.IsNullOrWhiteSpace: null, empty, or whitespace only. */
  predicate IsNullOrWhiteSpace(s: Option<string>) {
    s.None? || forall i :: 0 <= i < |s.value| ==> IsWhiteSpace(s.value[i])
  }

  /** A stored value after normalisation: null, or holding a non-whitespace character. */
  predicate IsNormalised(s: Option<string>) {
    s.None? || !IsNullOrWhiteSpace(s)
  }

  /** `value.NotNullOrWhiteSpace(otherwise: null)`: blank input becomes null, anything else is kept. */
  function NotNullOrWhiteSpace(s: Option<string>): (r: Option<string>)
    ensures r.None? <==> IsNullOrWhiteSpace(s)
    ensures r.Some? ==> r == s
    ensures IsNormalised(r)
  {
    if IsNullOrWhiteSpace(s) then None else s
  }

  /** Normalisation is idempotent: a normalised value is a fixed point. */
  lemma NormalisedIsFixpoint(s: Option<string>)
    requires IsNormalised(s)
    ensures NotNullOrWhiteSpace(s) == s
  {
  }

  /** Sum of the lengths of `parts`. */
  function TotalLength(parts: seq<string>): nat {
    if |parts| == 0 then 0 else |parts[0]| + TotalLength(parts[1..])
  }

  /** string.Join(separator, parts). */
  function Join(separator: string, parts: seq<string>): (r: string)
    ensures parts == [] ==> r == ""
    ensures parts != [] ==> parts[0] <= r
  {
    if |parts| == 0 then ""
    else if |parts| == 1 then parts[0]
    else parts[0] + separator + Join(separator, parts[1..])
  }

  /** The joined string is as long as the parts together plus one separator between each pair. */
  lemma {:induction false} JoinLength(separator: string, parts: seq<string>)
    requires |parts| > 0
    ensures |Join(separator, parts)| == TotalLength(parts) + (|parts| - 1) * |separator|
  {
    if |parts| > 1 {
      JoinLength(separator, parts[1..]);
      assert (|parts| - 1) * |separator| == |separator| + (|parts| - 2) * |separator|;
    }
  }

  /** Where part `i` starts in `Join(separator, parts)`: after each earlier part and its separator. */
  function Offset(separator: string, parts: seq<string>, i: nat): nat
    requires i <= |parts|
  {
    if i == 0 then 0 else |parts[0]| + |separator| + Offset(separator, parts[1..], i - 1)
  }

  /** Slicing past a prefix `head` is slicing the tail. */
  lemma SliceAfter(head: string, tail: string, lo: nat, hi: nat)
    requires lo <= hi <= |tail|
    ensures (head + tail)[|head| + lo..|head| + hi] == tail[lo..hi]
  {
  }

  /** The joined string starts with the first part, followed by a separator when more parts follow. */
  lemma JoinHead(separator: string, parts: seq<string>)
    requires |parts| > 0
    ensures |parts[0]| <= |Join(separator, parts)|
    ensures Join(separator, parts)[..|parts[0]|] == parts[0]
    ensures |parts| > 1 ==>
      |parts[0]| + |separator| <= |Join(separator, parts)| &&
      Join(separator, parts)[|parts[0]|..|parts[0]| + |separator|] == separator
  {
    if |parts| > 1 {
      assert Join(separator, parts) == parts[0] + separator + Join(separator, parts[1..]);
    }
  }

  /**
   * Part `i` occurs in the joined string at its offset, and, unless it is the
   * last part, a separator follows it: the joined text is the parts in order
   * with one separator between neighbours.
   */
  lemma {:induction false} JoinPartAt(separator: string, parts: seq<string>, i: nat)
    requires i < |parts|
    ensures Offset(separator, parts, i) + |parts[i]| <= |Join(separator, parts)|
    ensures Join(separator, parts)[Offset(separator, parts, i)..Offset(separator, parts, i) + |parts[i]|] == parts[i]
    ensures i + 1 < |parts| ==>
      var end := Offset(separator, parts, i) + |parts[i]|;
      end + |separator| <= |Join(separator, parts)| &&
      Join(separator, parts)[end..end + |separator|] == separator
  {
    if i == 0 {
      JoinHead(separator, parts);
    } else {
      var rest := parts[1..];
      var head := parts[0] + separator;
      var tail := Join(separator, rest);
      assert Join(separator, parts) == head + tail;
      JoinPartAt(separator, rest, i - 1);
      var o := Offset(separator, rest, i - 1);
      assert Offset(separator, parts, i) == |head| + o;
      assert rest[i - 1] == parts[i];
      SliceAfter(head, tail, o, o + |parts[i]|);
      if i + 1 < |parts| {
        var e := o + |parts[i]|;
        SliceAfter(head, tail, e, e + |separator|);
      }
    }
  }
}
