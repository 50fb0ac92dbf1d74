/**
 * The flat key of an assertion: scope model, scope id, entity model and
 * entity id joined by a one-character delimiter, and the inverse split used
 * to show that the encoding loses nothing.
 */
module KeyCodec {
  import opened Wrappers

  /** The four parts of an assertion key, in key order. */
  datatype KeyParts = KeyParts(scopeModel: string, scopeId: string, entityModel: string, entityId: string)

  /** No part contains the delimiter. */
  predicate DelimiterFree(d: char, p: KeyParts) {
    d !in p.scopeModel && d !in p.scopeId && d !in p.entityModel && d !in p.entityId
  }

  /** scope.model + D + scope.id + D + entity.model + D + entity.id */
  function BuildKey(d: char, p: KeyParts): (key: string)
    ensures multiset(key)[d] == 3 + multiset(p.scopeModel)[d] + multiset(p.scopeId)[d]
                                  + multiset(p.entityModel)[d] + multiset(p.entityId)[d]
    ensures DelimiterFree(d, p) ==> multiset(key)[d] == 3
  {
    p.scopeModel + [d] + p.scopeId + [d] + p.entityModel + [d] + p.entityId
  }

  /** The position of the first delimiter. */
  function IndexOf(d: char, s: string): (i: nat)
    requires d in s
    ensures i < |s| && s[i] == d && d !in s[..i]
  {
    if s[0] == d then 0
    else
      var j := IndexOf(d, s[1..]);
      assert s[..j + 1] == [s[0]] + s[1..][..j];
      j + 1
  }

  /** The delimiter-free segments of a string, as String.prototype.split gives them. */
  function Segments(d: char, s: string): (segs: seq<string>)
    ensures |segs| == multiset(s)[d] + 1
    ensures forall i :: 0 <= i < |segs| ==> d !in segs[i]
    decreases |s|
  {
    if d !in s then [s]
    else
      var i := IndexOf(d, s);
      assert s == s[..i] + [d] + s[i + 1..];
      assert multiset(s)[d] == multiset(s[..i])[d] + 1 + multiset(s[i + 1..])[d];
      [s[..i]] + Segments(d, s[i + 1..])
  }

  /** Segments glued back together with the delimiter. */
  function Join(d: char, segs: seq<string>): string
    requires |segs| >= 1
  {
    if |segs| == 1 then segs[0] else segs[0] + [d] + Join(d, segs[1..])
  }

  /** Splitting a joined list of delimiter-free segments gives the segments back. */
  lemma {:induction false} SegmentsOfJoin(d: char, segs: seq<string>)
    requires |segs| >= 1
    requires forall i :: 0 <= i < |segs| ==> d !in segs[i]
    ensures Segments(d, Join(d, segs)) == segs
  {
    if |segs| > 1 {
      var s := Join(d, segs);
      var x, rest := segs[0], Join(d, segs[1..]);
      assert s == x + [d] + rest;
      assert d in s by { assert s[|x|] == d; }
      var i := IndexOf(d, s);
      assert i == |x|;
      assert s[..i] == x;
      assert s[i + 1..] == rest;
      SegmentsOfJoin(d, segs[1..]);
    }
  }

  /** Joining the segments of a string gives the string back. */
  lemma {:induction false} JoinOfSegments(d: char, s: string)
    ensures Join(d, Segments(d, s)) == s
    decreases |s|
  {
    if d in s {
      var i := IndexOf(d, s);
      var segs := Segments(d, s);
      assert segs[1..] == Segments(d, s[i + 1..]);
      JoinOfSegments(d, s[i + 1..]);
      assert s == s[..i] + [d] + s[i + 1..];
    }
  }

  /** Splits a key into its four parts; fails unless there are exactly four segments. */
  function ParseKey(d: char, key: string): (r: Option<KeyParts>)
    ensures r.Some? <==> multiset(key)[d] == 3
    ensures r.Some? ==> DelimiterFree(d, r.value)
  {
    var segs := Segments(d, key);
    if |segs| == 4 then
      assert forall i :: 0 <= i < 4 ==> d !in segs[i];
      Some(KeyParts(segs[0], segs[1], segs[2], segs[3]))
    else None
  }

  lemma BuildKeyIsJoin(d: char, p: KeyParts)
    ensures BuildKey(d, p) == Join(d, [p.scopeModel, p.scopeId, p.entityModel, p.entityId])
  {
    var segs := [p.scopeModel, p.scopeId, p.entityModel, p.entityId];
    assert segs[1..][1..][1..] == [p.entityId];
    assert segs[1..][1..] == [p.entityModel, p.entityId];
    assert segs[1..] == [p.scopeId, p.entityModel, p.entityId];
    assert Join(d, [p.entityModel, p.entityId]) == p.entityModel + [d] + p.entityId;
    assert Join(d, segs[1..]) == p.scopeId + [d] + p.entityModel + [d] + p.entityId;
  }

  /** A key built from delimiter-free parts parses back to those parts. */
  lemma ParseBuildKey(d: char, p: KeyParts)
    requires DelimiterFree(d, p)
    ensures ParseKey(d, BuildKey(d, p)) == Some(p)
  {
    var segs := [p.scopeModel, p.scopeId, p.entityModel, p.entityId];
    BuildKeyIsJoin(d, p);
    SegmentsOfJoin(d, segs);
  }

  /** A key that parses is the key built from its parts. */
  lemma BuildParsedKey(d: char, key: string)
    requires ParseKey(d, key).Some?
    ensures BuildKey(d, ParseKey(d, key).value) == key
  {
    var p := ParseKey(d, key).value;
    var segs := Segments(d, key);
    assert segs == [p.scopeModel, p.scopeId, p.entityModel, p.entityId];
    BuildKeyIsJoin(d, p);
    JoinOfSegments(d, key);
  }

  /** Distinct delimiter-free 4-tuples give distinct keys. */
  lemma BuildKeyInjective(d: char, p: KeyParts, q: KeyParts)
    requires DelimiterFree(d, p) && DelimiterFree(d, q)
    requires BuildKey(d, p) == BuildKey(d, q)
    ensures p == q
  {
    ParseBuildKey(d, p);
    ParseBuildKey(d, q);
  }
}
