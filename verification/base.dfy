/** Small shared vocabulary: an Option type, first-occurrence search in strings and a few sequence facts. */
module Base {

  datatype Option<+T> = None | Some(value: T)

  /** The index of the first occurrence of `c` in `s`, if there is one. */
  function FindChar(s: string, c: char): (r: Option<nat>)
    ensures r.None? <==> c !in s
    ensures r.Some? ==> r.value < |s| && s[r.value] == c && c !in s[..r.value]
    decreases |s|
  {
    if |s| == 0 then None
    else if s[0] == c then Some(0)
    else match FindChar(s[1..], c)
      case None => None
      case Some(i) =>
        assert s[..i + 1] == [s[0]] + s[1..][..i];
        Some(i + 1)
  }

  /** A character that does not occur in `a` is first found right after it. */
  lemma FindCharAfter(a: string, c: char, b: string)
    requires c !in a
    ensures FindChar(a + [c] + b, c) == Some(|a|)
  {
    var s := a + [c] + b;
    assert s[|a|] == c;
    assert s[..|a|] == a;
  }

  /* Sequence facts, stated apart so that they are proved without unrelated context. */

  lemma TakeSnoc<T>(s: seq<T>, i: nat)
    requires i < |s|
    ensures s[..i] + [s[i]] == s[..i + 1]
  {
  }

  lemma TakeDrop<T>(s: seq<T>, k: nat)
    requires k <= |s|
    ensures s[..k] + s[k..] == s
  {
  }

  lemma AppendSnoc<T>(a: seq<T>, b: seq<T>)
    requires |b| > 0
    ensures b == b[..|b| - 1] + [b[|b| - 1]]
    ensures a + b == (a + b[..|b| - 1]) + [b[|b| - 1]]
  {
  }

  lemma AppendAssoc<T>(x: seq<T>, y: seq<T>, z: seq<T>)
    ensures (x + y) + z == x + (y + z)
  {
  }

  lemma AppendFlat3<T>(x: seq<T>, p: seq<T>, q: seq<T>, r: seq<T>)
    ensures x + (p + q + r) == x + p + q + r
  {
    AppendAssoc(x, p + q, r);
    AppendAssoc(x, p, q);
  }

  lemma SingletonIsAppend<T>(x: T)
    ensures [x] == [] + [x]
  {
  }

  lemma PairIsAppend<T>(x: T, y: T)
    ensures [x, y] == [x] + [y]
  {
  }

  lemma TripleIsAppend<T>(x: T, y: T, z: T)
    ensures [x, y, z] == [] + [x] + [y] + [z]
  {
  }

}
