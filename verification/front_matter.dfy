/**
 * Zola front matter removal. The text is split on the delimiter `+++` into at
 * most three pieces, cutting at leftmost, non-overlapping matches as Rust's
 * `str::splitn(3, "+++")` does, and the last piece is kept. `SplitN`'s
 * contract pins the first cut; `SplitOneDelim` and `SplitTwoDelims` pin the
 * whole split for three pieces.
 */
module FrontMatter {
  import opened Base

  const Delimiter: string := "+++"

  /** The delimiter occurs in `s` starting at index `k`. */
  predicate DelimAt(s: string, k: int) {
    0 <= k && k + 3 <= |s| && s[k] == '+' && s[k + 1] == '+' && s[k + 2] == '+'
  }

  /** The delimiter does not start anywhere at or after `from`. */
  predicate NoDelimFrom(s: string, from: int) {
    forall k :: from <= k < |s| ==> !DelimAt(s, k)
  }

  /** `k` is the first occurrence of the delimiter at or after `from`. */
  predicate FirstDelimFrom(s: string, from: nat, k: int) {
    from <= k && DelimAt(s, k) && forall m :: from <= m < k ==> !DelimAt(s, m)
  }

  /** The first occurrence of the delimiter at or after `from`, if any. */
  function FindDelim(s: string, from: nat): (r: Option<nat>)
    ensures r.None? <==> NoDelimFrom(s, from)
    ensures r.Some? ==> FirstDelimFrom(s, from, r.value)
    decreases |s| - from
  {
    if from + 3 > |s| then None
    else if DelimAt(s, from) then Some(from)
    else FindDelim(s, from + 1)
  }

  /** The pieces joined back together with the delimiter between them. */
  function Join(pieces: seq<string>): string
    decreases |pieces|
  {
    if |pieces| <= 1 then (if pieces == [] then "" else pieces[0])
    else pieces[0] + Delimiter + Join(pieces[1..])
  }

  /**
   * `splitn(n, "+++")`: at most n pieces; every piece but the last is free of
   * the delimiter, and so is the last one when fewer than n pieces came out;
   * joining the pieces gives back the text; the first cut is at the leftmost
   * delimiter.
   */
  function SplitN(s: string, n: nat): (pieces: seq<string>)
    requires n >= 1
    ensures 1 <= |pieces| <= n
    ensures Join(pieces) == s
    ensures forall i :: 0 <= i < |pieces| - 1 ==> NoDelimFrom(pieces[i], 0)
    ensures |pieces| < n ==> NoDelimFrom(pieces[|pieces| - 1], 0)
    ensures |pieces| >= 2 ==> FindDelim(s, 0) == Some(|pieces[0]|)
    decreases n
  {
    if n == 1 then [s]
    else match FindDelim(s, 0)
      case None => [s]
      case Some(i) =>
        var rest := SplitN(s[i + 3..], n - 1);
        assert NoDelimFrom(s[..i], 0) by {
          forall k | 0 <= k < i ensures !DelimAt(s[..i], k) {
            assert !DelimAt(s, k);
          }
        }
        assert s == s[..i] + Delimiter + s[i + 3..];
        [s[..i]] + rest
  }

  /** `r` is a suffix of `s`. */
  predicate IsSuffix(r: string, s: string) {
    |r| <= |s| && s[|s| - |r|..] == r
  }

  /** An occurrence in a suffix is an occurrence in the whole text, shifted. */
  lemma DelimShift(s: string, a: nat, k: nat)
    requires a <= |s|
    ensures DelimAt(s[a..], k) <==> DelimAt(s, a + k)
  {
  }

  /** There is only one first occurrence. */
  lemma FirstDelimUnique(s: string, from: nat, a: int, b: int)
    requires FirstDelimFrom(s, from, a) && FirstDelimFrom(s, from, b)
    ensures a == b
  {
  }

  /** Searching a suffix from its start finds the occurrences of the whole text past the cut. */
  lemma FindDelimInSuffix(s: string, a: nat)
    requires a <= |s|
    ensures NoDelimFrom(s, a) ==> FindDelim(s[a..], 0).None?
    ensures forall j :: FirstDelimFrom(s, a, j) ==> FindDelim(s[a..], 0) == Some(j - a)
  {
    var t := s[a..];
    forall k: nat | k < |t| ensures DelimAt(t, k) <==> DelimAt(s, a + k) {
      DelimShift(s, a, k);
    }
    match FindDelim(t, 0)
    case None =>
      forall j | FirstDelimFrom(s, a, j) ensures false {
        DelimShift(s, a, j - a);
      }
    case Some(k) =>
      assert FirstDelimFrom(s, a, a + k) by {
        forall m | a <= m < a + k ensures !DelimAt(s, m) {
          DelimShift(s, a, m - a);
        }
      }
      forall j | FirstDelimFrom(s, a, j) ensures j == a + k {
        FirstDelimUnique(s, a, j, a + k);
      }
  }

  /** Exactly one occurrence of the delimiter, at `i`, counting matches left to right without overlap. */
  predicate OneDelim(s: string, i: int) {
    FirstDelimFrom(s, 0, i) && NoDelimFrom(s, i + 3)
  }

  /** The first two non-overlapping occurrences of the delimiter are at `i` and `j`. */
  predicate TwoDelims(s: string, i: int, j: int) {
    FirstDelimFrom(s, 0, i) && FirstDelimFrom(s, i + 3, j)
  }

  /** Without a delimiter the text is a single piece. */
  lemma SplitNoDelim(s: string)
    requires NoDelimFrom(s, 0)
    ensures SplitN(s, 3) == [s]
  {
  }

  /** One delimiter cuts the text into the part before it and the part after it. */
  lemma SplitOneDelim(s: string, i: int)
    requires OneDelim(s, i)
    ensures SplitN(s, 3) == [s[..i], s[i + 3..]]
  {
    FindDelimInSuffix(s, 0);
    assert s[0..] == s;
    FindDelimInSuffix(s, i + 3);
  }

  /** Two or more delimiters: the first two cut the text into three; later ones stay in the last piece. */
  lemma SplitTwoDelims(s: string, i: int, j: int)
    requires TwoDelims(s, i, j)
    ensures SplitN(s, 3) == [s[..i], s[i + 3..j], s[j + 3..]]
  {
    FindDelimInSuffix(s, 0);
    assert s[0..] == s;
    var t := s[i + 3..];
    FindDelimInSuffix(s, i + 3);
    assert FindDelim(t, 0) == Some(j - (i + 3));
    assert t[..j - (i + 3)] == s[i + 3..j];
    assert t[j - (i + 3) + 3..] == s[j + 3..];
  }

  /** The last piece of a split into at most three is a suffix of the input. */
  lemma LastPieceIsSuffix(markdown: string)
    ensures var splits := SplitN(markdown, 3);
      IsSuffix(splits[|splits| - 1], markdown)
  {
    var splits := SplitN(markdown, 3);
    if |splits| == 2 {
      assert markdown == splits[0] + Delimiter + splits[1];
    } else if |splits| == 3 {
      assert Join(splits[1..]) == splits[1] + Delimiter + splits[2];
      assert markdown == (splits[0] + Delimiter + splits[1] + Delimiter) + splits[2];
    }
  }

  /** The last piece of a split into at most three, by the number of delimiters in the input. */
  lemma LastPiece(markdown: string, last: string)
    requires var splits := SplitN(markdown, 3); last == splits[|splits| - 1]
    ensures IsSuffix(last, markdown)
    ensures NoDelimFrom(markdown, 0) ==> last == markdown
    ensures forall i :: OneDelim(markdown, i) ==> last == markdown[i + 3..]
    ensures forall i, j :: TwoDelims(markdown, i, j) ==> last == markdown[j + 3..]
  {
    LastPieceIsSuffix(markdown);
    forall i | OneDelim(markdown, i)
      ensures last == markdown[i + 3..]
    {
      SplitOneDelim(markdown, i);
    }
    forall i, j | TwoDelims(markdown, i, j)
      ensures last == markdown[j + 3..]
    {
      SplitTwoDelims(markdown, i, j);
    }
  }

  /** Removes the front matter: keeps the last of at most three pieces. */
  function StripMatter(markdown: string): (r: string)
    ensures IsSuffix(r, markdown)
    ensures NoDelimFrom(markdown, 0) ==> r == markdown
    ensures forall i :: OneDelim(markdown, i) ==> r == markdown[i + 3..]
    ensures forall i, j :: TwoDelims(markdown, i, j) ==> r == markdown[j + 3..]
  {
    var splits := SplitN(markdown, 3);
    var r := if |splits| == 1 then splits[0] else if |splits| == 2 then splits[1] else splits[2];
    LastPiece(markdown, r);
    r
  }

  /** Stripping is idempotent exactly when its result no longer contains the delimiter. */
  lemma StripMatterIdempotent(s: string)
    ensures StripMatter(StripMatter(s)) == StripMatter(s) <==> NoDelimFrom(StripMatter(s), 0)
  {
    var r := StripMatter(s);
    if !NoDelimFrom(r, 0) {
      var i :| 0 <= i < |r| && DelimAt(r, i);
      var f := FindDelim(r, 0).value;
      assert |StripMatter(r)| <= |r| - (f + 3) by {
        match FindDelim(r, f + 3)
        case None =>
          SplitOneDelim(r, f);
        case Some(j) =>
          SplitTwoDelims(r, f, j);
      }
    }
  }

  /** A third delimiter survives the first strip, so a second strip removes more. */
  lemma StripMatterNotAlwaysIdempotent()
    ensures StripMatter("+++a+++b+++c") == "b+++c"
    ensures StripMatter(StripMatter("+++a+++b+++c")) == "c"
  {
    var s := "+++a+++b+++c";
    assert TwoDelims(s, 0, 4);
    assert OneDelim("b+++c", 1);
  }
}
