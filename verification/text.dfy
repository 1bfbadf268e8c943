/** Small facts about strings as sequences of characters. */
module Text {

  /** A line break followed by the four-space indent that every line of the
      prompt's template literal carries, the lines of the grading table included. */
  const Indent := "\n    "

  /** `x` occurs in `s` starting at index `at`. */
  predicate OccursAt(x: string, s: string, at: nat)
  {
    at + |x| <= |s| && s[at..at + |x|] == x
  }

  /** `x` occurs somewhere in `s`. */
  ghost predicate IsInfix(x: string, s: string)
  {
    exists at: nat :: OccursAt(x, s, at)
  }

  /** The character `c` appears nowhere in `s`. */
  predicate Lacks(s: string, c: char)
  {
    forall i :: 0 <= i < |s| ==> s[i] != c
  }

  /** Lacking a character is preserved by concatenation. */
  lemma LacksConcat(x: string, y: string, c: char)
    requires Lacks(x, c) && Lacks(y, c)
    ensures Lacks(x + y, c)
  {
  }

  /** The character `a` is never directly followed by `b` in `s`. */
  predicate NoPair(s: string, a: char, b: char)
  {
    forall i :: 0 <= i < |s| - 1 ==> !(s[i] == a && s[i + 1] == b)
  }

  /** A string lacking either character of a pair has no such pair. */
  lemma LacksNoPair(s: string, a: char, b: char)
    requires Lacks(s, a) || Lacks(s, b)
    ensures NoPair(s, a, b)
  {
  }

  /** A pair in `x + y` lies in `x`, in `y`, or across the junction. */
  lemma NoPairConcat(x: string, y: string, a: char, b: char)
    requires NoPair(x, a, b) && NoPair(y, a, b)
    requires |x| == 0 || |y| == 0 || !(x[|x| - 1] == a && y[0] == b)
    ensures NoPair(x + y, a, b)
  {
  }

  /** A string holding a pair that `s` never has cannot occur inside `s`. */
  lemma NotInfixOfNoPair(x: string, s: string, k: nat)
    requires k + 1 < |x|
    requires NoPair(s, x[k], x[k + 1])
    ensures !IsInfix(x, s)
  {
    forall at: nat ensures !OccursAt(x, s, at) {
      if at + |x| <= |s| {
        assert s[at..at + |x|][k] == s[at + k];
        assert s[at..at + |x|][k + 1] == s[at + k + 1];
      }
    }
  }

  /** A string holding a character that `s` lacks cannot occur inside `s`. */
  lemma NotInfixByMissingChar(x: string, s: string, k: nat)
    requires k < |x|
    requires Lacks(s, x[k])
    ensures !IsInfix(x, s)
  {
  }

  /** Slicing out the middle part of a three-part concatenation. */
  lemma SliceOfConcat(pre: string, mid: string, post: string)
    ensures OccursAt(mid, pre + mid + post, |pre|)
    ensures (pre + mid + post)[..|pre|] == pre
    ensures (pre + mid + post)[|pre| + |mid|..] == post
  {
  }

  /** An occurrence inside `s` is an occurrence inside `pre + s`, shifted by `|pre|`. */
  lemma OccursAfterPrefix(x: string, pre: string, s: string, at: nat)
    requires OccursAt(x, s, at)
    ensures OccursAt(x, pre + s, |pre| + at)
  {
  }

  /** A string occurs at the start of any extension of it. */
  lemma OccursAtStart(x: string, post: string)
    ensures OccursAt(x, x + post, 0)
  {
  }

  /** The pieces joined end to end, as a template literal joins its chunks. */
  function Concat(pieces: seq<string>): (r: string)
  {
    if |pieces| == 0 then "" else pieces[0] + Concat(pieces[1..])
  }

  /** Index in `Concat(pieces)` at which piece `k` starts: the total length of
      the pieces before it. */
  function Offset(pieces: seq<string>, k: nat): (r: nat)
    requires k <= |pieces|
  {
    if k == 0 then 0 else |pieces[0]| + Offset(pieces[1..], k - 1)
  }

  /** The text from piece `k` onwards is the concatenation of pieces `k..`. */
  lemma {:induction false} ConcatSuffix(pieces: seq<string>, k: nat)
    requires k <= |pieces|
    ensures Offset(pieces, k) <= |Concat(pieces)|
    ensures Concat(pieces)[Offset(pieces, k)..] == Concat(pieces[k..])
  {
    if k > 0 {
      ConcatSuffix(pieces[1..], k - 1);
      assert pieces[1..][k - 1..] == pieces[k..];
      var rest := Concat(pieces[1..]);
      assert Concat(pieces) == pieces[0] + rest;
      assert (pieces[0] + rest)[|pieces[0]| + Offset(pieces[1..], k - 1)..]
          == rest[Offset(pieces[1..], k - 1)..];
    }
  }

  /** The concatenation of pieces `j..k` occurs at the offset of piece `j`, and
      piece `k` starts where that run ends. */
  lemma {:induction false} ConcatWindow(pieces: seq<string>, j: nat, k: nat)
    requires j <= k <= |pieces|
    ensures OccursAt(Concat(pieces[j..k]), Concat(pieces), Offset(pieces, j))
    ensures Offset(pieces, k) == Offset(pieces, j) + |Concat(pieces[j..k])|
  {
    ConcatSuffix(pieces, j);
    ConcatSplit(pieces[j..], k - j);
    assert pieces[j..][..k - j] == pieces[j..k];
    assert pieces[j..][k - j..] == pieces[k..];
    OccursAtStart(Concat(pieces[j..k]), Concat(pieces[k..]));
    OffsetSplit(pieces, j, k);
  }

  /** Concatenation distributes over splitting the list of pieces. */
  lemma {:induction false} ConcatSplit(pieces: seq<string>, k: nat)
    requires k <= |pieces|
    ensures Concat(pieces) == Concat(pieces[..k]) + Concat(pieces[k..])
  {
    if k > 0 {
      ConcatSplit(pieces[1..], k - 1);
      assert pieces[..k][0] == pieces[0];
      assert pieces[..k][1..] == pieces[1..][..k - 1];
      assert pieces[1..][k - 1..] == pieces[k..];
    } else {
      assert pieces[..0] == [];
      assert pieces[0..] == pieces;
    }
  }

  /** Offsets add up: the run `j..k` is as long as the gap between their offsets. */
  lemma {:induction false} OffsetSplit(pieces: seq<string>, j: nat, k: nat)
    requires j <= k <= |pieces|
    ensures Offset(pieces, k) == Offset(pieces, j) + |Concat(pieces[j..k])|
  {
    if j > 0 {
      OffsetSplit(pieces[1..], j - 1, k - 1);
      assert pieces[1..][j - 1..k - 1] == pieces[j..k];
    } else if k > 0 {
      OffsetSplit(pieces[1..], 0, k - 1);
      assert pieces[0..k][1..] == pieces[1..][0..k - 1];
      assert pieces[0..k][0] == pieces[0];
    } else {
      assert pieces[0..0] == [];
    }
  }

  /** If two lists agree except at `k` and join to the same text, they agree at `k`. */
  lemma {:induction false} ConcatDeterminesPiece(ps: seq<string>, qs: seq<string>, k: nat)
    requires k < |ps| == |qs|
    requires ps[..k] == qs[..k] && ps[k + 1..] == qs[k + 1..]
    requires Concat(ps) == Concat(qs)
    ensures ps[k] == qs[k]
  {
    ConcatSplit(ps, k);
    ConcatSplit(qs, k);
    assert Concat(ps[k..]) == ps[k] + Concat(ps[k + 1..]) by {
      assert ps[k..][1..] == ps[k + 1..];
    }
    assert Concat(qs[k..]) == qs[k] + Concat(qs[k + 1..]) by {
      assert qs[k..][1..] == qs[k + 1..];
    }
    var pre, post := Concat(ps[..k]), Concat(ps[k + 1..]);
    assert Concat(ps) == pre + ps[k] + post;
    assert Concat(qs) == pre + qs[k] + post;
    assert |ps[k]| == |qs[k]|;
    SliceOfConcat(pre, ps[k], post);
    SliceOfConcat(pre, qs[k], post);
  }

  /** Each piece occurs at its offset. */
  lemma ConcatPiece(pieces: seq<string>, k: nat)
    requires k < |pieces|
    ensures OccursAt(pieces[k], Concat(pieces), Offset(pieces, k))
    ensures Offset(pieces, k + 1) == Offset(pieces, k) + |pieces[k]|
  {
    ConcatWindow(pieces, k, k + 1);
    assert pieces[k..k + 1][1..] == [];
  }

  /** Two consecutive pieces occur together at the offset of the first. */
  lemma ConcatPair(pieces: seq<string>, k: nat)
    requires k + 1 < |pieces|
    ensures OccursAt(pieces[k] + pieces[k + 1], Concat(pieces), Offset(pieces, k))
  {
    ConcatWindow(pieces, k, k + 2);
    var w := pieces[k..k + 2];
    assert w[1..] == [pieces[k + 1]];
    assert Concat([pieces[k + 1]]) == pieces[k + 1] + Concat([]);
    assert Concat(w) == pieces[k] + pieces[k + 1];
  }

  /** The last piece ends the concatenation. */
  lemma ConcatLast(pieces: seq<string>)
    requires |pieces| > 0
    ensures Offset(pieces, |pieces| - 1) + |pieces[|pieces| - 1]| == |Concat(pieces)|
    ensures Concat(pieces)[Offset(pieces, |pieces| - 1)..] == pieces[|pieces| - 1]
  {
    var k := |pieces| - 1;
    ConcatSuffix(pieces, k);
    assert pieces[k..] == [pieces[k]];
    assert Concat([pieces[k]]) == pieces[k] + Concat([]);
  }
}
