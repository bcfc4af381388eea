/** The paragraph-break rewrite applied to sanitized story content before it is
    stored: every `</p><p>` becomes `</p><br><p>`, scanning left to right as a
    global regular-expression replace does. */
module ParagraphBreaks {

  /** Two adjacent paragraphs: the text the rewrite looks for. */
  const Adjacent: string := "</p><p>"

  /** The same boundary with a line break between the paragraphs. */
  const Separated: string := "</p><br><p>"

  /** `s` holds `Adjacent` starting at index `i`. */
  predicate AdjacentAt(s: string, i: int)
  {
    0 <= i && i + |Adjacent| <= |s| && s[i..i + |Adjacent|] == Adjacent
  }

  /** No occurrence of `Adjacent` anywhere in `s`. */
  predicate FreeOfAdjacent(s: string)
  {
    forall i :: 0 <= i < |s| ==> !AdjacentAt(s, i)
  }

  /** The rewrite itself: replace each match found by a left-to-right scan,
      then continue after it; copy every other character. */
  function InsertBreaks(s: string): (r: string)
    ensures |r| >= |s|
    ensures s == [] ==> r == []
    decreases |s|
  {
    if AdjacentAt(s, 0) then Separated + InsertBreaks(s[|Adjacent|..])
    else if s == [] then []
    else [s[0]] + InsertBreaks(s[1..])
  }

  /** The text between the matches of that same scan (the pieces a
      `split` on `Adjacent` would give). */
  function Pieces(s: string): (ps: seq<string>)
    ensures |ps| >= 1
    decreases |s|
  {
    if AdjacentAt(s, 0) then [""] + Pieces(s[|Adjacent|..])
    else if s == [] then [""]
    else
      var rest := Pieces(s[1..]);
      [[s[0]] + rest[0]] + rest[1..]
  }

  /** The pieces glued back together with `sep` between neighbours. */
  function Join(ps: seq<string>, sep: string): string
  {
    if |ps| == 0 then ""
    else if |ps| == 1 then ps[0]
    else ps[0] + sep + Join(ps[1..], sep)
  }

  /** How many times the scan finds `Adjacent` in `s`. */
  function MatchCount(s: string): nat
  {
    |Pieces(s)| - 1
  }

  lemma JoinConsHead(c: char, ps: seq<string>, sep: string)
    requires |ps| >= 1
    ensures Join([[c] + ps[0]] + ps[1..], sep) == [c] + Join(ps, sep)
  {
    var qs := [[c] + ps[0]] + ps[1..];
    if |ps| > 1 {
      assert qs[1..] == ps[1..];
    }
  }

  /** Splitting at the matches and joining with the pattern gives back the input. */
  lemma {:induction false} JoinPiecesRestores(s: string)
    ensures Join(Pieces(s), Adjacent) == s
    decreases |s|
  {
    if AdjacentAt(s, 0) {
      var t := s[|Adjacent|..];
      JoinPiecesRestores(t);
      var ps := Pieces(t);
      assert ([""] + ps)[1..] == ps;
      assert s == Adjacent + t;
    } else if s != [] {
      JoinPiecesRestores(s[1..]);
      JoinConsHead(s[0], Pieces(s[1..]), Adjacent);
      assert s == [s[0]] + s[1..];
    }
  }

  /** The rewrite keeps every piece between the matches and puts `Separated`
      where each match was: it is `split(Adjacent).join(Separated)`. */
  lemma {:induction false} InsertBreaksIsSplitJoin(s: string)
    ensures InsertBreaks(s) == Join(Pieces(s), Separated)
    decreases |s|
  {
    if AdjacentAt(s, 0) {
      var t := s[|Adjacent|..];
      InsertBreaksIsSplitJoin(t);
      var ps := Pieces(t);
      assert ([""] + ps)[1..] == ps;
    } else if s != [] {
      InsertBreaksIsSplitJoin(s[1..]);
      JoinConsHead(s[0], Pieces(s[1..]), Separated);
    }
  }

  /** Each match grows the text by four characters (`<br>`), nothing else changes length. */
  lemma {:induction false} InsertBreaksLength(s: string)
    ensures |InsertBreaks(s)| == |s| + 4 * MatchCount(s)
    decreases |s|
  {
    if AdjacentAt(s, 0) {
      InsertBreaksLength(s[|Adjacent|..]);
    } else if s != [] {
      InsertBreaksLength(s[1..]);
    }
  }

  /** Text without a match passes through unchanged. */
  lemma {:induction false} InsertBreaksIdentity(s: string)
    ensures FreeOfAdjacent(s) ==> InsertBreaks(s) == s
    decreases |s|
  {
    if FreeOfAdjacent(s) && s != [] {
      assert !AdjacentAt(s, 0);
      var t := s[1..];
      forall i | 0 <= i < |t| ensures !AdjacentAt(t, i) {
        assert !AdjacentAt(s, i + 1);
      }
      InsertBreaksIdentity(t);
    }
  }

  /** The pieces are the text between the matches: none of them holds a match. */
  lemma {:induction false} PiecesFree(s: string)
    ensures forall p :: p in Pieces(s) ==> FreeOfAdjacent(p)
    decreases |s|
  {
    if AdjacentAt(s, 0) {
      PiecesFree(s[|Adjacent|..]);
    } else if s != [] {
      var t := s[1..];
      PiecesFree(t);
      var rest := Pieces(t);
      JoinPiecesRestores(t);
      assert rest[0] <= t;
      var p0 := [s[0]] + rest[0];
      assert p0 <= s;
      assert rest[0] in rest;
      assert FreeOfAdjacent(rest[0]);
      forall i | 0 <= i < |p0| ensures !AdjacentAt(p0, i) {
        if i == 0 {
          if |p0| >= |Adjacent| {
            assert p0[..|Adjacent|] == s[..|Adjacent|];
            assert !AdjacentAt(s, 0);
          }
        } else if AdjacentAt(p0, i) {
          assert p0[1..] == rest[0];
          assert p0[i..i + |Adjacent|] == p0[1..][i - 1..i - 1 + |Adjacent|];
          assert AdjacentAt(rest[0], i - 1);
        }
      }
      assert forall p :: p in rest[1..] ==> p in rest;
    }
  }

  /** The output agrees with the input on its first `j` characters as long as
      no match starts more than five characters before index `j` (a match is
      only changed from its sixth character on: `</p><` is shared). */
  lemma {:induction false} PrefixAgrees(s: string, j: nat)
    requires j <= |s|
    requires forall q :: 0 <= q < j - 5 ==> !AdjacentAt(s, q)
    ensures |InsertBreaks(s)| >= j && InsertBreaks(s)[..j] == s[..j]
    decreases |s|
  {
    if AdjacentAt(s, 0) {
      assert j <= 5;
      assert Separated[..j] == Adjacent[..j];
      assert s[..j] == Adjacent[..j];
    } else if s != [] && j > 0 {
      var t := s[1..];
      forall q | 0 <= q < (j - 1) - 5 ensures !AdjacentAt(t, q) {
        assert !AdjacentAt(s, q + 1);
      }
      PrefixAgrees(t, j - 1);
      assert s[..j] == [s[0]] + t[..j - 1];
    }
  }

  /** The separator cannot take part in a new match: no match starts inside it. */
  lemma SeparatedStartsNoMatch(u: string, i: int)
    requires 0 <= i < |Separated|
    ensures !AdjacentAt(Separated + u, i)
  {
    var out := Separated + u;
    if i + |Adjacent| <= |out| {
      // the index, relative to i, where the text differs from Adjacent
      var k := if i == 0 then 5 else if i == 4 || i == 8 then 1 else 0;
      assert out[i + k] == Separated[i + k] != Adjacent[k];
      assert out[i..i + |Adjacent|][k] == out[i + k];
    }
  }

  /** A character copied in front of rewritten text does not complete a match:
      if it did, the input would already have started with `Adjacent`. */
  lemma CopiedHeadNoMatch(s: string)
    requires s != [] && !AdjacentAt(s, 0)
    ensures !AdjacentAt([s[0]] + InsertBreaks(s[1..]), 0)
  {
    var t := s[1..];
    var out := [s[0]] + InsertBreaks(t);
    if |t| < 6 {
      InsertBreaksIdentity(t);
      assert out == s;
    } else if t[0] == '<' {
      PrefixAgrees(t, 1);
      assert out[1] == '<' != Adjacent[1];
      if |out| >= |Adjacent| {
        assert out[..|Adjacent|][1] == out[1];
      }
    } else {
      assert !AdjacentAt(t, 0);
      PrefixAgrees(t, 6);
      assert out[..7] == [s[0]] + InsertBreaks(t)[..6] == [s[0]] + t[..6] == s[..7];
    }
  }

  /** After the rewrite, no two paragraphs are adjacent any more. */
  lemma {:induction false} InsertBreaksRemovesAll(s: string)
    ensures FreeOfAdjacent(InsertBreaks(s))
    decreases |s|
  {
    if AdjacentAt(s, 0) {
      var t := s[|Adjacent|..];
      InsertBreaksRemovesAll(t);
      var u := InsertBreaks(t);
      var out := Separated + u;
      forall i ensures !AdjacentAt(out, i) {
        if 0 <= i < |Separated| {
          SeparatedStartsNoMatch(u, i);
        } else if AdjacentAt(out, i) {
          assert out[i..i + |Adjacent|] == u[i - |Separated|..i - |Separated| + |Adjacent|];
          assert AdjacentAt(u, i - |Separated|);
        }
      }
    } else if s != [] {
      var t := s[1..];
      InsertBreaksRemovesAll(t);
      var u := InsertBreaks(t);
      var out := [s[0]] + u;
      forall i ensures !AdjacentAt(out, i) {
        if i == 0 {
          CopiedHeadNoMatch(s);
        } else if AdjacentAt(out, i) {
          assert out[i..i + |Adjacent|] == u[i - 1..i - 1 + |Adjacent|];
          assert AdjacentAt(u, i - 1);
        }
      }
    }
  }

  /** Rewriting a second time changes nothing. */
  lemma InsertBreaksIdempotent(s: string)
    ensures InsertBreaks(InsertBreaks(s)) == InsertBreaks(s)
  {
    InsertBreaksRemovesAll(s);
    InsertBreaksIdentity(InsertBreaks(s));
  }
}
