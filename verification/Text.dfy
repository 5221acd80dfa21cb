/** White space, trimming, and what it means for pieces of text to spell a whole text. */
module Text {

  /** The characters removed by the relay's `trim()`: white space and line terminators. */
  predicate IsSpace(c: char) {
    || '\t' <= c <= '\r'
    || c in " \U{A0}\U{1680}\U{2028}\U{2029}\U{202F}\U{205F}\U{3000}\U{FEFF}"
    || '\U{2000}' <= c <= '\U{200A}'
  }

  /** Exactly these: tab to carriage return, the blanks, the line and paragraph separators, and the byte order mark. */
  lemma SpacesAre(c: char)
    ensures IsSpace(c) <==>
              var n := c as int;
              9 <= n <= 13 || 0x2000 <= n <= 0x200A || n in {0x20, 0xA0, 0x1680, 0x2028, 0x2029, 0x202F, 0x205F, 0x3000, 0xFEFF}
  {
    var others := " \U{A0}\U{1680}\U{2028}\U{2029}\U{202F}\U{205F}\U{3000}\U{FEFF}";
    assert |others| == 9;
    assert c in others <==> exists i :: 0 <= i < 9 && others[i] == c;
  }

  predicate Blank(s: string) {
    forall i :: 0 <= i < |s| ==> IsSpace(s[i])
  }

  predicate Trimmed(s: string) {
    s != "" ==> !IsSpace(s[0]) && !IsSpace(s[|s| - 1])
  }

  /** How many leading characters of s are white space. */
  function LeadingSpace(s: string): (n: nat)
    ensures n <= |s| && Blank(s[..n]) && (n < |s| ==> !IsSpace(s[n]))
  {
    if s == "" || !IsSpace(s[0]) then 0 else 1 + LeadingSpace(s[1..])
  }

  function TrimStart(s: string): string {
    s[LeadingSpace(s)..]
  }

  /** The length left of s once its trailing white space is dropped. */
  function ContentLength(s: string): (n: nat)
    ensures n <= |s| && Blank(s[n..]) && (0 < n ==> !IsSpace(s[n - 1]))
  {
    if s == "" || !IsSpace(s[|s| - 1]) then |s| else ContentLength(s[..|s| - 1])
  }

  function TrimEnd(s: string): string {
    s[..ContentLength(s)]
  }

  function Trim(s: string): string {
    TrimEnd(TrimStart(s))
  }

  /** Trimming removes blank ends and nothing else, and what it leaves is trimmed. */
  lemma TrimSplits(s: string) returns (front: string, back: string)
    ensures Blank(front) && Blank(back) && Trimmed(Trim(s)) && s == front + Trim(s) + back
    ensures s != "" && !IsSpace(s[0]) ==> front == ""
    ensures s != "" && !IsSpace(s[|s| - 1]) ==> back == ""
  {
    var n := LeadingSpace(s);
    var t := s[n..];
    var m := ContentLength(t);
    front, back := s[..n], t[m..];
    if 0 < m {
      assert t[0] == s[n];
    }
  }

  lemma {:induction false} LeadingSpaceIs(s: string, n: nat)
    requires n <= |s| && Blank(s[..n]) && (n < |s| ==> !IsSpace(s[n]))
    ensures LeadingSpace(s) == n
  {
    if n > 0 {
      assert s[0] == s[..n][0];
      assert s[1..][..n - 1] == s[..n][1..];
      LeadingSpaceIs(s[1..], n - 1);
    }
  }

  lemma {:induction false} ContentLengthIs(s: string, n: nat)
    requires n <= |s| && Blank(s[n..]) && (0 < n ==> !IsSpace(s[n - 1]))
    ensures ContentLength(s) == n
  {
    var last := |s| - 1;
    if n < |s| {
      assert s[last] == s[n..][last - n];
      assert s[..last][n..] == s[n..][..last - n];
      ContentLengthIs(s[..last], n);
    }
  }

  /** There is only one way to trim: blank ends around a trimmed middle determine the middle. */
  lemma TrimUnique(s: string, front: string, middle: string, back: string)
    requires s == front + middle + back && Blank(front) && Blank(back) && Trimmed(middle)
    ensures Trim(s) == middle
  {
    if middle == "" {
      assert s[..|s|] == s;
      LeadingSpaceIs(s, |s|);
      assert TrimStart(s) == "";
    } else {
      assert s[..|front|] == front && s[|front|] == middle[0];
      LeadingSpaceIs(s, |front|);
      var t := TrimStart(s);
      assert t == middle + back && t[|middle|..] == back && t[|middle| - 1] == middle[|middle| - 1];
      ContentLengthIs(t, |middle|);
      assert t[..|middle|] == middle;
    }
  }

  /** Trimming gives a trimmed string, and leaves one that is trimmed already as it is. */
  lemma TrimIsTrimmed(s: string)
    ensures Trimmed(Trim(s))
    ensures Trimmed(s) ==> Trim(s) == s
  {
    var front, back := TrimSplits(s);
    if Trimmed(s) {
      assert s == "" + s + "";
      TrimUnique(s, "", s, "");
    }
  }

  /** The pieces written one after the other, each followed by its gap. */
  function Interleave(pieces: seq<string>, gaps: seq<string>): string
    requires |gaps| == |pieces|
  {
    if pieces == [] then "" else Interleave(pieces[..|pieces| - 1], gaps[..|gaps| - 1]) + pieces[|pieces| - 1] + gaps[|gaps| - 1]
  }

  ghost predicate SpelledWith(text: string, pieces: seq<string>, gaps: seq<string>) {
    && |gaps| == |pieces|
    && (forall g :: g in gaps ==> Blank(g))
    && text == Interleave(pieces, gaps)
  }

  /** The pieces, in order, with nothing but white space between them, are the text. */
  ghost predicate Spells(text: string, pieces: seq<string>) {
    exists gaps :: SpelledWith(text, pieces, gaps)
  }

  /** A text spelled by pieces, continued by white space and one more piece, is spelled by all of them. */
  lemma SpellsExtend(text: string, pieces: seq<string>, gap: string, piece: string, last: string)
    requires Spells(text, pieces) && Blank(gap) && Blank(last)
    requires pieces == [] ==> gap == ""
    ensures Spells(text + gap + piece + last, pieces + [piece])
  {
    hide Spells, Blank;
    SpellsGap(text, pieces, gap);
    SpellsOne(piece, last);
    SpellsConcat(text + gap, pieces, piece + last, [piece]);
    assert text + gap + (piece + last) == text + gap + piece + last;
  }

  /** White space may be added at the end of a text that is not empty of pieces. */
  lemma SpellsGap(text: string, pieces: seq<string>, gap: string)
    requires Spells(text, pieces) && Blank(gap) && (pieces == [] ==> gap == "")
    ensures Spells(text + gap, pieces)
  {
    if pieces == [] {
      assert text + gap == text;
    } else {
      var gaps :| SpelledWith(text, pieces, gaps);
      var n := |pieces| - 1;
      var widened := gaps[..n] + [gaps[n] + gap];
      BlankConcat(gaps[n], gap);
      assert widened[..n] == gaps[..n];
      assert Interleave(pieces, widened) == Interleave(pieces, gaps) + gap;
      assert SpelledWith(text + gap, pieces, widened);
    }
  }

  lemma BlankConcat(a: string, b: string)
    ensures Blank(a + b) <==> Blank(a) && Blank(b)
  {
    assert forall i :: 0 <= i < |a| ==> (a + b)[i] == a[i];
    assert forall i :: 0 <= i < |b| ==> (a + b)[|a| + i] == b[i];
  }

  lemma {:induction false} InterleaveConcat(ps: seq<string>, gs: seq<string>, qs: seq<string>, hs: seq<string>)
    requires |ps| == |gs| && |qs| == |hs|
    ensures Interleave(ps + qs, gs + hs) == Interleave(ps, gs) + Interleave(qs, hs)
  {
    if qs == [] {
      assert ps + qs == ps && gs + hs == gs;
    } else {
      var n := |qs| - 1;
      InterleaveConcat(ps, gs, qs[..n], hs[..n]);
      assert (ps + qs)[..|ps + qs| - 1] == ps + qs[..n] && (gs + hs)[..|gs + hs| - 1] == gs + hs[..n];
    }
  }

  /** Texts spelled one after the other are spelled by their pieces one after the other. */
  lemma SpellsConcat(a: string, ps: seq<string>, b: string, qs: seq<string>)
    requires Spells(a, ps) && Spells(b, qs)
    ensures Spells(a + b, ps + qs)
  {
    var gs :| SpelledWith(a, ps, gs);
    var hs :| SpelledWith(b, qs, hs);
    InterleaveConcat(ps, gs, qs, hs);
    assert SpelledWith(a + b, ps + qs, gs + hs);
  }

  lemma SpellsOne(piece: string, gap: string)
    requires Blank(gap)
    ensures Spells(piece + gap, [piece])
  {
    assert [piece][..0] == [] && [gap][..0] == [];
    assert Interleave([piece], [gap]) == piece + gap;
    assert SpelledWith(piece + gap, [piece], [gap]);
  }

  lemma SpellsNothing()
    ensures Spells("", [])
  {
    assert SpelledWith("", [], []);
  }
}
