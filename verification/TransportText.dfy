/** Cutting a reply into the captions and messages a transport takes. */
module TransportText {
  import opened Text

  const TELEGRAM_TEXT_CHUNK_MAX_CHARS: nat := 3900
  const TELEGRAM_MEDIA_CAPTION_MAX_CHARS: nat := 1000

  predicate OccursAt(s: string, needle: string, i: int) {
    0 <= i && i + |needle| <= |s| && s[i..i + |needle|] == needle
  }

  /** The last place at or before `from` where the needle stands in s, or -1. */
  function LastIndexOf(s: string, needle: string, from: int): (r: int)
    ensures -1 <= r && (0 <= r ==> r <= from && OccursAt(s, needle, r))
    ensures forall i :: r < i <= from ==> !OccursAt(s, needle, i)
    decreases from + 1
  {
    if from < 0 then -1 else if OccursAt(s, needle, from) then from else LastIndexOf(s, needle, from - 1)
  }

  function Max(a: int, b: int): int {
    if a < b then b else a
  }

  /** The last paragraph break, line break or blank within reach. */
  function SoftBreak(text: string, maxChars: nat): (r: int)
    ensures r <= maxChars
  {
    Max(LastIndexOf(text, "\n\n", maxChars), Max(LastIndexOf(text, "\n", maxChars), LastIndexOf(text, " ", maxChars)))
  }

  /** Six tenths of the limit, rounded down: a break at or before this point is too early. */
  function EarliestBreak(maxChars: nat): (r: nat)
    requires 1 <= maxChars
    ensures r < maxChars
  {
    (maxChars as real * 0.6).Floor
  }

  function SplitAt(text: string, maxChars: nat): (r: nat)
    requires 1 <= maxChars
    ensures EarliestBreak(maxChars) < r <= maxChars
  {
    if SoftBreak(text, maxChars) > EarliestBreak(maxChars) then SoftBreak(text, maxChars) else maxChars
  }

  lemma TrimNoLonger(s: string)
    ensures |Trim(s)| <= |s|
  {
  }

  /** The chunks of a trimmed text. */
  function Chunks(text: string, maxChars: nat): seq<string>
    requires 1 <= maxChars
    decreases |text|
  {
    if text == "" then []
    else if |text| <= maxChars then [text]
    else
      var cut := SplitAt(text, maxChars);
      var chunk := Trim(text[..cut]);
      TrimNoLonger(text[cut..]);
      (if chunk != "" then [chunk] else []) + Chunks(Trim(text[cut..]), maxChars)
  }

  method SplitTextForTransport(input: string, maxChars: nat) returns (chunks: seq<string>)
    requires 1 <= maxChars
    ensures chunks == Chunks(Trim(input), maxChars)
  {
    hide Trim, SplitAt;
    var text := Trim(input);
    if text == "" {
      return [];
    }
    chunks := [];
    var remaining := text;
    while |remaining| > maxChars
      invariant chunks + Chunks(remaining, maxChars) == Chunks(text, maxChars)
      decreases |remaining|
    {
      var splitAt := SplitAt(remaining, maxChars);
      var chunk := Trim(remaining[..splitAt]);
      TrimNoLonger(remaining[splitAt..]);
      if chunk != "" {
        chunks := chunks + [chunk];
      }
      remaining := Trim(remaining[splitAt..]);
    }
    if remaining != "" {
      chunks := chunks + [remaining];
    }
  }

  /** Cutting a trimmed text inside leaves two non-empty trimmed parts with only white space between them. */
  lemma CutFacts(text: string, cut: nat) returns (gap: string)
    requires Trimmed(text) && 0 < cut < |text|
    ensures Blank(gap) && text == Trim(text[..cut]) + gap + Trim(text[cut..])
    ensures Trim(text[..cut]) != "" && Trim(text[cut..]) != ""
    ensures Trimmed(Trim(text[..cut])) && Trimmed(Trim(text[cut..]))
    ensures |Trim(text[..cut])| <= cut && |Trim(text[cut..])| <= |text| - cut
  {
    hide Trim;
    var a, b := text[..cut], text[cut..];
    var f1, b1 := TrimSplits(a);
    var f2, b2 := TrimSplits(b);
    assert text == a + b;
    assert a[0] == text[0] && b[|b| - 1] == text[|text| - 1];
    gap := b1 + f2;
  }

  /** A piece fit to be sent: some text, no white space at its ends, within the limit. */
  predicate Sendable(chunk: string, maxChars: nat) {
    chunk != "" && Trimmed(chunk) && |chunk| <= maxChars
  }

  /** The chunks spell the text, each is fit to be sent, there are none exactly when there is no text, the first starts the text. */
  lemma {:induction false} ChunksSpell(text: string, maxChars: nat)
    requires 1 <= maxChars && Trimmed(text)
    ensures Spells(text, Chunks(text, maxChars))
    ensures forall c :: c in Chunks(text, maxChars) ==> Sendable(c, maxChars)
    ensures text == "" <==> Chunks(text, maxChars) == []
    ensures text != "" ==> Chunks(text, maxChars)[0] <= text
    decreases |text|
  {
    hide Trim, SplitAt, Spells, Trimmed, Blank;
    if text == "" {
      SpellsNothing();
    } else if |text| <= maxChars {
      SpellsWhole(text);
    } else {
      var cut := SplitAt(text, maxChars);
      var chunk, rest := Trim(text[..cut]), Trim(text[cut..]);
      var gap := CutFacts(text, cut);
      ChunksSpell(rest, maxChars);
      SpellsOne(chunk, gap);
      SpellsConcat(chunk + gap, [chunk], rest, Chunks(rest, maxChars));
    }
  }

  lemma SpellsWhole(text: string)
    ensures Spells(text, [text])
  {
    SpellsOne(text, "");
    assert text + "" == text;
  }

  /** All chunks but the last took more than six tenths of the limit. */
  lemma {:induction false} ChunksTakeEnough(text: string, maxChars: nat)
    requires 1 <= maxChars && Trimmed(text) && text != ""
    ensures Chunks(text, maxChars) != [] && (|Chunks(text, maxChars)| - 1) * (EarliestBreak(maxChars) + 1) < |text|
    decreases |text|
  {
    hide Trim, SplitAt, Trimmed, Blank, EarliestBreak;
    if |text| > maxChars {
      var cut := SplitAt(text, maxChars);
      var gap := CutFacts(text, cut);
      var rest := Trim(text[cut..]);
      ChunksTakeEnough(rest, maxChars);
      OneMoreTimes(|Chunks(rest, maxChars)|, EarliestBreak(maxChars) + 1);
    }
  }

  lemma OneMoreTimes(n: int, c: int)
    ensures n * c == (n - 1) * c + c
  {
  }

  /** How many chunks there can be. */
  lemma ChunkCount(text: string, maxChars: nat)
    requires 1 <= maxChars && Trimmed(text) && text != ""
    ensures |Chunks(text, maxChars)| <= (|text| - 1) / (EarliestBreak(maxChars) + 1) + 1
  {
    hide Chunks, EarliestBreak, Trimmed;
    ChunksTakeEnough(text, maxChars);
    QuotientBound(|Chunks(text, maxChars)| - 1, EarliestBreak(maxChars) + 1, |text| - 1);
  }

  lemma QuotientBound(n: int, c: nat, m: nat)
    requires c > 0 && n * c <= m
    ensures n <= m / c
  {
    var q := m / c;
    assert m == q * c + m % c;
    OneMoreTimes(q + 1, c);
    assert (n - (q + 1)) * c == n * c - (q + 1) * c;
    NegativeFactor(n - (q + 1), c);
  }

  lemma NegativeFactor(k: int, c: nat)
    requires k * c < 0
    ensures k < 0
  {
  }

  // ----- where a text is cut

  predicate IsBreak(text: string, i: int) {
    0 <= i < |text| && text[i] in {'\n', ' '}
  }

  /** The last line break or blank late enough within the limit; without one, the limit. */
  predicate CutsThere(text: string, maxChars: nat, cut: nat)
    requires 1 <= maxChars
  {
    if exists i :: EarliestBreak(maxChars) < i <= maxChars && IsBreak(text, i) then
      EarliestBreak(maxChars) < cut <= maxChars && IsBreak(text, cut) && forall i :: cut < i <= maxChars ==> !IsBreak(text, i)
    else cut == maxChars
  }

  lemma BreaksAre(text: string, i: int)
    ensures OccursAt(text, "\n", i) || OccursAt(text, " ", i) <==> IsBreak(text, i)
    ensures OccursAt(text, "\n\n", i) ==> OccursAt(text, "\n", i)
  {
    if 0 <= i < |text| {
      assert text[i..i + 1] == [text[i]];
    }
    if OccursAt(text, "\n\n", i) {
      assert text[i] == text[i..i + 2][0];
    }
  }

  lemma SplitCuts(text: string, maxChars: nat)
    requires 1 <= maxChars
    ensures CutsThere(text, maxChars, SplitAt(text, maxChars))
  {
    hide EarliestBreak, OccursAt, IsBreak;
    forall i ensures OccursAt(text, "\n", i) || OccursAt(text, " ", i) <==> IsBreak(text, i)
             ensures OccursAt(text, "\n\n", i) ==> OccursAt(text, "\n", i)
    {
      BreaksAre(text, i);
    }
  }

  /**
   A text within the limit is one chunk. A longer one is cut at the last line break or blank after six tenths of the limit,
   or at the limit where there is none; what is before the cut is the first chunk, and the rest is cut in the same way.
   */
  lemma ChunksCutAtBreaks(text: string, maxChars: nat) returns (cut: nat)
    requires 1 <= maxChars && Trimmed(text) && text != ""
    ensures |text| <= maxChars ==> Chunks(text, maxChars) == [text]
    ensures |text| > maxChars ==>
              && 0 < cut <= maxChars && CutsThere(text, maxChars, cut)
              && Chunks(text, maxChars) == [Trim(text[..cut])] + Chunks(Trim(text[cut..]), maxChars)
  {
    hide Trim, SplitAt, CutsThere, Trimmed, EarliestBreak;
    cut := SplitAt(text, maxChars);
    SplitCuts(text, maxChars);
    if |text| > maxChars {
      var gap := CutFacts(text, cut);
    }
  }

  // ----- media and captions

  datatype Send = MediaSend(item: nat, caption: string) | TextSend(text: string)

  /** What one send shows of the text: nothing when it has no text. */
  function Shown(s: Send): seq<string> {
    var t := if s.MediaSend? then s.caption else s.text;
    if t == "" then [] else [t]
  }

  function ShownTexts(sends: seq<Send>): seq<string> {
    if sends == [] then [] else ShownTexts(sends[..|sends| - 1]) + Shown(sends[|sends| - 1])
  }

  function TextSends(chunks: seq<string>): seq<Send> {
    seq(|chunks|, i requires 0 <= i < |chunks| => TextSend(chunks[i]))
  }

  lemma NothingShown()
    ensures ShownTexts([]) == []
  {
  }

  lemma ShownAppend(sends: seq<Send>, x: Send)
    ensures ShownTexts(sends + [x]) == ShownTexts(sends) + Shown(x)
  {
    assert (sends + [x])[..|sends|] == sends;
  }

  lemma {:induction false} ShownOfTextSends(sends: seq<Send>, chunks: seq<string>)
    requires forall i :: 0 <= i < |chunks| ==> chunks[i] != ""
    ensures ShownTexts(sends + TextSends(chunks)) == ShownTexts(sends) + chunks
  {
    hide ShownTexts;
    if chunks == [] {
      assert sends + TextSends(chunks) == sends;
    } else {
      var n := |chunks| - 1;
      var x := TextSend(chunks[n]);
      ShownOfTextSends(sends, chunks[..n]);
      assert sends + TextSends(chunks) == (sends + TextSends(chunks[..n])) + [x];
      ShownAppend(sends + TextSends(chunks[..n]), x);
      assert chunks == chunks[..n] + [chunks[n]];
    }
  }

  /** What one send may carry. */
  predicate Fits(s: Send, telegram: bool) {
    telegram ==>
      if s.MediaSend? then |s.caption| <= TELEGRAM_MEDIA_CAPTION_MAX_CHARS else Sendable(s.text, TELEGRAM_TEXT_CHUNK_MAX_CHARS)
  }

  /** The captions and texts spell the text; every item is sent once, in order, before any plain text. */
  ghost predicate Delivers(sends: seq<Send>, text: string, items: nat, telegram: bool) {
    && Spells(text, ShownTexts(sends))
    && (forall s :: s in sends ==> Fits(s, telegram))
    && items <= |sends|
    && (forall i :: 0 <= i < items ==> sends[i].MediaSend? && sends[i].item == i)
    && (forall i :: items <= i < |sends| ==> sends[i].TextSend?)
  }

  /** The text an item is sent with: on Telegram as much as a caption takes, elsewhere all that remains. */
  function Caption(remaining: string, telegram: bool): string {
    var captions := Chunks(remaining, TELEGRAM_MEDIA_CAPTION_MAX_CHARS);
    if telegram && captions != [] then captions[0] else remaining
  }

  /** What remains of the text after the first n items. */
  function Remaining(text: string, n: nat, telegram: bool): string {
    if n == 0 then text else
      var before := Remaining(text, n - 1, telegram);
      var caption := Caption(before, telegram);
      if caption != "" && |caption| <= |before| then Trim(before[|caption|..]) else ""
  }

  /** The plain texts that follow the items. */
  function Rest(text: string, items: nat, telegram: bool): seq<string> {
    var remaining := Remaining(text, items, telegram);
    if remaining == "" then [] else if telegram then Chunks(remaining, TELEGRAM_TEXT_CHUNK_MAX_CHARS) else [remaining]
  }

  function Captions(text: string, items: nat, telegram: bool): seq<Send> {
    seq(items, i requires 0 <= i < items => MediaSend(i, Caption(Remaining(text, i, telegram), telegram)))
  }

  /** Each item takes its caption from what the earlier ones left, and the rest follows as plain text. */
  function Plan(text: string, items: nat, telegram: bool): seq<Send> {
    Captions(text, items, telegram) + TextSends(Rest(text, items, telegram))
  }

  /** A first piece of a trimmed text and what is left once the white space after it is gone. */
  lemma TakeFirst(text: string, piece: string) returns (gap: string)
    requires Trimmed(text) && piece != "" && piece <= text
    ensures Blank(gap) && text == piece + gap + Trim(text[|piece|..]) && Trimmed(Trim(text[|piece|..]))
  {
    hide Trim;
    var rest := text[|piece|..];
    var front, back := TrimSplits(rest);
    if rest != "" {
      assert rest[|rest| - 1] == text[|text| - 1];
      gap := front;
    } else {
      assert rest == front + Trim(rest) + back;
      gap := "";
    }
  }

  method DeliverReply(text: string, items: nat, telegram: bool) returns (sends: seq<Send>)
    requires Trimmed(text)
    requires text != "" || items > 0
    ensures sends == Plan(text, items, telegram)
  {
    hide Trim, Chunks, Trimmed;
    sends := [];
    var remainingText := text;
    for i := 0 to items
      invariant sends == Captions(text, i, telegram)
      invariant remainingText == Remaining(text, i, telegram) && Trimmed(remainingText)
    {
      CaptionFacts(remainingText, telegram);
      var mediaText := remainingText;
      if telegram && remainingText != "" {
        TrimIsTrimmed(remainingText);
        var captions := SplitTextForTransport(remainingText, TELEGRAM_MEDIA_CAPTION_MAX_CHARS);
        mediaText := captions[0];
      }
      sends := sends + [MediaSend(i, mediaText)];
      remainingText := if mediaText != "" then Trim(remainingText[|mediaText|..]) else "";
    }
    if remainingText != "" {
      TrimIsTrimmed(remainingText);
      var chunks := [remainingText];
      if telegram {
        chunks := SplitTextForTransport(remainingText, TELEGRAM_TEXT_CHUNK_MAX_CHARS);
      }
      sends := sends + TextSends(chunks);
    }
  }

  /** A caption starts what remains, takes some of it when there is any, and leaves a trimmed text. */
  lemma CaptionFacts(remaining: string, telegram: bool)
    requires Trimmed(remaining)
    ensures
      var caption := Caption(remaining, telegram);
      && caption <= remaining
      && (remaining != "" ==> caption != "")
      && (telegram ==> |caption| <= TELEGRAM_MEDIA_CAPTION_MAX_CHARS)
      && (telegram && remaining != "" ==> Chunks(remaining, TELEGRAM_MEDIA_CAPTION_MAX_CHARS) != [] && caption == Chunks(remaining, TELEGRAM_MEDIA_CAPTION_MAX_CHARS)[0])
      && Trimmed(Trim(remaining[|caption|..]))
  {
    hide Chunks, Spells, Trim, Trimmed;
    ChunksSpell(remaining, TELEGRAM_MEDIA_CAPTION_MAX_CHARS);
    TrimIsTrimmed(remaining[|Caption(remaining, telegram)|..]);
    var captions := Chunks(remaining, TELEGRAM_MEDIA_CAPTION_MAX_CHARS);
    if captions != [] {
      assert captions[0] in captions;
    }
  }

  /** The captions so far spell the part of the text that is gone. */
  lemma {:induction false} CaptionsSpell(text: string, items: nat, telegram: bool) returns (done: string)
    requires Trimmed(text)
    ensures Trimmed(Remaining(text, items, telegram)) && text == done + Remaining(text, items, telegram)
    ensures Spells(done, ShownTexts(Captions(text, items, telegram)))
  {
    hide Trim, Caption, Trimmed, Spells, Blank, ShownTexts;
    if items == 0 {
      done := "";
      SpellsNothing();
      NothingShown();
    } else {
      var before := CaptionsSpell(text, items - 1, telegram);
      var remaining := Remaining(text, items - 1, telegram);
      var sends, caption := Captions(text, items - 1, telegram), Caption(remaining, telegram);
      CaptionFacts(remaining, telegram);
      assert Captions(text, items, telegram) == sends + [MediaSend(items - 1, caption)];
      ShownAppend(sends, MediaSend(items - 1, caption));
      done := before;
      assert ShownTexts(sends) + [] == ShownTexts(sends);
      if caption != "" {
        var gap := TakeFirst(remaining, caption);
        SpellsOne(caption, gap);
        SpellsConcat(before, ShownTexts(sends), caption + gap, [caption]);
        done := before + (caption + gap);
      } else {
        EmptyIsTrimmed();
      }
    }
  }

  lemma EmptyIsTrimmed()
    ensures Trimmed("")
  {
  }

  lemma RestSpells(text: string, items: nat, telegram: bool)
    requires Trimmed(Remaining(text, items, telegram))
    ensures Spells(Remaining(text, items, telegram), Rest(text, items, telegram))
    ensures forall c :: c in Rest(text, items, telegram) ==> c != "" && (telegram ==> Sendable(c, TELEGRAM_TEXT_CHUNK_MAX_CHARS))
  {
    hide Remaining, Chunks, Trimmed, Spells;
    var remaining := Remaining(text, items, telegram);
    SpellsNothing();
    SpellsWhole(remaining);
    ChunksSpell(remaining, TELEGRAM_TEXT_CHUNK_MAX_CHARS);
  }

  /**
   For any number of items the plan delivers the whole text: captions of at most 1000 characters, then texts of at most
   3900, spell it with nothing but white space lost where it was cut, and every item is sent once, first and in order.
   */
  lemma PlanDelivers(text: string, items: nat, telegram: bool)
    requires Trimmed(text)
    ensures Delivers(Plan(text, items, telegram), text, items, telegram)
  {
    hide Trimmed, Spells, Remaining, Caption, Rest, ShownTexts;
    var done := CaptionsSpell(text, items, telegram);
    RestSpells(text, items, telegram);
    var captions, rest := Captions(text, items, telegram), Rest(text, items, telegram);
    forall i | 0 <= i < |rest| ensures rest[i] != "" {
      assert rest[i] in rest;
    }
    ShownOfTextSends(captions, rest);
    SpellsConcat(done, ShownTexts(captions), Remaining(text, items, telegram), rest);
    forall s | s in Plan(text, items, telegram) ensures Fits(s, telegram) {
      if s in captions {
        var i :| 0 <= i < items && s == MediaSend(i, Caption(Remaining(text, i, telegram), telegram));
        var d := CaptionsSpell(text, i, telegram);
        CaptionFacts(Remaining(text, i, telegram), telegram);
      } else {
        var i :| 0 <= i < |rest| && s == TextSend(rest[i]);
        assert rest[i] in rest;
      }
    }
  }

  /**
   Captions come before plain texts. Elsewhere than on Telegram the first item carries the whole text. On Telegram an item
   carries the first piece of at most 1000 characters of what the items before it have left; so as long as an item or a
   plain text still shows something, every item before it does.
   */
  lemma CaptionsComeFirst(text: string, items: nat, telegram: bool, i: nat)
    requires Trimmed(text) && i < items
    ensures
      var sends := Plan(text, items, telegram);
      && |sends| >= items && sends[i].MediaSend?
      && (!telegram ==> sends[i].caption == if i == 0 then text else "")
      && (sends[i].caption == "" ==> forall j :: i <= j < |sends| ==> Shown(sends[j]) == [])
      && (i == 0 && text != "" ==> sends[i].caption != "")
  {
    hide Trim, Chunks, Spells, Trimmed, Remaining, Caption, Rest;
    var done := CaptionsSpell(text, i, telegram);
    CaptionFacts(Remaining(text, i, telegram), telegram);
    NothingRemains(text, i, items, telegram);
    if !telegram {
      WholeFirst(text, i);
    }
    assert Remaining(text, 0, telegram) == text by { RemainingNone(text, telegram); }
  }

  lemma RemainingNone(text: string, telegram: bool)
    ensures Remaining(text, 0, telegram) == text
  {
  }

  /** Where nothing remains, nothing is shown from there on. */
  lemma NothingRemains(text: string, i: nat, items: nat, telegram: bool)
    requires i <= items && Trimmed(text)
    ensures Remaining(text, i, telegram) == "" ==>
              && Rest(text, items, telegram) == []
              && forall j :: i <= j < items ==> Caption(Remaining(text, j, telegram), telegram) == ""
  {
    hide Chunks, Trim, Trimmed;
    if Remaining(text, i, telegram) == "" {
      forall j | i <= j <= items ensures Remaining(text, j, telegram) == "" && Caption(Remaining(text, j, telegram), telegram) == "" {
        StaysEmpty(text, i, j, telegram);
      }
    }
  }

  lemma {:induction false} StaysEmpty(text: string, i: nat, j: nat, telegram: bool)
    requires i <= j && Remaining(text, i, telegram) == ""
    ensures Remaining(text, j, telegram) == "" && Caption(Remaining(text, j, telegram), telegram) == ""
  {
    hide Trim;
    if i < j {
      StaysEmpty(text, i, j - 1, telegram);
    }
  }

  lemma WholeFirst(text: string, i: nat)
    ensures Caption(Remaining(text, i, false), false) == if i == 0 then text else ""
  {
    hide Chunks;
    if i > 0 {
      AfterWhole(text);
      StaysEmpty(text, 1, i, false);
    }
  }

  lemma AfterWhole(text: string)
    ensures Remaining(text, 1, false) == ""
  {
    hide Chunks;
    assert Remaining(text, 0, false) == text;
    assert text[|text|..] == "";
    assert Trim("") == "";
  }
}
