/** The result screen: which card ids to show, whether the interpretation is
    structured, and how the interpretation is cut into one text section per
    card position. */
module ReadingResult {
  import opened Wrappers
  import opened Strings
  import opened TarotContext

  const NoInterpretation := "No interpretation available for this position."
  const ParagraphSeparator := "\n\n"

  /** `cardIds`: the id list when non-empty, else the single id when given,
      else nothing. */
  function CardIds(selectedCardIds: seq<int>, selectedCardId: Option<int>): (ids: seq<int>)
    ensures |selectedCardIds| > 0 ==> ids == selectedCardIds
    ensures |selectedCardIds| == 0 ==> |ids| <= 1
    ensures |ids| == 0 <==> |selectedCardIds| == 0 && selectedCardId.None?
    ensures |selectedCardIds| == 0 && |ids| == 1 ==> ids[0] == selectedCardId.value
  {
    if |selectedCardIds| > 0 then selectedCardIds
    else if selectedCardId.Some? then [selectedCardId.value]
    else []
  }

  /** `isStructured`: an object carrying both `positions` and `overall`. */
  predicate IsStructured(v: Interpretation)
  {
    v.Record? && v.positions.Some? && v.overall.Some?
  }

  /** The two regex splits of a string interpretation: the pieces between
      section markers (present exactly when the marker regex matches) and the
      paragraphs between blank lines. */
  datatype TextSplits = TextSplits(markerPieces: Option<seq<string>>, paragraphs: seq<string>)

  /** `Math.ceil(a / b)` for b > 0. */
  function CeilDiv(a: nat, b: nat): (c: nat)
    requires b > 0
    ensures c * b >= a && (c == 0 || (c - 1) * b < a)
  {
    (a + b - 1) / b
  }

  /** `s.slice(start, end)` for non-negative bounds: both clamp to the length
      and a reversed range is empty. */
  function Slice(s: seq<string>, start: nat, end: nat): (r: seq<string>)
    ensures start <= end <= |s| ==> r == s[start..end]
    ensures end <= start || |s| <= start ==> r == []
  {
    var lo := Min(start, |s|);
    var hi := Min(end, |s|);
    if lo < hi then s[lo..hi] else []
  }

  /** The paragraphs of section i when every section takes `size` of them. */
  function Chunk(paragraphs: seq<string>, size: nat, i: nat): (c: seq<string>)
    ensures |c| > 0 ==> i * size + |c| <= |paragraphs| && c == paragraphs[i * size..i * size + |c|]
  {
    Slice(paragraphs, i * size, Min(i * size + size, |paragraphs|))
  }

  function Chunks(paragraphs: seq<string>, size: nat, k: nat): (r: seq<seq<string>>)
    ensures |r| == k && forall i :: 0 <= i < k ==> r[i] == Chunk(paragraphs, size, i)
  {
    seq(k, i requires 0 <= i < k => Chunk(paragraphs, size, i))
  }

  function Concat(xs: seq<seq<string>>): seq<string>
    decreases |xs|
  {
    if |xs| == 0 then [] else Concat(xs[..|xs| - 1]) + xs[|xs| - 1]
  }

  lemma MulStep(k: nat, size: nat)
    requires k >= 1
    ensures k * size == (k - 1) * size + size && (k - 1) * size >= 0
  {
  }

  /** A chunk starting where the covered prefix ends extends that prefix. */
  lemma SliceExtends(paragraphs: seq<string>, start: nat, size: nat)
    ensures paragraphs[..Min(start, |paragraphs|)] + Slice(paragraphs, start, Min(start + size, |paragraphs|))
         == paragraphs[..Min(start + size, |paragraphs|)]
  {
    if start < |paragraphs| {
      var end := Min(start + size, |paragraphs|);
      assert paragraphs[..start] + paragraphs[start..end] == paragraphs[..end];
    }
  }

  /** The first k chunks, laid end to end, are the first min(k * size, total) paragraphs. */
  lemma {:induction false} ChunksPrefix(paragraphs: seq<string>, size: nat, k: nat)
    ensures Concat(Chunks(paragraphs, size, k)) == paragraphs[..Min(k * size, |paragraphs|)]
    decreases k
  {
    if k > 0 {
      var xs := Chunks(paragraphs, size, k);
      assert xs[..k - 1] == Chunks(paragraphs, size, k - 1);
      ChunksPrefix(paragraphs, size, k - 1);
      MulStep(k, size);
      SliceExtends(paragraphs, (k - 1) * size, size);
    }
  }

  /** With n sections of ceil(total / n) paragraphs each, the sections cover
      every paragraph exactly once, in order. */
  lemma ChunksPartition(paragraphs: seq<string>, n: nat)
    requires 1 <= n
    ensures Concat(Chunks(paragraphs, CeilDiv(|paragraphs|, n), n)) == paragraphs
  {
    var size := CeilDiv(|paragraphs|, n);
    ChunksPrefix(paragraphs, size, n);
    assert n * size >= |paragraphs|;
  }

  /** Each section holds at most ceil(total / n) paragraphs, and it is empty
      exactly when its start lies at or past the last paragraph. */
  lemma ChunkShape(paragraphs: seq<string>, size: nat, i: nat)
    ensures |Chunk(paragraphs, size, i)| <= size
    ensures |Chunk(paragraphs, size, i)| == 0 <==> size == 0 || i * size >= |paragraphs|
  {
  }

  /** Having at least as many paragraphs as cards does not give every card a
      paragraph: seven paragraphs over six cards are cut 2, 2, 2, 1, 0, 0, so
      positions 5 and 6 get an empty section and their tabs show the fallback
      text. */
  lemma SevenParagraphsOverSixCards(paragraphs: seq<string>)
    requires |paragraphs| == 7
    ensures CeilDiv(7, 6) == 2
    ensures forall i :: 0 <= i < 3 ==> |Chunk(paragraphs, 2, i)| == 2
    ensures |Chunk(paragraphs, 2, 3)| == 1
    ensures Chunk(paragraphs, 2, 4) == [] && Chunk(paragraphs, 2, 5) == []
    ensures var sections := seq(6, i requires 0 <= i < 6 => Join(Chunk(paragraphs, 2, i), ParagraphSeparator));
      TabText(sections, 4) == NoInterpretation && TabText(sections, 5) == NoInterpretation
  {
  }

  /** `pieces.filter((section) => section.trim().length > 0)`. */
  function DropBlank(pieces: seq<string>): (r: seq<string>)
    ensures |r| <= |pieces|
    ensures forall i :: 0 <= i < |r| ==> !IsBlank(r[i])
    ensures forall s :: s in r <==> s in pieces && !IsBlank(s)
    decreases |pieces|
  {
    if |pieces| == 0 then []
    else
      var rest := DropBlank(pieces[1..]);
      assert forall s :: s in pieces <==> s == pieces[0] || s in pieces[1..];
      if IsBlank(pieces[0]) then rest else [pieces[0]] + rest
  }

  /** The filter keeps order and repetitions: filtering a concatenation
      filters each part. */
  lemma {:induction false} DropBlankAppend(xs: seq<string>, ys: seq<string>)
    ensures DropBlank(xs + ys) == DropBlank(xs) + DropBlank(ys)
    decreases |xs|
  {
    if |xs| > 0 {
      assert (xs + ys)[0] == xs[0];
      assert (xs + ys)[1..] == xs[1..] + ys;
      DropBlankAppend(xs[1..], ys);
    } else {
      assert xs + ys == ys;
    }
  }

  /** A single piece is kept exactly when it is not blank. */
  lemma DropBlankOne(piece: string)
    ensures DropBlank([piece]) == if IsBlank(piece) then [] else [piece]
  {
    assert [piece][1..] == [];
  }

  /** `interpretationSections`, computed for `cardCount` cards. */
  method InterpretationSections(interpretation: Interpretation, spreadType: SpreadType,
                                cardCount: nat, splits: TextSplits)
    returns (sections: seq<string>)
    // a string in universal6 mode with section markers: the non-blank marker pieces
    ensures spreadType == Universal6 && interpretation.Text? && splits.markerPieces.Some? ==>
      sections == DropBlank(splits.markerPieces.value)
    // ... without markers and with enough paragraphs: one ceil-sized chunk per card
    ensures spreadType == Universal6 && interpretation.Text? && splits.markerPieces.None? &&
            |splits.paragraphs| >= cardCount ==>
      |sections| == cardCount &&
      (cardCount > 0 ==>
        var size := CeilDiv(|splits.paragraphs|, cardCount);
        forall i :: 0 <= i < cardCount ==>
          sections[i] == Join(Chunk(splits.paragraphs, size, i), ParagraphSeparator))
    // ... with fewer paragraphs than cards: the whole text for every card
    ensures spreadType == Universal6 && interpretation.Text? && splits.markerPieces.None? &&
            |splits.paragraphs| < cardCount ==>
      |sections| == cardCount && forall i :: 0 <= i < cardCount ==> sections[i] == interpretation.text
    // structured (in either mode): each position's interpretation, in order
    ensures IsStructured(interpretation) ==>
      var positions := interpretation.positions.value;
      |sections| == |positions| &&
      forall i :: 0 <= i < |positions| ==> sections[i] == positions[i].interpretation
    // otherwise: a single section, the string or ""
    ensures !IsStructured(interpretation) && !(spreadType == Universal6 && interpretation.Text?) ==>
      sections == [if interpretation.Text? then interpretation.text else ""]
  {
    if !IsStructured(interpretation) && spreadType == Universal6 && interpretation.Text? {
      var interpretationText := interpretation.text;
      if splits.markerPieces.Some? {
        sections := DropBlank(splits.markerPieces.value);
      } else {
        var paragraphs := splits.paragraphs;
        var totalParagraphs := |paragraphs|;
        if totalParagraphs >= cardCount {
          sections := [];
          if cardCount > 0 {
            var paragraphsPerSection := CeilDiv(totalParagraphs, cardCount);
            var i := 0;
            while i < cardCount
              invariant 0 <= i <= cardCount
              invariant |sections| == i
              invariant forall j :: 0 <= j < i ==>
                sections[j] == Join(Chunk(paragraphs, paragraphsPerSection, j), ParagraphSeparator)
            {
              var startIndex := i * paragraphsPerSection;
              var endIndex := Min(startIndex + paragraphsPerSection, totalParagraphs);
              sections := sections + [Join(Slice(paragraphs, startIndex, endIndex), ParagraphSeparator)];
              i := i + 1;
            }
          }
        } else {
          sections := seq(cardCount, _ => interpretationText);
        }
      }
    } else if IsStructured(interpretation) {
      var positions := interpretation.positions.value;
      sections := seq(|positions|, i requires 0 <= i < |positions| => positions[i].interpretation);
    } else {
      sections := [if interpretation.Text? then interpretation.text else ""];
    }
  }

  /** The text of a position tab: its section, or the fallback when the
      section is missing or empty. */
  function TabText(sections: seq<string>, tab: nat): (text: string)
    ensures text != ""
    ensures tab < |sections| && sections[tab] != "" ==> text == sections[tab]
    ensures tab >= |sections| || sections[tab] == "" ==> text == NoInterpretation
  {
    if tab < |sections| && sections[tab] != "" then sections[tab] else NoInterpretation
  }
}
