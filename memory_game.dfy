/** The memory-card game: a deck of emoji pairs laid out face down, at most
    two cards turned up at a time, matched pairs kept face up, a move counter,
    a score, a best score and a countdown. The shuffle is an arbitrary
    permutation chosen by the caller; the two delayed callbacks (turning a
    mismatched pair back over, ending a finished game) are explicit steps. */
module MemoryGame {
  import opened Common

  /** The sixteen card faces of the `emojis` array, in its order. Cards
      carry the face as a tag; `Glyph` gives the emoji it shows, and
      `GlyphInjective` shows that comparing tags is comparing those strings. */
  datatype Emoji = Cat | Dog | Elephant | Butterfly | Sun | Moon | Tree | House
                 | Car | Books | Balloon | Palette | Star | Heart | Rainbow | Pizza

  datatype Card = Card(id: nat, emoji: Emoji, isFlipped: bool, isMatched: bool)

  datatype Settings = Settings(pairs: nat, time: nat, gridCols: nat)

  /** `getDifficultySettings`. Its `default` arm repeats the easy settings and
      cannot be reached with the three difficulty values. */
  function DifficultySettings(d: Difficulty): Settings
  {
    match d
    case Easy => Settings(6, 120, 4)
    case Medium => Settings(8, 90, 4)
    case Hard => Settings(10, 60, 5)
  }

  function Rank(d: Difficulty): nat
  {
    match d
    case Easy => 0
    case Medium => 1
    case Hard => 2
  }

  /** Every level draws its pairs from the sixteen emoji, fills a grid of
      `gridCols` columns without a ragged last row, and gives a positive time. */
  lemma SettingsFitBoard(d: Difficulty)
    ensures var s := DifficultySettings(d);
      0 < s.pairs <= EmojiCount && s.time > 0 && s.gridCols > 0 &&
      (2 * s.pairs) % s.gridCols == 0
  {
  }

  /** A harder level has more pairs and less time. */
  lemma HarderLevelsAreHarder(a: Difficulty, b: Difficulty)
    requires Rank(a) < Rank(b)
    ensures DifficultySettings(a).pairs < DifficultySettings(b).pairs
    ensures DifficultySettings(a).time > DifficultySettings(b).time
  {
  }

  const EmojiCount: nat := 16

  /** The k-th entry of the `emojis` array. */
  function EmojiAt(k: nat): Emoji
    requires k < EmojiCount
  {
    match k
    case 0 => Cat
    case 1 => Dog
    case 2 => Elephant
    case 3 => Butterfly
    case 4 => Sun
    case 5 => Moon
    case 6 => Tree
    case 7 => House
    case 8 => Car
    case 9 => Books
    case 10 => Balloon
    case 11 => Palette
    case 12 => Star
    case 13 => Heart
    case 14 => Rainbow
    case 15 => Pizza
  }

  /** Position of a face in the `emojis` array. */
  function EmojiIndex(e: Emoji): (k: nat)
    ensures k < EmojiCount && EmojiAt(k) == e
  {
    match e
    case Cat => 0
    case Dog => 1
    case Elephant => 2
    case Butterfly => 3
    case Sun => 4
    case Moon => 5
    case Tree => 6
    case House => 7
    case Car => 8
    case Books => 9
    case Balloon => 10
    case Palette => 11
    case Star => 12
    case Heart => 13
    case Rainbow => 14
    case Pizza => 15
  }

  /** The emoji string each face shows. */
  function Glyph(e: Emoji): string
  {
    match e
    case Cat => "🐱"
    case Dog => "🐕"
    case Elephant => "🐘"
    case Butterfly => "🦋"
    case Sun => "🌞"
    case Moon => "🌙"
    case Tree => "🌳"
    case House => "🏠"
    case Car => "🚗"
    case Books => "📚"
    case Balloon => "🎈"
    case Palette => "🎨"
    case Star => "⭐"
    case Heart => "❤️"
    case Rainbow => "🌈"
    case Pizza => "🍕"
  }

  /** Reading a glyph back: the face whose emoji is `g`, if any. */
  function FaceOf(g: string): Option<Emoji>
  {
    match g
    case "🐱" => Some(Cat)
    case "🐕" => Some(Dog)
    case "🐘" => Some(Elephant)
    case "🦋" => Some(Butterfly)
    case "🌞" => Some(Sun)
    case "🌙" => Some(Moon)
    case "🌳" => Some(Tree)
    case "🏠" => Some(House)
    case "🚗" => Some(Car)
    case "📚" => Some(Books)
    case "🎈" => Some(Balloon)
    case "🎨" => Some(Palette)
    case "⭐" => Some(Star)
    case "❤️" => Some(Heart)
    case "🌈" => Some(Rainbow)
    case "🍕" => Some(Pizza)
    case _ => None
  }

  lemma FaceOfGlyph(e: Emoji)
    ensures FaceOf(Glyph(e)) == Some(e)
  {
  }

  /** The sixteen emoji strings are pairwise different, so the handler's
      string comparison of two cards' emoji is a comparison of their faces. */
  lemma GlyphInjective(a: Emoji, b: Emoji)
    ensures Glyph(a) == Glyph(b) <==> a == b
  {
    FaceOfGlyph(a);
    FaceOfGlyph(b);
  }

  /** The entries of the `emojis` array are pairwise different. */
  lemma EmojisDistinct(i: nat, j: nat)
    requires i < EmojiCount && j < EmojiCount && i != j
    ensures EmojiAt(i) != EmojiAt(j)
  {
  }

  /** `emojis.slice(0, pairs)`. */
  function FirstEmojis(pairs: nat): (sel: seq<Emoji>)
    requires pairs <= EmojiCount
    ensures |sel| == pairs
  {
    seq(pairs, k requires 0 <= k < pairs => EmojiAt(k))
  }

  predicate Distinct(s: seq<Emoji>)
  {
    forall i, j :: 0 <= i < j < |s| ==> s[i] != s[j]
  }

  lemma FirstEmojisDistinct(pairs: nat)
    requires pairs <= EmojiCount
    ensures Distinct(FirstEmojis(pairs))
  {
    var sel := FirstEmojis(pairs);
    forall i, j | 0 <= i < j < |sel|
      ensures sel[i] != sel[j]
    {
      EmojisDistinct(i, j);
    }
  }

  /** The unshuffled deck: for the emoji at index `i`, cards `2i` and `2i+1`,
      face down and unmatched; card `k` carries id `k`. */
  function Deck(sel: seq<Emoji>): (deck: seq<Card>)
  {
    seq(2 * |sel|, k requires 0 <= k < 2 * |sel| => Card(k, sel[k / 2], false, false))
  }

  /** The emoji shown on each card, in order. */
  function EmojisOf(cs: seq<Card>): (es: seq<Emoji>)
    ensures |es| == |cs|
    ensures forall k :: 0 <= k < |cs| ==> es[k] == cs[k].emoji
  {
    seq(|cs|, k requires 0 <= k < |cs| => cs[k].emoji)
  }

  /** The last pair of the deck shows the last selected emoji twice. */
  lemma DeckSnoc(sel: seq<Emoji>)
    requires sel != []
    ensures var n := |sel| - 1;
      EmojisOf(Deck(sel)) == EmojisOf(Deck(sel[..n])) + [sel[n], sel[n]]
  {
    var n := |sel| - 1;
    var es, prev := EmojisOf(Deck(sel)), EmojisOf(Deck(sel[..n]));
    forall k | 0 <= k < 2 * n
      ensures es[k] == prev[k]
    {
      assert sel[..n][k / 2] == sel[k / 2];
    }
  }

  /** Each selected emoji is on exactly two cards of the deck. */
  lemma {:induction false} DeckEmojis(sel: seq<Emoji>)
    ensures multiset(EmojisOf(Deck(sel))) == multiset(sel) + multiset(sel)
  {
    if sel != [] {
      var n := |sel| - 1;
      DeckEmojis(sel[..n]);
      DeckSnoc(sel);
      var prev := EmojisOf(Deck(sel[..n]));
      assert multiset(prev + [sel[n], sel[n]]) == multiset(prev) + multiset{sel[n], sel[n]};
      assert sel == sel[..n] + [sel[n]];
      assert multiset(sel) == multiset(sel[..n]) + multiset{sel[n]};
    }
  }

  /** In a list without repetitions every element occurs once. */
  lemma {:induction false} DistinctOccursOnce(s: seq<Emoji>, e: Emoji)
    requires Distinct(s)
    ensures multiset(s)[e] == if e in s then 1 else 0
  {
    if s != [] {
      var n := |s| - 1;
      assert s == s[..n] + [s[n]];
      assert Distinct(s[..n]);
      DistinctOccursOnce(s[..n], e);
      if e == s[n] {
        assert e !in s[..n];
      }
    }
  }

  /** The shuffle at `MemoryGame.tsx:53` returns some rearrangement of the deck. */
  predicate IsShuffleOf(shuffled: seq<Card>, deck: seq<Card>)
  {
    multiset(shuffled) == multiset(deck)
  }

  /** The deck `initializeGame` builds holds each of the first `pairs`
      emoji on exactly two cards and no other emoji. */
  lemma DeckHoldsPairs(pairs: nat)
    requires pairs <= EmojiCount
    ensures forall i :: 0 <= i < pairs ==> multiset(EmojisOf(Deck(FirstEmojis(pairs))))[EmojiAt(i)] == 2
    ensures forall e :: EmojiIndex(e) >= pairs ==> multiset(EmojisOf(Deck(FirstEmojis(pairs))))[e] == 0
  {
    var sel := FirstEmojis(pairs);
    var counts := multiset(EmojisOf(Deck(sel)));
    DeckEmojis(sel);
    forall i | 0 <= i < pairs
      ensures counts[EmojiAt(i)] == 2
    {
      FirstEmojisCount(pairs, EmojiAt(i));
    }
    forall e | EmojiIndex(e) >= pairs
      ensures counts[e] == 0
    {
      FirstEmojisCount(pairs, e);
    }
  }

  /** The first `pairs` emoji hold each emoji of index below `pairs` once. */
  lemma FirstEmojisCount(pairs: nat, e: Emoji)
    requires pairs <= EmojiCount
    ensures multiset(FirstEmojis(pairs))[e] == if EmojiIndex(e) < pairs then 1 else 0
  {
    var sel := FirstEmojis(pairs);
    FirstEmojisDistinct(pairs);
    DistinctOccursOnce(sel, e);
    if EmojiIndex(e) < pairs {
      assert sel[EmojiIndex(e)] == e;
    }
  }

  /** Rearranging cards rearranges the emoji they show. */
  lemma {:induction false} ShuffleKeepsEmojis(a: seq<Card>, b: seq<Card>)
    requires multiset(a) == multiset(b)
    ensures multiset(EmojisOf(a)) == multiset(EmojisOf(b))
    decreases |a|
  {
    if a == [] {
      assert |b| == |multiset(b)| == 0;
    } else {
      assert a[0] in multiset(b);
      var i :| 0 <= i < |b| && b[i] == a[0];
      var restA, restB := a[1..], b[..i] + b[i + 1..];
      RemoveAt(a, 0);
      RemoveAt(b, i);
      assert a[..0] + a[1..] == restA;
      CancelOne(multiset(restA), multiset(restB), a[0]);
      ShuffleKeepsEmojis(restA, restB);
    }
  }

  lemma EmojisOfAppend(x: seq<Card>, y: seq<Card>)
    ensures EmojisOf(x + y) == EmojisOf(x) + EmojisOf(y)
  {
  }

  /** Taking out the card at `i` takes its emoji out. */
  lemma RemoveAt(cs: seq<Card>, i: nat)
    requires i < |cs|
    ensures multiset(cs) == multiset(cs[..i] + cs[i + 1..]) + multiset{cs[i]}
    ensures multiset(EmojisOf(cs)) == multiset(EmojisOf(cs[..i] + cs[i + 1..])) + multiset{cs[i].emoji}
  {
    var left, right := cs[..i], cs[i + 1..];
    assert cs == left + [cs[i]] + right;
    EmojisOfAppend(left + [cs[i]], right);
    EmojisOfAppend(left, [cs[i]]);
    EmojisOfAppend(left, right);
    assert EmojisOf([cs[i]]) == [cs[i].emoji];
  }

  lemma CancelOne<T>(x: multiset<T>, y: multiset<T>, c: T)
    requires x + multiset{c} == y + multiset{c}
    ensures x == y
  {
    forall e
      ensures x[e] == y[e]
    {
      assert (x + multiset{c})[e] == (y + multiset{c})[e];
    }
  }

  /** The board `initializeGame` lays out, a rearrangement of the deck: twice
      as many cards as pairs, all face down and unmatched, with ids below the
      number of cards, each of the first `pairs` emoji on exactly two of them
      and no other emoji. */
  lemma ShuffledBoard(pairs: nat, shuffled: seq<Card>)
    requires pairs <= EmojiCount
    requires IsShuffleOf(shuffled, Deck(FirstEmojis(pairs)))
    ensures |shuffled| == 2 * pairs
    ensures forall k :: 0 <= k < |shuffled| ==>
      shuffled[k].id < |shuffled| && !shuffled[k].isFlipped && !shuffled[k].isMatched
    ensures forall i :: 0 <= i < pairs ==> multiset(EmojisOf(shuffled))[EmojiAt(i)] == 2
    ensures forall e :: EmojiIndex(e) >= pairs ==> multiset(EmojisOf(shuffled))[e] == 0
  {
    var deck := Deck(FirstEmojis(pairs));
    ShuffleKeepsEmojis(shuffled, deck);
    DeckHoldsPairs(pairs);
    assert |shuffled| == |deck| by {
      assert |multiset(shuffled)| == |multiset(deck)|;
    }
    forall k | 0 <= k < |shuffled|
      ensures shuffled[k].id < |shuffled| && !shuffled[k].isFlipped && !shuffled[k].isMatched
    {
      assert shuffled[k] in multiset(deck);
    }
  }

  /** The `forEach`/`push` loop of `initializeGame`. */
  method BuildDeck(sel: seq<Emoji>) returns (gameCards: seq<Card>)
    ensures gameCards == Deck(sel)
  {
    gameCards := [];
    var index := 0;
    while index < |sel|
      invariant 0 <= index <= |sel|
      invariant |gameCards| == 2 * index
      invariant forall k :: 0 <= k < |gameCards| ==> gameCards[k] == Card(k, sel[k / 2], false, false)
    {
      gameCards := gameCards + [Card(index * 2, sel[index], false, false),
                                Card(index * 2 + 1, sel[index], false, false)];
      index := index + 1;
    }
  }

  /** Number of matched cards. */
  function MatchedCount(cs: seq<Card>): (n: nat)
    ensures n <= |cs|
  {
    if cs == [] then 0
    else MatchedCount(cs[..|cs| - 1]) + (if cs[|cs| - 1].isMatched then 1 else 0)
  }

  predicate AllMatched(cs: seq<Card>)
  {
    forall k :: 0 <= k < |cs| ==> cs[k].isMatched
  }

  /** Replacing one card changes the count by that card's own contribution. */
  lemma {:induction false} MatchedCountUpdate(cs: seq<Card>, i: nat, c: Card)
    requires i < |cs|
    ensures MatchedCount(cs[i := c]) + (if cs[i].isMatched then 1 else 0)
         == MatchedCount(cs) + (if c.isMatched then 1 else 0)
  {
    var n := |cs| - 1;
    var u := cs[i := c];
    if i == n {
      assert u[..n] == cs[..n];
    } else {
      assert u[..n] == cs[..n][i := c];
      MatchedCountUpdate(cs[..n], i, c);
    }
  }

  lemma {:induction false} NoneMatched(cs: seq<Card>)
    requires forall k :: 0 <= k < |cs| ==> !cs[k].isMatched
    ensures MatchedCount(cs) == 0
  {
    if cs != [] {
      NoneMatched(cs[..|cs| - 1]);
    }
  }

  /** The part of the game state the click handler and its callbacks work
      on: the cards, the indices of the face-up cards awaiting comparison
      (`flippedCards`), score, moves, and which delayed callbacks are pending. */
  datatype Board = Board(cards: seq<Card>, flipped: seq<nat>, score: nat, moves: nat,
                         unflipDue: bool, finishDue: bool)

  /** The pending list holds at most two distinct indices, which are exactly
      the face-up unmatched cards; matched cards stay face up; the score is
      ten points per matched pair; a pending mismatch waits to be turned back
      over; the end of the game is pending only when every card is matched. */
  predicate BoardOk(b: Board)
  {
    (forall k :: 0 <= k < |b.cards| ==> b.cards[k].id < |b.cards|) &&
    |b.flipped| <= 2 &&
    (forall j :: 0 <= j < |b.flipped| ==> b.flipped[j] < |b.cards|) &&
    (|b.flipped| == 2 ==> b.flipped[0] != b.flipped[1]) &&
    (forall k :: 0 <= k < |b.cards| ==>
      (b.cards[k].isFlipped && !b.cards[k].isMatched <==> k in b.flipped)) &&
    (forall k :: 0 <= k < |b.cards| ==> b.cards[k].isMatched ==> b.cards[k].isFlipped) &&
    MatchedCount(b.cards) % 2 == 0 &&
    b.score == 5 * MatchedCount(b.cards) &&
    (b.unflipDue <==> |b.flipped| == 2) &&
    (b.unflipDue ==> b.cards[b.flipped[0]].emoji != b.cards[b.flipped[1]].emoji) &&
    (b.finishDue ==> AllMatched(b.cards) && !b.unflipDue)
  }

  /** The board right after `initializeGame`. */
  function Dealt(shuffled: seq<Card>): Board
  {
    Board(shuffled, [], 0, 0, false, false)
  }

  lemma DealtOk(pairs: nat, shuffled: seq<Card>)
    requires pairs <= EmojiCount
    requires IsShuffleOf(shuffled, Deck(FirstEmojis(pairs)))
    ensures BoardOk(Dealt(shuffled))
  {
    ShuffledBoard(pairs, shuffled);
    NoneMatched(shuffled);
  }

  /** The click is ignored: two cards are pending, or the card is face up or
      matched. */
  predicate ClickIgnored(b: Board, cardId: nat)
    requires cardId < |b.cards|
  {
    |b.flipped| == 2 || b.cards[cardId].isFlipped || b.cards[cardId].isMatched
  }

  /** The effect of `handleCardClick(cardId)` on the board. */
  function ClickSpec(b: Board, cardId: nat): Board
    requires cardId < |b.cards|
    requires forall j :: 0 <= j < |b.flipped| ==> b.flipped[j] < |b.cards|
  {
    if ClickIgnored(b, cardId) then b
    else
      var cs := b.cards[cardId := b.cards[cardId].(isFlipped := true)];
      var pending := b.flipped + [cardId];
      if |pending| == 2 then
        var firstId, secondId := pending[0], pending[1];
        if cs[firstId].emoji == cs[secondId].emoji then
          var cs1 := cs[firstId := cs[firstId].(isMatched := true)];
          var cs2 := cs1[secondId := cs1[secondId].(isMatched := true)];
          Board(cs2, [], b.score + 10, b.moves + 1, b.unflipDue, b.finishDue || AllMatched(cs2))
        else
          Board(cs, pending, b.score, b.moves + 1, true, b.finishDue)
      else
        Board(cs, pending, b.score, b.moves, b.unflipDue, b.finishDue)
  }

  /** Every click keeps the board invariant. */
  lemma ClickKeepsInvariant(b: Board, cardId: nat)
    requires BoardOk(b) && cardId < |b.cards|
    ensures BoardOk(ClickSpec(b, cardId))
  {
    if !ClickIgnored(b, cardId) {
      if |b.flipped| == 0 {
        FirstClickOk(b, cardId);
      } else {
        var firstId := b.flipped[0];
        if b.cards[firstId].emoji == b.cards[cardId].emoji {
          MatchClickOk(b, cardId);
        } else {
          MismatchClickOk(b, cardId);
        }
      }
    }
  }

  lemma FirstClickOk(b: Board, cardId: nat)
    requires BoardOk(b) && cardId < |b.cards| && !ClickIgnored(b, cardId) && b.flipped == []
    ensures BoardOk(ClickSpec(b, cardId))
  {
    var cs := b.cards[cardId := b.cards[cardId].(isFlipped := true)];
    MatchedCountUpdate(b.cards, cardId, cs[cardId]);
    var r := ClickSpec(b, cardId);
    assert r == Board(cs, [cardId], b.score, b.moves, b.unflipDue, b.finishDue);
  }

  lemma MismatchClickOk(b: Board, cardId: nat)
    requires BoardOk(b) && cardId < |b.cards| && !ClickIgnored(b, cardId) && |b.flipped| == 1
    requires b.cards[b.flipped[0]].emoji != b.cards[cardId].emoji
    ensures BoardOk(ClickSpec(b, cardId))
  {
    var firstId := b.flipped[0];
    var cs := b.cards[cardId := b.cards[cardId].(isFlipped := true)];
    MatchedCountUpdate(b.cards, cardId, cs[cardId]);
    assert firstId != cardId;
    var r := ClickSpec(b, cardId);
    assert r == Board(cs, [firstId, cardId], b.score, b.moves + 1, true, b.finishDue);
  }

  lemma MatchClickOk(b: Board, cardId: nat)
    requires BoardOk(b) && cardId < |b.cards| && !ClickIgnored(b, cardId) && |b.flipped| == 1
    requires b.cards[b.flipped[0]].emoji == b.cards[cardId].emoji
    ensures BoardOk(ClickSpec(b, cardId))
  {
    var firstId := b.flipped[0];
    var cs := b.cards[cardId := b.cards[cardId].(isFlipped := true)];
    var cs1 := cs[firstId := cs[firstId].(isMatched := true)];
    var cs2 := cs1[cardId := cs1[cardId].(isMatched := true)];
    assert ClickSpec(b, cardId) == Board(cs2, [], b.score + 10, b.moves + 1, false, AllMatched(cs2));
    MatchedPairOk(b, cardId);
  }

  lemma MatchedPairOk(b: Board, cardId: nat)
    requires BoardOk(b) && cardId < |b.cards| && !ClickIgnored(b, cardId) && |b.flipped| == 1
    ensures var firstId := b.flipped[0];
      var cs := b.cards[cardId := b.cards[cardId].(isFlipped := true)];
      var cs1 := cs[firstId := cs[firstId].(isMatched := true)];
      var cs2 := cs1[cardId := cs1[cardId].(isMatched := true)];
      BoardOk(Board(cs2, [], b.score + 10, b.moves + 1, false, AllMatched(cs2)))
  {
    var firstId := b.flipped[0];
    assert firstId != cardId;
    var cs := b.cards[cardId := b.cards[cardId].(isFlipped := true)];
    var cs1 := cs[firstId := cs[firstId].(isMatched := true)];
    var cs2 := cs1[cardId := cs1[cardId].(isMatched := true)];
    PairMatchedCount(b.cards, firstId, cardId);
    PairMatchedFlags(b, cardId);
    assert MatchedCount(cs2) % 2 == 0 && b.score + 10 == 5 * MatchedCount(cs2);
  }

  /** Matching the pending pair adds two to the matched count. */
  lemma PairMatchedCount(cards: seq<Card>, firstId: nat, cardId: nat)
    requires firstId < |cards| && cardId < |cards| && firstId != cardId
    requires !cards[firstId].isMatched && !cards[cardId].isMatched
    ensures var cs := cards[cardId := cards[cardId].(isFlipped := true)];
      var cs1 := cs[firstId := cs[firstId].(isMatched := true)];
      var cs2 := cs1[cardId := cs1[cardId].(isMatched := true)];
      MatchedCount(cs2) == MatchedCount(cards) + 2
  {
    var cs := cards[cardId := cards[cardId].(isFlipped := true)];
    MatchedCountUpdate(cards, cardId, cs[cardId]);
    var cs1 := cs[firstId := cs[firstId].(isMatched := true)];
    MatchedCountUpdate(cs, firstId, cs1[firstId]);
    var cs2 := cs1[cardId := cs1[cardId].(isMatched := true)];
    MatchedCountUpdate(cs1, cardId, cs2[cardId]);
  }

  /** After the pending pair is matched no card is left face up unmatched,
      every matched card is face up, and ids are unchanged. */
  lemma PairMatchedFlags(b: Board, cardId: nat)
    requires BoardOk(b) && cardId < |b.cards| && !ClickIgnored(b, cardId) && |b.flipped| == 1
    ensures var firstId := b.flipped[0];
      var cs := b.cards[cardId := b.cards[cardId].(isFlipped := true)];
      var cs1 := cs[firstId := cs[firstId].(isMatched := true)];
      var cs2 := cs1[cardId := cs1[cardId].(isMatched := true)];
      |cs2| == |b.cards| &&
      forall k :: 0 <= k < |cs2| ==>
        cs2[k].id == b.cards[k].id && !(cs2[k].isFlipped && !cs2[k].isMatched) &&
        (cs2[k].isMatched ==> cs2[k].isFlipped)
  {
    var firstId := b.flipped[0];
    var cs := b.cards[cardId := b.cards[cardId].(isFlipped := true)];
    var cs1 := cs[firstId := cs[firstId].(isMatched := true)];
    var cs2 := cs1[cardId := cs1[cardId].(isMatched := true)];
    forall k | 0 <= k < |cs2|
      ensures cs2[k].id == b.cards[k].id && !(cs2[k].isFlipped && !cs2[k].isMatched) &&
        (cs2[k].isMatched ==> cs2[k].isFlipped)
    {
      if k != cardId && k != firstId {
        assert k !in b.flipped;
      }
    }
  }

  /** Score is ten points per matched pair. */
  lemma ScoreCountsPairs(b: Board)
    requires BoardOk(b)
    ensures b.score == 10 * (MatchedCount(b.cards) / 2)
  {
  }

  /** The board after a click that is not ignored, written out case by case. */
  lemma ClickSpecTurnsUp(b: Board, cardId: nat)
    requires BoardOk(b) && cardId < |b.cards| && !ClickIgnored(b, cardId)
    ensures var cs := b.cards[cardId := b.cards[cardId].(isFlipped := true)];
      var r := ClickSpec(b, cardId);
      if |b.flipped| == 1 then
        var firstId := b.flipped[0];
        if cs[firstId].emoji == cs[cardId].emoji then
          var cs1 := cs[firstId := cs[firstId].(isMatched := true)];
          r == Board(cs1[cardId := cs1[cardId].(isMatched := true)], [], b.score + 10, b.moves + 1,
                     b.unflipDue, b.finishDue || AllMatched(cs1[cardId := cs1[cardId].(isMatched := true)]))
        else
          r == Board(cs, b.flipped + [cardId], b.score, b.moves + 1, true, b.finishDue)
      else
        r == Board(cs, b.flipped + [cardId], b.score, b.moves, b.unflipDue, b.finishDue)
  {
  }

  /** The click counts a move exactly when it turns up the second pending
      card, and scores exactly when that card matches the first; otherwise
      moves and score stay as they were. */
  lemma ClickMovesAndScore(b: Board, cardId: nat)
    requires BoardOk(b) && cardId < |b.cards|
    ensures var r := ClickSpec(b, cardId);
      var second := !ClickIgnored(b, cardId) && |b.flipped| == 1;
      (r.moves == if second then b.moves + 1 else b.moves) &&
      (r.score == if second && b.cards[b.flipped[0]].emoji == b.cards[cardId].emoji
                  then b.score + 10 else b.score)
  {
    if !ClickIgnored(b, cardId) && |b.flipped| == 1 {
      assert b.flipped[0] != cardId;
    }
  }

  /** A click turns up the clicked card when it is not ignored, never turns a
      matched card back into an unmatched one, and leaves every card other
      than the clicked one and the pending one as it was. */
  lemma ClickTouchesOnlyPendingCards(b: Board, cardId: nat)
    requires BoardOk(b) && cardId < |b.cards|
    ensures var r := ClickSpec(b, cardId);
      |r.cards| == |b.cards| &&
      (!ClickIgnored(b, cardId) ==> r.cards[cardId].isFlipped) &&
      (forall k :: 0 <= k < |b.cards| && b.cards[k].isMatched ==> r.cards[k].isMatched) &&
      (forall k :: 0 <= k < |b.cards| && k != cardId && k !in b.flipped ==> r.cards[k] == b.cards[k])
  {
  }

  /** The effect of the 1000 ms callback after a mismatch: the two pending
      cards turn face down and the pending list is cleared. */
  function UnflipSpec(b: Board): Board
    requires |b.flipped| == 2 && b.flipped[0] < |b.cards| && b.flipped[1] < |b.cards|
  {
    var firstId, secondId := b.flipped[0], b.flipped[1];
    var cs := b.cards[firstId := b.cards[firstId].(isFlipped := false)];
    var cs1 := cs[secondId := cs[secondId].(isFlipped := false)];
    b.(cards := cs1, flipped := [], unflipDue := false)
  }

  /** Turning the pair back keeps the invariant. */
  lemma UnflipKeepsInvariant(b: Board)
    requires BoardOk(b) && b.unflipDue
    ensures BoardOk(UnflipSpec(b))
  {
    var firstId, secondId := b.flipped[0], b.flipped[1];
    var cs := b.cards[firstId := b.cards[firstId].(isFlipped := false)];
    MatchedCountUpdate(b.cards, firstId, cs[firstId]);
    var cs1 := cs[secondId := cs[secondId].(isFlipped := false)];
    MatchedCountUpdate(cs, secondId, cs1[secondId]);
    assert !b.cards[firstId].isMatched && !b.cards[secondId].isMatched by {
      assert firstId in b.flipped && secondId in b.flipped;
    }
    forall k | 0 <= k < |cs1|
      ensures !(cs1[k].isFlipped && !cs1[k].isMatched)
      ensures cs1[k].isMatched ==> cs1[k].isFlipped
    {
      if k != firstId && k != secondId {
        assert cs1[k] == b.cards[k];
        assert k !in b.flipped;
      }
    }
  }

  /** Exactly the two pending cards turn face down; no other card changes. */
  lemma UnflipTouchesOnlyPair(b: Board)
    requires BoardOk(b) && b.unflipDue
    ensures var r := UnflipSpec(b);
      |r.cards| == |b.cards| &&
      !r.cards[b.flipped[0]].isFlipped && !r.cards[b.flipped[1]].isFlipped &&
      (forall k :: 0 <= k < |b.cards| && k !in b.flipped ==> r.cards[k] == b.cards[k])
  {
  }

  /** The last match schedules the end of the game, and then the score is
      ten points for each of the `pairs` pairs. */
  lemma FinishedBoardScore(b: Board)
    requires BoardOk(b) && b.finishDue
    ensures b.score == 10 * (|b.cards| / 2) && b.flipped == []
  {
    AllMatchedCount(b.cards);
    HeadIsMember(b.flipped);
  }

  /** Names the first pending card, so that `BoardOk` can rule it out. */
  lemma HeadIsMember(s: seq<nat>)
    ensures s == [] || s[0] in s
  {
  }

  lemma {:induction false} AllMatchedCount(cs: seq<Card>)
    requires AllMatched(cs)
    ensures MatchedCount(cs) == |cs|
  {
    if cs != [] {
      AllMatchedCount(cs[..|cs| - 1]);
    }
  }

  /** On every level there is a legal shuffle in which the first two cards
      of the deck trade places. On that board a click on the card at position
      0 hands the handler the card's id 1, which turns up the card at position
      1 and leaves the clicked card face down. */
  lemma SwappedShuffleMisdirectsClick(d: Difficulty)
    ensures var deck := Deck(FirstEmojis(DifficultySettings(d).pairs));
      |deck| >= 2 &&
      var shuffled := deck[0 := deck[1]][1 := deck[0]];
      IsShuffleOf(shuffled, deck) && shuffled[0].id == 1 &&
      var r := ClickSpec(Dealt(shuffled), shuffled[0].id);
      !r.cards[0].isFlipped && r.cards[1].isFlipped
  {
    var pairs := DifficultySettings(d).pairs;
    SettingsFitBoard(d);
    SwapMisdirects(FirstEmojis(pairs));
  }

  lemma SwapMisdirects(sel: seq<Emoji>)
    requires |sel| >= 1
    ensures var deck := Deck(sel);
      |deck| >= 2 &&
      var shuffled := deck[0 := deck[1]][1 := deck[0]];
      IsShuffleOf(shuffled, deck) && shuffled[0].id == 1 &&
      var r := ClickSpec(Dealt(shuffled), shuffled[0].id);
      !r.cards[0].isFlipped && r.cards[1].isFlipped
  {
    var deck := Deck(sel);
    var shuffled := deck[0 := deck[1]][1 := deck[0]];
    assert deck == [deck[0], deck[1]] + deck[2..];
    assert shuffled == [deck[1], deck[0]] + deck[2..];
    assert !shuffled[1].isFlipped && !shuffled[1].isMatched;
  }

  /** Handling the clicked position itself turns that card up. */
  lemma ClickAtPositionTurnsItUp(b: Board, p: nat)
    requires BoardOk(b) && p < |b.cards| && !ClickIgnored(b, p)
    ensures ClickSpec(b, p).cards[p].isFlipped
    ensures forall k :: 0 <= k < |b.cards| && k != p && !b.cards[k].isFlipped ==>
      !ClickSpec(b, p).cards[k].isFlipped
  {
  }

  /** The deck-building part of `initializeGame`: take the first `pairs`
      emoji, build the deck, shuffle it (the caller's `shuffled`, a
      rearrangement of that deck) and lay it out in a fresh array. */
  method Deal(pairs: nat, shuffled: seq<Card>) returns (a: array<Card>)
    requires pairs <= EmojiCount
    requires IsShuffleOf(shuffled, Deck(FirstEmojis(pairs)))
    ensures fresh(a) && a[..] == shuffled
    ensures BoardOk(Dealt(shuffled))
  {
    var selectedEmojis := FirstEmojis(pairs);
    var gameCards := BuildDeck(selectedEmojis);
    assert IsShuffleOf(shuffled, gameCards);
    DealtOk(pairs, shuffled);
    a := new Card[|shuffled|](k requires 0 <= k < |shuffled| => shuffled[k]);
  }

  /** The component's state; `cards` is the array the handlers change in
      place. */
  class MemoryBoard {
    var cards: array<Card>
    /** `flippedCards`: indices of the face-up cards awaiting comparison. */
    var flipped: seq<nat>
    var score: nat
    var moves: nat
    var gameStarted: bool
    var gameOver: bool
    var difficulty: Difficulty
    var timeLeft: nat
    var bestScore: nat
    /** The 1000 ms callback that turns a mismatched pair back over is pending. */
    var unflipDue: bool
    /** The 500 ms callback that ends a completed game is pending. */
    var finishDue: bool

    function Snapshot(): Board
      reads this, cards
    {
      Board(cards[..], flipped, score, moves, unflipDue, finishDue)
    }

    ghost predicate Valid()
      reads this, cards
    {
      BoardOk(Snapshot())
    }

    /** The state when the component mounts. */
    constructor ()
      ensures Valid()
      ensures cards.Length == 0 && flipped == [] && score == 0 && moves == 0
      ensures !gameStarted && !gameOver && difficulty == Easy && timeLeft == 120
      ensures bestScore == 0 && !unflipDue && !finishDue
    {
      cards := new Card[0];
      flipped := [];
      score := 0;
      moves := 0;
      gameStarted := false;
      gameOver := false;
      difficulty := Easy;
      timeLeft := 120;
      bestScore := 0;
      unflipDue := false;
      finishDue := false;
    }

    /** The difficulty buttons, shown only before the first game. */
    method SetDifficulty(d: Difficulty)
      requires !gameStarted
      modifies this
      ensures difficulty == d
      ensures cards == old(cards) && flipped == old(flipped) && score == old(score)
      ensures moves == old(moves) && gameStarted == old(gameStarted) && gameOver == old(gameOver)
      ensures timeLeft == old(timeLeft) && bestScore == old(bestScore)
      ensures unflipDue == old(unflipDue) && finishDue == old(finishDue)
    {
      difficulty := d;
    }

    /** `initializeGame`: deal a fresh shuffled deck, clear the pending list,
        score and moves, and set the clock from the settings. Callbacks still
        pending from the previous game are dropped. */
    method InitializeGame(shuffled: seq<Card>)
      requires IsShuffleOf(shuffled, Deck(FirstEmojis(DifficultySettings(difficulty).pairs)))
      modifies this
      ensures fresh(cards)
      ensures Snapshot() == Dealt(shuffled)
      ensures Valid()
      ensures !gameOver && timeLeft == DifficultySettings(difficulty).time
      ensures gameStarted == old(gameStarted) && difficulty == old(difficulty)
      ensures bestScore == old(bestScore)
    {
      var settings := DifficultySettings(difficulty);
      assert settings.pairs <= EmojiCount by { SettingsFitBoard(difficulty); }
      flipped := [];
      score := 0;
      moves := 0;
      gameOver := false;
      timeLeft := settings.time;
      unflipDue := false;
      finishDue := false;
      cards := Deal(settings.pairs, shuffled);
    }

    /** `startGame`, reached from the start screen or from "Play Again". */
    method StartGame(shuffled: seq<Card>)
      requires !gameStarted || gameOver
      requires IsShuffleOf(shuffled, Deck(FirstEmojis(DifficultySettings(difficulty).pairs)))
      modifies this
      ensures fresh(cards) && gameStarted
      ensures Snapshot() == Dealt(shuffled)
      ensures Valid()
      ensures !gameOver && timeLeft == DifficultySettings(difficulty).time
      ensures difficulty == old(difficulty) && bestScore == old(bestScore)
    {
      gameStarted := true;
      InitializeGame(shuffled);
    }

    /** `handleCardClick(cardId)`, which uses `cardId` as an index into the
        board and changes the card records in place. */
    method HandleCardClick(cardId: nat)
      requires Valid() && cardId < cards.Length
      modifies this, cards
      ensures cards == old(cards)
      ensures Snapshot() == ClickSpec(old(Snapshot()), cardId)
      ensures Valid()
      ensures gameStarted == old(gameStarted) && gameOver == old(gameOver)
      ensures difficulty == old(difficulty) && timeLeft == old(timeLeft)
      ensures bestScore == old(bestScore)
    {
      ghost var b := Snapshot();
      ClickKeepsInvariant(b, cardId);
      if |flipped| == 2 || cards[cardId].isFlipped || cards[cardId].isMatched {
        return;
      }
      ClickSpecTurnsUp(b, cardId);
      SetFlipped(cardId, true);
      flipped := flipped + [cardId];
      if |flipped| == 2 {
        ComparePending();
      }
    }

    /** The rest of the handler once two cards are pending: one more move,
        then either both cards are marked matched, 10 points are scored, the
        pending list is cleared and, when every card is matched, the end of
        the game is scheduled; or turning them back over is scheduled. */
    method ComparePending()
      requires |flipped| == 2 && flipped[0] < cards.Length && flipped[1] < cards.Length
      modifies this, cards
      ensures cards == old(cards)
      ensures var cs := old(cards[..]);
        var firstId, secondId := old(flipped[0]), old(flipped[1]);
        if cs[firstId].emoji == cs[secondId].emoji then
          var cs1 := cs[firstId := cs[firstId].(isMatched := true)];
          var cs2 := cs1[secondId := cs1[secondId].(isMatched := true)];
          Snapshot() == Board(cs2, [], old(score) + 10, old(moves) + 1, old(unflipDue),
                              old(finishDue) || AllMatched(cs2))
        else
          Snapshot() == old(Snapshot()).(moves := old(moves) + 1, unflipDue := true)
      ensures gameStarted == old(gameStarted) && gameOver == old(gameOver)
      ensures difficulty == old(difficulty) && timeLeft == old(timeLeft)
      ensures bestScore == old(bestScore)
    {
      moves := moves + 1;
      var firstId, secondId := flipped[0], flipped[1];
      if cards[firstId].emoji == cards[secondId].emoji {
        SetMatched(firstId);
        SetMatched(secondId);
        score := score + 10;
        flipped := [];
        finishDue := finishDue || AllMatched(cards[..]);
      } else {
        unflipDue := true;
      }
    }

    /** `newCards[i].isFlipped = up`: one card record changed in place. */
    method SetFlipped(i: nat, up: bool)
      requires i < cards.Length
      modifies cards
      ensures cards[..] == old(cards[..])[i := old(cards[i]).(isFlipped := up)]
    {
      cards[i] := cards[i].(isFlipped := up);
    }

    /** `newCards[i].isMatched = true`. */
    method SetMatched(i: nat)
      requires i < cards.Length
      modifies cards
      ensures cards[..] == old(cards[..])[i := old(cards[i]).(isMatched := true)]
    {
      cards[i] := cards[i].(isMatched := true);
    }

    /** The click on the board card at position `p`: the handler is given the
        card's id, which after the shuffle need not be `p`. */
    method ClickCardAt(p: nat)
      requires Valid() && gameStarted && !gameOver && p < cards.Length
      modifies this, cards
      ensures cards == old(cards)
      ensures Snapshot() == ClickSpec(old(Snapshot()), old(cards[p].id))
      ensures Valid()
      ensures gameStarted == old(gameStarted) && gameOver == old(gameOver)
      ensures difficulty == old(difficulty) && timeLeft == old(timeLeft)
      ensures bestScore == old(bestScore)
    {
      HandleCardClick(cards[p].id);
    }

    /** The click as evidently intended: the card at position `p` is the one
        handled. */
    method ClickCardAtPosition(p: nat)
      requires Valid() && gameStarted && !gameOver && p < cards.Length
      modifies this, cards
      ensures cards == old(cards)
      ensures Snapshot() == ClickSpec(old(Snapshot()), p)
      ensures Valid()
      ensures gameStarted == old(gameStarted) && gameOver == old(gameOver)
      ensures difficulty == old(difficulty) && timeLeft == old(timeLeft)
      ensures bestScore == old(bestScore)
    {
      HandleCardClick(p);
    }

    /** The 1000 ms callback after a mismatch. */
    method UnflipStep()
      requires Valid() && unflipDue
      modifies this, cards
      ensures cards == old(cards)
      ensures Snapshot() == UnflipSpec(old(Snapshot()))
      ensures Valid()
      ensures gameStarted == old(gameStarted) && gameOver == old(gameOver)
      ensures difficulty == old(difficulty) && timeLeft == old(timeLeft)
      ensures bestScore == old(bestScore)
    {
      UnflipKeepsInvariant(Snapshot());
      var firstId, secondId := flipped[0], flipped[1];
      SetFlipped(firstId, false);
      SetFlipped(secondId, false);
      flipped := [];
      unflipDue := false;
    }

    /** The 500 ms callback after the last pair is matched: the game is over
        and the best score becomes the larger of itself and this game's
        score. */
    method FinishStep()
      requires Valid() && finishDue
      modifies this
      ensures gameOver
      ensures Snapshot() == old(Snapshot()).(finishDue := false)
      ensures Valid()
      ensures bestScore == if old(score) > old(bestScore) then old(score) else old(bestScore)
      ensures gameStarted == old(gameStarted) && difficulty == old(difficulty)
      ensures timeLeft == old(timeLeft)
    {
      finishDue := false;
      gameOver := true;
      if score > bestScore {
        bestScore := score;
      }
    }

    /** One second of the countdown effect; reaching 0 ends the game. */
    method Tick()
      requires Valid() && gameStarted && !gameOver && timeLeft > 0
      modifies this
      ensures Snapshot() == old(Snapshot()) && Valid()
      ensures timeLeft == old(timeLeft) - 1 && gameOver == (timeLeft == 0)
      ensures gameStarted == old(gameStarted) && difficulty == old(difficulty)
      ensures bestScore == old(bestScore)
    {
      timeLeft := timeLeft - 1;
      if timeLeft == 0 {
        gameOver := true;
      }
    }
  }
}
