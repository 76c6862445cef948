/** The quiz session of the component in index.jsx. Here `generateQuestion`
    resets the answer state and installs the target and the shuffled options
    itself. References to catalog entries are modelled by their index in
    `WordDatabase`; every comparison the component makes is on `.word`. */
module IndexGame {
  import opened Quiz
  import opened IndexWords

  /** `TOTAL_ROUNDS`. */
  const TotalRounds: nat := 10

  // ---------------------------------------------------------------------
  // shuffleArray
  // ---------------------------------------------------------------------

  /** One exchange of two positions made while the copy is sorted. */
  datatype Exchange = Exchange(i: nat, j: nat)

  predicate ExchangesWithin(swaps: seq<Exchange>, len: nat)
  {
    forall k :: 0 <= k < |swaps| ==> swaps[k].i < len && swaps[k].j < len
  }

  function Swap<T>(s: seq<T>, i: nat, j: nat): (r: seq<T>)
    requires i < |s| && j < |s|
    ensures |r| == |s| && multiset(r) == multiset(s)
  {
    s[i := s[j]][j := s[i]]
  }

  /** `shuffleArray`: copy the array and sort the copy with a random
      comparator. Whatever the comparator answers, the sort only rearranges
      the copy; the exchanges it makes are supplied as `swaps`. The input is
      a value and is not changed. */
  function ShuffleArray<T>(a: seq<T>, swaps: seq<Exchange>): (r: seq<T>)
    requires ExchangesWithin(swaps, |a|)
    ensures |r| == |a| && multiset(r) == multiset(a)
    decreases |swaps|
  {
    if swaps == [] then a
    else ShuffleArray(Swap(a, swaps[0].i, swaps[0].j), swaps[1..])
  }

  /** Shuffling a pair gives the pair in one order or the other. */
  lemma ShufflePair<T>(x: T, y: T, swaps: seq<Exchange>)
    requires ExchangesWithin(swaps, 2)
    ensures ShuffleArray([x, y], swaps) in {[x, y], [y, x]}
  {
    var r := ShuffleArray([x, y], swaps);
    PairOfMultiset(r, x, y);
  }

  /** A two-element sequence with the elements of `[x, y]` is `[x, y]` or `[y, x]`. */
  lemma PairOfMultiset<T>(r: seq<T>, x: T, y: T)
    requires |r| == 2 && multiset(r) == multiset{x, y}
    ensures r == [x, y] || r == [y, x]
  {
    assert r == [r[0], r[1]];
    assert multiset(r) == multiset{r[0], r[1]};
    assert r[0] in multiset{x, y};
    if r[0] == x {
      assert multiset{r[1]} == multiset{y};
    } else {
      assert r[0] == y;
      assert multiset{r[1]} == multiset{x};
    }
  }

  /** Both orders are reachable. */
  lemma ShufflePairBothOrders<T>(x: T, y: T)
    ensures ShuffleArray([x, y], []) == [x, y]
    ensures ShuffleArray([x, y], [Exchange(0, 1)]) == [y, x]
  {
    assert ShuffleArray([x, y], [Exchange(0, 1)]) == ShuffleArray([y, x], []);
  }

  // ---------------------------------------------------------------------
  // Question generation
  // ---------------------------------------------------------------------

  /** The randomness one call of generateQuestion consumes: the target draw,
      the draws of the distractor loop (it must stop within them) and the
      exchanges the shuffle makes. */
  predicate CanGenerate(targetDraw: real, distractorDraws: seq<real>, swaps: seq<Exchange>)
  {
    |WordDatabase| > 0 && IsRandom(targetDraw) && AllRandom(distractorDraws) &&
    ExitsWithin(distractorDraws, |WordDatabase|, RandomIndex(targetDraw, |WordDatabase|)) &&
    ExchangesWithin(swaps, 2)
  }

  function TargetFor(targetDraw: real): (t: nat)
    requires IsRandom(targetDraw)
    ensures t < |WordDatabase|
  {
    RandomIndex(targetDraw, |WordDatabase|)
  }

  function DistractorFor(targetDraw: real, distractorDraws: seq<real>): (d: nat)
    requires IsRandom(targetDraw) && AllRandom(distractorDraws)
    requires ExitsWithin(distractorDraws, |WordDatabase|, TargetFor(targetDraw))
    ensures d < |WordDatabase| && d != TargetFor(targetDraw)
  {
    DistractorIndex(distractorDraws, |WordDatabase|, TargetFor(targetDraw)).value
  }

  /** The options installed by generateQuestion: the target and the
      distractor, in either order. */
  function OptionsFor(targetDraw: real, distractorDraws: seq<real>, swaps: seq<Exchange>): (o: seq<nat>)
    requires CanGenerate(targetDraw, distractorDraws, swaps)
    ensures var t, d := TargetFor(targetDraw), DistractorFor(targetDraw, distractorDraws);
      o == [t, d] || o == [d, t]
  {
    var t, d := TargetFor(targetDraw), DistractorFor(targetDraw, distractorDraws);
    ShufflePair(t, d, swaps);
    ShuffleArray([t, d], swaps)
  }

  // ---------------------------------------------------------------------
  // Pure classifiers
  // ---------------------------------------------------------------------

  /** `selected.word === targetWord.word`; picking the target itself always
      counts. */
  function IsCorrectAnswer(selected: nat, target: nat): (b: bool)
    requires selected < |WordDatabase| && target < |WordDatabase|
    ensures selected == target ==> b
  {
    WordDatabase[selected].word == WordDatabase[target].word
  }

  /** The style of an option button: plain before any answer; after one, an
      option showing the target's text is marked correct, one showing the
      selected text is marked wrong, and any other is dimmed. */
  function OptionMark(option: nat, target: nat, selected: Option<nat>): (m: Mark)
    requires option < |WordDatabase| && target < |WordDatabase|
    requires selected.Some? ==> selected.value < |WordDatabase|
    ensures m == Plain <==> selected.None?
    ensures m == MarkedCorrect <==> selected.Some? && IsCorrectAnswer(option, target)
    ensures m == MarkedWrong <==>
      selected.Some? && !IsCorrectAnswer(option, target) &&
      WordDatabase[selected.value].word == WordDatabase[option].word
  {
    if selected.None? then Plain
    else if WordDatabase[option].word == WordDatabase[target].word then MarkedCorrect
    else if WordDatabase[selected.value].word == WordDatabase[option].word then MarkedWrong
    else Dimmed
  }

  /** A question pairing the two 水 entries scores whichever option is
      picked, and after the answer both options are marked correct. */
  lemma WaterPairAlwaysCorrect(target: nat, options: seq<nat>, selected: nat)
    requires options == [15, 42] || options == [42, 15]
    requires target in options && selected in options
    ensures selected < |WordDatabase| && target < |WordDatabase|
    ensures IsCorrectAnswer(selected, target)
    ensures forall i :: 0 <= i < 2 ==> OptionMark(options[i], target, Some(selected)) == MarkedCorrect
  {
    WaterListedTwice();
  }

  /** The finish message tier: all rounds right, at least six right, or less. */
  function FinishTier(score: int): (t: Tier)
    ensures t == Top <==> score == TotalRounds
    ensures t == Middle <==> score != TotalRounds && score >= 6
    ensures t == Bottom <==> score < 6
  {
    if score == TotalRounds then Top
    else if score >= 6 then Middle
    else Bottom
  }

  /** The text shown on the finish screen for each tier. */
  function FinishMessage(t: Tier): string
  {
    match t
    case Top => "粵語小天才！太厲害了！"
    case Middle => "做得很好！繼續加油！"
    case Bottom => "再玩一次，你會更棒！"
  }

  /** The finish screen shows the top message exactly for a full score, the
      praise for at least six, and the encouragement below six. */
  lemma FinishMessageShown(score: int)
    ensures FinishMessage(FinishTier(score)) == "粵語小天才！太厲害了！" <==> score == TotalRounds
    ensures FinishMessage(FinishTier(score)) == "做得很好！繼續加油！" <==> score != TotalRounds && score >= 6
    ensures FinishMessage(FinishTier(score)) == "再玩一次，你會更棒！" <==> score < 6
  {
  }

  // ---------------------------------------------------------------------
  // The session
  // ---------------------------------------------------------------------

  /** The session state of the component. */
  class Game {
    var gameState: Phase
    var round: nat
    var score: nat
    var targetWord: Option<nat>
    var options: seq<nat>
    var hasAnswered: bool
    var isCorrect: Option<bool>
    var selectedOption: Option<nat>
    /** The 2000 ms advance callback has been scheduled and not yet run. */
    var advanceScheduled: bool
    /** The catalog index of the current distractor. */
    ghost var distractor: nat
    /** Whether each answer accepted in this session scored. */
    ghost var history: seq<bool>

    ghost predicate Valid()
      reads this
    {
      1 <= round <= TotalRounds &&
      (gameState == Start ==>
        score == 0 && round == 1 && targetWord.None? && options == [] &&
        !hasAnswered && history == []) &&
      (gameState != Start ==> targetWord.Some?) &&
      (targetWord.Some? ==>
        targetWord.value < |WordDatabase| && distractor < |WordDatabase| &&
        distractor != targetWord.value &&
        (options == [targetWord.value, distractor] || options == [distractor, targetWord.value])) &&
      (hasAnswered <==> selectedOption.Some?) &&
      (hasAnswered <==> isCorrect.Some?) &&
      (hasAnswered ==>
        targetWord.Some? && selectedOption.value < |WordDatabase| &&
        isCorrect == Some(IsCorrectAnswer(selectedOption.value, targetWord.value)) &&
        history != [] && history[|history| - 1] == isCorrect.value) &&
      |history| == round - 1 + (if hasAnswered then 1 else 0) &&
      score == CountTrue(history) &&
      (advanceScheduled <==> gameState == Playing && hasAnswered) &&
      (gameState == Finished ==> round == TotalRounds && hasAnswered)
    }

    /** The initial state of the component: the start screen. */
    constructor ()
      ensures Valid()
      ensures gameState == Start && round == 1 && score == 0
      ensures targetWord.None? && options == [] && !hasAnswered
      ensures isCorrect.None? && selectedOption.None? && !advanceScheduled
    {
      gameState := Start;
      round := 1;
      score := 0;
      targetWord := None;
      options := [];
      hasAnswered := false;
      isCorrect := None;
      selectedOption := None;
      advanceScheduled := false;
      distractor := 0;
      history := [];
    }

    /** The score never exceeds the number of rounds played, nor the total. */
    lemma ScoreBounded()
      requires Valid()
      ensures score <= round <= TotalRounds
      ensures !hasAnswered ==> score < round
    {
      CountTrueBounded(history);
    }

    /** `generateQuestion`: clear the answer state, draw the target, redraw
        the distractor until it is another entry, and install the shuffled
        pair as the options. */
    method GenerateQuestion(targetDraw: real, distractorDraws: seq<real>, swaps: seq<Exchange>)
      requires CanGenerate(targetDraw, distractorDraws, swaps)
      modifies this
      ensures !hasAnswered && isCorrect.None? && selectedOption.None?
      ensures targetWord == Some(TargetFor(targetDraw))
      ensures distractor == DistractorFor(targetDraw, distractorDraws)
      ensures options == OptionsFor(targetDraw, distractorDraws, swaps)
      ensures gameState == old(gameState) && round == old(round) && score == old(score)
      ensures advanceScheduled == old(advanceScheduled) && history == old(history)
    {
      hasAnswered := false;
      isCorrect := None;
      selectedOption := None;

      var targetIndex := TargetFor(targetDraw);
      targetWord := Some(targetIndex);

      var distractorIndex := DrawDistractor(distractorDraws, |WordDatabase|, targetIndex);
      distractor := distractorIndex;

      options := ShuffleArray([targetIndex, distractorIndex], swaps);
    }

    /** `startGame`, run from the start or finished screen (the only places
        its button is drawn). */
    method StartGame(targetDraw: real, distractorDraws: seq<real>, swaps: seq<Exchange>)
      requires Valid() && gameState != Playing
      requires CanGenerate(targetDraw, distractorDraws, swaps)
      modifies this
      ensures Valid()
      ensures score == 0 && round == 1 && gameState == Playing
      ensures !hasAnswered && isCorrect.None? && selectedOption.None? && !advanceScheduled
      ensures targetWord == Some(TargetFor(targetDraw))
      ensures options == OptionsFor(targetDraw, distractorDraws, swaps)
      ensures history == []
    {
      score := 0;
      round := 1;
      gameState := Playing;
      history := [];
      GenerateQuestion(targetDraw, distractorDraws, swaps);
    }

    /** `handleAnswer`: ignored once answered; otherwise records the answer,
        whether it shows the target's text, scores one point if so, and
        schedules the advance. */
    method HandleAnswer(selected: nat)
      requires Valid() && targetWord.Some? && selected < |WordDatabase|
      modifies this
      ensures Valid() && targetWord == old(targetWord)
      ensures old(hasAnswered) ==> unchanged(this)
      ensures !old(hasAnswered) ==>
        var correct := IsCorrectAnswer(selected, targetWord.value);
        hasAnswered && selectedOption == Some(selected) && isCorrect == Some(correct) &&
        score == old(score) + (if correct then 1 else 0) &&
        history == old(history) + [correct] && advanceScheduled &&
        gameState == old(gameState) == Playing && round == old(round) &&
        options == old(options)
    {
      if hasAnswered {
        return;
      }
      var correct := WordDatabase[selected].word == WordDatabase[targetWord.value].word;
      CountTrueAppend(history, correct);
      hasAnswered := true;
      selectedOption := Some(selected);
      isCorrect := Some(correct);
      if correct {
        score := score + 1;
      }
      history := history + [correct];
      advanceScheduled := true;
      assert history[|history| - 1] == correct;
    }

    /** The 2000 ms callback scheduled by an answer: finish after the last
        round, otherwise move to the next round and generate a question. The
        draws are used only when a question is generated. */
    method Advance(targetDraw: real, distractorDraws: seq<real>, swaps: seq<Exchange>)
      requires Valid() && advanceScheduled
      requires round < TotalRounds ==> CanGenerate(targetDraw, distractorDraws, swaps)
      modifies this
      ensures Valid() && !advanceScheduled && history == old(history) && score == old(score)
      ensures old(round) >= TotalRounds ==>
        gameState == Finished && round == old(round) && targetWord == old(targetWord) &&
        options == old(options) && hasAnswered && selectedOption == old(selectedOption) &&
        isCorrect == old(isCorrect)
      ensures old(round) < TotalRounds ==>
        gameState == Playing && round == old(round) + 1 &&
        !hasAnswered && isCorrect.None? && selectedOption.None? &&
        targetWord == Some(TargetFor(targetDraw)) &&
        options == OptionsFor(targetDraw, distractorDraws, swaps)
    {
      if round >= TotalRounds {
        gameState := Finished;
      } else {
        round := round + 1;
        GenerateQuestion(targetDraw, distractorDraws, swaps);
      }
      advanceScheduled := false;
    }

    /** `handleReplayAudio`: speaks the target's text when there is a target,
        and changes nothing. */
    method HandleReplayAudio() returns (spoken: Option<string>)
      requires Valid()
      ensures spoken.Some? <==> targetWord.Some?
      ensures targetWord.Some? ==> spoken.value == WordDatabase[targetWord.value].word
    {
      if targetWord.Some? {
        spoken := Some(WordDatabase[targetWord.value].word);
      } else {
        spoken := None;
      }
    }

    /** On the finished screen, every round has been answered and the score
        is the number of answers that showed the target's text. */
    lemma FinishedSession()
      requires Valid() && gameState == Finished
      ensures |history| == TotalRounds && score == CountTrue(history)
      ensures score == TotalRounds <==> forall k :: 0 <= k < |history| ==> history[k]
    {
      CountTrueBounded(history);
    }
  }

  /** The randomness of one question. */
  datatype Draw = Draw(target: real, distractors: seq<real>, swaps: seq<Exchange>)

  predicate CanGenerateFrom(d: Draw)
  {
    CanGenerate(d.target, d.distractors, d.swaps)
  }

  /** A session in which the player always picks the target: start, then
      ten rounds of an answer followed by the advance callback. It ends on
      the finished screen with every round scored and the top message. */
  method PlayAllCorrect(draws: seq<Draw>) returns (phase: Phase, score: nat, tier: Tier)
    requires |draws| == TotalRounds
    requires forall k :: 0 <= k < |draws| ==> CanGenerateFrom(draws[k])
    ensures phase == Finished && score == TotalRounds && tier == Top
    ensures FinishMessage(tier) == "粵語小天才！太厲害了！"
  {
    var g := new Game();
    g.StartGame(draws[0].target, draws[0].distractors, draws[0].swaps);
    var i := 1;
    while i <= TotalRounds
      invariant 1 <= i <= TotalRounds + 1
      invariant g.Valid()
      invariant i <= TotalRounds ==>
        g.gameState == Playing && g.round == i && g.score == i - 1 && !g.hasAnswered
      invariant i > TotalRounds ==> g.gameState == Finished && g.score == TotalRounds
    {
      g.HandleAnswer(g.targetWord.value);
      var next := if i < TotalRounds then draws[i] else draws[0];
      g.Advance(next.target, next.distractors, next.swaps);
      i := i + 1;
    }
    phase, score := g.gameState, g.score;
    tier := FinishTier(score);
  }
}
