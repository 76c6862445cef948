/** The quiz session of the component in src/App.jsx. A question is a value
    built by GenerateQuestion; the handlers reset the answer state themselves.
    The component works over a word catalog, which in the source is the
    module constant `dictionary` (AppWords.Dictionary). References to catalog
    entries are modelled by their index in the catalog, so the source's `===`
    on entries is equality of indices and its `.word ===` is equality of
    `catalog[i].word`. */
module AppGame {
  import opened Quiz
  
  /** `TOTAL_ROUNDS`. */
  const TotalRounds: nat := 10

  /** `lastFeedback`: 'correct' or 'wrong'. */
  datatype Feedback = Correct | Wrong

  /** `{ target, options }`, as catalog indices. */
  datatype Question = Question(target: nat, options: seq<nat>)

  /** A question of a catalog of `n` entries: two distinct entries, one of
      them the target. */
  predicate IsQuestion(q: Question, n: nat)
  {
    |q.options| == 2 && q.options[0] < n && q.options[1] < n &&
    q.options[0] != q.options[1] && q.target in q.options
  }

  /** The randomness one call of GenerateQuestion consumes: the target draw,
      the draws of the distractor loop (it must stop within them) and the
      draw that orders the options. */
  predicate CanGenerate(catalog: seq<WordEntry>, targetDraw: real, distractorDraws: seq<real>, orderDraw: real)
  {
    |catalog| > 0 && IsRandom(targetDraw) && AllRandom(distractorDraws) && IsRandom(orderDraw) &&
    ExitsWithin(distractorDraws, |catalog|, RandomIndex(targetDraw, |catalog|))
  }

  /** The question `generateQuestion` returns for the given draws. */
  function QuestionFor(catalog: seq<WordEntry>, targetDraw: real, distractorDraws: seq<real>, orderDraw: real): (q: Question)
    requires CanGenerate(catalog, targetDraw, distractorDraws, orderDraw)
    ensures IsQuestion(q, |catalog|)
    ensures q.target == RandomIndex(targetDraw, |catalog|)
    ensures q.options[0] == q.target <==> orderDraw < 0.5
  {
    var t := RandomIndex(targetDraw, |catalog|);
    var d := DistractorIndex(distractorDraws, |catalog|, t).value;
    Question(t, if orderDraw < 0.5 then [t, d] else [d, t])
  }

  /** `generateQuestion`: draw the target, redraw the distractor until it is
      another entry, then put the target first when the order draw is below
      one half. */
  method GenerateQuestion(catalog: seq<WordEntry>, targetDraw: real, distractorDraws: seq<real>, orderDraw: real) returns (q: Question)
    requires CanGenerate(catalog, targetDraw, distractorDraws, orderDraw)
    ensures q == QuestionFor(catalog, targetDraw, distractorDraws, orderDraw)
  {
    var n := |catalog|;
    var targetIndex := RandomIndex(targetDraw, n);
    var distractorIndex := DrawDistractor(distractorDraws, n, targetIndex);
    var options := if orderDraw < 0.5 then [targetIndex, distractorIndex] else [distractorIndex, targetIndex];
    q := Question(targetIndex, options);
  }

  /** The answer counts when the chosen option shows the target's text; in
      particular choosing the target itself always counts. */
  function IsCorrectAnswer(catalog: seq<WordEntry>, option: nat, q: Question): (b: bool)
    requires option < |catalog| && q.target < |catalog|
    ensures option == q.target ==> b
  {
    catalog[option].word == catalog[q.target].word
  }

  /** The class chosen for an option button: plain before any answer; after
      one, the target (by identity) is marked correct, the selected
      non-target is marked wrong and any other option is dimmed. */
  function OptionMark(option: nat, q: Question, selected: Option<nat>): (m: Mark)
    ensures m == Plain <==> selected.None?
    ensures m == MarkedCorrect <==> selected.Some? && option == q.target
    ensures m == MarkedWrong <==> selected == Some(option) && option != q.target
  {
    if selected.Some? then
      if option == q.target then MarkedCorrect
      else if option == selected.value && option != q.target then MarkedWrong
      else Dimmed
    else Plain
  }

  /** After an answer to a question, exactly the target option is marked
      correct; the other option is marked wrong when it was chosen and dimmed
      otherwise. */
  lemma MarksAfterAnswer(q: Question, s: nat, n: nat)
    requires IsQuestion(q, n) && s in q.options
    ensures forall i :: 0 <= i < 2 ==>
      (OptionMark(q.options[i], q, Some(s)) == MarkedCorrect <==> q.options[i] == q.target)
    ensures forall i :: 0 <= i < 2 && q.options[i] != q.target ==>
      OptionMark(q.options[i], q, Some(s)) == (if s == q.target then Dimmed else MarkedWrong)
  {
  }

  /** The finish message tier: all rounds right, at least half right, or less. */
  function FinishTier(score: int): (t: Tier)
    ensures t == Top <==> score == TotalRounds
    ensures t == Middle <==> score != TotalRounds && 2 * score >= TotalRounds
    ensures t == Bottom <==> 2 * score < TotalRounds
  {
    if score == TotalRounds then Top
    else if score as real >= TotalRounds as real / 2.0 then Middle
    else Bottom
  }

  /** A better score never gets a worse message. */
  lemma FinishTierMonotone(a: int, b: int)
    requires a <= b <= TotalRounds
    ensures TierRank(FinishTier(a)) <= TierRank(FinishTier(b))
  {
  }

  /** The text shown on the finish screen for each tier. */
  function FinishMessage(t: Tier): string
  {
    match t
    case Top => "嘩！你係粵語小天才！🏆"
    case Middle => "做得好！繼續加油！🌟"
    case Bottom => "唔緊要，下次會更好！💪"
  }

  /** The finish screen shows the trophy message exactly for a full score,
      the praise for at least half, and the encouragement below half. */
  lemma FinishMessageShown(score: int)
    ensures FinishMessage(FinishTier(score)) == "嘩！你係粵語小天才！🏆" <==> score == TotalRounds
    ensures FinishMessage(FinishTier(score)) == "做得好！繼續加油！🌟" <==>
      score != TotalRounds && 2 * score >= TotalRounds
    ensures FinishMessage(FinishTier(score)) == "唔緊要，下次會更好！💪" <==> 2 * score < TotalRounds
  {
  }

  /** The session state of the component. */
  class Game {
    /** The word catalog the component draws from. */
    const catalog: seq<WordEntry>
    var gameState: Phase
    var score: nat
    var currentRound: nat
    var currentQuestion: Option<Question>
    var lastFeedback: Option<Feedback>
    var selectedOption: Option<nat>
    /** The 2000 ms advance callback has been scheduled and not yet run. */
    var advanceScheduled: bool
    /** Whether each answer accepted in this session scored. */
    ghost var history: seq<bool>

    ghost predicate Valid()
      reads this
    {
      1 <= currentRound <= TotalRounds &&
      (gameState == Start ==>
        score == 0 && currentRound == 1 && currentQuestion.None? &&
        selectedOption.None? && history == []) &&
      (gameState != Start ==>
        currentQuestion.Some? && IsQuestion(currentQuestion.value, |catalog|)) &&
      (selectedOption.Some? <==> lastFeedback.Some?) &&
      (selectedOption.Some? ==>
        selectedOption.value < |catalog| && currentQuestion.Some? &&
        currentQuestion.value.target < |catalog| &&
        history != [] &&
        history[|history| - 1] == IsCorrectAnswer(catalog, selectedOption.value, currentQuestion.value) &&
        lastFeedback == Some(if history[|history| - 1] then Correct else Wrong)) &&
      |history| == currentRound - 1 + (if selectedOption.Some? then 1 else 0) &&
      score == CountTrue(history) &&
      (advanceScheduled <==> gameState == Playing && selectedOption.Some?) &&
      (gameState == Finished ==> currentRound == TotalRounds && selectedOption.Some?)
    }

    /** The initial state of the component over `catalog`: the start screen. */
    constructor (catalog: seq<WordEntry>)
      ensures Valid() && this.catalog == catalog
      ensures gameState == Start && score == 0 && currentRound == 1
      ensures currentQuestion.None? && lastFeedback.None? && selectedOption.None?
      ensures !advanceScheduled
    {
      this.catalog := catalog;
      gameState := Start;
      score := 0;
      currentRound := 1;
      currentQuestion := None;
      lastFeedback := None;
      selectedOption := None;
      advanceScheduled := false;
      history := [];
    }

    /** The score never exceeds the number of rounds played, nor the total. */
    lemma ScoreBounded()
      requires Valid()
      ensures score <= currentRound <= TotalRounds
      ensures selectedOption.None? ==> score < currentRound
    {
      CountTrueBounded(history);
    }

    /** `startGame`, run from the start or finished screen (the only places
        its button is drawn). */
    method StartGame(targetDraw: real, distractorDraws: seq<real>, orderDraw: real)
      requires Valid() && gameState != Playing
      requires CanGenerate(catalog, targetDraw, distractorDraws, orderDraw)
      modifies this
      ensures Valid()
      ensures score == 0 && currentRound == 1 && gameState == Playing
      ensures lastFeedback.None? && selectedOption.None? && !advanceScheduled
      ensures currentQuestion == Some(QuestionFor(catalog, targetDraw, distractorDraws, orderDraw))
      ensures history == []
    {
      score := 0;
      currentRound := 1;
      gameState := Playing;
      lastFeedback := None;
      selectedOption := None;
      var newQuestion := GenerateQuestion(catalog, targetDraw, distractorDraws, orderDraw);
      currentQuestion := Some(newQuestion);
      advanceScheduled := false;
      history := [];
    }

    /** `restartGame`: the same as `startGame`. */
    method RestartGame(targetDraw: real, distractorDraws: seq<real>, orderDraw: real)
      requires Valid() && gameState != Playing
      requires CanGenerate(catalog, targetDraw, distractorDraws, orderDraw)
      modifies this
      ensures Valid()
      ensures score == 0 && currentRound == 1 && gameState == Playing
      ensures lastFeedback.None? && selectedOption.None? && !advanceScheduled
      ensures currentQuestion == Some(QuestionFor(catalog, targetDraw, distractorDraws, orderDraw))
      ensures history == []
    {
      StartGame(targetDraw, distractorDraws, orderDraw);
    }

    /** `handleOptionClick`: ignored once an option is selected; otherwise
        records the selection, scores one point when the option shows the
        target's text, sets the feedback and schedules the advance. Returns
        the text handed to speech synthesis, if any. */
    method HandleOptionClick(option: nat) returns (spoken: Option<string>)
      requires Valid() && currentQuestion.Some? && option < |catalog|
      modifies this
      ensures Valid() && currentQuestion == old(currentQuestion)
      ensures old(selectedOption).Some? ==>
        unchanged(this) && spoken.None?
      ensures old(selectedOption).None? ==>
        var q := currentQuestion.value;
        var correct := IsCorrectAnswer(catalog, option, q);
        selectedOption == Some(option) &&
        score == old(score) + (if correct then 1 else 0) &&
        lastFeedback == Some(if correct then Correct else Wrong) &&
        spoken == Some(if correct then "啱咗！" + catalog[option].word
                       else "錯咗喇，正確係 " + catalog[q.target].word) &&
        history == old(history) + [correct] &&
        advanceScheduled && gameState == old(gameState) == Playing &&
        currentRound == old(currentRound)
    {
      if selectedOption.Some? {
        return None;
      }
      var q := currentQuestion.value;
      var isCorrect := IsCorrectAnswer(catalog, option, q);
      CountTrueAppend(history, isCorrect);
      selectedOption := Some(option);
      if isCorrect {
        score := score + 1;
        lastFeedback := Some(Correct);
        spoken := Some("啱咗！" + catalog[option].word);
      } else {
        lastFeedback := Some(Wrong);
        spoken := Some("錯咗喇，正確係 " + catalog[q.target].word);
      }
      history := history + [isCorrect];
      advanceScheduled := true;
    }

    /** The 2000 ms callback scheduled by an answer: finish after the last
        round, otherwise move to the next round with a fresh question. The
        draws are used only when a question is generated. */
    method Advance(targetDraw: real, distractorDraws: seq<real>, orderDraw: real)
      requires Valid() && advanceScheduled
      requires currentRound < TotalRounds ==> CanGenerate(catalog, targetDraw, distractorDraws, orderDraw)
      modifies this
      ensures Valid() && !advanceScheduled && history == old(history)
      ensures old(currentRound) >= TotalRounds ==>
        gameState == Finished && currentRound == old(currentRound) && score == old(score) &&
        currentQuestion == old(currentQuestion) && selectedOption == old(selectedOption) &&
        lastFeedback == old(lastFeedback)
      ensures old(currentRound) < TotalRounds ==>
        gameState == Playing && currentRound == old(currentRound) + 1 && score == old(score) &&
        lastFeedback.None? && selectedOption.None? &&
        currentQuestion == Some(QuestionFor(catalog, targetDraw, distractorDraws, orderDraw))
    {
      if currentRound >= TotalRounds {
        gameState := Finished;
      } else {
        currentRound := currentRound + 1;
        lastFeedback := None;
        selectedOption := None;
        var newQuestion := GenerateQuestion(catalog, targetDraw, distractorDraws, orderDraw);
        currentQuestion := Some(newQuestion);
      }
      advanceScheduled := false;
    }

    /** The speaker button of the playing screen speaks the target's text. */
    method ReplayTarget() returns (spoken: string)
      requires Valid() && currentQuestion.Some?
      ensures spoken == catalog[currentQuestion.value.target].word
    {
      spoken := catalog[currentQuestion.value.target].word;
    }

    /** On the finished screen, every round has been answered and the score
        is the number of answers that showed the target's text. */
    lemma FinishedSession()
      requires Valid() && gameState == Finished
      ensures |history| == TotalRounds && score == CountTrue(history)
      ensures score == TotalRounds <==> forall k :: 0 <= k < |history| ==> history[k]
    {
      CountTrueBounded(history);
    }
  }

  /** The randomness of one question. */
  datatype Draw = Draw(target: real, distractors: seq<real>, order: real)

  predicate CanGenerateFrom(catalog: seq<WordEntry>, d: Draw)
  {
    CanGenerate(catalog, d.target, d.distractors, d.order)
  }

  /** A session in which the player always clicks the target: start, then
      ten rounds of a click followed by the advance callback. It ends on the
      finished screen with every round scored and the top message. */
  method PlayAllCorrect(catalog: seq<WordEntry>, draws: seq<Draw>) returns (phase: Phase, score: nat, tier: Tier)
    requires |draws| == TotalRounds
    requires forall k :: 0 <= k < |draws| ==> CanGenerateFrom(catalog, draws[k])
    ensures phase == Finished && score == TotalRounds && tier == Top
    ensures FinishMessage(tier) == "嘩！你係粵語小天才！🏆"
  {
    var g := new Game(catalog);
    g.StartGame(draws[0].target, draws[0].distractors, draws[0].order);
    var i := 1;
    while i <= TotalRounds
      invariant 1 <= i <= TotalRounds + 1
      invariant g.Valid() && g.catalog == catalog
      invariant i <= TotalRounds ==>
        g.gameState == Playing && g.currentRound == i && g.score == i - 1 && g.selectedOption.None?
      invariant i > TotalRounds ==> g.gameState == Finished && g.score == TotalRounds
    {
      var _ := g.HandleOptionClick(g.currentQuestion.value.target);
      var next := if i < TotalRounds then draws[i] else draws[0];
      g.Advance(next.target, next.distractors, next.order);
      i := i + 1;
    }
    phase, score := g.gameState, g.score;
    tier := FinishTier(score);
  }
}
