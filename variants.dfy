/** How the two variants of the quiz differ where both decide the same thing. */
module Variants {
  import opened Quiz
  import AppGame
  import IndexGame

  /** Both play ten rounds; their end-of-game tiers agree on every reachable
      score except 5, which is the middle message in src/App.jsx (half of the
      rounds) and the bottom one in index.jsx (fewer than six). */
  lemma FinishTiersDifferOnlyAtFive(score: int)
    requires 0 <= score <= AppGame.TotalRounds
    ensures AppGame.TotalRounds == IndexGame.TotalRounds
    ensures AppGame.FinishTier(score) == IndexGame.FinishTier(score) <==> score != 5
    ensures score == 5 ==> AppGame.FinishTier(score) == Middle && IndexGame.FinishTier(score) == Bottom
  {
  }
}
