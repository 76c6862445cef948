/** Vocabulary shared by both variants of the listening quiz: catalog entries,
    the session phase, the finish tier, and the model of `Math.random()` that
    question generation draws from. */
module Quiz {

  datatype Option<+T> = None | Some(value: T)

  /** One catalog entry `{ word, jyutping }`: the written word shown on an
      option button and its romanised pronunciation. */
  datatype WordEntry = WordEntry(word: string, jyutping: string)

  /** `gameState`: 'start', 'playing' or 'finished'. */
  datatype Phase = Start | Playing | Finished

  /** The three end-of-game messages, best first. */
  datatype Tier = Top | Middle | Bottom

  /** How an option button is drawn: before any answer, or after one as the
      right answer, the wrong choice, or neither. */
  datatype Mark = Plain | MarkedCorrect | MarkedWrong | Dimmed

  /** The rank of a tier, 2 for the best message. */
  function TierRank(t: Tier): nat
  {
    match t
    case Top => 2
    case Middle => 1
    case Bottom => 0
  }

  // ---------------------------------------------------------------------
  // Randomness. `Math.random()` is modelled as a value supplied by the
  // caller: a real in [0, 1). Nothing is said about its distribution.
  // ---------------------------------------------------------------------

  predicate IsRandom(x: real)
  {
    0.0 <= x < 1.0
  }

  predicate AllRandom(xs: seq<real>)
  {
    forall k :: 0 <= k < |xs| ==> IsRandom(xs[k])
  }

  /** `Math.floor(Math.random() * n)`: a catalog index drawn from `x`. */
  function RandomIndex(x: real, n: nat): (i: nat)
    requires IsRandom(x) && n > 0
    ensures i < n
  {
    assert 0.0 <= x * n as real < n as real by { ScaleBelow(x, n); }
    (x * n as real).Floor
  }

  lemma ScaleBelow(x: real, n: nat)
    requires IsRandom(x) && n > 0
    ensures 0.0 <= x * n as real < n as real
  {
    var m := n as real;
    assert x * m <= x * m + (1.0 - x) * m;
  }

  /** The index at which the do-while loop that picks the distractor stops:
      the first draw whose index differs from `target`, or None when every
      supplied draw lands on `target` (the source loop would keep drawing). */
  function DistractorIndex(draws: seq<real>, n: nat, target: nat): (r: Option<nat>)
    requires n > 0 && AllRandom(draws)
    ensures r.Some? ==> r.value < n && r.value != target
    ensures r.None? <==> forall k :: 0 <= k < |draws| ==> RandomIndex(draws[k], n) == target
  {
    if |draws| == 0 then None
    else if RandomIndex(draws[0], n) != target then Some(RandomIndex(draws[0], n))
    else
      var rest := DistractorIndex(draws[1..], n, target);
      assert forall k :: 1 <= k < |draws| ==> draws[k] == draws[1..][k - 1];
      rest
  }

  /** The distractor loop terminates within the supplied draws. */
  predicate ExitsWithin(draws: seq<real>, n: nat, target: nat)
    requires n > 0 && AllRandom(draws)
  {
    exists k :: 0 <= k < |draws| && RandomIndex(draws[k], n) != target
  }

  /** The loop stops at the first draw off the target, and every draw before
      it landed on the target. */
  lemma {:induction false} DistractorIndexIsFirstDiffering(draws: seq<real>, n: nat, target: nat, k: nat)
    requires n > 0 && AllRandom(draws)
    requires k < |draws| && RandomIndex(draws[k], n) != target
    requires forall j :: 0 <= j < k ==> RandomIndex(draws[j], n) == target
    ensures DistractorIndex(draws, n, target) == Some(RandomIndex(draws[k], n))
  {
    if k > 0 {
      assert forall j :: 0 <= j < k - 1 ==> draws[1..][j] == draws[j + 1];
      DistractorIndexIsFirstDiffering(draws[1..], n, target, k - 1);
    }
  }

  /** The do-while loop both variants run to pick the distractor: draw an
      index, and draw again while it is the target's. */
  method DrawDistractor(draws: seq<real>, n: nat, target: nat) returns (d: nat)
    requires n > 0 && AllRandom(draws) && ExitsWithin(draws, n, target)
    ensures DistractorIndex(draws, n, target) == Some(d)
  {
    var k := 0;
    d := RandomIndex(draws[k], n);
    k := k + 1;
    while d == target
      invariant 1 <= k <= |draws|
      invariant d == RandomIndex(draws[k - 1], n)
      invariant forall j :: 0 <= j < k - 1 ==> RandomIndex(draws[j], n) == target
      invariant d == target ==> exists j :: k <= j < |draws| && RandomIndex(draws[j], n) != target
      decreases |draws| - k
    {
      d := RandomIndex(draws[k], n);
      k := k + 1;
    }
    DistractorIndexIsFirstDiffering(draws, n, target, k - 1);
  }

  /** With a one-entry catalog every draw lands on the target, so the
      distractor loop never exits. */
  lemma {:induction false} OneEntryNeverExits(draws: seq<real>, target: nat)
    requires AllRandom(draws) && target < 1
    ensures !ExitsWithin(draws, 1, target)
    ensures DistractorIndex(draws, 1, target) == None
  {
    forall k | 0 <= k < |draws| ensures RandomIndex(draws[k], 1) == target { }
  }

  // ---------------------------------------------------------------------
  // Per-round history of a session: whether each accepted answer scored.
  // ---------------------------------------------------------------------

  /** The number of scoring answers in `h`. */
  function CountTrue(h: seq<bool>): (c: nat)
  {
    if h == [] then 0 else CountTrue(h[..|h| - 1]) + (if h[|h| - 1] then 1 else 0)
  }

  /** Recording one more answer adds one to the count exactly when it scored. */
  lemma CountTrueAppend(h: seq<bool>, b: bool)
    ensures CountTrue(h + [b]) == CountTrue(h) + (if b then 1 else 0)
  {
    assert (h + [b])[..|h|] == h;
  }

  lemma {:induction false} CountTrueBounded(h: seq<bool>)
    ensures CountTrue(h) <= |h|
    ensures CountTrue(h) == |h| <==> forall k :: 0 <= k < |h| ==> h[k]
  {
    if h != [] {
      var p := h[..|h| - 1];
      CountTrueBounded(p);
      assert forall k :: 0 <= k < |p| ==> p[k] == h[k];
    }
  }
}
