/**
 * A photo that fades in while the player is within `revealThreshold` of it
 * and fades out only once the player is more than 1.5 thresholds away: a
 * hysteresis between the two distances keeps whatever state it had.
 */
module PhotoReveal {
  import opened RealArith

  const DEFAULT_THRESHOLD: real := 300.0
  const FADE_OUT_FACTOR: real := 1.5

  /** `Math.max(0, Math.min(1, v))`. */
  function Clamp01(v: real): (r: real)
    ensures 0.0 <= r <= 1.0
    ensures 0.0 <= v <= 1.0 ==> r == v
    ensures v < 0.0 ==> r == 0.0
    ensures v > 1.0 ==> r == 1.0
  {
    if v > 1.0 then 1.0 else if v < 0.0 then 0.0 else v
  }

  datatype RevealState = RevealState(revealed: bool, opacity: real)

  const INITIAL: RevealState := RevealState(false, 0.0)

  /** One run of the effect, for the current player and photo positions. */
  function Step(s: RevealState, playerX: real, photoX: real, threshold: real): (t: RevealState)
    ensures s.revealed ==> t.revealed
    ensures 0.0 <= s.opacity <= 1.0 ==> 0.0 <= t.opacity <= 1.0
  {
    var distance := Abs(playerX - photoX);
    if distance < threshold then
      RevealState(true, Clamp01(1.0 - distance / threshold))
    else if s.revealed && distance > threshold * FADE_OUT_FACTOR then
      s.(opacity := 0.0)
    else
      s
  }

  /** The state every reachable configuration satisfies. */
  ghost predicate Inv(s: RevealState) {
    0.0 <= s.opacity <= 1.0 && (!s.revealed ==> s.opacity == 0.0)
  }

  lemma StepPreservesInv(s: RevealState, playerX: real, photoX: real, threshold: real)
    requires Inv(s)
    ensures Inv(Step(s, playerX, photoX, threshold))
  {
  }

  /** Close to the photo it is revealed, with opacity falling linearly from 1 at distance 0. */
  lemma NearRevealsLinearly(s: RevealState, playerX: real, photoX: real, threshold: real)
    requires Abs(playerX - photoX) < threshold
    ensures var t := Step(s, playerX, photoX, threshold);
      t.revealed && 0.0 < t.opacity <= 1.0 && t.opacity == 1.0 - Abs(playerX - photoX) / threshold
  {
    var d := Abs(playerX - photoX);
    assert threshold > 0.0;
    var q := d / threshold;
    assert q * threshold == d;
    if q >= 1.0 {
      assert false;
    }

  }

  /** Between one and one-and-a-half thresholds nothing changes. */
  lemma Hysteresis(s: RevealState, playerX: real, photoX: real, threshold: real)
    requires threshold <= Abs(playerX - photoX) <= threshold * FADE_OUT_FACTOR
    ensures Step(s, playerX, photoX, threshold) == s
  {
  }

  /** A visible photo goes dark only when it was revealed and the player is beyond 1.5 thresholds. */
  lemma DarkensOnlyFar(s: RevealState, playerX: real, photoX: real, threshold: real)
    requires s.opacity != 0.0
    requires Step(s, playerX, photoX, threshold).opacity == 0.0
    ensures s.revealed && Abs(playerX - photoX) > threshold * FADE_OUT_FACTOR
  {
    var d := Abs(playerX - photoX);
    if d < threshold {
      NearRevealsLinearly(s, playerX, photoX, threshold);
    }
  }

  /** Re-running the effect (it depends on `revealed`) changes nothing more. */
  lemma StepIdempotent(s: RevealState, playerX: real, photoX: real, threshold: real)
    ensures var t := Step(s, playerX, photoX, threshold);
      Step(t, playerX, photoX, threshold) == t
  {
  }

  /** The state after the player visits the positions `playerXs` in turn. */
  function Run(s: RevealState, playerXs: seq<real>, photoX: real, threshold: real): RevealState
    decreases |playerXs|
  {
    if |playerXs| == 0 then s else Run(Step(s, playerXs[0], photoX, threshold), playerXs[1..], photoX, threshold)
  }

  /** Until the player first comes within the threshold, the photo stays hidden. */
  lemma {:induction false} DarkUntilFirstApproach(playerXs: seq<real>, photoX: real, threshold: real)
    requires forall i :: 0 <= i < |playerXs| ==> Abs(playerXs[i] - photoX) >= threshold
    ensures Run(INITIAL, playerXs, photoX, threshold) == INITIAL
    decreases |playerXs|
  {
    if |playerXs| > 0 {
      assert Step(INITIAL, playerXs[0], photoX, threshold) == INITIAL;
      DarkUntilFirstApproach(playerXs[1..], photoX, threshold);
    }
  }

  /** Once revealed, always revealed, whatever the player does afterwards. */
  lemma {:induction false} RevealedForever(s: RevealState, playerXs: seq<real>, photoX: real, threshold: real)
    requires s.revealed
    ensures Run(s, playerXs, photoX, threshold).revealed
    decreases |playerXs|
  {
    if |playerXs| > 0 {
      RevealedForever(Step(s, playerXs[0], photoX, threshold), playerXs[1..], photoX, threshold);
    }
  }

  /** The component's two pieces of state. */
  class PhotoRevealState {
    var revealed: bool
    var opacity: real

    constructor ()
      ensures RevealState(revealed, opacity) == INITIAL
    {
      revealed, opacity := false, 0.0;
    }

    /** The effect on `[playerX, photoX, revealThreshold, revealed]`. */
    method OnChange(playerX: real, photoX: real, revealThreshold: real := DEFAULT_THRESHOLD)
      modifies this
      ensures RevealState(revealed, opacity) ==
              Step(RevealState(old(revealed), old(opacity)), playerX, photoX, revealThreshold)
    {
      var distance := Abs(playerX - photoX);
      if distance < revealThreshold {
        revealed := true;
        var revealAmount := 1.0 - distance / revealThreshold;
        opacity := Clamp01(revealAmount);
      } else if revealed && distance > revealThreshold * FADE_OUT_FACTOR {
        opacity := 0.0;
      }
    }
  }
}
