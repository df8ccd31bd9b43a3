// How many tokens are kept in reserve for a context window, and the line above
// which a compaction is due. The growth factor 0.531 is the rational 531/1000.
module ReserveLine {

  const BASE_WINDOW := 122_880
  const MIN_RESERVE_TOKENS := 32_768
  // Below this many tokens the turn_end check does not look at the window.
  const CHEAP_FLOOR := BASE_WINDOW - MIN_RESERVE_TOKENS

  function Min(x: int, y: int): int {
    if x <= y then x else y
  }

  function Max(x: int, y: int): int {
    if x >= y then x else y
  }

  function Linear(window: nat): int {
    MIN_RESERVE_TOKENS + (531 * Max(0, window - BASE_WINDOW)) / 1000
  }

  function ReserveFor(window: nat): int {
    Min(Max(0, Linear(window)), window / 2)
  }

  function DynamicLine(window: nat): int {
    window - ReserveFor(window)
  }

  // The reserve: half the window up to twice the minimum, the minimum up to the
  // base window, and from there on 531 tokens more per 1000 of window, rounded
  // down, until it is half the window again.
  lemma ReserveExactly(w: nat)
    ensures w <= 65_536 ==> ReserveFor(w) == w / 2
    ensures 65_536 <= w <= 122_880 ==> ReserveFor(w) == 32_768
    ensures 122_880 <= w <= 1_047_782 ==>
      1000 * (ReserveFor(w) - 32_768) <= 531 * (w - 122_880) < 1000 * (ReserveFor(w) - 32_768) + 1000
    ensures 1_047_783 <= w ==> ReserveFor(w) == w / 2
  {
    if w >= 122_880 {
      var d := w - 122_880;
      assert 1000 * ((531 * d) / 1000) <= 531 * d < 1000 * ((531 * d) / 1000) + 1000;
    }
  }

  // The line lies in the upper half of the window.
  lemma LineBounds(w: nat)
    ensures (w + 1) / 2 <= DynamicLine(w) <= w
  {
  }

  // It never falls, and rises by at most one token per token of window.
  lemma LineSteps(w: nat)
    ensures DynamicLine(w) <= DynamicLine(w + 1) <= DynamicLine(w) + 1
  {
    LinearSteps(w);
  }

  lemma LinearSteps(w: nat)
    ensures Linear(w) <= Linear(w + 1) <= Linear(w) + 1
  {
    if w >= BASE_WINDOW {
      var x := 531 * (w - BASE_WINDOW);
      assert 531 * (w + 1 - BASE_WINDOW) == x + 531;
      assert x / 1000 <= (x + 531) / 1000 <= x / 1000 + 1;
    }
  }

  lemma {:induction false} LineIsMonotone(w: nat, v: nat)
    requires w <= v
    ensures DynamicLine(w) <= DynamicLine(v) <= DynamicLine(w) + (v - w)
    decreases v
  {
    if w < v {
      LineIsMonotone(w, v - 1);
      LineSteps(v - 1);
    }
  }

  // From 1,047,783 on the reserve is always half the window, and from no
  // smaller window on.
  lemma HalfFromMillion(from: nat)
    ensures (forall w: nat :: w >= from ==> DynamicLine(w) == w - w / 2) <==> from >= 1_047_783
  {
    if from >= 1_047_783 {
      forall w: nat | w >= from ensures DynamicLine(w) == w - w / 2 {
        var d := w - BASE_WINDOW;
        assert 531 * d >= 1000 * (w / 2 - MIN_RESERVE_TOKENS);
        assert (531 * d) / 1000 >= w / 2 - MIN_RESERVE_TOKENS;
      }
    } else {
      var w := 1_047_782;
      assert w >= from && DynamicLine(w) != w - w / 2;
    }
  }

  // The two tests of the turn_end handler.
  predicate ExitsEarly(tokens: int) {
    tokens <= CHEAP_FLOOR
  }

  predicate IsDue(tokens: int, window: nat) {
    tokens > DynamicLine(window)
  }

  // The early exit at the floor never skips a compaction that the full test
  // would start exactly for windows of at least the base window.
  lemma CheapFloorIsSafe(w: nat)
    ensures (forall tokens :: ExitsEarly(tokens) ==> !IsDue(tokens, w)) <==> w >= BASE_WINDOW
  {
    LineAtBase();
    if w >= BASE_WINDOW {
      LineIsMonotone(BASE_WINDOW, w);
    } else {
      LineIsMonotone(w, BASE_WINDOW - 1);
      assert ExitsEarly(CHEAP_FLOOR) && IsDue(CHEAP_FLOOR, w);
    }
  }

  lemma LineAtBase()
    ensures DynamicLine(BASE_WINDOW) == CHEAP_FLOOR && DynamicLine(BASE_WINDOW - 1) == CHEAP_FLOOR - 1
    ensures DynamicLine(100_000) == 67_232
  {
  }
}
