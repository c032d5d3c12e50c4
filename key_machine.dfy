/**
 The edge detector that `check_key` runs on one push-button, as a pure state machine.

 A button is wired active-low with a pull-up: a sampled `level` of `true` means the
 line is high and the button is NOT pressed; `false` means it is held down.
 The two flags the source keeps per button encode three states:
   Idle          pressed = false, released = false
   Pressed       pressed = true,  released = false
   JustReleased  pressed = false, released = true
 */
module KeyMachine {

  datatype KeyState = Idle | Pressed | JustReleased

  /** The `pressed` flag of a key in state `s`. */
  predicate PressedFlag(s: KeyState) {
    s == Pressed
  }

  /** The `released` flag of a key in state `s`. */
  predicate ReleasedFlag(s: KeyState) {
    s == JustReleased
  }

  /** One tick of the detector: the three branches of `check_key`. */
  function Tick(s: KeyState, level: bool): KeyState {
    if !level then Pressed
    else if s == Pressed then JustReleased
    else Idle
  }

  /** The state after feeding `levels`, oldest first, to a key that started in `init`. */
  function Run(init: KeyState, levels: seq<bool>): (s: KeyState)
    ensures |levels| > 0 ==> (PressedFlag(s) <==> !levels[|levels| - 1])
    ensures |levels| > 0 && ReleasedFlag(s) ==> levels[|levels| - 1]
    decreases |levels|
  {
    if levels == [] then init
    else Tick(Run(init, levels[..|levels| - 1]), levels[|levels| - 1])
  }

  /** `released` holds after the first `n` samples of `levels`. */
  predicate ReleasedAt(init: KeyState, levels: seq<bool>, n: nat)
    requires n <= |levels|
  {
    ReleasedFlag(Run(init, levels[..n]))
  }

  /** Tick `n` (counting from 1) reads the line high and tick `n - 1` read it low. */
  predicate IsRisingEdge(levels: seq<bool>, n: nat) {
    2 <= n <= |levels| && levels[n - 1] && !levels[n - 2]
  }

  /** Running one more sample is one more `Tick`. */
  lemma RunStep(init: KeyState, levels: seq<bool>, i: nat)
    requires i < |levels|
    ensures Run(init, levels[..i + 1]) == Tick(Run(init, levels[..i]), levels[i])
  {
  }

  /**
   From a key that starts Idle, `released` holds after `n` samples exactly when
   sample `n` is high and sample `n - 1` was low; in particular never after 0 or 1 samples.
   */
  lemma {:induction false} ReleasedIffRisingEdge(levels: seq<bool>, n: nat)
    requires n <= |levels|
    ensures ReleasedAt(Idle, levels, n) <==> IsRisingEdge(levels, n)
  {
    if n == 0 {
      assert levels[..0] == [];
    } else {
      RunStep(Idle, levels, n - 1);
      if n == 1 {
        assert levels[..0] == [];
      } else {
        RunStep(Idle, levels, n - 2);
      }
    }
  }

  /**
   A button held low for ticks `i` .. `j - 1` reads pressed and not released after
   every one of those ticks, whatever state it started in.
   */
  lemma HeldLowStaysPressed(init: KeyState, levels: seq<bool>, i: nat, j: nat)
    requires i <= j <= |levels|
    requires forall t :: i <= t < j ==> !levels[t]
    ensures forall m :: i < m <= j ==> Run(init, levels[..m]) == Pressed
  {
  }

  /**
   A release is reported for exactly one tick: if the line was low at tick `i - 1` and
   stays high from tick `i` through `j - 1`, then `released` holds after tick `i` and the
   key is Idle after every later tick up to `j`.
   */
  lemma ReleaseLastsOneTick(init: KeyState, levels: seq<bool>, i: nat, j: nat)
    requires 1 <= i < j <= |levels|
    requires !levels[i - 1]
    requires forall t :: i <= t < j ==> levels[t]
    ensures Run(init, levels[..i + 1]) == JustReleased
    ensures forall m :: i + 1 < m <= j ==> Run(init, levels[..m]) == Idle
  {
  }

  /** A button that starts Idle and whose line is never pulled low stays Idle forever. */
  lemma HighStaysIdle(levels: seq<bool>)
    requires forall t :: 0 <= t < |levels| ==> levels[t]
    ensures Run(Idle, levels) == Idle
  {
  }

  /** After a JustReleased tick the next tick is never JustReleased: Idle if high, Pressed if low. */
  lemma JustReleasedDecays(init: KeyState, levels: seq<bool>, i: nat)
    requires i < |levels|
    requires Run(init, levels[..i]) == JustReleased
    ensures Run(init, levels[..i + 1]) == (if levels[i] then Idle else Pressed)
  {
  }

  /** How many of the first `n` ticks left `released` set. */
  function ReleaseCount(init: KeyState, levels: seq<bool>, n: nat): nat
    requires n <= |levels|
  {
    if n == 0 then 0
    else ReleaseCount(init, levels, n - 1) + (if ReleasedAt(init, levels, n) then 1 else 0)
  }

  /** How many of the first `n` ticks read high right after a tick that read low. */
  function RisingEdgeCount(levels: seq<bool>, n: nat): nat
    requires n <= |levels|
  {
    if n == 0 then 0
    else RisingEdgeCount(levels, n - 1) + (if IsRisingEdge(levels, n) then 1 else 0)
  }

  /**
   From Idle, every release of the button is reported exactly once: over any prefix
   of the run, the ticks with `released` set are as many as the low-to-high edges.
   */
  lemma {:induction false} OneReleasePerEdge(levels: seq<bool>, n: nat)
    requires n <= |levels|
    ensures ReleaseCount(Idle, levels, n) == RisingEdgeCount(levels, n)
  {
    if n > 0 {
      OneReleasePerEdge(levels, n - 1);
      ReleasedIffRisingEdge(levels, n);
    }
  }

  /**
   `check_key` as written reads the line twice: `first` is the read that decides
   the low branch, `second` the read that decides the release branch.
   */
  function TickTwoReads(s: KeyState, first: bool, second: bool): KeyState {
    if !first then Pressed
    else if second && s == Pressed then JustReleased
    else Idle
  }

  /** While the line holds still between the two reads, they agree with `Tick`. */
  lemma TwoReadsAgreeWhenStable(s: KeyState, level: bool)
    ensures TickTwoReads(s, level, level) == Tick(s, level)
  {
  }

  /**
   If the line goes from high to low between the two reads of a held button, the
   release is never reported: the key falls straight to Idle, and a following high
   tick leaves it Idle. A single read reports Pressed, then the release.
   */
  lemma TwoReadsLoseRelease()
    ensures TickTwoReads(Pressed, true, false) == Idle
    ensures TickTwoReads(TickTwoReads(Pressed, true, false), true, true) == Idle
    ensures Tick(Pressed, false) == Pressed && Tick(Tick(Pressed, false), true) == JustReleased
    ensures Tick(Pressed, true) == JustReleased
  {
  }
}
