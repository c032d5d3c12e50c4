/**
 The seven push-buttons of the OLED bonnet and the scan loop that polls them.

 Each button is a `Key` object whose `pressed` and `released` flags `CheckKey`
 updates in place; a `Board` owns seven of them and `Loop` scans them all, in the
 order A, B, C, Up, Down, Left, Right, until A reports a release. The hardware read
 of a line level is a parameter: one `Sample` holds the seven levels read during one
 scan, `true` meaning high (not pressed).
 */
module OledBoard {
  import opened KeyMachine

  datatype Button = A | B | C | Up | Down | Left | Right

  /** The GPIO pin each button is wired to. */
  function Pin(k: Button): nat {
    match k
    case A => 5
    case B => 6
    case C => 4
    case Up => 17
    case Down => 22
    case Left => 27
    case Right => 23
  }

  /** The line levels read during one scan, one per button. */
  datatype Sample = Sample(a: bool, b: bool, c: bool, up: bool, down: bool, left: bool, right: bool)

  function Level(s: Sample, k: Button): bool {
    match k
    case A => s.a
    case B => s.b
    case C => s.c
    case Up => s.up
    case Down => s.down
    case Left => s.left
    case Right => s.right
  }

  /** The levels of button `k` across a run of scans, oldest first. */
  function Levels(samples: seq<Sample>, k: Button): seq<bool> {
    seq(|samples|, t requires 0 <= t < |samples| => Level(samples[t], k))
  }

  /** The detector states of the seven buttons. */
  datatype Panel = Panel(a: KeyState, b: KeyState, c: KeyState, up: KeyState,
                         down: KeyState, left: KeyState, right: KeyState)
  {
    function Of(k: Button): KeyState {
      match k
      case A => a
      case B => b
      case C => c
      case Up => up
      case Down => down
      case Left => left
      case Right => right
    }

    /** One scan: every detector ticks once, on its own button's level. */
    function Scan(s: Sample): Panel {
      Panel(Tick(a, s.a), Tick(b, s.b), Tick(c, s.c), Tick(up, s.up),
            Tick(down, s.down), Tick(left, s.left), Tick(right, s.right))
    }
  }

  /** Every button Idle: the panel as `setup_input` leaves it. */
  const AllIdle: Panel := Panel(Idle, Idle, Idle, Idle, Idle, Idle, Idle)

  /** The detector states after scanning `samples`, oldest first, from `init`. */
  function ScanAll(init: Panel, samples: seq<Sample>): Panel
    decreases |samples|
  {
    if samples == [] then init
    else ScanAll(init, samples[..|samples| - 1]).Scan(samples[|samples| - 1])
  }

  /**
   Scanning the whole panel is scanning each button on its own: after any run of
   scans, button `k`'s state is its detector run over `k`'s own levels.
   */
  lemma ScanAllPerButton(init: Panel, samples: seq<Sample>, k: Button)
    ensures ScanAll(init, samples).Of(k) == Run(init.Of(k), Levels(samples, k))
  {
  }

  /** Why the scan loop returned: A's release after that many scans, or no samples left. */
  datatype Outcome = Released(scans: nat) | Exhausted

  /** The number of scans that ran, out of `available`. */
  function Scans(r: Outcome, available: nat): nat {
    match r
    case Released(n) => n
    case Exhausted => available
  }

  /**
   One button: the pin it is read from and the two edge flags. The ghost field
   `state` is the detector state the flags encode.
   */
  class Key {
    const pin: nat
    var pressed: bool
    var released: bool
    ghost var state: KeyState

    /** The flags encode `state`, so they are never both set. */
    ghost predicate Valid()
      reads this
    {
      && pressed == PressedFlag(state)
      && released == ReleasedFlag(state)
    }

    /** A freshly configured input: both flags clear. */
    constructor (pin: nat)
      ensures this.pin == pin
      ensures !pressed && !released
      ensures Valid() && state == Idle
    {
      this.pin := pin;
      pressed := false;
      released := false;
      state := Idle;
    }

    /** One tick of the edge detector, given the line level read on this tick. */
    method CheckKey(level: bool)
      requires Valid()
      modifies this
      ensures Valid()
      ensures pressed == !level
      ensures released == (level && old(pressed))
      ensures !(pressed && released)
      ensures state == Tick(old(state), level)
    {
      if !level {
        pressed := true;
        released := false;
      } else if level && pressed {
        pressed := false;
        released := true;
      } else {
        pressed := false;
        released := false;
      }
      state := Tick(state, level);
    }
  }

  /** The bonnet's seven buttons. */
  class Board {
    const a: Key
    const b: Key
    const c: Key
    const up: Key
    const down: Key
    const left: Key
    const right: Key

    function Get(k: Button): Key {
      match k
      case A => a
      case B => b
      case C => c
      case Up => up
      case Down => down
      case Left => left
      case Right => right
    }

    ghost function Repr(): set<object> {
      {a, b, c, up, down, left, right}
    }

    /** The seven keys are distinct objects. */
    ghost predicate Distinct() {
      && a != b && a != c && a != up && a != down && a != left && a != right
      && b != c && b != up && b != down && b != left && b != right
      && c != up && c != down && c != left && c != right
      && up != down && up != left && up != right
      && down != left && down != right
      && left != right
    }

    /** Seven distinct keys, each with consistent flags. */
    ghost predicate Valid()
      reads Repr()
    {
      && Distinct()
      && a.Valid() && b.Valid() && c.Valid() && up.Valid()
      && down.Valid() && left.Valid() && right.Valid()
    }

    /** The detector states of the seven keys. */
    ghost function States(): Panel
      reads Repr()
    {
      Panel(a.state, b.state, c.state, up.state, down.state, left.state, right.state)
    }

    /** Configures the seven inputs on their pins; every button starts Idle. */
    constructor ()
      ensures Valid() && fresh(Repr())
      ensures forall k :: Get(k).pin == Pin(k)
      ensures States() == AllIdle
    {
      a := new Key(Pin(A));
      b := new Key(Pin(B));
      c := new Key(Pin(C));
      up := new Key(Pin(Up));
      down := new Key(Pin(Down));
      left := new Key(Pin(Left));
      right := new Key(Pin(Right));
    }

    /** One iteration of the scan loop: every key ticks once, on its own level. */
    method Scan(s: Sample)
      requires Valid()
      modifies Repr()
      ensures Valid()
      ensures States() == old(States()).Scan(s)
    {
      a.CheckKey(s.a);
      b.CheckKey(s.b);
      c.CheckKey(s.c);
      up.CheckKey(s.up);
      down.CheckKey(s.down);
      left.CheckKey(s.left);
      right.CheckKey(s.right);
    }

    /**
     Scans until A's `released` flag is set, reading one sample per scan. Returns
     `Released(n)` when the flag is set after `n` scans (0 if it was already set), and
     `Exhausted` if the samples run out first.
     */
    method Loop(samples: seq<Sample>) returns (r: Outcome)
      requires Valid()
      modifies Repr()
      ensures Valid()
      ensures Scans(r, |samples|) <= |samples|
      ensures States() == ScanAll(old(States()), samples[..Scans(r, |samples|)])
      ensures r.Released? ==> ScanAll(old(States()), samples[..r.scans]).a == JustReleased
      ensures forall m :: 0 <= m < Scans(r, |samples|) ==> ScanAll(old(States()), samples[..m]).a != JustReleased
      ensures r.Exhausted? ==> States().a != JustReleased
    {
      var i := 0;
      while !a.released && i < |samples|
        invariant 0 <= i <= |samples|
        invariant Valid()
        invariant States() == ScanAll(old(States()), samples[..i])
        invariant forall m :: 0 <= m < i ==> ScanAll(old(States()), samples[..m]).a != JustReleased
      {
        Scan(samples[i]);
        assert samples[..i + 1][..i] == samples[..i];
        i := i + 1;
      }
      r := if a.released then Released(i) else Exhausted;
    }
  }

  /**
   On a panel that starts Idle, A's `released` flag is set after `m` scans exactly
   when scan `m` read A's line high and scan `m - 1` read it low.
   */
  lemma AReleasedIffRisingEdge(samples: seq<Sample>, m: nat)
    requires m <= |samples|
    ensures ScanAll(AllIdle, samples[..m]).a == JustReleased <==> IsRisingEdge(Levels(samples, A), m)
  {
  }

  /**
   A fresh board followed by the scan loop: the loop stops after the first scan at
   which A's line reads high having read low on the scan before, and never earlier;
   it runs out of samples only if there is no such scan.
   */
  method Session(samples: seq<Sample>) returns (r: Outcome)
    ensures r.Released? ==> IsRisingEdge(Levels(samples, A), r.scans)
    ensures forall m :: 0 <= m < Scans(r, |samples|) ==> !IsRisingEdge(Levels(samples, A), m)
    ensures r.Exhausted? ==> forall m :: 0 <= m <= |samples| ==> !IsRisingEdge(Levels(samples, A), m)
  {
    var board := new Board();
    r := board.Loop(samples);
    forall m | 0 <= m <= Scans(r, |samples|)
      ensures ScanAll(AllIdle, samples[..m]).a == JustReleased <==> IsRisingEdge(Levels(samples, A), m)
    {
      AReleasedIffRisingEdge(samples, m);
    }
    assert samples[..|samples|] == samples;
  }
}
