# pi_oled_camera — button edge detector and scan loop

`pi_oled_camera.py` streams camera frames to a 128×64 SSD1306 OLED bonnet and polls
the bonnet's seven push-buttons (A, B, C and a four-way pad) until button A is
released. This project models the button half: the per-button edge detector
`OledBoard.check_key`, the initial flags set by `OledBoard.setup_input`, and the
busy-poll loop `OledBoard.loop`.

Each button is wired active-low with a pull-up, so a line read as high (`true` here)
means "not pressed". `check_key` keeps two flags per button, `pressed` and
`released`, which together encode three states: Idle, Pressed and JustReleased.

- `key_machine.dfy` (module `KeyMachine`): the detector as a pure state machine.
  `Tick` is one call of `check_key`. `Run` feeds it a sequence of line levels.
  The lemmas state when `released` is set (exactly on a high tick that follows a low
  tick), that a held button stays pressed, and that a release is reported for one
  tick only.
- `oled_board.dfy` (module `OledBoard`): the objects. `Key` is one button, with its
  mutable `pressed`/`released` fields and `CheckKey`. `Board` owns seven distinct
  keys on the source's pins. `Board.Scan` is one iteration of the loop body, and
  `Board.Loop` is the `while not A.released` loop. `Session` builds a fresh board
  and runs the loop; its contract says the loop stops after exactly the first scan
  at which A's line reads high having read low on the scan before.

The hardware read `key.value` is a parameter. One `Sample` carries the seven levels
read during one scan, and `Loop` takes a finite sequence of samples. It returns
`Released(n)` when A's `released` flag is set after `n` scans, and `Exhausted` when
the samples run out first. The real loop has no such bound. It polls until A is
released, which may be never.

JustReleased decays to Idle only on a high tick; a low tick takes the key straight
to Pressed (pi_oled_camera.py:55-57); see `KeyMachine.JustReleasedDecays`.

## Model

| member | source | states |
|---|---|---|
| `KeyMachine.Run` | pi_oled_camera.py:53-63 | after any non-empty run of ticks, `pressed` holds exactly when the last tick read the line low; `released` can only hold after a tick that read it high |
| `KeyMachine.ReleasedIffRisingEdge` | pi_oled_camera.py:53-63 | from Idle, `released` holds after tick `n` exactly when tick `n` read high and tick `n - 1` read low; never after the first tick |
| `KeyMachine.OneReleasePerEdge` | pi_oled_camera.py:55-63 | from Idle, over any run of ticks, the ticks with `released` set are exactly as many as the low-to-high transitions; this is `ReleasedIffRisingEdge` summed over the ticks |
| `KeyMachine.HeldLowStaysPressed` | pi_oled_camera.py:55-57 | a button held low over a run of ticks is Pressed (pressed set, released clear) after every one of them, from any state |
| `KeyMachine.ReleaseLastsOneTick` | pi_oled_camera.py:58-63 | after a low tick, a run of high ticks gives JustReleased on its first tick and Idle on every later one |
| `KeyMachine.HighStaysIdle` | pi_oled_camera.py:61-63 | a button that starts Idle and is never pulled low stays Idle forever |
| `KeyMachine.JustReleasedDecays` | pi_oled_camera.py:54-63 | the tick after JustReleased is Idle on a high line and Pressed on a low one, never JustReleased again |
| `KeyMachine.TwoReadsAgreeWhenStable` | pi_oled_camera.py:55-58 | the as-written two-read transition equals the one-read transition whenever both reads see the same level |
| `KeyMachine.TwoReadsLoseRelease` | pi_oled_camera.py:55-63 | the as-written two-read transition turns a held button Idle, with no release reported, when the line reads high then low within one call; a single read reports the release |
| `OledBoard.Key.constructor` | pi_oled_camera.py:38-44 | a new input is bound to its pin with `pressed` and `released` both false (Idle) |
| `OledBoard.Key.CheckKey` | pi_oled_camera.py:53-63 | low line: pressed set, released clear; high line: pressed clear, released set exactly when the key was pressed before; flags never both set; only this key changes |
| `OledBoard.Board.constructor` | pi_oled_camera.py:23-29 | seven fresh, distinct keys on pins D5, D6, D4, D17, D22, D27, D23 for A, B, C, UP, DOWN, LEFT, RIGHT, all Idle |
| `OledBoard.Board.Scan` | pi_oled_camera.py:76-82 | one iteration ticks each of the seven keys exactly once, each on its own level, and keeps the board consistent |
| `OledBoard.Board.Loop` | pi_oled_camera.py:73-82 | the loop runs whole scans until A's `released` is set: the final state is the scans run so far; A was not released before any earlier scan; it stops on A's release or when samples run out |
| `OledBoard.ScanAllPerButton` | pi_oled_camera.py:75-82 | after any run of scans, each button's state is its own detector run over its own levels, unaffected by the other six |
| `OledBoard.AReleasedIffRisingEdge` | pi_oled_camera.py:75-82 | on a board that starts Idle, A is released after scan `m` exactly when scan `m` read A high and scan `m - 1` read it low |
| `OledBoard.Session` | pi_oled_camera.py:73-82 | from a fresh board, the loop stops after the first scan that sees A's rising edge, never before it, and runs out of samples only if no such scan exists |

## Left out

- `OledBoard.write` (pi_oled_camera.py:65-71): PIL frame conversion with a bilinear resize and a 1-bit conversion. It is floating-point numerics inside a library whose threshold rule is not part of this model.
- Display and bus setup, `clear` and the power-off in `__del__` (pi_oled_camera.py:19-21, 31-35, 46-51): device I/O through foreign drivers.
- GPIO pin claiming and pull-up configuration (pi_oled_camera.py:39-41): hardware plumbing. The line level is an input value instead, and only the pin number is kept on each key.
- `main` (pi_oled_camera.py:84-100): camera configuration, recording start and stop, and the concurrency between the camera's frame callback and the poll loop.
- `OledBoard.Board.Loop`: the source polls without bound; the model runs over a finite sequence of samples and reports `Exhausted` when it ends.
- `OledBoard.Key.CheckKey`: modelled with one line read per call. The source reads `key.value` twice (lines 55 and 58); that form is `KeyMachine.TickTwoReads`, and the Findings below say where the two differ.
- `OledBoard.Board.Scan`: its contract gives the combined effect of the seven calls. The order A, B, C, UP, DOWN, LEFT, RIGHT is kept in the body. Since the keys are distinct objects and nothing else runs between the calls, the order changes no observable state.

## Findings

| source | as written | input that shows it | evidently intended | confidence | as-written member | corrected member |
|---|---|---|---|---|---|---|
| pi_oled_camera.py:55-63 | `check_key` reads the line twice, once for the press test and again for the release test | a held button (pressed) whose line reads high on the first read and low on the second, as contact bounce can do: the key goes to Idle with no release, and the next high tick leaves it Idle, so that press is never reported as released | one reading per call, so every press is followed by exactly one release tick | medium, not executed | `KeyMachine.TwoReadsLoseRelease` | `OledBoard.Key.CheckKey` |
