/** Values manipulated by the Petal gesture classifier: its configuration,
    the pointer events it receives, the callbacks it emits and a snapshot of
    the closure state (`state.hold`, `state.combo` and the `lock` flags). */
module GestureTypes {

  datatype Option<T> = None | Some(value: T)

  /** Settings of the hold tracker: `last` is the hold duration in ms and
      `tolerance` the movement (px) still counted as holding still. */
  datatype HoldConfig = HoldConfig(enable: bool, last: nat, tolerance: int)

  /** Settings of the combo tracker. A negative `tolerance` switches off the
      movement test on release; `timeout` (ms) is the quiet period after a
      release before the combo resolves. */
  datatype ComboConfig = ComboConfig(
    enable: bool,
    holdable: bool,
    timingable: bool,
    tolerance: int,
    timeout: nat)

  datatype Config = Config(hold: HoldConfig, combo: ComboConfig)

  /** The configuration a new classifier starts with. */
  const DefaultConfig: Config :=
    Config(HoldConfig(true, 1000, 5), ComboConfig(true, false, false, -1, 200))

  /** The surface the classifier is bound to. */
  datatype Surface = Surface(id: nat)

  /** A pointer event after axis selection, i.e. the record that
      `clone_mouse_event` hands to the raw callbacks: coordinates, modifier
      keys and the button (`which || button`, 0 when none is pressed). */
  datatype MouseEvent = MouseEvent(
    x: int,
    y: int,
    button: nat,
    altKey: bool,
    ctrlKey: bool,
    shiftKey: bool)

  datatype Point = Point(x: int, y: int)

  /** Third coordinate of a recorded combo position: absent unless the combo
      is timingable; the milliseconds since the latest press otherwise, or
      NaN when the session was opened by re-entry and has no press time. */
  datatype Elapsed = Untimed | Ms(ms: int) | NotANumber

  datatype Position = Position(x: int, y: int, elapsed: Elapsed)

  /** Where and when the latest press of a combo session happened. */
  datatype Anchor = Anchor(x: int, y: int, timestamp: int)

  /** `state.combo`: the number of presses, the positions recorded on
      release, and the latest press (absent for a session that re-entry
      opened and no press has touched yet). */
  datatype Session = Session(count: nat, positions: seq<Position>, anchor: Option<Anchor>)

  const FreshSession: Session := Session(0, [], None)

  /** The callbacks the classifier invokes, with the values it passes. */
  datatype Gesture =
    | MouseDown(event: MouseEvent)
    | MouseMove(event: MouseEvent)
    | MouseUp(event: MouseEvent)
    | MouseOut(event: MouseEvent)
    | MouseEnter(event: MouseEvent)
    | MouseHold(at: Point)
    | Click(first: Option<Position>)
    | DblClick(positions: seq<Position>)
    | ComboClick(positions: seq<Position>)

  /** Everything the handlers read and write besides the configuration:
      the bound target, `state.hold`, `state.combo`, `lock.holdBeatCombo`,
      `lock.mouseDown`, and whether the hold and combo timers are pending. */
  datatype State = State(
    target: Option<Surface>,
    hold: Option<Point>,
    combo: Option<Session>,
    holdBeatCombo: bool,
    mouseDown: bool,
    holdPending: bool,
    comboPending: bool)

  /** The new state after a handler and the callbacks it invoked, in order. */
  datatype Outcome = Outcome(st: State, emitted: seq<Gesture>)

  /** A gesture passed to one of the combo callbacks. */
  predicate IsComboGesture(g: Gesture) {
    g.Click? || g.DblClick? || g.ComboClick?
  }

  /** The first element of a sequence, if it has one. */
  function First<T>(s: seq<T>): (r: Option<T>)
    ensures r.Some? <==> |s| > 0
    ensures r.Some? ==> r.value == s[0]
  {
    if |s| == 0 then None else Some(s[0])
  }
}
