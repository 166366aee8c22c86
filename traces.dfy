/** Runs of the classifier over sequences of events and timer firings, and
    the gesture-level behaviour they produce: N quick taps make one click,
    double-click or combo click; a hold beats a combo; leaving mid-press
    resolves the session; rebinding starts afresh. */
module Traces {
  import opened GestureTypes
  import opened Distance
  import opened Transitions

  /** What can happen to a classifier: a pointer event (with the time it
      is handled where the handler reads the clock), a timer firing, or a
      (re)binding. */
  datatype Event =
    | Down(e: MouseEvent, now: int)
    | Move(e: MouseEvent)
    | Up(e: MouseEvent, now: int)
    | Out(e: MouseEvent)
    | Enter(e: MouseEvent)
    | HoldTimer
    | ComboTimer
    | Bind(surface: Surface)
    | Unbind

  /** One event. A timer that is not pending cannot fire, so its event
      changes nothing. Every event keeps the classifier in a reachable
      state; in particular a firing combo timer always finds a session. */
  function Step(cfg: Config, st: State, ev: Event): (r: Outcome)
    requires Inv(cfg, st)
    ensures Inv(cfg, r.st)
  {
    match ev
    case Down(e, now) => OnMouseDown(cfg, st, e, now)
    case Move(e) => OnMouseMove(cfg, st, e)
    case Up(e, now) => OnMouseUp(cfg, st, e, now)
    case Out(e) => OnMouseOut(cfg, st, e)
    case Enter(e) => OnMouseEnter(cfg, st, e)
    case HoldTimer => if st.holdPending then CheckHold(cfg, st) else Outcome(st, [])
    case ComboTimer => if st.comboPending then FireCombo(st) else Outcome(st, [])
    case Bind(s) => Outcome(Init(Some(s)), [])
    case Unbind => Outcome(Init(None), [])
  }

  /** The events in order; the result is the final state and every
      callback invoked along the way. */
  function Run(cfg: Config, st: State, evs: seq<Event>): (r: Outcome)
    requires Inv(cfg, st)
    ensures Inv(cfg, r.st)
    ensures evs == [] ==> r == Outcome(st, [])
    decreases |evs|
  {
    if evs == [] then Outcome(st, [])
    else
      var before := Run(cfg, st, evs[..|evs| - 1]);
      var o := Step(cfg, before.st, evs[|evs| - 1]);
      Outcome(o.st, before.emitted + o.emitted)
  }

  /** A run extended by one more event. */
  lemma RunSnoc(cfg: Config, st: State, evs: seq<Event>, ev: Event)
    requires Inv(cfg, st)
    ensures var before := Run(cfg, st, evs);
      var o := Step(cfg, before.st, ev);
      Run(cfg, st, evs + [ev]) == Outcome(o.st, before.emitted + o.emitted)
  {
    assert (evs + [ev])[..|evs|] == evs;
  }

  /** A press followed by a release, each with the time it is handled. */
  datatype Tap = Tap(press: MouseEvent, release: MouseEvent, pressedAt: int, releasedAt: int)

  /** The release is not farther than the combo tolerance from the press,
      so the combo tracker keeps counting (always so for a negative
      tolerance, the default). */
  predicate WithinTolerance(cfg: Config, t: Tap) {
    !CheckDistance(t.press.x, t.press.y, t.release.x, t.release.y, cfg.combo.tolerance)
  }

  function TapEvents(taps: seq<Tap>): (r: seq<Event>)
  {
    if taps == [] then []
    else
      var t := taps[|taps| - 1];
      TapEvents(taps[..|taps| - 1]) + [Down(t.press, t.pressedAt), Up(t.release, t.releasedAt)]
  }

  /** The raw callbacks the taps echo. */
  function TapEchoes(taps: seq<Tap>): (r: seq<Gesture>)
  {
    if taps == [] then []
    else
      var t := taps[|taps| - 1];
      TapEchoes(taps[..|taps| - 1]) + [MouseDown(t.press), MouseUp(t.release)]
  }

  /** The position the combo tracker records for a tap. */
  function TapPosition(cfg: Config, t: Tap): (p: Position)
  {
    Position(t.release.x, t.release.y, if cfg.combo.timingable then Ms(t.releasedAt - t.pressedAt) else Untimed)
  }

  /** The positions the combo tracker records for the taps. */
  function TapPositions(cfg: Config, taps: seq<Tap>): (r: seq<Position>)
    ensures |r| == |taps|
    ensures forall i :: 0 <= i < |taps| ==> r[i] == TapPosition(cfg, taps[i])
  {
    if taps == [] then [] else TapPositions(cfg, taps[..|taps| - 1]) + [TapPosition(cfg, taps[|taps| - 1])]
  }

  /** A released classifier with no session and no hold mark. */
  predicate Quiet(cfg: Config, st: State) {
    Inv(cfg, st) && !st.mouseDown && st.combo.None? && !st.holdBeatCombo
  }

  /** One more tap on a released classifier whose session (if any) has
      `k` presses and positions `ps`: the press re-anchors the session and
      counts it, a release within the combo tolerance records one more
      position (where it happened) and arms the combo timer, and only the raw callbacks are invoked. */
  lemma TapExtendsSession(cfg: Config, m: State, t: Tap, k: nat, ps: seq<Position>)
    requires cfg.combo.enable && Inv(cfg, m) && !m.mouseDown && !m.holdBeatCombo
    requires WithinTolerance(cfg, t)
    requires m.combo.None? ==> k == 0 && ps == []
    requires m.combo.Some? ==> m.combo.value.count == k && m.combo.value.positions == ps
    ensures var d := Step(cfg, m, Down(t.press, t.pressedAt));
      var u := Step(cfg, d.st, Up(t.release, t.releasedAt));
      && u.st.combo == Some(Session(k + 1, ps + [TapPosition(cfg, t)], Some(Anchor(t.press.x, t.press.y, t.pressedAt))))
      && u.st.comboPending && !u.st.mouseDown && !u.st.holdBeatCombo
      && d.emitted + u.emitted == [MouseDown(t.press), MouseUp(t.release)]
  {
    var d := Step(cfg, m, Down(t.press, t.pressedAt));
    assert d.st.combo == Some(Session(k + 1, ps, Some(Anchor(t.press.x, t.press.y, t.pressedAt))));
    assert !MovedFrom(d.st.combo.value.anchor, t.release.x, t.release.y, cfg.combo.tolerance);
    assert ReleasePosition(cfg, d.st.combo.value, t.release.x, t.release.y, t.releasedAt) == TapPosition(cfg, t);
  }

  /** The same tap appended to any run that ends released with such a
      session. */
  lemma TapAfterRun(cfg: Config, st: State, pre: seq<Event>, t: Tap, k: nat, ps: seq<Position>)
    requires cfg.combo.enable && Inv(cfg, st) && WithinTolerance(cfg, t)
    requires var m := Run(cfg, st, pre).st;
      && !m.mouseDown && !m.holdBeatCombo
      && (m.combo.None? ==> k == 0 && ps == [])
      && (m.combo.Some? ==> m.combo.value.count == k && m.combo.value.positions == ps)
    ensures var r := Run(cfg, st, pre + [Down(t.press, t.pressedAt), Up(t.release, t.releasedAt)]);
      && r.st.combo == Some(Session(k + 1, ps + [TapPosition(cfg, t)], Some(Anchor(t.press.x, t.press.y, t.pressedAt))))
      && r.st.comboPending && !r.st.mouseDown && !r.st.holdBeatCombo
      && r.emitted == Run(cfg, st, pre).emitted + [MouseDown(t.press), MouseUp(t.release)]
  {
    var down, up := Down(t.press, t.pressedAt), Up(t.release, t.releasedAt);
    TapExtendsSession(cfg, Run(cfg, st, pre).st, t, k, ps);
    RunSnoc(cfg, st, pre, down);
    RunSnoc(cfg, st, pre + [down], up);
    assert pre + [down, up] == (pre + [down]) + [up];
  }

  /** Taps in a row, each released within the combo tolerance of its press
      and with no timer firing in between, build one session:
      its count is the number of taps, it holds one position per tap, its
      anchor is the last press and the combo timer is armed. Only the raw
      callbacks are invoked. */
  lemma {:induction false} TapsBuildOneSession(cfg: Config, st: State, taps: seq<Tap>)
    requires cfg.combo.enable && Quiet(cfg, st) && |taps| > 0
    requires forall i :: 0 <= i < |taps| ==> WithinTolerance(cfg, taps[i])
    ensures var r := Run(cfg, st, TapEvents(taps));
      var last := taps[|taps| - 1];
      && r.st.combo == Some(Session(|taps|, TapPositions(cfg, taps),
                                     Some(Anchor(last.press.x, last.press.y, last.pressedAt))))
      && r.st.comboPending && !r.st.mouseDown && !r.st.holdBeatCombo
      && r.emitted == TapEchoes(taps)
    decreases |taps|
  {
    var n := |taps|;
    var front := taps[..n - 1];
    if n > 1 {
      TapsBuildOneSession(cfg, st, front);
    } else {
      assert TapEvents(front) == [] && TapPositions(cfg, front) == [] && TapEchoes(front) == [];
    }
    TapAfterRun(cfg, st, TapEvents(front), taps[n - 1], n - 1, TapPositions(cfg, front));
  }

  /** N quick taps, each released within the combo tolerance, followed by
      the combo timeout: exactly one combo
      callback, by the number of taps, carrying every recorded position
      (a click carries the first); afterwards no session and no pending
      combo timer. */
  lemma TapsThenTimeout(cfg: Config, st: State, taps: seq<Tap>)
    requires cfg.combo.enable && Quiet(cfg, st) && |taps| > 0
    requires forall i :: 0 <= i < |taps| ==> WithinTolerance(cfg, taps[i])
    ensures var r := Run(cfg, st, TapEvents(taps) + [ComboTimer]);
      var ps := TapPositions(cfg, taps);
      && r.emitted == TapEchoes(taps)
                      + [if |taps| == 1 then Click(Some(ps[0]))
                         else if |taps| == 2 then DblClick(ps)
                         else ComboClick(ps)]
      && r.st.combo.None? && !r.st.comboPending
  {
    TapsBuildOneSession(cfg, st, taps);
    RunSnoc(cfg, st, TapEvents(taps), ComboTimer);
  }

  /** With a non-holdable combo, a press held until the hold timer fires
      and then released reports the hold and resolves the combo as a click
      at once, before the release is echoed; nothing is left pending for
      the combo. */
  lemma HoldBeatsCombo(cfg: Config, st: State, e: MouseEvent, t0: int, t1: int)
    requires cfg.hold.enable && cfg.combo.enable && !cfg.combo.holdable && Quiet(cfg, st)
    ensures var r := Run(cfg, st, [Down(e, t0), HoldTimer, Up(e, t1)]);
      var p := Position(e.x, e.y, if cfg.combo.timingable then Ms(t1 - t0) else Untimed);
      && r.emitted == [MouseDown(e), MouseHold(Point(e.x, e.y)), Click(Some(p)), MouseUp(e)]
      && r.st.combo.None? && !r.st.comboPending && !r.st.holdBeatCombo && !r.st.mouseDown
      && !r.st.holdPending
  {
    var s1 := Step(cfg, st, Down(e, t0));
    var s2 := Step(cfg, s1.st, HoldTimer);
    RunSnoc(cfg, st, [], Down(e, t0));
    RunSnoc(cfg, st, [Down(e, t0)], HoldTimer);
    RunSnoc(cfg, st, [Down(e, t0), HoldTimer], Up(e, t1));
    assert [] + [Down(e, t0)] == [Down(e, t0)];
    assert [Down(e, t0)] + [HoldTimer] == [Down(e, t0), HoldTimer];
    assert [Down(e, t0), HoldTimer] + [Up(e, t1)] == [Down(e, t0), HoldTimer, Up(e, t1)];
    assert s2.st.holdBeatCombo;
  }

  /** With a holdable combo the same press, hold and release report the
      hold but leave the session counting, its timer armed. */
  lemma HoldableComboKeepsCounting(cfg: Config, st: State, e: MouseEvent, t0: int, t1: int)
    requires cfg.hold.enable && cfg.combo.enable && cfg.combo.holdable && Quiet(cfg, st)
    ensures var r := Run(cfg, st, [Down(e, t0), HoldTimer, Up(e, t1)]);
      var p := Position(e.x, e.y, if cfg.combo.timingable then Ms(t1 - t0) else Untimed);
      && r.emitted == [MouseDown(e), MouseHold(Point(e.x, e.y)), MouseUp(e)]
      && r.st.combo == Some(Session(1, [p], Some(Anchor(e.x, e.y, t0)))) && r.st.comboPending
  {
    var s1 := Step(cfg, st, Down(e, t0));
    var s2 := Step(cfg, s1.st, HoldTimer);
    assert s2.st.combo == Some(Session(1, [], Some(Anchor(e.x, e.y, t0))));
    assert Run(cfg, st, [Down(e, t0), HoldTimer]) == Outcome(s2.st, [MouseDown(e), MouseHold(Point(e.x, e.y))]) by {
      RunSnoc(cfg, st, [], Down(e, t0));
      RunSnoc(cfg, st, [Down(e, t0)], HoldTimer);
      assert [] + [Down(e, t0)] == [Down(e, t0)];
      assert [Down(e, t0)] + [HoldTimer] == [Down(e, t0), HoldTimer];
    }
    RunSnoc(cfg, st, [Down(e, t0), HoldTimer], Up(e, t1));
    assert [Down(e, t0), HoldTimer] + [Up(e, t1)] == [Down(e, t0), HoldTimer, Up(e, t1)];
    assert !MovedFrom(s2.st.combo.value.anchor, e.x, e.y, cfg.combo.tolerance);
    var p := Position(e.x, e.y, if cfg.combo.timingable then Ms(t1 - t0) else Untimed);
    assert ReleasePosition(cfg, s2.st.combo.value, e.x, e.y, t1) == p;
    assert [] + [p] == [p];
  }

  /** The release does not cancel the hold timer: it still fires
      afterwards, and reports nothing because the pointer is up. */
  lemma HoldTimerAfterReleaseIsSilent(cfg: Config, st: State, e: MouseEvent, t0: int, t1: int)
    requires cfg.hold.enable && Quiet(cfg, st)
    ensures Run(cfg, st, [Down(e, t0), Up(e, t1)]).st.holdPending
    ensures var before := Run(cfg, st, [Down(e, t0), Up(e, t1)]);
      var r := Run(cfg, st, [Down(e, t0), Up(e, t1), HoldTimer]);
      && r.emitted == before.emitted
      && r.st == before.st.(holdPending := false)
  {
    RunSnoc(cfg, st, [], Down(e, t0));
    RunSnoc(cfg, st, [Down(e, t0)], Up(e, t1));
    RunSnoc(cfg, st, [Down(e, t0), Up(e, t1)], HoldTimer);
    assert [] + [Down(e, t0)] == [Down(e, t0)];
    assert [Down(e, t0)] + [Up(e, t1)] == [Down(e, t0), Up(e, t1)];
    assert [Down(e, t0), Up(e, t1)] + [HoldTimer] == [Down(e, t0), Up(e, t1), HoldTimer];
  }

  /** Moving a pressed pointer farther than the hold tolerance restarts
      the hold at the new place; a smaller move keeps the old anchor. */
  lemma MoveRestartsHold(cfg: Config, st: State, e0: MouseEvent, e1: MouseEvent, t0: int)
    requires cfg.hold.enable && Quiet(cfg, st)
    ensures var r := Run(cfg, st, [Down(e0, t0), Move(e1)]);
      && r.st.holdPending
      && r.st.hold == Some(if CheckDistance(e0.x, e0.y, e1.x, e1.y, cfg.hold.tolerance)
                           then Point(e1.x, e1.y) else Point(e0.x, e0.y))
      && r.emitted == [MouseDown(e0), MouseMove(e1)]
  {
    RunSnoc(cfg, st, [], Down(e0, t0));
    RunSnoc(cfg, st, [Down(e0, t0)], Move(e1));
    assert [] + [Down(e0, t0)] == [Down(e0, t0)];
    assert [Down(e0, t0)] + [Move(e1)] == [Down(e0, t0), Move(e1)];
  }

  /** Leaving the surface before the first release resolves the session
      once, as a click with no position (none was recorded yet), still
      echoes the exit, and leaves nothing pending. */
  lemma LeaveMidPress(cfg: Config, st: State, e: MouseEvent, t0: int, o: MouseEvent)
    requires cfg.combo.enable && Quiet(cfg, st)
    ensures var r := Run(cfg, st, [Down(e, t0), Out(o)]);
      && r.emitted == [MouseDown(e), Click(None), MouseOut(o)]
      && r.st.combo.None? && r.st.hold.None? && !r.st.mouseDown
      && !r.st.holdPending && !r.st.comboPending
  {
    RunSnoc(cfg, st, [], Down(e, t0));
    RunSnoc(cfg, st, [Down(e, t0)], Out(o));
    assert [] + [Down(e, t0)] == [Down(e, t0)];
    assert [Down(e, t0)] + [Out(o)] == [Down(e, t0), Out(o)];
  }

  /** Dragging back in with a button held opens a session with no press
      counted; releasing records a position, and when the combo timer
      fires nothing is reported for it. */
  lemma ReentrySessionIsSilent(cfg: Config, st: State, e: MouseEvent, u: MouseEvent, t: int)
    requires cfg.combo.enable && Inv(cfg, st) && e.button > 0
    requires !st.holdBeatCombo
    ensures var r := Run(cfg, st, [Enter(e), Up(u, t)]);
      && r.st.combo == Some(Session(0, [Position(u.x, u.y, if cfg.combo.timingable then NotANumber else Untimed)], None))
      && r.st.comboPending
      && r.emitted == [MouseEnter(e), MouseUp(u)]
    ensures Run(cfg, st, [Enter(e), Up(u, t), ComboTimer]).emitted == [MouseEnter(e), MouseUp(u)]
  {
    var s1 := Step(cfg, st, Enter(e));
    RunSnoc(cfg, st, [], Enter(e));
    RunSnoc(cfg, st, [Enter(e)], Up(u, t));
    RunSnoc(cfg, st, [Enter(e), Up(u, t)], ComboTimer);
    assert [] + [Enter(e)] == [Enter(e)];
    assert [Enter(e)] + [Up(u, t)] == [Enter(e), Up(u, t)];
    assert [Enter(e), Up(u, t)] + [ComboTimer] == [Enter(e), Up(u, t), ComboTimer];
    assert s1.st.combo == Some(FreshSession);
    var p := Position(u.x, u.y, if cfg.combo.timingable then NotANumber else Untimed);
    assert ReleasePosition(cfg, FreshSession, u.x, u.y, t) == p;
    assert [] + [p] == [p];
  }

  /** Binding resets everything: whatever happened before, the next press
      starts a session with a count of one. */
  lemma BindStartsFresh(cfg: Config, st: State, s: Surface, e: MouseEvent, t: int, evs: seq<Event>)
    requires cfg.combo.enable && Inv(cfg, st)
    ensures var r := Run(cfg, st, evs + [Bind(s), Down(e, t)]);
      r.st.combo == Some(Session(1, [], Some(Anchor(e.x, e.y, t)))) && r.st.target == Some(s)
  {
    assert evs + [Bind(s), Down(e, t)] == (evs + [Bind(s)]) + [Down(e, t)];
    RunSnoc(cfg, st, evs, Bind(s));
    RunSnoc(cfg, st, evs + [Bind(s)], Down(e, t));
  }

  /** Unbinding, whatever happened before, leaves the initial state with
      no target: no hold anchor, no session, no pending timer. */
  lemma UnbindResets(cfg: Config, st: State, evs: seq<Event>)
    requires Inv(cfg, st)
    ensures Run(cfg, st, evs + [Unbind]).st == Init(None)
  {
    RunSnoc(cfg, st, evs, Unbind);
  }

  /** A click and a re-entry with a button held leave a fresh session with
      the combo timer of the click still pending. */
  lemma ClickThenReenter(cfg: Config, s: Surface, e: MouseEvent, r: MouseEvent, t0: int, t1: int)
    requires cfg.combo.enable && r.button > 0
    ensures var o := Run(cfg, Init(Some(s)), [Down(e, t0), Up(e, t1), Enter(r)]);
      && o.st.combo == Some(FreshSession) && o.st.comboPending && !o.st.holdBeatCombo
      && o.emitted == [MouseDown(e), MouseUp(e), MouseEnter(r)]
  {
    var st0 := Init(Some(s));
    var o1 := Step(cfg, st0, Down(e, t0));
    var o2 := Step(cfg, o1.st, Up(e, t1));
    assert o2.st.comboPending && !o2.st.holdBeatCombo;
    RunSnoc(cfg, st0, [], Down(e, t0));
    RunSnoc(cfg, st0, [Down(e, t0)], Up(e, t1));
    RunSnoc(cfg, st0, [Down(e, t0), Up(e, t1)], Enter(r));
    assert [] + [Down(e, t0)] == [Down(e, t0)];
    assert [Down(e, t0)] + [Up(e, t1)] == [Down(e, t0), Up(e, t1)];
    assert [Down(e, t0), Up(e, t1)] + [Enter(r)] == [Down(e, t0), Up(e, t1), Enter(r)];
  }

  /** From such a state, the release replaces the pending timer, the timer
      resolves the press-less session silently and a second firing finds
      no combo timer pending. */
  lemma ReleaseThenTwoTimers(cfg: Config, m: State, u: MouseEvent, t2: int)
    requires cfg.combo.enable && Inv(cfg, m)
    requires m.combo == Some(FreshSession) && m.comboPending && !m.holdBeatCombo
    ensures var a := Step(cfg, m, Up(u, t2));
      var b := Step(cfg, a.st, ComboTimer);
      var c := Step(cfg, b.st, ComboTimer);
      && a.emitted == [MouseUp(u)] && b.emitted == [] && c.emitted == []
      && c.st.combo.None? && !c.st.comboPending
  {
    var a := Step(cfg, m, Up(u, t2));
    assert a.st.comboPending && a.st.combo.value.count == 0;
  }

  /** Click, re-enter with a button held (leaving while released only
      echoes, so the exit is not among the events), release within the
      timeout, then two combo timer events: with at most one combo timer,
      the release replaces the pending timer, the timer resolves the
      re-entry session silently, and the second event finds no combo timer
      pending. No step ever finds a pending combo timer without a session
      (Step keeps Inv). */
  lemma StaleComboTimerCorrected(cfg: Config, s: Surface, e: MouseEvent, r: MouseEvent, u: MouseEvent, t0: int, t1: int, t2: int)
    requires cfg.combo.enable && r.button > 0
    ensures
      var evs := [Down(e, t0), Up(e, t1), Enter(r), Up(u, t2), ComboTimer, ComboTimer];
      var o := Run(cfg, Init(Some(s)), evs);
      && o.emitted == [MouseDown(e), MouseUp(e), MouseEnter(r), MouseUp(u)]
      && o.st.combo.None? && !o.st.comboPending
  {
    var st0 := Init(Some(s));
    var p3 := [Down(e, t0), Up(e, t1), Enter(r)];
    ClickThenReenter(cfg, s, e, r, t0, t1);
    ReleaseThenTwoTimers(cfg, Run(cfg, st0, p3).st, u, t2);
    var p4 := p3 + [Up(u, t2)];
    var p5 := p4 + [ComboTimer];
    RunSnoc(cfg, st0, p3, Up(u, t2));
    RunSnoc(cfg, st0, p4, ComboTimer);
    RunSnoc(cfg, st0, p5, ComboTimer);
    assert p5 + [ComboTimer] == [Down(e, t0), Up(e, t1), Enter(r), Up(u, t2), ComboTimer, ComboTimer];
  }
}
