/** The handlers of the Petal gesture classifier as functions from the old
    state to the new state and the callbacks invoked. Each function follows
    one JavaScript function of visualization/interactions.js; its contract
    states what the handler promises. The class in module Classifier
    performs the same updates in place and is proved equal to these. */
module Transitions {
  import opened GestureTypes
  import opened Distance

  /** The reachable states: a hold anchor exactly while pressed with hold
      tracking on; timers only where they can have been armed; a session
      lacks a press anchor exactly when no press has been counted in it. */
  predicate Inv(cfg: Config, st: State) {
    && (st.hold.Some? <==> st.mouseDown && cfg.hold.enable)
    && (st.holdPending ==> cfg.hold.enable)
    && (st.comboPending ==> st.combo.Some?)
    && (st.combo.Some? ==> cfg.combo.enable)
    && (st.combo.Some? ==> (st.combo.value.anchor.None? <==> st.combo.value.count == 0))
    && (st.holdBeatCombo ==> !cfg.combo.holdable)
  }

  /** `interaction_init`: no hold anchor, no session, no timer, both flags
      down; only the target is kept. */
  function Init(target: Option<Surface>): (r: State)
    ensures r.hold.None? && r.combo.None?
    ensures !r.holdPending && !r.comboPending && !r.holdBeatCombo && !r.mouseDown
    ensures r.target == target
    ensures forall cfg :: Inv(cfg, r)
  {
    State(target, None, None, false, false, false, false)
  }

  /** Whether a release at (x, y) is farther than the tolerance from the
      session's latest press. A session without a press has undefined
      coordinates in the source, which makes the test false. */
  predicate MovedFrom(anchor: Option<Anchor>, x: int, y: int, tolerance: int) {
    anchor.Some? && CheckDistance(anchor.value.x, anchor.value.y, x, y, tolerance)
  }

  /** The callback `check_combo` invokes for a session, by its count. */
  function ComboCallback(s: Session): (r: seq<Gesture>)
    ensures |r| <= 1
    ensures |r| == 1 <==> s.count > 0
    ensures forall g <- r :: IsComboGesture(g)
    ensures s.count == 1 ==> r == [Click(First(s.positions))]
    ensures s.count == 2 ==> r == [DblClick(s.positions)]
    ensures s.count >= 3 ==> r == [ComboClick(s.positions)]
  {
    match s.count
    case 0 => []
    case 1 => [Click(First(s.positions))]
    case 2 => [DblClick(s.positions)]
    case _ => [ComboClick(s.positions)]
  }

  /** `check_combo`: resolve the session. Afterwards there is no session,
      no hold-beats-combo mark and no pending combo timer; nothing else
      changes. */
  function CheckCombo(st: State): (r: Outcome)
    requires st.combo.Some?
    ensures r.st.combo.None? && !r.st.holdBeatCombo && !r.st.comboPending
    ensures r.st.hold == st.hold && r.st.mouseDown == st.mouseDown
    ensures r.st.holdPending == st.holdPending && r.st.target == st.target
    ensures r.emitted == ComboCallback(st.combo.value)
  {
    Outcome(st.(holdBeatCombo := false, combo := None, comboPending := false),
            ComboCallback(st.combo.value))
  }

  /** `do_hold`: while pressed, (re)start the hold timer at (x, y); on a
      move (`checkMoved`) only when (x, y) is farther than the hold
      tolerance from the current anchor. */
  function DoHold(cfg: Config, st: State, x: int, y: int, checkMoved: bool): (r: State)
    requires checkMoved && st.mouseDown ==> st.hold.Some?
    ensures r == st || r == st.(hold := Some(Point(x, y)), holdPending := true)
    ensures !st.mouseDown ==> r == st
    ensures st.mouseDown && !checkMoved ==> r.hold == Some(Point(x, y)) && r.holdPending
    ensures st.mouseDown && checkMoved ==>
      r == if CheckDistance(st.hold.value.x, st.hold.value.y, x, y, cfg.hold.tolerance)
           then st.(hold := Some(Point(x, y)), holdPending := true) else st
  {
    if !st.mouseDown then st
    else if checkMoved && !CheckDistance(st.hold.value.x, st.hold.value.y, x, y, cfg.hold.tolerance) then st
    else st.(hold := Some(Point(x, y)), holdPending := true)
  }

  /** `do_combo_down`: while pressed, cancel the combo timer, open a
      session if there is none, count this press and make it the anchor. */
  function DoComboDown(st: State, x: int, y: int, now: int): (r: State)
    ensures !st.mouseDown ==> r == st
    ensures st.mouseDown ==>
      && r.combo.Some? && !r.comboPending
      && r.combo.value.count == (if st.combo.Some? then st.combo.value.count else 0) + 1
      && r.combo.value.positions == (if st.combo.Some? then st.combo.value.positions else [])
      && r.combo.value.anchor == Some(Anchor(x, y, now))
    ensures r.hold == st.hold && r.holdPending == st.holdPending && r.mouseDown == st.mouseDown
    ensures r.holdBeatCombo == st.holdBeatCombo && r.target == st.target
  {
    if !st.mouseDown then st
    else
      var s := if st.combo.Some? then st.combo.value else FreshSession;
      st.(comboPending := false, combo := Some(s.(anchor := Some(Anchor(x, y, now)), count := s.count + 1)))
  }

  /** The position `do_combo_up` records for a release at (x, y). */
  function ReleasePosition(cfg: Config, s: Session, x: int, y: int, now: int): (p: Position)
    ensures p.x == x && p.y == y
    ensures !cfg.combo.timingable <==> p.elapsed.Untimed?
    ensures cfg.combo.timingable && s.anchor.Some? ==> p.elapsed == Ms(now - s.anchor.value.timestamp)
    ensures cfg.combo.timingable && s.anchor.None? ==> p.elapsed == NotANumber
  {
    Position(x, y,
      if !cfg.combo.timingable then Untimed
      else match s.anchor
        case Some(a) => Ms(now - a.timestamp)
        case None => NotANumber)
  }

  /** Whether a release resolves the session at once instead of arming the
      combo timer: it moved beyond the combo tolerance from the latest
      press, or a hold beat the combo. */
  predicate ResolvesAtOnce(cfg: Config, st: State, s: Session, x: int, y: int) {
    (cfg.combo.tolerance >= 0 && MovedFrom(s.anchor, x, y, cfg.combo.tolerance))
    || (!cfg.combo.holdable && st.holdBeatCombo)
  }

  /** `do_combo_up`: with a session, record one position, then resolve at
      once or arm the combo timer. Without a session nothing happens. */
  function DoComboUp(cfg: Config, st: State, x: int, y: int, now: int): (r: Outcome)
    ensures st.combo.None? ==> r == Outcome(st, [])
    ensures st.combo.Some? && ResolvesAtOnce(cfg, st, st.combo.value, x, y) ==>
      var s := st.combo.value;
      && r.st.combo.None? && !r.st.comboPending && !r.st.holdBeatCombo
      && r.emitted == ComboCallback(s.(positions := s.positions + [ReleasePosition(cfg, s, x, y, now)]))
    ensures st.combo.Some? && !ResolvesAtOnce(cfg, st, st.combo.value, x, y) ==>
      var s := st.combo.value;
      && r.st.combo == Some(s.(positions := s.positions + [ReleasePosition(cfg, s, x, y, now)]))
      && r.st.comboPending && r.emitted == []
      && r.st.holdBeatCombo == st.holdBeatCombo
    ensures r.st.hold == st.hold && r.st.holdPending == st.holdPending
    ensures r.st.mouseDown == st.mouseDown && r.st.target == st.target
  {
    if st.combo.None? then Outcome(st, [])
    else
      var s := st.combo.value;
      var recorded := s.(positions := s.positions + [ReleasePosition(cfg, s, x, y, now)]);
      var st1 := st.(combo := Some(recorded));
      if ResolvesAtOnce(cfg, st, s, x, y) then CheckCombo(st1)
      else Outcome(st1.(comboPending := true), [])
  }

  /** `check_hold`, run when the hold timer fires: while pressed, report a
      hold at the anchor and, unless the combo is holdable, mark that the
      hold beat the combo. The timer is not re-armed. */
  function CheckHold(cfg: Config, st: State): (r: Outcome)
    requires st.holdPending
    requires st.mouseDown ==> st.hold.Some?
    ensures !r.st.holdPending
    ensures st.mouseDown ==> r.emitted == [MouseHold(st.hold.value)]
    ensures st.mouseDown ==> r.st.holdBeatCombo == (st.holdBeatCombo || !cfg.combo.holdable)
    ensures !st.mouseDown ==> r.emitted == [] && r.st == st.(holdPending := false)
    ensures r.st.(holdBeatCombo := st.holdBeatCombo) == st.(holdPending := false)
  {
    if st.mouseDown then
      Outcome(st.(holdBeatCombo := st.holdBeatCombo || !cfg.combo.holdable, holdPending := false),
              [MouseHold(st.hold.value)])
    else Outcome(st.(holdPending := false), [])
  }

  /** The combo timer fires: `check_combo` on the pending session. */
  function FireCombo(st: State): (r: Outcome)
    requires st.comboPending && st.combo.Some?
    ensures r.st.combo.None? && !r.st.comboPending && !r.st.holdBeatCombo
    ensures |r.emitted| == 1 <==> st.combo.value.count > 0
    ensures r.emitted == ComboCallback(st.combo.value)
    ensures r.st.(holdBeatCombo := st.holdBeatCombo, combo := st.combo, comboPending := true) == st
  {
    CheckCombo(st)
  }

  /** `event_mousedown`: mark the pointer pressed, start the hold timer at
      the press, count the press in the combo, then echo the event. */
  function OnMouseDown(cfg: Config, st: State, e: MouseEvent, now: int): (r: Outcome)
    ensures r.st.mouseDown && r.emitted == [MouseDown(e)]
    ensures cfg.hold.enable ==> r.st.hold == Some(Point(e.x, e.y)) && r.st.holdPending
    ensures !cfg.hold.enable ==> r.st.hold == st.hold && r.st.holdPending == st.holdPending
    ensures cfg.combo.enable ==>
      && r.st.combo.Some? && !r.st.comboPending
      && r.st.combo.value.count == (if st.combo.Some? then st.combo.value.count else 0) + 1
      && r.st.combo.value.positions == (if st.combo.Some? then st.combo.value.positions else [])
      && r.st.combo.value.anchor == Some(Anchor(e.x, e.y, now))
    ensures !cfg.combo.enable ==> r.st.combo == st.combo && r.st.comboPending == st.comboPending
    ensures r.st.holdBeatCombo == st.holdBeatCombo && r.st.target == st.target
  {
    var s1 := st.(mouseDown := true);
    var s2 := if cfg.hold.enable then DoHold(cfg, s1, e.x, e.y, false) else s1;
    var s3 := if cfg.combo.enable then DoComboDown(s2, e.x, e.y, now) else s2;
    Outcome(s3, [MouseDown(e)])
  }

  /** `event_mousemove`: let the hold tracker see the move, then echo it. */
  function OnMouseMove(cfg: Config, st: State, e: MouseEvent): (r: Outcome)
    requires cfg.hold.enable && st.mouseDown ==> st.hold.Some?
    ensures r.emitted == [MouseMove(e)]
    ensures r.st == st || r.st == st.(hold := Some(Point(e.x, e.y)), holdPending := true)
    ensures r.st != st ==>
      && cfg.hold.enable && st.mouseDown && cfg.hold.tolerance >= 0
      && CheckDistance(st.hold.value.x, st.hold.value.y, e.x, e.y, cfg.hold.tolerance)
    ensures (cfg.hold.enable && st.mouseDown
             && CheckDistance(st.hold.value.x, st.hold.value.y, e.x, e.y, cfg.hold.tolerance)) ==>
      r.st.hold == Some(Point(e.x, e.y)) && r.st.holdPending
  {
    var s1 := if cfg.hold.enable then DoHold(cfg, st, e.x, e.y, true) else st;
    Outcome(s1, [MouseMove(e)])
  }

  /** `event_mouseup`: let the combo tracker see the release, then mark the
      pointer released, drop the hold anchor and echo the event. The hold
      timer is left running. */
  function OnMouseUp(cfg: Config, st: State, e: MouseEvent, now: int): (r: Outcome)
    ensures !r.st.mouseDown && r.st.hold.None?
    ensures r.st.holdPending == st.holdPending && r.st.target == st.target
    ensures |r.emitted| >= 1 && r.emitted[|r.emitted| - 1] == MouseUp(e)
    ensures (!cfg.combo.enable || st.combo.None?) ==>
      r.emitted == [MouseUp(e)] && r.st.combo == st.combo && r.st.comboPending == st.comboPending
    ensures cfg.combo.enable && st.combo.Some? ==>
      var s := st.combo.value;
      var recorded := s.(positions := s.positions + [ReleasePosition(cfg, s, e.x, e.y, now)]);
      if ResolvesAtOnce(cfg, st, s, e.x, e.y) then
        && r.st.combo.None? && !r.st.comboPending && !r.st.holdBeatCombo
        && r.emitted == ComboCallback(recorded) + [MouseUp(e)]
      else
        && r.st.combo == Some(recorded) && r.st.comboPending
        && r.emitted == [MouseUp(e)]
    ensures !(cfg.combo.enable && st.combo.Some? && ResolvesAtOnce(cfg, st, st.combo.value, e.x, e.y)) ==>
      r.st.holdBeatCombo == st.holdBeatCombo
  {
    var o := if cfg.combo.enable then DoComboUp(cfg, st, e.x, e.y, now) else Outcome(st, []);
    Outcome(o.st.(mouseDown := false, hold := None), o.emitted + [MouseUp(e)])
  }

  /** `event_mouseout`: while pressed, cancel both timers, resolve the
      session if there is one, drop hold and combo state and mark the
      pointer released; in every case echo the event. */
  function OnMouseOut(cfg: Config, st: State, e: MouseEvent): (r: Outcome)
    ensures !st.mouseDown ==> r == Outcome(st, [MouseOut(e)])
    ensures st.mouseDown ==>
      && r.st == st.(hold := None, combo := None, mouseDown := false, holdPending := false,
                     comboPending := false,
                     holdBeatCombo := st.holdBeatCombo && !(cfg.combo.enable && st.combo.Some?))
      && r.emitted == (if cfg.combo.enable && st.combo.Some? then ComboCallback(st.combo.value) else [])
                      + [MouseOut(e)]
  {
    if st.mouseDown then
      var s1 := st.(holdPending := false, comboPending := false);
      var o := if cfg.combo.enable && s1.combo.Some? then CheckCombo(s1) else Outcome(s1, []);
      Outcome(o.st.(hold := None, combo := None, mouseDown := false), o.emitted + [MouseOut(e)])
    else Outcome(st, [MouseOut(e)])
  }

  /** `event_mouseenter`: re-entering with a button held marks the pointer
      pressed, restarts the hold timer and replaces any session by a fresh
      one with no press counted; it emits only the echo and leaves a
      pending combo timer alone. Without a button nothing changes. */
  function OnMouseEnter(cfg: Config, st: State, e: MouseEvent): (r: Outcome)
    ensures r.emitted == [MouseEnter(e)]
    ensures e.button == 0 ==> r.st == st
    ensures e.button > 0 ==>
      && r.st.mouseDown
      && r.st.combo == (if cfg.combo.enable then Some(FreshSession) else st.combo)
      && r.st.hold == (if cfg.hold.enable then Some(Point(e.x, e.y)) else st.hold)
      && r.st.holdPending == (cfg.hold.enable || st.holdPending)
    ensures r.st.comboPending == st.comboPending && r.st.holdBeatCombo == st.holdBeatCombo
    ensures r.st.target == st.target
  {
    if e.button > 0 then
      var s1 := st.(mouseDown := true);
      var s2 := if cfg.hold.enable then DoHold(cfg, s1, e.x, e.y, false) else s1;
      var s3 := if cfg.combo.enable then s2.(combo := Some(FreshSession)) else s2;
      Outcome(s3, [MouseEnter(e)])
    else Outcome(st, [MouseEnter(e)])
  }
}
