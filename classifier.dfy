/** The Petal gesture classifier as an object: the closure records `state`
    and `lock` of visualization/interactions.js become fields that the
    handlers update in place, the two `setTimeout` handles become "pending"
    flags with a method per timer that fires it, the clock becomes a `now`
    argument, and every callback invoked is appended to `log`. Each method
    is proved to perform exactly the transition that module Transitions
    specifies. */
module Classifier {
  import opened GestureTypes
  import opened Distance
  import opened Transitions

  class PetalInteraction {
    const cfg: Config
    var target: Option<Surface>
    /** `state.hold` */
    var hold: Option<Point>
    /** `state.combo` */
    var combo: Option<Session>
    /** `lock.holdBeatCombo` and `lock.mouseDown` */
    var holdBeatCombo: bool
    var mouseDown: bool
    /** Whether `lock.checkHold` / `lock.checkCombo` name a scheduled timer. */
    var holdPending: bool
    var comboPending: bool
    /** The callbacks invoked so far, oldest first. */
    var log: seq<Gesture>

    function Snapshot(): (s: State)
      reads this
    {
      State(target, hold, combo, holdBeatCombo, mouseDown, holdPending, comboPending)
    }

    predicate Valid()
      reads this
    {
      Inv(cfg, Snapshot())
    }

    /** `PetalInteraction(callback)`: runs `interaction_init`; no target. */
    constructor (cfg: Config)
      ensures this.cfg == cfg && Snapshot() == Init(None) && log == [] && Valid()
    {
      this.cfg := cfg;
      target := None;
      log := [];
      new;
      InteractionInit();
    }

    /** `interaction_init`: cancel both timers and clear every record. */
    method InteractionInit()
      modifies this
      ensures Snapshot() == Init(old(target)) && log == old(log)
    {
      hold := None;
      combo := None;
      holdPending := false;
      comboPending := false;
      holdBeatCombo := false;
      mouseDown := false;
    }

    /** `bind`: remember the surface and reset. */
    method Bind(element: Surface)
      modifies this
      ensures Snapshot() == Init(Some(element)) && log == old(log) && Valid()
    {
      target := Some(element);
      InteractionInit();
    }

    /** `unbind`: reset and forget the surface. */
    method Unbind(element: Surface)
      modifies this
      ensures Snapshot() == Init(None) && log == old(log) && Valid()
    {
      InteractionInit();
      target := None;
    }

    /** `check_combo`: invoke the callback the session's count calls for,
        then drop the session, the hold mark and the combo timer. */
    method CheckCombo()
      requires combo.Some?
      modifies this
      ensures Snapshot() == Transitions.CheckCombo(old(Snapshot())).st
      ensures log == old(log) + Transitions.CheckCombo(old(Snapshot())).emitted
    {
      var s := combo.value;
      if s.count == 0 {
      } else if s.count == 1 {
        log := log + [Click(First(s.positions))];
      } else if s.count == 2 {
        log := log + [DblClick(s.positions)];
      } else {
        log := log + [ComboClick(s.positions)];
      }
      holdBeatCombo := false;
      combo := None;
      comboPending := false;
    }

    /** `do_hold` */
    method DoHold(x: int, y: int, checkMoved: bool)
      requires checkMoved && mouseDown ==> hold.Some?
      modifies this
      ensures Snapshot() == Transitions.DoHold(cfg, old(Snapshot()), x, y, checkMoved)
      ensures log == old(log)
    {
      if !mouseDown {
        return;
      }
      if checkMoved {
        if !CheckDistance(hold.value.x, hold.value.y, x, y, cfg.hold.tolerance) {
          return;
        }
      }
      holdPending := false;
      hold := Some(Point(x, y));
      holdPending := true;
    }

    /** `do_combo_down` */
    method DoComboDown(x: int, y: int, now: int)
      modifies this
      ensures Snapshot() == Transitions.DoComboDown(old(Snapshot()), x, y, now)
      ensures log == old(log)
    {
      if !mouseDown {
        return;
      }
      comboPending := false;
      if combo.None? {
        combo := Some(FreshSession);
      }
      combo := Some(combo.value.(anchor := Some(Anchor(x, y, now))));
      combo := Some(combo.value.(count := combo.value.count + 1));
    }

    /** `do_combo_up` */
    method DoComboUp(x: int, y: int, now: int)
      modifies this
      ensures Snapshot() == Transitions.DoComboUp(cfg, old(Snapshot()), x, y, now).st
      ensures log == old(log) + Transitions.DoComboUp(cfg, old(Snapshot()), x, y, now).emitted
    {
      if combo.None? {
        return;
      }
      var pos := Position(x, y, Untimed);
      if cfg.combo.timingable {
        var elapsed := match combo.value.anchor
          case Some(a) => Ms(now - a.timestamp)
          case None => NotANumber;
        pos := pos.(elapsed := elapsed);
      }
      combo := Some(combo.value.(positions := combo.value.positions + [pos]));
      if cfg.combo.tolerance >= 0 {
        var a := combo.value.anchor;
        if a.Some? && CheckDistance(a.value.x, a.value.y, x, y, cfg.combo.tolerance) {
          CheckCombo();
          return;
        }
      }
      if !cfg.combo.holdable {
        if holdBeatCombo {
          CheckCombo();
          return;
        }
      }
      comboPending := true;
    }

    /** `event_mousedown` */
    method MouseDown(e: MouseEvent, now: int)
      requires Valid()
      modifies this
      ensures Valid()
      ensures Snapshot() == OnMouseDown(cfg, old(Snapshot()), e, now).st
      ensures log == old(log) + OnMouseDown(cfg, old(Snapshot()), e, now).emitted
    {
      mouseDown := true;
      if cfg.hold.enable {
        DoHold(e.x, e.y, false);
      }
      if cfg.combo.enable {
        DoComboDown(e.x, e.y, now);
      }
      log := log + [Gesture.MouseDown(e)];
    }

    /** `event_mousemove` */
    method MouseMove(e: MouseEvent)
      requires Valid()
      modifies this
      ensures Valid()
      ensures Snapshot() == OnMouseMove(cfg, old(Snapshot()), e).st
      ensures log == old(log) + OnMouseMove(cfg, old(Snapshot()), e).emitted
    {
      if cfg.hold.enable {
        DoHold(e.x, e.y, true);
      }
      log := log + [Gesture.MouseMove(e)];
    }

    /** `event_mouseup` */
    method MouseUp(e: MouseEvent, now: int)
      requires Valid()
      modifies this
      ensures Valid()
      ensures Snapshot() == OnMouseUp(cfg, old(Snapshot()), e, now).st
      ensures log == old(log) + OnMouseUp(cfg, old(Snapshot()), e, now).emitted
    {
      if cfg.combo.enable {
        DoComboUp(e.x, e.y, now);
      }
      mouseDown := false;
      hold := None;
      log := log + [Gesture.MouseUp(e)];
    }

    /** `event_mouseout` */
    method MouseOut(e: MouseEvent)
      requires Valid()
      modifies this
      ensures Valid()
      ensures Snapshot() == OnMouseOut(cfg, old(Snapshot()), e).st
      ensures log == old(log) + OnMouseOut(cfg, old(Snapshot()), e).emitted
    {
      if mouseDown {
        holdPending := false;
        comboPending := false;
        if cfg.combo.enable && combo.Some? {
          CheckCombo();
        }
        hold := None;
        combo := None;
        mouseDown := false;
      }
      log := log + [Gesture.MouseOut(e)];
    }

    /** `event_mouseenter` */
    method MouseEnter(e: MouseEvent)
      requires Valid()
      modifies this
      ensures Valid()
      ensures Snapshot() == OnMouseEnter(cfg, old(Snapshot()), e).st
      ensures log == old(log) + OnMouseEnter(cfg, old(Snapshot()), e).emitted
    {
      if e.button > 0 {
        mouseDown := true;
        if cfg.hold.enable {
          DoHold(e.x, e.y, false);
        }
        if cfg.combo.enable {
          combo := Some(FreshSession);
        }
      }
      log := log + [Gesture.MouseEnter(e)];
    }

    /** The hold timer fires: `check_hold`. */
    method FireHoldTimer()
      requires Valid() && holdPending
      modifies this
      ensures Valid()
      ensures Snapshot() == CheckHold(cfg, old(Snapshot())).st
      ensures log == old(log) + CheckHold(cfg, old(Snapshot())).emitted
    {
      if mouseDown {
        log := log + [MouseHold(hold.value)];
        if !cfg.combo.holdable {
          holdBeatCombo := true;
        }
      }
      holdPending := false;
    }

    /** The combo timer fires: `check_combo` on the pending session. */
    method FireComboTimer()
      requires Valid() && comboPending
      modifies this
      ensures Valid()
      ensures Snapshot() == FireCombo(old(Snapshot())).st
      ensures log == old(log) + FireCombo(old(Snapshot())).emitted
    {
      CheckCombo();
    }
  }

  /** A fresh classifier with the default configuration, bound to a
      surface, sees one press, one release (anywhere: the default combo
      tolerance is negative) and then its combo timeout: it reports the
      press, the release and a single click at the release position, and
      nothing else. */
  method SingleClick(surface: Surface, e: MouseEvent, r: MouseEvent, pressedAt: int, releasedAt: int)
    returns (log: seq<Gesture>)
    ensures log == [MouseDown(e), MouseUp(r), Click(Some(Position(r.x, r.y, Untimed)))]
  {
    var c := new PetalInteraction(DefaultConfig);
    c.Bind(surface);
    c.MouseDown(e, pressedAt);
    c.MouseUp(r, releasedAt);
    c.FireComboTimer();
    log := c.log;
  }

  /** The same classifier, pressed and left before the release: the exit
      resolves the session once, as a click without a position, and both
      timers are cancelled. */
  method PressThenLeave(surface: Surface, e: MouseEvent, pressedAt: int, o: MouseEvent)
    returns (log: seq<Gesture>, timersPending: bool)
    ensures log == [MouseDown(e), Click(None), MouseOut(o)]
    ensures !timersPending
  {
    var c := new PetalInteraction(DefaultConfig);
    c.Bind(surface);
    c.MouseDown(e, pressedAt);
    c.MouseOut(o);
    log := c.log;
    timersPending := c.holdPending || c.comboPending;
  }
}
