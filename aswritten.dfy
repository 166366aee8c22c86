/** Two places where visualization/interactions.js does not do what its
    design evidently intends, modelled as written so that the discrepancy
    can be exhibited. The rest of the model (modules Transitions, Traces and
    Classifier) follows the intended behaviour. */
module AsWritten {
  import opened GestureTypes
  import opened Transitions
  import opened Traces

  /** What running `check_combo` does: it completes, or it throws a
      TypeError part-way through and changes nothing. */
  datatype Resolution = Resolved(o: Outcome) | Threw

  /** `check_combo` as written. For a count of one it reads the misspelled
      field `positons`, which is undefined, so indexing it throws whenever a
      click callback is registered; the lines that clear the session, the
      hold mark and the timer handle are then never reached. */
  function CheckComboAsWritten(st: State, clickRegistered: bool): (r: Resolution)
    requires st.combo.Some?
    ensures r.Threw? <==> st.combo.value.count == 1 && clickRegistered
    ensures r.Resolved? ==> r.o == CheckCombo(st)
  {
    if st.combo.value.count == 1 && clickRegistered then Threw
    else Resolved(CheckCombo(st))
  }

  /** The combo timer fires and runs `check_combo` as written. If it
      throws, the timer is spent but the session survives. */
  function FireComboAsWritten(st: State, clickRegistered: bool): (r: Outcome)
    requires st.comboPending && st.combo.Some?
    ensures !r.st.comboPending
    ensures CheckComboAsWritten(st, clickRegistered).Threw? ==> r == Outcome(st.(comboPending := false), [])
    ensures CheckComboAsWritten(st, clickRegistered).Resolved? ==> r == FireCombo(st)
  {
    match CheckComboAsWritten(st, clickRegistered)
    case Threw => Outcome(st.(comboPending := false), [])
    case Resolved(o) => o
  }

  /** With the default configuration and a click callback registered, two
      separate single clicks at p and q, each followed by its full combo
      timeout, are reported as one double click carrying both positions and
      no click at all: the first resolution throws and leaves its session
      to be continued by the second press. */
  lemma TwoClicksReportedAsDoubleClick(s: Surface, p: MouseEvent, q: MouseEvent, t0: int, t1: int, t2: int, t3: int)
    ensures
      var cfg := DefaultConfig;
      var st1 := OnMouseUp(cfg, OnMouseDown(cfg, Init(Some(s)), p, t0).st, p, t1).st;
      var f1 := FireComboAsWritten(st1, true);
      var st2 := OnMouseUp(cfg, OnMouseDown(cfg, f1.st, q, t2).st, q, t3).st;
      var f2 := FireComboAsWritten(st2, true);
      && f1.emitted == []
      && f2.emitted == [DblClick([Position(p.x, p.y, Untimed), Position(q.x, q.y, Untimed)])]
  {
    var cfg := DefaultConfig;
    var pp, pq := Position(p.x, p.y, Untimed), Position(q.x, q.y, Untimed);
    var d1 := OnMouseDown(cfg, Init(Some(s)), p, t0).st;
    assert d1.combo == Some(Session(1, [], Some(Anchor(p.x, p.y, t0))));
    assert !d1.holdBeatCombo;
    var st1 := OnMouseUp(cfg, d1, p, t1).st;
    assert [] + [pp] == [pp];
    assert st1.combo == Some(Session(1, [pp], Some(Anchor(p.x, p.y, t0))));
    var f1 := FireComboAsWritten(st1, true);
    assert f1.st == st1.(comboPending := false);
    var d2 := OnMouseDown(cfg, f1.st, q, t2).st;
    assert d2.combo == Some(Session(2, [pp], Some(Anchor(q.x, q.y, t2))));
    var st2 := OnMouseUp(cfg, d2, q, t3).st;
    assert [pp] + [pq] == [pp, pq];
    assert st2.combo == Some(Session(2, [pp, pq], Some(Anchor(q.x, q.y, t2))));
  }

  /** The bookkeeping of combo timers as written: how many `check_combo`
      timers are scheduled, whether the handle `lock.checkCombo` names one
      of them (only that one can be cancelled), and whether a session
      exists. */
  datatype ComboTimers = ComboTimers(scheduled: nat, live: bool, session: bool)

  predicate Consistent(b: ComboTimers) {
    b.live ==> b.scheduled > 0
  }

  /** `clearTimeout(lock.checkCombo)`: cancels the timer the handle names,
      if it is still scheduled. */
  function Cancel(b: ComboTimers): (r: ComboTimers)
    requires Consistent(b)
    ensures Consistent(r) && !r.live && r.session == b.session
    ensures r.scheduled == if b.live then b.scheduled - 1 else b.scheduled
  {
    if b.live then b.(scheduled := b.scheduled - 1, live := false) else b
  }

  /** A press: cancel, then make sure there is a session. */
  function PressAsWritten(b: ComboTimers): (r: ComboTimers)
    requires Consistent(b)
    ensures Consistent(r) && r.session && !r.live
    ensures r.scheduled == if b.live then b.scheduled - 1 else b.scheduled
  {
    Cancel(b).(session := true)
  }

  /** A release. Without a session nothing happens. A release that resolves
      at once runs `check_combo`, which nulls the handle but cancels
      nothing; any other release schedules a new timer and overwrites the
      handle without cancelling the one it named. */
  function ReleaseAsWritten(b: ComboTimers, resolvesAtOnce: bool): (r: ComboTimers)
    requires Consistent(b)
    ensures Consistent(r)
    ensures !b.session ==> r == b
    ensures b.session && !resolvesAtOnce ==> r.scheduled == b.scheduled + 1 && r.live && r.session
    ensures b.session && resolvesAtOnce ==> r.scheduled == b.scheduled && !r.live && !r.session
  {
    if !b.session then b
    else if resolvesAtOnce then b.(live := false, session := false)
    else b.(scheduled := b.scheduled + 1, live := true)
  }

  /** Re-entering with a button held: a fresh session, timers untouched. */
  function ReenterAsWritten(b: ComboTimers): (r: ComboTimers)
    requires Consistent(b)
    ensures Consistent(r) && r.session && r.scheduled == b.scheduled && r.live == b.live
  {
    b.(session := true)
  }

  /** Leaving while pressed, and `interaction_init` alike: cancel what the
      handle names and drop the session. Timers the handle no longer names
      stay scheduled. */
  function LeaveAsWritten(b: ComboTimers): (r: ComboTimers)
    requires Consistent(b)
    ensures Consistent(r) && !r.session && !r.live
    ensures r.scheduled == if b.live then b.scheduled - 1 else b.scheduled
  {
    Cancel(b).(session := false)
  }

  /** What a combo timer firing does. */
  datatype Firing = Ran(after: ComboTimers) | TypeError(after: ComboTimers)

  /** One scheduled timer fires. With no session, `state.combo.count`
      reads a property of null and throws; otherwise the session is
      resolved and the handle nulled. */
  function FireAsWritten(b: ComboTimers): (r: Firing)
    requires Consistent(b) && b.scheduled > 0
    ensures r.TypeError? <==> !b.session
    ensures Consistent(r.after) && r.after.scheduled == b.scheduled - 1
    ensures r.Ran? ==> !r.after.session && !r.after.live
    ensures r.TypeError? ==> !r.after.session
  {
    if !b.session then
      TypeError(b.(scheduled := b.scheduled - 1, live := b.live && b.scheduled > 1))
    else Ran(ComboTimers(b.scheduled - 1, false, false))
  }

  /** Click, drag out and back in with the button held, release within
      the combo timeout: two combo timers are scheduled. The first resolves
      the re-entry session; the second finds none and throws. Unbinding in
      between would not help: it cancels only the timer the handle names. */
  lemma StaleComboTimerThrows()
    ensures
      var b0 := ComboTimers(0, false, false);
      var b1 := ReleaseAsWritten(PressAsWritten(b0), false);
      var b2 := ReleaseAsWritten(ReenterAsWritten(b1), false);
      && b2.scheduled == 2
      && FireAsWritten(b2).Ran?
      && FireAsWritten(FireAsWritten(b2).after).TypeError?
    ensures
      var b2 := ComboTimers(2, true, true);
      LeaveAsWritten(b2).scheduled == 1 && FireAsWritten(LeaveAsWritten(b2)).TypeError?
  {
  }
}
