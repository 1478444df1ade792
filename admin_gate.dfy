/**
 * The hidden gesture that opens the operator tab: three quick taps in the
 * top-right corner of the window. `lastClick` and `count` persist between
 * taps; the time is that of the tap, in milliseconds.
 */
module AdminGate {
  /** Side of the square trigger zone in the window's top-right corner, in pixels. */
  const ZoneSize: int := 150

  /** Largest gap between two taps of one gesture is just under this, in milliseconds. */
  const TapWindow: int := 700

  /** Taps needed to open the operator tab. */
  const TapsToOpen: int := 3

  predicate WithinAdminZone(x: int, y: int, width: int)
  {
    x > width - ZoneSize && y < ZoneSize
  }

  datatype GateState = GateState(lastClick: int, count: int)

  /** Before any tap. */
  const Initial: GateState := GateState(0, 0)

  /** `count` never reaches 3 between taps: it is reset to 0 when it does. */
  predicate Reachable(s: GateState)
  {
    0 <= s.count < TapsToOpen
  }

  /** The state after a tap, and whether that tap opens the operator tab. */
  datatype TapOutcome = TapOutcome(state: GateState, open: bool)

  /** One click at (`x`, `y`) in a window `width` pixels wide at time `now`. */
  function NextState(s: GateState, x: int, y: int, width: int, now: int): (o: TapOutcome)
    ensures !WithinAdminZone(x, y, width) ==> o == TapOutcome(s, false)
    ensures WithinAdminZone(x, y, width) ==> o.state.lastClick == now
    ensures WithinAdminZone(x, y, width) && now - s.lastClick >= TapWindow ==>
      o.state.count == 1 && !o.open
    ensures o.open <==>
      WithinAdminZone(x, y, width) && now - s.lastClick < TapWindow && s.count + 1 >= TapsToOpen
    ensures WithinAdminZone(x, y, width) && now - s.lastClick < TapWindow && !o.open ==>
      o.state.count == s.count + 1
    ensures o.open ==> o.state.count == 0
    ensures Reachable(s) ==> Reachable(o.state)
  {
    if !WithinAdminZone(x, y, width) then TapOutcome(s, false)
    else if now - s.lastClick < TapWindow then
      var c := s.count + 1;
      if c >= TapsToOpen then TapOutcome(GateState(now, 0), true)
      else TapOutcome(GateState(now, c), false)
    else
      TapOutcome(GateState(now, 1), false)
  }

  /** A click event: position and time. */
  datatype Tap = Tap(x: int, y: int, now: int)

  /** Where a sequence of clicks leaves the gate, and how many of them opened the tab. */
  datatype RunResult = RunResult(state: GateState, opens: nat)

  function Run(s: GateState, width: int, taps: seq<Tap>): RunResult
    decreases |taps|
  {
    if taps == [] then RunResult(s, 0)
    else
      var o := NextState(s, taps[0].x, taps[0].y, width, taps[0].now);
      var r := Run(o.state, width, taps[1..]);
      RunResult(r.state, r.opens + (if o.open then 1 else 0))
  }

  /** How many of the clicks fall in the trigger zone. */
  function ZoneTaps(width: int, taps: seq<Tap>): nat
  {
    if taps == [] then 0
    else (if WithinAdminZone(taps[0].x, taps[0].y, width) then 1 else 0) + ZoneTaps(width, taps[1..])
  }

  /**
   * Three in-zone taps, the first more than the window after the last one
   * and each next one within the window, open the tab on the third tap only,
   * and leave the count at 0.
   */
  lemma ThreeQuickTapsOpen(s: GateState, width: int, t1: Tap, t2: Tap, t3: Tap)
    requires WithinAdminZone(t1.x, t1.y, width) && WithinAdminZone(t2.x, t2.y, width)
    requires WithinAdminZone(t3.x, t3.y, width)
    requires t1.now - s.lastClick >= TapWindow
    requires t2.now - t1.now < TapWindow && t3.now - t2.now < TapWindow
    ensures var o1 := NextState(s, t1.x, t1.y, width, t1.now);
      var o2 := NextState(o1.state, t2.x, t2.y, width, t2.now);
      var o3 := NextState(o2.state, t3.x, t3.y, width, t3.now);
      !o1.open && !o2.open && o3.open && o3.state == GateState(t3.now, 0)
  {
  }

  /** Two quick taps followed by a slow third one do not open the tab; the third starts a new gesture. */
  lemma SlowThirdTapDoesNotOpen(s: GateState, width: int, t1: Tap, t2: Tap, t3: Tap)
    requires WithinAdminZone(t1.x, t1.y, width) && WithinAdminZone(t2.x, t2.y, width)
    requires WithinAdminZone(t3.x, t3.y, width)
    requires t1.now - s.lastClick >= TapWindow
    requires t2.now - t1.now < TapWindow && t3.now - t2.now >= TapWindow
    ensures var o1 := NextState(s, t1.x, t1.y, width, t1.now);
      var o2 := NextState(o1.state, t2.x, t2.y, width, t2.now);
      var o3 := NextState(o2.state, t3.x, t3.y, width, t3.now);
      !o1.open && !o2.open && !o3.open && o3.state == GateState(t3.now, 1)
  {
  }

  /** Two quick taps followed by a tap outside the zone do not open the tab and change nothing. */
  lemma OutsideThirdTapDoesNotOpen(s: GateState, width: int, t1: Tap, t2: Tap, t3: Tap)
    requires WithinAdminZone(t1.x, t1.y, width) && WithinAdminZone(t2.x, t2.y, width)
    requires !WithinAdminZone(t3.x, t3.y, width)
    requires t1.now - s.lastClick >= TapWindow
    requires t2.now - t1.now < TapWindow
    ensures var o1 := NextState(s, t1.x, t1.y, width, t1.now);
      var o2 := NextState(o1.state, t2.x, t2.y, width, t2.now);
      var o3 := NextState(o2.state, t3.x, t3.y, width, t3.now);
      !o1.open && !o2.open && !o3.open && o3.state == GateState(t2.now, 2)
  {
  }

  /**
   * Opening the tab costs three in-zone clicks each time: from a state with
   * count `c`, a sequence of clicks opens it at most (zone clicks + c) / 3
   * times, and the count it leaves is bounded by the same budget.
   */
  lemma {:induction false} OpensNeedThreeZoneTaps(s: GateState, width: int, taps: seq<Tap>)
    requires Reachable(s)
    ensures Reachable(Run(s, width, taps).state)
    ensures TapsToOpen * Run(s, width, taps).opens + Run(s, width, taps).state.count
         <= ZoneTaps(width, taps) + s.count
    decreases |taps|
  {
    if taps != [] {
      var o := NextState(s, taps[0].x, taps[0].y, width, taps[0].now);
      OpensNeedThreeZoneTaps(o.state, width, taps[1..]);
    }
  }

  /** From the initial state, fewer than three clicks in the zone never open the tab. */
  lemma FewZoneTapsNeverOpen(width: int, taps: seq<Tap>)
    requires ZoneTaps(width, taps) < TapsToOpen
    ensures Run(Initial, width, taps).opens == 0
  {
    OpensNeedThreeZoneTaps(Initial, width, taps);
  }

  /** The click listener's closure state: the time of the last in-zone click and the count. */
  class Gate {
    var lastClick: int
    var count: int

    function State(): GateState
      reads this
    {
      GateState(lastClick, count)
    }

    constructor ()
      ensures State() == Initial
    {
      lastClick, count := 0, 0;
    }

    /** The click handler: returns whether this click opens the operator tab. */
    method OnTap(x: int, y: int, width: int, now: int) returns (open: bool)
      modifies this
      ensures TapOutcome(State(), open) == NextState(old(State()), x, y, width, now)
    {
      if !(x > width - ZoneSize && y < ZoneSize) {
        return false;
      }
      open := false;
      if now - lastClick < TapWindow {
        count := count + 1;
        if count >= TapsToOpen {
          open := true;
          count := 0;
        }
      } else {
        count := 1;
      }
      lastClick := now;
    }
  }
}
