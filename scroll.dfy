/** Wheel scrolling (scroll.go): the scroll distance, scaled from the logical grid when
    the session normalises coordinates, turned into a wheel delta along the one axis
    the direction names. */
module Scroll {
  import opened Driver
  import opened GoInt
  import opened Sessions

  /** The wheel movement along each axis, in pixels. */
  datatype Delta = Delta(dx: int, dy: int)

  predicate Vertical(direction: string) {
    direction == "up" || direction == "down"
  }

  predicate ValidDirection(direction: string) {
    direction == "up" || direction == "down" || direction == "left" || direction == "right"
  }

  /** The distance that is scrolled: the amount as given, or, when the session
      normalises coordinates, the amount scaled from the grid by the viewport height
      for "up" and "down" and by the viewport width for every other string. */
  function Magnitude(c: Config, direction: string, amount: int): (m: int)
    ensures !c.normalizeCoordinates ==> m == amount
    ensures c.normalizeCoordinates ==> m == Scale(amount, if Vertical(direction) then c.screenHeight else c.screenWidth)
  {
    if !c.normalizeCoordinates then amount
    else if Vertical(direction) then Scale(amount, c.screenHeight)
    else Scale(amount, c.screenWidth)
  }

  /** The wheel delta for a direction and distance: up and left are negative, down and
      right positive, and only the named axis moves. Any other direction, including a
      different spelling of these four, has none. */
  function WheelDelta(direction: string, m: int): (d: Option<Delta>)
    ensures d.Some? <==> ValidDirection(direction)
    ensures d.Some? ==> (d.value.dx == 0 <==> Vertical(direction) || m == 0)
    ensures d.Some? ==> (d.value.dy == 0 <==> !Vertical(direction) || m == 0)
    ensures d.Some? ==> Abs(d.value.dx) + Abs(d.value.dy) == Abs(m)
    ensures d.Some? && m > 0 ==> (d.value.dx < 0 || d.value.dy < 0 <==> direction == "up" || direction == "left")
    ensures d.Some? ==> d.value.dx + d.value.dy == (if direction == "up" || direction == "left" then -m else m)
  {
    if direction == "up" then Some(Delta(0, -m))
    else if direction == "down" then Some(Delta(0, m))
    else if direction == "left" then Some(Delta(-m, 0))
    else if direction == "right" then Some(Delta(m, 0))
    else None
  }

  /** The delta `Scroll` and `ScrollAt` wheel by. */
  function ScrollDelta(c: Config, direction: string, amount: int): Option<Delta> {
    WheelDelta(direction, Magnitude(c, direction, amount))
  }

  /** A grid distance in 0..999 scrolls by less than the viewport along its axis. */
  lemma MagnitudeWithinViewport(c: Config, direction: string, amount: int)
    requires c.normalizeCoordinates
    requires 0 <= amount <= 999
    requires c.screenWidth > 0 && c.screenHeight > 0
    ensures var m := Magnitude(c, direction, amount);
      0 <= m < (if Vertical(direction) then c.screenHeight else c.screenWidth)
  {
    if Vertical(direction) {
      ScaleInRange(amount, c.screenHeight);
    } else {
      ScaleInRange(amount, c.screenWidth);
    }
  }

  /** Opposite directions scroll by opposite deltas of the same distance. */
  lemma OppositeDirectionsCancel(c: Config, amount: int)
    ensures ScrollDelta(c, "up", amount).value.dy == -ScrollDelta(c, "down", amount).value.dy
    ensures ScrollDelta(c, "left", amount).value.dx == -ScrollDelta(c, "right", amount).value.dx
  {
    assert Vertical("up") && Vertical("down");
    assert !Vertical("left") && !Vertical("right");
  }

  /** `Scroll`: an invalid direction is rejected before any driver call; otherwise one
      wheel call of one step at the current pointer position. */
  method Scroll(s: Session, direction: string, amount: int) returns (st: Status)
    modifies s.driver
    ensures ScrollDelta(s.config, direction, amount).None? ==>
      st == Failed(InvalidDirection(direction)) && s.driver.trace == old(s.driver.trace)
    ensures ScrollDelta(s.config, direction, amount).Some? ==>
      var d := ScrollDelta(s.config, direction, amount).value;
      s.driver.Performed([Wheel(d.dx, d.dy, 1)], st)
  {
    var actualAmount := amount;
    if s.config.normalizeCoordinates {
      if direction == "up" || direction == "down" {
        actualAmount := Scale(amount, s.config.screenHeight);
      } else {
        actualAmount := Scale(amount, s.config.screenWidth);
      }
    }

    var deltaX, deltaY := 0, 0;
    if direction == "up" {
      deltaY := -actualAmount;
    } else if direction == "down" {
      deltaY := actualAmount;
    } else if direction == "left" {
      deltaX := -actualAmount;
    } else if direction == "right" {
      deltaX := actualAmount;
    } else {
      return Failed(InvalidDirection(direction));
    }

    assert ScrollDelta(s.config, direction, amount) == Some(Delta(deltaX, deltaY));
    st := s.driver.Call(Wheel(deltaX, deltaY, 1));
  }

  /** `ScrollAt`: move to the scaled point first; if that fails its error is returned.
      Only then is the direction checked, so an invalid one leaves the move behind and
      returns the direction error; a valid one wheels with zero steps. */
  method ScrollAt(s: Session, x: int, y: int, direction: string, magnitude: int) returns (st: Status)
    modifies s.driver
    ensures ScrollDelta(s.config, direction, magnitude).None? ==>
      var moved := s.driver.Answer(|old(s.driver.trace)|);
      s.driver.trace == old(s.driver.trace) + [Move(NormalizeCoords(s.config, x, y))]
      && st == (if moved.Failed? then moved else Failed(InvalidDirection(direction)))
    ensures ScrollDelta(s.config, direction, magnitude).Some? ==>
      var d := ScrollDelta(s.config, direction, magnitude).value;
      s.driver.Performed([Move(NormalizeCoords(s.config, x, y)), Wheel(d.dx, d.dy, 0)], st)
  {
    var p := NormalizeCoords(s.config, x, y);
    var actualMagnitude := magnitude;
    if s.config.normalizeCoordinates {
      if direction == "up" || direction == "down" {
        actualMagnitude := Scale(magnitude, s.config.screenHeight);
      } else {
        actualMagnitude := Scale(magnitude, s.config.screenWidth);
      }
    }

    assert actualMagnitude == Magnitude(s.config, direction, magnitude);
    ghost var failing := s.driver.failing;
    ghost var t0 := s.driver.trace;
    st := s.driver.Call(Move(p));
    ghost var t1 := s.driver.trace;
    DidCall(t0, Move(p), failing);
    if st.Failed? {
      if ValidDirection(direction) {
        ghost var d := ScrollDelta(s.config, direction, magnitude).value;
        DidStop(t0, t1, [Move(p)], [Wheel(d.dx, d.dy, 0)], failing, st);
      }
      return;
    }

    var deltaX, deltaY := 0, 0;
    if direction == "up" {
      deltaY := -actualMagnitude;
    } else if direction == "down" {
      deltaY := actualMagnitude;
    } else if direction == "left" {
      deltaX := -actualMagnitude;
    } else if direction == "right" {
      deltaX := actualMagnitude;
    } else {
      return Failed(InvalidDirection(direction));
    }

    assert ScrollDelta(s.config, direction, magnitude) == Some(Delta(deltaX, deltaY));
    st := s.driver.Call(Wheel(deltaX, deltaY, 0));
    DidCall(t1, Wheel(deltaX, deltaY, 0), failing);
    DidThen(t0, t1, s.driver.trace, [Move(p)], [Wheel(deltaX, deltaY, 0)], failing, st);
    assert [Move(p)] + [Wheel(deltaX, deltaY, 0)] == [Move(p), Wheel(deltaX, deltaY, 0)];
  }
}
