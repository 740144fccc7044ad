/** Pointer input (mouse.go). Every operation scales its point with
    `normalizeCoords`, moves there, and only then presses, clicks or releases; the
    first failing driver call ends the operation and its error is returned. */
module Mouse {
  import opened Driver
  import opened Sessions

  /** `ClickAt`: one left click at the point. */
  method ClickAt(s: Session, x: int, y: int) returns (st: Status)
    modifies s.driver
    ensures s.driver.Performed([Move(NormalizeCoords(s.config, x, y)), Click(Left, 1)], st)
  {
    var p := NormalizeCoords(s.config, x, y);
    ghost var at := |s.driver.trace|;
    ghost var plan := [Move(p), Click(Left, 1)];
    st := s.driver.Call(Move(p));
    if st.Failed? {
      RunFirstFailure(plan, at, s.driver.failing, 0);
      return;
    }
    st := s.driver.Call(Click(Left, 1));
    if st.Failed? {
      RunFirstFailure(plan, at, s.driver.failing, 1);
    } else {
      RunAllOk(plan, at, s.driver.failing);
    }
  }

  /** `RightClickAt`: one right click at the point. */
  method RightClickAt(s: Session, x: int, y: int) returns (st: Status)
    modifies s.driver
    ensures s.driver.Performed([Move(NormalizeCoords(s.config, x, y)), Click(Right, 1)], st)
  {
    var p := NormalizeCoords(s.config, x, y);
    ghost var at := |s.driver.trace|;
    ghost var plan := [Move(p), Click(Right, 1)];
    st := s.driver.Call(Move(p));
    if st.Failed? {
      RunFirstFailure(plan, at, s.driver.failing, 0);
      return;
    }
    st := s.driver.Call(Click(Right, 1));
    if st.Failed? {
      RunFirstFailure(plan, at, s.driver.failing, 1);
    } else {
      RunAllOk(plan, at, s.driver.failing);
    }
  }

  /** `MiddleClickAt`: one middle click at the point. */
  method MiddleClickAt(s: Session, x: int, y: int) returns (st: Status)
    modifies s.driver
    ensures s.driver.Performed([Move(NormalizeCoords(s.config, x, y)), Click(Middle, 1)], st)
  {
    var p := NormalizeCoords(s.config, x, y);
    ghost var at := |s.driver.trace|;
    ghost var plan := [Move(p), Click(Middle, 1)];
    st := s.driver.Call(Move(p));
    if st.Failed? {
      RunFirstFailure(plan, at, s.driver.failing, 0);
      return;
    }
    st := s.driver.Call(Click(Middle, 1));
    if st.Failed? {
      RunFirstFailure(plan, at, s.driver.failing, 1);
    } else {
      RunAllOk(plan, at, s.driver.failing);
    }
  }

  /** `DoubleClickAt`: a left click with click count 2 at the point. */
  method DoubleClickAt(s: Session, x: int, y: int) returns (st: Status)
    modifies s.driver
    ensures s.driver.Performed([Move(NormalizeCoords(s.config, x, y)), Click(Left, 2)], st)
  {
    var p := NormalizeCoords(s.config, x, y);
    ghost var at := |s.driver.trace|;
    ghost var plan := [Move(p), Click(Left, 2)];
    st := s.driver.Call(Move(p));
    if st.Failed? {
      RunFirstFailure(plan, at, s.driver.failing, 0);
      return;
    }
    st := s.driver.Call(Click(Left, 2));
    if st.Failed? {
      RunFirstFailure(plan, at, s.driver.failing, 1);
    } else {
      RunAllOk(plan, at, s.driver.failing);
    }
  }

  /** `TripleClickAt`: a left click with click count 3 at the point. */
  method TripleClickAt(s: Session, x: int, y: int) returns (st: Status)
    modifies s.driver
    ensures s.driver.Performed([Move(NormalizeCoords(s.config, x, y)), Click(Left, 3)], st)
  {
    var p := NormalizeCoords(s.config, x, y);
    ghost var at := |s.driver.trace|;
    ghost var plan := [Move(p), Click(Left, 3)];
    st := s.driver.Call(Move(p));
    if st.Failed? {
      RunFirstFailure(plan, at, s.driver.failing, 0);
      return;
    }
    st := s.driver.Call(Click(Left, 3));
    if st.Failed? {
      RunFirstFailure(plan, at, s.driver.failing, 1);
    } else {
      RunAllOk(plan, at, s.driver.failing);
    }
  }

  /** `MouseDown`: press the left button at the point. */
  method MouseDown(s: Session, x: int, y: int) returns (st: Status)
    modifies s.driver
    ensures s.driver.Performed([Move(NormalizeCoords(s.config, x, y)), ButtonDown(Left, 1)], st)
  {
    var p := NormalizeCoords(s.config, x, y);
    ghost var at := |s.driver.trace|;
    ghost var plan := [Move(p), ButtonDown(Left, 1)];
    st := s.driver.Call(Move(p));
    if st.Failed? {
      RunFirstFailure(plan, at, s.driver.failing, 0);
      return;
    }
    st := s.driver.Call(ButtonDown(Left, 1));
    if st.Failed? {
      RunFirstFailure(plan, at, s.driver.failing, 1);
    } else {
      RunAllOk(plan, at, s.driver.failing);
    }
  }

  /** `MouseUp`: release the left button at the point. */
  method MouseUp(s: Session, x: int, y: int) returns (st: Status)
    modifies s.driver
    ensures s.driver.Performed([Move(NormalizeCoords(s.config, x, y)), ButtonUp(Left, 1)], st)
  {
    var p := NormalizeCoords(s.config, x, y);
    ghost var at := |s.driver.trace|;
    ghost var plan := [Move(p), ButtonUp(Left, 1)];
    st := s.driver.Call(Move(p));
    if st.Failed? {
      RunFirstFailure(plan, at, s.driver.failing, 0);
      return;
    }
    st := s.driver.Call(ButtonUp(Left, 1));
    if st.Failed? {
      RunFirstFailure(plan, at, s.driver.failing, 1);
    } else {
      RunAllOk(plan, at, s.driver.failing);
    }
  }

  /** `MouseMove`: one move to the point and nothing else. */
  method MouseMove(s: Session, x: int, y: int) returns (st: Status)
    modifies s.driver
    ensures s.driver.Performed([Move(NormalizeCoords(s.config, x, y))], st)
  {
    var p := NormalizeCoords(s.config, x, y);
    st := s.driver.Call(Move(p));
  }

  /** `HoverAt`: the same calls and result as `MouseMove`. */
  method HoverAt(s: Session, x: int, y: int) returns (st: Status)
    modifies s.driver
    ensures s.driver.Performed([Move(NormalizeCoords(s.config, x, y))], st)
  {
    st := MouseMove(s, x, y);
  }

  /** `ClickDrag`: move to the start, press, move to the end, release, in this order and
      never coalesced; both points are scaled before the first call. */
  method ClickDrag(s: Session, fromX: int, fromY: int, toX: int, toY: int) returns (st: Status)
    modifies s.driver
    ensures s.driver.Performed([Move(NormalizeCoords(s.config, fromX, fromY)), ButtonDown(Left, 1),
                                Move(NormalizeCoords(s.config, toX, toY)), ButtonUp(Left, 1)], st)
  {
    var from := NormalizeCoords(s.config, fromX, fromY);
    var to := NormalizeCoords(s.config, toX, toY);
    ghost var at := |s.driver.trace|;
    ghost var plan := [Move(from), ButtonDown(Left, 1), Move(to), ButtonUp(Left, 1)];
    st := s.driver.Call(Move(from));
    if st.Failed? {
      RunFirstFailure(plan, at, s.driver.failing, 0);
      return;
    }
    st := s.driver.Call(ButtonDown(Left, 1));
    if st.Failed? {
      RunFirstFailure(plan, at, s.driver.failing, 1);
      return;
    }
    st := s.driver.Call(Move(to));
    if st.Failed? {
      RunFirstFailure(plan, at, s.driver.failing, 2);
      return;
    }
    st := s.driver.Call(ButtonUp(Left, 1));
    if st.Failed? {
      RunFirstFailure(plan, at, s.driver.failing, 3);
      return;
    }
    RunAllOk(plan, at, s.driver.failing);
  }
}
