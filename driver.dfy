/** The browser driver (go-rod) as this model sees it: every call the wrapper makes
    on the browser, the page or the popup page is an Event appended to a trace, and
    a failure oracle decides which calls fail. */
module Driver {

  type TargetId = string

  /** A point in viewport pixels (the `proto.Point` the wrapper builds). */
  datatype Point = Point(x: int, y: int)

  datatype Button = Left | Right | Middle

  /** The keys of go-rod's `input` package that the key-name table mentions,
      and a literal character sent as its own key. */
  datatype Key =
    | Backspace | Tab | Enter | ShiftLeft | ShiftRight
    | ControlLeft | ControlRight | AltLeft | AltRight
    | Escape | Space | PageUp | PageDown | End | Home
    | ArrowLeft | ArrowUp | ArrowRight | ArrowDown | Insert | Delete
    | F1 | F2 | F3 | F4 | F5 | F6 | F7 | F8 | F9 | F10 | F11 | F12
    | MetaLeft | MetaRight
    | Char(c: char)

  /** One call on the driver. */
  datatype Event =
    // main page
    | OpenPage(target: TargetId)
    | SetViewport(width: int, height: int)
    | Goto(url: string)
    | Back
    | Forward
    | WaitLoad
    // mouse of the main page
    | Move(to: Point)
    | Click(button: Button, count: nat)
    | ButtonDown(button: Button, count: nat)
    | ButtonUp(button: Button, count: nat)
    | Wheel(dx: int, dy: int, steps: nat)
    // keyboard of the main page
    | Press(key: Key)
    | Release(key: Key)
    | TypeKeys(keys: seq<Key>)
    // a popup page
    | Attach(target: TargetId)
    | PopupWaitLoad(target: TargetId)
    | ClosePopup(target: TargetId)
    // the browser
    | CloseBrowser

  /** A failing driver call is identified by its position in the trace. */
  datatype Error = DriverError(at: nat) | InvalidDirection(direction: string)

  datatype Status = Ok | Failed(error: Error)

  /** What a sequence of calls that stops at its first error leaves behind:
      the calls it issued and the status it returns. */
  datatype Outcome = Outcome(issued: seq<Event>, status: Status)

  /** Issue `plan` from trace position `at`, returning at the first failing call.
      This is the shape of every `if err := ...; err != nil { return err }` chain. */
  function Run(plan: seq<Event>, at: nat, failing: set<nat>): (o: Outcome)
    ensures |o.issued| <= |plan|
    ensures o.status.Ok? ==> |o.issued| == |plan|
    decreases |plan|
  {
    if plan == [] then Outcome([], Ok)
    else if at in failing then Outcome([plan[0]], Failed(DriverError(at)))
    else
      var rest := Run(plan[1..], at + 1, failing);
      Outcome([plan[0]] + rest.issued, rest.status)
  }

  /** What `Run` issues is a prefix of the plan: all of it exactly when no call fails,
      and otherwise the calls up to and including the first failing one, whose error
      is returned. */
  lemma {:induction false} RunStopsAtFirstFailure(plan: seq<Event>, at: nat, failing: set<nat>)
    ensures var o := Run(plan, at, failing);
      && o.issued == plan[..|o.issued|]
      && (o.status == Ok <==> o.issued == plan && forall p :: at <= p < at + |plan| ==> p !in failing)
      && (o.status.Failed? ==>
            o.issued != [] && o.status.error == DriverError(at + |o.issued| - 1)
            && at + |o.issued| - 1 in failing
            && forall p :: at <= p < at + |o.issued| - 1 ==> p !in failing)
    decreases |plan|
  {
    if plan != [] && at !in failing {
      RunStopsAtFirstFailure(plan[1..], at + 1, failing);
    }
  }

  /** A run that succeeded issued the whole plan. */
  lemma {:induction false} RunOkIssuesAll(plan: seq<Event>, at: nat, failing: set<nat>)
    ensures Run(plan, at, failing).status.Ok? ==> Run(plan, at, failing).issued == plan
    decreases |plan|
  {
    if plan != [] && at !in failing {
      RunOkIssuesAll(plan[1..], at + 1, failing);
      assert [plan[0]] + plan[1..] == plan;
    }
  }

  /** A plan none of whose calls fails is issued completely and succeeds. */
  lemma {:induction false} RunAllOk(plan: seq<Event>, at: nat, failing: set<nat>)
    requires forall p :: at <= p < at + |plan| ==> p !in failing
    ensures Run(plan, at, failing) == Outcome(plan, Ok)
    decreases |plan|
  {
    if plan != [] {
      RunAllOk(plan[1..], at + 1, failing);
      assert [plan[0]] + plan[1..] == plan;
    }
  }

  /** A plan whose first failing call is its `k`-th issues exactly the calls up to
      and including that one, and returns that call's error. */
  lemma {:induction false} RunFirstFailure(plan: seq<Event>, at: nat, failing: set<nat>, k: nat)
    requires k < |plan| && at + k in failing
    requires forall p :: at <= p < at + k ==> p !in failing
    ensures Run(plan, at, failing) == Outcome(plan[..k + 1], Failed(DriverError(at + k)))
    decreases k
  {
    if k > 0 {
      RunFirstFailure(plan[1..], at + 1, failing, k - 1);
      assert [plan[0]] + plan[1..][..k] == plan[..k + 1];
    }
  }

  /** A single call is issued whether or not it fails, and its status is the run's. */
  lemma RunOne(e: Event, at: nat, failing: set<nat>)
    ensures Run([e], at, failing) == Outcome([e], if at in failing then Failed(DriverError(at)) else Ok)
  {
    if at !in failing {
      assert [e][1..] == [];
      assert [e] + [] == [e];
    }
  }

  /** Running a plan that succeeds and then another is running their concatenation:
      the first is issued whole, followed by what the second issues, whose status is
      returned. */
  lemma {:induction false} RunAppendOk(a: seq<Event>, b: seq<Event>, at: nat, failing: set<nat>)
    requires Run(a, at, failing).status.Ok?
    ensures Run(a + b, at, failing) == Outcome(a + Run(b, at + |a|, failing).issued, Run(b, at + |a|, failing).status)
    decreases |a|
  {
    var ob := Run(b, at + |a|, failing);
    if a == [] {
      assert a + b == b;
    } else {
      assert at !in failing;
      assert (a + b)[0] == a[0];
      assert (a + b)[1..] == a[1..] + b;
      RunAppendOk(a[1..], b, at + 1, failing);
      assert Run(a[1..] + b, at + 1, failing) == Outcome(a[1..] + ob.issued, ob.status);
      assert [a[0]] + (a[1..] + ob.issued) == a + ob.issued;
    }
  }

  /** A plan that fails stops the run of its concatenation with anything: the same
      calls are issued and the same error returned. */
  lemma {:induction false} RunAppendFailed(a: seq<Event>, b: seq<Event>, at: nat, failing: set<nat>)
    requires Run(a, at, failing).status.Failed?
    ensures Run(a + b, at, failing) == Run(a, at, failing)
    decreases |a|
  {
    assert a != [];
    assert (a + b)[0] == a[0];
    if at !in failing {
      assert (a + b)[1..] == a[1..] + b;
      RunAppendFailed(a[1..], b, at + 1, failing);
    }
  }

  /** Going from trace `before` to trace `after`, the calls `Run` issues for `plan` from
      position |before| were appended, and `st` is what `Run` returns. */
  ghost predicate Did(before: seq<Event>, after: seq<Event>, plan: seq<Event>, failing: set<nat>, st: Status) {
    var o := Run(plan, |before|, failing);
    after == before + o.issued && st == o.status
  }

  /** A single call: the trace grows by that call and the status is the oracle's. */
  lemma DidCall(before: seq<Event>, e: Event, failing: set<nat>)
    ensures Did(before, before + [e], [e], failing,
                if |before| in failing then Failed(DriverError(|before|)) else Ok)
  {
    RunOne(e, |before|, failing);
  }

  /** A plan that went through without failure, followed by another plan, did what
      their concatenation does. */
  lemma DidThen(t0: seq<Event>, t1: seq<Event>, t2: seq<Event>, a: seq<Event>, b: seq<Event>, failing: set<nat>, st: Status)
    requires Did(t0, t1, a, failing, Ok)
    requires Did(t1, t2, b, failing, st)
    ensures Did(t0, t2, a + b, failing, st)
  {
    assert t1 == t0 + a by {
      RunOkIssuesAll(a, |t0|, failing);
    }
    var ob := Run(b, |t0| + |a|, failing);
    assert Run(a + b, |t0|, failing) == Outcome(a + ob.issued, ob.status) by {
      RunAppendOk(a, b, |t0|, failing);
    }
    assert t2 == t0 + (a + ob.issued);
  }

  /** A plan that failed stops the run of anything that follows it. */
  lemma DidStop(t0: seq<Event>, t1: seq<Event>, a: seq<Event>, b: seq<Event>, failing: set<nat>, st: Status)
    requires Did(t0, t1, a, failing, st) && st.Failed?
    ensures Did(t0, t1, a + b, failing, st)
  {
    RunAppendFailed(a, b, |t0|, failing);
  }

  /** The browser as the wrapper drives it. */
  class Driver {
    /** Every call issued so far, in order. */
    var trace: seq<Event>
    /** The failure oracle: the trace positions whose call fails. */
    const failing: set<nat>

    constructor (failing: set<nat>)
      ensures trace == [] && this.failing == failing
    {
      trace := [];
      this.failing := failing;
    }

    /** The status the call at trace position `at` returns. */
    function Answer(at: nat): (st: Status)
      ensures st.Failed? <==> at in failing
      ensures st.Failed? ==> st.error == DriverError(at)
    {
      if at in failing then Failed(DriverError(at)) else Ok
    }

    /** Issue one call. */
    method Call(e: Event) returns (st: Status)
      modifies this
      ensures trace == old(trace) + [e]
      ensures st == Answer(|old(trace)|)
    {
      st := Answer(|trace|);
      trace := trace + [e];
    }

    /** Issue `e` and, when it succeeded, wait for the page to load: the shape of every
        navigation the wrapper makes. */
    method CallThenWait(e: Event) returns (st: Status)
      modifies this
      ensures Performed([e, WaitLoad], st)
    {
      ghost var t0 := trace;
      st := Call(e);
      ghost var t1 := trace;
      DidCall(t0, e, failing);
      if st.Failed? {
        DidStop(t0, t1, [e], [WaitLoad], failing, st);
        return;
      }
      st := Call(WaitLoad);
      DidCall(t1, WaitLoad, failing);
      DidThen(t0, t1, trace, [e], [WaitLoad], failing, st);
    }

    /** Since the pre-state, exactly the calls `Run` issues for `plan` were appended,
        and `st` is what `Run` returns. */
    twostate predicate Performed(plan: seq<Event>, st: Status)
      reads this
    {
      Did(old(trace), trace, plan, failing, st)
    }
  }
}
