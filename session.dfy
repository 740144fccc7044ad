/** The session (session.go): its configuration and the defaults filled in at
    construction, the logical-grid coordinate scaling, the popup redirector that keeps
    the session on one page, and closing. */
module Sessions {
  import opened Driver
  import opened GoInt

  datatype Option<T> = None | Some(value: T)

  /** `SessionConfig`. */
  datatype Config = Config(
    screenWidth: int,
    screenHeight: int,
    normalizeCoordinates: bool,
    initialURL: string,
    searchEngineURL: string,
    headless: bool)

  const DefaultWidth := 1440
  const DefaultHeight := 900
  const DefaultInitialURL := "about:blank"
  const DefaultSearchEngineURL := "https://duckduckgo.com"

  /** The configuration `NewSession` keeps: each zero number and each empty string is
      replaced by its default, every other value (a negative size included) is kept,
      and the two flags are never touched. */
  function ApplyDefaults(c: Config): (r: Config)
    ensures r.screenWidth != 0 && r.screenHeight != 0
    ensures r.initialURL != "" && r.searchEngineURL != ""
    ensures c.screenWidth == 0 ==> r.screenWidth == DefaultWidth
    ensures c.screenWidth != 0 ==> r.screenWidth == c.screenWidth
    ensures c.screenHeight == 0 ==> r.screenHeight == DefaultHeight
    ensures c.screenHeight != 0 ==> r.screenHeight == c.screenHeight
    ensures c.initialURL == "" ==> r.initialURL == DefaultInitialURL
    ensures c.initialURL != "" ==> r.initialURL == c.initialURL
    ensures c.searchEngineURL == "" ==> r.searchEngineURL == DefaultSearchEngineURL
    ensures c.searchEngineURL != "" ==> r.searchEngineURL == c.searchEngineURL
    ensures r.normalizeCoordinates == c.normalizeCoordinates && r.headless == c.headless
  {
    Config(
      if c.screenWidth == 0 then DefaultWidth else c.screenWidth,
      if c.screenHeight == 0 then DefaultHeight else c.screenHeight,
      c.normalizeCoordinates,
      if c.initialURL == "" then DefaultInitialURL else c.initialURL,
      if c.searchEngineURL == "" then DefaultSearchEngineURL else c.searchEngineURL,
      c.headless)
  }

  /** Filling in the defaults a second time changes nothing. */
  lemma DefaultsIdempotent(c: Config)
    ensures ApplyDefaults(ApplyDefaults(c)) == ApplyDefaults(c)
  {
  }

  /** A value `v` on the 0-999 logical grid, scaled to a viewport dimension of `dim`
      pixels as Go computes `(v * dim) / 1000`. */
  function Scale(v: int, dim: int): int {
    TruncDiv(v * dim, 1000)
  }

  /** `normalizeCoords`: the pixel the driver is sent for the point (x, y). */
  function NormalizeCoords(c: Config, x: int, y: int): (p: Point)
    ensures !c.normalizeCoordinates ==> p == Point(x, y)
    ensures c.normalizeCoordinates ==> p == Point(Scale(x, c.screenWidth), Scale(y, c.screenHeight))
  {
    if c.normalizeCoordinates then Point(Scale(x, c.screenWidth), Scale(y, c.screenHeight))
    else Point(x, y)
  }

  /** Every point of the logical grid lands inside a viewport of positive size. */
  lemma GridPointInViewport(c: Config, x: int, y: int)
    requires c.normalizeCoordinates
    requires 0 <= x <= 999 && 0 <= y <= 999
    requires c.screenWidth > 0 && c.screenHeight > 0
    ensures var p := NormalizeCoords(c, x, y);
      0 <= p.x < c.screenWidth && 0 <= p.y < c.screenHeight
  {
    ScaleInRange(x, c.screenWidth);
    ScaleInRange(y, c.screenHeight);
  }

  /** A grid value in 0..999 scales to a pixel in 0..dim-1. */
  lemma ScaleInRange(v: int, dim: int)
    requires 0 <= v <= 999 && dim > 0
    ensures 0 <= Scale(v, dim) < dim
  {
    var n := v * dim;
    assert 0 <= n <= 999 * dim by {
      ProductBounds(v, dim);
    }
    var q := TruncDiv(n, 1000);
    assert q >= 0 && q * 1000 <= n;
  }

  /** A grid value times a positive dimension lies between 0 and 999 dimensions. */
  lemma ProductBounds(v: int, dim: int)
    requires 0 <= v <= 999 && dim > 0
    ensures 0 <= v * dim <= 999 * dim
  {
    assert 999 * dim - v * dim == (999 - v) * dim;
  }

  /** Scaling truncates toward zero, so a negative grid value never lands below the
      negated scaled magnitude: -1 on a 1440-pixel axis is pixel -1, not -2. */
  lemma ScaleTruncatesTowardZero(v: int, dim: int)
    requires dim > 0
    ensures Scale(-v, dim) == -Scale(v, dim)
  {
    assert (-v) * dim == -(v * dim);
  }

  /** `TargetInfo` of a `TargetTargetCreated` event. */
  datatype TargetInfo = TargetInfo(targetId: TargetId, openerId: TargetId, targetType: string)

  /** The filter in `startPopupRedirector`: a created target is handled exactly when it
      is a page and was opened by the session's main page. */
  predicate IsOwnPopup(e: TargetInfo, mainTargetID: TargetId) {
    e.targetType == "page" && e.openerId == mainTargetID
  }

  /** The targets handed to `handlePopup`, in the order their creation was reported. */
  function PopupTargets(created: seq<TargetInfo>, mainTargetID: TargetId): (ids: seq<TargetId>)
    ensures |ids| <= |created|
    ensures forall id :: id in ids <==>
              exists e :: e in created && IsOwnPopup(e, mainTargetID) && e.targetId == id
  {
    if created == [] then []
    else
      var last := created[|created| - 1];
      var before := PopupTargets(created[..|created| - 1], mainTargetID);
      assert created == created[..|created| - 1] + [last];
      if IsOwnPopup(last, mainTargetID) then before + [last.targetId] else before
  }

  /** A URL that the redirector treats as "nothing to redirect to". */
  predicate Blank(url: string) {
    url == "" || url == "about:blank"
  }

  /** `extractURL`, given the outcome of `Page.Info` (None when it fails) and of
      evaluating `location.href` (None when evaluation fails or yields nothing).
      The info URL is preferred; the href is used only when the info URL is blank and
      the href is not. The result is blank exactly when neither source gave a URL. */
  function ExtractURL(info: Option<string>, href: Option<string>): (url: string)
    ensures info.None? ==> url == ""
    ensures info.Some? && !Blank(info.value) ==> url == info.value
    ensures Blank(url) <==> info.None? || (Blank(info.value) && (href.None? || Blank(href.value)))
    ensures !Blank(url) ==> url == info.value || url == href.value
    ensures info.Some? && Blank(info.value) && (href.None? || Blank(href.value)) ==> url == info.value
  {
    match info
    case None => ""
    case Some(u) =>
      if !Blank(u) then u
      else if href.Some? && !Blank(href.value) then href.value
      else u
  }

  /** The calls `handlePopup` makes before its deferred close: attach to the popup,
      wait for it, and navigate the main page only to a URL that is not blank. */
  function PopupSteps(target: TargetId, url: string): seq<Event> {
    [Attach(target), PopupWaitLoad(target)] + (if Blank(url) then [] else [Goto(url), WaitLoad])
  }

  /** Everything `handlePopup` issues from trace position `at`: the steps up to the first
      failure, then, once attaching succeeded, the popup's close. A failing `WaitLoad` of
      the main page is ignored, like every error here. */
  function PopupEvents(target: TargetId, url: string, at: nat, failing: set<nat>): seq<Event> {
    Run(PopupSteps(target, url), at, failing).issued + (if at in failing then [] else [ClosePopup(target)])
  }

  /** The only navigation `handlePopup` can issue is its third call, to the URL. */
  lemma PopupGotoThird(target: TargetId, url: string, at: nat, failing: set<nat>)
    ensures var r := PopupEvents(target, url, at, failing);
      forall i :: 0 <= i < |r| && r[i].Goto? ==> i == 2 && r[i] == Goto(url)
  {
    var steps := PopupSteps(target, url);
    var o := Run(steps, at, failing);
    RunStopsAtFirstFailure(steps, at, failing);
    var r := PopupEvents(target, url, at, failing);
    forall i | 0 <= i < |r| && r[i].Goto?
      ensures i == 2 && r[i] == Goto(url)
    {
      assert i < |o.issued|;
      assert r[i] == steps[i];
    }
  }

  /** What `handlePopup` decides: the main page is navigated at most once, only to the
      extracted URL, and exactly when attaching and waiting succeeded and the URL is not
      blank; once attaching succeeded the popup is closed, last and exactly once;
      when attaching fails nothing else is issued. */
  lemma {:induction false} PopupDecision(target: TargetId, url: string, at: nat, failing: set<nat>)
    ensures var r := PopupEvents(target, url, at, failing);
      && r != [] && r[0] == Attach(target)
      && (forall i :: 0 <= i < |r| && r[i].Goto? ==> r[i].url == url)
      && (forall i, j :: 0 <= i < j < |r| ==> !(r[i].Goto? && r[j].Goto?))
      && ((exists i :: 0 <= i < |r| && r[i].Goto?) <==> at !in failing && at + 1 !in failing && !Blank(url))
      && (at in failing ==> r == [Attach(target)])
      && (at !in failing ==>
            r[|r| - 1] == ClosePopup(target) && forall i :: 0 <= i < |r| - 1 ==> !r[i].ClosePopup?)
  {
    var steps := PopupSteps(target, url);
    var o := Run(steps, at, failing);
    RunStopsAtFirstFailure(steps, at, failing);
    var r := PopupEvents(target, url, at, failing);
    PopupGotoThird(target, url, at, failing);
    assert o.issued == steps[..|o.issued|];
    assert |steps| >= 2;
    if at !in failing && at + 1 !in failing && !Blank(url) {
      assert |o.issued| >= 3;
      assert r[2] == Goto(url);
    }
    if at !in failing {
      assert |o.issued| >= 1;
    }
  }

  /** A session. The page it drives is never replaced (popups only navigate it), so the
      session's fields are fixed once it exists; what changes is the browser's state,
      which the driver's trace records. */
  class Session {
    const config: Config
    /** The browser and its main page. */
    const driver: Driver
    /** The target the session was created with. */
    const mainTargetID: TargetId
    /** False for a session that was never connected to a browser. */
    const hasBrowser: bool

    constructor (config: Config, driver: Driver, mainTargetID: TargetId, hasBrowser: bool)
      ensures this.config == config && this.driver == driver
      ensures this.mainTargetID == mainTargetID && this.hasBrowser == hasBrowser
    {
      this.config := config;
      this.driver := driver;
      this.mainTargetID := mainTargetID;
      this.hasBrowser := hasBrowser;
    }

    /** `startPopupRedirector`, over the sequence of target-created events the browser
        reports: returns the targets for which a `handlePopup` is started, in order. */
    method StartPopupRedirector(created: seq<TargetInfo>) returns (spawned: seq<TargetId>)
      ensures spawned == PopupTargets(created, mainTargetID)
    {
      spawned := [];
      for i := 0 to |created|
        invariant spawned == PopupTargets(created[..i], mainTargetID)
      {
        assert created[..i + 1][..i] == created[..i];
        var e := created[i];
        if e.targetType != "page" {
          continue;
        }
        if e.openerId != mainTargetID {
          continue;
        }
        spawned := spawned + [e.targetId];
      }
      assert created[..|created|] == created;
    }

    /** `handlePopup` for the popup `target`, given what `Page.Info` and the
        `location.href` evaluation report about it. */
    method HandlePopup(target: TargetId, info: Option<string>, href: Option<string>)
      modifies driver
      ensures driver.trace == old(driver.trace)
                + PopupEvents(target, ExtractURL(info, href), |old(driver.trace)|, driver.failing)
    {
      ghost var failing := driver.failing;
      ghost var t0 := driver.trace;
      ghost var url := ExtractURL(info, href);
      ghost var rest := if Blank(url) then [] else [Goto(url), WaitLoad];
      assert PopupSteps(target, url) == [Attach(target)] + ([PopupWaitLoad(target)] + rest);

      var st := driver.Call(Attach(target));
      ghost var t1 := driver.trace;
      DidCall(t0, Attach(target), failing);
      if st.Failed? {
        DidStop(t0, t1, [Attach(target)], [PopupWaitLoad(target)] + rest, failing, st);
        return;
      }

      st := driver.Call(PopupWaitLoad(target));
      ghost var t2 := driver.trace;
      DidCall(t1, PopupWaitLoad(target), failing);
      if st.Ok? {
        var newURL := ExtractURL(info, href);
        if newURL != "" && newURL != "about:blank" {
          st := driver.CallThenWait(Goto(newURL));
        } else {
          assert rest == [] && t2 + [] == t2;
        }
        DidThen(t1, t2, driver.trace, [PopupWaitLoad(target)], rest, failing, st);
      } else {
        DidStop(t1, t2, [PopupWaitLoad(target)], rest, failing, st);
      }
      DidThen(t0, t1, driver.trace, [Attach(target)], [PopupWaitLoad(target)] + rest, failing, st);
      assert driver.trace == t0 + Run(PopupSteps(target, url), |t0|, failing).issued;
      assert |t0| !in failing;
      // the deferred close; its error is discarded
      var _ := driver.Call(ClosePopup(target));
    }

    /** `Close`: a session without a browser has nothing to close. */
    method Close() returns (st: Status)
      modifies driver
      ensures !hasBrowser ==> st == Ok && driver.trace == old(driver.trace)
      ensures hasBrowser ==> driver.Performed([CloseBrowser], st)
    {
      if hasBrowser {
        st := driver.Call(CloseBrowser);
      } else {
        st := Ok;
      }
    }
  }

  /** The "Set defaults" step of `NewSession`, which overwrites the fields of its copy
      of the configuration one by one. */
  method FillDefaults(config: Config) returns (c: Config)
    ensures c == ApplyDefaults(config)
  {
    c := config;
    if c.screenWidth == 0 {
      c := c.(screenWidth := DefaultWidth);
    }
    if c.screenHeight == 0 {
      c := c.(screenHeight := DefaultHeight);
    }
    if c.initialURL == "" {
      c := c.(initialURL := DefaultInitialURL);
    }
    if c.searchEngineURL == "" {
      c := c.(searchEngineURL := DefaultSearchEngineURL);
    }
  }

  /** `NewSession`, from the point where the browser is connected: fill in the defaults,
      open the page, size its viewport, load the initial URL (as given, with no scheme
      added) and wait for it. Any failure aborts construction and no session results. */
  method NewSession(config: Config, driver: Driver, target: TargetId) returns (s: Session?, st: Status)
    modifies driver
    ensures var c := ApplyDefaults(config);
      driver.Performed([OpenPage(target), SetViewport(c.screenWidth, c.screenHeight), Goto(c.initialURL), WaitLoad], st)
    ensures s != null <==> st.Ok?
    ensures s != null ==> fresh(s) && s.config == ApplyDefaults(config) && s.driver == driver
                          && s.mainTargetID == target && s.hasBrowser
  {
    var c := FillDefaults(config);
    s := null;
    ghost var at := |driver.trace|;
    ghost var plan := [OpenPage(target), SetViewport(c.screenWidth, c.screenHeight), Goto(c.initialURL), WaitLoad];
    st := driver.Call(OpenPage(target));
    if st.Failed? {
      RunFirstFailure(plan, at, driver.failing, 0);
      return;
    }
    st := driver.Call(SetViewport(c.screenWidth, c.screenHeight));
    if st.Failed? {
      RunFirstFailure(plan, at, driver.failing, 1);
      return;
    }
    st := driver.Call(Goto(c.initialURL));
    if st.Failed? {
      RunFirstFailure(plan, at, driver.failing, 2);
      return;
    }
    st := driver.Call(WaitLoad);
    if st.Failed? {
      RunFirstFailure(plan, at, driver.failing, 3);
      return;
    }
    RunAllOk(plan, at, driver.failing);
    s := new Session(c, driver, target, true);
  }
}
