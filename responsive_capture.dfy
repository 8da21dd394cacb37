/** `capture_screenshot` of responsive_website_screenshotter.py: per
  * viewport, up to `retry_count` attempts, each launching a browser,
  * loading the page in a padded window and saving a PNG screenshot at the
  * exact viewport size. A WebDriverException (a time-out waiting for the
  * page body among them) is retried after a 2 s sleep; any other exception
  * ends the capture with None. The browser is an input: what each
  * attempt's calls do is given by a `Browser`. */
module ResponsiveCapture {
  import opened Basics
  import opened Session

  const RETRY_COUNT: int := 3
  const BACKOFF_MS: nat := 2000
  const PAGE_LOAD_TIMEOUT_S: nat := 30
  const SCRIPT_TIMEOUT_S: nat := 30
  /** added to both sides of the window while the page loads */
  const WINDOW_PADDING: int := 100
  const BODY_WAIT_S: nat := 20
  /** waits for dynamic content, then for the resized window to settle */
  const CONTENT_WAIT_MS: nat := 2000
  const RESIZE_WAIT_MS: nat := 1000

  datatype Viewport = Viewport(width: Dim, height: Dim, name: string)

  /** `WebsiteScreenshotter.VIEWPORTS`, in source order. */
  const VIEWPORTS: seq<Viewport> := [
    Viewport(1920, 1080, "desktop-fhd"),
    Viewport(2560, 1440, "desktop-2k"),
    Viewport(3840, 2160, "desktop-4k"),
    Viewport(1366, 768, "desktop-laptop"),
    Viewport(1536, 864, "desktop-laptop-hd"),
    Viewport(2880, 1800, "macbook-pro-15"),
    Viewport(2560, 1600, "macbook-pro-13"),
    Viewport(2732, 2048, "ipad-pro-12.9"),
    Viewport(2388, 1668, "ipad-pro-11"),
    Viewport(2048, 1536, "ipad-10.9"),
    Viewport(2560, 1600, "samsung-tab-s9"),
    Viewport(2000, 1200, "lenovo-tab-p12"),
    Viewport(2160, 1620, "xiaomi-pad-6"),
    Viewport(1290, 2796, "iphone-15-pro-max"),
    Viewport(1179, 2556, "iphone-15-pro"),
    Viewport(1170, 2532, "iphone-15"),
    Viewport(1440, 3088, "samsung-s24-ultra"),
    Viewport(1080, 2340, "samsung-s24"),
    Viewport(1080, 2400, "pixel-8-pro"),
    Viewport(1080, 2400, "oneplus-12")
  ]

  /** `os.path.join(output_dir, f"screenshot-{name}.png")` */
  function ShotPath(dir: string, name: string): Path {
    Path(dir, "screenshot-" + name + ".png")
  }

  /** The dictionary a successful capture returns. */
  datatype Shot = Shot(name: string, path: Path, width: Dim, height: Dim)

  function Record(vp: Viewport, dir: string): Shot {
    Shot(vp.name, ShotPath(dir, vp.name), vp.width, vp.height)
  }

  /** The record copies the viewport and names the PNG after it. */
  lemma RecordFields(vp: Viewport, dir: string)
    ensures var r := Record(vp, dir);
      && r.name == vp.name && r.width == vp.width && r.height == vp.height
      && r.path.dir == dir
      && r.path.file[..11] == "screenshot-" && r.path.file[|r.path.file| - 4..] == ".png"
      && r.path.file[11..|r.path.file| - 4] == vp.name
  {
    var f := Record(vp, dir).path.file;
    assert f == "screenshot-" + vp.name + ".png";
    assert f[..11] == "screenshot-";
    assert f[|f| - 4..] == ".png";
    assert f[11..|f| - 4] == vp.name;
  }

  // ---------------------------------------------------------------------
  // One attempt

  /** The calls of an attempt that can raise, in order: starting Chrome,
    * then the driver calls. */
  datatype Call = Launch | PageLoadTimeout | ScriptTimeout | PadWindow | Load | BodyWait | ExactWindow | Save

  /** The two exception classes the loop tells apart. */
  datatype Error = DriverError | OtherError

  /** How one attempt goes: every call returns, or one of them raises. */
  datatype AttemptOutcome = Completes | Raises(call: Call, error: Error)

  /** The browser, as seen by the captures: what attempt k for the device of
    * this name runs into. */
  type Browser = (string, nat) -> AttemptOutcome

  /** The events of an attempt in which every call returns: the launch, the
    * two time-outs, the padded window, the page load, the wait for its
    * body, a pause, the exact window, another pause and the screenshot. */
  function AttemptEvents(url: string, vp: Viewport, dir: string): (r: seq<Event>)
    ensures |r| == 10
  {
    [Open, SetPageLoadTimeout(PAGE_LOAD_TIMEOUT_S), SetScriptTimeout(SCRIPT_TIMEOUT_S),
     SetWindow(vp.width + WINDOW_PADDING, vp.height + WINDOW_PADDING), Navigate(url),
     WaitForBody(BODY_WAIT_S), Pause(CONTENT_WAIT_MS), SetWindow(vp.width, vp.height),
     Pause(RESIZE_WAIT_MS), SaveScreenshot(ShotPath(dir, vp.name))]
  }

  /** Where each call sits in `AttemptEvents`. */
  function CallIndex(c: Call): (r: nat)
    ensures r <= 9
  {
    match c
    case Launch => 0
    case PageLoadTimeout => 1
    case ScriptTimeout => 2
    case PadWindow => 3
    case Load => 4
    case BodyWait => 5
    case ExactWindow => 7
    case Save => 9
  }

  /** `except WebDriverException` retries; `except Exception` returns None. */
  function ErrorDecision(err: Error): Decision<Shot> {
    match err
    case DriverError => Retry
    case OtherError => Finish(None)
  }

  /** The `try` block of one attempt: the calls up to the one that raises
    * (no driver when Chrome itself fails to start), and what follows. */
  function AttemptEnd(url: string, vp: Viewport, dir: string, a: AttemptOutcome): End<Shot> {
    match a
    case Completes => End(AttemptEvents(url, vp, dir), true, Finish(Some(Record(vp, dir))))
    case Raises(Launch, err) => End([], false, ErrorDecision(err))
    case Raises(c, err) => End(AttemptEvents(url, vp, dir)[..CallIndex(c) + 1], true, ErrorDecision(err))
  }

  function Ends(url: string, vp: Viewport, dir: string, env: Browser): nat -> End<Shot> {
    (k: nat) => AttemptEnd(url, vp, dir, env(vp.name, k))
  }

  /** The whole capture of one viewport: its result and its trace. */
  function Capture(url: string, vp: Viewport, dir: string, env: Browser, retryCount: int): (Option<Shot>, seq<Event>) {
    RetryFrom(retryCount, 0, Ends(url, vp, dir, env), BACKOFF_MS)
  }

  /** The size the window was last given before position i of a trace. */
  function WindowAt(t: seq<Event>, i: nat): Option<(int, int)>
    requires i <= |t|
  {
    if i == 0 then None
    else if t[i - 1].SetWindow? then Some((t[i - 1].width, t[i - 1].height))
    else WindowAt(t, i - 1)
  }

  /** The page is loaded in a window padded by 100 pixels each way, only
    * after both time-outs are set; the screenshot is taken after the
    * window is reset to the exact viewport size and 3 s of waiting in
    * total. */
  lemma WindowSizes(url: string, vp: Viewport, dir: string)
    ensures var t := AttemptEvents(url, vp, dir);
      && t[4] == Navigate(url)
      && WindowAt(t, 4) == Some((vp.width + 100, vp.height + 100))
      && t[1] == SetPageLoadTimeout(30) && t[2] == SetScriptTimeout(30)
      && t[9] == SaveScreenshot(Record(vp, dir).path)
      && WindowAt(t, 9) == Some((vp.width as int, vp.height as int))
      && t[6].ms + t[8].ms == 3000
  {
  }

  lemma AttemptWellFormed(url: string, vp: Viewport, dir: string, a: AttemptOutcome)
    ensures WellFormedEnd(AttemptEnd(url, vp, dir, a))
  {
    var s := AttemptEvents(url, vp, dir);
    assert forall i :: 1 <= i < |s| ==> InSession(s[i]);
  }

  lemma AllAttemptsWellFormed(url: string, vp: Viewport, dir: string, env: Browser)
    ensures forall j :: WellFormedEnd(Ends(url, vp, dir, env)(j))
  {
    forall j {
      AttemptWellFormed(url, vp, dir, env(vp.name, j));
    }
  }

  /** Which attempts are retried and which end the capture. */
  lemma AttemptDecision(url: string, vp: Viewport, dir: string, a: AttemptOutcome)
    ensures var d := AttemptEnd(url, vp, dir, a).decision;
      && (d == Retry <==> a.Raises? && a.error == DriverError)
      && (d == Finish(Some(Record(vp, dir))) <==> a.Completes?)
      && (a.Raises? && a.error == OtherError <==> d == Finish(None))
  {
  }

  // ---------------------------------------------------------------------
  // Properties of a whole capture

  /** Every browser started is quit exactly once, before the next attempt
    * and before the capture returns; at most `retryCount` attempts are
    * made, with a 2 s sleep between consecutive ones and none after the
    * last; with `retryCount <= 0` nothing at all happens. */
  lemma CaptureDiscipline(url: string, vp: Viewport, dir: string, env: Browser, retryCount: int)
    ensures var (r, t) := Capture(url, vp, dir, env, retryCount);
      && Disciplined(t)
      && Count(t, Open) == Count(t, Quit)
      && Count(t, Attempt) <= (if retryCount <= 0 then 0 else retryCount)
      && (retryCount <= 0 ==> r == None && t == [])
      && (retryCount > 0 ==> Count(t, Backoff(BACKOFF_MS)) + 1 == Count(t, Attempt))
  {
    AllAttemptsWellFormed(url, vp, dir, env);
    var ends := Ends(url, vp, dir, env);
    RetryDisciplined(retryCount, 0, ends, BACKOFF_MS);
    DisciplinedBalanced(Capture(url, vp, dir, env, retryCount).1);
    RetryCounts(retryCount, 0, ends, BACKOFF_MS);
  }

  /** When every attempt raises a WebDriverException, all `retryCount`
    * attempts are made and the capture returns None. */
  lemma DriverErrorsExhaust(url: string, vp: Viewport, dir: string, env: Browser, retryCount: nat)
    requires forall j :: 0 <= j < retryCount ==> env(vp.name, j).Raises? && env(vp.name, j).error == DriverError
    ensures Capture(url, vp, dir, env, retryCount).0 == None
    ensures Count(Capture(url, vp, dir, env, retryCount).1, Attempt) == retryCount
  {
    AllAttemptsWellFormed(url, vp, dir, env);
    RetryAllFail(retryCount, 0, Ends(url, vp, dir, env), BACKOFF_MS);
  }

  /** Any other exception ends the capture at once with None: no further
    * attempt is made. */
  lemma OtherErrorStops(url: string, vp: Viewport, dir: string, env: Browser, retryCount: int, m: nat)
    requires m < retryCount
    requires forall j :: 0 <= j < m ==> env(vp.name, j).Raises? && env(vp.name, j).error == DriverError
    requires env(vp.name, m).Raises? && env(vp.name, m).error == OtherError
    ensures Capture(url, vp, dir, env, retryCount).0 == None
    ensures Count(Capture(url, vp, dir, env, retryCount).1, Attempt) == m + 1
  {
    var ends := Ends(url, vp, dir, env);
    AllAttemptsWellFormed(url, vp, dir, env);
    RetryFirstFinish(retryCount, 0, m, ends, BACKOFF_MS);
    RetryStopsAtFinish(retryCount, 0, m, ends, BACKOFF_MS);
  }

  /** The first attempt in which every call returns gives the record, and
    * no attempt follows it. */
  lemma FirstSuccessWins(url: string, vp: Viewport, dir: string, env: Browser, retryCount: int, m: nat)
    requires m < retryCount
    requires forall j :: 0 <= j < m ==> env(vp.name, j).Raises? && env(vp.name, j).error == DriverError
    requires env(vp.name, m).Completes?
    ensures Capture(url, vp, dir, env, retryCount).0 == Some(Record(vp, dir))
    ensures Count(Capture(url, vp, dir, env, retryCount).1, Attempt) == m + 1
  {
    var ends := Ends(url, vp, dir, env);
    AllAttemptsWellFormed(url, vp, dir, env);
    RetryFirstFinish(retryCount, 0, m, ends, BACKOFF_MS);
    RetryStopsAtFinish(retryCount, 0, m, ends, BACKOFF_MS);
  }

  /** A capture that returns a record returns this viewport's record. */
  lemma CaptureResult(url: string, vp: Viewport, dir: string, env: Browser, retryCount: int)
    requires Capture(url, vp, dir, env, retryCount).0.Some?
    ensures Capture(url, vp, dir, env, retryCount).0 == Some(Record(vp, dir))
  {
    var ends := Ends(url, vp, dir, env);
    RetryResultSource(retryCount, 0, ends, BACKOFF_MS);
    var j :| 0 <= j < retryCount && ends(j).decision == Finish(Capture(url, vp, dir, env, retryCount).0);
    AttemptDecision(url, vp, dir, env(vp.name, j));
  }

  // ---------------------------------------------------------------------
  // The capture loop

  /** The body of the `try` block for one attempt. */
  method RunAttempt(url: string, vp: Viewport, dir: string, a: AttemptOutcome) returns (e: End<Shot>)
    ensures e == AttemptEnd(url, vp, dir, a)
  {
    var events := AttemptEvents(url, vp, dir);
    match a {
    case Completes =>
      e := End(events, true, Finish(Some(Record(vp, dir))));
    case Raises(c, err) =>
      var decision := if err.DriverError? then Retry else Finish(None);
      if c == Launch {
        e := End([], false, decision);
      } else {
        e := End(events[..CallIndex(c) + 1], true, decision);
      }
    }
  }

  /** `capture_screenshot`: the attempt loop with its `finally` cleanup. */
  method CaptureScreenshot(url: string, vp: Viewport, dir: string, env: Browser, retryCount: int)
    returns (r: Option<Shot>, trace: seq<Event>)
    ensures (r, trace) == Capture(url, vp, dir, env, retryCount)
  {
    ghost var ends := Ends(url, vp, dir, env);
    ghost var whole := RetryFrom(retryCount, 0, ends, BACKOFF_MS);
    assert whole == Capture(url, vp, dir, env, retryCount);
    trace := [];
    var attempt: nat := 0;
    assert whole.1 == trace + RetryFrom(retryCount, 0, ends, BACKOFF_MS).1;
    while attempt < retryCount
      invariant whole.0 == RetryFrom(retryCount, attempt, ends, BACKOFF_MS).0
      invariant whole.1 == trace + RetryFrom(retryCount, attempt, ends, BACKOFF_MS).1
      decreases retryCount - attempt
    {
      var e := RunAttempt(url, vp, dir, env(vp.name, attempt));
      assert e == ends(attempt);
      RetryStep(retryCount, attempt, ends, BACKOFF_MS, trace, whole);
      if e.decision.Finish? {
        return e.decision.result, trace + AttemptTrace(e, []);
      }
      if attempt == retryCount - 1 {
        return None, trace + AttemptTrace(e, []);
      }
      trace := trace + AttemptTrace(e, [Backoff(BACKOFF_MS)]);
      attempt := attempt + 1;
    }
    assert RetryFrom(retryCount, attempt, ends, BACKOFF_MS) == (None, []);
    assert trace + [] == trace;
    r := None;
  }
}
