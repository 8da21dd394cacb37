/** `capture_screenshot` of gif_version.py: per viewport, up to
  * `retry_count` attempts, each launching a browser, emulating the device,
  * loading the page, grabbing 15 frames and encoding them as a GIF. The
  * browser and the imaging library are inputs: what each attempt's calls
  * do is given by a `GifBrowser`. */
module GifCapture {
  import opened Basics
  import opened Session
  import opened GifCatalog

  type Bytes = seq<bv8>

  const FRAME_COUNT: nat := 15
  const FRAME_DELAY_MS: nat := 200
  const RETRY_COUNT: int := 3
  const BACKOFF_MS: nat := 3000
  const BODY_WAIT_S: nat := 30

  // ---------------------------------------------------------------------
  // Derived viewport metrics

  /** `int(size / dpr)` for a device pixel ratio of `q / 4`: the largest
    * whole number of CSS pixels that fits. */
  function PhysicalSize(size: Dim, q: Dim): (r: int)
    ensures 0 <= r && r * q <= 4 * size < (r + 1) * q
  {
    (4 * size) / q
  }

  /** The device is emulated as mobile when its lower-cased name contains
    * "mobile" or "iphone". */
  function IsMobile(name: string): bool {
    Contains(Lower(name), "mobile") || Contains(Lower(name), "iphone")
  }

  /** The flag does not depend on how the name is capitalised. */
  lemma IsMobileIgnoresCase(name: string)
    ensures IsMobile(Lower(name)) == IsMobile(name)
  {
    LowerIdempotent(name);
  }

  /** A name that starts with "iphone", in any capitalisation, is
    * emulated as a mobile device. */
  lemma IPhoneMobile(name: string)
    requires |name| >= 6 && Lower(name)[..6] == "iphone"
    ensures IsMobile(name)
  {
    assert OccursAt(Lower(name), "iphone", 0);
  }

  /** `os.path.join(output_dir, f"screenshot-{name}.gif")` */
  function GifPath(dir: string, name: string): Path {
    Path(dir, "screenshot-" + name + ".gif")
  }

  /** The dictionary a successful capture returns. */
  datatype GifShot = GifShot(
    name: string, path: Path, width: Dim, height: Dim, dprQuarters: Dim,
    physicalWidth: int, physicalHeight: int, userAgent: string)

  function Record(vp: Viewport, dir: string): GifShot {
    GifShot(vp.name, GifPath(dir, vp.name), vp.width, vp.height, vp.dprQuarters,
            PhysicalSize(vp.width, vp.dprQuarters), PhysicalSize(vp.height, vp.dprQuarters),
            vp.userAgent)
  }

  /** The record copies the viewport, names the GIF after it and holds its
    * size in CSS pixels. */
  lemma RecordFields(vp: Viewport, dir: string)
    ensures var r := Record(vp, dir);
      && r.name == vp.name && r.width == vp.width && r.height == vp.height
      && r.dprQuarters == vp.dprQuarters && r.userAgent == vp.userAgent
      && r.path.dir == dir
      && r.path.file[..11] == "screenshot-" && r.path.file[|r.path.file| - 4..] == ".gif"
      && r.path.file[11..|r.path.file| - 4] == vp.name
      && r.physicalWidth * vp.dprQuarters <= 4 * vp.width < (r.physicalWidth + 1) * vp.dprQuarters
      && r.physicalHeight * vp.dprQuarters <= 4 * vp.height < (r.physicalHeight + 1) * vp.dprQuarters
  {
  }

  /** Distinct device names give distinct GIF files. */
  lemma GifPathInjective(dir: string, a: string, b: string)
    requires GifPath(dir, a) == GifPath(dir, b)
    ensures a == b
  {
    var f := GifPath(dir, a).file;
    assert a == f[11..|f| - 4];
  }

  /** The catalogue's devices are written to distinct GIF files. */
  lemma CatalogueGifPathsDistinct(dir: string)
    ensures forall i, j :: 0 <= i < j < |VIEWPORTS| ==> GifPath(dir, VIEWPORTS[i].name) != GifPath(dir, VIEWPORTS[j].name)
  {
    ViewportNamesDistinct();
    forall i, j | 0 <= i < j < |VIEWPORTS|
      ensures GifPath(dir, VIEWPORTS[i].name) != GifPath(dir, VIEWPORTS[j].name)
    {
      if GifPath(dir, VIEWPORTS[i].name) == GifPath(dir, VIEWPORTS[j].name) {
        GifPathInjective(dir, VIEWPORTS[i].name, VIEWPORTS[j].name);
      }
    }
  }

  // ---------------------------------------------------------------------
  // Frames

  /** What one iteration of the frame loop gets: the PNG bytes of a
    * screenshot, an exception from the screenshot, or an exception from the
    * scroll that follows it. */
  datatype Shot = Taken(png: Bytes) | ScreenshotFails | ScrollFails

  /** The outcomes of the loop's `frame_count` iterations, in order. */
  type FrameShots = s: seq<Shot> | |s| == FRAME_COUNT witness seq(FRAME_COUNT, _ => ScreenshotFails)

  predicate AllTaken(shots: FrameShots) {
    forall i :: 0 <= i < |shots| ==> shots[i].Taken?
  }

  /** The frames `capture_gif_frames` returns: all of them, or none at all
    * once an iteration raises. */
  function CapturedFrames(shots: FrameShots): (r: seq<Bytes>)
    ensures AllTaken(shots) ==>
      |r| == FRAME_COUNT && forall i :: 0 <= i < FRAME_COUNT ==> r[i] == shots[i].png
    ensures !AllTaken(shots) ==> r == []
  {
    if AllTaken(shots) then seq(FRAME_COUNT, i requires 0 <= i < FRAME_COUNT => shots[i].png)
    else []
  }

  /** The driver calls of the frame loop from iteration k on: a screenshot,
    * a scroll and a 200 ms sleep per frame; an iteration that raises ends
    * the loop after the call that raised. */
  function FrameEvents(shots: FrameShots, k: nat): seq<Event>
    decreases FRAME_COUNT - k
  {
    if k >= FRAME_COUNT then []
    else if shots[k].ScreenshotFails? then [GrabFrame]
    else if shots[k].ScrollFails? then [GrabFrame, Scroll]
    else FRAME_STEP + FrameEvents(shots, k + 1)
  }

  lemma {:induction false} FrameEventsInSession(shots: FrameShots, k: nat)
    ensures forall i :: 0 <= i < |FrameEvents(shots, k)| ==> InSession(FrameEvents(shots, k)[i])
    decreases FRAME_COUNT - k
  {
    if k < FRAME_COUNT && shots[k].Taken? {
      FrameEventsInSession(shots, k + 1);
    }
  }

  /** The calls of one iteration that takes its frame. */
  const FRAME_STEP: seq<Event> := [GrabFrame, Scroll, Pause(FRAME_DELAY_MS)]

  /** The calls of n iterations that all take their frame. */
  function FrameSteps(n: nat): (r: seq<Event>)
    ensures |r| == 3 * n
  {
    if n == 0 then [] else FrameSteps(n - 1) + FRAME_STEP
  }

  /** Once the first i iterations have taken their frames, the loop's calls
    * are theirs followed by those of the rest. */
  lemma {:induction false} FrameEventsPrefix(shots: FrameShots, i: nat)
    requires i <= FRAME_COUNT
    requires forall j :: 0 <= j < i ==> shots[j].Taken?
    ensures FrameEvents(shots, 0) == FrameSteps(i) + FrameEvents(shots, i)
  {
    if i > 0 {
      FrameEventsPrefix(shots, i - 1);
      assert FrameEvents(shots, i - 1) == FRAME_STEP + FrameEvents(shots, i);
      assert FrameSteps(i - 1) + (FRAME_STEP + FrameEvents(shots, i)) ==
             (FrameSteps(i - 1) + FRAME_STEP) + FrameEvents(shots, i);
    }
  }

  /** When iteration i is the first to raise, the loop has made the calls
    * of the i frames before it, then the screenshot, and the scroll too
    * when it was the scroll that raised. */
  lemma FrameEventsAtFailure(shots: FrameShots, i: nat)
    requires i < FRAME_COUNT
    requires forall j :: 0 <= j < i ==> shots[j].Taken?
    requires !shots[i].Taken?
    ensures shots[i].ScreenshotFails? ==> FrameEvents(shots, 0) == FrameSteps(i) + [GrabFrame]
    ensures shots[i].ScrollFails? ==> FrameEvents(shots, 0) == FrameSteps(i) + [GrabFrame, Scroll]
  {
    FrameEventsPrefix(shots, i);
  }

  /** `capture_gif_frames`: the loop appending one screenshot per iteration. */
  method CaptureGifFrames(shots: FrameShots) returns (frames: seq<Bytes>, events: seq<Event>)
    ensures frames == CapturedFrames(shots)
    ensures events == FrameEvents(shots, 0)
  {
    frames := [];
    events := [];
    var i := 0;
    while i < FRAME_COUNT
      invariant 0 <= i <= FRAME_COUNT
      invariant forall j :: 0 <= j < i ==> shots[j].Taken?
      invariant frames == seq(i, j requires 0 <= j < i => shots[j].png)
      invariant events == FrameSteps(i)
    {
      if shots[i].ScreenshotFails? {
        FrameEventsPrefix(shots, i);
        events := events + [GrabFrame];
        frames := [];
        return;
      }
      if shots[i].ScrollFails? {
        FrameEventsPrefix(shots, i);
        events := events + [GrabFrame, Scroll];
        frames := [];
        return;
      }
      frames := frames + [shots[i].png];
      events := events + FRAME_STEP;
      i := i + 1;
    }
    FrameEventsPrefix(shots, i);
    assert events + [] == events;
  }

  // ---------------------------------------------------------------------
  // Encoding

  /** What `create_gif_from_frames` returns: the output path when there is
    * at least one frame, every frame decodes and the file is written. */
  function EncodedGif(frames: seq<Bytes>, decodes: Bytes -> bool, saves: bool, path: Path): (r: Option<Path>)
  {
    if frames != [] && (forall i :: 0 <= i < |frames| ==> decodes(frames[i])) && saves then Some(path)
    else None
  }

  /** `create_gif_from_frames`: decode the frames one by one, then save. */
  method CreateGifFromFrames(frames: seq<Bytes>, decodes: Bytes -> bool, saves: bool, path: Path)
    returns (r: Option<Path>)
    ensures r.Some? <==> frames != [] && (forall i :: 0 <= i < |frames| ==> decodes(frames[i])) && saves
    ensures r.Some? ==> r.value == path
    ensures r == EncodedGif(frames, decodes, saves, path)
  {
    var i := 0;
    while i < |frames|
      invariant 0 <= i <= |frames|
      invariant forall j :: 0 <= j < i ==> decodes(frames[j])
    {
      if !decodes(frames[i]) {
        return None;
      }
      i := i + 1;
    }
    if frames != [] && saves {
      return Some(path);
    }
    return None;
  }

  // ---------------------------------------------------------------------
  // One attempt

  /** The setup calls after launch, in order; any of them can raise. */
  datatype SetupCall = ResizeWindow | EmulateDevice | Navigation | BodyWait | LoadWait | Hydration

  function CallIndex(c: SetupCall): (r: nat)
    ensures 1 <= r <= 6
  {
    match c
    case ResizeWindow => 1
    case EmulateDevice => 2
    case Navigation => 3
    case BodyWait => 4
    case LoadWait => 5
    case Hydration => 6
  }

  /** How one attempt goes: Chrome fails to start, a setup call raises, or
    * the page loads; then the frame loop's iterations and the encoder's
    * decoding and saving decide the rest. */
  datatype GifAttempt =
    | LaunchFails
    | SetupRaises(call: SetupCall)
    | Loaded(shots: FrameShots, decodes: Bytes -> bool, saves: bool)

  /** The browser, as seen by the captures: what attempt k for the device of
    * this name runs into. */
  type GifBrowser = (string, nat) -> GifAttempt

  /** The launch and setup calls of an attempt: the window is padded by 100
    * CSS pixels, the device metrics are overridden with the CSS size, the
    * ratio and the mobile flag, then the page is loaded and prepared. */
  function SetupEvents(url: string, vp: Viewport): (r: seq<Event>)
    ensures |r| == 7
  {
    var pw := PhysicalSize(vp.width, vp.dprQuarters);
    var ph := PhysicalSize(vp.height, vp.dprQuarters);
    [Open, SetWindow(pw + 100, ph + 100), Emulate(pw, ph, vp.dprQuarters, IsMobile(vp.name)),
     Navigate(url), WaitForBody(BODY_WAIT_S), WaitForLoad, Hydrate]
  }

  /** The `try` block of one attempt: an empty frame list is raised as an
    * error (retried), an encoding failure returns None, and a GIF on disk
    * returns the record. */
  function GifAttemptEnd(url: string, vp: Viewport, dir: string, a: GifAttempt): End<GifShot> {
    match a
    case LaunchFails => End([], false, Retry)
    case SetupRaises(c) => End(SetupEvents(url, vp)[..CallIndex(c) + 1], true, Retry)
    case Loaded(shots, decodes, saves) =>
      var frames := CapturedFrames(shots);
      var events := SetupEvents(url, vp) + FrameEvents(shots, 0);
      if frames == [] then End(events, true, Retry)
      else if EncodedGif(frames, decodes, saves, GifPath(dir, vp.name)).Some? then
        End(events, true, Finish(Some(Record(vp, dir))))
      else
        End(events, true, Finish(None))
  }

  function GifEnds(url: string, vp: Viewport, dir: string, env: GifBrowser): nat -> End<GifShot> {
    (k: nat) => GifAttemptEnd(url, vp, dir, env(vp.name, k))
  }

  /** The whole capture of one viewport: its result and its trace. */
  function GifCapture(url: string, vp: Viewport, dir: string, env: GifBrowser, retryCount: int): (Option<GifShot>, seq<Event>) {
    RetryFrom(retryCount, 0, GifEnds(url, vp, dir, env), BACKOFF_MS)
  }

  /** The setup calls followed by any driver calls make a well-formed
    * attempt, and so does every prefix of the setup calls that reaches past
    * the launch. */
  lemma SetupWellFormed(url: string, vp: Viewport, f: seq<Event>, n: nat, d: Decision<GifShot>)
    requires forall i :: 0 <= i < |f| ==> InSession(f[i])
    requires 1 <= n <= 7
    ensures WellFormedEnd(End(SetupEvents(url, vp) + f, true, d))
    ensures WellFormedEnd(End(SetupEvents(url, vp)[..n], true, d))
  {
    var s := SetupEvents(url, vp);
    assert forall i :: 1 <= i < |s| ==> InSession(s[i]);
    assert forall i :: |s| <= i < |s + f| ==> (s + f)[i] == f[i - |s|];
  }

  lemma GifAttemptWellFormed(url: string, vp: Viewport, dir: string, a: GifAttempt)
    ensures WellFormedEnd(GifAttemptEnd(url, vp, dir, a))
  {
    match a
    case LaunchFails =>
    case SetupRaises(c) =>
      SetupWellFormed(url, vp, [], CallIndex(c) + 1, Retry);
    case Loaded(shots, _, _) =>
      FrameEventsInSession(shots, 0);
      var e := GifAttemptEnd(url, vp, dir, a);
      SetupWellFormed(url, vp, FrameEvents(shots, 0), 1, e.decision);
  }

  lemma AllGifAttemptsWellFormed(url: string, vp: Viewport, dir: string, env: GifBrowser)
    ensures forall j :: WellFormedEnd(GifEnds(url, vp, dir, env)(j))
  {
    forall j {
      GifAttemptWellFormed(url, vp, dir, env(vp.name, j));
    }
  }

  /** Which attempts are retried and which end the capture. */
  lemma GifAttemptDecision(url: string, vp: Viewport, dir: string, a: GifAttempt)
    ensures var d := GifAttemptEnd(url, vp, dir, a).decision;
      && (a.LaunchFails? || a.SetupRaises? ==> d == Retry)
      && (a.Loaded? && !AllTaken(a.shots) ==> d == Retry)
      && (a.Loaded? && AllTaken(a.shots) ==>
            d == Finish(if (forall i :: 0 <= i < FRAME_COUNT ==> a.decodes(a.shots[i].png)) && a.saves
                        then Some(Record(vp, dir)) else None))
  {
    if a.Loaded? && AllTaken(a.shots) {
      var frames := CapturedFrames(a.shots);
      assert frames != [] by { assert |frames| == FRAME_COUNT; }
      assert (forall i :: 0 <= i < |frames| ==> a.decodes(frames[i])) <==>
             (forall i :: 0 <= i < FRAME_COUNT ==> a.decodes(a.shots[i].png));
    }
  }

  // ---------------------------------------------------------------------
  // Properties of a whole capture

  /** Every browser started is quit exactly once, before the next attempt
    * and before the capture returns; at most `retryCount` attempts are
    * made, with a 3 s sleep between consecutive ones and none after the
    * last; with `retryCount <= 0` nothing at all happens. */
  lemma GifCaptureDiscipline(url: string, vp: Viewport, dir: string, env: GifBrowser, retryCount: int)
    ensures var (r, t) := GifCapture(url, vp, dir, env, retryCount);
      && Disciplined(t)
      && Count(t, Open) == Count(t, Quit)
      && Count(t, Attempt) <= (if retryCount <= 0 then 0 else retryCount)
      && (retryCount <= 0 ==> r == None && t == [])
      && (retryCount > 0 ==> Count(t, Backoff(BACKOFF_MS)) + 1 == Count(t, Attempt))
  {
    AllGifAttemptsWellFormed(url, vp, dir, env);
    var ends := GifEnds(url, vp, dir, env);
    RetryDisciplined(retryCount, 0, ends, BACKOFF_MS);
    DisciplinedBalanced(GifCapture(url, vp, dir, env, retryCount).1);
    RetryCounts(retryCount, 0, ends, BACKOFF_MS);
  }

  /** When every attempt is retried, all `retryCount` attempts are made and
    * the capture returns None. */
  lemma GifCaptureAllFail(url: string, vp: Viewport, dir: string, env: GifBrowser, retryCount: nat)
    requires forall j :: 0 <= j < retryCount ==> GifEnds(url, vp, dir, env)(j).decision.Retry?
    ensures GifCapture(url, vp, dir, env, retryCount).0 == None
    ensures Count(GifCapture(url, vp, dir, env, retryCount).1, Attempt) == retryCount
  {
    AllGifAttemptsWellFormed(url, vp, dir, env);
    RetryAllFail(retryCount, 0, GifEnds(url, vp, dir, env), BACKOFF_MS);
  }

  /** An encoding failure, a frame that does not decode or a save that
    * fails, ends the capture at once with None: no further attempt is made. */
  lemma GifEncodeFailureStops(url: string, vp: Viewport, dir: string, env: GifBrowser, retryCount: int, m: nat)
    requires m < retryCount
    requires forall j :: 0 <= j < m ==> GifEnds(url, vp, dir, env)(j).decision.Retry?
    requires env(vp.name, m).Loaded? && AllTaken(env(vp.name, m).shots)
    requires !((forall i :: 0 <= i < FRAME_COUNT ==> env(vp.name, m).decodes(env(vp.name, m).shots[i].png))
               && env(vp.name, m).saves)
    ensures GifCapture(url, vp, dir, env, retryCount).0 == None
    ensures Count(GifCapture(url, vp, dir, env, retryCount).1, Attempt) == m + 1
  {
    var ends := GifEnds(url, vp, dir, env);
    GifAttemptDecision(url, vp, dir, env(vp.name, m));
    AllGifAttemptsWellFormed(url, vp, dir, env);
    RetryFirstFinish(retryCount, 0, m, ends, BACKOFF_MS);
    RetryStopsAtFinish(retryCount, 0, m, ends, BACKOFF_MS);
  }

  /** A capture that returns a record returns this viewport's record. */
  lemma GifCaptureResult(url: string, vp: Viewport, dir: string, env: GifBrowser, retryCount: int)
    requires GifCapture(url, vp, dir, env, retryCount).0.Some?
    ensures GifCapture(url, vp, dir, env, retryCount).0 == Some(Record(vp, dir))
  {
    var ends := GifEnds(url, vp, dir, env);
    RetryResultSource(retryCount, 0, ends, BACKOFF_MS);
    var j :| 0 <= j < retryCount && ends(j).decision == Finish(GifCapture(url, vp, dir, env, retryCount).0);
    GifAttemptDecision(url, vp, dir, env(vp.name, j));
  }

  // ---------------------------------------------------------------------
  // The capture loop

  /** The body of the `try` block for one attempt. */
  method RunAttempt(url: string, vp: Viewport, dir: string, a: GifAttempt) returns (e: End<GifShot>)
    ensures e == GifAttemptEnd(url, vp, dir, a)
  {
    match a {
    case LaunchFails =>
      e := End([], false, Retry);
    case SetupRaises(c) =>
      e := End(SetupEvents(url, vp)[..CallIndex(c) + 1], true, Retry);
    case Loaded(shots, decodes, saves) =>
      var frames, frameEvents := CaptureGifFrames(shots);
      var events := SetupEvents(url, vp) + frameEvents;
      if frames == [] {
        e := End(events, true, Retry);
      } else {
        var gif := CreateGifFromFrames(frames, decodes, saves, GifPath(dir, vp.name));
        if gif.Some? {
          e := End(events, true, Finish(Some(Record(vp, dir))));
        } else {
          e := End(events, true, Finish(None));
        }
      }
    }
  }

  /** `capture_screenshot`: the attempt loop with its `finally` cleanup. */
  method CaptureScreenshot(url: string, vp: Viewport, dir: string, env: GifBrowser, retryCount: int)
    returns (r: Option<GifShot>, trace: seq<Event>)
    ensures (r, trace) == GifCapture(url, vp, dir, env, retryCount)
  {
    ghost var ends := GifEnds(url, vp, dir, env);
    ghost var whole := RetryFrom(retryCount, 0, ends, BACKOFF_MS);
    assert whole == GifCapture(url, vp, dir, env, retryCount);
    trace := [];
    var attempt: nat := 0;
    assert whole.1 == trace + RetryFrom(retryCount, 0, ends, BACKOFF_MS).1;
    while attempt < retryCount
      invariant whole.0 == RetryFrom(retryCount, attempt, ends, BACKOFF_MS).0
      invariant whole.1 == trace + RetryFrom(retryCount, attempt, ends, BACKOFF_MS).1
      decreases retryCount - attempt
    {
      var e := RunAttempt(url, vp, dir, env(vp.name, attempt));
      assert e == ends(attempt);
      RetryStep(retryCount, attempt, ends, BACKOFF_MS, trace, whole);
      if e.decision.Finish? {
        return e.decision.result, trace + AttemptTrace(e, []);
      }
      if attempt == retryCount - 1 {
        return None, trace + AttemptTrace(e, []);
      }
      trace := trace + AttemptTrace(e, [Backoff(BACKOFF_MS)]);
      attempt := attempt + 1;
    }
    assert RetryFrom(retryCount, attempt, ends, BACKOFF_MS) == (None, []);
    assert trace + [] == trace;
    r := None;
  }
}
