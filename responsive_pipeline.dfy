/** `process_website` of responsive_website_screenshotter.py: every
  * viewport is captured, the records that came back are kept in the order
  * the viewports were submitted, and when there is at least one the
  * collage is drawn from them. */
module ResponsivePipeline {
  import opened Basics
  import opened Session
  import opened Raster
  import opened ResponsiveCapture
  import opened ResponsiveCollage

  /** What `capture_screenshot` returns for each viewport, in submission
    * order: the results are read back by iterating over the futures in the
    * order they were created, whatever order they finish in. */
  function Captures(url: string, vps: seq<Viewport>, dir: string, env: Browser, retryCount: int): (r: seq<Option<Shot>>)
    ensures |r| == |vps|
    ensures forall i :: 0 <= i < |vps| ==> r[i] == Capture(url, vps[i], dir, env, retryCount).0
  {
    seq(|vps|, i requires 0 <= i < |vps| => Capture(url, vps[i], dir, env, retryCount).0)
  }

  /** `screenshots`: the records that came back, in order. */
  function Shots(url: string, vps: seq<Viewport>, dir: string, env: Browser, retryCount: int): seq<Shot> {
    Present(Captures(url, vps, dir, env, retryCount))
  }

  /** The browser events of the first n captures, one after the other, as
    * with a single worker. */
  function Traces(url: string, vps: seq<Viewport>, dir: string, env: Browser, retryCount: int, n: nat): seq<Event>
    requires n <= |vps|
  {
    if n == 0 then []
    else Traces(url, vps, dir, env, retryCount, n - 1) + Capture(url, vps[n - 1], dir, env, retryCount).1
  }

  /** What a run leaves behind: the records, the collage written (if any)
    * and the browser events. */
  datatype Outcome = Outcome(shots: seq<Shot>, collage: Option<Board>, trace: seq<Event>)

  function Processed(url: string, dir: string, vps: seq<Viewport>, env: Browser, retryCount: int,
                     images: Path -> ImageState, saves: Path -> bool): Outcome {
    var shots := Shots(url, vps, dir, env, retryCount);
    Outcome(shots,
            if shots == [] then None else Collage(dir, shots, images, saves),
            Traces(url, vps, dir, env, retryCount, |vps|))
  }

  // ---------------------------------------------------------------------
  // Properties of a run

  /** Each kept record is the record of one of the viewports, exactly the
    * captures that returned one are kept, and there are no more records
    * than viewports. */
  lemma ShotsAreRecords(url: string, vps: seq<Viewport>, dir: string, env: Browser, retryCount: int)
    ensures var shots := Shots(url, vps, dir, env, retryCount);
      && |shots| <= |vps|
      && (forall s :: s in shots <==> Some(s) in Captures(url, vps, dir, env, retryCount))
      && (forall s :: s in shots ==> exists i :: 0 <= i < |vps| && s == Record(vps[i], dir))
  {
    var caps := Captures(url, vps, dir, env, retryCount);
    forall s
      ensures s in Present(caps) <==> Some(s) in caps
    {
      PresentMembers(caps, s);
    }
    forall s | s in Present(caps)
      ensures exists i :: 0 <= i < |vps| && s == Record(vps[i], dir)
    {
      var i :| 0 <= i < |caps| && caps[i] == Some(s);
      CaptureResult(url, vps[i], dir, env, retryCount);
    }
  }

  /** When every capture succeeds, the records are the viewports' records
    * in the viewports' order. */
  lemma AllCapturedInOrder(url: string, vps: seq<Viewport>, dir: string, env: Browser, retryCount: int)
    requires forall i :: 0 <= i < |vps| ==> Capture(url, vps[i], dir, env, retryCount).0.Some?
    ensures Shots(url, vps, dir, env, retryCount) == seq(|vps|, i requires 0 <= i < |vps| => Record(vps[i], dir))
  {
    var caps := Captures(url, vps, dir, env, retryCount);
    PresentAll(caps);
    forall i | 0 <= i < |vps|
      ensures caps[i].value == Record(vps[i], dir)
    {
      CaptureResult(url, vps[i], dir, env, retryCount);
    }
  }

  /** Captures made one after another never have two browsers open at
    * once, and every browser is quit. */
  lemma {:induction false} TracesDisciplined(url: string, vps: seq<Viewport>, dir: string, env: Browser, retryCount: int, n: nat)
    requires n <= |vps|
    ensures Disciplined(Traces(url, vps, dir, env, retryCount, n))
    ensures Count(Traces(url, vps, dir, env, retryCount, n), Open) == Count(Traces(url, vps, dir, env, retryCount, n), Quit)
  {
    var t := Traces(url, vps, dir, env, retryCount, n);
    if n > 0 {
      TracesDisciplined(url, vps, dir, env, retryCount, n - 1);
      CaptureDiscipline(url, vps[n - 1], dir, env, retryCount);
      RunAppend(false, Traces(url, vps, dir, env, retryCount, n - 1), Capture(url, vps[n - 1], dir, env, retryCount).1);
    }
    DisciplinedBalanced(t);
  }

  /** No viewport gets more than `retryCount` attempts, so the run as a
    * whole makes at most `n * retryCount`. */
  lemma {:induction false} TracesAttempts(url: string, vps: seq<Viewport>, dir: string, env: Browser, retryCount: nat, n: nat)
    requires n <= |vps|
    ensures forall i :: 0 <= i < n ==> Count(Capture(url, vps[i], dir, env, retryCount).1, Attempt) <= retryCount
    ensures Count(Traces(url, vps, dir, env, retryCount, n), Attempt) <= n * retryCount
  {
    forall i | 0 <= i < n
      ensures Count(Capture(url, vps[i], dir, env, retryCount).1, Attempt) <= retryCount
    {
      CaptureDiscipline(url, vps[i], dir, env, retryCount);
    }
    if n > 0 {
      TracesAttempts(url, vps, dir, env, retryCount, n - 1);
      CaptureDiscipline(url, vps[n - 1], dir, env, retryCount);
      CountAppend(Traces(url, vps, dir, env, retryCount, n - 1), Capture(url, vps[n - 1], dir, env, retryCount).1, Attempt);
      assert n * retryCount == (n - 1) * retryCount + retryCount;
    }
  }

  /** The collage is drawn exactly when some record came back and it is
    * saved, and then it is the collage of those records. */
  lemma ProcessedCollage(url: string, dir: string, vps: seq<Viewport>, env: Browser, retryCount: int,
                         images: Path -> ImageState, saves: Path -> bool)
    ensures var o := Processed(url, dir, vps, env, retryCount, images, saves);
      && o.collage == Collage(dir, o.shots, images, saves)
      && (o.collage.Some? <==> o.shots != [] && saves(CollagePath(dir)))
  {
    var o := Processed(url, dir, vps, env, retryCount, images, saves);
    CollageSkipped(dir, o.shots, images, saves);
  }

  /** With the 20 catalogue viewports all captured, the source's fixed
    * canvas leaves the last 11 of them entirely below its bottom edge. */
  lemma FixedCanvasLosesEleven(url: string, dir: string, env: Browser, retryCount: int, images: Path -> ImageState)
    requires forall i :: 0 <= i < |VIEWPORTS| ==> Capture(url, VIEWPORTS[i], dir, env, retryCount).0.Some?
    ensures var shots := Shots(url, VIEWPORTS, dir, env, retryCount);
      var b := AsWrittenBoard(dir, shots, images);
      && |shots| == 20 && |shots| - 9 == 11
      && forall i :: 9 <= i < |shots| ==>
           forall op :: op in ItemOps(i, shots[i], images(shots[i].path)) ==> op in b.ops && op.y >= b.height + 50
  {
    var shots := Shots(url, VIEWPORTS, dir, env, retryCount);
    AllCapturedInOrder(url, VIEWPORTS, dir, env, retryCount);
    forall i | 9 <= i < |shots|
      ensures forall op :: op in ItemOps(i, shots[i], images(shots[i].path)) ==>
        op in AsWrittenBoard(dir, shots, images).ops && op.y >= AsWrittenBoard(dir, shots, images).height + 50
    {
      AsWrittenLosesLaterItems(dir, shots, images, i);
    }
  }

  // ---------------------------------------------------------------------
  // The run

  /** One pass of the collecting loop: capture a viewport and keep its
    * record if there is one. */
  method CaptureNext(url: string, vps: seq<Viewport>, dir: string, env: Browser, retryCount: int, i: nat,
                     shots: seq<Shot>, trace: seq<Event>)
    returns (shots': seq<Shot>, trace': seq<Event>)
    requires i < |vps|
    requires shots == Present(Captures(url, vps, dir, env, retryCount)[..i])
    requires trace == Traces(url, vps, dir, env, retryCount, i)
    ensures shots' == Present(Captures(url, vps, dir, env, retryCount)[..i + 1])
    ensures trace' == Traces(url, vps, dir, env, retryCount, i + 1)
  {
    ghost var caps := Captures(url, vps, dir, env, retryCount);
    var r, t := CaptureScreenshot(url, vps[i], dir, env, retryCount);
    assert caps[..i + 1] == caps[..i] + [r];
    PresentAppend(caps[..i], [r]);
    assert Present([r]) == if r.Some? then [r.value] else [] by {
      assert [r][..0] == [];
    }
    shots' := if r.Some? then shots + [r.value] else shots;
    trace' := trace + t;
  }

  /** `process_website` with the given viewports and retry count. */
  method ProcessWebsiteWith(url: string, dir: string, vps: seq<Viewport>, env: Browser, retryCount: int,
                            images: Path -> ImageState, saves: Path -> bool)
    returns (shots: seq<Shot>, collage: Option<Board>, trace: seq<Event>)
    ensures Outcome(shots, collage, trace) == Processed(url, dir, vps, env, retryCount, images, saves)
  {
    ghost var caps := Captures(url, vps, dir, env, retryCount);
    shots, trace := [], [];
    var i := 0;
    assert caps[..0] == [];
    while i < |vps|
      invariant 0 <= i <= |vps|
      invariant shots == Present(caps[..i])
      invariant trace == Traces(url, vps, dir, env, retryCount, i)
    {
      shots, trace := CaptureNext(url, vps, dir, env, retryCount, i, shots, trace);
      i := i + 1;
    }
    assert caps[..i] == caps;
    if shots == [] {
      collage := None;
    } else {
      collage := CreateCollage(dir, shots, images, saves);
    }
  }

  /** `process_website` itself: all viewports, three attempts each. */
  method ProcessWebsite(url: string, dir: string, env: Browser, images: Path -> ImageState, saves: Path -> bool)
    returns (shots: seq<Shot>, collage: Option<Board>, trace: seq<Event>)
    ensures Outcome(shots, collage, trace) == Processed(url, dir, VIEWPORTS, env, RETRY_COUNT, images, saves)
  {
    shots, collage, trace := ProcessWebsiteWith(url, dir, VIEWPORTS, env, RETRY_COUNT, images, saves);
  }
}
