/** `process_website` of gif_version.py: every viewport is captured, the
  * records that came back are kept in the order the viewports were
  * submitted, and when there is at least one the category collages are
  * drawn from them. */
module GifPipeline {
  import opened Basics
  import opened Session
  import opened Raster
  import opened GifCatalog
  import opened GifCapture
  import opened CategoryCollage

  /** What `capture_screenshot` returns for each viewport, in submission
    * order: the results are read back by iterating over the futures in the
    * order they were created, whatever order they finish in. */
  function Captures(url: string, vps: seq<Viewport>, dir: string, env: GifBrowser, retryCount: int): (r: seq<Option<GifShot>>)
    ensures |r| == |vps|
    ensures forall i :: 0 <= i < |vps| ==> r[i] == GifCapture.GifCapture(url, vps[i], dir, env, retryCount).0
  {
    seq(|vps|, i requires 0 <= i < |vps| => GifCapture.GifCapture(url, vps[i], dir, env, retryCount).0)
  }

  /** `screenshots`: the records that came back, in order. */
  function Shots(url: string, vps: seq<Viewport>, dir: string, env: GifBrowser, retryCount: int): seq<GifShot> {
    Present(Captures(url, vps, dir, env, retryCount))
  }

  /** The browser events of the first n captures, one after the other, as
    * with a single worker. */
  function Traces(url: string, vps: seq<Viewport>, dir: string, env: GifBrowser, retryCount: int, n: nat): seq<Event>
    requires n <= |vps|
  {
    if n == 0 then []
    else Traces(url, vps, dir, env, retryCount, n - 1) + GifCapture.GifCapture(url, vps[n - 1], dir, env, retryCount).1
  }

  /** What a run leaves behind: the records, the collages written and the
    * browser events. */
  datatype Outcome = Outcome(shots: seq<GifShot>, boards: seq<Board>, trace: seq<Event>)

  function Processed(url: string, dir: string, vps: seq<Viewport>, env: GifBrowser, retryCount: int,
                     cats: seq<Category>, images: Path -> ImageState, measure: Measure,
                     names: map<string, string>, saves: Path -> bool): Outcome {
    var shots := Shots(url, vps, dir, env, retryCount);
    Outcome(shots,
            if shots == [] then [] else Collages(dir, cats, shots, images, measure, names, saves),
            Traces(url, vps, dir, env, retryCount, |vps|))
  }

  // ---------------------------------------------------------------------
  // Properties of a run

  /** Each kept record is the record of one of the viewports, exactly the
    * captures that returned one are kept, and no viewport contributes
    * more than one. */
  lemma ShotsAreRecords(url: string, vps: seq<Viewport>, dir: string, env: GifBrowser, retryCount: int)
    ensures var shots := Shots(url, vps, dir, env, retryCount);
      && |shots| <= |vps|
      && (forall s :: s in shots <==> Some(s) in Captures(url, vps, dir, env, retryCount))
      && (forall s :: s in shots ==> exists i :: 0 <= i < |vps| && s == Record(vps[i], dir))
  {
    var caps := Captures(url, vps, dir, env, retryCount);
    forall s
      ensures s in Present(caps) <==> Some(s) in caps
    {
      PresentMembers(caps, s);
    }
    forall s | s in Present(caps)
      ensures exists i :: 0 <= i < |vps| && s == Record(vps[i], dir)
    {
      var i :| 0 <= i < |caps| && caps[i] == Some(s);
      GifCaptureResult(url, vps[i], dir, env, retryCount);
    }
  }

  /** When every capture succeeds, the records are the viewports' records
    * in the viewports' order. */
  lemma AllCapturedInOrder(url: string, vps: seq<Viewport>, dir: string, env: GifBrowser, retryCount: int)
    requires forall i :: 0 <= i < |vps| ==> GifCapture.GifCapture(url, vps[i], dir, env, retryCount).0.Some?
    ensures Shots(url, vps, dir, env, retryCount) == seq(|vps|, i requires 0 <= i < |vps| => Record(vps[i], dir))
  {
    var caps := Captures(url, vps, dir, env, retryCount);
    PresentAll(caps);
    forall i | 0 <= i < |vps|
      ensures caps[i].value == Record(vps[i], dir)
    {
      GifCaptureResult(url, vps[i], dir, env, retryCount);
    }
  }

  /** Captures made one after another never have two browsers open at
    * once, and every browser is quit. */
  lemma {:induction false} TracesDisciplined(url: string, vps: seq<Viewport>, dir: string, env: GifBrowser, retryCount: int, n: nat)
    requires n <= |vps|
    ensures Disciplined(Traces(url, vps, dir, env, retryCount, n))
    ensures Count(Traces(url, vps, dir, env, retryCount, n), Open) == Count(Traces(url, vps, dir, env, retryCount, n), Quit)
  {
    var t := Traces(url, vps, dir, env, retryCount, n);
    if n > 0 {
      TracesDisciplined(url, vps, dir, env, retryCount, n - 1);
      GifCaptureDiscipline(url, vps[n - 1], dir, env, retryCount);
      RunAppend(false, Traces(url, vps, dir, env, retryCount, n - 1), GifCapture.GifCapture(url, vps[n - 1], dir, env, retryCount).1);
    }
    DisciplinedBalanced(t);
  }

  /** No viewport gets more than `retryCount` attempts, so the run as a
    * whole makes at most `n * retryCount`. */
  lemma {:induction false} TracesAttempts(url: string, vps: seq<Viewport>, dir: string, env: GifBrowser, retryCount: nat, n: nat)
    requires n <= |vps|
    ensures forall i :: 0 <= i < n ==> Count(GifCapture.GifCapture(url, vps[i], dir, env, retryCount).1, Attempt) <= retryCount
    ensures Count(Traces(url, vps, dir, env, retryCount, n), Attempt) <= n * retryCount
  {
    forall i | 0 <= i < n
      ensures Count(GifCapture.GifCapture(url, vps[i], dir, env, retryCount).1, Attempt) <= retryCount
    {
      GifCaptureDiscipline(url, vps[i], dir, env, retryCount);
    }
    if n > 0 {
      TracesAttempts(url, vps, dir, env, retryCount, n - 1);
      GifCaptureDiscipline(url, vps[n - 1], dir, env, retryCount);
      CountAppend(Traces(url, vps, dir, env, retryCount, n - 1), GifCapture.GifCapture(url, vps[n - 1], dir, env, retryCount).1, Attempt);
      assert n * retryCount == (n - 1) * retryCount + retryCount;
    }
  }

  /** Without any record no collage is drawn; with records, the collages
    * are those of the categories for those records. */
  lemma ProcessedBoards(url: string, dir: string, vps: seq<Viewport>, env: GifBrowser, retryCount: int,
                        cats: seq<Category>, images: Path -> ImageState, measure: Measure,
                        names: map<string, string>, saves: Path -> bool)
    ensures var o := Processed(url, dir, vps, env, retryCount, cats, images, measure, names, saves);
      && o.shots == Shots(url, vps, dir, env, retryCount)
      && o.boards == Collages(dir, cats, o.shots, images, measure, names, saves)
      && (o.shots == [] ==> o.boards == [])
  {
    NoShotsNoBoards(dir, cats, images, measure, names, saves);
  }

  // ---------------------------------------------------------------------
  // The run

  /** One pass of the collecting loop: capture a viewport and keep its
    * record if there is one. */
  method CaptureNext(url: string, vps: seq<Viewport>, dir: string, env: GifBrowser, retryCount: int, i: nat,
                     shots: seq<GifShot>, trace: seq<Event>)
    returns (shots': seq<GifShot>, trace': seq<Event>)
    requires i < |vps|
    requires shots == Present(Captures(url, vps, dir, env, retryCount)[..i])
    requires trace == Traces(url, vps, dir, env, retryCount, i)
    ensures shots' == Present(Captures(url, vps, dir, env, retryCount)[..i + 1])
    ensures trace' == Traces(url, vps, dir, env, retryCount, i + 1)
  {
    ghost var caps := Captures(url, vps, dir, env, retryCount);
    var r, t := CaptureScreenshot(url, vps[i], dir, env, retryCount);
    assert caps[..i + 1] == caps[..i] + [r];
    PresentAppend(caps[..i], [r]);
    assert Present([r]) == if r.Some? then [r.value] else [] by {
      assert [r][..0] == [];
    }
    shots' := if r.Some? then shots + [r.value] else shots;
    trace' := trace + t;
  }

  /** `process_website` with the given viewports, retry count, categories
    * and device names. */
  method ProcessWebsiteWith(url: string, dir: string, vps: seq<Viewport>, env: GifBrowser, retryCount: int,
                            cats: seq<Category>, images: Path -> ImageState, measure: Measure,
                            names: map<string, string>, saves: Path -> bool)
    returns (shots: seq<GifShot>, boards: seq<Board>, trace: seq<Event>)
    ensures Outcome(shots, boards, trace) == Processed(url, dir, vps, env, retryCount, cats, images, measure, names, saves)
  {
    ghost var caps := Captures(url, vps, dir, env, retryCount);
    shots, trace := [], [];
    var i := 0;
    assert caps[..0] == [];
    while i < |vps|
      invariant 0 <= i <= |vps|
      invariant shots == Present(caps[..i])
      invariant trace == Traces(url, vps, dir, env, retryCount, i)
    {
      shots, trace := CaptureNext(url, vps, dir, env, retryCount, i, shots, trace);
      i := i + 1;
    }
    assert caps[..i] == caps;
    if shots == [] {
      boards := [];
    } else {
      boards := CreateCategoryCollages(dir, cats, shots, images, measure, names, saves);
    }
  }

  /** `process_website` itself: all viewports, three attempts each, the
    * catalogue's categories and names. */
  method ProcessWebsite(url: string, dir: string, env: GifBrowser, images: Path -> ImageState,
                        measure: Measure, saves: Path -> bool)
    returns (shots: seq<GifShot>, boards: seq<Board>, trace: seq<Event>)
    ensures Outcome(shots, boards, trace) ==
      Processed(url, dir, VIEWPORTS, env, RETRY_COUNT, CATEGORIES, images, measure, DEVICE_NAMES, saves)
  {
    shots, boards, trace := ProcessWebsiteWith(url, dir, VIEWPORTS, env, RETRY_COUNT, CATEGORIES, images, measure, DEVICE_NAMES, saves);
  }
}
