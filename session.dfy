/** The per-viewport attempt/retry controller shared by both capture
  * variants, stated over an abstract trace of what a capture does with its
  * browser session: one `Attempt` per loop iteration, `Open` when
  * `webdriver.Chrome(...)` returns a driver, the driver calls of the
  * attempt, `Backoff` for the sleep between attempts and `Quit` for the
  * `driver.quit()` of the `finally` block. */
module Session {
  import opened Basics

  datatype Event =
    | Attempt
    | Open
    | Quit
    | Backoff(ms: nat)
    | SetPageLoadTimeout(seconds: nat)
    | SetScriptTimeout(seconds: nat)
    | SetWindow(width: int, height: int)
    | Emulate(width: int, height: int, dprQuarters: int, mobile: bool)
    | Navigate(url: string)
    | WaitForBody(seconds: nat)
    | WaitForLoad
    | Hydrate
    | GrabFrame
    | Scroll
    | Pause(ms: nat)
    | SaveScreenshot(path: Path)

  /** Events that happen while the attempt's driver is live: driver calls
    * and the sleeps between them. */
  predicate InSession(e: Event) {
    !(e.Attempt? || e.Open? || e.Quit? || e.Backoff?)
  }

  /** How often an event occurs in a trace. */
  function Count(t: seq<Event>, x: Event): nat
    decreases |t|
  {
    if t == [] then 0 else (if t[0] == x then 1 else 0) + Count(t[1..], x)
  }

  lemma {:induction false} CountAppend(a: seq<Event>, b: seq<Event>, x: Event)
    ensures Count(a + b, x) == Count(a, x) + Count(b, x)
    decreases |a|
  {
    if a == [] {
      assert a + b == b;
    } else {
      assert (a + b)[1..] == a[1..] + b;
      CountAppend(a[1..], b, x);
    }
  }

  lemma {:induction false} CountAbsent(t: seq<Event>, x: Event)
    requires x !in t
    ensures Count(t, x) == 0
    decreases |t|
  {
    if t != [] {
      CountAbsent(t[1..], x);
    }
  }

  // ---------------------------------------------------------------------
  // Driver ownership: a driver is opened only when none is live, every
  // driver call happens on a live driver, an attempt never starts while a
  // driver from the previous one is still live, and quit closes it.

  function Step(live: bool, e: Event): Option<bool> {
    match e
    case Attempt => if live then None else Some(false)
    case Open => if live then None else Some(true)
    case Quit => if live then Some(false) else None
    case Backoff(_) => Some(live)
    case _ => if live then Some(true) else None
  }

  /** None when the trace breaks the ownership rules, otherwise whether a
    * driver is live at its end. */
  function Run(live: bool, t: seq<Event>): Option<bool>
    decreases |t|
  {
    if t == [] then Some(live)
    else match Step(live, t[0])
      case None => None
      case Some(l) => Run(l, t[1..])
  }

  /** No two drivers are ever live at once, no call is made without one, and
    * none is left live: each driver opened is quit exactly once. */
  predicate Disciplined(t: seq<Event>) {
    Run(false, t) == Some(false)
  }

  lemma {:induction false} RunAppend(live: bool, a: seq<Event>, b: seq<Event>)
    ensures Run(live, a + b) == match Run(live, a) case None => None case Some(l) => Run(l, b)
    decreases |a|
  {
    if a != [] {
      assert (a + b)[0] == a[0];
      assert (a + b)[1..] == a[1..] + b;
      match Step(live, a[0])
      case None =>
      case Some(l) => RunAppend(l, a[1..], b);
    } else {
      assert a + b == b;
    }
  }

  /** Along a trace that keeps the rules, opens and quits balance up to the
    * driver live at each end. */
  lemma {:induction false} RunCounts(live: bool, t: seq<Event>, l: bool)
    requires Run(live, t) == Some(l)
    ensures Count(t, Open) + (if live then 1 else 0) == Count(t, Quit) + (if l then 1 else 0)
    decreases |t|
  {
    if t != [] {
      var l' :| Step(live, t[0]) == Some(l');
      RunCounts(l', t[1..], l);
    }
  }

  lemma DisciplinedBalanced(t: seq<Event>)
    requires Disciplined(t)
    ensures Count(t, Open) == Count(t, Quit)
  {
    RunCounts(false, t, false);
  }

  lemma {:induction false} CallsKeepLive(t: seq<Event>)
    requires forall i :: 0 <= i < |t| ==> InSession(t[i])
    ensures Run(true, t) == Some(true)
    decreases |t|
  {
    if t != [] {
      assert Step(true, t[0]) == Some(true);
      CallsKeepLive(t[1..]);
    }
  }

  // ---------------------------------------------------------------------
  // One attempt and the retry loop

  /** What the `except`/return logic does after an attempt: retry it, or
    * return this value from the capture. */
  datatype Decision<R> = Retry | Finish(result: Option<R>)

  /** The events of one attempt's `try` block, whether it holds a driver
    * when it leaves that block, and what happens next. */
  datatype End<R> = End(events: seq<Event>, driverOpen: bool, decision: Decision<R>)

  /** An attempt's events start with Open exactly when it holds a driver,
    * and otherwise consist of driver calls (none at all without a driver). */
  predicate WellFormedEnd<R>(e: End<R>) {
    if e.driverOpen then
      |e.events| >= 1 && e.events[0] == Open &&
      forall i :: 1 <= i < |e.events| ==> InSession(e.events[i])
    else
      e.events == []
  }

  /** The whole trace of one attempt: its events, the backoff sleep (if the
    * loop goes on) and then the `finally` quit (if a driver was created). */
  function AttemptTrace<R>(e: End<R>, backoff: seq<Event>): seq<Event> {
    [Attempt] + e.events + backoff + (if e.driverOpen then [Quit] else [])
  }

  /** `for attempt in range(k, n)` of the capture loop: the attempt ends are
    * `ends(attempt)`; a retried failure of the last attempt returns None. */
  function RetryFrom<R>(n: int, k: nat, ends: nat -> End<R>, backoffMs: nat): (Option<R>, seq<Event>)
    decreases n - k
  {
    if n <= k then
      (None, [])
    else
      var e := ends(k);
      match e.decision
      case Finish(r) => (r, AttemptTrace(e, []))
      case Retry =>
        if k == n - 1 then
          (None, AttemptTrace(e, []))
        else
          var rest := RetryFrom(n, k + 1, ends, backoffMs);
          (rest.0, AttemptTrace(e, [Backoff(backoffMs)]) + rest.1)
  }

  lemma WellFormedNoMarkers<R>(e: End<R>, ms: nat)
    requires WellFormedEnd(e)
    ensures Attempt !in e.events && Backoff(ms) !in e.events && Quit !in e.events
  {
    if e.driverOpen {
      forall i | 0 <= i < |e.events|
        ensures e.events[i] != Attempt && e.events[i] != Backoff(ms) && e.events[i] != Quit
      {
        if i >= 1 { assert InSession(e.events[i]); }
      }
    }
  }

  lemma AttemptTraceCounts<R>(e: End<R>, ms: nat, backoff: seq<Event>, rest: seq<Event>)
    requires WellFormedEnd(e)
    requires backoff == [] || backoff == [Backoff(ms)]
    ensures Count(AttemptTrace(e, backoff) + rest, Attempt) == 1 + Count(rest, Attempt)
    ensures Count(AttemptTrace(e, backoff) + rest, Backoff(ms)) == |backoff| + Count(rest, Backoff(ms))
  {
    WellFormedNoMarkers(e, ms);
    CountAbsent(e.events, Attempt);
    CountAbsent(e.events, Backoff(ms));
    var q: seq<Event> := if e.driverOpen then [Quit] else [];
    assert AttemptTrace(e, backoff) + rest == [Attempt] + (e.events + (backoff + (q + rest)));
    CountAppend([Attempt], e.events + (backoff + (q + rest)), Attempt);
    CountAppend([Attempt], e.events + (backoff + (q + rest)), Backoff(ms));
    CountAppend(e.events, backoff + (q + rest), Attempt);
    CountAppend(e.events, backoff + (q + rest), Backoff(ms));
    CountAppend(backoff, q + rest, Attempt);
    CountAppend(backoff, q + rest, Backoff(ms));
    CountAppend(q, rest, Attempt);
    CountAppend(q, rest, Backoff(ms));
  }

  /** One iteration of the loop, unfolded. */
  lemma RetryUnfold<R>(n: int, k: nat, ends: nat -> End<R>, ms: nat)
    requires k < n
    ensures ends(k).decision.Finish? ==>
      RetryFrom(n, k, ends, ms) == (ends(k).decision.result, AttemptTrace(ends(k), []))
    ensures ends(k).decision.Retry? && k == n - 1 ==>
      RetryFrom(n, k, ends, ms) == (None, AttemptTrace(ends(k), []))
    ensures ends(k).decision.Retry? && k < n - 1 ==>
      RetryFrom(n, k, ends, ms).0 == RetryFrom(n, k + 1, ends, ms).0 &&
      RetryFrom(n, k, ends, ms).1 == AttemptTrace(ends(k), [Backoff(ms)]) + RetryFrom(n, k + 1, ends, ms).1
  {
  }

  /** One turn of a retry loop that has emitted `trace` so far and still
    * owes `RetryFrom(n, k, ...)`: what it returns now, or what it owes after
    * sleeping and moving on to attempt k + 1. */
  lemma RetryStep<R>(n: int, k: nat, ends: nat -> End<R>, ms: nat, trace: seq<Event>, whole: (Option<R>, seq<Event>))
    requires k < n
    requires whole.0 == RetryFrom(n, k, ends, ms).0
    requires whole.1 == trace + RetryFrom(n, k, ends, ms).1
    ensures ends(k).decision.Finish? ==>
      whole == (ends(k).decision.result, trace + AttemptTrace(ends(k), []))
    ensures ends(k).decision.Retry? && k == n - 1 ==>
      whole == (None, trace + AttemptTrace(ends(k), []))
    ensures ends(k).decision.Retry? && k < n - 1 ==>
      whole.0 == RetryFrom(n, k + 1, ends, ms).0 &&
      whole.1 == (trace + AttemptTrace(ends(k), [Backoff(ms)])) + RetryFrom(n, k + 1, ends, ms).1
  {
    RetryUnfold(n, k, ends, ms);
    if ends(k).decision.Retry? && k < n - 1 {
      var rest := RetryFrom(n, k + 1, ends, ms).1;
      assert trace + (AttemptTrace(ends(k), [Backoff(ms)]) + rest) ==
             (trace + AttemptTrace(ends(k), [Backoff(ms)])) + rest;
    }
  }

  lemma AttemptTraceDisciplined<R>(e: End<R>, backoff: seq<Event>, ms: nat)
    requires WellFormedEnd(e)
    requires backoff == [] || backoff == [Backoff(ms)]
    ensures Disciplined(AttemptTrace(e, backoff))
  {
    var q: seq<Event> := if e.driverOpen then [Quit] else [];
    var t := AttemptTrace(e, backoff);
    assert t == [Attempt] + (e.events + (backoff + q));
    RunAppend(false, [Attempt], e.events + (backoff + q));
    RunAppend(false, e.events, backoff + q);
    if e.driverOpen {
      assert e.events == [Open] + e.events[1..];
      RunAppend(false, [Open], e.events[1..]);
      CallsKeepLive(e.events[1..]);
    }
    RunAppend(e.driverOpen, backoff, q);
  }

  /** At most `n - k` attempts are made, and one backoff sleep separates each
    * attempt from the next: none after the last attempt. No attempt is made
    * when `n <= k`. */
  lemma {:induction false} RetryCounts<R>(n: int, k: nat, ends: nat -> End<R>, ms: nat)
    requires forall j :: WellFormedEnd(ends(j))
    ensures var t := RetryFrom(n, k, ends, ms).1;
      && Count(t, Attempt) <= (if n <= k then 0 else n - k)
      && (n <= k ==> t == [] && RetryFrom(n, k, ends, ms).0 == None)
      && (n > k ==> Count(t, Backoff(ms)) + 1 == Count(t, Attempt))
    decreases n - k
  {
    if n > k {
      var e := ends(k);
      RetryUnfold(n, k, ends, ms);
      if e.decision.Retry? && k != n - 1 {
        RetryCounts(n, k + 1, ends, ms);
        AttemptTraceCounts(e, ms, [Backoff(ms)], RetryFrom(n, k + 1, ends, ms).1);
      } else {
        AttemptTraceCounts(e, ms, [], []);
        assert AttemptTrace(e, []) + [] == AttemptTrace(e, []);
      }
    }
  }

  /** Every driver the controller opens is quit exactly once, before the
    * next attempt starts and before the capture returns. */
  lemma {:induction false} RetryDisciplined<R>(n: int, k: nat, ends: nat -> End<R>, ms: nat)
    requires forall j :: WellFormedEnd(ends(j))
    ensures Disciplined(RetryFrom(n, k, ends, ms).1)
    decreases n - k
  {
    if n > k {
      var e := ends(k);
      RetryUnfold(n, k, ends, ms);
      if e.decision.Retry? && k != n - 1 {
        RetryDisciplined(n, k + 1, ends, ms);
        AttemptTraceDisciplined(e, [Backoff(ms)], ms);
        RunAppend(false, AttemptTrace(e, [Backoff(ms)]), RetryFrom(n, k + 1, ends, ms).1);
      } else {
        AttemptTraceDisciplined(e, [], ms);
      }
    }
  }

  /** When every remaining attempt fails in a retried way, all of them are
    * made and the capture returns None. */
  lemma {:induction false} RetryAllFail<R>(n: int, k: nat, ends: nat -> End<R>, ms: nat)
    requires forall j :: WellFormedEnd(ends(j))
    requires k <= n
    requires forall j :: k <= j < n ==> ends(j).decision.Retry?
    ensures RetryFrom(n, k, ends, ms).0 == None
    ensures Count(RetryFrom(n, k, ends, ms).1, Attempt) == n - k
    decreases n - k
  {
    if n > k {
      var e := ends(k);
      assert e.decision.Retry?;
      RetryUnfold(n, k, ends, ms);
      if k != n - 1 {
        RetryAllFail(n, k + 1, ends, ms);
        AttemptTraceCounts(e, ms, [Backoff(ms)], RetryFrom(n, k + 1, ends, ms).1);
      } else {
        AttemptTraceCounts(e, ms, [], []);
        assert AttemptTrace(e, []) + [] == AttemptTrace(e, []);
      }
    }
  }

  /** The first attempt that does not ask for a retry decides the result. */
  lemma {:induction false} RetryFirstFinish<R>(n: int, k: nat, m: nat, ends: nat -> End<R>, ms: nat)
    requires k <= m < n
    requires forall j :: k <= j < m ==> ends(j).decision.Retry?
    requires ends(m).decision.Finish?
    ensures RetryFrom(n, k, ends, ms).0 == ends(m).decision.result
    decreases m - k
  {
    if k < m {
      assert ends(k).decision.Retry?;
      RetryFirstFinish(n, k + 1, m, ends, ms);
    }
  }

  /** No attempt follows the first one that does not ask for a retry. */
  lemma {:induction false} RetryStopsAtFinish<R>(n: int, k: nat, m: nat, ends: nat -> End<R>, ms: nat)
    requires forall j :: WellFormedEnd(ends(j))
    requires k <= m < n
    requires forall j :: k <= j < m ==> ends(j).decision.Retry?
    requires ends(m).decision.Finish?
    ensures Count(RetryFrom(n, k, ends, ms).1, Attempt) == m - k + 1
    decreases m - k
  {
    var e := ends(k);
    RetryUnfold(n, k, ends, ms);
    if k == m {
      AttemptTraceCounts(e, ms, [], []);
      assert AttemptTrace(e, []) + [] == AttemptTrace(e, []);
    } else {
      assert e.decision.Retry? && k != n - 1;
      RetryStopsAtFinish(n, k + 1, m, ends, ms);
      AttemptTraceCounts(e, ms, [Backoff(ms)], RetryFrom(n, k + 1, ends, ms).1);
    }
  }

  /** A value is returned only if some attempt finished with it. */
  lemma {:induction false} RetryResultSource<R>(n: int, k: nat, ends: nat -> End<R>, ms: nat)
    requires RetryFrom(n, k, ends, ms).0.Some?
    ensures exists j :: k <= j < n && ends(j).decision == Finish(RetryFrom(n, k, ends, ms).0)
    decreases n - k
  {
    var e := ends(k);
    if e.decision.Retry? {
      RetryResultSource(n, k + 1, ends, ms);
    }
  }
}
