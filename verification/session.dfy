/**
  The capture session: the `running` guards of startMic, stopMic and the top
  of runLoop (app.js:111-138, 164-176). A session is two flags: whether the
  frame loop is meant to run, and whether an audio context (with its
  microphone stream) is held open. Acquisition is synchronous here: a start
  either is granted the microphone or is refused.
 */
module Session {

  datatype Session = Session(running: bool, resourcesOpen: bool)

  /** How the microphone request of a start ends. */
  datatype Acquire = Granted | Denied

  const Idle: Session := Session(false, false)

  /** The loop runs exactly while resources are held: nothing is open that
      no stop will ever close. */
  predicate Consistent(s: Session)
  {
    s.running == s.resourcesOpen
  }

  /** startMic as written: after the guard, the audio context is created
      before the microphone is requested, and the failure path only reports
      the error, so a refused start leaves the context open while `running`
      stays false. */
  function StartAsWritten(s: Session, outcome: Acquire): (r: Session)
    ensures s.running ==> r == s
    ensures !s.running ==> r.resourcesOpen
    ensures !s.running ==> (r.running <==> outcome == Granted)
  {
    if s.running then s
    else match outcome
      case Granted => Session(true, true)
      case Denied => Session(false, true)
  }

  /** stopMic: a no-op unless running; otherwise stop the tracks, close the
      context and clear the flag. */
  function Stop(s: Session): (r: Session)
    ensures !s.running ==> r == s
    ensures !r.running
    ensures s.running ==> r == Idle
  {
    if !s.running then s else Idle
  }

  /** A refused start from idle leaves an open context behind that the
      session's own stop cannot release, because stop returns early when not
      running. */
  lemma DeniedStartLeaksContext()
    ensures StartAsWritten(Idle, Denied) == Session(false, true)
    ensures !Consistent(StartAsWritten(Idle, Denied))
    ensures Stop(StartAsWritten(Idle, Denied)).resourcesOpen
  {
  }

  /** startMic with the failure path closing the context it created: a
      refused start leaves the session idle. */
  function Start(s: Session, outcome: Acquire): (r: Session)
    ensures s.running ==> r == s
    ensures !s.running ==> (r.running <==> outcome == Granted)
    ensures !s.running && outcome == Denied ==> r == Idle
    ensures Consistent(s) ==> Consistent(r)
  {
    if s.running then s
    else match outcome
      case Granted => Session(true, true)
      case Denied => Idle
  }

  /** The events the page reacts to: a start (and how its microphone
      request ends), a stop, and the firing of the frame callback. */
  datatype Event = StartRequest(outcome: Acquire) | StopRequest | FrameCallback

  /** The session plus whether a frame callback is pending. */
  datatype Page = Page(session: Session, armed: bool)

  const Initial: Page := Page(Idle, false)

  /** One event, with the corrected start (Session.Start). A granted start
      from a stopped session runs the loop once at once, which draws a frame
      and requests the next one. A stop clears `running` but leaves a pending
      callback pending. The callback, when pending, checks `running` first and
      requests another frame only if it is still set. */
  function Step(pg: Page, e: Event): (r: Page)
    ensures e.StartRequest? ==> r.session == Start(pg.session, e.outcome)
    ensures e.StartRequest? && !pg.session.running && e.outcome == Granted ==> r.armed
    ensures e.StartRequest? && (pg.session.running || e.outcome == Denied) ==> r.armed == pg.armed
    ensures e.StopRequest? ==> r.session == Stop(pg.session) && r.armed == pg.armed
    ensures e.FrameCallback? ==> r.session == pg.session
    ensures e.FrameCallback? && pg.armed ==> (r.armed <==> pg.session.running)
    ensures e.FrameCallback? && !pg.armed ==> r == pg
  {
    match e
    case StartRequest(outcome) =>
      var s := Start(pg.session, outcome);
      if s.running && !pg.session.running then Page(s, true) else Page(s, pg.armed)
    case StopRequest => Page(Stop(pg.session), pg.armed)
    case FrameCallback =>
      if pg.armed then Page(pg.session, pg.session.running) else pg
  }

  /** Whether the event draws a frame: a granted start from a stopped
      session, or a pending callback that finds the session running. */
  function Draws(pg: Page, e: Event): bool
  {
    match e
    case StartRequest(outcome) => !pg.session.running && outcome == Granted
    case StopRequest => false
    case FrameCallback => pg.armed && pg.session.running
  }

  function Run(pg: Page, es: seq<Event>): Page
  {
    if |es| == 0 then pg else Step(Run(pg, es[..|es| - 1]), es[|es| - 1])
  }

  /** While the session runs, a frame callback is always pending, and
      resources are held exactly while it runs. The second fact relies on the
      corrected start; StartAsWritten breaks it (DeniedStartLeaksContext). */
  predicate Healthy(pg: Page)
  {
    Consistent(pg.session) && (pg.session.running ==> pg.armed)
  }

  lemma StepKeepsHealthy(pg: Page, e: Event)
    requires Healthy(pg)
    ensures Healthy(Step(pg, e))
  {
  }

  /** Every sequence of events from the initial page, with the corrected
      start, keeps it healthy: the loop never stalls while running and no
      context outlives the session. */
  lemma {:induction false} RunKeepsHealthy(es: seq<Event>)
    ensures Healthy(Run(Initial, es))
  {
    if |es| > 0 {
      RunKeepsHealthy(es[..|es| - 1]);
      StepKeepsHealthy(Run(Initial, es[..|es| - 1]), es[|es| - 1]);
    }
  }

  /** A start while running and a stop while stopped change nothing. */
  lemma RepeatedRequestsAreNoOps(pg: Page, outcome: Acquire)
    ensures pg.session.running ==> Step(pg, StartRequest(outcome)) == pg
    ensures !pg.session.running ==> Step(pg, StopRequest) == pg
  {
  }

  /** A pending callback that finds the session stopped draws nothing and
      requests no further frame. */
  lemma StoppedCallbackSchedulesNothing(pg: Page)
    requires !pg.session.running
    ensures !Draws(pg, FrameCallback)
    ensures !Step(pg, FrameCallback).armed
    ensures Step(pg, FrameCallback).session == pg.session
  {
  }

  /** Only frame callbacks after a stop: none of them draws, and after the
      first one none is pending. */
  lemma {:induction false} NoFramesAfterStop(pg: Page, n: nat)
    ensures var stopped := Step(pg, StopRequest);
            forall k: nat :: !Draws(Run(stopped, Callbacks(k)), FrameCallback)
    ensures n > 0 ==> !Run(Step(pg, StopRequest), Callbacks(n)).armed
  {
    var stopped := Step(pg, StopRequest);
    forall k: nat
      ensures !Draws(Run(stopped, Callbacks(k)), FrameCallback)
    {
      CallbacksKeepStopped(stopped, k);
    }
    if n > 0 {
      CallbacksKeepStopped(stopped, n - 1);
      assert Callbacks(n)[..n - 1] == Callbacks(n - 1);
    }
  }

  function Callbacks(n: nat): (es: seq<Event>)
    ensures |es| == n
    ensures forall i :: 0 <= i < n ==> es[i] == FrameCallback
  {
    seq(n, _ => FrameCallback)
  }

  /** Frame callbacks alone never restart a stopped session. */
  lemma {:induction false} CallbacksKeepStopped(pg: Page, n: nat)
    requires !pg.session.running
    ensures Run(pg, Callbacks(n)).session == pg.session
  {
    if n > 0 {
      assert Callbacks(n)[..n - 1] == Callbacks(n - 1);
      CallbacksKeepStopped(pg, n - 1);
    }
  }
}
