/**
 * The pure rules behind `Casty` and `CastyPlayer`: which host notifications an event produces and
 * who hears them, how a cached session is reconciled with the session manager's current one, what
 * each session-manager and activity event decides, and which command a playback request issues.
 * The classes in module Casty are specified in terms of these functions; the lemmas here carry the
 * properties over whole sequences of events.
 */
module CastySpec {
  import opened Options
  import opened Platform

  /**
   * A host notification. `SessionUpdated` goes to the `OnCastSessionUpdatedListener`, every other
   * one to the `OnConnectChangeListener`.
   */
  datatype HostEvent =
    | Connecting
    | Connected
    | Disconnected(code: int)
    | StartFailed(code: int)
    | SessionUpdated(session: CastSession?)
    | MediaLoaded

  /**
   * A notification as the host receives it, together with what the host can observe when it is
   * called: the session `Casty` holds (so `isConnected()`) and the remote client of the player.
   */
  datatype Notice = Notice(event: HostEvent, session: CastSession?, handle: RemoteMediaClient?)

  /** Whether `e` reaches the host: the listener it is addressed to is set. */
  predicate Reaches(e: HostEvent, hasConnectListener: bool, hasSessionUpdatedListener: bool) {
    if e.SessionUpdated? then hasSessionUpdatedListener else hasConnectListener
  }

  /**
   * The notices the host receives when `events` are raised in order with `session` and `handle`
   * observable: the events whose listener is set, in the order raised, each stamped.
   */
  function Deliver(
    events: seq<HostEvent>, hasConnectListener: bool, hasSessionUpdatedListener: bool,
    session: CastSession?, handle: RemoteMediaClient?): seq<Notice>
  {
    if events == [] then []
    else
      (if Reaches(events[0], hasConnectListener, hasSessionUpdatedListener)
       then [Notice(events[0], session, handle)] else [])
      + Deliver(events[1..], hasConnectListener, hasSessionUpdatedListener, session, handle)
  }

  /**
   * The host hears nothing beyond what was raised: no more notices than events, each one a raised
   * event its listeners reach, stamped with the state at the time of raising.
   */
  lemma {:induction false} DeliverSound(
    events: seq<HostEvent>, hasConnectListener: bool, hasSessionUpdatedListener: bool,
    session: CastSession?, handle: RemoteMediaClient?)
    ensures var r := Deliver(events, hasConnectListener, hasSessionUpdatedListener, session, handle);
      && |r| <= |events|
      && forall i | 0 <= i < |r| ::
          && r[i].session == session && r[i].handle == handle
          && r[i].event in events
          && Reaches(r[i].event, hasConnectListener, hasSessionUpdatedListener)
  {
    if events != [] {
      var tail := events[1..];
      DeliverSound(tail, hasConnectListener, hasSessionUpdatedListener, session, handle);
      var rest := Deliver(tail, hasConnectListener, hasSessionUpdatedListener, session, handle);
      var head := if Reaches(events[0], hasConnectListener, hasSessionUpdatedListener)
                  then [Notice(events[0], session, handle)] else [];
      var r := head + rest;
      assert r == Deliver(events, hasConnectListener, hasSessionUpdatedListener, session, handle);
      forall i | 0 <= i < |r|
        ensures r[i].session == session && r[i].handle == handle
        ensures r[i].event in events && Reaches(r[i].event, hasConnectListener, hasSessionUpdatedListener)
      {
        if i < |head| {
          assert r[i] == Notice(events[0], session, handle);
        } else {
          assert r[i] == rest[i - |head|];
          var e := rest[i - |head|].event;
          assert e in tail;
          var k :| 0 <= k < |tail| && tail[k] == e;
          assert events[k + 1] == e;
        }
      }
    }
  }

  /** The host hears every raised event its listeners reach, stamped with the state at the time of raising. */
  lemma {:induction false} DeliverComplete(
    events: seq<HostEvent>, hasConnectListener: bool, hasSessionUpdatedListener: bool,
    session: CastSession?, handle: RemoteMediaClient?)
    ensures forall i | 0 <= i < |events| && Reaches(events[i], hasConnectListener, hasSessionUpdatedListener) ::
      Notice(events[i], session, handle) in Deliver(events, hasConnectListener, hasSessionUpdatedListener, session, handle)
  {
    if events != [] {
      var tail := events[1..];
      DeliverComplete(tail, hasConnectListener, hasSessionUpdatedListener, session, handle);
      var rest := Deliver(tail, hasConnectListener, hasSessionUpdatedListener, session, handle);
      var head := if Reaches(events[0], hasConnectListener, hasSessionUpdatedListener)
                  then [Notice(events[0], session, handle)] else [];
      var r := head + rest;
      assert r == Deliver(events, hasConnectListener, hasSessionUpdatedListener, session, handle);
      forall i | 0 <= i < |events| && Reaches(events[i], hasConnectListener, hasSessionUpdatedListener)
        ensures Notice(events[i], session, handle) in r
      {
        if i == 0 {
          assert r[0] == Notice(events[0], session, handle);
        } else {
          assert events[i] == tail[i - 1];
          var n := Notice(events[i], session, handle);
          assert n in rest;
          var j :| 0 <= j < |rest| && rest[j] == n;
          assert r[|head| + j] == n;
        }
      }
    }
  }

  /** Raising events one batch after another delivers them in that same order. */
  lemma {:induction false} DeliverAppend(
    xs: seq<HostEvent>, ys: seq<HostEvent>, hasConnectListener: bool, hasSessionUpdatedListener: bool,
    session: CastSession?, handle: RemoteMediaClient?)
    ensures Deliver(xs + ys, hasConnectListener, hasSessionUpdatedListener, session, handle)
         == Deliver(xs, hasConnectListener, hasSessionUpdatedListener, session, handle)
          + Deliver(ys, hasConnectListener, hasSessionUpdatedListener, session, handle)
  {
    if xs == [] {
      assert xs + ys == ys;
    } else {
      assert (xs + ys)[0] == xs[0];
      assert (xs + ys)[1..] == xs[1..] + ys;
      DeliverAppend(xs[1..], ys, hasConnectListener, hasSessionUpdatedListener, session, handle);
    }
  }

  /** What `onConnected(s)` raises: first "connected", then the new session. */
  function ConnectedEvents(s: CastSession): seq<HostEvent> {
    [Connected, SessionUpdated(s)]
  }

  /** What `onDisconnected(code)` raises: first "disconnected", then the absence of a session. */
  function DisconnectedEvents(code: int): seq<HostEvent> {
    [Disconnected(code), SessionUpdated(null)]
  }

  /** Whether progress reporting may be (un)registered: a positive period and a session with a client. */
  predicate ProgressGuard(period: int, s: CastSession?) {
    period > 0 && s != null && s.client != null
  }

  /** The outcome of comparing the cached session with the session manager's current one. */
  datatype Reconciliation = Attach(session: CastSession) | Detach | Keep

  /**
   * `handleCurrentCastSession`: sessions are compared by reference. Afterwards the cached session
   * is the current one in every case; a different current session is attached directly, without
   * detaching the old one first.
   */
  function Reconcile(cached: CastSession?, current: CastSession?): (r: Reconciliation)
    ensures r.Keep? <==> cached == current
    ensures r.Detach? <==> cached != null && current == null
    ensures r.Attach? <==> current != null && current != cached
    ensures r.Attach? ==> r.session == current
  {
    if cached == null then
      if current != null then Attach(current) else Keep
    else if current == null then Detach
    else if current != cached then Attach(current)
    else Keep
  }

  /** The host events a reconciliation raises. */
  function ReconcileEvents(cached: CastSession?, current: CastSession?): (r: seq<HostEvent>)
    ensures cached == current ==> r == []
    ensures cached == null && current != null ==> r == [Connected, SessionUpdated(current)]
    ensures cached != null && current == null ==> r == [Disconnected(-1), SessionUpdated(null)]
    ensures cached != null && current != null ==> forall i | 0 <= i < |r| :: !r[i].Disconnected?
    ensures current != null && cached != current ==> r == [Connected, SessionUpdated(current)]
  {
    match Reconcile(cached, current)
    case Attach(s) => ConnectedEvents(s)
    case Detach => DisconnectedEvents(-1)
    case Keep => []
  }

  /** The callbacks of the session-manager listener, as one tagged event. */
  datatype SessionEvent =
    | SessionStarting(session: CastSession)
    | SessionStarted(session: CastSession, sessionId: string)
    | SessionStartFailed(session: CastSession, error: int)
    | SessionEnding(session: CastSession)
    | SessionEnded(session: CastSession, error: int)
    | SessionResuming(session: CastSession, sessionId: string)
    | SessionResumed(session: CastSession, wasSuspended: bool)
    | SessionResumeFailed(session: CastSession, error: int)
    | SessionSuspended(session: CastSession, reason: int)

  /** The session an event attaches, if it attaches one (started and resumed). */
  function AttachedBy(e: SessionEvent): CastSession? {
    if e.SessionStarted? || e.SessionResumed? then e.session else null
  }

  /** What an event decides about the cached session: a new one, none at all, or nothing. */
  function SessionDecision(e: SessionEvent): Option<CastSession?> {
    match e
    case SessionStarted(s, _) => Some(s)
    case SessionResumed(s, _) => Some(s)
    case SessionEnded(_, _) => Some(null)
    case _ => None
  }

  /** The callbacks of the activity-lifecycle listener, as one tagged event. */
  datatype LifecycleEvent =
    | ActivityCreated(activity: Activity)
    | ActivityStarted(activity: Activity)
    | ActivityResumed(activity: Activity, current: CastSession?)
    | ActivityPaused(activity: Activity)
    | ActivityStopped(activity: Activity)
    | ActivitySaveInstanceState(activity: Activity)
    | ActivityDestroyed(activity: Activity)

  /**
   * What an event decides about the session-manager listener of a `Casty` bound to `bound`:
   * resuming that activity registers it, pausing it unregisters it, nothing else touches it.
   */
  function ListenerDecision(bound: Activity, e: LifecycleEvent): Option<bool> {
    if e.activity != bound then None
    else if e.ActivityResumed? then Some(true)
    else if e.ActivityPaused? then Some(false)
    else None
  }

  /** The state after applying, in order, the events of `es` to `s`, each deciding a new state or not. */
  function Run<S, E>(decide: E -> Option<S>, s: S, es: seq<E>): S {
    if es == [] then s else Run(decide, decide(es[0]).GetOr(s), es[1..])
  }

  /** The decision of the last event of `es` that decides something, if any. */
  function LastDecision<S, E>(decide: E -> Option<S>, es: seq<E>): (r: Option<S>)
    ensures r.Some? ==> exists i | 0 <= i < |es| ::
      decide(es[i]) == r && forall j | i < j < |es| :: decide(es[j]).None?
    ensures r.None? ==> forall i | 0 <= i < |es| :: decide(es[i]).None?
  {
    if es == [] then None
    else if decide(es[|es| - 1]).Some? then decide(es[|es| - 1])
    else LastDecision(decide, es[..|es| - 1])
  }

  lemma {:induction false} RunSnoc<S, E>(decide: E -> Option<S>, s: S, es: seq<E>, e: E)
    ensures Run(decide, s, es + [e]) == decide(e).GetOr(Run(decide, s, es))
    decreases |es|
  {
    if es != [] {
      assert (es + [e])[1..] == es[1..] + [e];
      RunSnoc(decide, decide(es[0]).GetOr(s), es[1..], e);
    }
  }

  /** Whatever happened before, the last deciding event determines the state; none leaves it as it was. */
  lemma {:induction false} LastDecisionWins<S, E>(decide: E -> Option<S>, s: S, es: seq<E>)
    ensures Run(decide, s, es) == LastDecision(decide, es).GetOr(s)
    decreases |es|
  {
    if es != [] {
      var init, last := es[..|es| - 1], es[|es| - 1];
      assert es == init + [last];
      RunSnoc(decide, s, init, last);
      LastDecisionWins(decide, s, init);
    }
  }

  /** Whether the bound activity is in its active window at the end of `es`: every pause was later followed by a resume. */
  ghost predicate InActiveWindow(bound: Activity, es: seq<LifecycleEvent>) {
    forall i | 0 <= i < |es| && es[i] == ActivityPaused(bound) ::
      exists j | i < j < |es| :: es[j].ActivityResumed? && es[j].activity == bound
  }

  /** A resume of the bound activity closes every pause before it. */
  lemma ActiveAfterResume(bound: Activity, init: seq<LifecycleEvent>, last: LifecycleEvent)
    requires last.ActivityResumed? && last.activity == bound
    ensures InActiveWindow(bound, init + [last])
  {
    var es := init + [last];
    forall i | 0 <= i < |es| && es[i] == ActivityPaused(bound)
      ensures exists j | i < j < |es| :: es[j].ActivityResumed? && es[j].activity == bound
    {
      assert es[|es| - 1] == last;
    }
  }

  /** A pause of the bound activity, not yet followed by a resume, leaves the window. */
  lemma InactiveAfterPause(bound: Activity, init: seq<LifecycleEvent>)
    ensures !InActiveWindow(bound, init + [ActivityPaused(bound)])
  {
    var es := init + [ActivityPaused(bound)];
    assert es[|es| - 1] == ActivityPaused(bound);
  }

  /** Any other event leaves the window as it was. */
  lemma ActiveUnchanged(bound: Activity, init: seq<LifecycleEvent>, last: LifecycleEvent)
    requires !(last.ActivityResumed? && last.activity == bound) && last != ActivityPaused(bound)
    ensures InActiveWindow(bound, init + [last]) <==> InActiveWindow(bound, init)
  {
    var es := init + [last];
    if InActiveWindow(bound, init) {
      forall i | 0 <= i < |es| && es[i] == ActivityPaused(bound)
        ensures exists j | i < j < |es| :: es[j].ActivityResumed? && es[j].activity == bound
      {
        assert i < |init| && init[i] == es[i];
        var j :| i < j < |init| && init[j].ActivityResumed? && init[j].activity == bound;
        assert es[j] == init[j];
      }
    }
    if InActiveWindow(bound, es) {
      forall i | 0 <= i < |init| && init[i] == ActivityPaused(bound)
        ensures exists j | i < j < |init| :: init[j].ActivityResumed? && init[j].activity == bound
      {
        assert es[i] == init[i];
        var j :| i < j < |es| && es[j].ActivityResumed? && es[j].activity == bound;
        assert j < |init| && init[j] == es[j];
      }
    }
  }

  /**
   * The session-manager listener, registered when `Casty` is created, is registered after any
   * sequence of lifecycle events exactly when the bound activity is in its active window.
   */
  lemma {:induction false} ListenerRegisteredInActiveWindow(bound: Activity, es: seq<LifecycleEvent>)
    ensures Run(e => ListenerDecision(bound, e), true, es) <==> InActiveWindow(bound, es)
    decreases |es|
  {
    var decide := e => ListenerDecision(bound, e);
    LastDecisionWins(decide, true, es);
    if es != [] {
      var init, last := es[..|es| - 1], es[|es| - 1];
      assert es == init + [last];
      LastDecisionWins(decide, true, init);
      if last.ActivityResumed? && last.activity == bound {
        ActiveAfterResume(bound, init, last);
      } else if last == ActivityPaused(bound) {
        InactiveAfterPause(bound, init);
      } else {
        assert decide(last).None?;
        ListenerRegisteredInActiveWindow(bound, init);
        ActiveUnchanged(bound, init, last);
      }
    }
  }

  /** A playback request to `CastyPlayer`. */
  datatype PlaybackRequest = PlayRequest | PauseRequest | SeekRequest(time: int) | ToggleRequest

  /**
   * The commands a request issues to an attached client whose status is `state`: play only from
   * paused, pause only from playing, a seek always and with its time unchanged, a toggle the
   * opposite of the current status and nothing while buffering or idle.
   */
  function Issued(request: PlaybackRequest, state: PlayerState): (r: seq<Command>)
    ensures |r| <= 1
    ensures PlayCmd in r <==> (request == PlayRequest || request == ToggleRequest) && state == Paused
    ensures PauseCmd in r <==> (request == PauseRequest || request == ToggleRequest) && state == Playing
    ensures request.SeekRequest? ==> r == [SeekCmd(request.time)]
    ensures forall c | c in r :: !c.LoadCmd? && (c.SeekCmd? ==> request.SeekRequest?)
  {
    match request
    case PlayRequest => if state == Paused then [PlayCmd] else []
    case PauseRequest => if state == Playing then [PauseCmd] else []
    case SeekRequest(time) => [SeekCmd(time)]
    case ToggleRequest =>
      if state == Playing then [PauseCmd] else if state == Paused then [PlayCmd] else []
  }

  /** Toggling is pausing followed by playing: a command does not change the status the client reports. */
  lemma ToggleIsPauseThenPlay(state: PlayerState)
    ensures Issued(ToggleRequest, state) == Issued(PauseRequest, state) + Issued(PlayRequest, state)
  {
  }
}
