/**
 * The two classes that keep a host activity in step with the Cast session manager: `Casty`, which
 * follows session and activity events and notifies the host, and `CastyPlayer`, which issues
 * guarded playback commands to the remote client `Casty` hands it. They refer to each other (the
 * player reports "media loaded" back to `Casty`), so they share one module.
 */
module Casty {
  import opened Options
  import opened Platform
  import opened Media
  import opened CastySpec

  /** The six methods of the load callback, as one tagged update. */
  datatype CallbackUpdate =
    | StatusUpdated
    | MetadataUpdated
    | QueueStatusUpdated
    | PreloadStatusUpdated
    | SendingRemoteMediaRequest
    | AdBreakStatusUpdated

  /**
   * Playback control over the remote client of the attached session. Every command is a no-op
   * while no client is attached.
   */
  class CastyPlayer {
    var client: RemoteMediaClient?
    /** The `OnMediaLoadedListener` told when a foreground load completes. */
    var listener: Casty?

    constructor ()
      ensures client == null && listener == null
    {
      client := null;
      listener := null;
    }

    /** The attached client as a frame. */
    function Attached(): set<RemoteMediaClient>
      reads this
    {
      if client != null then {client} else {}
    }

    /** The listener as a frame. */
    function Listeners(): set<Casty>
      reads this
    {
      if listener != null then {listener} else {}
    }

    method SetRemoteMediaClient(c: RemoteMediaClient?)
      modifies this`client
      ensures client == c
    {
      client := c;
    }

    method IsPlaying() returns (r: bool)
      ensures r <==> client != null && client.state == Playing
    {
      r := client != null && client.state == Playing;
    }

    method IsPaused() returns (r: bool)
      ensures r <==> client != null && client.state == Paused
    {
      r := client != null && client.state == Paused;
    }

    method IsBuffering() returns (r: bool)
      ensures r <==> client != null && client.state == Buffering
    {
      r := client != null && client.state == Buffering;
    }

    /** Plays only if the attached client reports paused. */
    method Play()
      modifies Attached()`commands
      ensures client != null ==> client.commands == old(client.commands) + Issued(PlayRequest, client.state)
    {
      var paused := IsPaused();
      if paused {
        client.Play();
      }
    }

    /** Pauses only if the attached client reports playing. */
    method Pause()
      modifies Attached()`commands
      ensures client != null ==> client.commands == old(client.commands) + Issued(PauseRequest, client.state)
    {
      var playing := IsPlaying();
      if playing {
        client.Pause();
      }
    }

    /** Seeks to `time` whatever the status; no bounds are checked. */
    method Seek(time: int)
      modifies Attached()`commands
      ensures client != null ==> client.commands == old(client.commands) + Issued(SeekRequest(time), client.state)
    {
      if client != null {
        client.Seek(time);
      }
    }

    /** Pauses when playing, plays when paused, does nothing otherwise. */
    method TogglePlayPause()
      modifies Attached()`commands
      ensures client != null ==> client.commands == old(client.commands) + Issued(ToggleRequest, client.state)
    {
      if client != null {
        if client.state == Playing {
          client.Pause();
        } else if client.state == Paused {
          client.Play();
        }
      }
    }

    /**
     * The outcome of a load: it succeeds exactly when a client is attached; then one load command
     * with the given options is issued and, in the foreground, exactly one fresh callback is
     * appended to the client's callbacks; otherwise nothing changes.
     */
    twostate predicate Loaded(info: MediaInfo, autoPlay: bool, position: int, inBackground: bool, ok: bool)
      reads this, Attached()
    {
      && client == old(client)
      && (ok <==> client != null)
      && (client != null ==>
          && client.commands == old(client.commands) + [LoadCmd(info, autoPlay, position)]
          && if inBackground then client.callbacks == old(client.callbacks)
             else
               && |client.callbacks| == |old(client.callbacks)| + 1
               && client.callbacks[..|old(client.callbacks)|] == old(client.callbacks)
               && fresh(client.callbacks[|old(client.callbacks)|]))
    }

    /** `playMediaBaseMethod`: the callback, when there is one, is registered before the load is issued. */
    method PlayMediaBase(info: MediaInfo, autoPlay: bool, position: int, inBackground: bool) returns (ok: bool)
      modifies Attached()`callbacks, Attached()`commands
      ensures Loaded(info, autoPlay, position, inBackground, ok)
    {
      if client == null {
        return false;
      }
      if !inBackground {
        var cb := new Callback();
        client.RegisterCallback(cb);
      }
      client.Load(info, autoPlay, position);
      return true;
    }

    method LoadMediaAndPlay(info: MediaInfo, autoPlay: bool, position: int) returns (ok: bool)
      modifies Attached()`callbacks, Attached()`commands
      ensures Loaded(info, autoPlay, position, false, ok)
    {
      ok := PlayMediaBase(info, autoPlay, position, false);
    }

    /** Loads with autoplay on, from the start. */
    method LoadMediaInfoAndPlay(info: MediaInfo) returns (ok: bool)
      modifies Attached()`callbacks, Attached()`commands
      ensures Loaded(info, true, 0, false, ok)
    {
      ok := LoadMediaAndPlay(info, true, 0);
    }

    /** Loads the descriptor of `data` with its own autoplay flag and start position. */
    method LoadMediaDataAndPlay(data: MediaData) returns (ok: bool)
      modifies Attached()`callbacks, Attached()`commands
      ensures Loaded(data.CreateMediaInfo(), data.autoPlay, data.position, false, ok)
    {
      ok := LoadMediaAndPlay(data.CreateMediaInfo(), data.autoPlay, data.position);
    }

    method LoadMediaAndPlayInBackground(info: MediaInfo, autoPlay: bool, position: int) returns (ok: bool)
      modifies Attached()`callbacks, Attached()`commands
      ensures Loaded(info, autoPlay, position, true, ok)
    {
      ok := PlayMediaBase(info, autoPlay, position, true);
    }

    method LoadMediaInfoAndPlayInBackground(info: MediaInfo) returns (ok: bool)
      modifies Attached()`callbacks, Attached()`commands
      ensures Loaded(info, true, 0, true, ok)
    {
      ok := LoadMediaAndPlayInBackground(info, true, 0);
    }

    method LoadMediaDataAndPlayInBackground(data: MediaData) returns (ok: bool)
      modifies Attached()`callbacks, Attached()`commands
      ensures Loaded(data.CreateMediaInfo(), data.autoPlay, data.position, true, ok)
    {
      ok := LoadMediaAndPlayInBackground(data.CreateMediaInfo(), data.autoPlay, data.position);
    }

    /**
     * The load callback `cb` created by this player receives `update`. A status update tells the
     * listener the media is loaded and then removes `cb` from the player's current client; the
     * other five updates do nothing. The removal is from the client attached now, which need not
     * be the one `cb` was registered with, so `cb` can stay registered elsewhere and fire again.
     * When no client is attached any more, the removal dereferences null: the host has already
     * heard "media loaded" and the callback ends by throwing (`threw`), removing nothing.
     */
    method OnCallback(cb: Callback, update: CallbackUpdate) returns (threw: bool)
      requires update == StatusUpdated ==> listener != null && listener.hasConnectListener
      modifies Listeners()`notices, Attached()`callbacks
      ensures threw <==> update == StatusUpdated && client == null
      ensures update == StatusUpdated ==>
        listener.notices == old(listener.notices) + [Notice(MediaLoaded, listener.castSession, listener.player.client)]
      ensures update == StatusUpdated && client != null ==>
        client.callbacks == Remove(old(client.callbacks), cb) && cb !in client.callbacks
      ensures update != StatusUpdated ==> unchanged(Listeners()`notices, Attached()`callbacks)
    {
      threw := false;
      if update == StatusUpdated {
        listener.OnMediaLoaded();
        if client == null {
          threw := true;
        } else {
          client.UnregisterCallback(cb);
        }
      }
    }
  }

  /** A load descriptor with nothing in it but its url. */
  function PlainInfo(url: string): MediaInfo {
    MediaInfo(url, STREAM_TYPE_BUFFERED, None, UNKNOWN_DURATION, MediaMetadata(MEDIA_TYPE_GENERIC, map[], []), [])
  }

  /**
   * A coordinator created while a session with client `a` is current, on which one foreground load
   * has been issued: its callback `cb` is the only one registered with `a`.
   */
  method PendingLoad() returns (c: Casty, a: RemoteMediaClient, cb: Callback)
    ensures fresh(c) && fresh(c.player) && fresh(a) && c.castSession != null && c.castSession.client == a
    ensures c.player.client == a && c.player.listener == c && c.hasConnectListener && a.callbacks == [cb]
  {
    a := new RemoteMediaClient(Idle);
    var first := new CastSession(a);
    var activity := new Activity();
    c := new Casty(activity, true, first);
    var player := c.GetPlayer();
    var ok := player.LoadMediaInfoAndPlay(PlainInfo("movie"));
    cb := a.callbacks[0];
  }

  /**
   * With a load pending on client `a`, a new session with another client starts: the player now
   * commands that client, while the callback is still registered on `a`.
   */
  method SwitchedAway() returns (c: Casty, a: RemoteMediaClient, cb: Callback)
    ensures fresh(c) && fresh(c.player) && fresh(c.player.client)
    ensures c.player.client != null && c.player.client != a && a.callbacks == [cb]
    ensures c.player.listener == c && c.hasConnectListener
  {
    c, a, cb := PendingLoad();
    var b := new RemoteMediaClient(Idle);
    var second := new CastSession(b);
    c.OnSessionEvent(SessionStarted(second, "second"));
  }

  /**
   * After the switch, the load callback receives two status updates: it only ever removes itself
   * from the player's current client, so it stays registered on `a`, and the host hears "media
   * loaded" twice.
   */
  method StaleCallbackFiresTwice() returns (c: Casty, a: RemoteMediaClient, cb: Callback)
    ensures cb in a.callbacks && c.player.client != a
    ensures |c.notices| >= 2
    ensures c.notices[|c.notices| - 2].event == MediaLoaded && c.notices[|c.notices| - 1].event == MediaLoaded
  {
    c, a, cb := SwitchedAway();
    var threw := c.player.OnCallback(cb, StatusUpdated);
    threw := c.player.OnCallback(cb, StatusUpdated);
  }

  /**
   * With a load pending on client `a`, a new session without a client starts: the player has no
   * client left, so the callback's status update lets the host hear "media loaded" and then
   * throws, leaving the callback registered on `a`.
   */
  method CallbackAfterClientLost() returns (c: Casty, a: RemoteMediaClient, cb: Callback, threw: bool)
    ensures threw && c.player.client == null && cb in a.callbacks
    ensures c.notices != [] && c.notices[|c.notices| - 1] == Notice(MediaLoaded, c.castSession, null)
  {
    c, a, cb := PendingLoad();
    var second := new CastSession(null);
    c.OnSessionEvent(SessionStarted(second, "second"));
    threw := c.player.OnCallback(cb, StatusUpdated);
  }

  /**
   * The coordinator bound to one activity: the session it holds, the period of progress
   * reporting (0 disables it), which host listeners are set, whether its session-manager and
   * activity-lifecycle listeners are registered, and every notification the host has received.
   */
  class Casty {
    const activity: Activity
    const player: CastyPlayer
    var castSession: CastSession?
    var progressPeriod: int
    var hasConnectListener: bool
    var hasSessionUpdatedListener: bool
    var sessionListenerRegistered: bool
    var lifecycleRegistered: bool
    var notices: seq<Notice>

    /**
     * The listener is registered with the application, then the cached session is reconciled with
     * `current`, the session manager's session at that moment, then the session-manager listener
     * is registered. Progress reporting starts disabled and no session-updated listener is set yet.
     */
    constructor (activity: Activity, withConnectListener: bool, current: CastSession?)
      modifies ClientsOf(current)`progress
      ensures this.activity == activity && fresh(player) && player.listener == this
      ensures progressPeriod == 0 && hasConnectListener == withConnectListener && !hasSessionUpdatedListener
      ensures lifecycleRegistered && sessionListenerRegistered
      ensures castSession == current && player.client == ClientOf(current)
      ensures notices == Deliver(ReconcileEvents(null, current), withConnectListener, false, current, ClientOf(current))
      ensures unchanged(ClientsOf(current)`progress)
    {
      this.activity := activity;
      player := new CastyPlayer();
      castSession := null;
      progressPeriod := 0;
      hasConnectListener := withConnectListener;
      hasSessionUpdatedListener := false;
      sessionListenerRegistered := false;
      lifecycleRegistered := false;
      notices := [];
      new;
      player.listener := this;
      lifecycleRegistered := true;
      HandleCurrentCastSession(current);
      RegisterSessionManagerListener();
    }

    method GetPlayer() returns (p: CastyPlayer)
      ensures p == player
    {
      p := player;
    }

    method IsConnected() returns (r: bool)
      ensures r <==> castSession != null
    {
      r := castSession != null;
    }

    /** Replaces the connect-change listener; past notifications are not replayed. */
    method SetOnConnectChangeListener(present: bool)
      modifies this`hasConnectListener
      ensures hasConnectListener == present
    {
      hasConnectListener := present;
    }

    method SetOnCastSessionUpdatedListener(present: bool)
      modifies this`hasSessionUpdatedListener
      ensures hasSessionUpdatedListener == present
    {
      hasSessionUpdatedListener := present;
    }

    /** Raises `events` in order; the host hears each, with the current state, only if its listener is set. */
    method Raise(events: seq<HostEvent>)
      modifies this`notices
      ensures notices == old(notices) + Deliver(events, hasConnectListener, hasSessionUpdatedListener, castSession, player.client)
    {
      notices := notices + Deliver(events, hasConnectListener, hasSessionUpdatedListener, castSession, player.client);
    }

    /** Registers progress reporting on the session's client only under the progress guard. */
    method RegisterProgressListener()
      modifies ClientsOf(castSession)`progress
      ensures ProgressGuard(progressPeriod, castSession) ==> castSession.client.progress == Some(progressPeriod)
      ensures !ProgressGuard(progressPeriod, castSession) ==> unchanged(ClientsOf(castSession)`progress)
    {
      if progressPeriod > 0 && castSession != null && castSession.client != null {
        castSession.client.AddProgressListener(progressPeriod);
      }
    }

    /** Unregisters progress reporting from the session's client only under the progress guard. */
    method UnregisterProgressListener()
      modifies ClientsOf(castSession)`progress
      ensures ProgressGuard(progressPeriod, castSession) ==> castSession.client.progress == None
      ensures !ProgressGuard(progressPeriod, castSession) ==> unchanged(ClientsOf(castSession)`progress)
    {
      if progressPeriod > 0 && castSession != null && castSession.client != null {
        castSession.client.RemoveProgressListener();
      }
    }

    /**
     * `onConnected(s)` after holding `prev`: `s` is held and its client handed to the player,
     * progress is registered on that client under the guard, and only then does the host hear
     * "connected" and the new session, each seeing `s` and its client already in place. The
     * client of `prev`, if another one, keeps its progress registration.
     */
    twostate predicate DidConnect(prev: CastSession?, s: CastSession)
      reads this, player, ClientsOf(s), ClientsOf(prev)
    {
      && castSession == s
      && player.client == s.client
      && (ProgressGuard(progressPeriod, s) ==> s.client.progress == Some(progressPeriod))
      && (!ProgressGuard(progressPeriod, s) && s.client != null ==> s.client.progress == old(s.client.progress))
      && (ClientOf(prev) != null && ClientOf(prev) != s.client ==> prev.client.progress == old(prev.client.progress))
      && notices == old(notices) + Deliver(ConnectedEvents(s), hasConnectListener, hasSessionUpdatedListener, s, s.client)
    }

    /**
     * `onDisconnected(code)` after holding `prev`: progress is unregistered from `prev`'s client
     * under the guard, no session is held, and the host hears "disconnected" and the absence of a
     * session. The player keeps the client it had.
     */
    twostate predicate DidDisconnect(prev: CastSession?, code: int)
      reads this, player, ClientsOf(prev)
    {
      && castSession == null
      && player.client == old(player.client)
      && (ProgressGuard(progressPeriod, prev) ==> prev.client.progress == None)
      && (!ProgressGuard(progressPeriod, prev) && ClientOf(prev) != null ==> prev.client.progress == old(prev.client.progress))
      && notices == old(notices) + Deliver(DisconnectedEvents(code), hasConnectListener, hasSessionUpdatedListener, null, player.client)
    }

    /** Nothing changes but the host hearing `events` (while `prev` is still held). */
    twostate predicate Announced(prev: CastSession?, events: seq<HostEvent>)
      reads this, player, ClientsOf(prev)
    {
      && castSession == old(castSession)
      && player.client == old(player.client)
      && (ClientOf(prev) != null ==> prev.client.progress == old(prev.client.progress))
      && notices == old(notices) + Deliver(events, hasConnectListener, hasSessionUpdatedListener, castSession, player.client)
    }

    /** The effect of reconciling the held session `prev` with the session manager's `current`. */
    twostate predicate Reconciled(prev: CastSession?, current: CastSession?)
      reads this, player, ClientsOf(prev), ClientsOf(current)
    {
      && castSession == current
      && match Reconcile(prev, current)
         case Attach(s) => DidConnect(prev, s)
         case Detach => DidDisconnect(prev, -1)
         case Keep => Announced(prev, [])
    }

    method OnConnected(s: CastSession)
      modifies this`castSession, this`notices, player`client, ClientsOf(s)`progress
      ensures DidConnect(old(castSession), s)
    {
      castSession := s;
      player.SetRemoteMediaClient(s.client);
      RegisterProgressListener();
      Raise(ConnectedEvents(s));
    }

    method OnDisconnected(code: int)
      modifies this`castSession, this`notices, ClientsOf(castSession)`progress
      ensures DidDisconnect(old(castSession), code)
    {
      UnregisterProgressListener();
      castSession := null;
      Raise(DisconnectedEvents(code));
    }

    /** `handleCurrentCastSession`, with the session manager's current session passed in. */
    method HandleCurrentCastSession(current: CastSession?)
      modifies this`castSession, this`notices, player`client
      modifies ClientsOf(castSession)`progress, ClientsOf(current)`progress
      ensures Reconciled(old(castSession), current)
      ensures notices == old(notices) + Deliver(ReconcileEvents(old(castSession), current),
                                                hasConnectListener, hasSessionUpdatedListener, castSession, player.client)
    {
      if castSession == null {
        if current != null {
          OnConnected(current);
        }
      } else {
        if current == null {
          OnDisconnected(-1);
        } else if current != castSession {
          OnConnected(current);
        }
      }
    }

    /**
     * An event of the session-manager listener: started and resumed connect, ended disconnects,
     * starting only announces "connecting", a failed start or resume only announces the failure,
     * and ending, resuming and suspended change nothing.
     */
    method OnSessionEvent(e: SessionEvent)
      modifies this`castSession, this`notices, player`client
      modifies ClientsOf(castSession)`progress, ClientsOf(AttachedBy(e))`progress
      ensures castSession == SessionDecision(e).GetOr(old(castSession))
      ensures match e
        case SessionStarted(s, _) => DidConnect(old(castSession), s)
        case SessionResumed(s, _) => DidConnect(old(castSession), s)
        case SessionEnded(_, error) => DidDisconnect(old(castSession), error)
        case SessionStarting(_) => Announced(old(castSession), [Connecting])
        case SessionStartFailed(_, error) => Announced(old(castSession), [StartFailed(error)])
        case SessionResumeFailed(_, error) => Announced(old(castSession), [StartFailed(error)])
        case _ => Announced(old(castSession), [])
    {
      match e
      case SessionStarted(s, _) => OnConnected(s);
      case SessionResumed(s, _) => OnConnected(s);
      case SessionEnded(_, error) => OnDisconnected(error);
      case SessionStarting(_) => Raise([Connecting]);
      case SessionStartFailed(_, error) => Raise([StartFailed(error)]);
      case SessionResumeFailed(_, error) => Raise([StartFailed(error)]);
      case _ =>
    }

    method RegisterSessionManagerListener()
      modifies this`sessionListenerRegistered
      ensures sessionListenerRegistered
    {
      sessionListenerRegistered := true;
    }

    method UnregisterSessionManagerListener()
      modifies this`sessionListenerRegistered
      ensures !sessionListenerRegistered
    {
      sessionListenerRegistered := false;
    }

    /** The session a lifecycle event reconciles with: the current one, when the bound activity resumes. */
    function ReconcileTarget(e: LifecycleEvent): CastSession? {
      if e.ActivityResumed? && e.activity == activity then e.current else null
    }

    /**
     * An event of the activity-lifecycle listener. Only events of the bound activity count:
     * resuming reconciles the held session with the current one and then registers the
     * session-manager listener, pausing unregisters it, and destruction unregisters the
     * lifecycle listener itself.
     */
    method OnActivityEvent(e: LifecycleEvent)
      modifies this`castSession, this`notices, this`sessionListenerRegistered, this`lifecycleRegistered, player`client
      modifies ClientsOf(castSession)`progress, ClientsOf(ReconcileTarget(e))`progress
      ensures sessionListenerRegistered == ListenerDecision(activity, e).GetOr(old(sessionListenerRegistered))
      ensures lifecycleRegistered == (old(lifecycleRegistered) && e != ActivityDestroyed(activity))
      ensures if e.ActivityResumed? && e.activity == activity
              then Reconciled(old(castSession), e.current)
              else Announced(old(castSession), [])
    {
      if e.activity == activity {
        match e
        case ActivityResumed(_, current) =>
          HandleCurrentCastSession(current);
          RegisterSessionManagerListener();
        case ActivityPaused(_) =>
          UnregisterSessionManagerListener();
        case ActivityDestroyed(_) =>
          lifecycleRegistered := false;
        case _ =>
      }
    }

    /** The host is told the media has loaded; the connect-change listener must be set. */
    method OnMediaLoaded()
      requires hasConnectListener
      modifies this`notices
      ensures notices == old(notices) + [Notice(MediaLoaded, castSession, player.client)]
    {
      notices := notices + [Notice(MediaLoaded, castSession, player.client)];
    }
  }
}
