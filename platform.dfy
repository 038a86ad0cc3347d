/**
 * The platform the library runs against, kept abstract: an Android activity, and the parts of the
 * Google Cast SDK the library calls. Sessions, remote media clients and callbacks are objects,
 * so they are compared by reference exactly as the Java code compares them. A remote client
 * records every command issued to it in an append-only log instead of sending it to a device.
 */
module Platform {
  import opened Options

  /** An Android activity; only its identity matters. */
  class Activity {
    constructor () {}
  }

  /** A `RemoteMediaClient.Callback` object registered with a client; only its identity matters. */
  class Callback {
    constructor () {}
  }

  /** The playback status a remote client reports through isPlaying/isPaused/isBuffering. */
  datatype PlayerState = Playing | Paused | Buffering | Idle

  /** `MediaTrack` type and subtype; the library only ever builds text tracks without a subtype. */
  datatype TrackType = UnknownTrack | TextTrack | AudioTrack | VideoTrack
  datatype TrackSubtype = SubtypeUnknown | SubtypeNone | SubtypeSubtitles | SubtypeCaptions | SubtypeDescriptions | SubtypeChapters | SubtypeMetadata

  /** A `MediaTrack` as built by `MediaTrack.Builder`. */
  datatype MediaTrack = MediaTrack(
    id: int,
    trackType: TrackType,
    subtype: TrackSubtype,
    language: string,
    name: string,
    contentId: string)

  /**
   * A `MediaMetadata`: its media type, its string entries (a later put under the same key
   * replaces an earlier one, hence a map) and its images in the order they were added.
   */
  datatype MediaMetadata = MediaMetadata(mediaType: int, strings: map<string, string>, images: seq<string>)

  /** A `MediaInfo` as built by `MediaInfo.Builder`. */
  datatype MediaInfo = MediaInfo(
    contentId: string,
    streamType: int,
    contentType: Option<string>,
    streamDuration: int,
    metadata: MediaMetadata,
    tracks: seq<MediaTrack>)

  /** A command sent to the receiver through a remote client. */
  datatype Command =
    | PlayCmd
    | PauseCmd
    | SeekCmd(time: int)
    | LoadCmd(info: MediaInfo, autoPlay: bool, position: int)

  /** `cbs` without any occurrence of `cb`, the rest in the same order. */
  function Remove(cbs: seq<Callback>, cb: Callback): (r: seq<Callback>)
    ensures cb !in r
    ensures forall i | 0 <= i < |r| :: r[i] in cbs && r[i] != cb
    ensures forall i | 0 <= i < |cbs| && cbs[i] != cb :: cbs[i] in r
    ensures |r| <= |cbs|
    ensures cb !in cbs ==> r == cbs
  {
    if cbs == [] then []
    else if cbs[0] == cb then Remove(cbs[1..], cb)
    else [cbs[0]] + Remove(cbs[1..], cb)
  }

  /**
   * Removal works piecewise: removing from a concatenation removes from each part and keeps the
   * parts in order, so the remaining callbacks keep their order and their repetitions.
   */
  lemma {:induction false} RemoveAppend(a: seq<Callback>, b: seq<Callback>, cb: Callback)
    ensures Remove(a + b, cb) == Remove(a, cb) + Remove(b, cb)
    decreases |a|
  {
    if a == [] {
      assert a + b == b;
    } else {
      assert (a + b)[0] == a[0];
      assert (a + b)[1..] == a[1..] + b;
      RemoveAppend(a[1..], b, cb);
    }
  }

  /**
   * A `RemoteMediaClient`: the status the receiver last reported, the callbacks registered with
   * it, the period of the progress listener if one is registered, and the commands issued so far.
   */
  class RemoteMediaClient {
    var state: PlayerState
    var callbacks: seq<Callback>
    var progress: Option<int>
    var commands: seq<Command>

    constructor (state: PlayerState)
      ensures this.state == state && callbacks == [] && progress == None && commands == []
    {
      this.state := state;
      callbacks := [];
      progress := None;
      commands := [];
    }

    method Play()
      modifies this`commands
      ensures commands == old(commands) + [PlayCmd]
    {
      commands := commands + [PlayCmd];
    }

    method Pause()
      modifies this`commands
      ensures commands == old(commands) + [PauseCmd]
    {
      commands := commands + [PauseCmd];
    }

    method Seek(time: int)
      modifies this`commands
      ensures commands == old(commands) + [SeekCmd(time)]
    {
      commands := commands + [SeekCmd(time)];
    }

    method Load(info: MediaInfo, autoPlay: bool, position: int)
      modifies this`commands
      ensures commands == old(commands) + [LoadCmd(info, autoPlay, position)]
    {
      commands := commands + [LoadCmd(info, autoPlay, position)];
    }

    method RegisterCallback(cb: Callback)
      modifies this`callbacks
      ensures callbacks == old(callbacks) + [cb]
    {
      callbacks := callbacks + [cb];
    }

    method UnregisterCallback(cb: Callback)
      modifies this`callbacks
      ensures callbacks == Remove(old(callbacks), cb)
    {
      callbacks := Remove(callbacks, cb);
    }

    /**
     * The model records only the period of the latest registration; whether the SDK keeps one
     * registration or several for repeated adds is not modelled.
     */
    method AddProgressListener(period: int)
      modifies this`progress
      ensures progress == Some(period)
    {
      progress := Some(period);
    }

    method RemoveProgressListener()
      modifies this`progress
      ensures progress == None
    {
      progress := None;
    }
  }

  /** A `CastSession`: an identity together with its remote client, which may be missing. */
  class CastSession {
    const client: RemoteMediaClient?

    constructor (client: RemoteMediaClient?)
      ensures this.client == client
    {
      this.client := client;
    }
  }

  /** The session's remote client as a frame: empty when there is no session or no client. */
  function ClientsOf(s: CastSession?): set<RemoteMediaClient> {
    if s != null && s.client != null then {s.client} else {}
  }

  /** The remote client of a possibly missing session. */
  function ClientOf(s: CastSession?): RemoteMediaClient? {
    if s != null then s.client else null
  }
}
