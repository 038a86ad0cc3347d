# Casty, modelled in Dafny

Casty is a small Android library that sits between an app's activity and the Google Cast SDK.
This project models its core in Dafny: the session coordinator `Casty`, the guarded playback
commands of `CastyPlayer`, and the `MediaData` builder that describes what to cast.

- `Casty` keeps the cast session it last saw and reacts to session-manager events: started,
  resumed, ended, starting, failed, ending, resuming and suspended. It also reacts to the
  activity's lifecycle events. When the activity resumes, it reconciles its cached session with
  the session manager's current one, compared by reference. It hands the session's remote client
  to the player and (un)registers progress reporting under a guard. It tells the host what
  happened through two optional listeners, in a fixed order.
- `CastyPlayer` issues play, pause, seek, toggle and load commands to the attached remote client.
  Each command is a no-op without a client. A foreground load registers a callback. On a status
  update the callback reports "media loaded", then unregisters itself from the player's current
  client.
- `MediaData.Builder` fills in one shared `MediaData`. `createMediaInfo` maps it to the SDK's
  `MediaInfo` descriptor.

The Cast SDK is abstract state, in `platform.dfy`:
- A remote client has a status, a list of registered callbacks, a progress registration and an
  append-only log of the commands issued to it.
- A session is an identity with an optional client.
- Activities and callbacks are bare identities.

The host's listeners are presence flags. What the host hears is an append-only log of notices on
`Casty`. Each notice is stamped with the session and the player's client at the moment it was
raised. So "the player already has the client when the host hears connected" is a postcondition.
The session manager's current session is a parameter: of the constructor, and of the
activity-resumed event.

Files:
- `options.dfy`: the `Option` type.
- `platform.dfy`: the SDK and Android abstractions.
- `media_data.dfy`: `MediaData.java`.
- `casty_spec.dfy`: pure specification functions and the lemmas about them.
- `casty.dfy`: the `Casty` and `CastyPlayer` classes. They refer to each other, so they share one module.

Where the code differs from what its design suggests, the model follows the code:
- `onDisconnected` does not clear the player's remote client, so the player keeps commanding the old client.
- Each foreground load registers a fresh callback, so several can be pending at once.
- The callback unregisters itself from the player's current client. That need not be the client
  it was registered with. After a session change, the callback stays registered on the old client
  and can report "media loaded" again (`StaleCallbackFiresTwice`).
- When the new session has no client, the player's client becomes null. A status update of a
  pending callback then reports "media loaded" and throws a null-pointer exception when it tries
  to unregister (`CallbackAfterClientLost`).
- `Casty.onMediaLoaded` calls the connect-change listener without a null check. This is modelled as a precondition.
- When the cached session is replaced by a different one, the old session's client keeps its
  progress registration: `onConnected` runs without an `onDisconnected` first.

## Model

| member | source | states |
|---|---|---|
| Platform.RemoveAppend | casty/src/main/java/pl/droidsonroids/casty/CastyPlayer.java:194 | Removal from a concatenation is removal from each part, in order, so the other callbacks keep their order and repetitions |
| Platform.Remove | casty/src/main/java/pl/droidsonroids/casty/CastyPlayer.java:194 | Unregistering a callback removes every occurrence of it and keeps every other registered callback; the list is unchanged when it was not registered |
| Media.ToInt32 | casty/src/main/java/pl/droidsonroids/casty/MediaData.java:231 | Java int arithmetic: the result is in the 32-bit range and congruent to the exact value modulo 2^32 |
| Media.StringHashCode | casty/src/main/java/pl/droidsonroids/casty/MediaData.java:231 | `String.hashCode` stays within the 32-bit int range |
| Media.Abs32 | casty/src/main/java/pl/droidsonroids/casty/MediaData.java:231 | `Math.abs` on an int is x or -x, non-negative except for the smallest int, which stays negative |
| Media.SubtitleTrack | casty/src/main/java/pl/droidsonroids/casty/MediaData.java:229-238 | A subtitle track is a text track with subtype none, content id the url, name the given language, language always "en-US", and id `Math.abs(url.hashCode())` |
| Media.Metadata | casty/src/main/java/pl/droidsonroids/casty/MediaData.java:107-126 | Metadata keeps the media type and the images in list order; title and subtitle are present exactly when non-null and non-empty; every custom-data entry is present with its value; no other key appears |
| Media.MediaData.constructor | casty/src/main/java/pl/droidsonroids/casty/MediaData.java:51-72 | A fresh description has the given url, stream type none, unknown duration, generic media type, autoplay on, position 0, no title, subtitle, content type or custom data, and no images or tracks |
| Media.MediaData.CreateMediaInfo | casty/src/main/java/pl/droidsonroids/casty/MediaData.java:106-135 | The descriptor carries url, stream type, content type, duration and tracks through unchanged, and its metadata is `Metadata` of the fields |
| Media.Builder.constructor | casty/src/main/java/pl/droidsonroids/casty/MediaData.java:145-147 | A builder owns a fresh description of the url with all defaults |
| Media.Builder.SetStreamType | casty/src/main/java/pl/droidsonroids/casty/MediaData.java:156-159 | Writes only the stream type and returns the same builder |
| Media.Builder.SetContentType | casty/src/main/java/pl/droidsonroids/casty/MediaData.java:167-170 | Writes only the content type and returns the same builder |
| Media.Builder.SetStreamDuration | casty/src/main/java/pl/droidsonroids/casty/MediaData.java:178-181 | Writes only the duration and returns the same builder |
| Media.Builder.SetTitle | casty/src/main/java/pl/droidsonroids/casty/MediaData.java:189-192 | Writes only the title and returns the same builder |
| Media.Builder.SetSubtitle | casty/src/main/java/pl/droidsonroids/casty/MediaData.java:200-203 | Writes only the subtitle and returns the same builder |
| Media.Builder.SetMediaType | casty/src/main/java/pl/droidsonroids/casty/MediaData.java:213-216 | Writes only the media type and returns the same builder |
| Media.Builder.AddPhotoUrl | casty/src/main/java/pl/droidsonroids/casty/MediaData.java:224-227 | Appends the url at the end of the image list, and the descriptor's images gain exactly that url at the end |
| Media.Builder.AddSubtitle | casty/src/main/java/pl/droidsonroids/casty/MediaData.java:229-239 | Appends exactly one subtitle track at the end of the track list, and of the descriptor's tracks |
| Media.Builder.SetAutoPlay | casty/src/main/java/pl/droidsonroids/casty/MediaData.java:247-250 | Writes only the autoplay flag and returns the same builder |
| Media.Builder.SetPosition | casty/src/main/java/pl/droidsonroids/casty/MediaData.java:258-261 | Writes only the start position and returns the same builder |
| Media.Builder.SetCustomData | casty/src/main/java/pl/droidsonroids/casty/MediaData.java:269-272 | Writes only the custom data and returns the same builder |
| Media.Builder.Build | casty/src/main/java/pl/droidsonroids/casty/MediaData.java:274-276 | Returns the builder's own description, not a copy |
| CastySpec.DeliverSound | casty/src/main/java/pl/droidsonroids/casty/Casty.java:288-396 | The host hears no more notices than events were raised, each one a raised event that reaches a set listener, stamped with the state at raising time |
| CastySpec.DeliverComplete | casty/src/main/java/pl/droidsonroids/casty/Casty.java:288-396 | Every raised event that reaches a set listener is heard, stamped with the state at raising time; an event whose listener is null is skipped |
| CastySpec.DeliverAppend | casty/src/main/java/pl/droidsonroids/casty/Casty.java:350-396 | Raising events one after another is the same as raising them as one batch, in order |
| CastySpec.Reconcile | casty/src/main/java/pl/droidsonroids/casty/Casty.java:472-486 | Reconciliation keeps the cached session exactly when it is the current one by reference, detaches exactly when only the cached one exists, and otherwise attaches the current one |
| CastySpec.ReconcileEvents | casty/src/main/java/pl/droidsonroids/casty/Casty.java:472-486 | Reconciling raises nothing for the same session, "disconnected(-1)" then no session when the current one is gone, and "connected" then the new session otherwise, never a disconnect between two sessions |
| CastySpec.LastDecision | casty/src/main/java/pl/droidsonroids/casty/Casty.java:398-433 | The result, when there is one, is the decision of some event of the trace after which no event decides anything; when there is none, no event decides anything |
| CastySpec.RunSnoc | casty/src/main/java/pl/droidsonroids/casty/Casty.java:398-433 | Applying one more event applies its decision, if any, to the state reached so far |
| CastySpec.LastDecisionWins | casty/src/main/java/pl/droidsonroids/casty/Casty.java:398-433 | After any trace of events, the state is the last deciding event's decision, or the initial state when no event decides |
| CastySpec.ActiveAfterResume | casty/src/main/java/pl/droidsonroids/casty/Casty.java:408-413 | A resume of the bound activity puts it in its active window |
| CastySpec.InactiveAfterPause | casty/src/main/java/pl/droidsonroids/casty/Casty.java:415-417 | A pause of the bound activity takes it out of its active window |
| CastySpec.ActiveUnchanged | casty/src/main/java/pl/droidsonroids/casty/Casty.java:400-432 | Events other than the bound activity's resume and pause leave its active window as it was |
| CastySpec.ListenerRegisteredInActiveWindow | casty/src/main/java/pl/droidsonroids/casty/Casty.java:398-433 | After any lifecycle trace, the session-manager listener is registered if and only if every pause of the bound activity was followed by a resume of it |
| CastySpec.Issued | casty/src/main/java/pl/droidsonroids/casty/CastyPlayer.java:39-70 | A request issues at most one command: play exactly for play or toggle from paused, pause exactly for pause or toggle from playing, a seek always and with its time unchanged, never a load |
| CastySpec.ToggleIsPauseThenPlay | casty/src/main/java/pl/droidsonroids/casty/CastyPlayer.java:62-70 | Toggling issues what a pause and then a play would have issued from the same status |
| Casty.CastyPlayer.constructor | casty/src/main/java/pl/droidsonroids/casty/CastyPlayer.java:15-21 | A new player has no client and no listener |
| Casty.CastyPlayer.SetRemoteMediaClient | casty/src/main/java/pl/droidsonroids/casty/CastyPlayer.java:23-25 | The player commands the given client from now on |
| Casty.CastyPlayer.IsPlaying | casty/src/main/java/pl/droidsonroids/casty/CastyPlayer.java:77-79 | True exactly when a client is attached and it is playing |
| Casty.CastyPlayer.IsPaused | casty/src/main/java/pl/droidsonroids/casty/CastyPlayer.java:86-88 | True exactly when a client is attached and it is paused |
| Casty.CastyPlayer.IsBuffering | casty/src/main/java/pl/droidsonroids/casty/CastyPlayer.java:95-97 | True exactly when a client is attached and it is buffering |
| Casty.CastyPlayer.Play | casty/src/main/java/pl/droidsonroids/casty/CastyPlayer.java:39-41 | The attached client's command log grows by `Issued(PlayRequest, status)`; nothing else changes |
| Casty.CastyPlayer.Pause | casty/src/main/java/pl/droidsonroids/casty/CastyPlayer.java:46-48 | The attached client's command log grows by `Issued(PauseRequest, status)`; nothing else changes |
| Casty.CastyPlayer.Seek | casty/src/main/java/pl/droidsonroids/casty/CastyPlayer.java:55-57 | The attached client's command log grows by exactly the seek to the given time |
| Casty.CastyPlayer.TogglePlayPause | casty/src/main/java/pl/droidsonroids/casty/CastyPlayer.java:62-70 | The attached client's command log grows by `Issued(ToggleRequest, status)` |
| Casty.CastyPlayer.PlayMediaBase | casty/src/main/java/pl/droidsonroids/casty/CastyPlayer.java:172-187 | Succeeds exactly when a client is attached; then one load with the given options is issued and, in the foreground only, exactly one fresh callback is appended; without a client nothing changes |
| Casty.CastyPlayer.LoadMediaAndPlay | casty/src/main/java/pl/droidsonroids/casty/CastyPlayer.java:130-133 | A foreground load with the given autoplay flag and position |
| Casty.CastyPlayer.LoadMediaInfoAndPlay | casty/src/main/java/pl/droidsonroids/casty/CastyPlayer.java:117-119 | A foreground load with autoplay on, from position 0 |
| Casty.CastyPlayer.LoadMediaDataAndPlay | casty/src/main/java/pl/droidsonroids/casty/CastyPlayer.java:106-108 | A foreground load of the description's `MediaInfo`, with its own autoplay flag and position |
| Casty.CastyPlayer.LoadMediaAndPlayInBackground | casty/src/main/java/pl/droidsonroids/casty/CastyPlayer.java:167-170 | A background load with the given options: no callback is registered |
| Casty.CastyPlayer.LoadMediaInfoAndPlayInBackground | casty/src/main/java/pl/droidsonroids/casty/CastyPlayer.java:154-156 | A background load with autoplay on, from position 0 |
| Casty.CastyPlayer.LoadMediaDataAndPlayInBackground | casty/src/main/java/pl/droidsonroids/casty/CastyPlayer.java:142-145 | A background load of the description's `MediaInfo`, with its own autoplay flag and position |
| Casty.CastyPlayer.OnCallback | casty/src/main/java/pl/droidsonroids/casty/CastyPlayer.java:189-226 | On a status update the host hears "media loaded". The callback is then no longer registered with the player's current client; a callback registered on an earlier client stays registered there and can fire again. Without a client the update throws after notifying and removes nothing. The other five updates change nothing |
| Casty.PendingLoad | casty/src/main/java/pl/droidsonroids/casty/CastyPlayer.java:172-187 | Creating a coordinator on a session with client `a` and loading in the foreground leaves exactly one callback registered on `a` |
| Casty.SwitchedAway | casty/src/main/java/pl/droidsonroids/casty/Casty.java:350-363 | A new session with another client hands that client to the player; the pending callback stays registered on the old client |
| Casty.StaleCallbackFiresTwice | casty/src/main/java/pl/droidsonroids/casty/CastyPlayer.java:191-195 | After such a switch, two status updates of the callback make the host hear "media loaded" twice, and the callback is still registered on the old client |
| Casty.CallbackAfterClientLost | casty/src/main/java/pl/droidsonroids/casty/CastyPlayer.java:191-195 | After a switch to a session without a client, a status update makes the host hear "media loaded" and then throws, leaving the callback registered on the old client |
| Casty.Casty.constructor | casty/src/main/java/pl/droidsonroids/casty/Casty.java:116-152 | A new coordinator owns a fresh player that reports to it, has reconciled with the current session (so the host hears exactly what that raises), has both listeners registered and progress reporting disabled, and leaves every client's progress registration alone |
| Casty.Casty.GetPlayer | casty/src/main/java/pl/droidsonroids/casty/Casty.java:159-161 | Returns the coordinator's own player |
| Casty.Casty.IsConnected | casty/src/main/java/pl/droidsonroids/casty/Casty.java:168-170 | True exactly when a session is held |
| Casty.Casty.SetOnConnectChangeListener | casty/src/main/java/pl/droidsonroids/casty/Casty.java:238-242 | Sets or clears the connect-change listener |
| Casty.Casty.SetOnCastSessionUpdatedListener | casty/src/main/java/pl/droidsonroids/casty/Casty.java:249-252 | Sets or clears the session-updated listener |
| Casty.Casty.RegisterProgressListener | casty/src/main/java/pl/droidsonroids/casty/Casty.java:365-374 | Registers progress at the current period on the session's client exactly under the guard (positive period, a session, a client); otherwise changes nothing |
| Casty.Casty.UnregisterProgressListener | casty/src/main/java/pl/droidsonroids/casty/Casty.java:376-385 | Unregisters progress from the session's client exactly under the same guard; otherwise changes nothing |
| Casty.Casty.OnConnected | casty/src/main/java/pl/droidsonroids/casty/Casty.java:350-363 | Holds the session, gives its client to the player, registers progress under the guard, then lets the host hear "connected" and the session, both seeing the new session and client already in place; another client's progress is untouched |
| Casty.Casty.OnDisconnected | casty/src/main/java/pl/droidsonroids/casty/Casty.java:387-396 | Unregisters progress from the held session's client under the guard, holds no session, and lets the host hear "disconnected(code)" then no session; the player keeps its client |
| Casty.Casty.HandleCurrentCastSession | casty/src/main/java/pl/droidsonroids/casty/Casty.java:472-486 | Afterwards the held session is the current one, with the effect `Reconcile` names (connect, disconnect with -1, or nothing), and the host hears exactly `ReconcileEvents` |
| Casty.Casty.OnSessionEvent | casty/src/main/java/pl/droidsonroids/casty/Casty.java:288-348 | Started and resumed connect, ended disconnects with its error, starting only announces "connecting", a failed start or resume only announces the failure, and ending, resuming and suspended change nothing |
| Casty.Casty.RegisterSessionManagerListener | casty/src/main/java/pl/droidsonroids/casty/Casty.java:460-464 | The session-manager listener is registered |
| Casty.Casty.UnregisterSessionManagerListener | casty/src/main/java/pl/droidsonroids/casty/Casty.java:466-470 | The session-manager listener is not registered |
| Casty.Casty.OnActivityEvent | casty/src/main/java/pl/droidsonroids/casty/Casty.java:398-433 | For the bound activity, resuming reconciles and then registers the session-manager listener, pausing unregisters it, and destruction unregisters the lifecycle listener; events of other activities change nothing |
| Casty.Casty.OnMediaLoaded | casty/src/main/java/pl/droidsonroids/casty/Casty.java:488-492 | Requires the connect-change listener; the host hears "media loaded" stamped with the current state |

## Left out

- UI glue is not modelled: the media-route menu item and button, the mini controller, the introductory overlay, the `CastStateListener`, `startExpandedControlsActivity` and `invalidateOptionsMenu`. They are Android view calls with no state of the core.
- `create`'s Play Services availability check and `CastyNoOp` are left out. The check is a foreign SDK call, and `CastyNoOp` is not part of this model.
- `getMediaInfo` is left out: a chain of SDK calls behind a catch-all exception handler.
- The static `configure` receiver id and cast options are left out: global configuration with no logic.
- `getReadableState`, the Timber and Log calls, and `mediaInfo.toJson()` are logging only.
- `CastyPlayer.addProgressListener` and `removeProgressListener` are left out: unguarded passthroughs to the SDK.
- The progress listener object is not modelled. A client's progress registration records only the period, or none.
- Registration with the SDK is a flag or an `Option`. Whether the SDK deduplicates repeated registrations is not visible, so no counts are claimed.
- The SDK delivers session and lifecycle events only to registered listeners. The event handlers themselves do not check this, so the model does not either.
- When each status update reaches the load callback is the SDK's business: `OnCallback` takes the update as a parameter.
- Casty.CastyPlayer.OnCallback: the null-pointer exception on a status update without a client is the result `threw`. Its propagation into the SDK's dispatcher is not modelled.
- Casty.Casty.constructor: the order of its steps (player, lifecycle registration, reconciliation, session-manager registration) is visible only in its body. Its contract states the resulting state and notices.
- Casty.CastyPlayer.PlayMediaBase: that the callback is registered before the load is issued is visible only in its body. Its contract states the final callback list and command log.
- Host listeners are assumed not to call back into `Casty` or `CastyPlayer` while being notified. In the source they run host code synchronously, and two places read state after that code has run. These are the second listener null check in `onConnected` and `onDisconnected` (Casty.java:360 and 393), and the `unregisterCallback` in the load callback (CastyPlayer.java:194). A host that changes listeners, sessions or loads from inside a notification gets results the model does not describe.
- Casty.Casty.OnConnected: the host's two notifications are raised as one batch of events in the same order. `DeliverAppend` shows this is the same as raising them one at a time, provided nothing happens between the two notices. That holds under the assumption above, not in general: a host that replaces the session-updated listener inside its "connected" handler changes who hears the session update in the source, but not in the model. The same holds for Casty.Casty.OnDisconnected.
- Casty.CastyPlayer.OnCallback: under the same assumption, the callback is removed from the client's callbacks as they were before the notification. A host that loads again from its "media loaded" handler registers a new callback first, and the source then removes from that longer list.
- Media.Metadata: custom data is a map from strings to strings. The JSON value coercion of `getString` is not modelled. Custom entries are put after the title and subtitle (MediaData.java:116-126 after 109-110), so a custom key that repeats the title or subtitle key overrides it, as in the source. Keys of a `JSONObject` are unique, so its iteration order does not change the result.
- `Uri.parse` and `WebImage` are not modelled: images are their URL strings.
- Null URL, photo URL and language strings are not modelled: the model assumes these strings are non-null. The source does not guarantee it, and it drops the exceptions a null would raise: a null url in `addSubtitle` throws at `url.hashCode()` (MediaData.java:231), and a null photo URL fails in `Uri.parse` inside `createMediaInfo`.
- Media.StringHashCode: each character counts as one UTF-16 unit. The value matches Java's for strings within the Basic Multilingual Plane only.
- Threading is not modelled: everything runs on the main thread.
