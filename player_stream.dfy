/**
 * The server-sent-events hook (hooks/usePlayerStream.ts) as a state
 * machine: the effect that opens an `EventSource` for a username, the
 * source's open, message and error callbacks, the effect's cleanup and
 * `disconnect`. Sources are numbered; a closed source delivers no events.
 */
module PlayerStream {
  import opened Wrappers
  import opened Types

  const ParseErrorMessage := "Failed to parse server event"
  const ConnectionLostMessage := "Connection lost"

  /** The URL the hook subscribes to for `username`. */
  function StreamUrl(username: string): string {
    "/api/stream/" + username
  }

  class PlayerStreamState {
    var lastEvent: Option<StreamEvent>
    var isConnected: bool
    var error: Option<string>
    /** `eventSourceRef.current` */
    var sourceRef: Option<nat>
    /** The source the running effect opened, which its cleanup closes. */
    var effectSource: Option<nat>
    /** The sources not yet closed. */
    var openSources: set<nat>
    var nextSource: nat

    /**
     * At most one source is open, and it is the running effect's; the ref
     * names no other source.
     */
    predicate Valid()
      reads this
    {
      (effectSource.None? ==> openSources == {}) &&
      (effectSource.Some? ==> openSources <= {effectSource.value} && effectSource.value < nextSource) &&
      (sourceRef.Some? ==> sourceRef == effectSource)
    }

    /** The first render, before the effect has run. */
    constructor ()
      ensures Valid()
      ensures lastEvent == None && !isConnected && error == None
      ensures sourceRef == None && effectSource == None && openSources == {}
    {
      lastEvent := None;
      isConnected := false;
      error := None;
      sourceRef := None;
      effectSource := None;
      openSources := {};
      nextSource := 0;
    }

    /** The effect's cleanup: close its source, null the ref, and mark the hook disconnected. */
    method Cleanup()
      requires Valid()
      modifies this
      ensures Valid()
      ensures old(effectSource).Some? ==>
        openSources == {} && sourceRef == None && !isConnected && effectSource == None
      ensures old(effectSource).None? ==>
        sourceRef == old(sourceRef) && isConnected == old(isConnected) && openSources == old(openSources) && effectSource == None
      ensures lastEvent == old(lastEvent) && error == old(error) && nextSource == old(nextSource)
    {
      if effectSource.Some? {
        openSources := openSources - {effectSource.value};
        sourceRef := None;
        isConnected := false;
      }
      effectSource := None;
    }

    /**
     * The effect for a (new) username: after the previous cleanup, a
     * missing or empty username resets the state and opens nothing; any
     * other username opens a fresh source and stores it in the ref. The
     * result is the URL subscribed to, if any.
     */
    method Subscribe(username: Option<string>) returns (url: Option<string>)
      requires Valid()
      modifies this
      ensures Valid()
      ensures username.None? || username.value == "" ==>
        url == None && lastEvent == None && !isConnected && error == None &&
        openSources == {} && effectSource == None && (old(effectSource).Some? ==> sourceRef == None)
      ensures username.Some? && username.value != "" ==>
        url == Some(StreamUrl(username.value)) &&
        openSources == {old(nextSource)} && sourceRef == Some(old(nextSource)) && effectSource == sourceRef &&
        lastEvent == old(lastEvent) && error == old(error) &&
        isConnected == (old(effectSource).None? && old(isConnected))
    {
      Cleanup();
      if username.None? || username.value == "" {
        lastEvent := None;
        isConnected := false;
        error := None;
        url := None;
        return;
      }
      var id := nextSource;
      nextSource := nextSource + 1;
      openSources := openSources + {id};
      sourceRef := Some(id);
      effectSource := Some(id);
      url := Some(StreamUrl(username.value));
    }

    /** `onopen` of source `id`: connected, with the error cleared. */
    method OnOpen(id: nat)
      requires Valid()
      modifies this
      ensures Valid()
      ensures id in old(openSources) ==> isConnected && error == None
      ensures id !in old(openSources) ==> isConnected == old(isConnected) && error == old(error)
      ensures lastEvent == old(lastEvent) && sourceRef == old(sourceRef) && effectSource == old(effectSource)
      ensures openSources == old(openSources) && nextSource == old(nextSource)
    {
      if id in openSources {
        isConnected := true;
        error := None;
      }
    }

    /**
     * `onmessage` of source `id`, given the event its data parses to (None
     * when `JSON.parse` or the schema rejects it): a parsed event becomes
     * `lastEvent`; a rejected one sets the parse error and keeps the last
     * event. The connection flag is not touched.
     */
    method OnMessage(id: nat, parsed: Option<StreamEvent>)
      requires Valid()
      modifies this
      ensures Valid()
      ensures id in old(openSources) && parsed.Some? ==> lastEvent == parsed && error == old(error)
      ensures id in old(openSources) && parsed.None? ==> lastEvent == old(lastEvent) && error == Some(ParseErrorMessage)
      ensures id !in old(openSources) ==> lastEvent == old(lastEvent) && error == old(error)
      ensures isConnected == old(isConnected) && sourceRef == old(sourceRef) && effectSource == old(effectSource)
      ensures openSources == old(openSources) && nextSource == old(nextSource)
    {
      if id in openSources {
        match parsed {
          case Some(ev) => lastEvent := Some(ev);
          case None => error := Some(ParseErrorMessage);
        }
      }
    }

    /** `onerror` of source `id`: disconnected, with "Connection lost". */
    method OnError(id: nat)
      requires Valid()
      modifies this
      ensures Valid()
      ensures id in old(openSources) ==> !isConnected && error == Some(ConnectionLostMessage)
      ensures id !in old(openSources) ==> isConnected == old(isConnected) && error == old(error)
      ensures lastEvent == old(lastEvent) && sourceRef == old(sourceRef) && effectSource == old(effectSource)
      ensures openSources == old(openSources) && nextSource == old(nextSource)
    {
      if id in openSources {
        isConnected := false;
        error := Some(ConnectionLostMessage);
      }
    }

    /**
     * `disconnect`: close the source in the ref, if any, and mark the hook
     * disconnected; the ref itself, the last event and the error stay.
     */
    method Disconnect()
      requires Valid()
      modifies this
      ensures Valid()
      ensures !isConnected
      ensures openSources == if old(sourceRef).Some? then old(openSources) - {old(sourceRef).value} else old(openSources)
      ensures lastEvent == old(lastEvent) && error == old(error) && sourceRef == old(sourceRef)
      ensures effectSource == old(effectSource) && nextSource == old(nextSource)
    {
      if sourceRef.Some? {
        openSources := openSources - {sourceRef.value};
      }
      isConnected := false;
    }

    /** Unmounting runs the cleanup: afterwards no source is open. */
    method Unmount()
      requires Valid()
      modifies this
      ensures Valid()
      ensures openSources == {} && effectSource == None
      ensures old(effectSource).Some? ==> sourceRef == None && !isConnected
    {
      Cleanup();
    }
  }
}
