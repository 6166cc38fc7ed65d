/** The dashboard's live-update hook
    (frontend/src/app/hooks/useRealtimeUpdates.ts): three state cells that
    the server-sent event callbacks overwrite. A message arrives as its
    parsed JSON value, or as `None` when its text is not JSON. */
module Realtime {
  import opened Wrappers
  import opened Json

  /** The errors the hook stores: the parser's, the one thrown by reading
      `type` from a JSON `null`, and the connection loss. */
  datatype HookError = ParseError | NullAccess | ConnectionLost

  const CONNECTED: string := "connected"
  const UPDATE: string := "update"

  /** The three cells. `data` starts as JSON `null`; an update that carries
      no `data` property stores `undefined`, which is `None`. */
  datatype State = State(data: Option<Json>, error: Option<HookError>, connected: bool)

  datatype Event = Message(parsed: Option<Json>) | ConnectionError | Cleanup

  function Initial(): (s: State)
    ensures s.data == Some(JNull) && s.error.None? && !s.connected
  {
    State(Some(JNull), None, false)
  }

  /** `parsed.type`, as far as a comparison with a string goes: a string
      property of an object, and `None` for any other value. */
  function TypeOf(parsed: Json): (t: Option<string>)
    ensures t.Some? <==> parsed.JObj? && "type" in parsed.fields && parsed.fields["type"].JStr?
  {
    GetString(parsed, "type")
  }

  /** `onmessage`: text that is not JSON, or the JSON `null`, stores an
      error; a "connected" message sets the flag; an "update" message
      replaces the data with its payload; anything else changes nothing. */
  function OnMessage(s: State, parsed: Option<Json>): (r: State)
    ensures parsed.None? ==> r == s.(error := Some(ParseError))
    ensures parsed == Some(JNull) ==> r == s.(error := Some(NullAccess))
    ensures parsed.Some? && TypeOf(parsed.value) == Some(CONNECTED) ==> r == s.(connected := true)
    ensures parsed.Some? && TypeOf(parsed.value) == Some(UPDATE) ==>
      r == s.(data := Get(parsed.value, "data"))
    ensures (parsed.Some? && parsed.value != JNull &&
             TypeOf(parsed.value) != Some(CONNECTED) && TypeOf(parsed.value) != Some(UPDATE)) ==> r == s
  {
    match parsed
    case None => s.(error := Some(ParseError))
    case Some(JNull) => s.(error := Some(NullAccess))
    case Some(p) =>
      var t := TypeOf(p);
      if t == Some(CONNECTED) then s.(connected := true)
      else if t == Some(UPDATE) then s.(data := Get(p, "data"))
      else s
  }

  /** `onerror`: disconnected, with the connection-lost error. */
  function OnError(s: State): (r: State)
    ensures r.data == s.data && r.error == Some(ConnectionLost) && !r.connected
  {
    s.(connected := false, error := Some(ConnectionLost))
  }

  /** The effect's cleanup: disconnected, nothing else changes. */
  function OnCleanup(s: State): (r: State)
    ensures r.data == s.data && r.error == s.error && !r.connected
  {
    s.(connected := false)
  }

  /** One event: the flag is set by a "connected" message, cleared by a
      connection error or a cleanup and otherwise kept; a stored error stays. */
  function Next(s: State, e: Event): (r: State)
    ensures r.connected == (Connects(e) || (!Disconnects(e) && s.connected))
    ensures s.error.Some? ==> r.error.Some?
  {
    match e
    case Message(parsed) => OnMessage(s, parsed)
    case ConnectionError => OnError(s)
    case Cleanup => OnCleanup(s)
  }

  /** The events in arrival order: a run is the run of all but the last
      event followed by the last one. */
  function Run(s: State, events: seq<Event>): (r: State)
    ensures |events| == 0 ==> r == s
    ensures |events| > 0 ==> r == Next(Run(s, events[..|events| - 1]), events[|events| - 1])
    decreases |events|
  {
    if |events| == 0 then s
    else
      assert |events| > 1 ==> events[..|events| - 1][1..] == events[1..][..|events| - 2];
      Run(Next(s, events[0]), events[1..])
  }

  /** The hook never clears an error once one is stored. */
  lemma {:induction false} ErrorSticky(s: State, events: seq<Event>)
    requires s.error.Some?
    ensures Run(s, events).error.Some?
    decreases |events|
  {
    if |events| > 0 {
      ErrorSticky(Next(s, events[0]), events[1..]);
    }
  }

  /** Whether a message is the "connected" one. */
  predicate Connects(e: Event) {
    e.Message? && e.parsed.Some? && e.parsed.value != JNull && TypeOf(e.parsed.value) == Some(CONNECTED)
  }

  /** Whether an event drops the connection. */
  predicate Disconnects(e: Event) {
    e.ConnectionError? || e.Cleanup?
  }

  /** After a run the hook reports a connection exactly when the last event
      that touched the flag was a "connected" message, or, if none did,
      when it was connected before. */
  lemma {:induction false} ConnectedTracksLastEvent(s: State, events: seq<Event>)
    ensures |events| > 0 && Connects(events[|events| - 1]) ==> Run(s, events).connected
    ensures |events| > 0 && Disconnects(events[|events| - 1]) ==> !Run(s, events).connected
    ensures (forall k :: 0 <= k < |events| ==> !Connects(events[k]) && !Disconnects(events[k])) ==>
      Run(s, events).connected == s.connected
    decreases |events|
  {
    if |events| > 0 {
      ConnectedTracksLastEvent(Next(s, events[0]), events[1..]);
      assert events[1..] == [] ==> |events| == 1;
      assert |events| > 1 ==> events[|events| - 1] == events[1..][|events[1..]| - 1];
    }
  }

  /** After a cleanup the hook is disconnected until a "connected" message. */
  lemma CleanupDisconnects(s: State, events: seq<Event>)
    requires forall k :: 0 <= k < |events| ==> !Connects(events[k])
    ensures !Run(OnCleanup(s), events).connected
  {
    NeverConnects(OnCleanup(s), events);
  }

  lemma {:induction false} NeverConnects(s: State, events: seq<Event>)
    requires !s.connected
    requires forall k :: 0 <= k < |events| ==> !Connects(events[k])
    ensures !Run(s, events).connected
    decreases |events|
  {
    if |events| > 0 {
      NeverConnects(Next(s, events[0]), events[1..]);
    }
  }

  /** The hook's cells, which the event callbacks overwrite. */
  class RealtimeHook {
    var data: Option<Json>
    var error: Option<HookError>
    var connected: bool

    function Snapshot(): State
      reads this
    {
      State(data, error, connected)
    }

    constructor ()
      ensures Snapshot() == Initial()
    {
      data := Some(JNull);
      error := None;
      connected := false;
    }

    method HandleMessage(parsed: Option<Json>)
      modifies this
      ensures Snapshot() == OnMessage(old(Snapshot()), parsed)
    {
      match parsed {
        case None =>
          error := Some(ParseError);
        case Some(p) =>
          if p == JNull {
            error := Some(NullAccess);
          } else if TypeOf(p) == Some(CONNECTED) {
            connected := true;
          } else if TypeOf(p) == Some(UPDATE) {
            data := Get(p, "data");
          }
      }
    }

    method HandleError()
      modifies this
      ensures Snapshot() == OnError(old(Snapshot()))
    {
      connected := false;
      error := Some(ConnectionLost);
    }

    method Close()
      modifies this
      ensures Snapshot() == OnCleanup(old(Snapshot()))
    {
      connected := false;
    }
  }
}
