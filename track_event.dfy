/** The client-side event tracking utility (lib/trackEvent.js): a session
    identifier kept in session storage, the envelope handed to a
    fire-and-forget POST, and the two convenience wrappers.

    The browser is a class: session storage is a map the methods update, the
    requests handed to `fetch` are appended to a ghost outbox, and
    `console.error` lines to a ghost error log. `Date.now()` and the random
    suffix are parameters. Each method is tied to a pure specification
    function, and the lemmas are stated about those functions. */
module TrackEvent {
  import opened Common

  /** The JSON values that the site's metadata objects hold. */
  datatype Value = Str(s: string) | Int(i: int)

  type Metadata = map<string, Value>

  /** The body of one POST to /api/events: exactly these four fields. */
  datatype Envelope = Envelope(eventType: string, page: string, sessionId: Option<string>, metadata: Metadata)

  /** One call `trackEvent(eventType, metadata)`; `None` is an omitted metadata argument. */
  datatype TrackCall = TrackCall(eventType: string, metadata: Option<Metadata>)

  /** How a JavaScript call ended: normally with a value, or by throwing. */
  datatype Completion<T> = Normal(value: T) | Thrown

  /** The session-storage key, shared with the exit beacon of the project pages. */
  const SessionKey: string := "analytics_session_id"

  const TrackingFailedMessage: string := "Event tracking failed:"
  const TrackingErrorMessage: string := "Event tracking error:"

  // ---------------------------------------------------------------------------
  // Session identifiers

  predicate IsBase36(c: char) { '0' <= c <= '9' || 'a' <= c <= 'z' }

  /** What `Math.random().toString(36).substr(2, 9)` can yield: at most nine
      base-36 digits. */
  predicate ValidSuffix(s: string)
  {
    |s| <= 9 && forall i :: 0 <= i < |s| ==> IsBase36(s[i])
  }

  /** `session_${Date.now()}_${suffix}`. */
  function SessionIdFor(nowMs: nat, suffix: string): (id: string)
    ensures |id| > 9 && id[..8] == "session_"
  {
    "session_" + NatToString(nowMs) + "_" + suffix
  }

  /** Splits an identifier of the form `session_<digits>_<rest>` back into the
      timestamp and the suffix; `None` for any other string. */
  function ParseSessionId(id: string): Option<(nat, string)>
  {
    if |id| < 8 || id[..8] != "session_" then None
    else
      var rest := id[8..];
      var k := IndexOf(rest, '_');
      if k == 0 || k == |rest| || !AllDigits(rest[..k]) then None
      else Some((ParseNat(rest[..k]), rest[k + 1..]))
  }

  /** A generated identifier determines the timestamp and the suffix it was
      made from: different creation times or suffixes give different ids. */
  lemma SessionIdRoundTrip(nowMs: nat, suffix: string)
    ensures ParseSessionId(SessionIdFor(nowMs, suffix)) == Some((nowMs, suffix))
  {
    var digits := NatToString(nowMs);
    var id := SessionIdFor(nowMs, suffix);
    var rest := id[8..];
    assert rest == digits + "_" + suffix;
    assert rest[|digits|] == '_';
    assert forall j :: 0 <= j < |digits| ==> rest[j] == digits[j];
    assert IndexOf(rest, '_') == |digits|;
    assert rest[..|digits|] == digits;
    assert rest[|digits| + 1..] == suffix;
    ParseNatToString(nowMs);
  }

  /** The storage lookup `!sessionId` treats as absent: no entry, or the empty
      string (which is falsy). */
  predicate HasSessionId(storage: map<string, string>)
  {
    SessionKey in storage && storage[SessionKey] != ""
  }

  /** getSessionId in a browser whose session storage works: returns the
      identifier and the storage afterwards. */
  function LookupOrCreate(storage: map<string, string>, nowMs: nat, suffix: string): (r: (string, map<string, string>))
    ensures r.0 != "" && SessionKey in r.1 && r.1[SessionKey] == r.0
    ensures HasSessionId(storage) ==> r == (storage[SessionKey], storage)
    ensures !HasSessionId(storage) ==> r.0 == SessionIdFor(nowMs, suffix)
    ensures r.1.Keys == storage.Keys + {SessionKey}
    ensures forall k :: k in storage && k != SessionKey ==> r.1[k] == storage[k]
  {
    if HasSessionId(storage) then (storage[SessionKey], storage)
    else
      var id := SessionIdFor(nowMs, suffix);
      (id, storage[SessionKey := id])
  }

  /** One session id per storage: a second lookup, whatever its clock and
      random inputs, returns the first one's id and writes nothing. */
  lemma SessionIdIdempotent(storage: map<string, string>, ms1: nat, suffix1: string, ms2: nat, suffix2: string)
    ensures LookupOrCreate(LookupOrCreate(storage, ms1, suffix1).1, ms2, suffix2)
         == LookupOrCreate(storage, ms1, suffix1)
  {
  }

  /** The facts about the page a call depends on and does not change. */
  datatype Env = Env(hasWindow: bool, pathname: string, storageUsable: bool, fetchRejects: bool)

  /** getSessionId: null without a window (storage untouched), a thrown error
      when session storage cannot be used, otherwise LookupOrCreate. */
  function SessionIdSpec(env: Env, storage: map<string, string>, nowMs: nat, suffix: string): (r: (Completion<Option<string>>, map<string, string>))
    ensures !env.hasWindow ==> r == (Normal(None), storage)
    ensures env.hasWindow && !env.storageUsable ==> r == (Thrown, storage)
    ensures env.hasWindow && env.storageUsable ==> r.0.Normal? && r.0.value.Some?
    ensures r.0 == Normal(None) <==> !env.hasWindow
  {
    if !env.hasWindow then (Normal(None), storage)
    else if !env.storageUsable then (Thrown, storage)
    else
      var (id, storage') := LookupOrCreate(storage, nowMs, suffix);
      (Normal(Some(id)), storage')
  }

  // ---------------------------------------------------------------------------
  // trackEvent and its wrappers

  /** The default parameter `metadata = {}`. */
  function MetadataOrEmpty(metadata: Option<Metadata>): Metadata
  {
    match metadata
    case None => map[]
    case Some(m) => m
  }

  /** `{element: elementName, ...metadata}`: the spread comes last, so a key
      `element` in the extra metadata overrides the element name. */
  function ClickMetadata(elementName: string, extra: Metadata): (m: Metadata)
    ensures m.Keys == extra.Keys + {"element"}
    ensures m["element"] == if "element" in extra then extra["element"] else Str(elementName)
    ensures forall k :: k in extra ==> m[k] == extra[k]
  {
    map["element" := Str(elementName)] + extra
  }

  /** Everything a tracking call can change: session storage, the envelopes
      handed to fetch, and the console error lines. */
  datatype ClientState = ClientState(storage: map<string, string>, outbox: seq<Envelope>, errorLog: seq<string>)

  /** trackEvent: build the envelope, hand it to fetch, catch everything. A
      synchronous failure (session storage throwing) sends nothing and logs one
      line; a rejected fetch has still been handed its envelope and logs one
      line. Nothing is returned and nothing is thrown. */
  function TrackEventSpec(env: Env, st: ClientState, call: TrackCall, nowMs: nat, suffix: string): (r: ClientState)
    ensures |st.outbox| <= |r.outbox| <= |st.outbox| + 1 && r.outbox[..|st.outbox|] == st.outbox
    ensures |r.outbox| == |st.outbox| + 1 <==> !(env.hasWindow && !env.storageUsable)
    ensures |r.outbox| == |st.outbox| + 1 ==>
      var e := r.outbox[|st.outbox|];
      && e.eventType == call.eventType
      && e.page == (if env.hasWindow then env.pathname else "")
      && e.sessionId == SessionIdSpec(env, st.storage, nowMs, suffix).0.value
      && e.metadata == MetadataOrEmpty(call.metadata)
    ensures r.storage == SessionIdSpec(env, st.storage, nowMs, suffix).1
    ensures |st.errorLog| <= |r.errorLog| <= |st.errorLog| + 1 && r.errorLog[..|st.errorLog|] == st.errorLog
    ensures |r.errorLog| == |st.errorLog| + 1 <==> (env.hasWindow && !env.storageUsable) || env.fetchRejects
  {
    var page := if env.hasWindow then env.pathname else "";
    var (sid, storage') := SessionIdSpec(env, st.storage, nowMs, suffix);
    match sid
    case Thrown => ClientState(storage', st.outbox, st.errorLog + [TrackingErrorMessage])
    case Normal(id) =>
      var e := Envelope(call.eventType, page, id, MetadataOrEmpty(call.metadata));
      ClientState(storage', st.outbox + [e], st.errorLog + if env.fetchRejects then [TrackingFailedMessage] else [])
  }

  /** Two events tracked one after the other in a working browser carry the
      same session id. */
  lemma SameSessionForConsecutiveEvents(env: Env, st: ClientState, c1: TrackCall, c2: TrackCall, ms1: nat, s1: string, ms2: nat, s2: string)
    requires env.hasWindow && env.storageUsable
    ensures var st1 := TrackEventSpec(env, st, c1, ms1, s1);
            var st2 := TrackEventSpec(env, st1, c2, ms2, s2);
            |st2.outbox| == |st.outbox| + 2 &&
            st2.outbox[|st.outbox|].sessionId == st2.outbox[|st.outbox| + 1].sessionId != None
  {
    var st1 := TrackEventSpec(env, st, c1, ms1, s1);
    SessionIdIdempotent(st.storage, ms1, s1, ms2, s2);
  }

  /** A sequence of trackEvent calls, in order, all reading the same clock
      value and random suffix. */
  function TrackAll(env: Env, st: ClientState, calls: seq<TrackCall>, nowMs: nat, suffix: string): ClientState
  {
    if calls == [] then st
    else TrackEventSpec(env, TrackAll(env, st, calls[..|calls| - 1], nowMs, suffix), calls[|calls| - 1], nowMs, suffix)
  }

  /** In a working browser each call of a sequence sends exactly one envelope,
      in call order, with the call's event type and metadata. */
  lemma {:induction false} TrackAllSendsEach(env: Env, st: ClientState, calls: seq<TrackCall>, nowMs: nat, suffix: string)
    requires !(env.hasWindow && !env.storageUsable)
    ensures var r := TrackAll(env, st, calls, nowMs, suffix);
      && |r.outbox| == |st.outbox| + |calls|
      && r.outbox[..|st.outbox|] == st.outbox
      && forall i :: 0 <= i < |calls| ==>
           r.outbox[|st.outbox| + i].eventType == calls[i].eventType &&
           r.outbox[|st.outbox| + i].metadata == MetadataOrEmpty(calls[i].metadata)
  {
    if calls != [] {
      var front := calls[..|calls| - 1];
      TrackAllSendsEach(env, st, front, nowMs, suffix);
      var mid := TrackAll(env, st, front, nowMs, suffix);
      var r := TrackAll(env, st, calls, nowMs, suffix);
      assert r == TrackEventSpec(env, mid, calls[|calls| - 1], nowMs, suffix);
      assert r.outbox[..|mid.outbox|] == mid.outbox;
      forall i | 0 <= i < |calls|
        ensures r.outbox[|st.outbox| + i].eventType == calls[i].eventType
        ensures r.outbox[|st.outbox| + i].metadata == MetadataOrEmpty(calls[i].metadata)
      {
        if i < |front| {
          assert r.outbox[|st.outbox| + i] == mid.outbox[|st.outbox| + i];
          assert front[i] == calls[i];
        }
      }
      calc {
        r.outbox[..|st.outbox|];
        mid.outbox[..|mid.outbox|][..|st.outbox|];
        st.outbox;
      }
    }
  }

  /** The browser tab, as lib/trackEvent.js sees it. */
  class Browser {
    /** `typeof window !== 'undefined'`. */
    const hasWindow: bool
    /** `window.location.pathname`. */
    const pathname: string
    /** Whether reading and writing sessionStorage succeeds. */
    const storageUsable: bool
    /** Whether the POSTs to /api/events reject (network error, API down). */
    const fetchRejects: bool
    var sessionStorage: map<string, string>
    /** The envelopes handed to fetch, in call order. */
    ghost var outbox: seq<Envelope>
    /** The lines written with console.error. */
    ghost var errorLog: seq<string>

    function Context(): Env
    {
      Env(hasWindow, pathname, storageUsable, fetchRejects)
    }

    ghost function State(): ClientState
      reads this
    {
      ClientState(sessionStorage, outbox, errorLog)
    }

    constructor (hasWindow: bool, pathname: string, storageUsable: bool, fetchRejects: bool, storage: map<string, string>)
      ensures Context() == Env(hasWindow, pathname, storageUsable, fetchRejects)
      ensures State() == ClientState(storage, [], [])
    {
      this.hasWindow := hasWindow;
      this.pathname := pathname;
      this.storageUsable := storageUsable;
      this.fetchRejects := fetchRejects;
      sessionStorage := storage;
      outbox := [];
      errorLog := [];
    }

    /** getSessionId(), with `Date.now()` and the random suffix as inputs. */
    method GetSessionId(nowMs: nat, suffix: string) returns (r: Completion<Option<string>>)
      requires ValidSuffix(suffix)
      modifies this`sessionStorage
      ensures (r, sessionStorage) == SessionIdSpec(Context(), old(sessionStorage), nowMs, suffix)
    {
      if !hasWindow {
        return Normal(None);
      }
      if !storageUsable {
        return Thrown;
      }
      var stored := if SessionKey in sessionStorage then Some(sessionStorage[SessionKey]) else None;
      var id: string;
      if stored == None || stored.value == "" {
        id := SessionIdFor(nowMs, suffix);
        sessionStorage := sessionStorage[SessionKey := id];
      } else {
        id := stored.value;
      }
      return Normal(Some(id));
    }

    /** trackEvent(eventType, metadata). */
    method TrackEvent(eventType: string, metadata: Option<Metadata>, nowMs: nat, suffix: string)
      requires ValidSuffix(suffix)
      modifies this`sessionStorage, this`outbox, this`errorLog
      ensures State() == TrackEventSpec(Context(), old(State()), TrackCall(eventType, metadata), nowMs, suffix)
    {
      var page := if hasWindow then pathname else "";
      var sid := GetSessionId(nowMs, suffix);
      match sid {
        case Thrown =>
          errorLog := errorLog + [TrackingErrorMessage];
        case Normal(id) =>
          outbox := outbox + [Envelope(eventType, page, id, MetadataOrEmpty(metadata))];
          if fetchRejects {
            errorLog := errorLog + [TrackingFailedMessage];
          }
      }
    }

    /** trackPageView(metadata): exactly trackEvent('page_view', metadata). */
    method TrackPageView(metadata: Option<Metadata>, nowMs: nat, suffix: string)
      requires ValidSuffix(suffix)
      modifies this`sessionStorage, this`outbox, this`errorLog
      ensures State() == TrackEventSpec(Context(), old(State()), TrackCall("page_view", metadata), nowMs, suffix)
    {
      TrackEvent("page_view", Some(MetadataOrEmpty(metadata)), nowMs, suffix);
    }

    /** trackClick(elementName, metadata): trackEvent('click', {element, ...metadata}). */
    method TrackClick(elementName: string, metadata: Option<Metadata>, nowMs: nat, suffix: string)
      requires ValidSuffix(suffix)
      modifies this`sessionStorage, this`outbox, this`errorLog
      ensures State() == TrackEventSpec(Context(), old(State()),
                TrackCall("click", Some(ClickMetadata(elementName, MetadataOrEmpty(metadata)))), nowMs, suffix)
    {
      TrackEvent("click", Some(ClickMetadata(elementName, MetadataOrEmpty(metadata))), nowMs, suffix);
    }
  }
}
