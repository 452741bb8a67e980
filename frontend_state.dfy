/** The front end's session bookkeeping: a session id kept in the page's query parameters, a
    process-wide store of per-session records, and the per-browser-session defaults. */
module FrontendState {
  import opened Wrappers

  /** A query parameter's value: a single string, or a list of strings. */
  datatype ParamValue = Text(text: string) | Items(values: seq<string>)

  const SidKey := "sid"

  /** Python truthiness of a parameter value: a non-empty string or a non-empty list. */
  predicate Truthy(v: ParamValue) {
    match v
    case Text(t) => t != ""
    case Items(xs) => xs != []
  }

  /** The session id an existing, truthy "sid" parameter carries: the string itself, or the first
      element of a list. */
  function ExistingSessionId(entries: map<string, ParamValue>): (r: Option<string>)
    ensures r.Some? <==> SidKey in entries && Truthy(entries[SidKey])
    ensures r.Some? ==> r.value == match entries[SidKey]
                                   case Text(t) => t
                                   case Items(xs) => xs[0]
  {
    if SidKey !in entries then None
    else match entries[SidKey]
      case Text(t) => if t != "" then Some(t) else None
      case Items(xs) => if xs != [] then Some(xs[0]) else None
  }

  /** A non-empty id stored under "sid" is read back as itself. */
  lemma StoredIdIsExisting(entries: map<string, ParamValue>, sid: string)
    requires sid != ""
    ensures ExistingSessionId(entries[SidKey := Text(sid)]) == Some(sid)
  {
  }

  /** `st.query_params`: the page's query parameters. */
  class QueryParams {
    var entries: map<string, ParamValue>

    constructor(initial: map<string, ParamValue>)
      ensures entries == initial
    {
      entries := initial;
    }
  }

  /** `_get_or_set_query_session_id()`. An existing truthy "sid" is returned and the parameters are
      left alone; otherwise `freshId` (a new uuid4 hex string) is stored under "sid" and returned,
      so that a page refresh finds the same id again. */
  method GetOrSetQuerySessionId(params: QueryParams, freshId: string) returns (sid: string)
    modifies params
    ensures ExistingSessionId(old(params.entries)).Some? ==>
      sid == ExistingSessionId(old(params.entries)).value && params.entries == old(params.entries)
    ensures ExistingSessionId(old(params.entries)).None? ==>
      sid == freshId && params.entries == old(params.entries)[SidKey := Text(freshId)]
  {
    var existing := ExistingSessionId(params.entries);
    if existing.Some? {
      return existing.value;
    }
    sid := freshId;
    params.entries := params.entries[SidKey := Text(sid)];
  }

  /** The record kept for one session. */
  datatype Record<D, H> = Record(detectionResult: D, chatHistory: H)

  /** `get_persistent_store()`: one dictionary per process, keyed by session id. */
  class PersistentStore<D, H> {
    var records: map<string, Record<D, H>>

    constructor()
      ensures records == map[]
    {
      records := map[];
    }

    /** `load_persisted_state(session_id)`: the saved record, or None for an id never saved. */
    function Load(sessionId: string): (r: Option<Record<D, H>>)
      reads this
      ensures r.Some? <==> sessionId in records
      ensures r.Some? ==> r.value == records[sessionId]
    {
      if sessionId in records then Some(records[sessionId]) else None
    }

    /** `save_persisted_state(session_id, detection_result, chat_history)`: the whole record of
        `sessionId` is replaced, so loading it gives back exactly what was saved, and every other
        session's record is untouched. */
    method Save(sessionId: string, detectionResult: D, chatHistory: H)
      modifies this
      ensures Load(sessionId) == Some(Record(detectionResult, chatHistory))
      ensures forall other :: other != sessionId ==> Load(other) == old(Load(other))
      ensures records.Keys == old(records.Keys) + {sessionId}
    {
      records := records[sessionId := Record(detectionResult, chatHistory)];
    }
  }

  /** A `st.session_state` entry: absent, or present with its value. */
  datatype Slot<T> = Unset | Set(value: T)

  /** The entries of `st.session_state` this module initialises. `D` is the detection payload the
      detection API returns, `H` one entry of the chat transcript. */
  class SessionState<D, H> {
    var sessionId: Slot<string>
    var detectedDisease: Slot<Option<string>>
    var detectionResult: Slot<Option<D>>
    var chatHistory: Slot<seq<H>>

    constructor()
      ensures sessionId == Unset && detectedDisease == Unset
      ensures detectionResult == Unset && chatHistory == Unset
    {
      sessionId, detectedDisease, detectionResult, chatHistory := Unset, Unset, Unset, Unset;
    }

    /** Every entry is present. */
    predicate Initialised()
      reads this
    {
      sessionId.Set? && detectedDisease.Set? && detectionResult.Set? && chatHistory.Set?
    }

    /** `init_state()`. Each missing entry gets its default: the query-parameter session id, no
        detected disease, no detection result and an empty transcript. A present entry is never
        overwritten, and the query parameters are only touched when the session id is missing,
        so a second call changes nothing. */
    method InitState(params: QueryParams, freshId: string)
      modifies this, params
      ensures Initialised()
      ensures old(sessionId).Set? ==> sessionId == old(sessionId) && params.entries == old(params.entries)
      ensures old(sessionId).Unset? ==>
        match ExistingSessionId(old(params.entries))
        case Some(existing) => sessionId == Set(existing) && params.entries == old(params.entries)
        case None => sessionId == Set(freshId) && params.entries == old(params.entries)[SidKey := Text(freshId)]
      ensures detectedDisease == if old(detectedDisease).Set? then old(detectedDisease) else Set(None)
      ensures detectionResult == if old(detectionResult).Set? then old(detectionResult) else Set(None)
      ensures chatHistory == if old(chatHistory).Set? then old(chatHistory) else Set([])
      ensures old(Initialised()) ==>
        && sessionId == old(sessionId) && detectedDisease == old(detectedDisease)
        && detectionResult == old(detectionResult) && chatHistory == old(chatHistory)
        && params.entries == old(params.entries)
    {
      if sessionId.Unset? {
        var sid := GetOrSetQuerySessionId(params, freshId);
        sessionId := Set(sid);
      }
      if detectedDisease.Unset? {
        detectedDisease := Set(None);
      }
      if detectionResult.Unset? {
        detectionResult := Set(None);
      }
      if chatHistory.Unset? {
        chatHistory := Set([]);
      }
    }
  }
}
