/**
 * The backend's in-memory session store: a table from session id to a
 * session record holding the conversation mode, a history capped at the 30
 * most recent messages and a mode-specific data dictionary.
 *
 * The module-level functions say what each store operation does to the
 * table; the class SessionManager performs the operations in place and is
 * proved against them.
 */
module Sessions {
  import opened Values

  /** Messages kept per session. */
  const MaxHistory: nat := 30

  /** One conversation-history entry; timestamps are milliseconds. */
  datatype Entry = Entry(role: string, text: string, timestamp: int)

  datatype Session = Session(
    sessionId: string,
    mode: Value,
    history: seq<Entry>,
    modeData: Dict,
    createdAt: int,
    lastActivity: int)

  type Table = map<string, Session>

  /**
   * `_initialize_mode_data(mode, config)`: the defaults a session starts a
   * mode with. Every branch calls `config.get`, so a configuration that is
   * not a dictionary raises AttributeError.
   */
  function InitializeModeData(mode: Value, config: Value): (r: Result<Dict>)
    ensures r.Ok? <==> config.Object?
    ensures r.Ok? && mode == Str("interview") ==>
      && r.value.Keys == {"role", "company", "question_index", "total_questions", "scores", "evaluations"}
      && r.value["question_index"] == Int(0)
      && r.value["total_questions"] == Get(config.fields, "totalQuestions", Int(5))
      && r.value["scores"] == List([]) && r.value["evaluations"] == List([])
    ensures r.Ok? && mode == Str("debate") ==>
      && r.value.Keys == {"topic", "stance", "arguments_made", "counter_arguments"}
      && r.value["arguments_made"] == List([]) && r.value["counter_arguments"] == List([])
      && r.value["stance"] == Get(config.fields, "stance", Str("pro"))
    ensures r.Ok? && mode != Str("interview") && mode != Str("debate") ==>
      && r.value.Keys == {"user_preferences", "emotional_tone"}
      && r.value["emotional_tone"] == Str("friendly")
  {
    if !config.Object? then Err(AttributeError)
    else
      var c := config.fields;
      if mode == Str("interview") then
        Ok(map[
          "role" := Get(c, "role", Str("Software Engineer")),
          "company" := Get(c, "company", Str("Tech Company")),
          "question_index" := Int(0),
          "total_questions" := Get(c, "totalQuestions", Int(5)),
          "scores" := List([]),
          "evaluations" := List([])])
      else if mode == Str("debate") then
        Ok(map[
          "topic" := Get(c, "topic", Str("AI in society")),
          "stance" := Get(c, "stance", Str("pro")),
          "arguments_made" := List([]),
          "counter_arguments" := List([])])
      else
        Ok(map[
          "user_preferences" := Get(c, "preferences", Object(map[])),
          "emotional_tone" := Str("friendly")])
  }

  /** `log[-n:]` when the log is longer than `n`, else the log itself. */
  function KeepLast<T>(log: seq<T>, n: nat): seq<T>
  {
    if |log| > n then log[|log| - n..] else log
  }

  /** The kept log is the tail of the full one: at most `n` long, all of it when it fits, the newest entry last. */
  lemma KeepLastIsNewestSuffix<T>(log: seq<T>, n: nat)
    ensures |KeepLast(log, n)| == if |log| <= n then |log| else n
    ensures KeepLast(log, n) == log[|log| - |KeepLast(log, n)|..]
    ensures n > 0 && log != [] ==> KeepLast(log, n)[|KeepLast(log, n)| - 1] == log[|log| - 1]
  {
  }

  /** Truncating before an append and truncating after it agree. */
  lemma KeepLastAppend<T>(log: seq<T>, e: T, n: nat)
    ensures KeepLast(KeepLast(log, n) + [e], n) == KeepLast(log + [e], n)
  {
    if |log| > n {
      var k := KeepLast(log, n);
      if n > 0 {
        assert (k + [e])[1..] == (log + [e])[|log| + 1 - n..];
      } else {
        assert KeepLast(k + [e], n) == [];
      }
    }
  }

  /** The history after adding `entries` one at a time with add_message's truncation. */
  function AddAll(history: seq<Entry>, entries: seq<Entry>): seq<Entry>
    decreases |entries|
  {
    if entries == [] then history
    else AddAll(KeepLast(history + [entries[0]], MaxHistory), entries[1..])
  }

  /**
   * However many messages are added, the stored history is exactly the 30
   * most recent of all of them (starting from a history that is within the cap).
   */
  lemma {:induction false} AddAllKeepsNewest(history: seq<Entry>, entries: seq<Entry>)
    requires |history| <= MaxHistory
    ensures AddAll(history, entries) == KeepLast(history + entries, MaxHistory)
    decreases |entries|
  {
    if entries != [] {
      var next := KeepLast(history + [entries[0]], MaxHistory);
      AddAllKeepsNewest(next, entries[1..]);
      KeepLastConcat(history + [entries[0]], entries[1..], MaxHistory);
      assert history + [entries[0]] + entries[1..] == history + entries;
    }
  }

  /** Truncating a prefix first does not change the last `n` of the whole. */
  lemma {:induction false} KeepLastConcat<T>(log: seq<T>, more: seq<T>, n: nat)
    ensures KeepLast(KeepLast(log, n) + more, n) == KeepLast(log + more, n)
    decreases |more|
  {
    if more == [] {
      assert KeepLast(log, n) + more == KeepLast(log, n);
      assert log + more == log;
    } else {
      var init, last := more[..|more| - 1], more[|more| - 1];
      assert more == init + [last];
      KeepLastConcat(log, init, n);
      assert KeepLast(log, n) + more == (KeepLast(log, n) + init) + [last];
      assert log + more == (log + init) + [last];
      KeepLastAppend(KeepLast(log, n) + init, last, n);
      KeepLastAppend(log + init, last, n);
    }
  }

  // ---------------------------------------------------------------------
  // What each operation does to the table

  /** create_session: a new record under `id`, with an empty history. */
  function WithSession(t: Table, id: string, mode: Value, data: Dict, now: int): Table
  {
    t[id := Session(id, mode, [], data, now, now)]
  }

  /** add_message: append to the history, keep its last 30 entries, refresh last_activity. */
  function WithMessage(t: Table, id: string, role: string, text: string, now: int): Table
  {
    if id !in t then t
    else
      var s := t[id];
      t[id := s.(history := KeepLast(s.history + [Entry(role, text, now)], MaxHistory), lastActivity := now)]
  }

  /**
   * change_mode: the mode is assigned first and the defaults computed after,
   * so a configuration that makes the defaults raise leaves the new mode with
   * the old data.
   */
  function WithMode(t: Table, id: string, mode: Value, config: Value, now: int): (Table, Option<PyError>)
  {
    if id !in t then (t, None)
    else
      var s := t[id].(mode := mode);
      match InitializeModeData(mode, OrEmpty(config))
      case Err(e) => (t[id := s], Some(e))
      case Ok(d) => (t[id := s.(modeData := d, lastActivity := now)], None)
  }

  /** update_mode_data: `mode_specific_data.update(update)`. */
  function WithModeData(t: Table, id: string, update: Dict): Table
  {
    if id !in t then t else t[id := t[id].(modeData := t[id].modeData + update)]
  }

  /** delete_session */
  function Without(t: Table, id: string): Table
  {
    t - {id}
  }

  /** A session idle for more than `maxAge` seconds at time `now` (milliseconds). */
  predicate Expired(s: Session, now: int, maxAge: int)
  {
    now - s.lastActivity > maxAge * 1000
  }

  /** cleanup_old_sessions: the sessions that are not expired. */
  function Survivors(t: Table, now: int, maxAge: int): Table
  {
    map id | id in t && !Expired(t[id], now, maxAge) :: t[id]
  }

  /** The store invariant: records are filed under their own id and histories respect the cap. */
  predicate WellFormed(t: Table)
  {
    forall id :: id in t ==> t[id].sessionId == id && |t[id].history| <= MaxHistory
  }

  // ---------------------------------------------------------------------
  // Properties of the operations

  /** create_session files the new record and touches nothing else. */
  lemma CreateEffect(t: Table, id: string, mode: Value, config: Value, now: int)
    requires InitializeModeData(mode, OrEmpty(config)).Ok?
    ensures var t' := WithSession(t, id, mode, InitializeModeData(mode, OrEmpty(config)).value, now);
      && t'.Keys == t.Keys + {id}
      && t'[id].mode == mode && t'[id].history == [] && t'[id].sessionId == id
      && t'[id].createdAt == now && t'[id].lastActivity == now
      && t'[id].modeData == InitializeModeData(mode, OrEmpty(config)).value
      && (forall k :: k in t && k != id ==> t'[k] == t[k])
      && (id !in t ==> |t'| == |t| + 1)
  {
  }

  /** Operations on an unknown session id leave the table as it is. */
  lemma UnknownIdUnchanged(t: Table, id: string, role: string, text: string, mode: Value, config: Value, update: Dict, now: int)
    requires id !in t
    ensures WithMessage(t, id, role, text, now) == t
    ensures WithMode(t, id, mode, config, now) == (t, None)
    ensures WithModeData(t, id, update) == t
    ensures Without(t, id) == t
  {
  }

  /** add_message keeps the 30 newest entries, the new one last, and changes no other record or field. */
  lemma {:induction false} AddMessageEffect(t: Table, id: string, role: string, text: string, now: int)
    requires id in t
    ensures var t' := WithMessage(t, id, role, text, now);
      && t'.Keys == t.Keys
      && t'[id].history == KeepLast(t[id].history + [Entry(role, text, now)], MaxHistory)
      && |t'[id].history| <= MaxHistory
      && t'[id].history[|t'[id].history| - 1] == Entry(role, text, now)
      && (|t[id].history| < MaxHistory ==> t'[id].history == t[id].history + [Entry(role, text, now)])
      && t'[id].mode == t[id].mode && t'[id].modeData == t[id].modeData
      && t'[id].sessionId == t[id].sessionId && t'[id].lastActivity == now
      && t'[id].createdAt == t[id].createdAt
      && (forall k :: k in t && k != id ==> t'[k] == t[k])
  {
    KeepLastIsNewestSuffix(t[id].history + [Entry(role, text, now)], MaxHistory);
  }

  /**
   * change_mode sets the mode, resets the data to the new mode's defaults and
   * leaves the history alone; last_activity is refreshed only once the
   * defaults are built, so a raise leaves it as it was.
   */
  lemma ChangeModeEffect(t: Table, id: string, mode: Value, config: Value, now: int)
    requires id in t
    ensures var (t', raised) := WithMode(t, id, mode, config, now);
      && t'.Keys == t.Keys
      && t'[id].mode == mode
      && t'[id].history == t[id].history
      && t'[id].sessionId == t[id].sessionId
      && (raised.None? <==> InitializeModeData(mode, OrEmpty(config)).Ok?)
      && (raised.None? ==> t'[id].modeData == InitializeModeData(mode, OrEmpty(config)).value)
      && (raised.Some? ==> t'[id].modeData == t[id].modeData)
      && t'[id].createdAt == t[id].createdAt
      && (raised.None? ==> t'[id].lastActivity == now)
      && (raised.Some? ==> t'[id].lastActivity == t[id].lastActivity)
      && (forall k :: k in t && k != id ==> t'[k] == t[k])
  {
  }

  /** update_mode_data is a dictionary merge in which the update wins; every other field, last_activity included, stays. */
  lemma UpdateModeDataIsMerge(t: Table, id: string, update: Dict)
    requires id in t
    ensures var t' := WithModeData(t, id, update);
      && t'.Keys == t.Keys
      && t'[id].modeData.Keys == t[id].modeData.Keys + update.Keys
      && (forall k :: k in update ==> t'[id].modeData[k] == update[k])
      && (forall k :: k in t[id].modeData && k !in update ==> t'[id].modeData[k] == t[id].modeData[k])
      && t'[id].mode == t[id].mode && t'[id].history == t[id].history
      && t'[id].sessionId == t[id].sessionId && t'[id].createdAt == t[id].createdAt
      && t'[id].lastActivity == t[id].lastActivity
      && (forall k :: k in t && k != id ==> t'[k] == t[k])
  {
  }

  /** delete_session removes exactly the given id. */
  lemma DeleteEffect(t: Table, id: string)
    ensures Without(t, id).Keys == t.Keys - {id}
    ensures forall k :: k in t && k != id ==> Without(t, id)[k] == t[k]
  {
  }

  /** cleanup_old_sessions removes exactly the expired sessions and keeps the others unchanged. */
  lemma CleanupEffect(t: Table, now: int, maxAge: int)
    ensures forall id :: id in Survivors(t, now, maxAge) <==> id in t && now - t[id].lastActivity <= maxAge * 1000
    ensures forall id :: id in Survivors(t, now, maxAge) ==> Survivors(t, now, maxAge)[id] == t[id]
  {
  }

  /** Every operation keeps the store well formed. */
  lemma {:induction false} OperationsKeepWellFormed(t: Table, id: string, mode: Value, config: Value, data: Dict,
                                                    role: string, text: string, update: Dict, now: int, maxAge: int)
    requires WellFormed(t)
    ensures WellFormed(WithSession(t, id, mode, data, now))
    ensures WellFormed(WithMessage(t, id, role, text, now))
    ensures WellFormed(WithMode(t, id, mode, config, now).0)
    ensures WellFormed(WithModeData(t, id, update))
    ensures WellFormed(Without(t, id))
    ensures WellFormed(Survivors(t, now, maxAge))
  {
    if id in t {
      AddMessageEffect(t, id, role, text, now);
    }
  }

  // ---------------------------------------------------------------------

  /** `SessionManager`: the table itself, updated in place. */
  class SessionManager {
    var sessions: Table

    ghost predicate Valid()
      reads this
    {
      WellFormed(sessions)
    }

    constructor ()
      ensures Valid() && sessions == map[]
    {
      sessions := map[];
    }

    /** create_session; `freshId` stands for `str(uuid.uuid4())`, `now` for the clock. */
    method CreateSession(mode: Value, config: Value, freshId: string, now: int) returns (r: Result<string>)
      requires Valid()
      modifies this
      ensures Valid()
      ensures r.Ok? <==> InitializeModeData(mode, OrEmpty(config)).Ok?
      ensures r.Ok? ==> (r.value == freshId &&
        sessions == WithSession(old(sessions), freshId, mode, InitializeModeData(mode, OrEmpty(config)).value, now))
      ensures r.Err? ==> r.error == InitializeModeData(mode, OrEmpty(config)).error && sessions == old(sessions)
    {
      var cfg := OrEmpty(config);
      var data := InitializeModeData(mode, cfg);
      if data.Err? {
        return Err(data.error);
      }
      var session := Session(freshId, mode, [], data.value, now, now);
      sessions := sessions[freshId := session];
      r := Ok(freshId);
    }

    /** get_session */
    function GetSession(id: string): (r: Option<Session>)
      reads this
      ensures r.Some? <==> id in sessions
      ensures r.Some? ==> r.value == sessions[id]
    {
      if id in sessions then Some(sessions[id]) else None
    }

    /** add_message */
    method AddMessage(id: string, role: string, text: string, now: int)
      requires Valid()
      modifies this
      ensures Valid()
      ensures sessions == WithMessage(old(sessions), id, role, text, now)
    {
      if id !in sessions {
        return;
      }
      var session := sessions[id];
      var history := session.history + [Entry(role, text, now)];
      session := session.(history := history, lastActivity := now);
      if |session.history| > MaxHistory {
        session := session.(history := session.history[|session.history| - MaxHistory..]);
      }
      sessions := sessions[id := session];
      OperationsKeepWellFormed(old(sessions), id, Null, Null, map[], role, text, map[], now, 0);
    }

    /** change_mode; returns the exception the mode defaults raised, if any. */
    method ChangeMode(id: string, mode: Value, config: Value, now: int) returns (raised: Option<PyError>)
      requires Valid()
      modifies this
      ensures Valid()
      ensures (sessions, raised) == WithMode(old(sessions), id, mode, config, now)
    {
      var cfg := OrEmpty(config);
      if id !in sessions {
        raised := None;
        return;
      }
      var session := sessions[id].(mode := mode);
      sessions := sessions[id := session];
      var data := InitializeModeData(mode, cfg);
      if data.Err? {
        raised := Some(data.error);
      } else {
        sessions := sessions[id := session.(modeData := data.value, lastActivity := now)];
        assert sessions == old(sessions)[id := session.(modeData := data.value, lastActivity := now)];
        raised := None;
      }
    }

    /** update_mode_data */
    method UpdateModeData(id: string, update: Dict)
      requires Valid()
      modifies this
      ensures Valid()
      ensures sessions == WithModeData(old(sessions), id, update)
    {
      if id !in sessions {
        return;
      }
      sessions := sessions[id := sessions[id].(modeData := sessions[id].modeData + update)];
    }

    /** delete_session */
    method DeleteSession(id: string)
      requires Valid()
      modifies this
      ensures Valid()
      ensures sessions == Without(old(sessions), id)
    {
      if id in sessions {
        sessions := sessions - {id};
      }
    }

    /** The first loop of cleanup_old_sessions: the ids of the expired sessions, each once. */
    method ExpiredSessionIds(now: int, maxAge: int) returns (ids: seq<string>)
      ensures forall id :: id in ids <==> id in sessions && Expired(sessions[id], now, maxAge)
      ensures forall i, j :: 0 <= i < j < |ids| ==> ids[i] != ids[j]
    {
      ids := [];
      var unseen := sessions.Keys;
      while unseen != {}
        invariant unseen <= sessions.Keys
        invariant forall id :: id in ids <==> id in sessions && id !in unseen && Expired(sessions[id], now, maxAge)
        invariant forall i, j :: 0 <= i < j < |ids| ==> ids[i] != ids[j]
        decreases unseen
      {
        var id :| id in unseen;
        if Expired(sessions[id], now, maxAge) {
          ids := ids + [id];
        }
        unseen := unseen - {id};
      }
    }

    /** cleanup_old_sessions(max_age) at time `now`: collect the expired ids, then delete them. */
    method CleanupOldSessions(now: int, maxAge: int)
      requires Valid()
      modifies this
      ensures Valid()
      ensures sessions == Survivors(old(sessions), now, maxAge)
    {
      var doomed := ExpiredSessionIds(now, maxAge);
      var i := 0;
      while i < |doomed|
        invariant 0 <= i <= |doomed|
        invariant forall id :: id in sessions <==> id in old(sessions) && id !in doomed[..i]
        invariant forall id :: id in sessions ==> sessions[id] == old(sessions)[id]
      {
        sessions := sessions - {doomed[i]};
        assert doomed[..i + 1] == doomed[..i] + [doomed[i]];
        i := i + 1;
      }
      assert doomed[..i] == doomed;
      OperationsKeepWellFormed(old(sessions), "", Null, Null, map[], "", "", map[], now, maxAge);
    }
  }
}
