/**
 * The workout log and session store (services/storageService.ts).
 *
 * The browser's key-value storage holds three independent slots: the list of
 * workout logs, the single active-session marker and the settings record.
 * Serialisation is abstracted away: each slot holds either nothing, a payload
 * that does not parse, or a parsed value.
 */
module Storage {
  import opened Types

  /** The contents of one storage slot. */
  datatype Payload<+T> = Absent | Corrupt | Present(value: T)

  /** The active-session marker. */
  datatype Session = Session(dayId: string, startTime: int)

  /**
   * The index of the first log with the given date and day id, or -1
   * (`findIndex`).
   */
  function KeyIndex(logs: seq<WorkoutLog>, date: string, dayId: string): (r: int)
    ensures -1 <= r < |logs|
    ensures r >= 0 ==> HasKey(logs[r], date, dayId)
    ensures forall j :: 0 <= j < |logs| && (r < 0 || j < r) ==> !HasKey(logs[j], date, dayId)
  {
    if logs == [] then -1
    else if HasKey(logs[0], date, dayId) then 0
    else
      var i := KeyIndex(logs[1..], date, dayId);
      if i < 0 then -1 else i + 1
  }

  /**
   * The list `saveWorkoutLog` writes back: the first log with the same date and
   * day id is replaced in place, otherwise the new log goes at the end.
   */
  function Upsert(logs: seq<WorkoutLog>, log: WorkoutLog): (r: seq<WorkoutLog>)
    ensures KeyIndex(logs, log.date, log.dayId) >= 0 ==>
      var i := KeyIndex(logs, log.date, log.dayId);
      |r| == |logs| && r[i] == log &&
      forall j :: 0 <= j < |logs| && j != i ==> r[j] == logs[j]
    ensures KeyIndex(logs, log.date, log.dayId) < 0 ==>
      |r| == |logs| + 1 && r[..|logs|] == logs && r[|logs|] == log
  {
    var i := KeyIndex(logs, log.date, log.dayId);
    if i >= 0 then logs[i := log] else logs + [log]
  }

  /** At most one log per (date, dayId). */
  ghost predicate UniqueKeys(logs: seq<WorkoutLog>)
  {
    forall i, j :: 0 <= i < j < |logs| ==> !HasKey(logs[j], logs[i].date, logs[i].dayId)
  }

  /** The log a key lookup finds (`find`), if any. */
  function Lookup(logs: seq<WorkoutLog>, date: string, dayId: string): (r: Option<WorkoutLog>)
    ensures r.Some? <==> exists j :: 0 <= j < |logs| && HasKey(logs[j], date, dayId)
    ensures r.Some? ==> r.value in logs && HasKey(r.value, date, dayId)
    ensures r.Some? ==> r.value == logs[KeyIndex(logs, date, dayId)]
  {
    var i := KeyIndex(logs, date, dayId);
    if i >= 0 then Some(logs[i]) else None
  }

  /** After an upsert, looking up the saved key finds exactly the saved log. */
  lemma UpsertThenLookup(logs: seq<WorkoutLog>, log: WorkoutLog)
    ensures Lookup(Upsert(logs, log), log.date, log.dayId) == Some(log)
  {
    var r := Upsert(logs, log);
    var i := KeyIndex(logs, log.date, log.dayId);
    var k := if i >= 0 then i else |logs|;
    assert HasKey(r[k], log.date, log.dayId);
    assert forall j :: 0 <= j < k ==> r[j] == logs[j];
    FirstKeyIndex(r, log.date, log.dayId, k);
  }

  /** An index holding the key, with no earlier one, is what KeyIndex finds. */
  lemma FirstKeyIndex(logs: seq<WorkoutLog>, date: string, dayId: string, k: int)
    requires 0 <= k < |logs| && HasKey(logs[k], date, dayId)
    requires forall j :: 0 <= j < k ==> !HasKey(logs[j], date, dayId)
    ensures KeyIndex(logs, date, dayId) == k
  {
  }

  /** Lookups of every other key are not affected by an upsert. */
  lemma UpsertKeepsOtherKeys(logs: seq<WorkoutLog>, log: WorkoutLog, date: string, dayId: string)
    requires !HasKey(log, date, dayId)
    ensures Lookup(Upsert(logs, log), date, dayId) == Lookup(logs, date, dayId)
  {
    var r := Upsert(logs, log);
    var i := KeyIndex(logs, date, dayId);
    if i >= 0 {
      assert r[i] == logs[i];
      FirstKeyIndex(r, date, dayId, i);
    } else {
      assert forall j :: 0 <= j < |r| ==> !HasKey(r[j], date, dayId);
    }
  }

  /** An upsert keeps "at most one log per (date, dayId)". */
  lemma UpsertKeepsUniqueKeys(logs: seq<WorkoutLog>, log: WorkoutLog)
    requires UniqueKeys(logs)
    ensures UniqueKeys(Upsert(logs, log))
  {
    var r := Upsert(logs, log);
    var i := KeyIndex(logs, log.date, log.dayId);
    forall a, b | 0 <= a < b < |r|
      ensures !HasKey(r[b], r[a].date, r[a].dayId)
    {
      if i >= 0 {
        if a == i {
          assert !HasKey(logs[b], logs[a].date, logs[a].dayId);
        } else if b == i {
          assert !HasKey(logs[b], logs[a].date, logs[a].dayId);
        }
      } else if b == |logs| {
        assert !HasKey(logs[a], log.date, log.dayId);
      }
    }
  }

  /**
   * Two saves under the same key leave the list the second save alone would
   * leave: the last write wins and nothing is duplicated.
   */
  lemma UpsertLastWriteWins(logs: seq<WorkoutLog>, first: WorkoutLog, second: WorkoutLog)
    requires HasKey(second, first.date, first.dayId)
    ensures Upsert(Upsert(logs, first), second) == Upsert(logs, second)
  {
    var mid := Upsert(logs, first);
    var i := KeyIndex(logs, first.date, first.dayId);
    var k := if i >= 0 then i else |logs|;
    assert forall j :: 0 <= j < k ==> mid[j] == logs[j];
    FirstKeyIndex(mid, second.date, second.dayId, k);
  }

  /** Saving the same log twice leaves the list that saving it once leaves. */
  lemma UpsertIdempotent(logs: seq<WorkoutLog>, log: WorkoutLog)
    ensures Upsert(Upsert(logs, log), log) == Upsert(logs, log)
  {
    UpsertLastWriteWins(logs, log, log);
  }

  /** The three persisted slots and the operations on them. */
  class Store {
    var logs: Payload<seq<WorkoutLog>>
    var session: Payload<Session>
    var settings: Payload<UserSettings>

    /** A store whose slots hold the given payloads (a page load). */
    constructor (logs: Payload<seq<WorkoutLog>>, session: Payload<Session>, settings: Payload<UserSettings>)
      ensures this.logs == logs && this.session == session && this.settings == settings
    {
      this.logs, this.session, this.settings := logs, session, settings;
    }

    /** `getWorkoutLogs`: the stored list, or the empty list when nothing parses. */
    function WorkoutLogs(): (r: seq<WorkoutLog>)
      reads this
      ensures logs.Present? ==> r == logs.value
      ensures !logs.Present? ==> r == []
    {
      if logs.Present? then logs.value else []
    }

    /** `getSessionStartTime`: the marker's start time, only for the marker's own day. */
    function SessionStartTime(dayId: string): (r: Option<int>)
      reads this
      ensures r.Some? <==> session.Present? && session.value.dayId == dayId
      ensures r.Some? ==> r.value == session.value.startTime
    {
      if session.Present? && session.value.dayId == dayId then Some(session.value.startTime) else None
    }

    /** `getUserSettings`: the stored record, or the empty record when nothing parses. */
    function UserSettingsRecord(): (r: UserSettings)
      reads this
      ensures settings.Present? ==> r == settings.value
      ensures !settings.Present? ==> r == EmptySettings
    {
      if settings.Present? then settings.value else EmptySettings
    }

    /**
     * `saveWorkoutLog`: upsert by (date, dayId) into what the logs slot reads as,
     * and write the whole list back.
     */
    method SaveWorkoutLog(log: WorkoutLog)
      modifies this`logs
      ensures logs == Present(Upsert(old(WorkoutLogs()), log))
      ensures Lookup(WorkoutLogs(), log.date, log.dayId) == Some(log)
      ensures UniqueKeys(old(WorkoutLogs())) ==> UniqueKeys(WorkoutLogs())
    {
      var current := WorkoutLogs();
      var existingIndex := KeyIndex(current, log.date, log.dayId);
      if existingIndex >= 0 {
        current := current[existingIndex := log];
      } else {
        current := current + [log];
      }
      logs := Present(current);
      UpsertThenLookup(old(WorkoutLogs()), log);
      if UniqueKeys(old(WorkoutLogs())) {
        UpsertKeepsUniqueKeys(old(WorkoutLogs()), log);
      }
    }

    /**
     * `startSession`: a marker for this day with a non-zero start time is kept
     * and its start returned; otherwise the slot is overwritten with this day
     * and `now`, whatever it held before.
     */
    method StartSession(dayId: string, now: int) returns (startTime: int)
      modifies this`session
      ensures var existing := old(SessionStartTime(dayId));
        if existing.Some? && existing.value != 0 then
          startTime == existing.value && session == old(session)
        else
          startTime == now && session == Present(Session(dayId, now))
      ensures SessionStartTime(dayId) == Some(startTime)
    {
      var existing := SessionStartTime(dayId);
      if existing.Some? && existing.value != 0 {
        return existing.value;
      }
      startTime := now;
      session := Present(Session(dayId, startTime));
    }

    /** `endSession`: clears the slot whatever day is passed. */
    method EndSession(dayId: string)
      modifies this`session
      ensures session == Absent
      ensures forall d :: SessionStartTime(d) == None
    {
      session := Absent;
    }

    /** `saveUserSettings`: the record replaces the slot's contents. */
    method SaveUserSettings(s: UserSettings)
      modifies this`settings
      ensures settings == Present(s)
      ensures UserSettingsRecord() == s
    {
      settings := Present(s);
    }
  }

  /**
   * The session state machine on one store: starting twice for a day returns
   * the first start; another day sees no session; ending clears it for all.
   */
  method SessionScenario(now1: int, now2: int)
    requires now1 != 0
  {
    var store := new Store(Absent, Corrupt, Absent);
    assert store.SessionStartTime("mon") == None;
    var t1 := store.StartSession("mon", now1);
    var t2 := store.StartSession("mon", now2);
    assert t1 == t2 == now1;
    assert store.SessionStartTime("wed") == None;
    var t3 := store.StartSession("wed", now2);
    assert t3 == now2 && store.SessionStartTime("mon") == None;
    store.EndSession("mon");
    assert store.SessionStartTime("wed") == None;
  }
}
