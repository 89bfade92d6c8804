/**
 * The reminder store (app/crud/reminder_crud.py): a collection of reminder
 * documents keyed by ObjectId and scoped by owner, and the append-only log
 * of deletions.
 */
module ReminderCrud {
  import opened Wrappers
  import opened Clock
  import opened Recurrence

  /** The text of an ObjectId as `str(ObjectId(...))` prints it: 24 lower-case hex digits. */
  predicate IsCanonicalOid(s: string) {
    |s| == 24 && forall i :: 0 <= i < |s| ==> '0' <= s[i] <= '9' || 'a' <= s[i] <= 'f'
  }

  type Id = s: string | IsCanonicalOid(s) witness "000000000000000000000000"

  predicate IsHexDigit(c: char) {
    '0' <= c <= '9' || 'a' <= c <= 'f' || 'A' <= c <= 'F'
  }

  function LowerHex(c: char): char {
    if 'A' <= c <= 'F' then (c as int + 32) as char else c
  }

  /**
   * `ObjectId(text)`: accepted iff the text is 24 hex digits of either case,
   * and then it denotes the same id as its lower-case spelling. Text with
   * whitespace between hex pairs, which `bytes.fromhex` would skip, is
   * rejected here.
   */
  function ParseObjectId(s: string): (r: Result<Id>)
    ensures r.Ok? <==> |s| == 24 && forall i :: 0 <= i < |s| ==> IsHexDigit(s[i])
    ensures r.Err? ==> r.error == InvalidId
    ensures IsCanonicalOid(s) ==> r == Ok(s)
    ensures r.Ok? ==> forall i :: 0 <= i < 24 ==> r.value[i] == LowerHex(s[i])
  {
    if |s| == 24 && forall i :: 0 <= i < |s| ==> IsHexDigit(s[i]) then
      var lowered := seq(24, i requires 0 <= i < 24 => LowerHex(s[i]));
      assert IsCanonicalOid(s) ==> lowered == s;
      Ok(lowered)
    else
      Err(InvalidId)
  }

  /** The fields `add_reminder` passes to `create`. */
  datatype NewReminder = NewReminder(userId: string, message: string, date: Moment, recurring: Option<string>)

  /**
   * A stored reminder document. `date` is optional because documents without
   * one are handled (`"date" not in reminder`); `recurring` is the stored
   * string or None.
   */
  datatype Reminder = Reminder(
    userId: string,
    message: string,
    date: Option<Moment>,
    recurring: Option<string>,
    completed: bool,
    status: string,
    timestamp: int)

  /** A document as `find` returns it: its `_id` and its fields. */
  datatype Doc = Doc(id: Id, rec: Reminder)

  /** An entry of the deletion log. */
  datatype AuditEntry = AuditEntry(userId: string, status: string, timestamp: int)

  type Table = map<Id, Reminder>

  /**
   * The document `create` inserts: the given fields plus the creation
   * stamps. It is active: its owner's listing and the global scan match it,
   * and no other user's listing does.
   */
  function NewRecord(data: NewReminder, now: int): (r: Reminder)
    ensures Matches(r, Some(data.userId)) && Matches(r, None)
    ensures forall other :: Matches(r, Some(other)) ==> other == data.userId
  {
    Reminder(data.userId, data.message, Some(data.date), data.recurring, false, "created", now)
  }

  /** The `find` filters: `{"user_id": u, "completed": False}` (owner given) or `{"completed": False}`. */
  predicate Matches(r: Reminder, owner: Option<string>) {
    !r.completed && (owner.None? || r.userId == owner.value)
  }

  function MatchingIds(t: Table, owner: Option<string>): set<Id> {
    set id | id in t && Matches(t[id], owner)
  }

  function Ids(docs: seq<Doc>): set<Id> {
    set i | 0 <= i < |docs| :: docs[i].id
  }

  lemma IdsAppend(docs: seq<Doc>, d: Doc)
    ensures Ids(docs + [d]) == Ids(docs) + {d.id}
  {
    var extended := docs + [d];
    assert extended[|docs|].id == d.id;
    forall x | x in Ids(docs) ensures x in Ids(extended) {
      var i :| 0 <= i < |docs| && docs[i].id == x;
      assert extended[i].id == x;
    }
  }

  /** A scan lists as many documents as it has distinct ids. */
  lemma {:induction false} DistinctIdsCount(docs: seq<Doc>)
    requires forall i, j :: 0 <= i < j < |docs| ==> docs[i].id != docs[j].id
    ensures |Ids(docs)| == |docs|
    decreases |docs|
  {
    if docs == [] {
      assert Ids(docs) == {};
    } else {
      var prefix := docs[..|docs| - 1];
      var last := docs[|docs| - 1];
      DistinctIdsCount(prefix);
      assert prefix + [last] == docs;
      IdsAppend(prefix, last);
      assert last.id !in Ids(prefix) by {
        forall i | 0 <= i < |prefix| ensures prefix[i].id != last.id {
          assert prefix[i] == docs[i];
        }
      }
    }
  }

  /**
   * `docs` is what `find(filter).to_list(None)` returns: each matching
   * document exactly once, with its current fields, in some order.
   */
  ghost predicate IsSnapshot(t: Table, owner: Option<string>, docs: seq<Doc>) {
    && Ids(docs) == MatchingIds(t, owner)
    && (forall i :: 0 <= i < |docs| ==> docs[i].id in t && docs[i].rec == t[docs[i].id])
    && (forall i, j :: 0 <= i < j < |docs| ==> docs[i].id != docs[j].id)
  }

  predicate Owns(t: Table, u: string, id: Id) {
    id in t && t[id].userId == u
  }

  /**
   * `update_one({"_id": id}, {"$set": {"completed": True}})` when the id is
   * known: the conditional completion. It reports a modification only when
   * the flag was false.
   */
  function SetCompleted(t: Table, id: Id): (Table, bool)
    requires id in t
  {
    (t[id := t[id].(completed := true)], !t[id].completed)
  }

  /** `mark_completed(u, raw)`: the new table and the result (or the exception). */
  function MarkCompletedOf(t: Table, u: string, raw: string): (Table, Result<bool>) {
    match ParseObjectId(raw)
    case Err(e) => (t, Err(e))
    case Ok(id) =>
      if !Owns(t, u, id) then (t, Ok(false))
      else
        var r := t[id];
        if Truthy(r.recurring) then
          if r.date.None? then (t, Err(MissingField("date")))
          else
            var days := RecurrenceDays(r.recurring.value).GetOr(0);
            (t[id := r.(date := Some(Shift(r.date.value, days * MinutesPerDay)))], Ok(true))
        else
          var (t', modified) := SetCompleted(t, id);
          (t', Ok(modified))
  }

  /** The confirmation handler's `update_one` by `_id` alone (any owner, any kind). */
  function CompleteByIdOf(t: Table, raw: string): (Table, Result<bool>) {
    match ParseObjectId(raw)
    case Err(e) => (t, Err(e))
    case Ok(id) =>
      if id !in t then (t, Ok(false))
      else
        var (t', modified) := SetCompleted(t, id);
        (t', Ok(modified))
  }

  /** `delete(u, raw)` at time `now`: the new table, the new log and the result. */
  function DeleteOf(t: Table, log: seq<AuditEntry>, u: string, raw: string, now: int)
    : (Table, seq<AuditEntry>, Result<bool>)
  {
    match ParseObjectId(raw)
    case Err(e) => (t, log, Err(e))
    case Ok(id) =>
      if Owns(t, u, id) then (t - {id}, log + [AuditEntry(u, "deleted", now)], Ok(true))
      else (t, log, Ok(false))
  }

  /** The in-memory collection behind `MongoReminderRepository`. */
  class ReminderRepository {
    var records: Table
    var audit: seq<AuditEntry>

    constructor ()
      ensures records == map[] && audit == []
    {
      records := map[];
      audit := [];
    }

    /**
     * `create`: inserts the fields stamped `completed = false`,
     * `status = "created"` under the id the driver generated, and returns
     * that id; an id already taken raises DuplicateKey and inserts nothing.
     */
    method Create(data: NewReminder, oid: Id, now: int) returns (r: Result<Id>)
      modifies this
      ensures audit == old(audit)
      ensures oid in old(records) ==> r == Err(DuplicateKey) && records == old(records)
      ensures oid !in old(records) ==> r == Ok(oid) && records == old(records)[oid := NewRecord(data, now)]
    {
      if oid in records {
        r := Err(DuplicateKey);
      } else {
        records := records[oid := NewRecord(data, now)];
        r := Ok(oid);
      }
    }

    /** `find(filter).to_list(None)`: every matching document once. */
    method Find(owner: Option<string>) returns (docs: seq<Doc>)
      ensures IsSnapshot(records, owner, docs)
    {
      docs := [];
      var rest := records.Keys;
      while rest != {}
        invariant rest <= records.Keys
        invariant Ids(docs) == MatchingIds(records, owner) - rest
        invariant forall i :: 0 <= i < |docs| ==> docs[i].id in records && docs[i].rec == records[docs[i].id]
        invariant forall i, j :: 0 <= i < j < |docs| ==> docs[i].id != docs[j].id
        decreases rest
      {
        var id :| id in rest;
        if Matches(records[id], owner) {
          assert id !in Ids(docs);
          IdsAppend(docs, Doc(id, records[id]));
          docs := docs + [Doc(id, records[id])];
        }
        rest := rest - {id};
      }
    }

    /** `get_all(u)`: exactly the owner's documents that are not completed. */
    method GetAll(u: string) returns (docs: seq<Doc>)
      ensures IsSnapshot(records, Some(u), docs)
    {
      docs := Find(Some(u));
    }

    /** `find_one({"_id": ObjectId(raw)})`: the document with that id, of any owner. */
    method FindById(raw: string) returns (r: Result<Option<Reminder>>)
      ensures ParseObjectId(raw).Err? ==> r == Err(InvalidId)
      ensures ParseObjectId(raw).Ok? ==>
        var id := ParseObjectId(raw).value;
        r == Ok(if id in records then Some(records[id]) else None)
    {
      var parsed := ParseObjectId(raw);
      if parsed.Err? {
        r := Err(parsed.error);
      } else if parsed.value in records {
        r := Ok(Some(records[parsed.value]));
      } else {
        r := Ok(None);
      }
    }

    /** `update_one({"_id": id}, {"$set": {"date": date}})` on an existing id. */
    method SetDate(id: Id, date: Moment)
      requires id in records
      modifies this
      ensures records == old(records)[id := old(records)[id].(date := Some(date))]
      ensures audit == old(audit)
    {
      records := records[id := records[id].(date := Some(date))];
    }

    /**
     * `mark_completed(u, raw)`: advances an owned recurring document by its
     * kind's step, or conditionally completes an owned one-shot document.
     */
    method MarkCompleted(u: string, raw: string) returns (r: Result<bool>)
      modifies this
      ensures (records, r) == MarkCompletedOf(old(records), u, raw)
      ensures audit == old(audit)
    {
      var parsed := ParseObjectId(raw);
      if parsed.Err? {
        return Err(parsed.error);
      }
      var id := parsed.value;
      if !Owns(records, u, id) {
        return Ok(false);
      }
      var rec := records[id];
      if Truthy(rec.recurring) {
        if rec.date.None? {
          return Err(MissingField("date"));
        }
        var days := RecurrenceDays(rec.recurring.value).GetOr(0);
        records := records[id := rec.(date := Some(Shift(rec.date.value, days * MinutesPerDay)))];
        r := Ok(true);
      } else {
        records := records[id := rec.(completed := true)];
        r := Ok(!rec.completed);
      }
    }

    /** The collection's `update_one({"_id": id}, {"$set": {"completed": True}})`. */
    method CompleteById(raw: string) returns (r: Result<bool>)
      modifies this
      ensures (records, r) == CompleteByIdOf(old(records), raw)
      ensures audit == old(audit)
    {
      var parsed := ParseObjectId(raw);
      if parsed.Err? {
        return Err(parsed.error);
      }
      var id := parsed.value;
      if id !in records {
        return Ok(false);
      }
      r := Ok(!records[id].completed);
      records := records[id := records[id].(completed := true)];
    }

    /** `delete(u, raw)`: hard delete of an owned document plus one log entry. */
    method Delete(u: string, raw: string, now: int) returns (r: Result<bool>)
      modifies this
      ensures (records, audit, r) == DeleteOf(old(records), old(audit), u, raw, now)
    {
      var parsed := ParseObjectId(raw);
      if parsed.Err? {
        return Err(parsed.error);
      }
      var id := parsed.value;
      if Owns(records, u, id) {
        records := records - {id};
        audit := audit + [AuditEntry(u, "deleted", now)];
        r := Ok(true);
      } else {
        r := Ok(false);
      }
    }
  }

  // ---------------------------------------------------------------------------
  // Properties of the store operations

  /** A created document is listed for its owner, and only for its owner. */
  lemma CreatedIsListed(t: Table, data: NewReminder, oid: Id, now: int, u: string)
    requires oid !in t
    ensures var t' := t[oid := NewRecord(data, now)];
      (oid in MatchingIds(t', Some(u)) <==> u == data.userId) && oid in MatchingIds(t', None)
  {
  }

  /** A snapshot for an owner holds only that owner's active documents, and all of them. */
  lemma SnapshotIsOwnersActive(t: Table, u: string, docs: seq<Doc>, id: Id)
    requires IsSnapshot(t, Some(u), docs)
    ensures (exists i :: 0 <= i < |docs| && docs[i].id == id) <==> (id in t && t[id].userId == u && !t[id].completed)
  {
    if id in t && t[id].userId == u && !t[id].completed {
      assert id in Ids(docs);
      var i :| 0 <= i < |docs| && docs[i].id == id;
    }
    if exists i :: 0 <= i < |docs| && docs[i].id == id {
      var i :| 0 <= i < |docs| && docs[i].id == id;
      assert id in Ids(docs);
    }
  }

  /** `mark_completed` on an id the owner does not own reports false and changes nothing. */
  lemma MarkCompletedNotOwned(t: Table, u: string, id: Id)
    requires !Owns(t, u, id)
    ensures MarkCompletedOf(t, u, id) == (t, Ok(false))
  {
  }

  /**
   * `mark_completed` on an owned recurring document with a date moves only
   * the date, by 1, 7 or 28 days, keeps it active and reports true.
   */
  lemma MarkCompletedAdvancesRecurring(t: Table, u: string, id: Id)
    requires Owns(t, u, id) && Truthy(t[id].recurring) && t[id].date.Some?
    ensures var (t', res) := MarkCompletedOf(t, u, id);
      && res == Ok(true)
      && t'.Keys == t.Keys
      && (forall other :: other in t && other != id ==> t'[other] == t[other])
      && t'[id].completed == t[id].completed
      && t'[id] == t[id].(date := t'[id].date)
      && (t[id].recurring.value == "daily" ==> t'[id].date == Some(Shift(t[id].date.value, 1440)))
      && (t[id].recurring.value == "weekly" ==> t'[id].date == Some(Shift(t[id].date.value, 7 * 1440)))
      && (t[id].recurring.value == "monthly" ==> t'[id].date == Some(Shift(t[id].date.value, 28 * 1440)))
  {
  }

  /**
   * `mark_completed` on an owned one-shot document completes it and reports
   * true exactly when it was still active; a second call reports false and
   * changes nothing.
   */
  lemma MarkCompletedOneShotOnce(t: Table, u: string, id: Id)
    requires Owns(t, u, id) && !Truthy(t[id].recurring)
    ensures var (t1, first) := MarkCompletedOf(t, u, id);
      && first == Ok(!t[id].completed)
      && t1 == t[id := t[id].(completed := true)]
      && MarkCompletedOf(t1, u, id) == (t1, Ok(false))
  {
    var t1 := t[id := t[id].(completed := true)];
    assert t1[id := t1[id].(completed := true)] == t1;
  }

  /**
   * `delete(u, id)` succeeds iff `u` owns `id`; then that document is gone,
   * every other one is untouched and exactly one "deleted" entry is logged.
   * Otherwise nothing changes and nothing is logged.
   */
  lemma DeleteIffOwned(t: Table, log: seq<AuditEntry>, u: string, id: Id, now: int)
    ensures var (t', log', res) := DeleteOf(t, log, u, id, now);
      && (res == Ok(true) <==> Owns(t, u, id))
      && (res == Ok(false) <==> !Owns(t, u, id))
      && (Owns(t, u, id) ==> id !in t' && log' == log + [AuditEntry(u, "deleted", now)])
      && (!Owns(t, u, id) ==> t' == t && log' == log)
      && (forall other :: other != id ==> (other in t' <==> other in t))
      && (forall other :: other in t' ==> t'[other] == t[other])
  {
  }

  /**
   * The confirm-versus-timeout race on an active one-shot document: whichever
   * conditional completion reaches the store first reports success, the other
   * reports false and changes nothing.
   */
  lemma AtMostOneCompletionWins(t: Table, u: string, id: Id)
    requires Owns(t, u, id) && !Truthy(t[id].recurring) && !t[id].completed
    ensures var (t1, ack) := CompleteByIdOf(t, id);
      var (t2, timeout) := MarkCompletedOf(t1, u, id);
      ack == Ok(true) && timeout == Ok(false) && t2 == t1 && t1[id].completed
    ensures var (s1, timeout) := MarkCompletedOf(t, u, id);
      var (s2, ack) := CompleteByIdOf(s1, id);
      timeout == Ok(true) && ack == Ok(false) && s2 == s1 && s1[id].completed
  {
    var t1 := t[id := t[id].(completed := true)];
    assert t1[id := t1[id].(completed := true)] == t1;
  }

  /** After a deletion, neither completion trigger finds the document or brings it back. */
  lemma NoResurrectionAfterDelete(t: Table, log: seq<AuditEntry>, u: string, id: Id, now: int)
    requires Owns(t, u, id)
    ensures var (t1, _, _) := DeleteOf(t, log, u, id, now);
      && MarkCompletedOf(t1, u, id) == (t1, Ok(false))
      && CompleteByIdOf(t1, id) == (t1, Ok(false))
      && id !in t1
  {
  }

  /** Malformed id text raises InvalidId in every id-addressed operation and changes nothing. */
  lemma MalformedIdRaises(t: Table, log: seq<AuditEntry>, u: string, raw: string, now: int)
    requires ParseObjectId(raw).Err?
    ensures MarkCompletedOf(t, u, raw) == (t, Err(InvalidId))
    ensures CompleteByIdOf(t, raw) == (t, Err(InvalidId))
    ensures DeleteOf(t, log, u, raw, now) == (t, log, Err(InvalidId))
  {
  }
}
