/**
 * The reminder service (app/services/remineder_service.py): creation with
 * the "not in the past" check, owner-scoped queries, the global active scan
 * and the recurrence advancer the scheduler calls. The base service and its
 * notification subclass are one class here; the subclass only adds
 * `get_all_active_reminders` and `move_to_next_occurrence`.
 */
module Service {
  import opened Wrappers
  import opened Clock
  import opened Recurrence
  import opened ReminderCrud
  import opened Users

  /** What `add_reminder` answers the user. */
  datatype CreateReply =
    | Created                                 // "✅ Напоминание успешно создано!"
    | PastDate(given: Moment, nowLocal: int)  // the rejection, showing both times
    | CreateFailed                            // the generic error reply

  /** The first line of each reply (the formatted times of the rejection are not modelled). */
  function ReplyText(reply: CreateReply): string {
    match reply
    case Created => "✅ Напоминание успешно создано!"
    case PastDate(_, _) => "❌ Ошибка! Время напоминания не может быть в прошлом."
    case CreateFailed => "❌ Ошибка при создании напоминания"
  }

  /**
   * The instant `add_reminder` compares with "now", as written:
   * `date.astimezone(pytz.utc)` reads a naive date in the SERVER's zone.
   */
  function CreationInstantAsWritten(date: Moment, serverOffset: int): int {
    InstantIn(date, serverOffset)
  }

  /**
   * The creation check with the owner's zone: a date is accepted iff it is
   * not earlier than now, a naive date being read in the owner's zone, as the
   * scheduler reads it.
   */
  predicate AcceptsDate(date: Moment, ownerOffset: int, now: int) {
    InstantIn(date, ownerOffset) >= now
  }

  /**
   * The creation check and the due test agree: a date is accepted exactly
   * when the scheduler would not yet have found it due one minute ago.
   */
  lemma AcceptsDateIffNotYetDue(date: Moment, ownerOffset: int, now: int)
    ensures AcceptsDate(date, ownerOffset, now) <==> !IsDue(now - 1, date, ownerOffset)
  {
  }

  /**
   * Past-due rejection on the owner's wall clock: one minute before the
   * owner's "now" is rejected, "now" itself and one minute after are accepted.
   */
  lemma PastDueRejection(now: int, ownerOffset: int)
    ensures !AcceptsDate(Naive(now + ownerOffset - 1), ownerOffset, now)
    ensures AcceptsDate(Naive(now + ownerOffset), ownerOffset, now)
    ensures AcceptsDate(Naive(now + ownerOffset + 1), ownerOffset, now)
  {
  }

  /**
   * The check as written, with a server on UTC: a Moscow owner (UTC+3) at
   * 03:00 local time is allowed to create a naive reminder for 01:40 local,
   * which is already in the owner's past (and due at once); a New York owner
   * (UTC-5) at 19:00 local is refused a reminder for 19:10 local.
   */
  lemma AsWrittenCheckUsesServerZone()
    ensures CreationInstantAsWritten(Naive(100), 0) >= 0
    ensures !AcceptsDate(Naive(100), 180, 0) && IsDue(0, Naive(100), 180)
    ensures CreationInstantAsWritten(Naive(-290), 0) < 0
    ensures AcceptsDate(Naive(-290), -300, 0)
  {
  }

  /**
   * `add_reminder` on a store `t`: the reply and the new store. The new
   * document's id `oid` is an input (the database draws it); an id already
   * taken makes the insert fail.
   */
  function AddReminderOf(t: Table, users: map<string, User>, userId: string, message: string, date: Moment,
                         recurring: Option<string>, zones: map<string, int>, now: int, oid: Id): (Table, CreateReply)
  {
    var zone := TimezoneOf(users, userId);
    match ZoneOffset(zones, zone)
    case None => (t, CreateFailed)
    case Some(offset) =>
      if InstantIn(date, offset) < now then (t, PastDate(date, now + offset))
      else if oid in t then (t, CreateFailed)
      else (t[oid := NewRecord(NewReminder(userId, message, date, recurring), now)], Created)
  }

  /**
   * The outcomes of `add_reminder`: an unknown zone or a failing insert gives
   * the generic error reply; a date earlier than now (read in the owner's
   * zone) is rejected with both times; a date at or after now is inserted as
   * a new active document the owner's listing shows. Only an accepted,
   * inserted reminder changes the store.
   */
  lemma AddReminderOutcomes(t: Table, users: map<string, User>, userId: string, message: string, date: Moment,
                            recurring: Option<string>, zones: map<string, int>, now: int, oid: Id)
    ensures var (t', reply) := AddReminderOf(t, users, userId, message, date, recurring, zones, now, oid);
      var offset := ZoneOffset(zones, TimezoneOf(users, userId));
      && (offset.None? ==> reply == CreateFailed)
      && (offset.Some? && !AcceptsDate(date, offset.value, now) ==> reply == PastDate(date, now + offset.value))
      && (offset.Some? && AcceptsDate(date, offset.value, now) ==>
            reply == (if oid in t then CreateFailed else Created))
      && (reply == Created ==>
            && t' == t[oid := NewRecord(NewReminder(userId, message, date, recurring), now)]
            && oid in MatchingIds(t', Some(userId))
            && t'[oid].date == Some(date) && !t'[oid].completed && t'[oid].status == "created")
      && (reply != Created ==> t' == t)
  {
  }

  /** `move_to_next_occurrence(raw, kind)`: the new table and the result. */
  function MoveOf(t: Table, raw: string, kind: string): (Table, Result<bool>) {
    match ParseObjectId(raw)
    case Err(e) => (t, Err(e))
    case Ok(id) =>
      if id !in t || t[id].date.None? then (t, Ok(false))
      else
        match NextOccurrence(t[id].date.value, kind)
        case None => (t, Ok(false))
        case Some(next) => (t[id := t[id].(date := Some(next))], Ok(true))
  }

  /** A missing document, or one without a date, is reported false and nothing is written. */
  lemma MoveMissingWritesNothing(t: Table, id: Id, kind: string)
    requires id !in t || t[id].date.None?
    ensures MoveOf(t, id, kind) == (t, Ok(false))
  {
  }

  /**
   * On a document with a date: the three kinds overwrite only `date`, moved
   * by 1, 7 or 28 days, and report true; any other kind reports false and
   * writes nothing.
   */
  lemma MoveAdvancesOnlyDate(t: Table, id: Id, kind: string)
    requires id in t && t[id].date.Some?
    ensures var (t', res) := MoveOf(t, id, kind);
      && (kind !in {"daily", "weekly", "monthly"} ==> t' == t && res == Ok(false))
      && (kind in {"daily", "weekly", "monthly"} ==>
            res == Ok(true) && t' == t[id := t[id].(date := t'[id].date)])
      && (kind == "daily" ==> t'[id].date == Some(Shift(t[id].date.value, 1440)))
      && (kind == "weekly" ==> t'[id].date == Some(Shift(t[id].date.value, 7 * 1440)))
      && (kind == "monthly" ==> t'[id].date == Some(Shift(t[id].date.value, 28 * 1440)))
  {
  }

  /**
   * The store's own advance (`mark_completed` on a recurring document) and
   * the scheduler's `move_to_next_occurrence` move a document of a known kind
   * to the same place.
   */
  lemma AdvancersAgree(t: Table, u: string, id: Id)
    requires Owns(t, u, id) && t[id].date.Some?
    requires t[id].recurring.Some? && t[id].recurring.value in {"daily", "weekly", "monthly"}
    ensures MarkCompletedOf(t, u, id).0 == MoveOf(t, id, t[id].recurring.value).0
    ensures MarkCompletedOf(t, u, id).1 == MoveOf(t, id, t[id].recurring.value).1 == Ok(true)
  {
  }

  class ReminderService {
    const repo: ReminderRepository
    const users: UserRepository

    constructor (repo: ReminderRepository, users: UserRepository)
      ensures this.repo == repo && this.users == users
    {
      this.repo := repo;
      this.users := users;
    }

    /** `get_user_timezone`: the stored zone name, or "UTC" when the user has no record. */
    method GetUserTimezone(userId: string) returns (tz: string)
      ensures userId in users.table ==> tz == users.table[userId].timezone
      ensures userId !in users.table ==> tz == "UTC"
    {
      var user := users.GetUser(userId);
      tz := if user.Some? then user.value.timezone else "UTC";
    }

    /**
     * `add_reminder`: the zone lookup, the past-date check, then `create`
     * once with exactly the four fields; the store and the reply are those
     * of AddReminderOf.
     */
    method AddReminder(userId: string, message: string, date: Moment, recurring: Option<string>,
                       zones: map<string, int>, now: int, oid: Id) returns (reply: CreateReply)
      modifies repo
      ensures repo.audit == old(repo.audit)
      ensures (repo.records, reply)
        == AddReminderOf(old(repo.records), users.table, userId, message, date, recurring, zones, now, oid)
    {
      var tz := GetUserTimezone(userId);
      var offset := ZoneOffset(zones, tz);
      if offset.None? {
        return CreateFailed;
      }
      if InstantIn(date, offset.value) < now {
        return PastDate(date, now + offset.value);
      }
      var created := repo.Create(NewReminder(userId, message, date, recurring), oid, now);
      reply := if created.Ok? then Created else CreateFailed;
    }

    /** `get_all_reminders`: the repository's answer unchanged. */
    method GetAllReminders(userId: string) returns (docs: seq<Doc>)
      ensures IsSnapshot(repo.records, Some(userId), docs)
    {
      docs := repo.GetAll(userId);
    }

    /** `mark_reminder_completed`: the repository's `mark_completed`. */
    method MarkReminderCompleted(userId: string, raw: string) returns (r: Result<bool>)
      modifies repo
      ensures (repo.records, r) == MarkCompletedOf(old(repo.records), userId, raw)
      ensures repo.audit == old(repo.audit)
    {
      r := repo.MarkCompleted(userId, raw);
    }

    /** `remove_reminder`: the repository's `delete`. */
    method RemoveReminder(userId: string, raw: string, now: int) returns (r: Result<bool>)
      modifies repo
      ensures (repo.records, repo.audit, r) == DeleteOf(old(repo.records), old(repo.audit), userId, raw, now)
    {
      r := repo.Delete(userId, raw, now);
    }

    /** `get_all_active_reminders`: every document with `completed == False`, of every owner. */
    method GetAllActiveReminders() returns (docs: seq<Doc>)
      ensures IsSnapshot(repo.records, None, docs)
    {
      docs := repo.Find(None);
    }

    /** `move_to_next_occurrence`: looks the document up by id alone and overwrites its date. */
    method MoveToNextOccurrence(raw: string, kind: string) returns (r: Result<bool>)
      modifies repo
      ensures (repo.records, r) == MoveOf(old(repo.records), raw, kind)
      ensures repo.audit == old(repo.audit)
    {
      var found := repo.FindById(raw);
      if found.Err? {
        return Err(found.error);
      }
      if found.value.None? || found.value.value.date.None? {
        return Ok(false);
      }
      var next := NextOccurrence(found.value.value.date.value, kind);
      if next.None? {
        return Ok(false);
      }
      var id := ParseObjectId(raw).value;
      repo.SetDate(id, next.value);
      r := Ok(true);
    }
  }
}
