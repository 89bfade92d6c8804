/**
 * The scheduler (app/bot/middleware.py, `ReminderNotifier`): a loop that,
 * once per cycle, scans every active reminder, sends the due ones, advances
 * the recurring ones and auto-completes the one-shot ones after a wait for
 * the user's confirmation.
 *
 * A cycle is specified by the functions HandleOne and RunCycle over a World
 * (the store, the deletion log and the messages sent); the class's methods
 * are proved to change the world exactly as they say. The 300-second wait
 * is an explicit step: what the user does meanwhile is an input (a map from
 * reminder id to WaitEvent), applied through the same conditional updates
 * the confirmation and deletion handlers use.
 */
module Notifier {
  import opened Wrappers
  import opened Clock
  import opened Recurrence
  import opened ReminderCrud
  import opened Users
  import opened Service
  import opened Callbacks

  /** A message handed to the bot: chat, text and, for one-shot reminders, the confirm button's token. */
  datatype Outgoing = Outgoing(chatId: string, text: string, confirmToken: Option<string>)

  function ReminderText(message: string): string {
    "🔔 Напоминание: " + message
  }

  /** What the owner does during the wait after a one-shot reminder was sent. */
  datatype WaitEvent = Confirmed | DeletedAt(time: int)

  datatype World = World(table: Table, audit: seq<AuditEntry>, outbox: seq<Outgoing>)

  /** The wait: a confirmation (the confirm handler's update by id) or a deletion by the owner. */
  function AfterWait(w: World, d: Doc, events: map<Id, WaitEvent>): World {
    if d.id !in events then w
    else
      match events[d.id]
      case Confirmed => w.(table := CompleteByIdOf(w.table, d.id).0)
      case DeletedAt(time) =>
        var (t, log, _) := DeleteOf(w.table, w.audit, d.rec.userId, d.id, time);
        w.(table := t, audit := log)
  }

  /**
   * `mark_as_completed` with the owner passed along: nothing for a truthy
   * `recurring`, otherwise the store's `mark_completed(user_id, id)`.
   */
  function AutoComplete(w: World, id: Id, userId: string, recurring: Option<string>): (World, Outcome) {
    if Truthy(recurring) then (w, Pass)
    else
      var (t, r) := MarkCompletedOf(w.table, userId, id);
      (w.(table := t), if r.Err? then Fail(r.error) else Pass)
  }

  /**
   * `mark_as_completed` as written: for a falsy `recurring` it calls
   * `mark_reminder_completed(reminder_id)`, which takes two arguments, so the
   * call raises TypeError before anything is written.
   */
  function AutoCompleteAsWritten(w: World, recurring: Option<string>): (World, Outcome) {
    if Truthy(recurring) then (w, Pass) else (w, Fail(TypeError))
  }

  /** Sending a one-shot reminder with its confirm token, then the wait. */
  function DeliverOneShot(w: World, d: Doc, events: map<Id, WaitEvent>): World {
    var sent := w.(outbox := w.outbox + [Outgoing(d.rec.userId, ReminderText(d.rec.message), Some(ConfirmToken(d.id)))]);
    AfterWait(sent, d, events)
  }

  /**
   * One pass of the loop body of `check_reminders` for one scanned document:
   * a missing date or an unknown zone raises; a due recurring reminder is
   * sent and advanced; a due one-shot reminder is sent, waited on and
   * auto-completed; anything else is left alone.
   */
  function HandleOne(w: World, d: Doc, now: int, users: map<string, User>, zones: map<string, int>,
                     events: map<Id, WaitEvent>): (World, Outcome)
  {
    if d.rec.date.None? then (w, Fail(MissingField("date")))
    else
      var zone := TimezoneOf(users, d.rec.userId);
      match ZoneOffset(zones, zone)
      case None => (w, Fail(UnknownTimeZone(zone)))
      case Some(offset) =>
        if !IsDue(now, d.rec.date.value, offset) then (w, Pass)
        else if Truthy(d.rec.recurring) then
          var sent := w.(outbox := w.outbox + [Outgoing(d.rec.userId, ReminderText(d.rec.message), None)]);
          var (t, r) := MoveOf(sent.table, d.id, d.rec.recurring.value);
          (sent.(table := t), if r.Err? then Fail(r.error) else Pass)
        else
          AutoComplete(DeliverOneShot(w, d, events), d.id, d.rec.userId, d.rec.recurring)
  }

  /** `check_reminders` over a snapshot: the documents in order, up to the first one that raises. */
  function RunCycle(w: World, docs: seq<Doc>, now: int, users: map<string, User>, zones: map<string, int>,
                    events: map<Id, WaitEvent>): (World, Outcome)
    decreases |docs|
  {
    if docs == [] then (w, Pass)
    else
      var (w', o) := HandleOne(w, docs[0], now, users, zones, events);
      if o.Fail? then (w', o) else RunCycle(w', docs[1..], now, users, zones, events)
  }

  /**
   * One pass of the loop body as written: it differs from HandleOne only on
   * a due one-shot reminder, whose completion call raises TypeError after
   * the reminder was sent and waited on.
   */
  function HandleOneAsWritten(w: World, d: Doc, now: int, users: map<string, User>, zones: map<string, int>,
                              events: map<Id, WaitEvent>): (World, Outcome)
  {
    var offset := ZoneOffset(zones, TimezoneOf(users, d.rec.userId));
    if d.rec.date.Some? && offset.Some? && IsDue(now, d.rec.date.value, offset.value) && !Truthy(d.rec.recurring)
    then AutoCompleteAsWritten(DeliverOneShot(w, d, events), d.rec.recurring)
    else HandleOne(w, d, now, users, zones, events)
  }

  /** `check_reminders` as written over a snapshot. */
  function RunCycleAsWritten(w: World, docs: seq<Doc>, now: int, users: map<string, User>,
                             zones: map<string, int>, events: map<Id, WaitEvent>): (World, Outcome)
    decreases |docs|
  {
    if docs == [] then (w, Pass)
    else
      var (w', o) := HandleOneAsWritten(w, docs[0], now, users, zones, events);
      if o.Fail? then (w', o) else RunCycleAsWritten(w', docs[1..], now, users, zones, events)
  }

  /** The errors of the failed cycles, in order. */
  function Failures(outcomes: seq<Outcome>): seq<Exception> {
    if outcomes == [] then []
    else
      var last := outcomes[|outcomes| - 1];
      Failures(outcomes[..|outcomes| - 1]) + (if last.Fail? then [last.error] else [])
  }

  /**
   * A run of `start`: `worlds[k]` is the world before cycle k, which scans a
   * snapshot `scans[k]` of its active reminders at time `clock[k]`, leaves
   * `worlds[k + 1]` and ends with `outcomes[k]`.
   */
  ghost predicate IsRun(worlds: seq<World>, clock: seq<int>, scans: seq<seq<Doc>>, outcomes: seq<Outcome>,
                        users: map<string, User>, zones: map<string, int>, events: map<Id, WaitEvent>)
  {
    && |worlds| == |clock| + 1 && |scans| == |clock| && |outcomes| == |clock|
    && forall k :: 0 <= k < |clock| ==>
         && IsSnapshot(worlds[k].table, None, scans[k])
         && (worlds[k + 1], outcomes[k]) == RunCycle(worlds[k], scans[k], clock[k], users, zones, events)
  }

  /** A run extended by one more cycle over a snapshot of the world it left. */
  lemma RunExtends(worlds: seq<World>, clock: seq<int>, scans: seq<seq<Doc>>, outcomes: seq<Outcome>,
                   now: int, scan: seq<Doc>, after: World, o: Outcome,
                   users: map<string, User>, zones: map<string, int>, events: map<Id, WaitEvent>)
    requires IsRun(worlds, clock, scans, outcomes, users, zones, events)
    requires IsSnapshot(worlds[|clock|].table, None, scan)
    requires (after, o) == RunCycle(worlds[|clock|], scan, now, users, zones, events)
    ensures IsRun(worlds + [after], clock + [now], scans + [scan], outcomes + [o], users, zones, events)
    ensures (worlds + [after])[0] == worlds[0]
  {
    var worlds', clock', scans', outcomes' := worlds + [after], clock + [now], scans + [scan], outcomes + [o];
    forall k | 0 <= k < |clock'|
      ensures IsSnapshot(worlds'[k].table, None, scans'[k])
      ensures (worlds'[k + 1], outcomes'[k]) == RunCycle(worlds'[k], scans'[k], clock'[k], users, zones, events)
    {
      if k < |clock| {
        assert worlds'[k] == worlds[k] && worlds'[k + 1] == worlds[k + 1];
        assert scans'[k] == scans[k] && clock'[k] == clock[k] && outcomes'[k] == outcomes[k];
      }
    }
  }

  /** What the confirmation handler answers. */
  datatype ConfirmationReply = ReminderNotFound | ReminderDone

  /**
   * `handle_confirmation` with the evidently intended lookup: the id from
   * the token, the document found by id; a missing one is answered "not
   * found", an existing one goes through `mark_as_completed`.
   */
  function ConfirmationOf(t: Table, data: string): (Table, Result<ConfirmationReply>) {
    match CallbackId(data)
    case Err(e) => (t, Err(e))
    case Ok(raw) =>
      match ParseObjectId(raw)
      case Err(e) => (t, Err(e))
      case Ok(id) =>
        if id !in t then (t, Ok(ReminderNotFound))
        else
          var (w, o) := AutoComplete(World(t, [], []), id, t[id].userId, t[id].recurring);
          (w.table, if o.Fail? then Err(o.error) else Ok(ReminderDone))
  }

  /** `handle_confirmation` as written: it calls `get_reminder_by_id`, which the service does not have. */
  function ConfirmationAsWritten(t: Table, data: string): (Table, Result<ConfirmationReply>) {
    match CallbackId(data)
    case Err(e) => (t, Err(e))
    case Ok(_) => (t, Err(AttributeError))
  }

  class ReminderNotifier {
    const service: ReminderService
    var isRunning: bool
    var outbox: seq<Outgoing>
    var errorLog: seq<Exception>

    constructor (service: ReminderService)
      ensures this.service == service && isRunning && outbox == [] && errorLog == []
    {
      this.service := service;
      isRunning := true;
      outbox := [];
      errorLog := [];
    }

    ghost function Current(): World
      reads this, service.repo
    {
      World(service.repo.records, service.repo.audit, outbox)
    }

    /** The wait step: the owner's confirmation or deletion, if any, reaches the store. */
    method AwaitConfirmation(d: Doc, events: map<Id, WaitEvent>)
      modifies service.repo
      ensures Current() == AfterWait(old(Current()), d, events)
    {
      if d.id in events {
        match events[d.id]
        case Confirmed =>
          var _ := service.repo.CompleteById(d.id);
        case DeletedAt(time) =>
          var _ := service.RemoveReminder(d.rec.userId, d.id, time);
      }
    }

    /** `mark_as_completed`, passing the owner to `mark_reminder_completed`. */
    method MarkAsCompleted(id: Id, userId: string, recurring: Option<string>) returns (o: Outcome)
      modifies service.repo
      ensures (Current(), o) == AutoComplete(old(Current()), id, userId, recurring)
    {
      o := Pass;
      if !Truthy(recurring) {
        var r := service.MarkReminderCompleted(userId, id);
        o := match r case Err(e) => Fail(e) case Ok(_) => Pass;
      }
    }

    /** The loop body of `check_reminders` for one scanned document. */
    method HandleReminder(d: Doc, now: int, zones: map<string, int>, events: map<Id, WaitEvent>)
      returns (o: Outcome)
      modifies this, service.repo
      ensures (Current(), o) == HandleOne(old(Current()), d, now, service.users.table, zones, events)
      ensures isRunning == old(isRunning) && errorLog == old(errorLog)
    {
      if d.rec.date.None? {
        return Fail(MissingField("date"));
      }
      var zone := service.GetUserTimezone(d.rec.userId);
      var offset := ZoneOffset(zones, zone);
      if offset.None? {
        return Fail(UnknownTimeZone(zone));
      }
      if !IsDue(now, d.rec.date.value, offset.value) {
        return Pass;
      }
      if Truthy(d.rec.recurring) {
        outbox := outbox + [Outgoing(d.rec.userId, ReminderText(d.rec.message), None)];
        var moved := service.MoveToNextOccurrence(d.id, d.rec.recurring.value);
        o := match moved case Err(e) => Fail(e) case Ok(_) => Pass;
      } else {
        outbox := outbox + [Outgoing(d.rec.userId, ReminderText(d.rec.message), Some(ConfirmToken(d.id)))];
        AwaitConfirmation(d, events);
        o := MarkAsCompleted(d.id, d.rec.userId, d.rec.recurring);
      }
    }

    /**
     * `check_reminders` at time `now`: scans the active reminders once and
     * handles them in the scanned order; the first exception abandons the
     * rest of the cycle, keeping what was already done.
     */
    method CheckReminders(now: int, zones: map<string, int>, events: map<Id, WaitEvent>)
      returns (scanned: seq<Doc>, outcome: Outcome)
      modifies this, service.repo
      ensures IsSnapshot(old(service.repo.records), None, scanned)
      ensures (Current(), outcome) == RunCycle(old(Current()), scanned, now, service.users.table, zones, events)
      ensures isRunning == old(isRunning) && errorLog == old(errorLog)
    {
      scanned := service.GetAllActiveReminders();
      var i := 0;
      while i < |scanned|
        invariant 0 <= i <= |scanned|
        invariant RunCycle(old(Current()), scanned, now, service.users.table, zones, events)
               == RunCycle(Current(), scanned[i..], now, service.users.table, zones, events)
        invariant isRunning == old(isRunning) && errorLog == old(errorLog)
      {
        assert scanned[i..][1..] == scanned[i + 1..];
        var o := HandleReminder(scanned[i], now, zones, events);
        if o.Fail? {
          return scanned, o;
        }
        i := i + 1;
      }
      outcome := Pass;
    }

    /**
     * `start`: one cycle per clock reading while `is_running`; a cycle that
     * raises is logged and the loop goes on. `worlds` and `scans` are the
     * run's worlds and the snapshots its cycles took: it starts from the
     * world as it was and ends in the world as it is.
     */
    method Start(clock: seq<int>, zones: map<string, int>, events: map<Id, WaitEvent>)
      returns (outcomes: seq<Outcome>, ghost worlds: seq<World>, ghost scans: seq<seq<Doc>>)
      modifies this, service.repo
      ensures isRunning == old(isRunning)
      ensures !old(isRunning) ==> outcomes == [] && Current() == old(Current())
      ensures old(isRunning) ==>
        && IsRun(worlds, clock, scans, outcomes, service.users.table, zones, events)
        && worlds[0] == old(Current()) && worlds[|clock|] == Current()
      ensures errorLog == old(errorLog) + Failures(outcomes)
    {
      ghost var users := service.users.table;
      outcomes, worlds, scans := [], [Current()], [];
      while isRunning && |outcomes| < |clock|
        invariant isRunning == old(isRunning) && service.users.table == users
        invariant |outcomes| <= |clock|
        invariant !isRunning ==> outcomes == [] && Current() == old(Current())
        invariant IsRun(worlds, clock[..|outcomes|], scans, outcomes, users, zones, events)
        invariant worlds[0] == old(Current()) && worlds[|outcomes|] == Current()
        invariant errorLog == old(errorLog) + Failures(outcomes)
        decreases |clock| - |outcomes|
      {
        var n := |outcomes|;
        var scanned, outcome := CheckReminders(clock[n], zones, events);
        ghost var after := Current();
        if outcome.Fail? {
          errorLog := errorLog + [outcome.error];
        }
        assert Current() == after;
        RunExtends(worlds, clock[..n], scans, outcomes, clock[n], scanned, after, outcome, users, zones, events);
        assert clock[..n] + [clock[n]] == clock[..n + 1];
        assert (outcomes + [outcome])[..n] == outcomes;
        outcomes, worlds, scans := outcomes + [outcome], worlds + [after], scans + [scanned];
      }
      assert isRunning ==> clock[..|outcomes|] == clock;
    }

    /** `handle_confirmation` with the lookup by id it evidently intends. */
    method HandleConfirmation(data: string) returns (r: Result<ConfirmationReply>)
      modifies service.repo
      ensures (service.repo.records, r) == ConfirmationOf(old(service.repo.records), data)
      ensures service.repo.audit == old(service.repo.audit) && outbox == old(outbox)
    {
      var raw := CallbackId(data);
      if raw.Err? {
        return Err(raw.error);
      }
      var found := service.repo.FindById(raw.value);
      if found.Err? {
        return Err(found.error);
      }
      if found.value.None? {
        return Ok(ReminderNotFound);
      }
      var id := ParseObjectId(raw.value).value;
      var o := MarkAsCompleted(id, found.value.value.userId, found.value.value.recurring);
      r := match o case Fail(e) => Err(e) case Pass => Ok(ReminderDone);
    }
  }

  // ---------------------------------------------------------------------------
  // Properties of one scheduler step

  /** The document as scanned is the document as stored. */
  predicate Fresh(w: World, d: Doc) {
    d.id in w.table && w.table[d.id] == d.rec
  }

  /** A dated reminder of a known zone that is not yet due: nothing is sent, nothing changes. */
  lemma NotDueIsSilent(w: World, d: Doc, now: int, users: map<string, User>, zones: map<string, int>,
                       events: map<Id, WaitEvent>)
    requires d.rec.date.Some? && ZoneOffset(zones, TimezoneOf(users, d.rec.userId)).Some?
    requires !IsDue(now, d.rec.date.value, ZoneOffset(zones, TimezoneOf(users, d.rec.userId)).value)
    ensures HandleOne(w, d, now, users, zones, events) == (w, Pass)
  {
  }

  /** A missing date or an unresolvable zone raises before anything is sent or written. */
  lemma BadDocumentRaises(w: World, d: Doc, now: int, users: map<string, User>, zones: map<string, int>,
                          events: map<Id, WaitEvent>)
    requires d.rec.date.None? || ZoneOffset(zones, TimezoneOf(users, d.rec.userId)).None?
    ensures var (w', o) := HandleOne(w, d, now, users, zones, events);
      && w' == w
      && (d.rec.date.None? ==> o == Fail(MissingField("date")))
      && (d.rec.date.Some? ==> o == Fail(UnknownTimeZone(TimezoneOf(users, d.rec.userId))))
  {
  }

  /**
   * A due recurring reminder is sent once, without a confirm button, and
   * only its date moves, by the kind's step; it stays active. An unknown
   * kind is sent and not advanced.
   */
  lemma RecurringDueSendsOnceAndAdvances(w: World, d: Doc, now: int, users: map<string, User>,
                                         zones: map<string, int>, events: map<Id, WaitEvent>)
    requires Fresh(w, d) && d.rec.date.Some? && Truthy(d.rec.recurring)
    requires ZoneOffset(zones, TimezoneOf(users, d.rec.userId)).Some?
    requires IsDue(now, d.rec.date.value, ZoneOffset(zones, TimezoneOf(users, d.rec.userId)).value)
    ensures var (w', o) := HandleOne(w, d, now, users, zones, events);
      var next := NextOccurrence(d.rec.date.value, d.rec.recurring.value);
      && o == Pass
      && w'.outbox == w.outbox + [Outgoing(d.rec.userId, ReminderText(d.rec.message), None)]
      && w'.audit == w.audit
      && (next.Some? ==> w'.table == w.table[d.id := d.rec.(date := next)])
      && (next.None? ==> w'.table == w.table)
  {
  }

  /**
   * A due one-shot reminder nobody answers is sent once with its confirm
   * token, then completed; the next scan no longer finds it.
   */
  lemma OneShotDueIsAutoCompleted(w: World, d: Doc, now: int, users: map<string, User>,
                                  zones: map<string, int>, events: map<Id, WaitEvent>)
    requires Fresh(w, d) && d.rec.date.Some? && !Truthy(d.rec.recurring) && d.id !in events
    requires ZoneOffset(zones, TimezoneOf(users, d.rec.userId)).Some?
    requires IsDue(now, d.rec.date.value, ZoneOffset(zones, TimezoneOf(users, d.rec.userId)).value)
    ensures var (w', o) := HandleOne(w, d, now, users, zones, events);
      && o == Pass
      && w'.outbox == w.outbox + [Outgoing(d.rec.userId, ReminderText(d.rec.message), Some(ConfirmToken(d.id)))]
      && w'.audit == w.audit
      && w'.table == w.table[d.id := d.rec.(completed := true)]
      && d.id !in MatchingIds(w'.table, None)
  {
  }

  /**
   * The owner confirms during the wait: the confirmation is the completion
   * that reports success, the auto-completion afterwards reports false and
   * changes nothing, and the reminder ends completed exactly once.
   */
  lemma OneShotConfirmedDuringWait(w: World, d: Doc, now: int, users: map<string, User>,
                                   zones: map<string, int>, events: map<Id, WaitEvent>)
    requires Fresh(w, d) && !d.rec.completed && d.rec.date.Some? && !Truthy(d.rec.recurring)
    requires d.id in events && events[d.id] == Confirmed
    requires ZoneOffset(zones, TimezoneOf(users, d.rec.userId)).Some?
    requires IsDue(now, d.rec.date.value, ZoneOffset(zones, TimezoneOf(users, d.rec.userId)).value)
    ensures var (t1, ack) := CompleteByIdOf(w.table, d.id);
      && ack == Ok(true)
      && MarkCompletedOf(t1, d.rec.userId, d.id) == (t1, Ok(false))
      && HandleOne(w, d, now, users, zones, events).0.table == t1 == w.table[d.id := d.rec.(completed := true)]
      && HandleOne(w, d, now, users, zones, events).1 == Pass
  {
    AtMostOneCompletionWins(w.table, d.rec.userId, d.id);
  }

  /**
   * The owner deletes the reminder during the wait: it is gone, one deletion
   * is logged, and the auto-completion finds nothing to bring back.
   */
  lemma OneShotDeletedDuringWait(w: World, d: Doc, now: int, users: map<string, User>,
                                 zones: map<string, int>, events: map<Id, WaitEvent>, time: int)
    requires Fresh(w, d) && d.rec.date.Some? && !Truthy(d.rec.recurring)
    requires d.id in events && events[d.id] == DeletedAt(time)
    requires ZoneOffset(zones, TimezoneOf(users, d.rec.userId)).Some?
    requires IsDue(now, d.rec.date.value, ZoneOffset(zones, TimezoneOf(users, d.rec.userId)).value)
    ensures var (w', o) := HandleOne(w, d, now, users, zones, events);
      && o == Pass
      && w'.table == w.table - {d.id}
      && d.id !in w'.table
      && w'.audit == w.audit + [AuditEntry(d.rec.userId, "deleted", time)]
      && |w'.outbox| == |w.outbox| + 1
  {
    NoResurrectionAfterDelete(w.table, w.audit, d.rec.userId, d.id, time);
  }

  /**
   * As written, a due one-shot reminder nobody answers is sent with its
   * confirm button, and then the completion call raises TypeError, ending
   * the cycle with the store as it was. The reminder is still active, so
   * the next scan lists it again. A later cycle whose scan reaches it first
   * sends it again and raises again, however much later it runs.
   */
  lemma AsWrittenOneShotStaysActive(w: World, d: Doc, rest: seq<Doc>, next: seq<Doc>, now: int, later: int,
                                    users: map<string, User>, zones: map<string, int>, events: map<Id, WaitEvent>)
    requires Fresh(w, d) && !d.rec.completed && d.rec.date.Some? && !Truthy(d.rec.recurring)
    requires d.id !in events && now <= later
    requires ZoneOffset(zones, TimezoneOf(users, d.rec.userId)).Some?
    requires IsDue(now, d.rec.date.value, ZoneOffset(zones, TimezoneOf(users, d.rec.userId)).value)
    ensures var msg := Outgoing(d.rec.userId, ReminderText(d.rec.message), Some(ConfirmToken(d.id)));
      var (w1, o1) := RunCycleAsWritten(w, [d] + rest, now, users, zones, events);
      && o1 == Fail(TypeError)
      && w1 == w.(outbox := w.outbox + [msg])
      && d.id in MatchingIds(w1.table, None)
      && RunCycleAsWritten(w1, [d] + next, later, users, zones, events)
         == (w1.(outbox := w1.outbox + [msg]), Fail(TypeError))
  {
    DueIsMonotone(now, later, d.rec.date.value, ZoneOffset(zones, TimezoneOf(users, d.rec.userId)).value);
    assert ([d] + rest)[0] == d;
    assert ([d] + next)[0] == d;
  }

  // ---------------------------------------------------------------------------
  // Properties of a whole cycle

  /** The first document that raises ends the cycle with its error; the rest is not looked at. */
  lemma ErrorAbandonsRestOfCycle(w: World, d: Doc, rest: seq<Doc>, now: int, users: map<string, User>,
                                 zones: map<string, int>, events: map<Id, WaitEvent>)
    requires HandleOne(w, d, now, users, zones, events).1.Fail?
    ensures RunCycle(w, [d] + rest, now, users, zones, events) == HandleOne(w, d, now, users, zones, events)
  {
    assert ([d] + rest)[0] == d;
  }

  /** Dated, zoned and not yet due. */
  predicate Waiting(d: Doc, now: int, users: map<string, User>, zones: map<string, int>) {
    && d.rec.date.Some?
    && ZoneOffset(zones, TimezoneOf(users, d.rec.userId)).Some?
    && !IsDue(now, d.rec.date.value, ZoneOffset(zones, TimezoneOf(users, d.rec.userId)).value)
  }

  /** A cycle in which nothing is due sends nothing and changes nothing. */
  lemma {:induction false} QuietCycle(w: World, docs: seq<Doc>, now: int, users: map<string, User>,
                                      zones: map<string, int>, events: map<Id, WaitEvent>)
    requires forall i :: 0 <= i < |docs| ==> Waiting(docs[i], now, users, zones)
    ensures RunCycle(w, docs, now, users, zones, events) == (w, Pass)
    decreases |docs|
  {
    if docs != [] {
      NotDueIsSilent(w, docs[0], now, users, zones, events);
      QuietCycle(w, docs[1..], now, users, zones, events);
    }
  }

  /**
   * One step touches only its own document: every other document keeps its
   * fields, none is created, the log only grows, and at most one message is
   * sent, to the document's owner, with the document's text.
   */
  /** The store operations addressed by `id` change no other document and create none. */
  predicate OnlyTouches(t: Table, t': Table, id: Id) {
    && t'.Keys <= t.Keys
    && (forall other :: other in t && other != id ==> other in t' && t'[other] == t[other])
  }

  lemma StoreStepsOnlyTouchTheirId(t: Table, log: seq<AuditEntry>, u: string, id: Id, kind: string, time: int)
    ensures OnlyTouches(t, MoveOf(t, id, kind).0, id)
    ensures OnlyTouches(t, MarkCompletedOf(t, u, id).0, id)
    ensures OnlyTouches(t, CompleteByIdOf(t, id).0, id)
    ensures OnlyTouches(t, DeleteOf(t, log, u, id, time).0, id)
    ensures DeleteOf(t, log, u, id, time).1 == log || DeleteOf(t, log, u, id, time).1 == log + [AuditEntry(u, "deleted", time)]
  {
  }

  lemma HandleOneFrame(w: World, d: Doc, now: int, users: map<string, User>, zones: map<string, int>,
                       events: map<Id, WaitEvent>)
    ensures var (w', _) := HandleOne(w, d, now, users, zones, events);
      && OnlyTouches(w.table, w'.table, d.id)
      && |w.audit| <= |w'.audit| && w'.audit[..|w.audit|] == w.audit
      && |w.outbox| <= |w'.outbox| <= |w.outbox| + 1 && w'.outbox[..|w.outbox|] == w.outbox
      && (forall k :: |w.outbox| <= k < |w'.outbox| ==>
            w'.outbox[k].chatId == d.rec.userId && w'.outbox[k].text == ReminderText(d.rec.message))
  {
    var (w', _) := HandleOne(w, d, now, users, zones, events);
    if w' != w {
      var offset := ZoneOffset(zones, TimezoneOf(users, d.rec.userId)).value;
      assert d.rec.date.Some? && IsDue(now, d.rec.date.value, offset);
      var msg := Outgoing(d.rec.userId, ReminderText(d.rec.message), if Truthy(d.rec.recurring) then None else Some(ConfirmToken(d.id)));
      var sent := w.(outbox := w.outbox + [msg]);
      StoreStepsOnlyTouchTheirId(w.table, w.audit, d.rec.userId, d.id, if d.rec.recurring.Some? then d.rec.recurring.value else "", if d.id in events && events[d.id].DeletedAt? then events[d.id].time else 0);
      if !Truthy(d.rec.recurring) {
        var waited := AfterWait(sent, d, events);
        assert OnlyTouches(w.table, waited.table, d.id);
        assert waited.outbox == sent.outbox;
        assert waited.audit == w.audit || waited.audit == w.audit + [AuditEntry(d.rec.userId, "deleted", events[d.id].time)];
        StoreStepsOnlyTouchTheirId(waited.table, waited.audit, d.rec.userId, d.id, "", 0);
        assert w' == AutoComplete(waited, d.id, d.rec.userId, d.rec.recurring).0;
      }
      assert w'.outbox == w.outbox + [msg];
    }
  }

  lemma IdsTail(docs: seq<Doc>, id: Id)
    requires docs != [] && id !in Ids(docs)
    ensures id != docs[0].id && id !in Ids(docs[1..])
  {
    assert docs[0].id in Ids(docs);
    forall x | x in Ids(docs[1..]) ensures x in Ids(docs) {
      var j :| 0 <= j < |docs[1..]| && docs[1..][j].id == x;
      assert docs[j + 1].id == x;
    }
  }

  /**
   * A cycle touches only the scanned documents: every document outside the
   * snapshot keeps its fields, none is created, the deletion log only grows,
   * and each message sent goes to the owner of a scanned document, with its
   * text, at most one per scanned document.
   */
  lemma {:induction false} CycleTouchesOnlyScanned(w: World, docs: seq<Doc>, now: int, users: map<string, User>,
                                                   zones: map<string, int>, events: map<Id, WaitEvent>)
    ensures var (w', _) := RunCycle(w, docs, now, users, zones, events);
      && w'.table.Keys <= w.table.Keys
      && (forall id :: id in w.table && id !in Ids(docs) ==> id in w'.table && w'.table[id] == w.table[id])
      && |w.audit| <= |w'.audit| && w'.audit[..|w.audit|] == w.audit
      && |w.outbox| <= |w'.outbox| <= |w.outbox| + |docs| && w'.outbox[..|w.outbox|] == w.outbox
      && (forall k :: |w.outbox| <= k < |w'.outbox| ==>
            exists i :: 0 <= i < |docs| && w'.outbox[k].chatId == docs[i].rec.userId
                                         && w'.outbox[k].text == ReminderText(docs[i].rec.message))
    decreases |docs|
  {
    if docs != [] {
      var (w1, o) := HandleOne(w, docs[0], now, users, zones, events);
      HandleOneFrame(w, docs[0], now, users, zones, events);
      forall id | id in w.table && id !in Ids(docs) ensures id != docs[0].id && id !in Ids(docs[1..]) {
        IdsTail(docs, id);
      }
      if o.Fail? {
        forall k | |w.outbox| <= k < |w1.outbox|
          ensures exists i :: 0 <= i < |docs| && w1.outbox[k].chatId == docs[i].rec.userId
                                               && w1.outbox[k].text == ReminderText(docs[i].rec.message)
        {
          assert w1.outbox[k].chatId == docs[0].rec.userId;
        }
      } else {
        var rest := docs[1..];
        CycleTouchesOnlyScanned(w1, rest, now, users, zones, events);
        var (w2, _) := RunCycle(w1, rest, now, users, zones, events);
        assert RunCycle(w, docs, now, users, zones, events).0 == w2;
        assert w2.audit[..|w.audit|] == w2.audit[..|w1.audit|][..|w.audit|];
        assert w2.outbox[..|w.outbox|] == w2.outbox[..|w1.outbox|][..|w.outbox|];
        forall k | |w.outbox| <= k < |w2.outbox|
          ensures exists i :: 0 <= i < |docs| && w2.outbox[k].chatId == docs[i].rec.userId
                                               && w2.outbox[k].text == ReminderText(docs[i].rec.message)
        {
          if k < |w1.outbox| {
            assert w2.outbox[k] == w1.outbox[k];
            assert w2.outbox[k].chatId == docs[0].rec.userId;
          } else {
            var j :| 0 <= j < |rest| && w2.outbox[k].chatId == rest[j].rec.userId
                                      && w2.outbox[k].text == ReminderText(rest[j].rec.message);
            assert rest[j] == docs[j + 1];
          }
        }
      }
    }
  }

  // ---------------------------------------------------------------------------
  // Scenarios

  /** The scan of a store holding one active reminder is that reminder alone. */
  lemma {:induction false} SingletonSnapshot(id: Id, r: Reminder, docs: seq<Doc>)
    requires !r.completed
    ensures IsSnapshot(map[id := r], None, [Doc(id, r)])
    ensures IsSnapshot(map[id := r], None, docs) ==> docs == [Doc(id, r)]
  {
    var t := map[id := r];
    assert Ids([Doc(id, r)]) == {id} by {
      assert [Doc(id, r)][0].id == id;
    }
    assert MatchingIds(t, None) == {id};
    if IsSnapshot(t, None, docs) {
      DistinctIdsCount(docs);
      assert |docs| == 1;
      assert docs[0].id in Ids(docs);
      assert docs[0] == Doc(id, r);
    }
  }

  /** One cycle over a store holding a single active, due, recurring reminder of a known kind. */
  lemma RecurringCycleStep(id: Id, r: Reminder, audit: seq<AuditEntry>, outbox: seq<Outgoing>, now: int,
                           users: map<string, User>, zones: map<string, int>, events: map<Id, WaitEvent>)
    requires !r.completed && r.date.Some? && Truthy(r.recurring) && RecurrenceDays(r.recurring.value).Some?
    requires ZoneOffset(zones, TimezoneOf(users, r.userId)).Some?
    requires IsDue(now, r.date.value, ZoneOffset(zones, TimezoneOf(users, r.userId)).value)
    ensures RunCycle(World(map[id := r], audit, outbox), [Doc(id, r)], now, users, zones, events)
         == (World(map[id := r.(date := NextOccurrence(r.date.value, r.recurring.value))], audit,
                   outbox + [Outgoing(r.userId, ReminderText(r.message), None)]), Pass)
  {
    var w := World(map[id := r], audit, outbox);
    RecurringDueSendsOnceAndAdvances(w, Doc(id, r), now, users, zones, events);
    assert map[id := r][id := r.(date := NextOccurrence(r.date.value, r.recurring.value))]
        == map[id := r.(date := NextOccurrence(r.date.value, r.recurring.value))];
  }

  /**
   * A weekly reminder through three due cycles: each cycle scans it alone,
   * sends it once and moves it a week on, so after three cycles it is three
   * messages and exactly 21 days later, still active.
   */
  lemma WeeklyReminderThreeCycles(id: Id, r: Reminder, d: Moment, audit: seq<AuditEntry>, outbox: seq<Outgoing>,
                                  now1: int, now2: int, now3: int, users: map<string, User>,
                                  zones: map<string, int>, events: map<Id, WaitEvent>)
    requires r.recurring == Some("weekly") && !r.completed && r.date == Some(d)
    requires ZoneOffset(zones, TimezoneOf(users, r.userId)).Some?
    requires var offset := ZoneOffset(zones, TimezoneOf(users, r.userId)).value;
      IsDue(now1, d, offset) && IsDue(now2, Shift(d, 7 * MinutesPerDay), offset)
      && IsDue(now3, Shift(d, 14 * MinutesPerDay), offset)
    ensures var r1 := r.(date := Some(Shift(d, 7 * MinutesPerDay)));
      var r2 := r.(date := Some(Shift(d, 14 * MinutesPerDay)));
      var r3 := r.(date := Some(Shift(d, 21 * MinutesPerDay)));
      var msg := Outgoing(r.userId, ReminderText(r.message), None);
      && RunCycle(World(map[id := r], audit, outbox), [Doc(id, r)], now1, users, zones, events)
         == (World(map[id := r1], audit, outbox + [msg]), Pass)
      && RunCycle(World(map[id := r1], audit, outbox + [msg]), [Doc(id, r1)], now2, users, zones, events)
         == (World(map[id := r2], audit, outbox + [msg, msg]), Pass)
      && RunCycle(World(map[id := r2], audit, outbox + [msg, msg]), [Doc(id, r2)], now3, users, zones, events)
         == (World(map[id := r3], audit, outbox + [msg, msg, msg]), Pass)
      && IsSnapshot(map[id := r1], None, [Doc(id, r1)]) && IsSnapshot(map[id := r2], None, [Doc(id, r2)])
      && TimeOfDay(r3.date.value) == TimeOfDay(d)
  {
    var r1 := r.(date := Some(Shift(d, 7 * MinutesPerDay)));
    var r2 := r.(date := Some(Shift(d, 14 * MinutesPerDay)));
    var msg := Outgoing(r.userId, ReminderText(r.message), None);
    RecurringCycleStep(id, r, audit, outbox, now1, users, zones, events);
    RecurringCycleStep(id, r1, audit, outbox + [msg], now2, users, zones, events);
    assert outbox + [msg] + [msg] == outbox + [msg, msg];
    RecurringCycleStep(id, r2, audit, outbox + [msg, msg], now3, users, zones, events);
    assert outbox + [msg, msg] + [msg] == outbox + [msg, msg, msg];
    SingletonSnapshot(id, r1, []);
    SingletonSnapshot(id, r2, []);
    WholeDaysKeepTimeOfDay(d, 21);
  }

  /**
   * "buy milk" for a Moscow user (UTC+3), created at `created` for the
   * owner's wall clock two minutes later: accepted; a cycle one minute after
   * creation stays quiet; a cycle once it is due, with no answer, sends it
   * once with its confirm button and completes it, so no later scan finds it.
   */
  lemma BuyMilkScenario(id: Id, u: string, users: map<string, User>, created: int, now: int, events: map<Id, WaitEvent>)
    requires u in users && users[u].timezone == "Europe/Moscow"
    requires now >= created + 2 && id !in events
    ensures var zones := map["Europe/Moscow" := 180];
      var date := Naive(created + 180 + 2);
      var rec := NewRecord(NewReminder(u, "buy milk", date, None), created);
      var w := World(map[id := rec], [], []);
      && AcceptsDate(date, 180, created)
      && RunCycle(w, [Doc(id, rec)], created + 1, users, zones, events) == (w, Pass)
      && RunCycle(w, [Doc(id, rec)], now, users, zones, events)
         == (World(map[id := rec.(completed := true)], [],
                   [Outgoing(u, "🔔 Напоминание: buy milk", Some("confirm_reminder:" + id))]), Pass)
      && MatchingIds(map[id := rec.(completed := true)], None) == {}
  {
    var zones := map["Europe/Moscow" := 180];
    var date := Naive(created + 180 + 2);
    var rec := NewRecord(NewReminder(u, "buy milk", date, None), created);
    var w := World(map[id := rec], [], []);
    assert TimezoneOf(users, u) == "Europe/Moscow";
    assert ZoneOffset(zones, "Europe/Moscow") == Some(180);
    assert ReminderText("buy milk") == "🔔 Напоминание: buy milk";
    assert ConfirmToken(id) == "confirm_reminder:" + id;
    QuietCycle(w, [Doc(id, rec)], created + 1, users, zones, events);
    OneShotDueIsAutoCompleted(w, Doc(id, rec), now, users, zones, events);
    var (w1, o1) := HandleOne(w, Doc(id, rec), now, users, zones, events);
    assert [Doc(id, rec)][1..] == [];
    assert RunCycle(w, [Doc(id, rec)], now, users, zones, events) == (w1, o1);
    assert w1.outbox == [Outgoing(u, "🔔 Напоминание: buy milk", Some("confirm_reminder:" + id))];
    assert map[id := rec][id := rec.(completed := true)] == map[id := rec.(completed := true)];
  }

  // ---------------------------------------------------------------------------
  // The confirmation handler

  /**
   * As written, the handler raises AttributeError for every token the bot
   * builds and changes nothing: a missing reminder is never answered "not
   * found" and an active one is never completed.
   */
  lemma AsWrittenConfirmationRaises(t: Table, id: Id)
    ensures ConfirmationAsWritten(t, ConfirmToken(id)) == (t, Err(AttributeError))
    ensures id !in t ==> ConfirmationAsWritten(t, ConfirmToken(id)).1 != Ok(ReminderNotFound)
  {
    StoredIdTokens(id);
  }

  /**
   * With the lookup by id, for every token the bot builds: a missing
   * reminder is answered "not found" and nothing changes; an active one-shot
   * reminder is completed; an already completed one is answered done again
   * without a change; a recurring one is answered done and left as it is.
   */
  lemma ConfirmationAnswers(t: Table, id: Id)
    ensures id !in t ==> ConfirmationOf(t, ConfirmToken(id)) == (t, Ok(ReminderNotFound))
    ensures id in t && !Truthy(t[id].recurring) ==>
      ConfirmationOf(t, ConfirmToken(id)) == (t[id := t[id].(completed := true)], Ok(ReminderDone))
    ensures id in t && !Truthy(t[id].recurring) && t[id].completed ==>
      ConfirmationOf(t, ConfirmToken(id)) == (t, Ok(ReminderDone))
    ensures id in t && Truthy(t[id].recurring) ==> ConfirmationOf(t, ConfirmToken(id)) == (t, Ok(ReminderDone))
  {
    StoredIdTokens(id);
    if id in t && t[id].completed {
      assert t[id := t[id].(completed := true)] == t;
    }
  }

  /** Data without a colon raises IndexError in both versions and changes nothing. */
  lemma ConfirmationWithoutColon(t: Table, data: string)
    requires ':' !in data
    ensures ConfirmationAsWritten(t, data) == (t, Err(IndexError))
    ensures ConfirmationOf(t, data) == (t, Err(IndexError))
  {
    SplitWithoutColon(data);
  }
}
