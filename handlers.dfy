/**
 * The reminder handlers of the bot (app/bot/handlers/reminders.py): the
 * creation form (text, date, recurring?, frequency), the recurrence label
 * maps, the listing and the delete menu, and the two button callbacks
 * (delete, confirm).
 *
 * Each handler is a pure turn over the form and the store, and a method of
 * ReminderForm (or a module-level method for the callbacks) proved to do
 * exactly that turn.
 */
module Handlers {
  import opened Wrappers
  import opened Clock
  import opened Recurrence
  import opened ReminderCrud
  import opened Users
  import opened Service
  import opened Callbacks

  // ---------------------------------------------------------------------------
  // Texts the handlers answer with

  const AskText: string := "Введите текст напоминания:"
  const AskDate: string := "Введите дату напоминания в формате: YYYY-MM-DD HH:MM"
  const BadDate: string := "❌ Ошибка! Неверный формат даты. Попробуйте снова (YYYY-MM-DD HH:MM)."
  const AskRecurring: string := "Напоминание должно повторяться? (Да/Нет)"
  const BadYesNo: string := "❌ Ошибка! Введите 'Да' или 'Нет'."
  const AskFrequencyText: string := "Выберите частоту: Ежедневные, Еженедельные, Ежемесячные"
  const BadFrequency: string := "❌ Ошибка! Выберите одну из опций: 'Ежедневные', 'Еженедельные', 'Ежемесячные'."
  const OneShotCreated: string := "✅ Напоминание успешно создано!"
  const NoActive: string := "Нет активных напоминаний."
  const PickToDelete: string := "Выберите напоминание для удаления:"

  function RecurringCreated(caption: string): string {
    "✅ Напоминание успешно создано! Будет повторяться " + caption + "."
  }

  // ---------------------------------------------------------------------------
  // The recurrence labels

  /** The creation map: a frequency button's label to the stored recurrence kind. */
  function FrequencyOf(caption: string): Option<string> {
    if caption == "Ежедневные" then Some("daily")
    else if caption == "Еженедельные" then Some("weekly")
    else if caption == "Ежемесячные" then Some("monthly")
    else None
  }

  /** The display map of the listing, with its fallback "Однократно" for anything else, None included. */
  function DisplayOf(kind: Option<string>): string {
    if kind == Some("daily") then "Ежедневные"
    else if kind == Some("weekly") then "Еженедельные"
    else if kind == Some("monthly") then "Ежемесячные"
    else "Однократно"
  }

  /**
   * The two maps are inverse on the three kinds; only the three labels are
   * accepted, each leads to a kind the advancer knows, and every other
   * stored value, None included, shows as "Однократно".
   */
  lemma LabelsAreInverse(caption: string, kind: string)
    ensures FrequencyOf(caption).Some? <==> caption in {"Ежедневные", "Еженедельные", "Ежемесячные"}
    ensures FrequencyOf(caption).Some? ==>
      DisplayOf(FrequencyOf(caption)) == caption && RecurrenceDays(FrequencyOf(caption).value).Some?
    ensures kind in {"daily", "weekly", "monthly"} ==> FrequencyOf(DisplayOf(Some(kind))) == Some(kind)
    ensures kind !in {"daily", "weekly", "monthly"} ==> DisplayOf(Some(kind)) == "Однократно"
    ensures DisplayOf(None) == "Однократно" && FrequencyOf("Однократно").None?
  {
  }

  // ---------------------------------------------------------------------------
  // The yes/no answer

  /** `str.lower` on the letters the answers use: Latin A-Z, Cyrillic А-Я and Ё. */
  function LowerChar(c: char): char {
    if 'A' <= c <= 'Z' || 'А' <= c <= 'Я' then (c as int + 32) as char
    else if c == 'Ё' then 'ё'
    else c
  }

  function Lower(s: string): (r: string)
    ensures |r| == |s|
    ensures forall i :: 0 <= i < |s| ==> r[i] == LowerChar(s[i])
  {
    if s == [] then [] else [LowerChar(s[0])] + Lower(s[1..])
  }

  predicate IsYes(text: string) {
    Lower(text) == "да"
  }

  predicate IsNo(text: string) {
    Lower(text) == "нет"
  }

  lemma LowerCharOfAnswerLetters(c: char)
    ensures LowerChar(c) == 'д' <==> c == 'д' || c == 'Д'
    ensures LowerChar(c) == 'а' <==> c == 'а' || c == 'А'
    ensures LowerChar(c) == 'н' <==> c == 'н' || c == 'Н'
    ensures LowerChar(c) == 'е' <==> c == 'е' || c == 'Е'
    ensures LowerChar(c) == 'т' <==> c == 'т' || c == 'Т'
  {
  }

  /** The answer is compared case-insensitively: exactly the spellings of "да" and "нет" in any case. */
  lemma YesNoIgnoresCase(text: string)
    ensures IsYes(text) <==> |text| == 2 && text[0] in {'д', 'Д'} && text[1] in {'а', 'А'}
    ensures IsNo(text) <==> |text| == 3 && text[0] in {'н', 'Н'} && text[1] in {'е', 'Е'} && text[2] in {'т', 'Т'}
    ensures !(IsYes(text) && IsNo(text))
  {
    var low := Lower(text);
    if |text| == 2 {
      LowerCharOfAnswerLetters(text[0]);
      LowerCharOfAnswerLetters(text[1]);
      assert low == "да" <==> low[0] == 'д' && low[1] == 'а';
    }
    if |text| == 3 {
      LowerCharOfAnswerLetters(text[0]);
      LowerCharOfAnswerLetters(text[1]);
      LowerCharOfAnswerLetters(text[2]);
      assert low == "нет" <==> low[0] == 'н' && low[1] == 'е' && low[2] == 'т';
    }
  }

  // ---------------------------------------------------------------------------
  // The form

  datatype FormState = Idle | WaitingForText | WaitingForDate | WaitingForRecurring | WaitingForFrequency

  /** The form's stored data: the text and the parsed date once given. */
  datatype FormData = FormData(text: Option<string>, date: Option<Moment>)

  datatype Form = Form(state: FormState, data: FormData)

  /** `state.clear()`: no state, no data. */
  const Cleared: Form := Form(Idle, FormData(None, None))

  /** Which handler of this router takes a text message, in registration order. */
  datatype Handler = StartForm | TakeText | TakeDate | TakeRecurring | TakeFrequency | ShowList | ShowDeleteMenu | Unhandled

  function RouteMessage(state: FormState, text: string): Handler {
    if text == "Создать напоминание" then StartForm
    else
      match state
      case WaitingForText => TakeText
      case WaitingForDate => TakeDate
      case WaitingForRecurring => TakeRecurring
      case WaitingForFrequency => TakeFrequency
      case Idle =>
        if text == "Список напоминаний" then ShowList
        else if text == "Удалить напоминание" then ShowDeleteMenu
        else Unhandled
  }

  /**
   * "Создать напоминание" (re)starts the form from any state; in the middle
   * of the form every other text is the answer to the current question, the
   * menu texts included; outside the form only the three menu texts are handled.
   */
  lemma RoutingFollowsRegistrationOrder(state: FormState, text: string)
    ensures text == "Создать напоминание" ==> RouteMessage(state, text) == StartForm
    ensures text != "Создать напоминание" && state != Idle ==>
      RouteMessage(state, text) in {TakeText, TakeDate, TakeRecurring, TakeFrequency}
    ensures state == Idle ==>
      (RouteMessage(state, text) != Unhandled <==>
         text in {"Создать напоминание", "Список напоминаний", "Удалить напоминание"})
  {
  }

  /** The turn of the form handlers that do not touch the store: the new form and the replies. */
  function StartTurn(f: Form): (Form, seq<string>) {
    (f.(state := WaitingForText), [AskText])
  }

  function TextTurn(f: Form, text: string): (Form, seq<string>) {
    (Form(WaitingForDate, f.data.(text := Some(text))), [AskDate])
  }

  /** The date answer, `parsed` being what `strptime(text, "%Y-%m-%d %H:%M")` gives (None for ValueError). */
  function DateTurn(f: Form, parsed: Option<int>): (Form, seq<string>) {
    match parsed
    case None => (f, [BadDate])
    case Some(wall) => (Form(WaitingForRecurring, f.data.(date := Some(Naive(wall)))), [AskRecurring])
  }

  /** A turn that may create: the new form, the replies and the new store. */
  datatype Turn = Turn(form: Form, replies: seq<string>, table: Table)

  /** `data["text"]` and `data["date"]`, read before the call (KeyError when missing). */
  function CreationArgs(data: FormData): Result<(string, Moment)> {
    if data.text.None? then Err(MissingField("text"))
    else if data.date.None? then Err(MissingField("date"))
    else Ok((data.text.value, data.date.value))
  }

  /**
   * The creating call with `telegram_message` passed: the service inserts
   * (or not) and answers, then the handler answers `done` and clears the form.
   */
  function CreateTurn(data: FormData, t: Table, users: map<string, User>, userId: string, recurring: Option<string>,
                      zones: map<string, int>, now: int, oid: Id, done: string): Result<Turn>
  {
    match CreationArgs(data)
    case Err(e) => Err(e)
    case Ok((message, date)) =>
      var (t', reply) := AddReminderOf(t, users, userId, message, date, recurring, zones, now, oid);
      Ok(Turn(Cleared, [ReplyText(reply), done], t'))
  }

  /** The creating call as written: without `telegram_message`, the call raises TypeError once its arguments are read. */
  function CreateTurnAsWritten(data: FormData): Result<Turn> {
    match CreationArgs(data)
    case Err(e) => Err(e)
    case Ok(_) => Err(TypeError)
  }

  /** The recurring? answer: "да" asks for the frequency, "нет" creates a one-shot reminder, anything else asks again. */
  function RecurringTurn(f: Form, t: Table, users: map<string, User>, userId: string, text: string,
                         zones: map<string, int>, now: int, oid: Id): Result<Turn>
  {
    if IsYes(text) then Ok(Turn(f.(state := WaitingForFrequency), [AskFrequencyText], t))
    else if IsNo(text) then CreateTurn(f.data, t, users, userId, None, zones, now, oid, OneShotCreated)
    else Ok(Turn(f, [BadYesNo], t))
  }

  function RecurringTurnAsWritten(f: Form, t: Table, text: string): Result<Turn> {
    if IsYes(text) then Ok(Turn(f.(state := WaitingForFrequency), [AskFrequencyText], t))
    else if IsNo(text) then CreateTurnAsWritten(f.data)
    else Ok(Turn(f, [BadYesNo], t))
  }

  /** The frequency answer: one of the three labels creates a recurring reminder, anything else asks again. */
  function FrequencyTurn(f: Form, t: Table, users: map<string, User>, userId: string, text: string,
                         zones: map<string, int>, now: int, oid: Id): Result<Turn>
  {
    match FrequencyOf(text)
    case None => Ok(Turn(f, [BadFrequency], t))
    case Some(kind) => CreateTurn(f.data, t, users, userId, Some(kind), zones, now, oid, RecurringCreated(text))
  }

  function FrequencyTurnAsWritten(f: Form, t: Table, text: string): Result<Turn> {
    match FrequencyOf(text)
    case None => Ok(Turn(f, [BadFrequency], t))
    case Some(_) => CreateTurnAsWritten(f.data)
  }

  /** The form of one user, with the replies sent so far. */
  class ReminderForm {
    const service: ReminderService
    const userId: string
    var state: FormState
    var data: FormData
    var replies: seq<string>

    constructor (service: ReminderService, userId: string)
      ensures this.service == service && this.userId == userId
      ensures Form(state, data) == Cleared && replies == []
    {
      this.service := service;
      this.userId := userId;
      state := Idle;
      data := FormData(None, None);
      replies := [];
    }

    /** `create_reminder`: asks for the text; the stored data is kept. */
    method Start()
      modifies this
      ensures (Form(state, data), replies) == (StartTurn(old(Form(state, data))).0, old(replies) + StartTurn(old(Form(state, data))).1)
    {
      replies := replies + [AskText];
      state := WaitingForText;
    }

    /** `get_reminder_text`. */
    method TakeText(text: string)
      modifies this
      ensures (Form(state, data), replies) == (TextTurn(old(Form(state, data)), text).0, old(replies) + TextTurn(old(Form(state, data)), text).1)
    {
      data := data.(text := Some(text));
      replies := replies + [AskDate];
      state := WaitingForDate;
    }

    /** `get_reminder_date`, with `parse` standing for `strptime` on the fixed format. */
    method TakeDate(text: string, parse: string -> Option<int>)
      modifies this
      ensures (Form(state, data), replies) == (DateTurn(old(Form(state, data)), parse(text)).0, old(replies) + DateTurn(old(Form(state, data)), parse(text)).1)
    {
      var parsed := parse(text);
      if parsed.None? {
        replies := replies + [BadDate];
        return;
      }
      data := data.(date := Some(Naive(parsed.value)));
      replies := replies + [AskRecurring];
      state := WaitingForRecurring;
    }

    /** Applies a turn's outcome: on success the new form and replies; an exception changes nothing. */
    method Create(recurring: Option<string>, done: string, zones: map<string, int>, now: int, oid: Id)
      returns (o: Outcome)
      modifies this, service.repo
      ensures var turn := CreateTurn(old(data), old(service.repo.records), service.users.table, userId, recurring, zones, now, oid, done);
        && (turn.Ok? ==> o == Pass && Form(state, data) == turn.value.form
                         && replies == old(replies) + turn.value.replies && service.repo.records == turn.value.table)
        && (turn.Err? ==> o == Fail(turn.error) && Form(state, data) == old(Form(state, data))
                          && replies == old(replies) && service.repo.records == old(service.repo.records))
    {
      var args := CreationArgs(data);
      if args.Err? {
        return Fail(args.error);
      }
      var (message, date) := args.value;
      var reply := service.AddReminder(userId, message, date, recurring, zones, now, oid);
      replies := replies + [ReplyText(reply), done];
      state := Idle;
      data := FormData(None, None);
      o := Pass;
    }

    /** `get_recurring`, passing `telegram_message` to `add_reminder`. */
    method TakeRecurring(text: string, zones: map<string, int>, now: int, oid: Id) returns (o: Outcome)
      modifies this, service.repo
      ensures var turn := RecurringTurn(old(Form(state, data)), old(service.repo.records), service.users.table, userId, text, zones, now, oid);
        && (turn.Ok? ==> o == Pass && Form(state, data) == turn.value.form
                         && replies == old(replies) + turn.value.replies && service.repo.records == turn.value.table)
        && (turn.Err? ==> o == Fail(turn.error) && Form(state, data) == old(Form(state, data))
                          && replies == old(replies) && service.repo.records == old(service.repo.records))
    {
      if IsYes(text) {
        replies := replies + [AskFrequencyText];
        state := WaitingForFrequency;
        o := Pass;
      } else if IsNo(text) {
        o := Create(None, OneShotCreated, zones, now, oid);
      } else {
        replies := replies + [BadYesNo];
        o := Pass;
      }
    }

    /** `get_recurring_frequency`, passing `telegram_message` to `add_reminder`. */
    method TakeFrequency(text: string, zones: map<string, int>, now: int, oid: Id) returns (o: Outcome)
      modifies this, service.repo
      ensures var turn := FrequencyTurn(old(Form(state, data)), old(service.repo.records), service.users.table, userId, text, zones, now, oid);
        && (turn.Ok? ==> o == Pass && Form(state, data) == turn.value.form
                         && replies == old(replies) + turn.value.replies && service.repo.records == turn.value.table)
        && (turn.Err? ==> o == Fail(turn.error) && Form(state, data) == old(Form(state, data))
                          && replies == old(replies) && service.repo.records == old(service.repo.records))
    {
      var kind := FrequencyOf(text);
      if kind.None? {
        replies := replies + [BadFrequency];
        return Pass;
      }
      o := Create(kind, RecurringCreated(text), zones, now, oid);
    }
  }

  // ---------------------------------------------------------------------------
  // Properties of the form

  /** An unparseable date keeps the form as it was; a parsed one is stored as a naive time and the form moves on. */
  lemma DateAnswer(f: Form, parsed: Option<int>)
    requires f.state == WaitingForDate
    ensures parsed.None? ==> DateTurn(f, parsed).0 == f
    ensures parsed.Some? ==>
      DateTurn(f, parsed).0 == Form(WaitingForRecurring, FormData(f.data.text, Some(Naive(parsed.value))))
  {
  }

  /**
   * The recurring? answer: "да" in any case moves to the frequency question;
   * "нет" in any case creates a one-shot reminder (when the owner's zone is
   * known and the date is not in the past) and clears the form; anything else
   * keeps the form and the store.
   */
  lemma RecurringAnswerOutcomes(f: Form, t: Table, users: map<string, User>, userId: string, text: string,
                                zones: map<string, int>, now: int, oid: Id, message: string, date: Moment)
    requires f.data == FormData(Some(message), Some(date))
    ensures var turn := RecurringTurn(f, t, users, userId, text, zones, now, oid);
      && turn.Ok?
      && (IsYes(text) ==> turn.value.form == Form(WaitingForFrequency, f.data) && turn.value.table == t)
      && (!IsYes(text) && !IsNo(text) ==> turn.value.form == f && turn.value.table == t && turn.value.replies == [BadYesNo])
      && (IsNo(text) ==>
            turn.value.form == Cleared
            && turn.value.table == AddReminderOf(t, users, userId, message, date, None, zones, now, oid).0)
      && (IsNo(text) && oid !in t && ZoneOffset(zones, TimezoneOf(users, userId)).Some?
          && AcceptsDate(date, ZoneOffset(zones, TimezoneOf(users, userId)).value, now) ==>
            turn.value.table == t[oid := NewRecord(NewReminder(userId, message, date, None), now)]
            && turn.value.replies == [ReplyText(Created), OneShotCreated])
  {
    AddReminderOutcomes(t, users, userId, message, date, None, zones, now, oid);
  }

  /**
   * The frequency answer: a label outside the three keeps the form in the
   * frequency question and creates nothing; one of the three creates a
   * reminder of the matching kind and clears the form.
   */
  lemma FrequencyAnswerOutcomes(f: Form, t: Table, users: map<string, User>, userId: string, text: string,
                                zones: map<string, int>, now: int, oid: Id, message: string, date: Moment)
    requires f.state == WaitingForFrequency && f.data == FormData(Some(message), Some(date))
    ensures var turn := FrequencyTurn(f, t, users, userId, text, zones, now, oid);
      && turn.Ok?
      && (FrequencyOf(text).None? ==>
            turn.value.form.state == WaitingForFrequency && turn.value.table == t && turn.value.replies == [BadFrequency])
      && (FrequencyOf(text).Some? ==>
            turn.value.form == Cleared
            && turn.value.table == AddReminderOf(t, users, userId, message, date, FrequencyOf(text), zones, now, oid).0)
      && (FrequencyOf(text).Some? && oid !in t && ZoneOffset(zones, TimezoneOf(users, userId)).Some?
          && AcceptsDate(date, ZoneOffset(zones, TimezoneOf(users, userId)).value, now) ==>
            turn.value.table == t[oid := NewRecord(NewReminder(userId, message, date, FrequencyOf(text)), now)]
            && turn.value.replies == [ReplyText(Created), RecurringCreated(text)])
  {
    AddReminderOutcomes(t, users, userId, message, date, FrequencyOf(text), zones, now, oid);
  }

  /**
   * As written, neither creating answer creates anything: "нет" and a valid
   * frequency both raise TypeError, so the store is unchanged, no reply is
   * sent and the form stays in its question.
   */
  lemma AsWrittenFormNeverCreates(f: Form, t: Table, text: string, message: string, date: Moment)
    requires f.data == FormData(Some(message), Some(date))
    ensures IsNo(text) ==> RecurringTurnAsWritten(f, t, text) == Err(TypeError)
    ensures FrequencyOf(text).Some? ==> FrequencyTurnAsWritten(f, t, text) == Err(TypeError)
    ensures RecurringTurnAsWritten(f, t, text).Ok? ==> RecurringTurnAsWritten(f, t, text).value.table == t
    ensures FrequencyTurnAsWritten(f, t, text).Ok? ==> FrequencyTurnAsWritten(f, t, text).value.table == t
  {
  }

  /**
   * The whole form for a one-shot reminder: start, text, a parsed date, "Нет";
   * with a known zone, a date not in the past and a fresh id, the store gains
   * exactly the new active reminder and the form ends cleared.
   */
  lemma OneShotFormCreates(f: Form, t: Table, users: map<string, User>, userId: string, message: string, wall: int,
                           zones: map<string, int>, now: int, oid: Id)
    requires oid !in t && ZoneOffset(zones, TimezoneOf(users, userId)).Some?
    requires AcceptsDate(Naive(wall), ZoneOffset(zones, TimezoneOf(users, userId)).value, now)
    ensures var f1 := StartTurn(f).0;
      var f2 := TextTurn(f1, message).0;
      var f3 := DateTurn(f2, Some(wall)).0;
      var turn := RecurringTurn(f3, t, users, userId, "Нет", zones, now, oid);
      && f3 == Form(WaitingForRecurring, FormData(Some(message), Some(Naive(wall))))
      && turn.Ok? && turn.value.form == Cleared
      && turn.value.table == t[oid := NewRecord(NewReminder(userId, message, Naive(wall), None), now)]
      && oid in MatchingIds(turn.value.table, Some(userId))
  {
    var f3 := DateTurn(TextTurn(StartTurn(f).0, message).0, Some(wall)).0;
    YesNoIgnoresCase("Нет");
    RecurringAnswerOutcomes(f3, t, users, userId, "Нет", zones, now, oid, message, Naive(wall));
  }

  // ---------------------------------------------------------------------------
  // The listing and the delete menu

  /** One line of the listing: `📌 message | 🕒 date | 🔁 label` (the date's formatting is not modelled). */
  datatype ListLine = ListLine(message: string, date: Moment, caption: string)

  /** The listing's lines, in scan order; a document without a date raises KeyError. */
  function ListingOf(docs: seq<Doc>): (r: Result<seq<ListLine>>)
    ensures r.Ok? <==> forall i :: 0 <= i < |docs| ==> docs[i].rec.date.Some?
    ensures r.Err? ==> r.error == MissingField("date")
    ensures r.Ok? ==>
      |r.value| == |docs| &&
      forall i :: 0 <= i < |docs| ==>
        r.value[i] == ListLine(docs[i].rec.message, docs[i].rec.date.value, DisplayOf(docs[i].rec.recurring))
    decreases |docs|
  {
    if docs == [] then Ok([])
    else if docs[0].rec.date.None? then Err(MissingField("date"))
    else
      match ListingOf(docs[1..])
      case Err(e) => Err(e)
      case Ok(rest) =>
        Ok([ListLine(docs[0].rec.message, docs[0].rec.date.value, DisplayOf(docs[0].rec.recurring))] + rest)
  }

  /** What "Список напоминаний" answers. */
  datatype ListReply = EmptyList | Lines(lines: seq<ListLine>) | ListError(error: Exception)

  function ListReplyOf(docs: seq<Doc>): ListReply {
    if docs == [] then EmptyList
    else
      match ListingOf(docs)
      case Err(e) => ListError(e)
      case Ok(lines) => Lines(lines)
  }

  /** A button of the delete menu: its label's parts and its callback data. */
  datatype Button = Button(message: string, date: Moment, callbackData: string)

  function DeleteMenuOf(docs: seq<Doc>): (r: Result<seq<Button>>)
    ensures r.Ok? <==> forall i :: 0 <= i < |docs| ==> docs[i].rec.date.Some?
    ensures r.Err? ==> r.error == MissingField("date")
    ensures r.Ok? ==>
      |r.value| == |docs| &&
      forall i :: 0 <= i < |docs| ==>
        r.value[i] == Button(docs[i].rec.message, docs[i].rec.date.value, DeleteToken(docs[i].id))
    decreases |docs|
  {
    if docs == [] then Ok([])
    else if docs[0].rec.date.None? then Err(MissingField("date"))
    else
      match DeleteMenuOf(docs[1..])
      case Err(e) => Err(e)
      case Ok(rest) => Ok([Button(docs[0].rec.message, docs[0].rec.date.value, DeleteToken(docs[0].id))] + rest)
  }

  /** What "Удалить напоминание" answers. */
  datatype MenuReply = NothingToDelete | Menu(buttons: seq<Button>) | MenuError(error: Exception)

  function MenuReplyOf(docs: seq<Doc>): MenuReply {
    if docs == [] then NothingToDelete
    else
      match DeleteMenuOf(docs)
      case Err(e) => MenuError(e)
      case Ok(buttons) => Menu(buttons)
  }

  /** `view_reminders`: the owner's active reminders as listing lines. */
  method ViewReminders(service: ReminderService, userId: string) returns (docs: seq<Doc>, reply: ListReply)
    ensures IsSnapshot(service.repo.records, Some(userId), docs)
    ensures reply == ListReplyOf(docs)
  {
    docs := service.GetAllReminders(userId);
    reply := ListReplyOf(docs);
  }

  /** `delete_reminder_prompt`: one delete button per active reminder of the owner. */
  method DeleteReminderPrompt(service: ReminderService, userId: string) returns (docs: seq<Doc>, reply: MenuReply)
    ensures IsSnapshot(service.repo.records, Some(userId), docs)
    ensures reply == MenuReplyOf(docs)
  {
    docs := service.GetAllReminders(userId);
    reply := MenuReplyOf(docs);
  }

  // ---------------------------------------------------------------------------
  // The callbacks

  /** What `delete_reminder_callback` edits the message to. */
  datatype DeleteAnswer = DeletedText | NotFoundText | DeleteErrorText(error: Exception)

  /** The delete callback: the id after the colon (IndexError escapes), then `remove_reminder` inside the try. */
  function DeleteCallbackOf(t: Table, log: seq<AuditEntry>, userId: string, data: string, now: int)
    : (Table, seq<AuditEntry>, Result<DeleteAnswer>)
  {
    match CallbackId(data)
    case Err(e) => (t, log, Err(e))
    case Ok(raw) =>
      var (t', log', r) := DeleteOf(t, log, userId, raw, now);
      (t', log', Ok(match r
                    case Err(e) => DeleteErrorText(e)
                    case Ok(true) => DeletedText
                    case Ok(false) => NotFoundText))
  }

  method DeleteReminderCallback(service: ReminderService, userId: string, data: string, now: int)
    returns (answer: Result<DeleteAnswer>)
    modifies service.repo
    ensures (service.repo.records, service.repo.audit, answer)
      == DeleteCallbackOf(old(service.repo.records), old(service.repo.audit), userId, data, now)
  {
    var raw := CallbackId(data);
    if raw.Err? {
      return Err(raw.error);
    }
    var r := service.RemoveReminder(userId, raw.value, now);
    answer := Ok(match r
                 case Err(e) => DeleteErrorText(e)
                 case Ok(true) => DeletedText
                 case Ok(false) => NotFoundText);
  }

  /** What `confirm_reminder` answers. */
  datatype ConfirmAnswer = ConfirmedText | AlreadyOrMissingAlert

  /** The confirm callback: the id after the colon, then the update by id; success iff a document was modified. */
  function ConfirmCallbackOf(t: Table, data: string): (Table, Result<ConfirmAnswer>) {
    match CallbackId(data)
    case Err(e) => (t, Err(e))
    case Ok(raw) =>
      var (t', r) := CompleteByIdOf(t, raw);
      (t', match r
           case Err(e) => Err(e)
           case Ok(modified) => Ok(if modified then ConfirmedText else AlreadyOrMissingAlert))
  }

  method ConfirmReminder(repo: ReminderRepository, data: string) returns (answer: Result<ConfirmAnswer>)
    modifies repo
    ensures (repo.records, answer) == ConfirmCallbackOf(old(repo.records), data)
    ensures repo.audit == old(repo.audit)
  {
    var raw := CallbackId(data);
    if raw.Err? {
      return Err(raw.error);
    }
    var r := repo.CompleteById(raw.value);
    if r.Err? {
      return Err(r.error);
    }
    answer := Ok(if r.value then ConfirmedText else AlreadyOrMissingAlert);
  }

  // ---------------------------------------------------------------------------
  // Properties of the callbacks

  /**
   * Confirming by the button's token succeeds iff the reminder exists and is
   * still active; a repeat confirmation, or one after the scheduler's
   * auto-completion, reports failure and changes nothing.
   */
  lemma ConfirmSucceedsOnce(t: Table, u: string, id: Id)
    ensures var (t1, first) := ConfirmCallbackOf(t, ConfirmToken(id));
      && (first == Ok(ConfirmedText) <==> id in t && !t[id].completed)
      && (first == Ok(AlreadyOrMissingAlert) <==> !(id in t && !t[id].completed))
      && (id in t ==> t1 == t[id := t[id].(completed := true)])
      && (id !in t ==> t1 == t)
      && ConfirmCallbackOf(t1, ConfirmToken(id)) == (t1, Ok(AlreadyOrMissingAlert))
    ensures Owns(t, u, id) && !Truthy(t[id].recurring) ==>
      var (t2, _) := MarkCompletedOf(t, u, id);
      ConfirmCallbackOf(t2, ConfirmToken(id)) == (t2, Ok(AlreadyOrMissingAlert))
  {
    StoredIdTokens(id);
    if id in t {
      var t1 := t[id := t[id].(completed := true)];
      assert t1[id := t1[id].(completed := true)] == t1;
    }
  }

  /**
   * Deleting by the button's token: the success text iff the presser owns the
   * reminder, which is then gone with one "deleted" entry logged; otherwise
   * the not-found text and no change.
   */
  lemma DeleteCallbackAnswers(t: Table, log: seq<AuditEntry>, u: string, id: Id, now: int)
    ensures var (t', log', answer) := DeleteCallbackOf(t, log, u, DeleteToken(id), now);
      && (answer == Ok(DeletedText) <==> Owns(t, u, id))
      && (answer == Ok(NotFoundText) <==> !Owns(t, u, id))
      && (Owns(t, u, id) ==> t' == t - {id} && log' == log + [AuditEntry(u, "deleted", now)])
      && (!Owns(t, u, id) ==> t' == t && log' == log)
  {
    StoredIdTokens(id);
  }

  /** Every button of the owner's delete menu, pressed by the owner, deletes its own reminder. */
  lemma DeleteMenuButtonsDelete(t: Table, log: seq<AuditEntry>, u: string, docs: seq<Doc>, i: nat, now: int)
    requires IsSnapshot(t, Some(u), docs) && i < |docs|
    requires MenuReplyOf(docs).Menu?
    ensures var button := MenuReplyOf(docs).buttons[i];
      && Route(button.callbackData) == ToDelete
      && DeleteCallbackOf(t, log, u, button.callbackData, now)
         == (t - {docs[i].id}, log + [AuditEntry(u, "deleted", now)], Ok(DeletedText))
  {
    assert docs[i].id in Ids(docs);
    StoredIdTokens(docs[i].id);
    DeleteCallbackAnswers(t, log, u, docs[i].id, now);
  }

  /** The listing shows each of the owner's active reminders once, with its label. */
  lemma ListingShowsSnapshot(t: Table, u: string, docs: seq<Doc>)
    requires IsSnapshot(t, Some(u), docs)
    requires forall id :: id in t ==> t[id].date.Some?
    ensures MatchingIds(t, Some(u)) == {} ==> ListReplyOf(docs) == EmptyList
    ensures MatchingIds(t, Some(u)) != {} ==>
      ListReplyOf(docs).Lines? && |ListReplyOf(docs).lines| == |MatchingIds(t, Some(u))|
      && forall i :: 0 <= i < |docs| ==>
           ListReplyOf(docs).lines[i].caption == DisplayOf(t[docs[i].id].recurring)
  {
    if docs == [] {
      assert Ids(docs) == {};
    } else {
      assert docs[0].id in Ids(docs);
      DistinctIdsCount(docs);
    }
  }
}
