/** The older synchronous bot (main.py): its handlers and the text-edit
    conversation it wires up.  Here the conversation's entry point is
    `button_handler` itself, for every callback payload. */
module SyncBot {
  import opened Text
  import opened Store
  import opened Chat

  /** The template seeded by `_init_db`. */
  const DefaultText: string := "🌈 Твой показатель: {percentage}%"

  const StartKeyboard: seq<Button> := [
    Button("🔄 Проверить снова", "retry"),
    Button("📊 Моя статистика", "my_stats")
  ]

  /** The seeded template is a valid one, and renders as "🌈 Твой показатель: <r>%". */
  lemma DefaultTextRenders(r: nat)
    ensures Contains(DefaultText, Placeholder)
    ensures Render(DefaultText, r) == "🌈 Твой показатель: " + NatToString(r) + "%"
  {
    var prefix, suffix := "🌈 Твой показатель: ", "%";
    assert DefaultText == prefix + Placeholder + suffix;
    assert forall i :: 0 <= i < |prefix| ==> prefix[i] != '{';
    assert !Contains(suffix, Placeholder);
    RenderTemplate(prefix, suffix, r);
  }

  // ---------------------------------------------------------------------------
  // Tests and statistics commands

  /** `start`: record result `r` (drawn by `random.randint(0, 100)`), then reply with
      the stored template rendered for `r` and two buttons. Without a stored
      template the reply fails (None) after the test is recorded. */
  method Start(db: Database, userId: int, username: Option<string>, r: nat, now: int)
    returns (reply: Option<Reply>)
    requires r <= 100
    requires db.Valid()
    modifies db
    ensures db.Valid()
    ensures db.users == old(db.users)[userId := UserRow(username, NextCount(old(db.users), userId), now)]
    ensures db.tests == old(db.tests) + [TestRow(userId, r, now)]
    ensures db.config == old(db.config)
    ensures reply.Some? <==> MainTextKey in db.config
    ensures reply.Some? ==> reply.value == Reply([Lit(Render(db.config[MainTextKey], r))], StartKeyboard)
  {
    db.AddTestResult(userId, username, r, now);
    var mainText := db.GetConfig(MainTextKey);
    match mainText
    case None =>
      reply := None;
    case Some(t) =>
      reply := Some(Reply([Lit(Render(t, r))], StartKeyboard));
  }

  /** The periods of `handle_stats`, in days. */
  const Periods: map<string, nat> := map["week" := 7, "month" := 30, "year" := 365]

  function StatsReply(period: string, stats: Stats): Reply {
    Reply([Lit("📊 Статистика за " + period + ":\n▫️ Средний показатель: "),
           Average(stats),
           Lit("%\n▫️ Всего тестов: " + NatToString(stats.count))], [])
  }

  /** `handle_stats(period)`: the statistics of the period's window. Its callers pass
      only the three keys of its table. */
  method HandleStats(db: Database, period: string, now: int) returns (reply: Reply)
    requires period in Periods
    ensures reply == StatsReply(period, Aggregate(db.tests, now, Periods[period]))
  {
    var stats := db.GetStats(Periods[period], now);
    reply := StatsReply(period, stats);
  }

  /** The commands registered in `main`. */
  datatype CommandAction = RunStart | RunStats(period: string) | RunAdmin | NoCommand

  function CommandRoute(name: string): CommandAction {
    if name == "start" then RunStart
    else if name == "stats_week" then RunStats("week")
    else if name == "stats_month" then RunStats("month")
    else if name == "stats_year" then RunStats("year")
    else if name == "admin" then RunAdmin
    else NoCommand
  }

  /** `/stats_week`, `/stats_month` and `/stats_year` query 7, 30 and 365 days, and
      every statistics command names a period `handle_stats` knows. */
  lemma StatsCommandWindows(name: string)
    ensures CommandRoute(name).RunStats? ==> CommandRoute(name).period in Periods
    ensures CommandRoute("stats_week") == RunStats("week") && Periods["week"] == 7
    ensures CommandRoute("stats_month") == RunStats("month") && Periods["month"] == 30
    ensures CommandRoute("stats_year") == RunStats("year") && Periods["year"] == 365
  {
  }

  // ---------------------------------------------------------------------------
  // Administration and buttons

  const DeniedText: string := "⛔ Доступ запрещен!"

  const AdminKeyboard: seq<Button> := [
    Button("✏️ Изменить текст", "edit_text"),
    Button("📊 Полная статистика", "full_stats")
  ]

  /** `admin_panel`: only `adminId` (ADMIN_ID) gets the menu. */
  function AdminPanel(userId: int, adminId: int): Reply {
    if userId != adminId then Plain(DeniedText) else Reply([Lit("👑 Админ-панель")], AdminKeyboard)
  }

  /** A non-admin gets the denial and no buttons; the admin gets the two buttons. */
  lemma AdminPanelAccess(userId: int, adminId: int)
    ensures AdminPanel(userId, adminId).buttons != [] <==> userId == adminId
    ensures userId != adminId ==> AdminPanel(userId, adminId) == Plain(DeniedText)
  {
  }

  const EditPrompt: string := "Введите новый текст (используйте {percentage}):"

  /** What `button_handler` does with a payload, and what it returns. */
  datatype ButtonAction = RunRetry | RunMyStats | PromptText | RunFullStats | NoAction
  datatype ButtonOutcome = ButtonOutcome(action: ButtonAction, returned: Returned)

  function ButtonHandler(payload: string): ButtonOutcome {
    if payload == "retry" then ButtonOutcome(RunRetry, NoState)
    else if payload == "my_stats" then ButtonOutcome(RunMyStats, NoState)
    else if payload == "edit_text" then ButtonOutcome(PromptText, ToTextEdit)
    else if payload == "full_stats" then ButtonOutcome(RunFullStats, NoState)
    else ButtonOutcome(NoAction, NoState)
  }

  /** `button_handler` returns TEXT_EDIT for `edit_text` and None for every other
      payload; it never ends a conversation. */
  lemma ButtonReturns(payload: string)
    ensures ButtonHandler(payload).returned == ToTextEdit <==> payload == "edit_text"
    ensures ButtonHandler(payload).returned != ToTextEdit ==> ButtonHandler(payload).returned == NoState
    ensures ButtonHandler(payload).action != NoAction <==> payload in ["retry", "my_stats", "edit_text", "full_stats"]
  {
  }

  /** The window `show_user_stats` calls "all time": ten years. */
  const AllTimeDays: nat := 365 * 10

  /** `show_user_stats`: the user's count, the ten-year average and the date of the
      last test. It unpacks the row without a check, so for a user without a row it
      fails (None) and sends nothing. */
  method ShowUserStats(db: Database, userId: int, now: int) returns (reply: Option<Reply>)
    ensures userId !in db.users ==> reply == None
    ensures userId in db.users ==> reply == Some(Reply([
      Lit("📌 Личная статистика:\n▫️ Всего тестов: " + NatToString(db.users[userId].testsCount)
          + "\n▫️ Средний результат: "),
      Average(Aggregate(db.tests, now, 3650)),
      Lit("%\n▫️ Последний тест: " + SqlDate(db.users[userId].lastTest))], []))
  {
    var row := db.GetUserStats(userId);
    if row.None? {
      reply := None;
      return;
    }
    var (testsCount, lastTest) := row.value;
    var stats := db.GetStats(AllTimeDays, now);
    TimestampDate(db.users[userId].lastTest);
    var date := FirstWord(lastTest);
    if date.None? {
      reply := None;
      return;
    }
    reply := Some(Reply([
      Lit("📌 Личная статистика:\n▫️ Всего тестов: " + NatToString(testsCount) + "\n▫️ Средний результат: "),
      Average(stats),
      Lit("%\n▫️ Последний тест: " + date.value)], []));
  }

  // ---------------------------------------------------------------------------
  // Full statistics

  /** The table `show_full_stats` iterates over, in insertion order. */
  const FullStatsPeriods: seq<(string, nat)> := [("week", 7), ("month", 30), ("year", 365)]

  const FullStatsHeader: string := "📈 Глобальная статистика:\n\n"

  /** The section one period adds to the response. */
  function Section(title: string, stats: Stats): seq<Fragment> {
    [Lit("• " + title + ":\n  ▫️ Среднее: "), Average(stats),
     Lit("%\n  ▫️ Тестов: " + NatToString(stats.count) + "\n\n")]
  }

  /** The sections of the given periods, in order. */
  function Sections(periods: seq<(string, nat)>, tests: seq<TestRow>, now: int): seq<Fragment> {
    if periods == [] then []
    else
      var (period, days) := periods[|periods| - 1];
      Sections(periods[..|periods| - 1], tests, now) + Section(Capitalize(period), Aggregate(tests, now, days))
  }

  lemma CapitalizedPeriods()
    ensures Capitalize("week") == "Week" && Capitalize("month") == "Month" && Capitalize("year") == "Year"
  {
  }

  /** One more period adds its section at the end of the response. */
  lemma SectionsStep(head: seq<Fragment>, periods: seq<(string, nat)>, i: nat, tests: seq<TestRow>, now: int)
    requires i < |periods|
    ensures head + Sections(periods[..i + 1], tests, now)
         == head + Sections(periods[..i], tests, now)
          + Section(Capitalize(periods[i].0), Aggregate(tests, now, periods[i].1))
  {
    assert periods[..i + 1][..i] == periods[..i];
  }

  /** The three periods give the sections Week, Month and Year, for 7, 30 and 365 days. */
  lemma FullStatsSections(tests: seq<TestRow>, now: int)
    ensures Sections(FullStatsPeriods, tests, now)
         == Section("Week", Aggregate(tests, now, 7))
          + Section("Month", Aggregate(tests, now, 30))
          + Section("Year", Aggregate(tests, now, 365))
  {
    CapitalizedPeriods();
    var ps := FullStatsPeriods;
    assert ps[..2] == [("week", 7), ("month", 30)];
    assert ps[..2][..1] == [("week", 7)];
    assert [("week", 7)][..0] == [];
    assert Sections([("week", 7)], tests, now) == Section("Week", Aggregate(tests, now, 7));
  }

  /** `show_full_stats`: the header, then one section per window, for 7, 30 and 365 days
      in that order. */
  method ShowFullStats(db: Database, now: int) returns (reply: Reply)
    ensures reply == Reply([Lit(FullStatsHeader)] + Sections(FullStatsPeriods, db.tests, now), [])
  {
    var response := [Lit(FullStatsHeader)];
    var ps := FullStatsPeriods;
    var i := 0;
    while i < |ps|
      invariant 0 <= i <= |ps|
      invariant response == [Lit(FullStatsHeader)] + Sections(ps[..i], db.tests, now)
    {
      var stats := db.GetStats(ps[i].1, now);
      SectionsStep([Lit(FullStatsHeader)], ps, i, db.tests, now);
      response := response + Section(Capitalize(ps[i].0), stats);
      i := i + 1;
    }
    assert ps[..i] == ps;
    reply := Reply(response, []);
  }

  // ---------------------------------------------------------------------------
  // The text-edit conversation

  /** The callbacks of the ConversationHandler. */
  datatype ConvCallback = ButtonCallback(payload: string) | UpdateText(text: string) | Cancel

  /** Which callback the ConversationHandler runs: `button_handler` for every callback
      query when out of the conversation, the TEXT_EDIT handler or the `/cancel`
      fallback inside it. */
  function ConvRoute(s: ConvState, k: Kind): Option<ConvCallback> {
    match s
    case Idle =>
      if k.CallbackQuery? then Some(ButtonCallback(k.payload)) else None
    case TextEdit =>
      if k.TextMessage? then Some(UpdateText(k.text))
      else if k == Command("cancel") then Some(Cancel)
      else None
  }

  const RejectText: string := "❌ В тексте должен быть плейсхолдер {percentage}!"
  const UpdatedText: string := "✅ Текст успешно обновлен!"
  const CancelText: string := "🚫 Действие отменено"

  /** The outcome of `update_text`: the config afterwards, the reply and the returned state. */
  datatype TextEditOutcome = TextEditOutcome(config: map<string, string>, reply: string, returned: Returned)

  function UpdateTextOutcome(config: map<string, string>, text: string): TextEditOutcome {
    if !Contains(text, Placeholder) then TextEditOutcome(config, RejectText, End)
    else TextEditOutcome(config[MainTextKey := text], UpdatedText, End)
  }

  /** `update_text` against the database. */
  method UpdateTextHandler(db: Database, text: string) returns (reply: Reply, returned: Returned)
    modifies db
    ensures db.config == UpdateTextOutcome(old(db.config), text).config
    ensures db.users == old(db.users) && db.tests == old(db.tests)
    ensures reply == Plain(UpdateTextOutcome(old(db.config), text).reply)
    ensures returned == End
  {
    if !Contains(text, Placeholder) {
      return Plain(RejectText), End;
    }
    db.UpdateConfig(MainTextKey, text);
    return Plain(UpdatedText), End;
  }

  /** `update_text` always returns END, rejects a text without `{percentage}` leaving the
      config as it was, and otherwise stores the text as `main_text`. */
  lemma UpdateTextEnds(config: map<string, string>, text: string)
    ensures UpdateTextOutcome(config, text).returned == End
    ensures UpdateTextOutcome(config, text).config
         == if Contains(text, Placeholder) then config[MainTextKey := text] else config
  {
  }

  /** One step of the conversation: the state and config afterwards, and the callback
      that ran (None: the update is not the conversation's). */
  datatype StepResult = StepResult(state: ConvState, config: map<string, string>, ran: Option<ConvCallback>)

  function ConvStep(s: ConvState, config: map<string, string>, k: Kind): StepResult {
    var route := ConvRoute(s, k);
    match route
    case None => StepResult(s, config, None)
    case Some(ButtonCallback(p)) => StepResult(After(s, ButtonHandler(p).returned), config, route)
    case Some(UpdateText(t)) =>
      var o := UpdateTextOutcome(config, t);
      StepResult(After(s, o.returned), o.config, route)
    case Some(Cancel) => StepResult(After(s, End), config, route)
  }

  /** The conversation is entered only by the payload `edit_text` and stays open only
      for updates it does not handle. */
  lemma ConvEnterIff(s: ConvState, config: map<string, string>, k: Kind)
    ensures ConvStep(s, config, k).state == TextEdit <==>
              || (s == Idle && k == CallbackQuery("edit_text"))
              || (s == TextEdit && ConvRoute(s, k).None?)
  {
  }

  /** In TEXT_EDIT every text message and `/cancel` end the conversation, while button
      presses are not handled at all. */
  lemma ConvTextOrCancelEnds(config: map<string, string>, k: Kind)
    ensures k.TextMessage? || k == Command("cancel") ==> ConvStep(TextEdit, config, k).state == Idle
    ensures k.CallbackQuery? ==> ConvStep(TextEdit, config, k) == StepResult(TextEdit, config, None)
  {
  }

  /** The template changes only through a TEXT_EDIT text message that contains
      `{percentage}`, and then becomes that text. */
  lemma ConvTemplateChange(s: ConvState, config: map<string, string>, k: Kind)
    ensures ConvStep(s, config, k).config
         == if s == TextEdit && k.TextMessage? && Contains(k.text, Placeholder)
            then config[MainTextKey := k.text] else config
  {
  }

  /** The ConversationHandler on one update: only the sender's conversation moves. */
  function Dispatch(sessions: Sessions, config: map<string, string>, u: Update)
    : (Sessions, map<string, string>, Option<ConvCallback>)
  {
    var r := ConvStep(SessionOf(sessions, u.chat, u.user), config, u.kind);
    (sessions[(u.chat, u.user) := r.state], r.config, r.ran)
  }

  /** Conversations of other (chat, user) pairs are not affected by an update. */
  lemma DispatchIsolated(sessions: Sessions, config: map<string, string>, u: Update, chat: int, user: int)
    requires (chat, user) != (u.chat, u.user)
    ensures SessionOf(Dispatch(sessions, config, u).0, chat, user) == SessionOf(sessions, chat, user)
  {
  }

  /** The ConversationHandler over a sequence of updates in arrival order. */
  function Run(sessions: Sessions, config: map<string, string>, us: seq<Update>): (Sessions, map<string, string>) {
    if us == [] then (sessions, config)
    else
      var (s, c) := Run(sessions, config, us[..|us| - 1]);
      var (s', c', _) := Dispatch(s, c, us[|us| - 1]);
      (s', c')
  }

  /** A template containing `{percentage}` keeps containing it, whatever updates arrive. */
  lemma {:induction false} TemplateStaysValid(sessions: Sessions, config: map<string, string>, us: seq<Update>)
    requires MainTextKey in config && Contains(config[MainTextKey], Placeholder)
    ensures MainTextKey in Run(sessions, config, us).1
    ensures Contains(Run(sessions, config, us).1[MainTextKey], Placeholder)
  {
    if us != [] {
      TemplateStaysValid(sessions, config, us[..|us| - 1]);
      var (s, c) := Run(sessions, config, us[..|us| - 1]);
      var u := us[|us| - 1];
      ConvTemplateChange(SessionOf(s, u.chat, u.user), c, u.kind);
    }
  }

  /** No handler on the way checks ADMIN_ID: any user who presses `edit_text` and then
      sends a text with `{percentage}` replaces the template. */
  lemma EditWithoutAdminCheck(sessions: Sessions, config: map<string, string>, chat: int, user: int, text: string)
    requires SessionOf(sessions, chat, user) == Idle
    requires Contains(text, Placeholder)
    ensures var (s1, c1, _) := Dispatch(sessions, config, Update(chat, user, CallbackQuery("edit_text")));
            var (s2, c2, _) := Dispatch(s1, c1, Update(chat, user, TextMessage(text)));
            && SessionOf(s1, chat, user) == TextEdit
            && SessionOf(s2, chat, user) == Idle
            && c2 == config[MainTextKey := text]
  {
  }
}
