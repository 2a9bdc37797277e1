/** The asynchronous bot (bot.py): its handlers and the text-edit conversation
    it wires up.  Each handler is modelled on its own; which Telegram updates reach
    it is the library's business, except inside the conversation, whose routing
    is modelled by `ConvRoute`. */
module AsyncBot {
  import opened Text
  import opened Store
  import opened Chat

  /** The template seeded by `init_db`. */
  const DefaultText: string := "🌈 Ваш результат: {percentage}%"

  const StartKeyboard: seq<Button> := [
    Button("🔄 Проверить снова", "retry"),
    Button("📊 Личная статистика", "my_stats"),
    Button("🌍 Общая статистика", "global_stats")
  ]

  /** The seeded template is a valid one, and renders as "🌈 Ваш результат: <r>%". */
  lemma DefaultTextRenders(r: nat)
    ensures Contains(DefaultText, Placeholder)
    ensures Render(DefaultText, r) == "🌈 Ваш результат: " + NatToString(r) + "%"
  {
    var prefix, suffix := "🌈 Ваш результат: ", "%";
    assert DefaultText == prefix + Placeholder + suffix;
    assert forall i :: 0 <= i < |prefix| ==> prefix[i] != '{';
    assert !Contains(suffix, Placeholder);
    RenderTemplate(prefix, suffix, r);
  }

  // ---------------------------------------------------------------------------
  // Tests

  /** `start`: record result `r` (drawn by `random.randint(0, 100)`) for the user,
      then reply with the stored template rendered for `r` and the three buttons.
      Without a stored template the reply fails (None) but the test stays recorded. */
  method Start(db: Database, userId: int, username: Option<string>, r: nat, now: int)
    returns (reply: Option<Reply>)
    requires r <= 100
    requires db.Valid()
    modifies db
    ensures db.Valid()
    ensures db.users == old(db.users)[userId := UserRow(username, NextCount(old(db.users), userId), now)]
    ensures db.tests == old(db.tests) + [TestRow(userId, r, now)]
    ensures db.config == old(db.config)
    ensures reply.Some? <==> MainTextKey in db.config
    ensures reply.Some? ==> reply.value == Reply([Lit(Render(db.config[MainTextKey], r))], StartKeyboard)
  {
    db.AddTestResult(userId, username, r, now);
    var mainText := db.GetConfig(MainTextKey);
    match mainText
    case None =>
      reply := None;
    case Some(t) =>
      reply := Some(Reply([Lit(Render(t, r))], StartKeyboard));
  }

  /** An inline result card. */
  datatype Article = Article(title: string, description: string, message: string)

  /** `inline_query`: renders the template for result `r` into one card; `mention`
      is the user's Markdown mention. It only reads the database: no test is recorded. */
  method InlineQuery(db: Database, mention: string, r: nat) returns (results: Option<seq<Article>>)
    requires r <= 100
    ensures results.Some? <==> MainTextKey in db.config
    ensures results.Some? ==> results.value == [Article(
      "Проверить результат 🌈",
      "Нажмите чтобы узнать свой процент",
      "🔍 Результат для " + mention + ":\n" + Render(db.config[MainTextKey], r))]
  {
    var mainText := db.GetConfig(MainTextKey);
    match mainText
    case None =>
      results := None;
    case Some(t) =>
      var text := "🔍 Результат для " + mention + ":\n" + Render(t, r);
      results := Some([Article("Проверить результат 🌈", "Нажмите чтобы узнать свой процент", text)]);
  }

  // ---------------------------------------------------------------------------
  // Buttons

  /** What `button_handler` does with a callback payload. */
  datatype ButtonAction = RunStart | ShowMyStats | ShowStatsMenu | NoAction

  function ButtonRoute(payload: string): ButtonAction {
    if payload == "retry" then RunStart
    else if payload == "my_stats" then ShowMyStats
    else if payload == "global_stats" then ShowStatsMenu
    else NoAction
  }

  /** `button_handler` acts on exactly the three tokens of the start keyboard. */
  lemma ButtonRouteTokens(payload: string)
    ensures ButtonRoute(payload) != NoAction <==> payload in ["retry", "my_stats", "global_stats"]
    ensures forall b :: b in StartKeyboard ==> ButtonRoute(b.payload) != NoAction
  {
  }

  const NotTestedText: string := "❌ Вы еще не проходили тест!"

  /** `last_test.split()[0] if last_test else 'еще не было'`; None where split()
      finds no word and the handler fails. */
  function LastTestShown(lastTest: string): Option<string> {
    if lastTest == "" then Some("еще не было") else FirstWord(lastTest)
  }

  /** `show_user_stats`: the user's count and the date of their last test, or the
      "not tested yet" message when the user has no row. A reply is always sent. */
  method ShowUserStats(db: Database, userId: int) returns (reply: Option<Reply>)
    ensures userId !in db.users ==> reply == Some(Plain(NotTestedText))
    ensures userId in db.users ==> reply == Some(Plain(
      "📌 Ваша статистика:\n▫️ Всего проверок: " + NatToString(db.users[userId].testsCount)
      + "\n▫️ Последняя проверка: " + SqlDate(db.users[userId].lastTest)))
  {
    var stats := db.GetUserStats(userId);
    if stats.None? {
      reply := Some(Plain(NotTestedText));
      return;
    }
    var (testsCount, lastTest) := stats.value;
    TimestampDate(db.users[userId].lastTest);
    var shown := LastTestShown(lastTest);
    if shown.None? {
      reply := None;
      return;
    }
    reply := Some(Plain("📌 Ваша статистика:\n▫️ Всего проверок: " + NatToString(testsCount)
                        + "\n▫️ Последняя проверка: " + shown.value));
  }

  /** `show_global_stats_menu`. */
  const StatsMenu: Reply := Reply([Lit("🌍 Выберите период статистики:")], [
    Button("7 дней", "stats_7"),
    Button("30 дней", "stats_30"),
    Button("365 дней", "stats_365")
  ])

  // ---------------------------------------------------------------------------
  // Windows given as `stats_<days>`

  /** The text after "stats_", without the newline Python's `$` lets through. */
  function StatsDigitsOf(payload: string): string
    requires |payload| >= 6
  {
    var d := payload[6..];
    if d != [] && d[|d| - 1] == '\n' then d[..|d| - 1] else d
  }

  /** `re.match(r'^stats_\d+$', payload)` for ASCII digits. */
  predicate StatsPattern(payload: string) {
    && |payload| >= 6 && payload[..6] == "stats_"
    && StatsDigitsOf(payload) != [] && AllDigits(StatsDigitsOf(payload))
  }

  /** `int(payload.split('_')[1])`; None where Python raises. */
  function WindowOf(payload: string): Option<int> {
    var parts := Split(payload, '_');
    if |parts| < 2 then None else PyInt(parts[1])
  }

  /** A payload the pattern admits splits at its one underscore. */
  lemma PatternSplit(payload: string)
    requires StatsPattern(payload)
    ensures Split(payload, '_') == ["stats", payload[6..]]
  {
    var rest := payload[6..];
    var digits := StatsDigitsOf(payload);
    assert rest == digits || rest == digits + "\n";
    assert forall i :: 0 <= i < |rest| ==> rest[i] != '_' by {
      forall i | 0 <= i < |rest| ensures rest[i] != '_' {
        if i < |digits| { assert rest[i] == digits[i] && IsDigit(digits[i]); }
      }
    }
    assert payload == "stats" + ['_'] + rest;
    SplitAt("stats", '_', rest);
    SplitNone(rest, '_');
  }

  /** For a payload the pattern admits, `int(...split('_')[1])` is the number written
      after the underscore. */
  lemma PatternWindow(payload: string)
    requires StatsPattern(payload)
    ensures WindowOf(payload) == Some(ParseDigits(StatsDigitsOf(payload)))
  {
    var digits := StatsDigitsOf(payload);
    var rest := payload[6..];
    PatternSplit(payload);
    PyIntDigits(rest, digits);
  }

  /** Writing a window as `stats_<days>` and reading it back gives the window. */
  lemma StatsPayloadRoundTrip(days: nat)
    ensures StatsPattern("stats_" + NatToString(days))
    ensures WindowOf("stats_" + NatToString(days)) == Some(days)
  {
    var p := "stats_" + NatToString(days);
    assert p[..6] == "stats_" && p[6..] == NatToString(days);
    PatternWindow(p);
    ParseNatToString(days);
  }

  /** The menu offers exactly the windows 7, 30 and 365 days, in that order, and
      each of its payloads passes the `stats_` pattern and selects its own window. */
  lemma StatsMenuWindows(i: nat)
    requires i < |StatsMenu.buttons|
    ensures |StatsMenu.buttons| == 3
    ensures StatsPattern(StatsMenu.buttons[i].payload)
    ensures WindowOf(StatsMenu.buttons[i].payload) == Some([7, 30, 365][i])
  {
    if i == 0 {
      assert StatsMenu.buttons[0].payload == "stats_" + NatToString(7) by {
        assert NatToString(7) == "7";
      }
      StatsPayloadRoundTrip(7);
    } else if i == 1 {
      assert StatsMenu.buttons[1].payload == "stats_" + NatToString(30) by {
        assert NatToString(3) == "3" && NatToString(30) == "30";
      }
      StatsPayloadRoundTrip(30);
    } else {
      assert StatsMenu.buttons[2].payload == "stats_" + NatToString(365) by {
        assert NatToString(3) == "3" && NatToString(36) == "36" && NatToString(365) == "365";
      }
      StatsPayloadRoundTrip(365);
    }
  }

  function GlobalStatsReply(days: nat, stats: Stats): Reply {
    Reply([Lit("🌍 Глобальная статистика за " + NatToString(days) + " дней:\n▫️ Средний результат: "),
           Average(stats),
           Lit("%\n▫️ Всего проверок: " + NatToString(stats.count))], [])
  }

  /** `handle_global_stats`, reached through its `^stats_\d+$` pattern: the window is
      the number after the underscore. */
  method HandleGlobalStats(db: Database, payload: string, now: int) returns (reply: Reply)
    requires StatsPattern(payload)
    ensures var days := ParseDigits(StatsDigitsOf(payload));
            reply == GlobalStatsReply(days, Aggregate(db.tests, now, days))
  {
    PatternWindow(payload);
    var days: nat := WindowOf(payload).value;
    var stats := db.GetStats(days, now);
    reply := GlobalStatsReply(days, stats);
  }

  // ---------------------------------------------------------------------------
  // Administration

  const DeniedText: string := "⛔ Доступ запрещен!"

  const AdminKeyboard: seq<Button> := [
    Button("✏️ Изменить текст", "edit_text"),
    Button("📈 Общая статистика", "admin_stats")
  ]

  /** `admin_panel`: only `adminId` (ADMIN_ID) gets the menu. */
  function AdminPanel(userId: int, adminId: int): Reply {
    if userId != adminId then Plain(DeniedText) else Reply([Lit("👑 Админ-панель")], AdminKeyboard)
  }

  /** A non-admin gets the denial and no buttons; the admin gets the two buttons. */
  lemma AdminPanelAccess(userId: int, adminId: int)
    ensures AdminPanel(userId, adminId).buttons != [] <==> userId == adminId
    ensures userId != adminId ==> AdminPanel(userId, adminId) == Plain(DeniedText)
  {
  }

  // ---------------------------------------------------------------------------
  // The text-edit conversation

  /** `re.match('^edit_text$', payload)`. */
  predicate EditTextPattern(payload: string) {
    payload == "edit_text" || payload == "edit_text\n"
  }

  /** The callbacks of the ConversationHandler. */
  datatype ConvCallback = TextEditStart | UpdateText(text: string) | Cancel

  /** Which callback the ConversationHandler runs: the entry point when out of the
      conversation, the TEXT_EDIT handler or the `/cancel` fallback inside it. */
  function ConvRoute(s: ConvState, k: Kind): Option<ConvCallback> {
    match s
    case Idle =>
      if k.CallbackQuery? && EditTextPattern(k.payload) then Some(TextEditStart) else None
    case TextEdit =>
      if k.TextMessage? then Some(UpdateText(k.text))
      else if k == Command("cancel") then Some(Cancel)
      else None
  }

  const EditPrompt: string := "Введите новый текст (используйте {percentage}):"
  const RejectText: string := "❌ Текст должен содержать {percentage}!"
  const UpdatedText: string := "✅ Текст успешно обновлен!"
  const UpdateErrorText: string := "⚠️ Ошибка при обновлении текста"
  const CancelText: string := "🚫 Действие отменено"

  /** The outcome of `update_text`: the config afterwards, the reply and the returned state. */
  datatype TextEditOutcome = TextEditOutcome(config: map<string, string>, reply: string, returned: Returned)

  /** `update_text` on the config table; `storeFault` says whether the database write fails. */
  function UpdateTextOutcome(config: map<string, string>, text: string, storeFault: bool): TextEditOutcome {
    if !Contains(text, Placeholder) then TextEditOutcome(config, RejectText, End)
    else if storeFault then TextEditOutcome(config, UpdateErrorText, End)
    else TextEditOutcome(config[MainTextKey := text], UpdatedText, End)
  }

  /** `update_text` against the database. */
  method UpdateTextHandler(db: Database, text: string, storeFault: bool) returns (reply: Reply, returned: Returned)
    modifies db
    ensures db.config == UpdateTextOutcome(old(db.config), text, storeFault).config
    ensures db.users == old(db.users) && db.tests == old(db.tests)
    ensures reply == Plain(UpdateTextOutcome(old(db.config), text, storeFault).reply)
    ensures returned == End
  {
    if !Contains(text, Placeholder) {
      return Plain(RejectText), End;
    }
    if storeFault {
      return Plain(UpdateErrorText), End;
    }
    db.UpdateConfig(MainTextKey, text);
    return Plain(UpdatedText), End;
  }

  /** `update_text` returns END on every path, and it changes `main_text` exactly when
      the text contains `{percentage}` and the write succeeds. */
  lemma UpdateTextEnds(config: map<string, string>, text: string, storeFault: bool)
    ensures UpdateTextOutcome(config, text, storeFault).returned == End
    ensures UpdateTextOutcome(config, text, storeFault).config
         == if Contains(text, Placeholder) && !storeFault then config[MainTextKey := text] else config
  {
  }

  /** One step of the conversation: the state afterwards, the config afterwards and
      the reply; an update the conversation does not handle changes nothing. */
  datatype StepResult = StepResult(state: ConvState, config: map<string, string>, reply: Option<Reply>)

  function ConvStep(s: ConvState, config: map<string, string>, k: Kind, storeFault: bool): StepResult {
    match ConvRoute(s, k)
    case None => StepResult(s, config, None)
    case Some(TextEditStart) => StepResult(After(s, ToTextEdit), config, Some(Plain(EditPrompt)))
    case Some(UpdateText(t)) =>
      var o := UpdateTextOutcome(config, t, storeFault);
      StepResult(After(s, o.returned), o.config, Some(Plain(o.reply)))
    case Some(Cancel) => StepResult(After(s, End), config, Some(Plain(CancelText)))
  }

  /** The conversation is entered only by an `edit_text` callback, and stays open only
      for updates it does not handle. */
  lemma ConvEnterIff(s: ConvState, config: map<string, string>, k: Kind, storeFault: bool)
    ensures ConvStep(s, config, k, storeFault).state == TextEdit <==>
              || (s == Idle && k.CallbackQuery? && EditTextPattern(k.payload))
              || (s == TextEdit && ConvRoute(s, k).None?)
  {
  }

  /** In TEXT_EDIT every text message and `/cancel` end the conversation. */
  lemma ConvTextOrCancelEnds(config: map<string, string>, k: Kind, storeFault: bool)
    requires k.TextMessage? || k == Command("cancel")
    ensures ConvStep(TextEdit, config, k, storeFault).state == Idle
    ensures ConvStep(TextEdit, config, k, storeFault).reply.Some?
  {
  }

  /** The template changes only through a TEXT_EDIT text message that contains
      `{percentage}`, and then becomes that text. */
  lemma ConvTemplateChange(s: ConvState, config: map<string, string>, k: Kind, storeFault: bool)
    ensures ConvStep(s, config, k, storeFault).config
         == if s == TextEdit && k.TextMessage? && Contains(k.text, Placeholder) && !storeFault
            then config[MainTextKey := k.text] else config
  {
  }

  /** The ConversationHandler on one update: only the sender's conversation moves. */
  function Dispatch(sessions: Sessions, config: map<string, string>, u: Update, storeFault: bool)
    : (Sessions, map<string, string>, Option<Reply>)
  {
    var r := ConvStep(SessionOf(sessions, u.chat, u.user), config, u.kind, storeFault);
    (sessions[(u.chat, u.user) := r.state], r.config, r.reply)
  }

  /** Conversations of other (chat, user) pairs are not affected by an update. */
  lemma DispatchIsolated(sessions: Sessions, config: map<string, string>, u: Update, storeFault: bool,
                         chat: int, user: int)
    requires (chat, user) != (u.chat, u.user)
    ensures SessionOf(Dispatch(sessions, config, u, storeFault).0, chat, user) == SessionOf(sessions, chat, user)
  {
  }

  /** The ConversationHandler over a sequence of updates in arrival order; each update
      carries whether its database write fails. */
  function Run(sessions: Sessions, config: map<string, string>, us: seq<(Update, bool)>)
    : (Sessions, map<string, string>)
  {
    if us == [] then (sessions, config)
    else
      var (s, c) := Run(sessions, config, us[..|us| - 1]);
      var (s', c', _) := Dispatch(s, c, us[|us| - 1].0, us[|us| - 1].1);
      (s', c')
  }

  /** A template containing `{percentage}` keeps containing it, whatever updates arrive. */
  lemma {:induction false} TemplateStaysValid(sessions: Sessions, config: map<string, string>,
                                              us: seq<(Update, bool)>)
    requires MainTextKey in config && Contains(config[MainTextKey], Placeholder)
    ensures MainTextKey in Run(sessions, config, us).1
    ensures Contains(Run(sessions, config, us).1[MainTextKey], Placeholder)
  {
    if us != [] {
      TemplateStaysValid(sessions, config, us[..|us| - 1]);
      var (s, c) := Run(sessions, config, us[..|us| - 1]);
      var (u, fault) := us[|us| - 1];
      ConvTemplateChange(SessionOf(s, u.chat, u.user), c, u.kind, fault);
    }
  }

  /** The entry point does not check ADMIN_ID: any user who sends the `edit_text`
      callback and then a text with `{percentage}` replaces the template. */
  lemma EditWithoutAdminCheck(sessions: Sessions, config: map<string, string>, chat: int, user: int, text: string)
    requires SessionOf(sessions, chat, user) == Idle
    requires Contains(text, Placeholder)
    ensures var (s1, c1, _) := Dispatch(sessions, config, Update(chat, user, CallbackQuery("edit_text")), false);
            var (s2, c2, _) := Dispatch(s1, c1, Update(chat, user, TextMessage(text)), false);
            && SessionOf(s1, chat, user) == TextEdit
            && SessionOf(s2, chat, user) == Idle
            && c2 == config[MainTextKey := text]
  {
  }

  /** The admin menu's statistics button is acted on by no handler: `button_handler`
      ignores it, the `stats_` pattern rejects it, and it is not the conversation entry. */
  lemma AdminStatsUnhandled()
    ensures AdminKeyboard[1].payload == "admin_stats"
    ensures ButtonRoute("admin_stats") == NoAction
    ensures !StatsPattern("admin_stats")
    ensures ConvRoute(Idle, CallbackQuery("admin_stats")).None?
  {
  }
}
