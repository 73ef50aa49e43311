/** The roadmap that the board is synchronized with (tools/trello/sync_board.py): its codes are distinct, its
    lists known and its headers free of the marker, so the claims about synchronization hold for it. */
module TrelloRoadmap {
  import opened Common
  import opened TrelloNotes
  import opened TrelloSync
  import opened TrelloSynchronizer

  const STAGE_0_PLAN := "docs/superpowers/plans/2026-" + "08-07-ai-sales-manager-stage-" + "0-telegram-prototype.md"
  const STAGE_1_PLAN := "docs/superpowers/plans/2026-" + "08-07-ai-sales-manager-stage-" + "1-sales-infrastructure.md"
  const STAGE_2_PLAN := "docs/superpowers/plans/2026-" + "08-07-ai-sales-manager-stage-" + "2-ai-manager.md"
  const STAGE_3_PLAN := "docs/superpowers/plans/2026-" + "08-07-ai-sales-manager-stage-" + "3-quality-optimization.md"
  const MASTER_PLAN := "docs/superpowers/plans/2026-" + "08-07-ai-sales-manager-master-" + "plan.md"

  const S0_TITLES := [
    "Каркас Telegram-прототипа",
    "Контракты сессий и карантин",
    "Адаптеры авторизации",
    "Прокси и жизненный цикл " + "подключений",
    "Сообщения и совместимость",
    "Контроль допуска Telegram/AI"]

  const S1_TITLES := [
    "Telegram-аккаунты, боты и прокси",
    "Контакты, идентичность и импорт",
    "Безопасные массовые операции",
    "Независимые статусы контактов",
    "Кампании, аудитории, цепочки " + "и варианты",
    "Планировщик, лимиты и " + "идемпотентная отправка",
    "Inbox, менеджеры, смены и handoff",
    "Уведомления и ручные сообщения",
    "Google Sheets, API, webhooks " + "и базовая аналитика",
    "Укрепление, deploy и ручная " + "кампания"]

  const S2_TITLES := [
    "AI-контракт и граница провайдеров",
    "Версионируемые AI-профили",
    "AI-оркестрация и backend-валидация",
    "Память клиента и summary",
    "Версионируемые знания и RAG",
    "Контролируемый внешний поиск",
    "Офферы, трекинг и postback",
    "Языки, голос, вложения и AI-" + "интерфейс",
    "Оценка AI и сквозной gate"]

  const S3_TITLES := [
    "Модерация кандидатов в знания",
    "Версии и воспроизводимость",
    "A/B-тестирование и адаптивный темп",
    "Полная аналитика, расходы и " + "выплаты",
    "Производительность, " + "безопасность, восстановление " + "и наблюдаемость",
    "Приёмка MVP и release runbook"]

  // ---- codes ----

  const DIGITS := "0123456789"

  function TwoDigits(n: nat): string
    requires n < 100
  {
    [DIGITS[n / 10], DIGITS[n % 10]]
  }

  function Code(stage: string, index: nat): string
    requires index < 100
  {
    stage + "." + TwoDigits(index)
  }

  function Goal(title: string, stage: string): string {
    "Выполнить блок «" + title + "» в рамках " + stage + "."
  }

  function StageCards(stage: string, listName: string, planPath: string, titles: seq<string>, status: string,
                      start: nat): (r: seq<RoadmapCard>)
    requires start + |titles| <= 100
    ensures |r| == |titles|
    ensures forall i :: 0 <= i < |titles| ==>
      r[i] == RoadmapCard(Code(stage, start + i), titles[i], listName, status, Goal(titles[i], stage), planPath, None)
  {
    seq(|titles|, i requires 0 <= i < |titles| =>
      RoadmapCard(Code(stage, start + i), titles[i], listName, status, Goal(titles[i], stage), planPath, None))
  }

  const FOUNDATION_GOAL := "Создать фундамент серверной " + "части и аудита."
  const ACCESS_GOAL := "Настроить доступ, первого " + "владельца, TOTP и recovery-" + "коды."
  const SHELL_GOAL := "Сделать web shell и " + "безопасное управление staff."
  const INFO_GOAL := "Показывает общий маршрут " + "AIsales и источник правды для " + "каждого блока."
  const NOW_GOAL := "Собрать операционную основу " + "рабочих Telegram-аккаунтов, " +
      "ботов и прокси в рамках Stage " + "1."
  const NOW_STEP := "Продолжить с единой моделью " + "рабочих аккаунтов, ботами и " + "назначением прокси."

  const S1_FIRST := [
    RoadmapCard("S1.01", "Основа API, базы данных, " + "outbox и аудита", LIST_NAMES[2], "Готово",
      FOUNDATION_GOAL, STAGE_1_PLAN, None),
    RoadmapCard("S1.02", "Организации, пользователи, " + "роли и 2FA", LIST_NAMES[2], "Готово",
      ACCESS_GOAL, STAGE_1_PLAN, None),
    RoadmapCard("S1.03", "Веб-приложение и администрирование", LIST_NAMES[2], "Готово",
      SHELL_GOAL, STAGE_1_PLAN, None)]

  const INFO_CARDS := [
    RoadmapCard("INFO.01", "Как читать эту доску", LIST_NAMES[0], "Справка",
      INFO_GOAL, MASTER_PLAN, None)]

  const NOW_CARDS := [
    RoadmapCard("NOW.01", "Следующий блок — Telegram-" + "аккаунты, боты и прокси", LIST_NAMES[0], "Следующее",
      NOW_GOAL, STAGE_1_PLAN,
      Some(NOW_STEP))]

  const S0_CARDS := StageCards("S0", LIST_NAMES[1], STAGE_0_PLAN, S0_TITLES, "Готово", 1)
  const S1_CARDS := S1_FIRST + StageCards("S1", LIST_NAMES[2], STAGE_1_PLAN, S1_TITLES, "Далее", 4)
  const S2_CARDS := StageCards("S2", LIST_NAMES[3], STAGE_2_PLAN, S2_TITLES, "Далее", 1)
  const S3_CARDS := StageCards("S3", LIST_NAMES[4], STAGE_3_PLAN, S3_TITLES, "Далее", 1)

  const ROADMAP := INFO_CARDS + NOW_CARDS + S0_CARDS + S1_CARDS + S2_CARDS + S3_CARDS

  /** A stage name: no separator and no code can begin in it. */
  predicate StageName(stage: string) {
    '.' !in stage && ' ' !in stage
  }

  lemma DigitsApart(m: nat, n: nat)
    requires m < 100 && n < 100 && TwoDigits(m) == TwoDigits(n)
    ensures m == n
  {
    assert TwoDigits(m)[0] == DIGITS[m / 10] && TwoDigits(m)[1] == DIGITS[m % 10];
    assert TwoDigits(n)[0] == DIGITS[n / 10] && TwoDigits(n)[1] == DIGITS[n % 10];
  }

  /** Codes determine their stage and their index. */
  lemma CodesApart(s: string, m: nat, t: string, n: nat)
    requires StageName(s) && StageName(t) && m < 100 && n < 100 && Code(s, m) == Code(t, n)
    ensures s == t && m == n
  {
    assert |s| == |t|;
    assert Code(s, m)[..|s|] == s && Code(t, n)[..|t|] == t;
    assert Code(s, m)[|s| + 1..] == TwoDigits(m) && Code(t, n)[|t| + 1..] == TwoDigits(n);
    DigitsApart(m, n);
  }

  lemma CodesAreWhole(stage: string, index: nat)
    requires StageName(stage) && index < 100
    ensures !Occurs(Code(stage, index), SEPARATOR)
  {
    var code := Code(stage, index);
    assert forall k :: 0 <= k < |stage| ==> stage[k] != ' ';
    forall i: nat | i <= |code|
      ensures !OccursAt(code, SEPARATOR, i)
    {
      if i + 2 <= |code| {
        assert code[i..i + 2][0] == code[i] != ' ';
      }
    }
  }

  // ---- groups of cards ----

  /** The cards of one stage are numbered on from `start`, lie in known lists and hold no number sign. */
  predicate Group(cards: seq<RoadmapCard>, stage: string, start: nat) {
    && start + |cards| <= 100 && StageName(stage)
    && forall k :: 0 <= k < |cards| ==>
        cards[k].code == Code(stage, start + k) && KnownList(cards[k].listName) && Plain(cards[k])
  }

  predicate KnownList(name: string) {
    name in LIST_NAMES
  }

  predicate Plain(card: RoadmapCard) {
    '#' !in card.status && '#' !in card.goal && '#' !in NextStep(card) && '#' !in card.planPath
  }

  /** No card has a code of the stage. */
  ghost predicate Avoids(cards: seq<RoadmapCard>, stage: string) {
    forall k, n: nat :: 0 <= k < |cards| && n < 100 ==> cards[k].code != Code(stage, n)
  }

  predicate Good(cards: seq<RoadmapCard>) {
    RoadmapOk(cards) && AllClean(cards)
  }

  lemma GroupIsGood(cards: seq<RoadmapCard>, stage: string, start: nat)
    requires Group(cards, stage, start)
    ensures Good(cards)
  {
    forall i, j | 0 <= i < j < |cards|
      ensures cards[i].code != cards[j].code
    {
      if cards[i].code == cards[j].code {
        CodesApart(stage, start + i, stage, start + j);
      }
    }
    forall i | 0 <= i < |cards|
      ensures !Occurs(cards[i].code, SEPARATOR) && Clean(cards[i])
    {
      CodesAreWhole(stage, start + i);
      PlainFieldsGiveCleanHeaders(cards[i]);
    }
  }

  lemma GroupAvoids(cards: seq<RoadmapCard>, stage: string, start: nat, other: string)
    requires Group(cards, stage, start) && StageName(other) && other != stage
    ensures Avoids(cards, other)
  {
    forall k, n: nat | 0 <= k < |cards| && n < 100
      ensures cards[k].code != Code(other, n)
    {
      if cards[k].code == Code(other, n) {
        CodesApart(stage, start + k, other, n);
      }
    }
  }

  /** Another stage's cards may be added. */
  lemma AddGroup(cards: seq<RoadmapCard>, group: seq<RoadmapCard>, stage: string, start: nat)
    requires Good(cards) && Avoids(cards, stage) && Group(group, stage, start)
    ensures Good(cards + group)
    ensures forall other :: StageName(other) && other != stage && Avoids(cards, other) ==> Avoids(cards + group, other)
  {
    GroupIsGood(group, stage, start);
    forall i, j | 0 <= i < j < |cards + group|
      ensures (cards + group)[i].code != (cards + group)[j].code
    {
      if i < |cards| <= j {
        assert group[j - |cards|].code == Code(stage, start + (j - |cards|));
      }
    }
    assert AllClean(cards + group);
    forall other | StageName(other) && other != stage && Avoids(cards, other)
      ensures Avoids(cards + group, other)
    {
      GroupAvoids(group, stage, start, other);
    }
  }

  lemma GoalIsPlain(title: string, stage: string)
    requires '#' !in title && '#' !in stage
    ensures '#' !in Goal(title, stage)
  {
  }

  /** Stage cards are a group if their titles and their stage's names hold no number sign. */
  lemma StageCardsAreGroup(stage: string, listName: string, planPath: string, titles: seq<string>, status: string,
                           start: nat)
    requires start + |titles| <= 100 && StageName(stage) && KnownList(listName)
    requires '#' !in stage && '#' !in planPath && '#' !in status
    requires forall i :: 0 <= i < |titles| ==> '#' !in titles[i]
    ensures Group(StageCards(stage, listName, planPath, titles, status, start), stage, start)
  {
    hide Goal, Code, StageName, StageCards, KnownList;
    var cards := StageCards(stage, listName, planPath, titles, status, start);
    forall k | 0 <= k < |cards|
      ensures Plain(cards[k])
    {
      GoalIsPlain(titles[k], stage);
      assert NextStep(cards[k]) == "";
    }
  }

  // ---- this roadmap ----

  lemma Stage0PlanIsPlain()
    ensures '#' !in STAGE_0_PLAN
  {
  }

  lemma Stage1PlanIsPlain()
    ensures '#' !in STAGE_1_PLAN
  {
  }

  lemma Stage2PlanIsPlain()
    ensures '#' !in STAGE_2_PLAN
  {
  }

  lemma Stage3PlanIsPlain()
    ensures '#' !in STAGE_3_PLAN
  {
  }

  lemma MasterPlanIsPlain()
    ensures '#' !in MASTER_PLAN
  {
  }

  lemma Titles0Part0()
    ensures forall i :: 0 <= i < 3 ==> '#' !in S0_TITLES[i]
  {
    assert '#' !in S0_TITLES[0];
    assert '#' !in S0_TITLES[1];
    assert '#' !in S0_TITLES[2];
  }

  lemma Titles0Part1()
    ensures forall i :: 3 <= i < 6 ==> '#' !in S0_TITLES[i]
  {
    assert '#' !in S0_TITLES[3];
    assert '#' !in S0_TITLES[4];
    assert '#' !in S0_TITLES[5];
  }

  lemma Titles0ArePlain()
    ensures forall i :: 0 <= i < |S0_TITLES| ==> '#' !in S0_TITLES[i]
  {
    Titles0Part0();
    Titles0Part1();
  }

  lemma Titles1Part0()
    ensures forall i :: 0 <= i < 2 ==> '#' !in S1_TITLES[i]
  {
    assert '#' !in S1_TITLES[0];
    assert '#' !in S1_TITLES[1];
  }

  lemma Titles1Part1()
    ensures forall i :: 2 <= i < 4 ==> '#' !in S1_TITLES[i]
  {
    assert '#' !in S1_TITLES[2];
    assert '#' !in S1_TITLES[3];
  }

  lemma Titles1Part2()
    ensures forall i :: 4 <= i < 6 ==> '#' !in S1_TITLES[i]
  {
    assert '#' !in S1_TITLES[4];
    assert '#' !in S1_TITLES[5];
  }

  lemma Titles1Part3()
    ensures forall i :: 6 <= i < 8 ==> '#' !in S1_TITLES[i]
  {
    assert '#' !in S1_TITLES[6];
    assert '#' !in S1_TITLES[7];
  }

  lemma Titles1Part4()
    ensures forall i :: 8 <= i < 10 ==> '#' !in S1_TITLES[i]
  {
    assert '#' !in S1_TITLES[8];
    assert '#' !in S1_TITLES[9];
  }

  lemma Titles1ArePlain()
    ensures forall i :: 0 <= i < |S1_TITLES| ==> '#' !in S1_TITLES[i]
  {
    Titles1Part0();
    Titles1Part1();
    Titles1Part2();
    Titles1Part3();
    Titles1Part4();
  }

  lemma Titles2Part0()
    ensures forall i :: 0 <= i < 3 ==> '#' !in S2_TITLES[i]
  {
    assert '#' !in S2_TITLES[0];
    assert '#' !in S2_TITLES[1];
    assert '#' !in S2_TITLES[2];
  }

  lemma Titles2Part1()
    ensures forall i :: 3 <= i < 6 ==> '#' !in S2_TITLES[i]
  {
    assert '#' !in S2_TITLES[3];
    assert '#' !in S2_TITLES[4];
    assert '#' !in S2_TITLES[5];
  }

  lemma Titles2Part2()
    ensures forall i :: 6 <= i < 9 ==> '#' !in S2_TITLES[i]
  {
    assert '#' !in S2_TITLES[6];
    assert '#' !in S2_TITLES[7];
    assert '#' !in S2_TITLES[8];
  }

  lemma Titles2ArePlain()
    ensures forall i :: 0 <= i < |S2_TITLES| ==> '#' !in S2_TITLES[i]
  {
    Titles2Part0();
    Titles2Part1();
    Titles2Part2();
  }

  lemma Titles3Part0()
    ensures forall i :: 0 <= i < 3 ==> '#' !in S3_TITLES[i]
  {
    assert '#' !in S3_TITLES[0];
    assert '#' !in S3_TITLES[1];
    assert '#' !in S3_TITLES[2];
  }

  lemma Titles3Part1()
    ensures forall i :: 3 <= i < 6 ==> '#' !in S3_TITLES[i]
  {
    assert '#' !in S3_TITLES[3];
    assert '#' !in S3_TITLES[4];
    assert '#' !in S3_TITLES[5];
  }

  lemma Titles3ArePlain()
    ensures forall i :: 0 <= i < |S3_TITLES| ==> '#' !in S3_TITLES[i]
  {
    Titles3Part0();
    Titles3Part1();
  }

  lemma Stage0IsGroup()
    ensures Group(S0_CARDS, "S0", 1)
  {
    Stage0PlanIsPlain();
    Titles0ArePlain();
    StageCardsAreGroup("S0", LIST_NAMES[1], STAGE_0_PLAN, S0_TITLES, "Готово", 1);
  }

  lemma Stage2IsGroup()
    ensures Group(S2_CARDS, "S2", 1)
  {
    Stage2PlanIsPlain();
    Titles2ArePlain();
    StageCardsAreGroup("S2", LIST_NAMES[3], STAGE_2_PLAN, S2_TITLES, "Далее", 1);
  }

  lemma Stage3IsGroup()
    ensures Group(S3_CARDS, "S3", 1)
  {
    Stage3PlanIsPlain();
    Titles3ArePlain();
    StageCardsAreGroup("S3", LIST_NAMES[4], STAGE_3_PLAN, S3_TITLES, "Далее", 1);
  }

  /** A group goes on where the one before it ended. */
  lemma GroupsJoin(a: seq<RoadmapCard>, b: seq<RoadmapCard>, stage: string, start: nat)
    requires Group(a, stage, start) && Group(b, stage, start + |a|)
    ensures Group(a + b, stage, start)
  {
    hide Code, Plain, StageName, KnownList;
  }

  lemma OneIsGroup(card: RoadmapCard, stage: string, index: nat)
    requires index < 100 && StageName(stage) && card.code == Code(stage, index) && KnownList(card.listName)
    requires Plain(card)
    ensures Group([card], stage, index)
  {
    hide KnownList, Plain, Code, StageName;
  }

  lemma LiteralCodes()
    ensures "INFO.01" == Code("INFO", 1) && "NOW.01" == Code("NOW", 1)
    ensures "S1.01" == Code("S1", 1) && "S1.02" == Code("S1", 2) && "S1.03" == Code("S1", 3)
  {
  }

  lemma FoundationGoalIsPlain()
    ensures '#' !in FOUNDATION_GOAL
  {
  }

  lemma AccessGoalIsPlain()
    ensures '#' !in ACCESS_GOAL
  {
  }

  lemma ShellGoalIsPlain()
    ensures '#' !in SHELL_GOAL
  {
  }

  lemma InfoGoalIsPlain()
    ensures '#' !in INFO_GOAL
  {
  }

  lemma NowGoalIsPlain()
    ensures '#' !in NOW_GOAL
  {
  }

  lemma NowStepIsPlain()
    ensures '#' !in NOW_STEP
  {
  }

  lemma StatusesArePlain()
    ensures '#' !in "Готово" && '#' !in "Справка" && '#' !in "Следующее"
  {
  }

  lemma FieldsMakePlain(card: RoadmapCard)
    requires '#' !in card.status && '#' !in card.goal && '#' !in card.planPath
    requires card.nextAction.Some? ==> '#' !in card.nextAction.value
    ensures Plain(card)
  {
  }

  lemma InfoIsPlain()
    ensures Plain(INFO_CARDS[0])
  {
    hide Plain;
    InfoGoalIsPlain();
    MasterPlanIsPlain();
    StatusesArePlain();
    FieldsMakePlain(INFO_CARDS[0]);
  }

  lemma NowIsPlain()
    ensures Plain(NOW_CARDS[0])
  {
    hide Plain;
    NowGoalIsPlain();
    Stage1PlanIsPlain();
    StatusesArePlain();
    NowStepIsPlain();
    FieldsMakePlain(NOW_CARDS[0]);
  }

  lemma FirstOfStage1IsPlain()
    ensures Plain(S1_FIRST[0])
  {
    hide Plain;
    FoundationGoalIsPlain();
    Stage1PlanIsPlain();
    StatusesArePlain();
    FieldsMakePlain(S1_FIRST[0]);
  }

  lemma SecondOfStage1IsPlain()
    ensures Plain(S1_FIRST[1])
  {
    hide Plain;
    AccessGoalIsPlain();
    Stage1PlanIsPlain();
    StatusesArePlain();
    FieldsMakePlain(S1_FIRST[1]);
  }

  lemma ThirdOfStage1IsPlain()
    ensures Plain(S1_FIRST[2])
  {
    hide Plain;
    ShellGoalIsPlain();
    Stage1PlanIsPlain();
    StatusesArePlain();
    FieldsMakePlain(S1_FIRST[2]);
  }

  lemma Stage1FirstIsGroup()
    ensures Group(S1_FIRST, "S1", 1)
  {
    LiteralCodes();
    FirstOfStage1IsPlain();
    SecondOfStage1IsPlain();
    ThirdOfStage1IsPlain();
    StageNames();
    hide Plain, Code, StageName, Group;
    OneIsGroup(S1_FIRST[0], "S1", 1);
    OneIsGroup(S1_FIRST[1], "S1", 2);
    OneIsGroup(S1_FIRST[2], "S1", 3);
    GroupsJoin([S1_FIRST[0]], [S1_FIRST[1]], "S1", 1);
    GroupsJoin([S1_FIRST[0]] + [S1_FIRST[1]], [S1_FIRST[2]], "S1", 1);
    assert S1_FIRST == [S1_FIRST[0]] + [S1_FIRST[1]] + [S1_FIRST[2]];
  }

  lemma Stage1IsGroup()
    ensures Group(S1_CARDS, "S1", 1)
  {
    Stage1PlanIsPlain();
    Titles1ArePlain();
    Stage1FirstIsGroup();
    StageCardsAreGroup("S1", LIST_NAMES[2], STAGE_1_PLAN, S1_TITLES, "Далее", 4);
    GroupsJoin(S1_FIRST, StageCards("S1", LIST_NAMES[2], STAGE_1_PLAN, S1_TITLES, "Далее", 4), "S1", 1);
  }

  lemma InfoIsGroup()
    ensures Group(INFO_CARDS, "INFO", 1)
  {
    LiteralCodes();
    InfoIsPlain();
    StageNames();
    hide Plain, Code, StageName, Group;
    OneIsGroup(INFO_CARDS[0], "INFO", 1);
  }

  lemma NowIsGroup()
    ensures Group(NOW_CARDS, "NOW", 1)
  {
    LiteralCodes();
    NowIsPlain();
    StageNames();
    hide Plain, Code, StageName, Group;
    OneIsGroup(NOW_CARDS[0], "NOW", 1);
  }

  lemma StageNames()
    ensures StageName("INFO") && StageName("NOW") && StageName("S0") && StageName("S1") && StageName("S2")
    ensures StageName("S3")
  {
  }

  /** The roadmap meets what the claims about synchronization ask of one. */
  lemma RoadmapIsGood()
    ensures RoadmapOk(ROADMAP) && AllClean(ROADMAP) && |ROADMAP| == 36
  {
    StageNames();
    InfoIsGroup();
    NowIsGroup();
    Stage0IsGroup();
    Stage1IsGroup();
    Stage2IsGroup();
    Stage3IsGroup();
    hide Group, Avoids, StageName, Code, StageCards;
    JoinedIsGood(INFO_CARDS, NOW_CARDS, S0_CARDS, S1_CARDS, S2_CARDS, S3_CARDS);
  }

  lemma JoinedIsGood(info: seq<RoadmapCard>, now: seq<RoadmapCard>, s0: seq<RoadmapCard>, s1: seq<RoadmapCard>,
                     s2: seq<RoadmapCard>, s3: seq<RoadmapCard>)
    requires Group(info, "INFO", 1) && Group(now, "NOW", 1)
    requires Group(s0, "S0", 1) && Group(s1, "S1", 1) && Group(s2, "S2", 1) && Group(s3, "S3", 1)
    ensures Good(info + now + s0 + s1 + s2 + s3)
  {
    StageNames();
    hide Group, Avoids, StageName, Good;
    GroupIsGood(info, "INFO", 1);
    GroupAvoids(info, "INFO", 1, "NOW");
    GroupAvoids(info, "INFO", 1, "S0");
    GroupAvoids(info, "INFO", 1, "S1");
    GroupAvoids(info, "INFO", 1, "S2");
    GroupAvoids(info, "INFO", 1, "S3");
    AddGroup(info, now, "NOW", 1);
    AddGroup(info + now, s0, "S0", 1);
    AddGroup(info + now + s0, s1, "S1", 1);
    AddGroup(info + now + s0 + s1, s2, "S2", 1);
    AddGroup(info + now + s0 + s1 + s2, s3, "S3", 1);
  }

  /** So for this roadmap, from any board, a second synchronization creates and updates nothing, and
      archives nothing exactly when the board had at most one open list per legacy name. */
  lemma SecondSyncOfThisRoadmap(b: Board, order: seq<string>, order': seq<string>)
    requires BoardOk(b) && LegacyOrder(order) && LegacyOrder(order')
    ensures SyncInput(b, ROADMAP, order) && SyncInput(Sync(b, ROADMAP, order).0, ROADMAP, order')
    ensures
      var once := Sync(b, ROADMAP, order).0;
      var (twice, t) := Sync(once, ROADMAP, order');
      && t.createdLists == 0 && t.createdCards == 0 && t.updatedCards == 0
      && (t.archivedLists == 0 <==> LegacyOnce(b.lists))
      && (LegacyOnce(b.lists) ==> twice == once)
  {
    RoadmapIsGood();
    hide Sync, RoadmapOk, AllClean, LegacyOrder, BoardOk, LegacyOnce;
    SecondSyncExactly(b, ROADMAP, order, order');
  }
}
