/** The per-user session state of the trainer bot: the `USER_STATE` map and
    the `SLEEP_USERS` set, and the four handlers that change them. */
module Sessions {
  import opened Text
  import opened Choice
  import opened Turns

  datatype Option<T> = None | Some(value: T)

  /** The training topics, numbered from 1 in the topic menu. */
  const Topics: seq<string> := [
    "Прокрастинация и самокритика",
    "Повышенная тревожность (перед выступлениями)",
    "Страх неуспеха/неудачи",
    "Чувство вины",
    "Ревность и тревога в отношениях",
    "Страх перемен",
    "Проблемы выбора",
    "Трудности в отношениях с близкими",
    "Заниженная самооценка",
    "Психологическое выгорание",
    "Своя тема"
  ]

  /** The topic stored for the last menu entry, "own topic". */
  const OwnTopic := "Своя тема (демо)"

  const GreetingText := "Привет! Это демо-версия тренажёра КПТ (без внешних ИИ-сервисов).\nВыберите тему тренировки:"
  const EndText := "Конец сессии. Для запуска нового чата нажмите /start"
  const NeedStartText := "Нажмите /start для новой сессии"
  const InvalidTopicText := "Некорректная тема"

  /** The callback data of the answer buttons starts with this prefix. */
  const ChoicePrefix := "choice_"

  /** One user's dialogue: `{topic, history, step, options}`. */
  datatype Session = Session(topic: string, history: seq<TurnRecord>, step: int, options: seq<string>)

  /** What a handler sends back to the user. */
  datatype Reply =
    | TopicMenu(text: string)                                  // greeting with the topic keyboard
    | SessionClosed(text: string)                              // the end-of-session message
    | Notice(text: string)                                     // a short callback answer: a rejection
    | TopicOpened(topic: string, client: string, options: seq<string>)
    | TurnAdvanced(client: string, options: seq<string>)

  /** A topic number from the menu is in range. */
  predicate ValidTopicNumber(num: Option<int>) {
    num.Some? && 1 <= num.value <= |Topics|
  }

  /** The topic a valid menu number selects: its menu entry, except that the
      last entry is stored under a demo name. */
  function TopicFor(n: int): (topic: string)
    requires 1 <= n <= |Topics|
    ensures n < |Topics| ==> topic == Topics[n - 1] && topic != OwnTopic
    ensures n == |Topics| ==> topic == OwnTopic && topic !in Topics
  {
    var topic := Topics[n - 1];
    if n == |Topics| then OwnTopic else topic
  }

  /** The opening line a session on menu topic `n` starts with: topics 1 and 3
      have their own, all others share the generic one. */
  lemma OpeningForTopic(n: int, reply: string)
    requires 1 <= n <= |Topics|
    ensures GenerateTurn(TopicFor(n), [], reply).client ==
      if n == 1 then ProcrastinationOpening
      else if n == 3 then FailureOpening
      else GenericOpening
  {
    FirstTurn(TopicFor(n), reply);
    if n != 1 && n != 3 {
      assert TopicFor(n) != ProcrastinationTopic && TopicFor(n) != FailureTopic;
    }
  }

  /** What an active session always satisfies: one history entry per step,
      the fixed options, and a topic from the menu. */
  predicate ActiveSession(s: Session) {
    && s.step == |s.history|
    && s.history != []
    && s.options == Options
    && exists n :: 1 <= n <= |Topics| && s.topic == TopicFor(n)
  }

  /** The argument of the answer callback: what follows `choice_`. */
  function ChoiceArgument(data: string): (arg: string)
    requires |data| >= |ChoicePrefix| && data[..|ChoicePrefix|] == ChoicePrefix
    ensures data == ChoicePrefix + arg
  {
    data[|ChoicePrefix|..]
  }

  class SessionStore {
    /** `USER_STATE`: the active session of each user. */
    var sessions: map<int, Session>
    /** `SLEEP_USERS`: users who ended a session and have not restarted. */
    var sleeping: set<int>

    ghost predicate Valid()
      reads this
    {
      forall uid :: uid in sessions ==> uid !in sleeping && ActiveSession(sessions[uid])
    }

    constructor ()
      ensures Valid()
      ensures sessions == map[] && sleeping == {}
    {
      sessions := map[];
      sleeping := {};
    }

    /** `/start`: the user is awake again and has no session; the topic menu is shown. */
    method Start(uid: int) returns (reply: Reply)
      requires Valid()
      modifies this
      ensures Valid()
      ensures sleeping == old(sleeping) - {uid}
      ensures sessions == old(sessions) - {uid}
      ensures reply == TopicMenu(GreetingText)
    {
      sleeping := sleeping - {uid};
      sessions := sessions - {uid};
      reply := TopicMenu(GreetingText);
    }

    /** `/end`: the session is dropped and the user sleeps until the next `/start`. */
    method End(uid: int) returns (reply: Reply)
      requires Valid()
      modifies this
      ensures Valid()
      ensures sessions == old(sessions) - {uid}
      ensures sleeping == old(sleeping) + {uid}
      ensures reply == SessionClosed(EndText)
    {
      sessions := sessions - {uid};
      sleeping := sleeping + {uid};
      reply := SessionClosed(EndText);
    }

    /** A topic button: `num` is the parsed number after `topic_`, `None`
        when it does not parse. A sleeping user is told to `/start`; a bad
        number is refused; otherwise a new session replaces any earlier one
        and its first turn is shown. */
    method SelectTopic(uid: int, num: Option<int>) returns (reply: Reply)
      requires Valid()
      modifies this
      ensures Valid()
      ensures sleeping == old(sleeping)
      ensures uid in old(sleeping) ==> reply == Notice(NeedStartText) && sessions == old(sessions)
      ensures uid !in old(sleeping) && !ValidTopicNumber(num) ==>
        reply == Notice(InvalidTopicText) && sessions == old(sessions)
      ensures uid !in old(sleeping) && ValidTopicNumber(num) ==>
        var topic := TopicFor(num.value);
        var client := GenerateTurn(topic, [], "").client;
        && sessions == old(sessions)[uid := Session(topic, [TurnRecord(client)], 1, Options)]
        && reply == TopicOpened(topic, client, Options)
    {
      if uid in sleeping {
        return Notice(NeedStartText);
      }
      if !ValidTopicNumber(num) {
        return Notice(InvalidTopicText);
      }
      var n := num.value;
      var topic := TopicFor(n);
      sessions := sessions[uid := Session(topic, [], 0, [])];
      var turn := GenerateTurn(topic, sessions[uid].history, "");
      var s := sessions[uid];
      sessions := sessions[uid := s.(history := s.history + [TurnRecord(turn.client)])];
      sessions := sessions[uid := sessions[uid].(options := turn.options)];
      sessions := sessions[uid := sessions[uid].(step := 1)];
      assert [] + [TurnRecord(turn.client)] == [TurnRecord(turn.client)];
      assert sessions == old(sessions)[uid := Session(topic, [TurnRecord(turn.client)], 1, Options)];
      reply := TopicOpened(topic, turn.client, turn.options);
    }

    /** An answer button with callback data `data`. Without an active session
        the user is told to `/start`; otherwise the answer is taken, the next
        client line is appended to the history and the step advances by one. */
    method SubmitChoice(uid: int, data: string) returns (reply: Reply)
      requires Valid()
      requires |data| >= |ChoicePrefix| && data[..|ChoicePrefix|] == ChoicePrefix
      modifies this
      ensures Valid()
      ensures sleeping == old(sleeping)
      ensures (uid !in old(sessions) || uid in old(sleeping)) ==>
        reply == Notice(NeedStartText) && sessions == old(sessions)
      ensures uid in old(sessions) && uid !in old(sleeping) ==>
        var s := old(sessions)[uid];
        var client := GenerateTurn(s.topic, s.history, ChoiceArgument(data)).client;
        && sessions == old(sessions)[uid := s.(history := s.history + [TurnRecord(client)],
                                               step := s.step + 1,
                                               options := Options)]
        && reply == TurnAdvanced(client, Options)
    {
      if uid !in sessions || uid in sleeping {
        return Notice(NeedStartText);
      }
      var state := sessions[uid];
      var arg := ChoiceArgument(data);
      var letter := NormalizeChoice(Lower(arg));
      NormalizeChoiceLowered(arg);
      GenerateTurnNormalized(state.topic, state.history, arg);
      var turn := GenerateTurn(state.topic, state.history, letter);
      state := state.(history := state.history + [TurnRecord(turn.client)]);
      state := state.(options := turn.options);
      state := state.(step := state.step + 1);
      sessions := sessions[uid := state];
      reply := TurnAdvanced(turn.client, turn.options);
    }
  }

  /** A dialogue: the first turn of topic 1, then answer A gets the line keyed by A. */
  method Dialogue() {
    var store := new SessionStore();
    var r := store.Start(42);
    r := store.SelectTopic(42, Some(1));
    OpeningForTopic(1, "");
    assert r == TopicOpened(Topics[0], ProcrastinationOpening, Options);
    assert store.sessions[42].step == 1;
    PaddedVariant("A", 0, 'a');
    LaterTurn(Topics[0], store.sessions[42].history, "A");
    r := store.SubmitChoice(42, "choice_A");
    assert "choice_A"[|ChoicePrefix|..] == "A";
    assert r == TurnAdvanced(TailA, Options);
    assert store.sessions[42].step == 2;
  }

  /** After `/end` only `/start` helps; a number out of range creates nothing. */
  method SleepAndRestart() {
    var store := new SessionStore();
    var r := store.SelectTopic(7, Some(999));
    assert r == Notice(InvalidTopicText) && 7 !in store.sessions;
    r := store.SelectTopic(42, Some(1));
    r := store.End(42);
    assert 42 !in store.sessions;
    r := store.SelectTopic(42, Some(1));
    assert r == Notice(NeedStartText);
    r := store.SubmitChoice(42, "choice_B");
    assert r == Notice(NeedStartText) && 42 !in store.sessions;
    r := store.Start(42);
    r := store.SelectTopic(42, Some(1));
    assert store.sessions[42].step == 1 && 7 !in store.sessions;
  }
}
