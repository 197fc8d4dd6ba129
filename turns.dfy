/** `demo_generate_turn`: the next line of the simulated client and the four
    therapist answers, looked up in static tables. */
module Turns {
  import opened Choice

  /** One entry of a session's history: the client's line. */
  datatype TurnRecord = TurnRecord(client: string)

  /** What one turn shows: the client's line and the answers A to D. */
  datatype Turn = Turn(client: string, options: seq<string>)

  const ProcrastinationTopic := "Прокрастинация и самокритика"
  const FailureTopic := "Страх неуспеха/неудачи"

  const ProcrastinationOpening := "Я всё откладываю и ругаю себя за это. Кажется, я ни на что не способен."
  const FailureOpening := "Если у меня не получится, все подумают, что я бездарность."
  const GenericOpening := "Мне трудно справляться с мыслями — они сразу катятся в негатив."

  /** Opening lines for the two topics that have one of their own. */
  const Openings: map<string, string> := map[
    ProcrastinationTopic := ProcrastinationOpening,
    FailureTopic := FailureOpening
  ]

  const TailA := "Какие факты указывают на это? Наверное, я не всё учитываю."
  const TailB := "С одной стороны, это звучит логично… но сомнения остаются."
  const TailC := "Ну, может быть… Хотя не уверен(а)."
  const TailD := "Нет, мне кажется, это не про меня. Я просто не справляюсь."

  /** Continuation lines keyed by the previous answer. */
  const Tail: map<string, string> := map["a" := TailA, "b" := TailB, "c" := TailC, "d" := TailD]

  /** The therapist's answers, from the most to the least appropriate. */
  const Options: seq<string> := [
    "Давайте заметим автоматическую мысль и проверим её точность: какие факты «за» и «против»?",
    "Похоже, вы очень строги к себе — можно ли переформулировать с большей доброжелательностью?",
    "Так бывает со многими — возможно, стоит просто «вписать» маленький шаг в план на сегодня.",
    "Нужно просто перестать лениться и собраться."
  ]

  /** The client's first line on a topic: `openings.get(topic, generic_open)`. */
  function OpeningLine(topic: string): (line: string)
    ensures line != ""
  {
    if topic in Openings then Openings[topic] else GenericOpening
  }

  /** The continuation line for an answer: `tail.get(key, tail["b"])`. */
  function TailLine(key: string): (line: string)
    ensures line != ""
  {
    if key in Tail then Tail[key] else Tail["b"]
  }

  /** The four continuation lines are distinct, one per answer. */
  lemma TailLineKeys(key: string)
    requires key == "a" || key == "b" || key == "c" || key == "d"
    ensures TailLine(key) == TailA <==> key == "a"
    ensures TailLine(key) == TailB <==> key == "b"
    ensures TailLine(key) == TailC <==> key == "c"
    ensures TailLine(key) == TailD <==> key == "d"
  {
  }

  /** The client's later line: the previous answer, normalised and defaulting
      to B, looked up in the continuation table. */
  function ContinuationLine(reply: string): (line: string)
    ensures line != ""
  {
    var k := NormalizeChoice(reply);
    TailLine(if k != "" then k else "b")
  }

  /** The turn after `history`, given the topic and the previous answer. */
  function GenerateTurn(topic: string, history: seq<TurnRecord>, reply: string): (t: Turn)
    ensures |t.options| == 4 && t.options == Options
    ensures t.client != ""
  {
    var step := |history|;
    var client := if step == 0 then OpeningLine(topic) else ContinuationLine(reply);
    Turn(client, Options)
  }

  /** The first turn depends on the topic alone: its own opening for the two
      keyed topics, the generic one for every other. */
  lemma FirstTurn(topic: string, reply: string)
    ensures GenerateTurn(topic, [], reply).client ==
      if topic == ProcrastinationTopic then ProcrastinationOpening
      else if topic == FailureTopic then FailureOpening
      else GenericOpening
  {
  }

  /** A later turn depends on the previous answer alone, and each answer has
      its own line; an unrecognised answer gets the line of answer B. */
  lemma LaterTurn(topic: string, history: seq<TurnRecord>, reply: string)
    requires history != []
    ensures var client := GenerateTurn(topic, history, reply).client;
      && (client == TailA <==> NormalizeChoice(reply) == "a")
      && (client == TailB <==> NormalizeChoice(reply) in {"b", ""})
      && (client == TailC <==> NormalizeChoice(reply) == "c")
      && (client == TailD <==> NormalizeChoice(reply) == "d")
  {
    var k := NormalizeChoice(reply);
    TailLineKeys(if k != "" then k else "b");
  }

  /** An answer that normalises to nothing is taken as answer B. */
  lemma UnrecognisedIsB(topic: string, history: seq<TurnRecord>, reply: string)
    requires NormalizeChoice(reply) == ""
    ensures GenerateTurn(topic, history, reply) == GenerateTurn(topic, history, "b")
  {
    CanonicalFixed("b");
  }

  /** Generating from an answer that is already normalised gives the same turn:
      the choice handler normalises once before calling and once inside. */
  lemma GenerateTurnNormalized(topic: string, history: seq<TurnRecord>, reply: string)
    ensures GenerateTurn(topic, history, NormalizeChoice(reply)) == GenerateTurn(topic, history, reply)
  {
    NormalizeChoiceIdempotent(reply);
  }
}
