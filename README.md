# AI CBT Trainer: session state machine and turn generator

This project models the core of the AI CBT Trainer, a Telegram demo bot for
practising cognitive behavioural therapy dialogues. The user picks a training
topic. A simulated "client" then says something, and the user answers with
one of four therapist responses, A to D. Each answer brings the next client
line. Every line comes from small static tables: there is no language model and
no scoring.

The model has four modules:

- `Text` models the parts of Python's `str.strip()` and `str.lower()` that
  answer normalisation uses. `Strip` is proved to trim exactly the whitespace
  runs at both ends (`StripUnique`, `StripSplit`). Lowering commutes with
  stripping (`LowerStrip`).
- `Choice` models `normalize_choice`. The answer is `k` exactly when the input is
  one character from `Variants(k)` with only whitespace around it. `Variants(k)`
  holds the Latin letter and its Cyrillic look-alike, each in both cases. Every
  other input gives `""`. Normalising is idempotent, and lowering the input first
  changes nothing.
- `Turns` models `demo_generate_turn`. The first turn's line depends on the topic
  alone. A later line depends on the previous answer alone, and each answer has
  its own line. An unrecognised answer is taken as B, and the four options never
  change.
- `Sessions` models `USER_STATE` and `SLEEP_USERS` as the fields of a
  `SessionStore` class, with one method per handler: `/start`, `/end`, the topic
  button and the answer button. The object invariant `Valid` says three things:
  every stored session has `step == |history|`, a non-empty history and the
  fixed options; its topic comes from the menu; and no sleeping user holds a
  session. Each method keeps `Valid`. Each states the complete new map and set,
  so other users' state is unchanged.

Where the documented design of the bot and its code disagree, the model follows the code:

- A sleeping user who presses a topic button gets the "press /start" notice
  (bot.py:137-139), not an "invalid topic" error.
- `/start` leaves the user with no session at all (bot.py:112-113). A session
  exists only once a topic is chosen, and it starts at step 1, not 0.
- A user who never sent `/start` and is not sleeping may choose a topic
  directly (bot.py:137-156).

## Model

| member | source | states |
|---|---|---|
| Text.TrimLeftShape | ai_cbt_trainer_v1.0/app/bot.py:63 | left trimming removes the longest all-whitespace prefix and keeps the rest unchanged |
| Text.TrimRightShape | ai_cbt_trainer_v1.0/app/bot.py:63 | right trimming removes the longest all-whitespace suffix and keeps the rest unchanged |
| Text.TrimLeftSkipsSpace | ai_cbt_trainer_v1.0/app/bot.py:63 | any amount of added leading whitespace leaves the left-trimmed result unchanged |
| Text.TrimRightSkipsSpace | ai_cbt_trainer_v1.0/app/bot.py:63 | any amount of added trailing whitespace leaves the right-trimmed result unchanged |
| Text.StripUnique | ai_cbt_trainer_v1.0/app/bot.py:63 | a string between two whitespace runs that neither begins nor ends with whitespace is exactly what `strip()` returns |
| Text.StripSplit | ai_cbt_trainer_v1.0/app/bot.py:63 | the stripped string is a slice of the input with only whitespace on either side, and it has no whitespace at its ends |
| Text.LowerChar | ai_cbt_trainer_v1.0/app/bot.py:63 | lowering keeps whitespace as whitespace, leaves no capital letter, and changes nothing but capitals |
| Text.LowerStrip | ai_cbt_trainer_v1.0/app/bot.py:182-183 | `strip(lower(s)) == lower(strip(s))` for every input |
| Text.LowerIdempotent | ai_cbt_trainer_v1.0/app/bot.py:182-183 | lowering twice is lowering once |
| Choice.NormalizeChoice | ai_cbt_trainer_v1.0/app/bot.py:62-65 | the result is one of `a`, `b`, `c`, `d` or `""` |
| Choice.MappingKey | ai_cbt_trainer_v1.0/app/bot.py:64 | the one-character keys that map to answer `k` are exactly the Latin letter `k` and its Cyrillic look-alike |
| Choice.LowerCharKey | ai_cbt_trainer_v1.0/app/bot.py:63-64 | a character lowers to a table key for `k` exactly when it is in `Variants(k)` |
| Choice.NormalizeChoiceStripped | ai_cbt_trainer_v1.0/app/bot.py:62-65 | the answer is `k` exactly when the stripped input is one character of `Variants(k)` |
| Choice.PaddedVariant | ai_cbt_trainer_v1.0/app/bot.py:62-65 | one character of `Variants(k)` with only whitespace around it normalises to `k` |
| Choice.VariantOfAnswer | ai_cbt_trainer_v1.0/app/bot.py:62-65 | an input that normalises to `k` is one character of `Variants(k)` with only whitespace around it |
| Choice.NormalizeChoiceExactly | ai_cbt_trainer_v1.0/app/bot.py:62-65 | both directions: the answer is `k` if and only if the input is one `Variants(k)` character padded by whitespace |
| Choice.CanonicalFixed | ai_cbt_trainer_v1.0/app/bot.py:64-65 | `a`, `b`, `c`, `d` and `""` each normalise to themselves |
| Choice.NormalizeChoiceIdempotent | ai_cbt_trainer_v1.0/app/bot.py:64-65 | normalising a normalised answer changes nothing |
| Choice.NormalizeChoiceLowered | ai_cbt_trainer_v1.0/app/bot.py:182-183 | lowering the input before normalising, as the answer handler does, changes nothing |
| Turns.OpeningLine | ai_cbt_trainer_v1.0/app/bot.py:73-81 | the first client line is never empty |
| Turns.TailLine | ai_cbt_trainer_v1.0/app/bot.py:84-91 | the continuation line is never empty, whatever the key |
| Turns.TailLineKeys | ai_cbt_trainer_v1.0/app/bot.py:84-91 | the four continuation lines are distinct, one for each answer letter |
| Turns.ContinuationLine | ai_cbt_trainer_v1.0/app/bot.py:90-91 | a later client line is never empty |
| Turns.GenerateTurn | ai_cbt_trainer_v1.0/app/bot.py:69-100 | every turn has exactly the same four options, whatever the topic, history and reply, and a non-empty client line |
| Turns.FirstTurn | ai_cbt_trainer_v1.0/app/bot.py:73-81 | with an empty history the line is the topic's own opening for the two keyed topics and the generic opening otherwise, whatever the reply |
| Turns.LaterTurn | ai_cbt_trainer_v1.0/app/bot.py:82-91 | with a non-empty history the line is the A, C or D line exactly when the reply normalises to that letter, and the B line exactly when it normalises to `b` or to `""` |
| Turns.UnrecognisedIsB | ai_cbt_trainer_v1.0/app/bot.py:90 | a reply that normalises to `""` gives the same turn as reply `b` |
| Turns.GenerateTurnNormalized | ai_cbt_trainer_v1.0/app/bot.py:183-190 | generating from an already normalised reply gives the same turn as from the raw reply |
| Sessions.TopicFor | ai_cbt_trainer_v1.0/app/bot.py:144-154 | menu number `n` below the last selects `TOPICS[n-1]`; the last selects "Своя тема (демо)", which is not a menu entry |
| Sessions.OpeningForTopic | ai_cbt_trainer_v1.0/app/bot.py:147-160 | topic 1 opens with the procrastination line and topic 3 with the fear-of-failure line; every other menu topic, the custom one included, opens with the generic line |
| Sessions.ChoiceArgument | ai_cbt_trainer_v1.0/app/bot.py:182 | the answer argument is what follows `choice_` in the callback data |
| Sessions.SessionStore.constructor | ai_cbt_trainer_v1.0/app/bot.py:41-42 | the store starts with no sessions and no sleeping users |
| Sessions.SessionStore.Start | ai_cbt_trainer_v1.0/app/bot.py:110-118 | the user is neither sleeping nor holding a session; nothing else changes; the topic menu is shown |
| Sessions.SessionStore.End | ai_cbt_trainer_v1.0/app/bot.py:121-132 | the user's session is gone and the user is sleeping; nothing else changes |
| Sessions.SessionStore.SelectTopic | ai_cbt_trainer_v1.0/app/bot.py:136-170 | a sleeping user gets the /start notice; a missing or out-of-range number gets the invalid-topic notice; in both cases nothing changes. Otherwise the user's session becomes the chosen topic with one history entry (the opening line), step 1 and the fixed options, whether or not /start came first. No other user changes |
| Sessions.SessionStore.SubmitChoice | ai_cbt_trainer_v1.0/app/bot.py:175-201 | with no session, or while sleeping, the user gets the /start notice and nothing changes. Otherwise one entry, the line generated for the raw answer, is appended to the history, with earlier entries kept. The step grows by one and the options are replaced by the fixed four. No other user changes, so `step == |history|` is kept |

## Left out

- Telegram transport is not modelled: `message.answer`, `callback.answer`, the
  keyboards built by `topics_kb` and `choice_kb`, the `Bot`/`Dispatcher` setup,
  polling in `main`, and `.env` loading are all left out. Each handler instead
  returns one `Reply` value. The topic handler sends three messages (the chosen
  topic, the client line, the options), and `TopicOpened` carries their
  contents together. The answer handler's three messages likewise become
  `TurnAdvanced`.
- `RUNNING_TASKS` cancellation in `/end` is left out. It is asyncio task
  handling, and nothing in the program ever adds a task.
- The handlers are modelled as atomic steps. In the source the topic handler
  awaits a send between creating the session (bot.py:156) and filling in its
  first turn (bot.py:160-163). An `/end` handled during that await would make
  bot.py:160 fail; the interleavings of the asyncio event loop are not
  modelled.
- `dialog_flow` is left out: it only replies with help text and touches no
  state.
- Python's `int()` parsing of the `topic_` suffix is left out: the topic handler
  takes the parsed number as `Option<int>`, with `None` standing for a parse
  failure.
- Python's `split("_", 1)` on the answer callback data is modelled only for
  data beginning with `choice_`, the only data the dispatcher routes to that
  handler. That is the precondition of `SubmitChoice`.
- For a session, the mutable dictionary stored in `USER_STATE` is modelled as a
  value that is replaced in the map. No other reference to the dictionary
  exists, so changing it in place and replacing it cannot be told apart.
- `log_event` in `app/utils.py` is left out. It appends to a file with a
  wall-clock timestamp, and nothing in the bot calls it.
- Text.LowerChar: lowers only the Latin and Russian alphabets; other scripts
  are left as they are. No character outside these two alphabets lowers to an
  answer letter or its look-alike, so `NormalizeChoice` is unaffected.
- The message texts are named string constants, copied from the source.
