# Kaboom turn engine, in Dafny

A model of the core of `kaboom`, a terminal word game: the player is shown a
two- or three-letter fragment (the prompt) and must type a dictionary word
that contains it before a countdown of ticks runs out. The model covers:

- **Words** (`words.dfy`): substring search as `str::contains` scans, ASCII
  upper-casing, counting the dictionary words that contain a fragment, and
  `check_word` (upper-cased input contains the prompt and is in the
  dictionary set).
- **Dictionary** (`dictionary.dfy`): the parse of `init_app` — split the word
  list on `'\n'`, strip at most one trailing `'\r'` per line — and the
  companion set.
- **Prompt** (`prompt.dfy`): `generate_prompt` as a method with its retry
  loop, the letter loop and the early-returning counting loop, proved equal
  to a specification function over injected random draws.
- **Cursor** (`cursor.dfy`): `StatefulList`, a class whose `up`/`down`/
  `select`/`unselect` overwrite the selected index in place.
- **Engine** (`engine.dfy`): the `App` record as a class; `init_app`, the
  start of `run_app`, the key handlers of the title screen, the paused game
  and the running game, the countdown tick with its lives accounting,
  `start_game`, `next_turn`, and the main loop over an event stream.

Each handler states its whole new state through a snapshot of the mutable
fields (`Snap()`): a ghost predicate per handler (`TickEffect`,
`TitleKeyEffect`, `PauseKeyEffect`, `PlayingKeyEffect`) relates the
snapshot before to the snapshot after, and `Step` states the same effect
(`StepEffect`) for whichever handler the screen selects. `RunApp` returns
the trace of the states it passed through and the outcome of each event,
every consecutive pair related by `StepEffect`, and `LastLifeExpires`
states the state after each of its two ticks. Every method keeps the object invariant
`Valid()`:
both menus keep their items and in-bounds selections, the dictionary set
equals the dictionary, the countdown never exceeds a full turn, lives never
exceed `starting_lives + 1`, a game with limited lives on screen has at
least one life (so the expiry decrement never underflows), and while a game
is on screen its prompt is one the generator can return.

Randomness is injected: `Prompt.Rng` carries the coin of one
`generate_prompt` call as a real number and the successive letter draws as
natural numbers, each mapped to one of the 25 letters `'A'..'Y'` that
`gen_range(b'A'..b'Z')` yields. Because the stream of draws is finite, the
generator returns `None` when it runs out without accepting. A handler
requires draws on which the generator returns (`Halts`) only when the key
or tick it handles starts a turn ("Start", "Restart", a correct word, an
expired countdown): every other event works whatever the draws. With a
dictionary too sparse for any prompt to reach `min_wpp` words, the program
keeps drawing forever at the first turn; `RunApp` stops before such an
event and reports it as `hung`.

The model follows the code, including these behaviours:

- `up` stops at the first item instead of wrapping (`src/app.rs:84-88`);
  only `down` wraps (`Cursor.UpClampsAtFirst`, `Cursor.DownFullCircle`).
- A turn starts with a countdown of `time_per_turn * 64` ticks; the tick
  that finds it at 0 expires the turn, so a turn lasts
  `time_per_turn * 64 + 1` ticks (`Engine.CountdownRunsDown`,
  `Engine.LastLifeExpires`). A game starts with `starting_lives + 1` lives.
- `init_app` always uses `Config::default()` (`src/main.rs:214`), so the
  program only ever plays LimitedLives; the Practice and InfiniteLives
  branches of the tick are reachable only through the model's `Init`,
  which takes the configuration as a parameter.
- Letters are drawn from `'A'..'Y'`; `'Z'` is never drawn.
- Running out of lives returns to the title screen; `GameOver` is never
  entered.
- The generator's counting loop returns only after looking at a word, so
  with an empty dictionary it never accepts, even with a threshold of 0
  (`Prompt.EmptyDictionaryNeverAccepts`); the parsed dictionary is never
  empty (`Dictionary.Parse`).
- "Main Menu" in the pause menu changes the screen only: the `paused` flag
  stays set, so a game started afterwards from the title screen begins
  paused.

## Model

| member | source | states |
|---|---|---|
| `Words.Contains` | src/main.rs:268 | a string contains only fragments no longer than itself, always contains the empty fragment, and contains itself |
| `Words.ContainsIffOccurs` | src/main.rs:268 | the left-to-right scan finds a fragment exactly when it occurs at some position (both directions) |
| `Words.UpperChar` | src/main.rs:267 | lower-case ASCII letters become the matching capital, every other character is unchanged, no lower-case letter remains |
| `Words.Upper` | src/main.rs:267 | upper-casing keeps the length and maps every character by `UpperChar` |
| `Words.UpperIdempotent` | src/main.rs:267 | upper-casing an upper-cased word changes nothing |
| `Words.CountContaining` | src/main.rs:254-258 | the counter never exceeds the number of words scanned |
| `Words.CountIsMatchingSize` | src/main.rs:254-258 | the count equals the number of positions holding a word that contains the fragment |
| `Words.CountPrefixAtMost` | src/main.rs:255-261 | counting over a prefix of the dictionary never gives more than counting over all of it, so an early return is justified |
| `Words.CheckWord` | src/main.rs:266-269 | an accepted input, upper-cased, is in the dictionary set and is at least as long as the prompt; an input whose upper-cased form is not in the set is rejected |
| `Words.CheckWordMeaning` | src/main.rs:266-269 | `check_word` is true iff the upper-cased input is in the dictionary set and the prompt occurs in it |
| `Words.CheckWordIgnoresCase` | src/main.rs:266-269 | the check gives the same answer for the input and its upper-cased form |
| `Words.CheckWordExamples` | src/main.rs:266-269 | with {"CRANE","PLANE"} and prompt "AN": "plane" passes; "zzzz" and "ane" fail |
| `Dictionary.Split` | src/main.rs:207 | the split yields at least one segment and no segment contains a `'\n'` |
| `Dictionary.JoinSplit` | src/main.rs:207 | joining the segments with `'\n'` gives back the word list exactly |
| `Dictionary.SplitJoin` | src/main.rs:207 | any list of `'\n'`-free segments is what the split of its join returns, so the segments are unique |
| `Dictionary.StripCr` | src/main.rs:208 | the entry followed by one `'\r'` if the line ended with one is the line |
| `Dictionary.StripCrOnce` | src/main.rs:208 | a line ending in two carriage returns keeps one |
| `Dictionary.Parse` | src/main.rs:206-209 | one entry per segment, never empty, each the segment less at most one trailing `'\r'` and free of `'\n'` |
| `Dictionary.ToSet` | src/main.rs:212 | the set holds exactly the words of the dictionary and no more of them |
| `Prompt.PromptLength` | src/main.rs:247-248 | the length is 3 iff the coin exceeds 0.8, and 2 otherwise |
| `Prompt.Letter` | src/main.rs:252 | every drawn letter lies in `'A'..'Y'` |
| `Prompt.LetterOnto` | src/main.rs:252 | each of the 25 letters `'A'..'Y'` is the letter of some draw |
| `Prompt.Spell` | src/main.rs:250-253 | the candidate has one letter per draw, in draw order |
| `Prompt.FirstAccepted` | src/main.rs:249-263 | an accepted prompt has the chosen length, letters in `'A'..'Y'`, a non-empty dictionary and at least `wpp` words containing it |
| `Prompt.Generate` | src/main.rs:245-264 | a returned prompt has the length the coin chose and at least `wpp` words of the dictionary contain it; an empty dictionary yields no prompt |
| `Prompt.ScanDictionary` | src/main.rs:254-262 | the counting loop, returning as soon as the counter reaches `wpp`, accepts the candidate exactly when the dictionary is non-empty and at least `wpp` of its words contain it |
| `Prompt.EmptyDictionaryNeverAccepts` | src/main.rs:254-262 | with an empty dictionary no candidate is ever accepted |
| `Prompt.FirstCandidateWhenThresholdZero` | src/main.rs:254-262 | with a threshold of 0 and a non-empty dictionary the first candidate is returned |
| `Prompt.GeneratePrompt` | src/main.rs:245-264 | the retry loop returns the first accepted candidate of the draws, a valid prompt |
| `Cursor.UpIndex` | src/app.rs:82-91 | `up` selects the previous index, stays at 0 from 0, and selects 0 from no selection |
| `Cursor.DownIndex` | src/app.rs:96-105 | `down` selects the next index, wraps from the last to 0, selects 0 from no selection, and keeps an in-bounds selection in bounds |
| `Cursor.UpClampsAtFirst` | src/app.rs:81-93 | enough presses of `up` from index i reach index 0 and stay there: no wrap |
| `Cursor.DownAdvances` | src/app.rs:95-107 | below the last item each press of `down` moves one item further |
| `Cursor.DownFullCircle` | src/app.rs:95-107 | one press of `down` per item returns to the start, wrapping from last to first |
| `Cursor.StatefulList.WithItems` | src/app.rs:74-79 | a new list has exactly the given items and no selection |
| `Cursor.StatefulList.Up` | src/app.rs:81-93 | selects `UpIndex` of the old selection, keeps it in bounds, leaves the items alone |
| `Cursor.StatefulList.Down` | src/app.rs:95-107 | selects `DownIndex` of the old selection, keeps it in bounds, leaves the items alone |
| `Cursor.StatefulList.Select` | src/app.rs:109-111 | the selection becomes the given index |
| `Cursor.StatefulList.Unselect` | src/app.rs:113-115 | the selection becomes empty |
| `Engine.TurnTicks` | src/main.rs:242 | a full countdown is a whole number of seconds of 64 ticks, exactly `time_per_turn` of them |
| `Engine.DefaultConfig` | src/app.rs:41-51 | the default is LimitedLives with `min_wpp` 500, a countdown of 320 ticks, and 3 lives at the start of a game, equal to `max_lives` |
| `Engine.Backspaced` | src/main.rs:167-169 | backspace removes the last character, and an empty input stays empty |
| `Engine.App.Init` | src/main.rs:203-231 | title screen, not paused, empty prompt and input, a full countdown, `starting_lives + 1` lives, the parsed dictionary and its set, both menus unselected |
| `Engine.App.Launch` | src/main.rs:65-66 | both menus select their first item; nothing else changes |
| `Engine.App.NextTurn` | src/main.rs:239-243 | the prompt is the generator's result, the input is empty, the countdown is full; no other field changes |
| `Engine.App.StartGame` | src/main.rs:233-237 | lives become `starting_lives + 1`, then a new turn; no other field changes |
| `Engine.App.Tick` | src/main.rs:178-196 | while counting: one tick off, or at 0 one life off in LimitedLives (title screen at 0 lives) and a new turn; paused, Practice or off the game screen: no change; draws that halt are needed only when the turn expires |
| `Engine.App.HandleTitleKey` | src/main.rs:76-109 | `q` or "Quit" quits; up/down move the menu; "Start" enters the game and starts it; "Settings" opens settings; no selection or other keys: no change; draws that halt are needed only to start a game |
| `Engine.App.ConfirmTitleItem` | src/main.rs:89-104 | with the selected item: "Quit" quits, "Start" enters the game and starts it, "Settings" opens settings; nothing selected: no change |
| `Engine.App.ConfirmPauseItem` | src/main.rs:130-151 | with the selected item: "Quit" quits, "Resume" unpauses, "Main Menu" changes only the screen, "Restart" starts a new game and unpauses; nothing selected: no change |
| `Engine.App.HandlePausedKey` | src/main.rs:118-154 | Esc, `q` or "Resume" unpause; "Restart" starts a new game unpaused; "Main Menu" changes only the screen; "Quit" quits; up/down move the menu; other keys: no change |
| `Engine.App.HandlePlayingKey` | src/main.rs:155-175 | a character is appended, backspace pops, Esc pauses, Enter on a correct word starts a new turn and a wrong word changes nothing |
| `Engine.App.Step` | src/main.rs:75-199 | the event has the whole effect (`StepEffect`) of the handler that the screen and pause flag select: a key on the title screen, on the paused game or on the running game has that handler's effect, a tick never quits and has the tick's effect, settings and game-over screens ignore every event; a selected menu item stays selected |
| `Engine.App.QuitsExactly` | src/main.rs:79-133 | a handled event quits iff it is `q` on the title screen or a confirm key on "Quit" in the title or pause menu, and quitting leaves the state unchanged |
| `Engine.App.HandleEvents` | src/main.rs:68-200 | the recorded states run from the state at the start to the final state, and each handled event takes one recorded state to the next with the recorded outcome by `StepEffect`; only the last handled event can quit, and a quitting event is a key press; the loop stops early only on a quit or before an event that would start a turn with draws that never give a prompt; otherwise every event is handled; the invariant holds throughout |
| `Engine.App.RunApp` | src/main.rs:60-201 | both menus select their first item, then the events are handled as `HandleEvents` states, from that state on |
| `Engine.CountdownRunsDown` | src/main.rs:178-183 | while the countdown runs, as many ticks as it has left bring it to 0 and change nothing else, lives included |
| `Engine.LastLifeExpires` | src/main.rs:178-194 | on the last life the tick at 0 loses it, returns to the title screen and starts a fresh turn with a generated prompt; a further tick changes nothing |
| `Engine.PauseFreezesCountdown` | src/main.rs:170-181 | pausing, any number of ticks, and resuming leave countdown, lives, prompt and input unchanged, whatever the draws |

## Left out

- Rendering (`src/ui.rs`): the widget layout, the progress bar's floating-point arithmetic, the hearts and the title text.
- Terminal setup and teardown and the error printing in `main` (`src/main.rs:32-58`).
- Wall-clock timing (`Instant`, `Duration`, `event::poll`, `event::read`): replaced by an event stream of key presses and tick expiries; a key and the tick check of one loop pass are two events in the model.
- Reading the word list from a file: the parse takes the file's text; a read failure aborts the program before the loop and is not modelled.
- The random number generator and its `f64` coin: the coin is a real number and each letter draw a natural number taken modulo 25, both supplied by the caller.
- Prompt.GeneratePrompt: returns `None` when the supplied draws run out, where the program would keep drawing; the handlers only call it with draws on which it accepts.
- Engine.App.HandleEvents: where the program hangs inside `generate_prompt` after an event has already changed the screen or lives, the model (and so `RunApp`) stops before that event (`hung`) rather than modelling the partial update.
- Unicode upper-casing: only the ASCII letters `'a'..'z'` are mapped.
- `Input.messages` and `Config.list_hightlight_symbol` are carried as data only (the symbol) or not at all (the messages); neither affects the core.
- The Settings and GameOver screens have no handlers in the program (`src/main.rs:72`, `src/main.rs:198`): once on Settings the program loops without reading another event, so it can neither leave that screen nor quit. The model treats every event there as a no-op, which leaves the state as the program does but does not capture that no further input is read. GameOver is never entered.
- Machine-width integers: counts, ticks and lives are unbounded naturals; `time_per_turn * 64` overflow is not modelled.
- Cursor.StatefulList.Down: requires a non-empty list when a selection exists, since `items.len() - 1` would underflow there; both menus of the game are non-empty.
