/**
 * The turn engine: the `App` record of the game, built by `init_app`, and the
 * transitions of `run_app` — the key handlers of the title screen and of the
 * game screen (playing and paused), the countdown tick with its lives
 * accounting, and the helpers `start_game` and `next_turn`. Wall-clock
 * timing and terminal input are abstracted into a stream of events: a key
 * press, or the elapse of one tick.
 */
module Engine {
  import opened Wrappers
  import opened Words
  import Dictionary
  import opened Prompt
  import opened Cursor

  datatype Screen = Title | Settings | Game | GameOver

  datatype Gamemode = Practice | InfiniteLives | LimitedLives

  datatype Config = Config(
    gamemode: Gamemode,
    minWpp: nat,
    timePerTurn: nat,
    startingLives: nat,
    maxLives: nat,
    highlightSymbol: string)

  /** The countdown runs at 64 ticks per second of `time_per_turn`. */
  const TicksPerSecond: nat := 64

  /** The value the countdown is set to at the start of a turn. */
  function TurnTicks(config: Config): (ticks: nat)
    ensures ticks % TicksPerSecond == 0 && ticks / TicksPerSecond == config.timePerTurn
  {
    config.timePerTurn * TicksPerSecond
  }

  /**
   * `Config::default`: limited lives, at least 500 words per prompt, a
   * countdown of 320 ticks, and 3 lives at the start of a game, the maximum.
   */
  function DefaultConfig(): (config: Config)
    ensures config.gamemode == LimitedLives && config.minWpp == 500
    ensures TurnTicks(config) == 320
    ensures config.startingLives + 1 == 3 == config.maxLives
  {
    Config(LimitedLives, 500, 5, 2, 3, " ")
  }

  /** The key codes the game reacts to; every other key is `OtherKey`. */
  datatype Key = Char(c: char) | Up | Down | Left | Right | Enter | Esc | Backspace | OtherKey

  /** One iteration of the main loop sees a key press or the end of a tick interval. */
  datatype Event = Press(key: Key) | TickElapsed

  datatype Outcome = Continue | Quit

  predicate IsUpKey(key: Key) { key == Up || key == Char('k') }
  predicate IsDownKey(key: Key) { key == Down || key == Char('j') }
  predicate IsConfirmKey(key: Key) { key == Enter || key == Right || key == Char('l') }
  predicate IsResumeKey(key: Key) { key == Esc || key == Char('q') }

  const TitleItems: seq<string> := ["Start", "Settings", "Quit"]
  const PauseItems: seq<string> := ["Resume", "Main Menu", "Restart", "Quit"]

  /** `String::pop`: the last character goes, an empty input stays empty. */
  function Backspaced(input: string): (r: string)
    ensures input == [] ==> r == []
    ensures input != [] ==> r + [input[|input| - 1]] == input
  {
    if input == [] then [] else input[..|input| - 1]
  }

  /** The item a menu's selection points at, if any. */
  function MenuChoice(items: seq<string>, selected: Option<nat>): Option<string> {
    if selected.Some? && selected.value < |items| then Some(items[selected.value]) else None
  }

  /** The fields of `App` that the transitions change. */
  datatype Snapshot = Snapshot(
    screen: Screen,
    paused: bool,
    timeLeft: nat,
    lives: nat,
    prompt: string,
    input: string,
    titleSelected: Option<nat>,
    pauseSelected: Option<nat>)

  class App {
    var screen: Screen
    const titleList: StatefulList<string>
    var input: string
    var prompt: string
    var timeLeft: nat
    var lives: nat
    var paused: bool
    const pauseList: StatefulList<string>
    const dictionary: seq<string>
    const dictionarySet: set<string>
    const config: Config

    ghost function Snap(): Snapshot
      reads this, titleList, pauseList
    {
      Snapshot(screen, paused, timeLeft, lives, prompt, input, titleList.selected, pauseList.selected)
    }

    /** The two menus keep their items, and their selections stay in bounds. */
    ghost predicate MenusOk()
      reads titleList, pauseList
    {
      titleList != pauseList
      && titleList.items == TitleItems && pauseList.items == PauseItems
      && InBounds(titleList.selected, |TitleItems|) && InBounds(pauseList.selected, |PauseItems|)
    }

    /** The dictionary set matches the dictionary; the countdown and lives stay within a fresh turn's and a fresh game's. */
    ghost predicate CountersOk()
      reads this
    {
      dictionarySet == Dictionary.ToSet(dictionary)
      && timeLeft <= TurnTicks(config)
      && lives <= config.startingLives + 1
    }

    ghost predicate Frame()
      reads this, titleList, pauseList
    {
      MenusOk() && CountersOk()
    }

    /** In a game with limited lives at least one life is left, so the expiry decrement cannot underflow. */
    ghost predicate Wellformed()
      reads this, titleList, pauseList
    {
      Frame() && (screen == Game && config.gamemode == LimitedLives ==> lives >= 1)
    }

    /** While a game is on screen its prompt is one the generator can return. */
    ghost predicate Valid()
      reads this, titleList, pauseList
    {
      Wellformed() && (screen == Game ==> IsPrompt(dictionary, config.minWpp, prompt))
    }

    /** The injected draws make `generate_prompt` return (the program would loop forever otherwise). */
    predicate Halts(rng: Rng) {
      Generate(dictionary, config.minWpp, rng).Some?
    }

    /** The countdown runs on `screen`: the game is on screen, not paused, and not in Practice mode. */
    predicate CountdownRuns(screen: Screen, paused: bool) {
      screen == Game && !paused && config.gamemode != Practice
    }

    /** The countdown runs now. */
    ghost predicate Counting()
      reads this
    {
      CountdownRuns(screen, paused)
    }

    function TitleChoice(): Option<string>
      reads titleList
    {
      MenuChoice(TitleItems, titleList.selected)
    }

    function PauseChoice(): Option<string>
      reads pauseList
    {
      MenuChoice(PauseItems, pauseList.selected)
    }

    /** `init_app`, given the word list's text and the configuration. */
    constructor Init(wordList: string, config: Config)
      ensures Valid() && fresh(titleList) && fresh(pauseList)
      ensures dictionary == Dictionary.Parse(wordList) && this.config == config
      ensures Snap() == Snapshot(Title, false, TurnTicks(config), config.startingLives + 1, "", "", None, None)
    {
      var words := Dictionary.Parse(wordList);
      dictionary := words;
      dictionarySet := Dictionary.ToSet(words);
      this.config := config;
      titleList := new StatefulList<string>.WithItems(TitleItems);
      pauseList := new StatefulList<string>.WithItems(PauseItems);
      screen := Title;
      input := "";
      prompt := "";
      timeLeft := TurnTicks(config);
      lives := config.startingLives + 1;
      paused := false;
    }

    /** The start of `run_app`: both menus select their first item. */
    method Launch()
      requires Valid()
      modifies titleList`selected, pauseList`selected
      ensures Valid()
      ensures Snap() == old(Snap()).(titleSelected := Some(0), pauseSelected := Some(0))
    {
      titleList.Select(0);
      pauseList.Select(0);
    }

    /** `next_turn`: a new prompt, an empty input and a full countdown; nothing else changes. */
    method NextTurn(rng: Rng)
      requires Wellformed() && Halts(rng)
      modifies this`prompt, this`input, this`timeLeft
      ensures Valid()
      ensures Some(prompt) == Generate(dictionary, config.minWpp, rng)
      ensures Snap() == old(Snap()).(prompt := prompt, input := "", timeLeft := TurnTicks(config))
    {
      var generated := GeneratePrompt(dictionary, config.minWpp, rng);
      prompt := generated.value;
      input := "";
      timeLeft := TurnTicks(config);
    }

    /** `start_game`: lives back to `starting_lives + 1`, then `next_turn`. */
    method StartGame(rng: Rng)
      requires Frame() && Halts(rng)
      modifies this`lives, this`prompt, this`input, this`timeLeft
      ensures Valid()
      ensures Some(prompt) == Generate(dictionary, config.minWpp, rng)
      ensures Snap() == old(Snap()).(lives := config.startingLives + 1, prompt := prompt, input := "", timeLeft := TurnTicks(config))
    {
      lives := config.startingLives + 1;
      NextTurn(rng);
    }

    /**
     * What one tick does to the state `before`: while the countdown runs it
     * loses one tick; at 0 the turn expires, costing a life with limited
     * lives (the last one sends the player to the title screen), and a new
     * turn starts with a generated prompt, an empty input and a full
     * countdown. Otherwise nothing changes.
     */
    ghost predicate TickEffect(before: Snapshot, after: Snapshot, rng: Rng) {
      if !CountdownRuns(before.screen, before.paused) then after == before
      else if before.timeLeft >= 1 then after == before.(timeLeft := before.timeLeft - 1)
      else
        Some(after.prompt) == Generate(dictionary, config.minWpp, rng)
        && (config.gamemode == LimitedLives ==> before.lives >= 1)
        && after == before.(
             screen := if config.gamemode == LimitedLives && before.lives == 1 then Title else Game,
             lives := if config.gamemode == LimitedLives then before.lives - 1 else before.lives,
             prompt := after.prompt,
             input := "",
             timeLeft := TurnTicks(config))
    }

    /**
     * One tick of the countdown. While it runs, a tick takes one off the
     * countdown; at 0 the turn expires: with limited lives one life goes (the
     * last one sends the player to the title screen) and a new turn starts.
     * Paused, in Practice mode or off the game screen, nothing changes.
     */
    method Tick(rng: Rng)
      requires Valid()
      requires Counting() && timeLeft == 0 ==> Halts(rng)
      modifies this`screen, this`lives, this`prompt, this`input, this`timeLeft
      ensures Valid()
      ensures TickEffect(old(Snap()), Snap(), rng)
    {
      if CountdownRuns(screen, paused) {
        if timeLeft >= 1 {
          timeLeft := timeLeft - 1;
        } else {
          if config.gamemode == LimitedLives {
            lives := lives - 1;
            if lives == 0 {
              screen := Title;
            }
          }
          NextTurn(rng);
        }
      }
    }

    /**
     * What choosing `choice` in the title menu does to the state `before`:
     * "Quit" quits, "Settings" opens the settings screen, "Start" enters the
     * game and starts it; no selection, or any other item, changes nothing.
     */
    ghost predicate TitleItemEffect(choice: Option<string>, before: Snapshot, after: Snapshot, outcome: Outcome, rng: Rng) {
      (choice == None ==> outcome == Continue && after == before)
      && (choice == Some("Quit") ==> outcome == Quit && after == before)
      && (choice == Some("Settings") ==> outcome == Continue && after == before.(screen := Settings))
      && (choice == Some("Start") ==>
            outcome == Continue
            && Some(after.prompt) == Generate(dictionary, config.minWpp, rng)
            && after == before.(screen := Game, lives := config.startingLives + 1, prompt := after.prompt,
                                input := "", timeLeft := TurnTicks(config)))
    }

    /**
     * What choosing `choice` in the pause menu does to the state `before`:
     * "Quit" quits, "Resume" unpauses, "Main Menu" changes the screen only,
     * "Restart" starts a new game and unpauses; no selection changes nothing.
     */
    ghost predicate PauseItemEffect(choice: Option<string>, before: Snapshot, after: Snapshot, outcome: Outcome, rng: Rng) {
      (choice == None ==> outcome == Continue && after == before)
      && (choice == Some("Quit") ==> outcome == Quit && after == before)
      && (choice == Some("Resume") ==> outcome == Continue && after == before.(paused := false))
      && (choice == Some("Main Menu") ==> outcome == Continue && after == before.(screen := Title))
      && (choice == Some("Restart") ==>
            outcome == Continue
            && Some(after.prompt) == Generate(dictionary, config.minWpp, rng)
            && after == before.(paused := false, lives := config.startingLives + 1, prompt := after.prompt,
                                input := "", timeLeft := TurnTicks(config)))
    }

    /**
     * What a key does on the title screen: a confirm key (Enter, Right, 'l')
     * acts on the selected item, 'q' quits, Up/'k' and Down/'j' move the
     * selection, any other key changes nothing.
     */
    ghost predicate TitleKeyEffect(key: Key, choice: Option<string>, before: Snapshot, after: Snapshot, outcome: Outcome, rng: Rng) {
      if IsConfirmKey(key) then TitleItemEffect(choice, before, after, outcome, rng)
      else if key == Char('q') then outcome == Quit && after == before
      else if IsUpKey(key) then
        outcome == Continue && after == before.(titleSelected := Some(UpIndex(before.titleSelected)))
      else if IsDownKey(key) then
        outcome == Continue && after == before.(titleSelected := Some(DownIndex(before.titleSelected, |TitleItems|)))
      else outcome == Continue && after == before
    }

    /**
     * What a key does on the paused game screen: a confirm key acts on the
     * selected item, Esc/'q' resumes, Up/'k' and Down/'j' move the
     * selection, any other key changes nothing.
     */
    ghost predicate PauseKeyEffect(key: Key, choice: Option<string>, before: Snapshot, after: Snapshot, outcome: Outcome, rng: Rng) {
      if IsConfirmKey(key) then PauseItemEffect(choice, before, after, outcome, rng)
      else if IsResumeKey(key) then outcome == Continue && after == before.(paused := false)
      else if IsUpKey(key) then
        outcome == Continue && after == before.(pauseSelected := Some(UpIndex(before.pauseSelected)))
      else if IsDownKey(key) then
        outcome == Continue && after == before.(pauseSelected := Some(DownIndex(before.pauseSelected, |PauseItems|)))
      else outcome == Continue && after == before
    }

    /** A key on the title screen: move in the menu, or act on the selected item. */
    method HandleTitleKey(key: Key, rng: Rng) returns (outcome: Outcome)
      requires Valid() && screen == Title
      requires IsConfirmKey(key) && TitleChoice() == Some("Start") ==> Halts(rng)
      modifies this`screen, this`lives, this`prompt, this`input, this`timeLeft, titleList`selected
      ensures Valid()
      ensures TitleKeyEffect(key, old(TitleChoice()), old(Snap()), Snap(), outcome, rng)
    {
      outcome := Continue;
      if IsConfirmKey(key) {
        outcome := ConfirmTitleItem(rng);
      } else if key == Char('q') {
        outcome := Quit;
      } else if IsUpKey(key) {
        titleList.Up();
      } else if IsDownKey(key) {
        titleList.Down();
      }
    }

    /** Enter on the title menu: the selected item takes effect. */
    method ConfirmTitleItem(rng: Rng) returns (outcome: Outcome)
      requires Valid() && screen == Title
      requires TitleChoice() == Some("Start") ==> Halts(rng)
      modifies this`screen, this`lives, this`prompt, this`input, this`timeLeft
      ensures Valid()
      ensures TitleItemEffect(old(TitleChoice()), old(Snap()), Snap(), outcome, rng)
    {
      outcome := Continue;
      match titleList.selected
      case Some(i) =>
        if titleList.items[i] == "Quit" {
          return Quit;
        }
        if titleList.items[i] == "Start" {
          screen := Game;
          StartGame(rng);
        } else if titleList.items[i] == "Settings" {
          screen := Settings;
        }
      case None =>
    }

    /** A key on the paused game screen: the pause menu. */
    method HandlePausedKey(key: Key, rng: Rng) returns (outcome: Outcome)
      requires Valid() && screen == Game && paused
      requires IsConfirmKey(key) && PauseChoice() == Some("Restart") ==> Halts(rng)
      modifies this`screen, this`lives, this`prompt, this`input, this`timeLeft, this`paused, pauseList`selected
      ensures Valid()
      ensures PauseKeyEffect(key, old(PauseChoice()), old(Snap()), Snap(), outcome, rng)
    {
      outcome := Continue;
      if IsConfirmKey(key) {
        outcome := ConfirmPauseItem(rng);
      } else if IsResumeKey(key) {
        paused := false;
      } else if IsUpKey(key) {
        pauseList.Up();
      } else if IsDownKey(key) {
        pauseList.Down();
      }
    }

    /** Enter on the pause menu: the selected item takes effect. */
    method ConfirmPauseItem(rng: Rng) returns (outcome: Outcome)
      requires Valid() && screen == Game && paused
      requires PauseChoice() == Some("Restart") ==> Halts(rng)
      modifies this`screen, this`lives, this`prompt, this`input, this`timeLeft, this`paused
      ensures Valid()
      ensures PauseItemEffect(old(PauseChoice()), old(Snap()), Snap(), outcome, rng)
    {
      outcome := Continue;
      match pauseList.selected
      case Some(i) =>
        if pauseList.items[i] == "Quit" {
          return Quit;
        }
        if pauseList.items[i] == "Resume" {
          paused := false;
        } else if pauseList.items[i] == "Main Menu" {
          screen := Title;
        } else if pauseList.items[i] == "Restart" {
          StartGame(rng);
          paused := false;
        }
      case None =>
    }

    /**
     * What a key does while playing: Enter submits the input, and a
     * correct word starts a new turn while a wrong one changes nothing; a
     * character is appended to the input, Backspace drops its last
     * character, Esc pauses, any other key changes nothing.
     */
    ghost predicate PlayingKeyEffect(key: Key, before: Snapshot, after: Snapshot, rng: Rng) {
      if key == Enter then
        if CheckWord(before.input, before.prompt, dictionarySet) then
          Some(after.prompt) == Generate(dictionary, config.minWpp, rng)
          && after == before.(prompt := after.prompt, input := "", timeLeft := TurnTicks(config))
        else after == before
      else if key.Char? then after == before.(input := before.input + [key.c])
      else if key == Backspace then after == before.(input := Backspaced(before.input))
      else if key == Esc then after == before.(paused := true)
      else after == before
    }

    /** A key while playing: edit the input line, submit it, or pause. */
    method HandlePlayingKey(key: Key, rng: Rng)
      requires Valid() && screen == Game && !paused
      requires key == Enter && CheckWord(input, prompt, dictionarySet) ==> Halts(rng)
      modifies this`prompt, this`input, this`timeLeft, this`paused
      ensures Valid()
      ensures PlayingKeyEffect(key, old(Snap()), Snap(), rng)
    {
      match key
      case Enter =>
        if CheckWord(input, prompt, dictionarySet) {
          NextTurn(rng);
          input := "";
        }
      case Char(c) =>
        input := input + [c];
      case Backspace =>
        input := Backspaced(input);
      case Esc =>
        paused := true;
      case _ =>
    }

    /**
     * Handling `event` in the current state calls `next_turn`: "Start" on the
     * title menu, "Restart" on the pause menu, a correct word, or a tick that
     * finds the countdown at 0 while it runs.
     */
    predicate StartsTurn(event: Event)
      reads this, titleList, pauseList
    {
      match event
      case TickElapsed =>
        CountdownRuns(screen, paused) && timeLeft == 0
      case Press(key) =>
        match screen
        case Title => IsConfirmKey(key) && TitleChoice() == Some("Start")
        case Game =>
          if paused then IsConfirmKey(key) && PauseChoice() == Some("Restart")
          else
            key == Enter && CheckWord(input, prompt, dictionarySet)
        case _ => false
    }

    /**
     * What handling `event` does to the state `before`, as one pass of the
     * main loop dispatches it: a key goes to the title menu, the pause menu
     * or the running game according to the screen and the pause flag; a tick
     * goes to the countdown; on the other screens nothing changes.
     */
    ghost predicate StepEffect(event: Event, before: Snapshot, after: Snapshot, outcome: Outcome, rng: Rng) {
      match event
      case TickElapsed => outcome == Continue && TickEffect(before, after, rng)
      case Press(key) =>
        if before.screen == Title then
          TitleKeyEffect(key, MenuChoice(TitleItems, before.titleSelected), before, after, outcome, rng)
        else if before.screen == Game && before.paused then
          PauseKeyEffect(key, MenuChoice(PauseItems, before.pauseSelected), before, after, outcome, rng)
        else if before.screen == Game then
          outcome == Continue && PlayingKeyEffect(key, before, after, rng)
        else outcome == Continue && after == before
    }

    /**
     * An event quits exactly in the three places `run_app` returns: `q` on
     * the title screen, "Quit" confirmed in the title menu, and "Quit"
     * confirmed in the pause menu; quitting changes nothing.
     */
    lemma QuitsExactly(event: Event, before: Snapshot, after: Snapshot, outcome: Outcome, rng: Rng)
      requires StepEffect(event, before, after, outcome, rng)
      ensures outcome == Quit <==>
        event.Press? &&
        ((before.screen == Title &&
          (event.key == Char('q') || (IsConfirmKey(event.key) && MenuChoice(TitleItems, before.titleSelected) == Some("Quit"))))
         || (before.screen == Game && before.paused &&
             IsConfirmKey(event.key) && MenuChoice(PauseItems, before.pauseSelected) == Some("Quit")))
      ensures outcome == Quit ==> after == before
    {
    }

    /**
     * One pass of the main loop of `run_app`: the title screen reads keys, the
     * game screen reads keys and counts ticks, the other screens do nothing.
     */
    method Step(event: Event, rng: Rng) returns (outcome: Outcome)
      requires Valid()
      requires StartsTurn(event) ==> Halts(rng)
      modifies this`screen, this`lives, this`prompt, this`input, this`timeLeft, this`paused
      modifies titleList`selected, pauseList`selected
      ensures Valid()
      ensures StepEffect(event, old(Snap()), Snap(), outcome, rng)
      ensures outcome == Quit ==> event.Press?
      ensures old(titleList.selected).Some? ==> titleList.selected.Some?
      ensures old(pauseList.selected).Some? ==> pauseList.selected.Some?
    {
      outcome := Continue;
      match screen
      case Title =>
        if event.Press? {
          outcome := HandleTitleKey(event.key, rng);
        }
      case Game =>
        if event.Press? && paused {
          outcome := HandlePausedKey(event.key, rng);
        } else if event.Press? {
          HandlePlayingKey(event.key, rng);
        } else {
          Tick(rng);
        }
      case _ =>
    }

    /**
     * `states` and `outcomes` record a run over `events`: each handled event
     * takes one recorded state to the next with its recorded outcome.
     */
    ghost predicate Trace(events: seq<Event>, rngs: seq<Rng>, states: seq<Snapshot>, outcomes: seq<Outcome>) {
      |states| == |outcomes| + 1 && |outcomes| <= |events| && |outcomes| <= |rngs|
      && forall k :: 0 <= k < |outcomes| ==> StepEffect(events[k], states[k], states[k + 1], outcomes[k], rngs[k])
    }

    /** A run extended by the effect of its next event is still a run. */
    lemma TraceExtends(events: seq<Event>, rngs: seq<Rng>, states: seq<Snapshot>, outcomes: seq<Outcome>, after: Snapshot, outcome: Outcome)
      requires Trace(events, rngs, states, outcomes) && |outcomes| < |events| && |outcomes| < |rngs|
      requires StepEffect(events[|outcomes|], states[|outcomes|], after, outcome, rngs[|outcomes|])
      ensures Trace(events, rngs, states + [after], outcomes + [outcome])
      ensures (states + [after])[0] == states[0]
    {
    }

    /**
     * `run_app`: select the first item of both menus, then handle the events
     * as `HandleEvents` does.
     */
    method RunApp(events: seq<Event>, rngs: seq<Rng>) returns (quit: bool, hung: bool, handled: nat, ghost outcomes: seq<Outcome>, ghost states: seq<Snapshot>)
      requires Valid() && |rngs| == |events|
      modifies this`screen, this`lives, this`prompt, this`input, this`timeLeft, this`paused
      modifies titleList`selected, pauseList`selected
      ensures Valid()
      ensures handled <= |events| && |outcomes| == handled && Trace(events, rngs, states, outcomes)
      ensures states[0] == old(Snap()).(titleSelected := Some(0), pauseSelected := Some(0))
      ensures states[handled] == Snap()
      ensures forall k :: 0 <= k < handled - 1 ==> outcomes[k] == Continue
      ensures forall k :: 0 <= k < handled ==> outcomes[k] == Quit ==> events[k].Press?
      ensures quit <==> handled > 0 && outcomes[handled - 1] == Quit
      ensures hung ==> !quit && handled < |events| && StartsTurn(events[handled]) && !Halts(rngs[handled])
      ensures !quit && !hung ==> handled == |events|
      ensures titleList.selected.Some? && pauseList.selected.Some?
    {
      Launch();
      quit, hung, handled, outcomes, states := HandleEvents(events, rngs);
    }

    /**
     * The loop of `run_app`: handle the events in order, the k-th with the
     * k-th draws, until one of them quits. `states` records the state before
     * every event handled and after the last, and `outcomes` the outcome of
     * each: every event takes its state to the next one by `StepEffect`, and
     * only the last can be `Quit`. When the next event would start a turn
     * that its draws never give a prompt for, the program hangs inside
     * `generate_prompt`; the run then stops before that event and reports
     * `hung`.
     */
    method HandleEvents(events: seq<Event>, rngs: seq<Rng>) returns (quit: bool, hung: bool, handled: nat, ghost outcomes: seq<Outcome>, ghost states: seq<Snapshot>)
      requires Valid() && |rngs| == |events|
      requires titleList.selected.Some? && pauseList.selected.Some?
      modifies this`screen, this`lives, this`prompt, this`input, this`timeLeft, this`paused
      modifies titleList`selected, pauseList`selected
      ensures Valid()
      ensures handled <= |events| && |outcomes| == handled && Trace(events, rngs, states, outcomes)
      ensures states[0] == old(Snap()) && states[handled] == Snap()
      ensures forall k :: 0 <= k < handled - 1 ==> outcomes[k] == Continue
      ensures forall k :: 0 <= k < handled ==> outcomes[k] == Quit ==> events[k].Press?
      ensures quit <==> handled > 0 && outcomes[handled - 1] == Quit
      ensures hung ==> !quit && handled < |events| && StartsTurn(events[handled]) && !Halts(rngs[handled])
      ensures !quit && !hung ==> handled == |events|
      ensures titleList.selected.Some? && pauseList.selected.Some?
    {
      quit, hung, handled, outcomes, states := false, false, 0, [], [Snap()];
      while handled < |events|
        invariant Valid()
        invariant handled <= |events| && |outcomes| == handled && Trace(events, rngs, states, outcomes)
        invariant states[0] == old(Snap()) && states[handled] == Snap()
        invariant forall k :: 0 <= k < handled ==> outcomes[k] == Continue
        invariant titleList.selected.Some? && pauseList.selected.Some?
      {
        if StartsTurn(events[handled]) && !Halts(rngs[handled]) {
          hung := true;
          break;
        }
        var outcome := Step(events[handled], rngs[handled]);
        TraceExtends(events, rngs, states, outcomes, Snap(), outcome);
        outcomes := outcomes + [outcome];
        states := states + [Snap()];
        handled := handled + 1;
        if outcome == Quit {
          quit := true;
          break;
        }
      }
    }
  }

  /**
   * While the countdown runs, as many ticks as it has left bring it to 0
   * and change nothing else.
   */
  method CountdownRunsDown(app: App, rng: Rng)
    requires app.Valid() && app.Counting()
    modifies app`screen, app`lives, app`prompt, app`input, app`timeLeft
    ensures app.Valid()
    ensures app.Snap() == old(app.Snap()).(timeLeft := 0)
  {
    var k := 0;
    var ticks := app.timeLeft;
    while k < ticks
      invariant k <= ticks
      invariant app.Valid() && app.Counting()
      invariant app.Snap() == old(app.Snap()).(timeLeft := ticks - k)
    {
      app.Tick(rng);
      k := k + 1;
    }
  }

  /**
   * With limited lives and one life left, the tick that finds the countdown
   * at 0 costs the last life, returns to the title screen and starts a fresh
   * turn (`afterLoss`); a further tick, off the game screen, changes nothing,
   * so lives do not go below 0. A full turn thus lasts `TurnTicks + 1` ticks.
   */
  method LastLifeExpires(app: App, rng: Rng) returns (ghost afterLoss: Snapshot)
    requires app.Valid() && app.Halts(rng) && app.Counting()
    requires app.config.gamemode == LimitedLives && app.lives == 1 && app.timeLeft == 0
    modifies app`screen, app`lives, app`prompt, app`input, app`timeLeft
    ensures app.Valid()
    ensures Some(afterLoss.prompt) == Generate(app.dictionary, app.config.minWpp, rng)
    ensures afterLoss == old(app.Snap()).(screen := Title, lives := 0, prompt := afterLoss.prompt,
                                          input := "", timeLeft := TurnTicks(app.config))
    ensures app.Snap() == afterLoss
  {
    app.Tick(rng);
    afterLoss := app.Snap();
    app.Tick(rng);
  }

  /**
   * Pausing, letting any number of ticks pass and resuming leaves the
   * countdown, lives, prompt and input as they were before the pause.
   */
  method PauseFreezesCountdown(app: App, ticks: nat, rng: Rng)
    requires app.Valid()
    requires app.screen == Game && !app.paused
    modifies app`screen, app`lives, app`prompt, app`input, app`timeLeft, app`paused, app.pauseList`selected
    ensures app.Valid()
    ensures app.Snap() == old(app.Snap())
  {
    app.HandlePlayingKey(Esc, rng);
    var k := 0;
    while k < ticks
      invariant app.Valid()
      invariant app.Snap() == old(app.Snap()).(paused := true)
    {
      app.Tick(rng);
      k := k + 1;
    }
    var outcome := app.HandlePausedKey(Esc, rng);
  }
}
