// The Crazy Colors game controller: the screen, the three overlays, the settings,
// the selection animation, the current question and the statistics, changed one
// event at a time. Every button, key listener and timer callback of the component
// is a method; the values it draws from the random source are its parameters.

module CrazyColors {
  import opened Quiz
  import opened StatsTracker

  datatype Screen = IntroScreen | SelectionScreen | MainScreen

  /** Everything the controller holds, as one value. */
  datatype GameState = GameState(
    screen: Screen,
    stats: GameStats,
    regim: int,
    optionIndex: nat,
    showSettings: bool,
    showExit: bool,
    selectionIndex: nat,
    isSelectionFixed: bool,
    question: Question,
    showAnswer: bool,
    isAnswerCorrect: bool)

  /** The state the component mounts with. */
  const Initial := GameState(IntroScreen, Zero, 0, 0, false, false, 0, false,
                             InitialQuestion, false, false)

  class Game {
    var screen: Screen
    var stats: GameStats
    /** 1 selects random mode, where a coin picks the rule for each answer. */
    var regim: int
    /** 0: name the colour of the letters; 1: name the colour of the background. */
    var optionIndex: nat
    var showSettings: bool
    var showExit: bool
    var selectionIndex: nat
    var isSelectionFixed: bool
    var question: Question
    var showAnswer: bool
    var isAnswerCorrect: bool

    ghost function State(): GameState
      reads this
    {
      GameState(screen, stats, regim, optionIndex, showSettings, showExit,
                selectionIndex, isSelectionFixed, question, showAnswer, isAnswerCorrect)
    }

    /** Every index is in the palette, the letters and background differ, the option
        is one of the two rules, every question asked was answered right or wrong, and
        the average time per answer is 0 while no question has been asked. */
    ghost predicate Valid()
      reads this
    {
      && InPalette(selectionIndex)
      && ValidQuestion(question)
      && optionIndex < 2
      && Balanced(stats)
      && NoAverageYet(stats)
    }

    constructor ()
      ensures Valid() && State() == Initial
    {
      screen := IntroScreen;
      stats := Zero;
      regim, optionIndex := 0, 0;
      showSettings, showExit := false, false;
      selectionIndex, isSelectionFixed := 0, false;
      question := InitialQuestion;
      showAnswer, isAnswerCorrect := false, false;
    }

    // -------------------------------------------------------------------------
    // Intro screen buttons

    /** START: on to the selection animation. */
    method StartPressed()
      requires Valid()
      modifies this
      ensures Valid() && State() == old(State()).(screen := SelectionScreen)
    {
      screen := SelectionScreen;
    }

    /** SETTINGS: open the settings overlay. */
    method SettingsPressed()
      requires Valid()
      modifies this
      ensures Valid() && State() == old(State()).(showSettings := true)
    {
      showSettings := true;
    }

    /** QUIT: open the exit overlay. */
    method QuitPressed()
      requires Valid()
      modifies this
      ensures Valid() && State() == old(State()).(showExit := true)
    {
      showExit := true;
    }

    // -------------------------------------------------------------------------
    // Settings overlay

    /** One of the two radio buttons: 0 for the letters rule, 1 for the background rule. */
    method SelectOption(option: nat)
      requires Valid() && option < 2
      modifies this
      ensures Valid() && State() == old(State()).(optionIndex := option)
    {
      optionIndex := option;
    }

    /** Close: hide the settings overlay. */
    method CloseSettings()
      requires Valid()
      modifies this
      ensures Valid() && State() == old(State()).(showSettings := false)
    {
      showSettings := false;
    }

    // -------------------------------------------------------------------------
    // Exit overlay

    /** Continue: hide the exit overlay; the screen underneath resumes. */
    method ContinueFromExit()
      requires Valid()
      modifies this
      ensures Valid() && State() == old(State()).(showExit := false)
    {
      showExit := false;
    }

    /** Start again: zero the statistics, go back to the intro screen and hide the
        exit overlay. Settings, the other overlays, the selection and the question
        are left as they were. */
    method ResetGame()
      requires Valid()
      modifies this
      ensures Valid()
      ensures State() == old(State()).(stats := Zero, screen := IntroScreen, showExit := false)
    {
      ghost var before := State();
      stats := Zero;
      screen := IntroScreen;
      showExit := false;
      assert State() == before.(stats := Zero, screen := IntroScreen, showExit := false);
    }

    /** Settings: swap the exit overlay for the settings overlay. */
    method SettingsFromExit()
      requires Valid()
      modifies this
      ensures Valid() && State() == old(State()).(showExit := false, showSettings := true)
    {
      showExit := false;
      showSettings := true;
    }

    // -------------------------------------------------------------------------
    // Keyboard

    /** The window-wide Escape listener: open the exit overlay unless an answer
        overlay is showing. */
    method EscapePressed()
      requires Valid()
      modifies this
      ensures Valid()
      ensures !old(showAnswer) ==> State() == old(State()).(showExit := true)
      ensures old(showAnswer) ==> State() == old(State())
    {
      if !showAnswer {
        showExit := true;
      }
    }

    /** The answer overlay's key listener: Escape swaps it for the exit overlay and
        keeps the screen; any other key returns to the selection screen. Unlike the
        Continue button, no answer is recorded. */
    method AnswerKeyDown(isEscape: bool)
      requires Valid()
      modifies this
      ensures Valid()
      ensures isEscape ==> State() == old(State()).(showAnswer := false, showExit := true)
      ensures !isEscape ==> State() == old(State()).(showAnswer := false, screen := SelectionScreen)
    {
      if isEscape {
        showAnswer := false;
        showExit := true;
      } else {
        showAnswer := false;
        screen := SelectionScreen;
      }
    }

    /** One key press, delivered to every listener on the window: the Escape listener
        always, the answer overlay's only while that overlay is showing. */
    method KeyDown(isEscape: bool)
      requires Valid()
      modifies this
      ensures Valid() && stats == old(stats)
      ensures old(showAnswer) && isEscape ==>
        State() == old(State()).(showAnswer := false, showExit := true)
      ensures old(showAnswer) && !isEscape ==>
        State() == old(State()).(showAnswer := false, screen := SelectionScreen)
      ensures !old(showAnswer) && isEscape ==> State() == old(State()).(showExit := true)
      ensures !old(showAnswer) && !isEscape ==> State() == old(State())
    {
      var answerShown := showAnswer;
      if isEscape {
        EscapePressed();
      }
      if answerShown {
        AnswerKeyDown(isEscape);
      }
    }

    // -------------------------------------------------------------------------
    // Main screen and answer overlay

    /** One of the nine colour buttons. The verdict compares the answer with the
        letters colour when the rule in force is 0 and with the background colour
        otherwise; the rule is the coin in random mode, else the chosen option.
        Only the verdict and the overlay change. */
    method AnswerChosen(answerIndex: nat, coin: nat)
      requires Valid() && InPalette(answerIndex) && coin < 2
      modifies this
      ensures Valid()
      ensures isAnswerCorrect <==>
        if EffectiveRule(old(regim), old(optionIndex), coin) == 0
        then answerIndex == old(question).lettersColorIndex
        else answerIndex == old(question).backgroundColorIndex
      ensures State() == old(State()).(isAnswerCorrect := isAnswerCorrect, showAnswer := true)
    {
      var rule := EffectiveRule(regim, optionIndex, coin);
      isAnswerCorrect := IsCorrect(rule, answerIndex, question);
      showAnswer := true;
    }

    /** The answer overlay's Continue button: record the answer, hide the overlay and
        return to the selection screen. */
    method AnswerContinue()
      requires Valid()
      modifies this
      ensures Valid()
      ensures stats.questionsAll == old(stats.questionsAll) + 1
      ensures old(isAnswerCorrect) ==>
        stats.answersCorrect == old(stats.answersCorrect) + 1 && stats.answersWrong == old(stats.answersWrong)
      ensures !old(isAnswerCorrect) ==>
        stats.answersWrong == old(stats.answersWrong) + 1 && stats.answersCorrect == old(stats.answersCorrect)
      ensures State() == old(State()).(stats := Record(old(stats), old(isAnswerCorrect)),
                                       showAnswer := false, screen := SelectionScreen)
    {
      stats := Record(stats, isAnswerCorrect);
      showAnswer := false;
      screen := SelectionScreen;
    }

    // -------------------------------------------------------------------------
    // Timers

    /** The 200 ms tick of the selection animation: show a freshly drawn palette
        entry. Its interval exists only on the selection screen before the lock. */
    method SelectionTick(drawn: nat)
      requires Valid() && InPalette(drawn)
      modifies this
      ensures Valid()
      ensures old(screen) == SelectionScreen && !old(isSelectionFixed) ==>
        State() == old(State()).(selectionIndex := drawn)
      ensures !(old(screen) == SelectionScreen && !old(isSelectionFixed)) ==>
        State() == old(State())
    {
      if screen == SelectionScreen && !isSelectionFixed {
        selectionIndex := drawn;
      }
    }

    /** The 4000 ms timeout of the selection animation: lock on the entry shown.
        It is cancelled whenever the screen leaves selection or the lock is set. */
    method SelectionLock()
      requires Valid()
      modifies this
      ensures Valid()
      ensures old(screen) == SelectionScreen && !old(isSelectionFixed) ==>
        State() == old(State()).(isSelectionFixed := true)
      ensures !(old(screen) == SelectionScreen && !old(isSelectionFixed)) ==>
        State() == old(State())
    {
      if screen == SelectionScreen && !isSelectionFixed {
        isSelectionFixed := true;
      }
    }

    /** The question generator: a letters colour, a background colour drawn until it
        differs, and the word the selection screen settled on. */
    method GenerateNewQuestion(lettersDraw: nat, backgroundDraws: seq<nat>)
      requires Valid() && InPalette(lettersDraw)
      requires forall k :: 0 <= k < |backgroundDraws| ==> InPalette(backgroundDraws[k])
      requires exists k :: 0 <= k < |backgroundDraws| && backgroundDraws[k] != lettersDraw
      modifies this
      ensures Valid()
      ensures Generated(question, lettersDraw, backgroundDraws, selectionIndex)
      ensures State() == old(State()).(question := question)
    {
      var background, used := DrawBackground(lettersDraw, backgroundDraws);
      question := Question(lettersDraw, background, selectionIndex);
    }

    /** The 2000 ms pause after the lock: show the main screen and release the lock.
        This timeout is never cancelled, so it fires whatever the screen is by then.
        Arriving on the main screen from another screen generates a new question. */
    method SelectionPauseEnd(lettersDraw: nat, backgroundDraws: seq<nat>)
      requires Valid()
      requires screen != MainScreen ==>
        && InPalette(lettersDraw)
        && (forall k :: 0 <= k < |backgroundDraws| ==> InPalette(backgroundDraws[k]))
        && exists k :: 0 <= k < |backgroundDraws| && backgroundDraws[k] != lettersDraw
      modifies this
      ensures Valid()
      ensures old(screen) == MainScreen ==> State() == old(State()).(isSelectionFixed := false)
      ensures old(screen) != MainScreen ==>
        && Generated(question, lettersDraw, backgroundDraws, old(selectionIndex))
        && State() == old(State()).(screen := MainScreen, isSelectionFixed := false,
                                    question := question)
    {
      var entering := screen != MainScreen;
      screen := MainScreen;
      isSelectionFixed := false;
      if entering {
        GenerateNewQuestion(lettersDraw, backgroundDraws);
      }
    }

    /** The one-second tick of the statistics, alive only on the main screen while
        no answer overlay is showing. */
    method StatsTick()
      requires Valid()
      modifies this
      ensures Valid()
      ensures old(screen) == MainScreen && !old(showAnswer) ==>
        State() == old(State()).(stats := Tick(old(stats)))
      ensures !(old(screen) == MainScreen && !old(showAnswer)) ==> State() == old(State())
    {
      if screen == MainScreen && !showAnswer {
        stats := Tick(stats);
      }
    }
  }
}
