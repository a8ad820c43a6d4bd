// The quiz engine of the Crazy Colors game: the palette, the question shown on
// the main screen, the rejection-sampling draw of its background colour and the
// rule an answer is judged by.

module Quiz {

  /** The palette has nine entries (colour names and colour codes are parallel lists). */
  const PaletteSize: nat := 9

  predicate InPalette(i: nat) {
    i < PaletteSize
  }

  /** A question: the colour of the letters, the colour of the background and the
      word written, each an index into the palette. */
  datatype Question = Question(lettersColorIndex: nat, backgroundColorIndex: nat, textSelected: nat)

  /** The letters are never drawn in the background colour. */
  predicate ValidQuestion(q: Question) {
    && InPalette(q.lettersColorIndex)
    && InPalette(q.backgroundColorIndex)
    && InPalette(q.textSelected)
    && q.lettersColorIndex != q.backgroundColorIndex
  }

  /** The question the game starts with, before any has been generated. */
  const InitialQuestion := Question(0, 1, 0)

  // ---------------------------------------------------------------------------
  // Generating a question

  /** The background draw stops after `used` draws: every earlier draw repeated the
      letters colour and the last one differs from it. */
  predicate SettlesAt(letters: nat, draws: seq<nat>, used: nat) {
    && 0 < used <= |draws|
    && draws[used - 1] != letters
    && forall k :: 0 <= k < used - 1 ==> draws[k] == letters
  }

  /** The question generated from a letters draw, the background draws and the
      word the selection screen settled on. */
  ghost predicate Generated(q: Question, letters: nat, draws: seq<nat>, selection: nat) {
    && q.lettersColorIndex == letters
    && q.textSelected == selection
    && exists used :: SettlesAt(letters, draws, used) && q.backgroundColorIndex == draws[used - 1]
  }

  /** A generated question has all three indices in the palette, the word taken from
      the selection screen, and letters and background of different colours; the
      background is one of the draws. */
  lemma GeneratedIsValid(q: Question, letters: nat, draws: seq<nat>, selection: nat)
    requires InPalette(letters) && InPalette(selection)
    requires forall k :: 0 <= k < |draws| ==> InPalette(draws[k])
    requires Generated(q, letters, draws, selection)
    ensures ValidQuestion(q)
    ensures q.backgroundColorIndex in draws
  {
  }

  /** The do-while loop of question generation: draw background colours until one
      differs from the letters colour. `draws` are the successive values the random
      source produces; the source relies on one of them eventually differing. */
  method DrawBackground(letters: nat, draws: seq<nat>) returns (background: nat, used: nat)
    requires forall k :: 0 <= k < |draws| ==> InPalette(draws[k])
    requires exists k :: 0 <= k < |draws| && draws[k] != letters
    ensures SettlesAt(letters, draws, used) && background == draws[used - 1]
    ensures InPalette(background) && background != letters
  {
    ghost var other :| 0 <= other < |draws| && draws[other] != letters;
    background := draws[0];
    used := 1;
    while background == letters
      invariant 0 < used <= |draws| && background == draws[used - 1]
      invariant forall k :: 0 <= k < used - 1 ==> draws[k] == letters
      invariant other >= used - 1
      decreases |draws| - used
    {
      background := draws[used];
      used := used + 1;
    }
  }

  // ---------------------------------------------------------------------------
  // Judging an answer

  /** The rule in force for one answer: a fresh coin in random mode (regim 1),
      otherwise the option chosen in the settings. */
  function EffectiveRule(regim: int, optionIndex: nat, coin: nat): (rule: nat)
    ensures regim == 1 ==> rule == coin
    ensures regim != 1 ==> rule == optionIndex
    ensures optionIndex < 2 && coin < 2 ==> rule < 2
  {
    if regim == 1 then coin else optionIndex
  }

  /** Rule 0 asks for the colour of the letters; any other rule for the colour of
      the background. */
  function IsCorrect(rule: nat, answer: nat, q: Question): (correct: bool)
    ensures correct ==> answer == q.lettersColorIndex || answer == q.backgroundColorIndex
    ensures ValidQuestion(q) && correct ==> (rule == 0 <==> answer == q.lettersColorIndex)
  {
    if rule == 0 then answer == q.lettersColorIndex else answer == q.backgroundColorIndex
  }

  /** The palette entries that count as a correct answer under a rule. */
  function CorrectAnswers(rule: nat, q: Question): (answers: set<nat>) {
    set a: nat | a < PaletteSize && IsCorrect(rule, a, q)
  }

  /** Whatever the rule, exactly one of the nine answer buttons is correct: the
      letters colour under rule 0, the background colour otherwise. */
  lemma ExactlyOneCorrectAnswer(rule: nat, q: Question)
    requires ValidQuestion(q)
    ensures CorrectAnswers(rule, q)
            == {if rule == 0 then q.lettersColorIndex else q.backgroundColorIndex}
    ensures |CorrectAnswers(rule, q)| == 1
  {
  }

  /** On a valid question the two rules never accept the same answer, so which rule
      is in force decides the verdict. */
  lemma RulesDisagree(answer: nat, q: Question)
    requires ValidQuestion(q)
    ensures !(IsCorrect(0, answer, q) && IsCorrect(1, answer, q))
    ensures IsCorrect(0, q.lettersColorIndex, q) && !IsCorrect(1, q.lettersColorIndex, q)
  {
  }

  /** With letters 2 and background 5: under the letters rule only 2 is right, under
      the background rule only 5; in random mode the coin picks the rule. */
  lemma JudgingExamples()
    ensures var q := Question(2, 5, 0);
      && IsCorrect(EffectiveRule(0, 0, 1), 2, q)
      && !IsCorrect(EffectiveRule(0, 0, 1), 5, q)
      && !IsCorrect(EffectiveRule(0, 0, 1), 0, q)
      && IsCorrect(EffectiveRule(0, 1, 0), 5, q)
      && !IsCorrect(EffectiveRule(0, 1, 0), 2, q)
      && IsCorrect(EffectiveRule(1, 0, 1), 5, q)
  {
  }
}
