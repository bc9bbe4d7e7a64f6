/** The round state machine of the spelling game (src/game.rs).

    `GameState` accumulates the letters a player taps, checks the spelling,
    scores a correct answer and resets for the next word. The pure `Snapshot`
    value and the `...Step` functions below say what each operation does to the
    eight fields; the `GameState` and `GameContext` classes update those fields
    in place and are proved to follow the step functions. Strings are sequences
    of Unicode scalar values, so a Rust `chars().count()` is `|s|`. The `i32`
    counters are unbounded integers: overflow is not modelled. */
module Game {

  /** Rust's `u32`, the type of language identifiers. */
  newtype u32 = x: int | 0 <= x < 0x1_0000_0000

  const DefaultMaxAttempts: int := 5
  const DefaultLanguageId: u32 := 1
  /** The bonus for a correct spelling at the first attempt. */
  const FirstTryBonus: int := 10

  /** The value of a `GameState`: its eight fields. */
  datatype Snapshot = Snapshot(
    currentWord: string,
    userInput: string,
    score: int,
    attempts: int,
    maxAttempts: int,
    currentAttempt: int,
    isCompleted: bool,
    languageId: u32)

  function Max(a: int, b: int): int { if a < b then b else a }

  /** `GameState::default()`. */
  function DefaultSnapshot(): Snapshot {
    Snapshot("", "", 0, 0, DefaultMaxAttempts, 1, false, DefaultLanguageId)
  }

  /** `GameState::new(word, language_id)`: the default state with the word and the language replaced. */
  function NewSnapshot(word: string, languageId: u32): Snapshot {
    DefaultSnapshot().(currentWord := word, languageId := languageId)
  }

  /** `add_letter`: append the letter while the input is shorter (in chars) than the word. */
  function AddLetterStep(s: Snapshot, letter: string): Snapshot {
    if |s.userInput| < |s.currentWord| then s.(userInput := s.userInput + letter) else s
  }

  /** `remove_last_letter`: drop the last char of the input, if there is one. */
  function RemoveLastLetterStep(s: Snapshot): Snapshot {
    if s.userInput == [] then s else s.(userInput := s.userInput[..|s.userInput| - 1])
  }

  /** The speed bonus for a correct spelling found at attempt number `attempts`. */
  function Bonus(attempts: int): (b: int)
    ensures attempts >= 1 ==> 0 <= b <= FirstTryBonus
  {
    if attempts == 1 then FirstTryBonus else Max(0, FirstTryBonus - (attempts - 1) * 2)
  }

  /** `check_spelling`: the new state and whether the input equals the word. */
  function CheckSpellingStep(s: Snapshot): (Snapshot, bool) {
    var attempts := s.attempts + 1;
    if s.userInput == s.currentWord then
      (s.(attempts := attempts, score := s.score + |s.currentWord| + Bonus(attempts), isCompleted := true), true)
    else if attempts >= s.maxAttempts then
      (s.(attempts := attempts, isCompleted := true), false)
    else
      (s.(attempts := attempts), false)
  }

  /** `reset_for_next_word(next_word, language_id)`. */
  function ResetStep(s: Snapshot, nextWord: string, languageId: u32): Snapshot {
    s.(currentWord := nextWord, userInput := "", attempts := 0, currentAttempt := 1,
       isCompleted := false, languageId := languageId)
  }

  /** The round invariant: the input never has more chars than the word. */
  predicate InputWithinWord(s: Snapshot) {
    |s.userInput| <= |s.currentWord|
  }

  // ---------------------------------------------------------------------------
  // Properties of single operations

  /** A fresh round: empty input, no score, no attempts, five attempts allowed,
      not completed, and the given word and language. */
  lemma NewIsFreshRound(word: string, languageId: u32)
    ensures var s := NewSnapshot(word, languageId);
      s.currentWord == word && s.languageId == languageId &&
      s.userInput == "" && s.score == 0 && s.attempts == 0 && s.maxAttempts == 5 &&
      s.currentAttempt == 1 && !s.isCompleted && InputWithinWord(s)
  {
  }

  /** `add_letter` appends exactly when the input is shorter than the word,
      otherwise changes nothing, and only ever touches the input. */
  lemma AddLetterAppendsWhileShort(s: Snapshot, letter: string)
    ensures var t := AddLetterStep(s, letter);
      (|s.userInput| < |s.currentWord| ==> t.userInput == s.userInput + letter) &&
      (|s.userInput| >= |s.currentWord| ==> t == s) &&
      t.(userInput := s.userInput) == s
  {
  }

  /** `add_letter` does not look at the completion flag: a completed round accepts letters too. */
  lemma AddLetterIgnoresCompletion(s: Snapshot, letter: string, completed: bool)
    ensures AddLetterStep(s.(isCompleted := completed), letter)
         == AddLetterStep(s, letter).(isCompleted := completed)
  {
  }

  /** A one-char letter keeps the round invariant. */
  lemma AddLetterKeepsBound(s: Snapshot, letter: string)
    requires InputWithinWord(s) && |letter| == 1
    ensures InputWithinWord(AddLetterStep(s, letter))
  {
  }

  /** The invariant needs one-char letters: `push_str` of a two-char letter
      to an input one char short of the word overshoots it. */
  lemma AddLetterTwoCharsOvershoots()
    ensures var s := NewSnapshot("ab", 1).(userInput := "a");
      InputWithinWord(s) && !InputWithinWord(AddLetterStep(s, "ch"))
  {
  }

  /** `remove_last_letter` removes exactly the last char and keeps the prefix;
      on an empty input it does nothing. */
  lemma RemoveLastLetterDropsLast(s: Snapshot)
    ensures var t := RemoveLastLetterStep(s);
      (s.userInput == [] ==> t == s) &&
      (s.userInput != [] ==>
         |t.userInput| == |s.userInput| - 1 &&
         t.userInput + [s.userInput[|s.userInput| - 1]] == s.userInput) &&
      t.(userInput := s.userInput) == s
  {
  }

  lemma RemoveLastLetterKeepsBound(s: Snapshot)
    requires InputWithinWord(s)
    ensures InputWithinWord(RemoveLastLetterStep(s))
  {
  }

  /** Removing the letter just added restores the state. */
  lemma RemoveUndoesAdd(s: Snapshot, c: char)
    requires |s.userInput| < |s.currentWord|
    ensures RemoveLastLetterStep(AddLetterStep(s, [c])) == s
  {
    assert (s.userInput + [c])[..|s.userInput|] == s.userInput;
  }

  /** The bonus is 10 at the first attempt, drops by 2 per further attempt and
      is never negative, so it is zero from the sixth attempt on. */
  lemma BonusShape(a: int, b: int)
    requires 1 <= a <= b
    ensures 0 <= Bonus(b) <= Bonus(a) <= FirstTryBonus
    ensures Bonus(1) == 10 && (a < 6 ==> Bonus(a) == 12 - 2 * a) && (a >= 6 ==> Bonus(a) == 0)
  {
  }

  /** Every `check_spelling` counts one attempt (also on a completed round),
      answers whether the input equals the word, and changes the score only on
      a correct answer, by the word's length plus the bonus. The round is
      completed afterwards exactly when it already was, the answer was right,
      or the attempts reached the maximum. Input, word, maximum, language and
      `current_attempt` are left alone. */
  lemma CheckSpellingCountsAndScores(s: Snapshot)
    ensures var (t, correct) := CheckSpellingStep(s);
      t.attempts == s.attempts + 1 &&
      (correct <==> s.userInput == s.currentWord) &&
      (correct ==> t.score == s.score + |s.currentWord| + Bonus(s.attempts + 1) && t.isCompleted) &&
      (!correct ==> t.score == s.score) &&
      (t.isCompleted <==> correct || s.isCompleted || s.attempts + 1 >= s.maxAttempts) &&
      t.(attempts := s.attempts, score := s.score, isCompleted := s.isCompleted) == s
  {
  }

  /** Scoring never takes points away (the bonus is never negative). */
  lemma CheckSpellingScoreGrows(s: Snapshot)
    ensures CheckSpellingStep(s).0.score >= s.score
  {
  }

  /** A reset starts a fresh round for the next word that carries over the score and the maximum. */
  lemma ResetIsNewRound(s: Snapshot, nextWord: string, languageId: u32)
    ensures ResetStep(s, nextWord, languageId)
         == NewSnapshot(nextWord, languageId).(score := s.score, maxAttempts := s.maxAttempts)
    ensures InputWithinWord(ResetStep(s, nextWord, languageId))
  {
  }

  // ---------------------------------------------------------------------------
  // Repeated misses

  /** `n` calls of `check_spelling` in a row. */
  function CheckTimes(s: Snapshot, n: nat): Snapshot
    decreases n
  {
    if n == 0 then s else CheckTimes(CheckSpellingStep(s).0, n - 1)
  }

  /** While the input differs from the word, `n` checks add `n` attempts, no
      points, and complete the round exactly when it was completed or the
      attempts reach the maximum. */
  lemma {:induction false} MissesCount(s: Snapshot, n: nat)
    requires s.userInput != s.currentWord
    ensures var t := CheckTimes(s, n);
      t.attempts == s.attempts + n && t.score == s.score &&
      t.userInput == s.userInput && t.currentWord == s.currentWord && t.maxAttempts == s.maxAttempts &&
      (t.isCompleted <==> s.isCompleted || (n > 0 && s.attempts + n >= s.maxAttempts))
    decreases n
  {
    if n > 0 {
      var u := CheckSpellingStep(s).0;
      MissesCount(u, n - 1);
    }
  }

  /** Five straight misses from a fresh round complete it without points; four do not. */
  lemma FiveMissesComplete(word: string, languageId: u32, input: string)
    requires input != word
    ensures var s := NewSnapshot(word, languageId).(userInput := input);
      CheckTimes(s, 5).isCompleted && CheckTimes(s, 5).score == 0 && !CheckTimes(s, 4).isCompleted
  {
    var s := NewSnapshot(word, languageId).(userInput := input);
    MissesCount(s, 5);
    MissesCount(s, 4);
  }

  // ---------------------------------------------------------------------------
  // Whole sessions

  /** One call of the `GameState` API. */
  datatype Action =
    | AddLetter(letter: string)
    | RemoveLastLetter
    | CheckSpelling
    | ResetForNextWord(nextWord: string, languageId: u32)

  function Apply(s: Snapshot, a: Action): Snapshot {
    match a
    case AddLetter(letter) => AddLetterStep(s, letter)
    case RemoveLastLetter => RemoveLastLetterStep(s)
    case CheckSpelling => CheckSpellingStep(s).0
    case ResetForNextWord(w, id) => ResetStep(s, w, id)
  }

  function Run(s: Snapshot, actions: seq<Action>): Snapshot
    decreases |actions|
  {
    if actions == [] then s else Run(Apply(s, actions[0]), actions[1..])
  }

  predicate SingleCharLetters(actions: seq<Action>) {
    forall a | a in actions :: a.AddLetter? ==> |a.letter| == 1
  }

  /** Any run of the API that only adds one-char letters keeps the input within the word. */
  lemma {:induction false} RunKeepsInputWithinWord(s: Snapshot, actions: seq<Action>)
    requires InputWithinWord(s) && SingleCharLetters(actions)
    ensures InputWithinWord(Run(s, actions))
    decreases |actions|
  {
    if actions != [] {
      var a := actions[0];
      match a {
        case AddLetter(letter) => AddLetterKeepsBound(s, letter);
        case RemoveLastLetter => RemoveLastLetterKeepsBound(s);
        case CheckSpelling =>
        case ResetForNextWord(w, id) =>
      }
      assert SingleCharLetters(actions[1..]) by {
        forall b | b in actions[1..] ensures b.AddLetter? ==> |b.letter| == 1 {
          assert b in actions;
        }
      }
      RunKeepsInputWithinWord(Apply(s, a), actions[1..]);
    }
  }

  /** Over any run of the API the score never decreases and the maximum number of attempts never changes. */
  lemma {:induction false} RunScoreNeverDecreases(s: Snapshot, actions: seq<Action>)
    ensures Run(s, actions).score >= s.score
    ensures Run(s, actions).maxAttempts == s.maxAttempts
    decreases |actions|
  {
    if actions != [] {
      CheckSpellingScoreGrows(s);
      RunScoreNeverDecreases(Apply(s, actions[0]), actions[1..]);
    }
  }

  // ---------------------------------------------------------------------------
  // The mutable objects

  /** `GameState`, updated in place through `&mut self`. */
  class GameState {
    var currentWord: string
    var userInput: string
    var score: int
    var attempts: int
    var maxAttempts: int
    var currentAttempt: int
    var isCompleted: bool
    var languageId: u32

    function View(): Snapshot
      reads this
    {
      Snapshot(currentWord, userInput, score, attempts, maxAttempts, currentAttempt, isCompleted, languageId)
    }

    /** `GameState::default()`. */
    constructor Default()
      ensures View() == DefaultSnapshot()
    {
      currentWord := "";
      userInput := "";
      score := 0;
      attempts := 0;
      maxAttempts := DefaultMaxAttempts;
      currentAttempt := 1;
      isCompleted := false;
      languageId := DefaultLanguageId;
    }

    /** `GameState::new(word, language_id)`. */
    constructor (word: string, languageId: u32)
      ensures View() == NewSnapshot(word, languageId)
    {
      currentWord := word;
      userInput := "";
      score := 0;
      attempts := 0;
      maxAttempts := DefaultMaxAttempts;
      currentAttempt := 1;
      isCompleted := false;
      this.languageId := languageId;
    }

    method AddLetter(letter: string)
      modifies this
      ensures View() == AddLetterStep(old(View()), letter)
    {
      if |userInput| < |currentWord| {
        userInput := userInput + letter;
      }
    }

    method RemoveLastLetter()
      modifies this
      ensures View() == RemoveLastLetterStep(old(View()))
    {
      if |userInput| > 0 {
        userInput := userInput[..|userInput| - 1];
      }
    }

    method CheckSpelling() returns (correct: bool)
      modifies this
      ensures (View(), correct) == CheckSpellingStep(old(View()))
    {
      attempts := attempts + 1;
      correct := userInput == currentWord;
      if correct {
        var basePoints := |currentWord|;
        var bonusPoints := if attempts == 1 then FirstTryBonus else Max(0, FirstTryBonus - (attempts - 1) * 2);
        score := score + basePoints + bonusPoints;
        isCompleted := true;
      } else if attempts >= maxAttempts {
        isCompleted := true;
      }
    }

    method ResetForNextWord(nextWord: string, languageId: u32)
      modifies this
      ensures View() == ResetStep(old(View()), nextWord, languageId)
    {
      currentWord := nextWord;
      userInput := "";
      attempts := 0;
      currentAttempt := 1;
      isCompleted := false;
      this.languageId := languageId;
    }
  }

  /** `GameContext`: the shared game state and the current language. Both are
      reactive signals in the program; here they are a shared object and a
      field. Clones of a context share both signals; here a clone is the same
      `GameContext` reference. */
  class GameContext {
    var state: GameState
    var currentLanguage: u32

    constructor ()
      ensures fresh(state) && state.View() == DefaultSnapshot()
      ensures currentLanguage == DefaultLanguageId
    {
      state := new GameState.Default();
      currentLanguage := DefaultLanguageId;
    }

    method AddLetter(letter: string)
      modifies state
      ensures state.View() == AddLetterStep(old(state.View()), letter)
    {
      state.AddLetter(letter);
    }

    method RemoveLastLetter()
      modifies state
      ensures state.View() == RemoveLastLetterStep(old(state.View()))
    {
      state.RemoveLastLetter();
    }

    method CheckSpelling() returns (result: bool)
      modifies state
      ensures (state.View(), result) == CheckSpellingStep(old(state.View()))
    {
      result := state.CheckSpelling();
    }

    /** Writes the fields one by one, and so makes the same change as a reset. */
    method SetCurrentWord(word: string, languageId: u32)
      modifies this, state
      ensures state == old(state)
      ensures state.View() == ResetStep(old(state.View()), word, languageId)
      ensures currentLanguage == languageId
    {
      state.currentWord := word;
      state.languageId := languageId;
      state.userInput := "";
      state.attempts := 0;
      state.currentAttempt := 1;
      state.isCompleted := false;
      currentLanguage := languageId;
    }

    method ResetForNextWord(nextWord: string, languageId: u32)
      modifies this, state
      ensures state == old(state)
      ensures state.View() == ResetStep(old(state.View()), nextWord, languageId)
      ensures currentLanguage == languageId
    {
      state.ResetForNextWord(nextWord, languageId);
      currentLanguage := languageId;
    }
  }

  // ---------------------------------------------------------------------------
  // Clients of the objects

  /** Spelling "cat" right at the first try scores 3 + 10 points and
      completes the round; a fourth letter tapped on a full input is ignored. */
  method CatFirstTry() returns (correct: bool, score: int, completed: bool, input: string)
    ensures correct && score == 13 && completed && input == "cat"
  {
    var g := new GameState("cat", 1);
    g.AddLetter("c");
    g.AddLetter("a");
    g.AddLetter("t");
    g.AddLetter("s");
    correct := g.CheckSpelling();
    score, completed, input := g.score, g.isCompleted, g.userInput;
  }

  /** Through a context: five wrong checks complete the round with no points,
      and a sixth still counts an attempt. */
  method FiveMissesThroughContext() returns (completedAfterFour: bool, completedAfterFive: bool, score: int, attempts: int)
    ensures !completedAfterFour && completedAfterFive && score == 0 && attempts == 6
  {
    var ctx := new GameContext();
    ctx.SetCurrentWord("dog", 2);
    ctx.AddLetter("d");
    var ok := ctx.CheckSpelling();
    ok := ctx.CheckSpelling();
    ok := ctx.CheckSpelling();
    ok := ctx.CheckSpelling();
    completedAfterFour := ctx.state.isCompleted;
    ok := ctx.CheckSpelling();
    completedAfterFive := ctx.state.isCompleted;
    ok := ctx.CheckSpelling();
    score, attempts := ctx.state.score, ctx.state.attempts;
  }
}
