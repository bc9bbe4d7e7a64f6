# Alphabet game: a verified model of its round logic

This project models the sequential core of a multilingual spelling game written in Rust with Leptos.
A target word is shown. The player taps letters from a grid that mixes the word's own letters with distractor letters. The game counts attempts and scores a correct spelling, with a bonus for a quick answer.

Three pieces are modelled:

- `game.dfy` (module `Game`) models `src/game.rs`.
  - `GameState` is a class with the source's eight fields. Its methods update the fields in place: add a letter, remove the last letter, check the spelling, reset for the next word.
  - `GameContext` is a class that holds the shared state object and the current language.
  - Each method is proved to follow a pure step function on the `Snapshot` value of the state (`AddLetterStep`, `CheckSpellingStep`, …).
  - The lemmas state what the program promises about those step functions. This includes the whole-session facts over any sequence of API calls (`Run`).
- `letter_grid.dfy` (module `LetterGrid`) models the grid construction inside the `LetterGrid` effect of `src/components/letter_grid.rs`.
  - The word is split into one-char strings, keeping duplicates.
  - `needed = 12 saturating_sub len` distractors are pushed in a loop.
  - The distractors are the alphabet entries that equal no word letter.
  - The result is shuffled in place in an `array`.
  - The random choices are injected as sequences of indices.
- `database.dfy` (module `Database`) models `Word::first_word_no_spaces` of `src/database.rs`. It is a pure function taking the first whitespace-delimited token, where whitespace is the Unicode White_Space property.

Strings are `seq<char>` over Unicode scalar values, so Rust's `chars().count()` is `|s|`. The `i32` counters are unbounded `int`. Language ids are a `u32` newtype.

Behaviour of the code worth knowing when reading the model:

- The grid keeps one cell per char of the word, duplicates included, although the comment at `src/components/letter_grid.rs:29` speaks of unique letters.
- `add_letter` and `check_spelling` do not look at `is_completed`. A completed round still accepts letters, and a check on it still counts an attempt and can score again.
- `Database.IsWhitespace` is the set of code points with the Unicode White_Space property (Unicode `PropList.txt`), which is what Rust's `char::is_whitespace` tests and what `str::split_whitespace` splits on.
- Distractors are drawn with replacement from the filtered alphabet (`choose` once per missing cell), so the same distractor can fill several cells.

## Model

| member | source | states |
|---|---|---|
| `Game.GameState.Default` | src/game.rs:16-29 | the default state: empty word and input, score 0, attempts 0, maximum 5, current attempt 1, not completed, language 1 |
| `Game.GameState.constructor` | src/game.rs:32-38 | the new state is the default state with the given word and language id |
| `Game.NewIsFreshRound` | src/game.rs:16-38 | a new round keeps the word and language id and has empty input, score 0, attempts 0, maximum 5, current attempt 1, is not completed, and meets the input bound |
| `Game.GameState.AddLetter` | src/game.rs:40-44 | the new state is `AddLetterStep` of the old one |
| `Game.AddLetterAppendsWhileShort` | src/game.rs:40-44 | the letter is appended exactly when the input has fewer chars than the word; otherwise the state is unchanged; no field but the input ever changes |
| `Game.AddLetterIgnoresCompletion` | src/game.rs:40-44 | adding a letter behaves the same whether or not the round is completed |
| `Game.AddLetterKeepsBound` | src/game.rs:40-44 | adding a one-char letter keeps the input no longer than the word |
| `Game.AddLetterTwoCharsOvershoots` | src/game.rs:40-44 | a two-char letter pushed onto an input one char short makes it longer than the word, so the bound needs one-char letters |
| `Game.GameState.RemoveLastLetter` | src/game.rs:46-50 | the new state is `RemoveLastLetterStep` of the old one |
| `Game.RemoveLastLetterDropsLast` | src/game.rs:46-50 | on a non-empty input, exactly the last char goes and the prefix stays; on an empty input nothing changes; no other field changes |
| `Game.RemoveLastLetterKeepsBound` | src/game.rs:46-50 | removing a letter keeps the input no longer than the word |
| `Game.RemoveUndoesAdd` | src/game.rs:40-50 | removing the one-char letter just accepted restores the previous state |
| `Game.GameState.CheckSpelling` | src/game.rs:52-71 | the new state and the result are `CheckSpellingStep` of the old state |
| `Game.Bonus` | src/game.rs:59-63 | from the first attempt on, the bonus lies between 0 and 10 |
| `Game.BonusShape` | src/game.rs:59-63 | the bonus is 10 at the first attempt and `12 - 2a` up to attempt 5; it is 0 from attempt 6 on; it never increases with more attempts and is never negative |
| `Game.CheckSpellingCountsAndScores` | src/game.rs:52-71 | attempts rise by exactly 1 on every call; the result is true iff input equals word; a correct answer adds word length plus bonus and completes the round; a wrong one leaves the score alone; afterwards the round is completed iff it was already, or the answer was right, or attempts reached the maximum; no other field changes |
| `Game.CheckSpellingScoreGrows` | src/game.rs:56-68 | a check never lowers the score |
| `Game.MissesCount` | src/game.rs:52-71 | n wrong checks in a row add n attempts and no points; afterwards the round is completed iff it was already or the attempts reached the maximum |
| `Game.FiveMissesComplete` | src/game.rs:16-71 | from a new round with a wrong input, four checks leave it open and the fifth completes it with score 0 |
| `Game.GameState.ResetForNextWord` | src/game.rs:73-80 | the new state is `ResetStep` of the old one |
| `Game.ResetIsNewRound` | src/game.rs:73-80 | a reset equals a new round for the given word and language that carries over the old score and maximum; the reset state meets the input bound |
| `Game.RunKeepsInputWithinWord` | src/game.rs:40-80 | over any sequence of API calls whose added letters are one char each, the input never becomes longer than the word |
| `Game.RunScoreNeverDecreases` | src/game.rs:40-80 | over any sequence of API calls the score never decreases and the maximum number of attempts never changes |
| `Game.GameContext.constructor` | src/game.rs:90-95 | a context starts with a fresh default state and language 1 |
| `Game.GameContext.AddLetter` | src/game.rs:97-101 | the shared state takes the `AddLetterStep` |
| `Game.GameContext.RemoveLastLetter` | src/game.rs:103-107 | the shared state takes the `RemoveLastLetterStep` |
| `Game.GameContext.CheckSpelling` | src/game.rs:109-115 | the shared state and the returned result are those of `CheckSpellingStep` |
| `Game.GameContext.SetCurrentWord` | src/game.rs:117-127 | its field-by-field writes give the same state as a reset, and the current language becomes the id |
| `Game.GameContext.ResetForNextWord` | src/game.rs:129-134 | the shared state is reset to the word and id, and the current language becomes the id |
| `Game.CatFirstTry` | src/game.rs:40-71 | spelling "cat" at the first try scores 3 + 10 = 13 and completes the round; a fourth letter on the full input is ignored |
| `Game.FiveMissesThroughContext` | src/game.rs:52-127 | through a context, five wrong checks complete the round with no points, four do not, and a sixth check on the completed round still counts an attempt |
| `LetterGrid.WordLetters` | src/components/letter_grid.rs:30-31 | the word split into one-char strings, one per char, in order, duplicates kept |
| `LetterGrid.DuplicatesKept` | src/components/letter_grid.rs:30-31 | "aa" gives two cells "a" |
| `LetterGrid.Needed` | src/components/letter_grid.rs:34 | the count plus the result is at least 12; the result is 0 or brings the count to exactly 12 |
| `LetterGrid.Distractors` | src/components/letter_grid.rs:37-40 | the result holds exactly the alphabet entries that equal no word letter, each with its multiplicity in the alphabet, in alphabet order |
| `LetterGrid.Picked` | src/components/letter_grid.rs:46-50 | one pushed letter per missing cell when there are distractors, none otherwise; every pushed letter is a distractor, repeats allowed |
| `LetterGrid.DistractorRepeats` | src/components/letter_grid.rs:46-50 | two draws of the same index push the same distractor twice |
| `LetterGrid.PickedAvoidWord` | src/components/letter_grid.rs:37-50 | every pushed letter is an alphabet entry and none of the word's letters |
| `LetterGrid.Unshuffled` | src/components/letter_grid.rs:30-50 | the grid before the shuffle starts with the word's letters, in order, and the pushed distractors follow them |
| `LetterGrid.UnshuffledLength` | src/components/letter_grid.rs:34-50 | the grid has the word's length when there is no distractor; otherwise it has `max(12, length)` |
| `LetterGrid.UnshuffledCounts` | src/components/letter_grid.rs:30-50 | every word letter occurs exactly as often as in the word, and every other entry is a distractor |
| `LetterGrid.PushDistractors` | src/components/letter_grid.rs:30-50 | the loop builds the word letters followed by the picked distractors |
| `LetterGrid.ShuffleFromPermutes` | src/components/letter_grid.rs:53 | the Fisher-Yates pass keeps the length and the multiset |
| `LetterGrid.Shuffle` | src/components/letter_grid.rs:53 | the array becomes the shuffle of its old contents under the injected indices, a permutation of them |
| `LetterGrid.PermutedGridFacts` | src/components/letter_grid.rs:30-53 | any permutation of the unshuffled grid has its length, holds each word letter exactly as often as the word does, and holds nothing but word letters and distractors |
| `LetterGrid.BuildGrid` | src/components/letter_grid.rs:24-55 | the grid is the shuffled fill; its length is the word's length without distractors and `max(12, length)` with them; each word letter appears exactly as often as in the word; every other cell is a distractor |
| `Database.WhitespaceExamples` | src/database.rs:33 | tab, line feed, space and the ideographic space U+3000 are whitespace; a letter and the zero-width space U+200B are not |
| `Database.LeadingWhitespace` | src/database.rs:33 | the length of the longest all-whitespace prefix |
| `Database.TokenLength` | src/database.rs:33 | the length of the longest whitespace-free prefix |
| `Database.FirstToken` | src/database.rs:33-34 | nothing exactly when the string is all whitespace; otherwise a non-empty token without whitespace |
| `Database.FirstWordNoSpaces` | src/database.rs:30-37 | requires a char that is not whitespace (the `expect` panics otherwise); the result is non-empty and holds no whitespace |
| `Database.FirstWordSplits` | src/database.rs:31-35 | the word is leading whitespace, then the result, then the rest, which is empty or starts with whitespace |
| `Database.SplitDeterminesFirstWord` | src/database.rs:31-35 | any such split of the word has the result as its token, so the split determines the result |
| `Database.FirstWordOfSingleToken` | src/database.rs:31-35 | a non-empty word without whitespace is its own result |
| `Database.FirstWordIdempotent` | src/database.rs:30-37 | applying the function to its own result gives that result |
| `Database.FirstWordOfPhrase` | src/database.rs:31-35 | "  hello world" gives "hello" |

## Left out

- Leptos view code, the `Effect`/`spawn_local` scheduling and the rendering half of `LetterGrid`. They are UI and asynchronous wiring, not round logic.
- The async fetch of the alphabet before the grid is built, and its error branch, which only logs. `BuildGrid` takes the fetched alphabet as a parameter.
- `RwSignal` reactivity. `GameContext.state` is a shared `GameState` object and `current_language` a plain field. Subscribers and change notification are not modelled.
- The `rand` crate. `choose` is the injected index `picks[k]` modulo the number of distractors. `shuffle` is modelled as one Fisher-Yates order (position `i`, from the last down to 1, is swapped with position `swaps[i]` modulo `i + 1`). The crate's own walk order and the distribution of its indices are not modelled; the model claims only that the shuffled grid is a permutation of the filled one. `BuildGrid` requires the two sequences to be long enough to supply one index per draw.
- `i32` overflow of `score` and `attempts`, and the `as i32` cast of `chars().count()` at `src/game.rs:58`, which the model takes as exact, because the counters are unbounded integers.
- The server functions of `src/database.rs` (D1/SQL queries), `src/components/languages_d1.rs` and `src/speech.rs`. They are database I/O and a foreign speech call.
- The callers in `src/components/game.rs`, `header.rs` and `letter_button.rs` use context methods and fields that `src/game.rs` does not define (`get_language`, `set_language`, `set_language_letters`, a one-argument `reset_for_next_word`, `lang_code`). `src/game.rs` is modelled as written.
