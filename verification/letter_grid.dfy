/** The letter grid of a round (src/components/letter_grid.rs).

    Once the alphabet of the current language has arrived, the grid is the
    current word split into one-char strings, topped up towards twelve entries
    with letters of the alphabet that are not in the word, and shuffled.
    The program draws its random choices from the `rand` crate; here they are
    injected: `picks[k]` chooses the k-th distractor (reduced modulo the
    number of distractors, as an index drawn below that number), and the
    shuffle is one Fisher-Yates order in which position `i` is swapped with
    position `swaps[i] % (i + 1)`. Only that the shuffle permutes the grid is
    claimed of it. Word letters keep their duplicates, as the code does. */
module LetterGrid {

  /** The grid has 3 x 4 cells. */
  const GridSize: nat := 12

  /** The length of a full grid for a word of `wordLength` chars: twelve, or the word's length if longer. */
  function FullGridLength(wordLength: nat): nat { if wordLength < GridSize then GridSize else wordLength }

  /** `word.chars().map(|c| c.to_string()).collect()`. */
  function WordLetters(word: string): (letters: seq<string>)
    ensures |letters| == |word|
    ensures forall i | 0 <= i < |word| :: letters[i] == [word[i]]
  {
    if word == [] then [] else [[word[0]]] + WordLetters(word[1..])
  }

  /** `12usize.saturating_sub(count)`: the number of cells left to fill. */
  function Needed(count: nat): (n: nat)
    ensures count + n >= GridSize
    ensures n == 0 || count + n == GridSize
  {
    if count < GridSize then GridSize - count else 0
  }

  /** `xs` is `ys` with some entries left out, order kept. */
  ghost predicate IsSubsequence(xs: seq<string>, ys: seq<string>)
    decreases |ys|
  {
    xs == [] ||
    (ys != [] && ((xs[0] == ys[0] && IsSubsequence(xs[1..], ys[1..])) || IsSubsequence(xs, ys[1..])))
  }

  /** The alphabet letters that are not among the word letters, in alphabet
      order: every such occurrence is kept and nothing else. */
  function Distractors(alphabet: seq<string>, wordLetters: seq<string>): (d: seq<string>)
    ensures forall x :: x in d <==> x in alphabet && x !in wordLetters
    ensures forall x :: multiset(d)[x] == if x in wordLetters then 0 else multiset(alphabet)[x]
    ensures IsSubsequence(d, alphabet)
  {
    if alphabet == [] then []
    else
      var rest := Distractors(alphabet[1..], wordLetters);
      assert alphabet == [alphabet[0]] + alphabet[1..];
      if alphabet[0] in wordLetters then rest
      else
        assert ([alphabet[0]] + rest)[1..] == rest;
        [alphabet[0]] + rest
  }

  /** The letters that `count` rounds of `distractors.choose` push: one per
      round when there are distractors, none otherwise. */
  function Picked(distractors: seq<string>, picks: seq<nat>, count: nat): (p: seq<string>)
    requires count <= |picks|
    ensures |p| == if distractors == [] then 0 else count
    ensures forall x | x in p :: x in distractors
  {
    if count == 0 || distractors == [] then []
    else Picked(distractors, picks, count - 1) + [distractors[picks[count - 1] % |distractors|]]
  }

  /** The same distractor may be pushed more than once. */
  lemma DistractorRepeats()
    ensures Picked(["x", "y"], [0, 2], 2) == ["x", "x"]
  {
  }

  /** The grid before the final shuffle. */
  function Unshuffled(word: string, alphabet: seq<string>, picks: seq<nat>): (u: seq<string>)
    requires Needed(|word|) <= |picks|
    ensures |word| <= |u| && u[..|word|] == WordLetters(word)
  {
    var letters := WordLetters(word);
    letters + Picked(Distractors(alphabet, letters), picks, Needed(|letters|))
  }

  // ---------------------------------------------------------------------------
  // The shuffle

  function Swap(s: seq<string>, i: nat, j: nat): seq<string>
    requires i < |s| && j < |s|
  {
    s[i := s[j]][j := s[i]]
  }

  /** The Fisher-Yates pass at positions `i - 1` down to 1: position `k` is
      swapped with position `swaps[k] % (k + 1)`. */
  function ShuffleFrom(s: seq<string>, swaps: seq<nat>, i: nat): seq<string>
    requires i <= |s| <= |swaps|
    decreases i
  {
    if i <= 1 then s else ShuffleFrom(Swap(s, i - 1, swaps[i - 1] % i), swaps, i - 1)
  }

  function Shuffled(s: seq<string>, swaps: seq<nat>): seq<string>
    requires |s| <= |swaps|
  {
    ShuffleFrom(s, swaps, |s|)
  }

  lemma SwapPermutes(s: seq<string>, i: nat, j: nat)
    requires i < |s| && j < |s|
    ensures |Swap(s, i, j)| == |s| && multiset(Swap(s, i, j)) == multiset(s)
  {
  }

  /** The shuffle is a permutation. */
  lemma {:induction false} ShuffleFromPermutes(s: seq<string>, swaps: seq<nat>, i: nat)
    requires i <= |s| <= |swaps|
    ensures |ShuffleFrom(s, swaps, i)| == |s|
    ensures multiset(ShuffleFrom(s, swaps, i)) == multiset(s)
    decreases i
  {
    if i > 1 {
      var t := Swap(s, i - 1, swaps[i - 1] % i);
      SwapPermutes(s, i - 1, swaps[i - 1] % i);
      ShuffleFromPermutes(t, swaps, i - 1);
    }
  }

  /** `word_letters.shuffle(&mut rng)`, in place. */
  method Shuffle(a: array<string>, swaps: seq<nat>)
    requires a.Length <= |swaps|
    modifies a
    ensures a[..] == Shuffled(old(a[..]), swaps)
    ensures multiset(a[..]) == multiset(old(a[..]))
  {
    var i := a.Length;
    while i > 1
      invariant 0 <= i <= a.Length
      invariant ShuffleFrom(a[..], swaps, i) == Shuffled(old(a[..]), swaps)
      decreases i
    {
      var j := swaps[i - 1] % i;
      ghost var before := a[..];
      a[i - 1], a[j] := a[j], a[i - 1];
      assert a[..] == Swap(before, i - 1, j);
      i := i - 1;
    }
    ShuffleFromPermutes(old(a[..]), swaps, a.Length);
  }

  // ---------------------------------------------------------------------------
  // Facts about the grid

  /** The pushed letters are distractors, so never letters of the word. */
  lemma PickedAvoidWord(alphabet: seq<string>, wordLetters: seq<string>, picks: seq<nat>, count: nat)
    requires count <= |picks|
    ensures forall x | x in Picked(Distractors(alphabet, wordLetters), picks, count) ::
      x in alphabet && x !in wordLetters
  {
  }

  /** The length of the grid: the word's length when the alphabet has no
      distractor to offer, otherwise at least twelve. */
  lemma UnshuffledLength(word: string, alphabet: seq<string>, picks: seq<nat>)
    requires Needed(|word|) <= |picks|
    ensures var d := Distractors(alphabet, WordLetters(word));
      |Unshuffled(word, alphabet, picks)| == if d == [] then |word| else FullGridLength(|word|)
  {
  }

  /** Every word letter occurs in the grid exactly as often as in the word, and
      every other grid entry is a distractor. */
  lemma UnshuffledCounts(word: string, alphabet: seq<string>, picks: seq<nat>)
    requires Needed(|word|) <= |picks|
    ensures var letters := WordLetters(word);
      var g := Unshuffled(word, alphabet, picks);
      (forall x | x in letters :: multiset(g)[x] == multiset(letters)[x]) &&
      (forall x | x in g && x !in letters :: x in Distractors(alphabet, letters))
  {
    var letters := WordLetters(word);
    var p := Picked(Distractors(alphabet, letters), picks, Needed(|letters|));
    PickedAvoidWord(alphabet, letters, picks, Needed(|letters|));
    assert multiset(Unshuffled(word, alphabet, picks)) == multiset(letters) + multiset(p);
    forall x | x in letters ensures multiset(p)[x] == 0 {
    }
  }

  /** Every permutation of the unshuffled grid has its length, holds every
      word letter exactly as often as the word does, and holds nothing but
      word letters and distractors. */
  lemma PermutedGridFacts(word: string, alphabet: seq<string>, picks: seq<nat>, grid: seq<string>)
    requires Needed(|word|) <= |picks|
    requires multiset(grid) == multiset(Unshuffled(word, alphabet, picks))
    ensures |grid| == if Distractors(alphabet, WordLetters(word)) == [] then |word| else FullGridLength(|word|)
    ensures forall x | x in WordLetters(word) :: multiset(grid)[x] == multiset(WordLetters(word))[x]
    ensures forall x | x in grid && x !in WordLetters(word) :: x in Distractors(alphabet, WordLetters(word))
  {
    var u := Unshuffled(word, alphabet, picks);
    assert |grid| == |multiset(grid)| == |u|;
    UnshuffledLength(word, alphabet, picks);
    UnshuffledCounts(word, alphabet, picks);
    forall x | x in grid ensures x in u {
      assert x in multiset(grid);
    }
  }

  /** One more round of `choose` pushes one more distractor, if there is any. */
  lemma PickedStep(distractors: seq<string>, picks: seq<nat>, count: nat)
    requires count < |picks|
    ensures Picked(distractors, picks, count + 1)
         == if distractors == [] then Picked(distractors, picks, count)
            else Picked(distractors, picks, count) + [distractors[picks[count] % |distractors|]]
  {
  }

  lemma ConcatAssoc(a: seq<string>, b: seq<string>, c: seq<string>)
    ensures (a + b) + c == a + (b + c)
  {
  }

  /** `word_letters` grown by the `for _ in 0..needed_letters` loop. */
  method PushDistractors(word: string, alphabet: seq<string>, picks: seq<nat>)
    returns (wordLetters: seq<string>)
    requires Needed(|word|) <= |picks|
    ensures wordLetters == Unshuffled(word, alphabet, picks)
  {
    wordLetters := WordLetters(word);
    ghost var letters := wordLetters;
    var needed := Needed(|wordLetters|);
    var distractors := Distractors(alphabet, wordLetters);
    var k := 0;
    while k < needed
      invariant 0 <= k <= needed
      invariant wordLetters == letters + Picked(distractors, picks, k)
    {
      PickedStep(distractors, picks, k);
      if |distractors| > 0 {
        var letter := distractors[picks[k] % |distractors|];
        ConcatAssoc(letters, Picked(distractors, picks, k), [letter]);
        wordLetters := wordLetters + [letter];
      }
      k := k + 1;
    }
  }

  /** The grid-building part of the `LetterGrid` effect, after the alphabet has arrived. */
  method BuildGrid(word: string, alphabet: seq<string>, picks: seq<nat>, swaps: seq<nat>)
    returns (grid: seq<string>)
    requires Needed(|word|) <= |picks|
    requires |word| + Needed(|word|) <= |swaps|
    ensures grid == Shuffled(Unshuffled(word, alphabet, picks), swaps)
    ensures |grid| == if Distractors(alphabet, WordLetters(word)) == [] then |word| else FullGridLength(|word|)
    ensures forall x | x in WordLetters(word) :: multiset(grid)[x] == multiset(WordLetters(word))[x]
    ensures forall x | x in grid && x !in WordLetters(word) :: x in Distractors(alphabet, WordLetters(word))
  {
    var wordLetters := PushDistractors(word, alphabet, picks);
    UnshuffledLength(word, alphabet, picks);
    var a := new string[|wordLetters|](i requires 0 <= i < |wordLetters| => wordLetters[i]);
    assert a[..] == wordLetters;
    Shuffle(a, swaps);
    grid := a[..];
    PermutedGridFacts(word, alphabet, picks, grid);
  }

  /** A repeated letter keeps both of its cells. */
  lemma DuplicatesKept()
    ensures WordLetters("aa") == ["a", "a"]
  {
  }
}
