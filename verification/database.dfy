/** `Word::first_word_no_spaces` (src/database.rs): the first
    whitespace-delimited token of a word fetched from the word store, which
    must have one. Whitespace is the Unicode White_Space property, the one
    Rust's `char::is_whitespace` and `str::split_whitespace` use. */
module Database {

  datatype Option<T> = None | Some(value: T)

  /** The code points with the Unicode White_Space property. */
  predicate IsWhitespace(c: char) {
    var n := c as int;
    (0x09 <= n <= 0x0D) || n == 0x20 || n == 0x85 || n == 0xA0 || n == 0x1680 ||
    (0x2000 <= n <= 0x200A) || n == 0x2028 || n == 0x2029 || n == 0x202F ||
    n == 0x205F || n == 0x3000
  }

  /** Tab, line feed and space are whitespace; the zero-width space U+200B is not. */
  lemma WhitespaceExamples()
    ensures IsWhitespace('\t') && IsWhitespace('\n') && IsWhitespace(' ') && IsWhitespace('\U{3000}')
    ensures !IsWhitespace('a') && !IsWhitespace('\U{200B}')
  {
  }

  predicate AllWhitespace(s: string) {
    forall i | 0 <= i < |s| :: IsWhitespace(s[i])
  }

  predicate NoWhitespace(s: string) {
    forall i | 0 <= i < |s| :: !IsWhitespace(s[i])
  }

  /** The length of the longest all-whitespace prefix. */
  function LeadingWhitespace(s: string): (n: nat)
    ensures n <= |s|
    ensures AllWhitespace(s[..n])
    ensures n < |s| ==> !IsWhitespace(s[n])
  {
    if s == [] || !IsWhitespace(s[0]) then 0 else 1 + LeadingWhitespace(s[1..])
  }

  /** The length of the longest whitespace-free prefix. */
  function TokenLength(s: string): (n: nat)
    ensures n <= |s|
    ensures NoWhitespace(s[..n])
    ensures n < |s| ==> IsWhitespace(s[n])
  {
    if s == [] || IsWhitespace(s[0]) then 0 else 1 + TokenLength(s[1..])
  }

  /** `s.split_whitespace().next()`: the first token, or nothing when `s` is all whitespace. */
  function FirstToken(s: string): (r: Option<string>)
    ensures r.None? <==> AllWhitespace(s)
    ensures r.Some? ==> r.value != [] && NoWhitespace(r.value)
  {
    var k := LeadingWhitespace(s);
    if k == |s| then
      assert s[..k] == s;
      None
    else
      var n := TokenLength(s[k..]);
      assert n > 0 by {
        assert s[k..][0] == s[k];
      }
      assert !AllWhitespace(s) by {
        assert !IsWhitespace(s[k]);
      }
      Some(s[k..][..n])
  }

  /** `Word::first_word_no_spaces`; the `expect` panics when the word is all
      whitespace, so callers must supply a word with some other char. */
  function FirstWordNoSpaces(word: string): (r: string)
    requires !AllWhitespace(word)
    ensures r != [] && NoWhitespace(r)
  {
    FirstToken(word).value
  }

  /** `word` is some whitespace, then `token`, then nothing or a whitespace char and the rest. */
  ghost predicate SplitsAt(word: string, lead: string, token: string, rest: string) {
    word == lead + token + rest && AllWhitespace(lead) &&
    token != [] && NoWhitespace(token) && (rest == [] || IsWhitespace(rest[0]))
  }

  /** The first word is the token that starts after the leading whitespace. */
  lemma FirstWordIsSlice(word: string)
    requires !AllWhitespace(word)
    ensures var k := LeadingWhitespace(word);
      k < |word| && FirstWordNoSpaces(word) == word[k..][..TokenLength(word[k..])]
  {
    var r := FirstToken(word);
    assert r.Some?;
    assert LeadingWhitespace(word) < |word|;
  }

  /** Cutting a word at `k` and `k + n` splits it when the pieces have the right shape. */
  lemma SplitAround(word: string, k: nat, n: nat)
    requires 0 < n && k + n <= |word|
    requires AllWhitespace(word[..k])
    requires NoWhitespace(word[k..][..n])
    requires n < |word[k..]| ==> IsWhitespace(word[k..][n])
    ensures SplitsAt(word, word[..k], word[k..][..n], word[k + n..])
  {
    assert word[k..][..n] == word[k..k + n];
    assert word[..k] + word[k..k + n] == word[..k + n];
    assert word == word[..k + n] + word[k + n..];
    if k + n < |word| {
      assert word[k + n..][0] == word[k..][n];
    }
  }

  /** A split around `token` is a witness that one exists. */
  lemma SplitWitness(word: string, lead: string, token: string, rest: string)
    requires SplitsAt(word, lead, token, rest)
    ensures exists lead', rest' :: SplitsAt(word, lead', token, rest')
  {
  }

  /** The result is the first token: the word splits around it. */
  lemma FirstWordSplits(word: string)
    requires !AllWhitespace(word)
    ensures exists lead, rest :: SplitsAt(word, lead, FirstWordNoSpaces(word), rest)
  {
    var k := LeadingWhitespace(word);
    FirstWordIsSlice(word);
    var n := TokenLength(word[k..]);
    SplitAround(word, k, n);
    SplitWitness(word, word[..k], FirstWordNoSpaces(word), word[k + n..]);
  }

  /** And only the first token splits the word that way. */
  lemma SplitDeterminesFirstWord(word: string, lead: string, token: string, rest: string)
    requires SplitsAt(word, lead, token, rest)
    ensures !AllWhitespace(word) && FirstWordNoSpaces(word) == token
  {
    var m := |lead|;
    assert word[m] == token[0];
    var k := LeadingWhitespace(word);
    assert word[..m] == lead;
    assert k == m;
    var after := word[k..];
    assert after == token + rest;
    var n := TokenLength(after);
    assert forall i | 0 <= i < n :: !IsWhitespace(after[i]) by {
      forall i | 0 <= i < n ensures !IsWhitespace(after[i]) {
        assert after[..n][i] == after[i];
      }
    }
    assert forall i | 0 <= i < |token| :: after[i] == token[i];
    assert |token| < |after| ==> after[|token|] == rest[0];
    assert n == |token|;
    assert after[..n] == token;
  }

  /** A word without whitespace is its own first word. */
  lemma FirstWordOfSingleToken(word: string)
    requires word != [] && NoWhitespace(word)
    ensures !AllWhitespace(word) && FirstWordNoSpaces(word) == word
  {
    assert word == [] + word + [];
    SplitDeterminesFirstWord(word, [], word, []);
  }

  /** Taking the first word twice is the same as taking it once. */
  lemma FirstWordIdempotent(word: string)
    requires !AllWhitespace(word)
    ensures FirstWordNoSpaces(FirstWordNoSpaces(word)) == FirstWordNoSpaces(word)
  {
    FirstWordOfSingleToken(FirstWordNoSpaces(word));
  }

  /** Only the first word of a phrase is kept. */
  lemma FirstWordOfPhrase()
    ensures !AllWhitespace("  hello world") && FirstWordNoSpaces("  hello world") == "hello"
  {
    SplitDeterminesFirstWord("  hello world", "  ", "hello", " world");
  }
}
