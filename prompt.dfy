/**
 * `generate_prompt`: flip a coin for the fragment length, then draw
 * candidate fragments letter by letter until one is contained in at least
 * `wpp` dictionary words. The random source is injected: `Rng` carries the
 * coin and the stream of letter draws; the stream is finite, so a run that
 * uses it up without accepting yields `None`, where the program would keep
 * drawing forever.
 */
module Prompt {
  import opened Wrappers
  import opened Words

  /** The coin (`rng.gen::<f64>()`) and the successive letter draws of one call. */
  datatype Rng = Rng(coin: real, letters: seq<nat>)

  /** Three letters when the coin exceeds 0.8, two otherwise. */
  function PromptLength(coin: real): (len: nat)
    ensures len == 2 || len == 3
    ensures len == 3 <==> coin > 0.8
  {
    if coin > 0.8 then 3 else 2
  }

  /**
   * `rng.gen_range(b'A'..b'Z') as char`: the range excludes 'Z', so a draw is
   * one of the 25 letters 'A'..'Y'.
   */
  function Letter(draw: nat): (c: char)
    ensures 'A' <= c <= 'Y'
  {
    ('A' as int + draw % 25) as char
  }

  /** Every one of the 25 letters can be drawn: the draw `c - 'A'` gives `c`. */
  lemma LetterOnto(c: char)
    requires 'A' <= c <= 'Y'
    ensures Letter((c as int - 'A' as int) as nat) == c
  {
  }

  /** The fragment spelled by a run of letter draws. */
  function Spell(draws: seq<nat>): (fragment: string)
    ensures |fragment| == |draws|
    ensures forall k :: 0 <= k < |draws| ==> fragment[k] == Letter(draws[k])
  {
    seq(|draws|, k requires 0 <= k < |draws| => Letter(draws[k]))
  }

  /** Every character is one of the letters a draw can give. */
  predicate DrawnLetters(fragment: string) {
    forall k :: 0 <= k < |fragment| ==> 'A' <= fragment[k] <= 'Y'
  }

  /**
   * The counting loop returns as soon as, after some word, the counter reaches
   * `wpp`; it never returns for an empty dictionary, whatever `wpp` is.
   */
  predicate Accepts(dictionary: seq<string>, wpp: nat, fragment: string) {
    |dictionary| > 0 && CountContaining(dictionary, fragment) >= wpp
  }

  /** What `generate_prompt` can return for a given dictionary and threshold. */
  predicate IsPrompt(dictionary: seq<string>, wpp: nat, prompt: string) {
    (|prompt| == 2 || |prompt| == 3) && DrawnLetters(prompt) && Accepts(dictionary, wpp, prompt)
  }

  /** The first candidate of `len` letters, drawn from `draws`, that is accepted. */
  function FirstAccepted(dictionary: seq<string>, wpp: nat, len: nat, draws: seq<nat>): (prompt: Option<string>)
    requires len > 0
    ensures prompt.Some? ==>
      |prompt.value| == len && DrawnLetters(prompt.value) && Accepts(dictionary, wpp, prompt.value)
    decreases |draws|
  {
    if |draws| < len then None
    else if Accepts(dictionary, wpp, Spell(draws[..len])) then Some(Spell(draws[..len]))
    else FirstAccepted(dictionary, wpp, len, draws[len..])
  }

  /** The prompt one call of `generate_prompt` returns, given its random draws. */
  function Generate(dictionary: seq<string>, wpp: nat, rng: Rng): (prompt: Option<string>)
    ensures prompt.Some? ==> IsPrompt(dictionary, wpp, prompt.value) && |prompt.value| == PromptLength(rng.coin)
    ensures dictionary == [] ==> prompt == None
  {
    FirstAccepted(dictionary, wpp, PromptLength(rng.coin), rng.letters)
  }

  /** With an empty dictionary no draw is ever accepted: the program's loop does not end. */
  lemma EmptyDictionaryNeverAccepts(wpp: nat, len: nat, draws: seq<nat>)
    requires len > 0
    ensures FirstAccepted([], wpp, len, draws) == None
  {
  }

  /** With `wpp == 0` and a non-empty dictionary the very first candidate is taken. */
  lemma FirstCandidateWhenThresholdZero(dictionary: seq<string>, rng: Rng)
    requires |dictionary| > 0 && |rng.letters| >= PromptLength(rng.coin)
    ensures Generate(dictionary, 0, rng) == Some(Spell(rng.letters[..PromptLength(rng.coin)]))
  {
  }

  /**
   * The counting loop of `generate_prompt`: count the words containing the
   * candidate and stop as soon as, after some word, the count reaches `wpp`.
   */
  method ScanDictionary(dictionary: seq<string>, wpp: nat, candidate: string) returns (accepted: bool)
    ensures accepted == Accepts(dictionary, wpp, candidate)
  {
    var counter := 0;
    var j := 0;
    while j < |dictionary|
      invariant j <= |dictionary|
      invariant counter == CountContaining(dictionary[..j], candidate)
      invariant j > 0 ==> counter < wpp
    {
      if Contains(dictionary[j], candidate) {
        counter := counter + 1;
      }
      assert dictionary[..j + 1][..j] == dictionary[..j];
      if counter >= wpp {
        CountPrefixAtMost(dictionary, candidate, j + 1);
        return true;
      }
      j := j + 1;
    }
    assert dictionary[..j] == dictionary;
    return false;
  }

  /** `generate_prompt`, run on the injected draws. */
  method GeneratePrompt(dictionary: seq<string>, wpp: nat, rng: Rng) returns (prompt: Option<string>)
    ensures prompt == Generate(dictionary, wpp, rng)
    ensures prompt.Some? ==> IsPrompt(dictionary, wpp, prompt.value)
  {
    var len := PromptLength(rng.coin);
    var next := 0;
    while next + len <= |rng.letters|
      invariant next <= |rng.letters|
      invariant FirstAccepted(dictionary, wpp, len, rng.letters[next..]) == Generate(dictionary, wpp, rng)
      decreases |rng.letters| - next
    {
      var candidate := "";
      var k := 0;
      while k < len
        invariant k <= len
        invariant candidate == Spell(rng.letters[next..next + k])
      {
        candidate := candidate + [Letter(rng.letters[next + k])];
        k := k + 1;
      }
      assert rng.letters[next..][..len] == rng.letters[next..next + len];
      var accepted := ScanDictionary(dictionary, wpp, candidate);
      if accepted {
        return Some(candidate);
      }
      assert rng.letters[next..][len..] == rng.letters[next + len..];
      next := next + len;
    }
    return None;
  }
}
