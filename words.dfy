/**
 * Word-level helpers of the game: substring search (`str::contains`), ASCII
 * upper-casing, counting the dictionary words that contain a fragment (the
 * inner loop of `generate_prompt`) and the word check of `check_word`.
 */
module Words {

  /** `p` is a prefix of `s`. */
  predicate IsPrefix(p: string, s: string) {
    |p| <= |s| && s[..|p|] == p
  }

  /** `s.contains(sub)`: try every starting position from left to right. */
  predicate Contains(s: string, sub: string)
    ensures Contains(s, sub) ==> |sub| <= |s|
    ensures sub == [] ==> Contains(s, sub)
    ensures s == sub ==> Contains(s, sub)
    decreases |s|
  {
    IsPrefix(sub, s) || (|s| > 0 && Contains(s[1..], sub))
  }

  /** Reference definition: `sub` occurs in `s` starting at index `i`. */
  ghost predicate OccursAt(s: string, sub: string, i: int) {
    0 <= i && i + |sub| <= |s| && s[i..i + |sub|] == sub
  }

  lemma {:induction false} ContainsHasOccurrence(s: string, sub: string)
    requires Contains(s, sub)
    ensures exists i :: OccursAt(s, sub, i)
    decreases |s|
  {
    if IsPrefix(sub, s) {
      assert OccursAt(s, sub, 0);
    } else {
      ContainsHasOccurrence(s[1..], sub);
      var i :| OccursAt(s[1..], sub, i);
      assert s[1..][i..i + |sub|] == s[i + 1..i + 1 + |sub|];
      assert OccursAt(s, sub, i + 1);
    }
  }

  lemma {:induction false} OccurrenceGivesContains(s: string, sub: string, i: int)
    requires OccursAt(s, sub, i)
    ensures Contains(s, sub)
    decreases i
  {
    if i == 0 {
      assert IsPrefix(sub, s);
    } else {
      assert s[1..][i - 1..i - 1 + |sub|] == s[i..i + |sub|];
      OccurrenceGivesContains(s[1..], sub, i - 1);
    }
  }

  /** The left-to-right scan finds `sub` exactly when it occurs somewhere in `s`. */
  lemma ContainsIffOccurs(s: string, sub: string)
    ensures Contains(s, sub) <==> exists i :: OccursAt(s, sub, i)
  {
    if Contains(s, sub) {
      ContainsHasOccurrence(s, sub);
    }
    if exists i :: OccursAt(s, sub, i) {
      var i :| OccursAt(s, sub, i);
      OccurrenceGivesContains(s, sub, i);
    }
  }

  /** ASCII upper-casing of one character; every other character is unchanged. */
  function UpperChar(c: char): (u: char)
    ensures !('a' <= u <= 'z')
    ensures !('a' <= c <= 'z') ==> u == c
    ensures 'a' <= c <= 'z' ==> 'A' <= u <= 'Z' && u as int + 32 == c as int
  {
    if 'a' <= c <= 'z' then (c as int - 32) as char else c
  }

  /** `str::to_uppercase`, restricted to ASCII letters. */
  function Upper(s: string): (u: string)
    ensures |u| == |s|
    ensures forall k :: 0 <= k < |s| ==> u[k] == UpperChar(s[k])
  {
    seq(|s|, k requires 0 <= k < |s| => UpperChar(s[k]))
  }

  /** Upper-casing twice is upper-casing once. */
  lemma UpperIdempotent(s: string)
    ensures Upper(Upper(s)) == Upper(s)
  {
  }

  /** Number of words in `words` that contain `fragment`. */
  function CountContaining(words: seq<string>, fragment: string): (n: nat)
    ensures n <= |words|
    decreases |words|
  {
    if words == [] then 0
    else
      CountContaining(words[..|words| - 1], fragment)
        + (if Contains(words[|words| - 1], fragment) then 1 else 0)
  }

  /** Reference definition: the positions of the words that contain `fragment`. */
  ghost function Matching(words: seq<string>, fragment: string): set<nat> {
    set k: nat | k < |words| && Contains(words[k], fragment)
  }

  /** The count is the number of matching words (a naive scan over the list). */
  lemma {:induction false} CountIsMatchingSize(words: seq<string>, fragment: string)
    ensures CountContaining(words, fragment) == |Matching(words, fragment)|
    decreases |words|
  {
    if words != [] {
      var n := |words| - 1;
      var front := words[..n];
      CountIsMatchingSize(front, fragment);
      var m, mf := Matching(words, fragment), Matching(front, fragment);
      if Contains(words[n], fragment) {
        assert m == mf + {n};
        assert n !in mf;
      } else {
        assert m == mf;
      }
    }
  }

  /** Counting over a prefix of the list never gives more than counting over all of it. */
  lemma {:induction false} CountPrefixAtMost(words: seq<string>, fragment: string, j: nat)
    requires j <= |words|
    ensures CountContaining(words[..j], fragment) <= CountContaining(words, fragment)
    decreases |words| - j
  {
    if j < |words| {
      var n := |words| - 1;
      assert words[..n][..j] == words[..j];
      CountPrefixAtMost(words[..n], fragment, j);
    } else {
      assert words[..j] == words;
    }
  }

  /** `check_word`: the upper-cased input contains the prompt and is in the dictionary set. */
  function CheckWord(input: string, prompt: string, dictionarySet: set<string>): (ok: bool)
    ensures ok ==> Upper(input) in dictionarySet && |prompt| <= |input|
    ensures Upper(input) !in dictionarySet ==> !ok
  {
    var word := Upper(input);
    Contains(word, prompt) && word in dictionarySet
  }

  /** The check accepts exactly the inputs whose upper-cased form is a dictionary word with the prompt inside it. */
  lemma CheckWordMeaning(input: string, prompt: string, dictionarySet: set<string>)
    ensures CheckWord(input, prompt, dictionarySet)
        <==> Upper(input) in dictionarySet && exists i :: OccursAt(Upper(input), prompt, i)
  {
    ContainsIffOccurs(Upper(input), prompt);
  }

  /** The check ignores the case of the input. */
  lemma CheckWordIgnoresCase(input: string, prompt: string, dictionarySet: set<string>)
    ensures CheckWord(Upper(input), prompt, dictionarySet) == CheckWord(input, prompt, dictionarySet)
  {
    UpperIdempotent(input);
  }

  /**
   * With the dictionary {"CRANE", "PLANE"} and the prompt "AN": "plane" is
   * accepted, "zzzz" and "ane" are not ("ane" contains "AN" but is no word).
   */
  lemma CheckWordExamples()
    ensures CheckWord("plane", "AN", {"CRANE", "PLANE"})
    ensures !CheckWord("zzzz", "AN", {"CRANE", "PLANE"})
    ensures !CheckWord("ane", "AN", {"CRANE", "PLANE"})
  {
    assert Upper("plane") == "PLANE";
    assert Upper("zzzz") == "ZZZZ";
    assert Upper("ane") == "ANE";
    assert OccursAt("PLANE", "AN", 2);
    OccurrenceGivesContains("PLANE", "AN", 2);
  }
}
