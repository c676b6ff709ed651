/**
 * Loading the word list in `init_app`: the text is split on '\n', one
 * trailing '\r' is stripped from every line, and a set with the same words
 * serves membership queries.
 */
module Dictionary {

  /** The segments of `s` between '\n' characters, like `str::split('\n')`. */
  function Split(s: string): (parts: seq<string>)
    ensures |parts| >= 1
    ensures forall k :: 0 <= k < |parts| ==> '\n' !in parts[k]
    decreases |s|
  {
    if s == [] then [[]]
    else
      var rest := Split(s[1..]);
      if s[0] == '\n' then [[]] + rest
      else [[s[0]] + rest[0]] + rest[1..]
  }

  /** The segments written back with a '\n' between each two. */
  function Join(parts: seq<string>): string
    requires |parts| >= 1
    decreases |parts|
  {
    if |parts| == 1 then parts[0] else parts[0] + "\n" + Join(parts[1..])
  }

  lemma JoinPrepend(c: char, parts: seq<string>)
    requires |parts| >= 1
    ensures Join([[c] + parts[0]] + parts[1..]) == [c] + Join(parts)
  {
  }

  /** Joining the segments gives back the text: nothing is lost or added by the split. */
  lemma {:induction false} JoinSplit(s: string)
    ensures Join(Split(s)) == s
    decreases |s|
  {
    if s != [] {
      var rest := Split(s[1..]);
      JoinSplit(s[1..]);
      if s[0] == '\n' {
        assert ([[]] + rest)[1..] == rest;
        assert s == "\n" + s[1..];
      } else {
        JoinPrepend(s[0], rest);
        assert s == [s[0]] + s[1..];
      }
    }
  }

  lemma {:induction false} SplitLine(w: string)
    requires '\n' !in w
    ensures Split(w) == [w]
    decreases |w|
  {
    if w != [] {
      SplitLine(w[1..]);
      assert [w[0]] + w[1..] == w;
    }
  }

  lemma {:induction false} SplitLineThenRest(w: string, t: string)
    requires '\n' !in w
    ensures Split(w + "\n" + t) == [w] + Split(t)
    decreases |w|
  {
    var s := w + "\n" + t;
    if w == [] {
      assert s[1..] == t;
    } else {
      assert s[1..] == w[1..] + "\n" + t;
      SplitLineThenRest(w[1..], t);
      assert [w[0]] + w[1..] == w;
    }
  }

  /** Any list of '\n'-free segments is recovered by splitting its join: the split is the only such segmentation. */
  lemma {:induction false} SplitJoin(parts: seq<string>)
    requires |parts| >= 1
    requires forall k :: 0 <= k < |parts| ==> '\n' !in parts[k]
    ensures Split(Join(parts)) == parts
    decreases |parts|
  {
    if |parts| == 1 {
      SplitLine(parts[0]);
    } else {
      SplitJoin(parts[1..]);
      SplitLineThenRest(parts[0], Join(parts[1..]));
    }
  }

  /** The line ends with a carriage return. */
  predicate EndsWithCr(line: string) {
    |line| > 0 && line[|line| - 1] == '\r'
  }

  /** `line.strip_suffix("\r").unwrap_or(line)`: at most one trailing '\r' is removed. */
  function StripCr(line: string): (entry: string)
    ensures entry + (if EndsWithCr(line) then "\r" else "") == line
  {
    if EndsWithCr(line) then line[..|line| - 1] else line
  }

  /** Only one carriage return goes, even when the line ends with two. */
  lemma StripCrOnce(w: string)
    ensures StripCr(w + "\r\r") == w + "\r"
  {
  }

  /** The dictionary of `init_app`: the split lines of the word list, each without its trailing '\r'. */
  function Parse(wordList: string): (dictionary: seq<string>)
    ensures |dictionary| == |Split(wordList)| >= 1
    ensures forall k :: 0 <= k < |dictionary| ==>
      '\n' !in dictionary[k] &&
      dictionary[k] + (if EndsWithCr(Split(wordList)[k]) then "\r" else "") == Split(wordList)[k]
  {
    var lines := Split(wordList);
    seq(|lines|, k requires 0 <= k < |lines| => StripCr(lines[k]))
  }

  /** `HashSet::from_iter(dictionary)`: the same words, as a set. */
  function ToSet(dictionary: seq<string>): (words: set<string>)
    ensures forall w :: w in words <==> w in dictionary
    ensures |words| <= |dictionary|
  {
    if dictionary == [] then {}
    else ToSet(dictionary[1..]) + {dictionary[0]}
  }
}
