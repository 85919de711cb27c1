/** Splitting text at a separator. */
module Texts {

  /** strings.Split for a one-character separator. */
  function Split(s: string, sep: char): (words: seq<string>)
    ensures |words| >= 1
  {
    if s == "" then [""] else
    var rest := Split(s[1..], sep);
    if s[0] == sep then [""] + rest else [[s[0]] + rest[0]] + rest[1..]
  }

  lemma {:induction false} SplitWord(w: string, sep: char)
    requires sep !in w
    ensures Split(w, sep) == [w]
  {
    if w != "" {
      SplitWord(w[1..], sep);
      assert [w[0]] + w[1..] == w;
    }
  }

  /** Splitting undoes appending a separator and a word. */
  lemma {:induction false} SplitAppend(s: string, w: string, sep: char)
    requires sep !in w
    ensures Split(s + [sep] + w, sep) == Split(s, sep) + [w]
  {
    if s == "" {
      SplitWord(w, sep);
      assert ("" + [sep] + w)[1..] == w;
    } else {
      SplitAppend(s[1..], w, sep);
      assert (s + [sep] + w)[1..] == s[1..] + [sep] + w;
      assert (s + [sep] + w)[0] == s[0];
    }
  }

  lemma {:induction false} SplitSeparated(s: string, sep: char)
    requires sep in s
    ensures |Split(s, sep)| >= 2
  {
    if s[0] != sep {
      assert sep in s[1..];
      SplitSeparated(s[1..], sep);
    }
  }
}
