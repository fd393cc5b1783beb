/**
 * Splitting a command line into words and joining words back into one.
 *
 * `Split` models `shlex.split` on text that contains no quote or escape
 * characters: POSIX shell words separated by runs of space, tab, carriage
 * return or newline. `Join` models `" ".join(words)`, and `Interleave`
 * is the general "join with a separator" used for paths as well.
 */
module Words {

  /** The characters `shlex` treats as whitespace. */
  const Blanks: set<char> := {' ', '\t', '\r', '\n'}

  /** The characters `shlex` gives a meaning of their own: quotes and the escape. */
  const Quotes: set<char> := {'\'', '"', '\\'}

  /** No character of `s` is one of `cs`. */
  predicate Avoids(s: string, cs: set<char>) {
    forall i :: 0 <= i < |s| ==> s[i] !in cs
  }

  predicate IsBlank(c: char) {
    c in Blanks
  }

  predicate NoBlanks(s: string) {
    Avoids(s, Blanks)
  }

  /** Text on which `shlex.split` is plain whitespace splitting. */
  predicate NoQuotes(s: string) {
    Avoids(s, Quotes)
  }

  /** A shell word: non-empty and without whitespace. */
  predicate IsWord(s: string) {
    s != [] && NoBlanks(s)
  }

  /** The elements of `xs` with `sep` between consecutive ones. */
  function Interleave(sep: char, xs: seq<string>): string
  {
    if |xs| == 0 then ""
    else if |xs| == 1 then xs[0]
    else xs[0] + [sep] + Interleave(sep, xs[1..])
  }

  /** `" ".join(words)`: the first word, then a single space before each further word. */
  function Join(words: seq<string>): (line: string)
    ensures words == [] ==> line == ""
    ensures |words| >= 1 ==> words[0] <= line
    ensures |words| >= 2 ==> |line| > |words[0]| && line[|words[0]|] == ' '
  {
    Interleave(' ', words)
  }

  /** The word being read, emitted when a blank or the end of the text is reached. */
  function Flush(word: string): seq<string> {
    if word == [] then [] else [word]
  }

  /** Splits `s` into words, `word` being the characters of the current word read so far. */
  function SplitFrom(s: string, word: string): (words: seq<string>)
    requires NoBlanks(word)
    ensures forall i :: 0 <= i < |words| ==> IsWord(words[i])
    decreases |s|
  {
    if s == [] then Flush(word)
    else if IsBlank(s[0]) then Flush(word) + SplitFrom(s[1..], "")
    else SplitFrom(s[1..], word + [s[0]])
  }

  /** `shlex.split(s)` for text without quotes or backslashes. */
  function Split(s: string): (words: seq<string>)
    ensures forall i :: 0 <= i < |words| ==> IsWord(words[i])
  {
    SplitFrom(s, "")
  }

  lemma AvoidsAppend(a: string, b: string, cs: set<char>)
    ensures Avoids(a + b, cs) <==> Avoids(a, cs) && Avoids(b, cs)
  {
    if Avoids(a, cs) && Avoids(b, cs) {
      forall i | 0 <= i < |a + b| ensures (a + b)[i] !in cs {
        if i < |a| { assert (a + b)[i] == a[i]; } else { assert (a + b)[i] == b[i - |a|]; }
      }
    }
    if Avoids(a + b, cs) {
      forall i | 0 <= i < |a| ensures a[i] !in cs { assert (a + b)[i] == a[i]; }
      forall i | 0 <= i < |b| ensures b[i] !in cs { assert (a + b)[|a| + i] == b[i]; }
    }
  }

  lemma AvoidsTail(s: string, cs: set<char>)
    requires s != [] && Avoids(s, cs)
    ensures s[0] !in cs && Avoids(s[1..], cs)
  {
    forall i | 0 <= i < |s[1..]| ensures s[1..][i] !in cs { assert s[1..][i] == s[i + 1]; }
  }

  /** Every word split from text avoiding `cs` avoids `cs` too. */
  lemma {:induction false} SplitFromAvoids(s: string, word: string, cs: set<char>)
    requires NoBlanks(word)
    requires Avoids(s, cs) && Avoids(word, cs)
    ensures forall i :: 0 <= i < |SplitFrom(s, word)| ==> Avoids(SplitFrom(s, word)[i], cs)
    decreases |s|
  {
    if s != [] {
      AvoidsTail(s, cs);
      if IsBlank(s[0]) {
        SplitFromAvoids(s[1..], "", cs);
      } else {
        AvoidsAppend(word, [s[0]], cs);
        AvoidsAppend(word, [s[0]], Blanks);
        SplitFromAvoids(s[1..], word + [s[0]], cs);
      }
    }
  }

  /** Reading the blank-free text `w` only extends the current word. */
  lemma {:induction false} SplitFromWordPrefix(w: string, rest: string, word: string)
    requires NoBlanks(w) && NoBlanks(word)
    ensures NoBlanks(word + w)
    ensures SplitFrom(w + rest, word) == SplitFrom(rest, word + w)
    decreases |w|
  {
    AvoidsAppend(word, w, Blanks);
    if w != [] {
      assert (w + rest)[0] == w[0] && (w + rest)[1..] == w[1..] + rest;
      AvoidsTail(w, Blanks);
      AvoidsAppend(word, [w[0]], Blanks);
      SplitFromWordPrefix(w[1..], rest, word + [w[0]]);
      assert word + [w[0]] + w[1..] == word + w;
    } else {
      assert w + rest == rest && word + w == word;
    }
  }

  /**
   * Joining shell words with single spaces and splitting again gives the
   * words back. The words are required to be free of quotes and
   * backslashes, the text on which `Split` is `shlex.split`.
   */
  lemma {:induction false} SplitJoin(words: seq<string>)
    requires forall i :: 0 <= i < |words| ==> IsWord(words[i]) && NoQuotes(words[i])
    ensures Split(Join(words)) == words
    decreases |words|
  {
    if |words| == 1 {
      SplitFromWordPrefix(words[0], "", "");
      assert words[0] + "" == words[0] && "" + words[0] == words[0];
    } else if |words| > 1 {
      var tail := [' '] + Join(words[1..]);
      assert Join(words) == words[0] + tail;
      SplitFromWordPrefix(words[0], tail, "");
      assert "" + words[0] == words[0];
      assert tail[0] == ' ' && tail[1..] == Join(words[1..]);
      SplitJoin(words[1..]);
      assert [words[0]] + words[1..] == words;
    }
  }

  /** `Interleave` keeps the separator between the last two elements. */
  lemma {:induction false} InterleaveSnoc(sep: char, xs: seq<string>, x: string)
    requires xs != []
    ensures Interleave(sep, xs + [x]) == Interleave(sep, xs) + [sep] + x
    decreases |xs|
  {
    if |xs| == 1 {
      assert xs + [x] == [xs[0], x];
      assert [xs[0], x][1..] == [x];
    } else {
      assert (xs + [x])[0] == xs[0] && (xs + [x])[1..] == xs[1..] + [x];
      InterleaveSnoc(sep, xs[1..], x);
    }
  }

  /** Joining pieces that avoid `cs` with a separator outside `cs` gives text that avoids `cs`. */
  lemma {:induction false} InterleaveAvoids(sep: char, xs: seq<string>, cs: set<char>)
    requires sep !in cs
    requires forall i :: 0 <= i < |xs| ==> Avoids(xs[i], cs)
    ensures Avoids(Interleave(sep, xs), cs)
    decreases |xs|
  {
    if |xs| > 1 {
      InterleaveAvoids(sep, xs[1..], cs);
      AvoidsAppend(xs[0], [sep], cs);
      AvoidsAppend(xs[0] + [sep], Interleave(sep, xs[1..]), cs);
    }
  }
}
