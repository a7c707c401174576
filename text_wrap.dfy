/**
 * `formatTextWrap(text, maxLineLength)`: line breaks in the text become
 * spaces, the text is cut into words at single spaces, and the words are
 * folded into lines, a new line being started before a word that would bring
 * the running line length to the limit or beyond.
 */
module TextWrap {
  import opened Strings

  predicate IsLineBreak(c: char) {
    c == '\r' || c == '\n'
  }

  /** Spaces and line breaks; every other character belongs to a word. */
  predicate IsSeparator(c: char) {
    c == ' ' || IsLineBreak(c)
  }

  /** The word begun so far, once a separator or the end closes it: nothing if it is empty. */
  function Close(cur: string): (ws: seq<string>)
    ensures cur == "" ==> ws == []
    ensures cur != "" ==> ws == [cur]
  {
    if cur == "" then [] else [cur]
  }

  /** The words of `s` that follow the partial word `cur`: the maximal runs of non-separators. */
  function WordsFrom(cur: string, s: string): seq<string>
    decreases |s|
  {
    if s == [] then Close(cur)
    else if IsSeparator(s[0]) then Close(cur) + WordsFrom("", s[1..])
    else WordsFrom(cur + [s[0]], s[1..])
  }

  /** The words of `s`: its maximal runs of characters other than spaces and line breaks, empty runs dropped. */
  function Words(s: string): seq<string> {
    WordsFrom("", s)
  }

  /** A separator ends the words on its left and starts afresh on its right. */
  lemma {:induction false} WordsFromSeparated(cur: string, a: string, c: char, b: string)
    requires IsSeparator(c)
    decreases |a|
    ensures WordsFrom(cur, a + [c] + b) == WordsFrom(cur, a) + Words(b)
  {
    var s := a + [c] + b;
    if a == [] {
      assert s[0] == c && s[1..] == b;
    } else {
      assert s[0] == a[0] && s[1..] == a[1..] + [c] + b;
      if IsSeparator(a[0]) {
        WordsFromSeparated("", a[1..], c, b);
      } else {
        WordsFromSeparated(cur + [a[0]], a[1..], c, b);
      }
    }
  }

  lemma WordsSeparated(a: string, c: char, b: string)
    requires IsSeparator(c)
    ensures Words(a + [c] + b) == Words(a) + Words(b)
  {
    WordsFromSeparated("", a, c, b);
  }

  /** The leading run of line breaks removed. */
  function DropBreaks(s: string): (r: string)
    ensures |r| <= |s|
    ensures r == [] || !IsLineBreak(r[0])
    ensures Words(r) == Words(s)
  {
    if s != [] && IsLineBreak(s[0]) then DropBreaks(s[1..]) else s
  }

  /**
   * `text.replace(/[\r\n]+/g, ' ')`: every run of line breaks becomes one
   * space. No line break is left, the text does not grow, and the words stay
   * the same whatever partial word precedes it: the breaks separate words as
   * the space that replaces them does.
   */
  function CollapseBreaks(s: string): (r: string)
    decreases |s|
    ensures forall i | 0 <= i < |r| :: !IsLineBreak(r[i])
    ensures |r| <= |s|
    ensures (forall i | 0 <= i < |s| :: !IsLineBreak(s[i])) ==> r == s
    ensures forall cur :: WordsFrom(cur, r) == WordsFrom(cur, s)
  {
    if s == [] then []
    else if IsLineBreak(s[0]) then
      var rest := DropBreaks(s[1..]);
      var r := " " + CollapseBreaks(rest);
      assert r[0] == ' ' && r[1..] == CollapseBreaks(rest);
      assert forall cur :: WordsFrom(cur, r) == WordsFrom(cur, s) by {
        forall cur
          ensures WordsFrom(cur, r) == WordsFrom(cur, s)
        {
          assert WordsFrom("", CollapseBreaks(rest)) == Words(rest) == Words(s[1..]);
        }
      }
      r
    else
      var tail := CollapseBreaks(s[1..]);
      var r := [s[0]] + tail;
      assert r[0] == s[0] && r[1..] == tail;
      assert forall cur :: WordsFrom(cur, r) == WordsFrom(cur, s) by {
        forall cur
          ensures WordsFrom(cur, r) == WordsFrom(cur, s)
        {
          if !IsSeparator(s[0]) {
            assert WordsFrom(cur + [s[0]], tail) == WordsFrom(cur + [s[0]], s[1..]);
          } else {
            assert WordsFrom("", tail) == WordsFrom("", s[1..]);
          }
        }
      }
      assert (forall i | 0 <= i < |s| :: !IsLineBreak(s[i])) ==> (forall i | 0 <= i < |s[1..]| :: !IsLineBreak(s[1..][i]));
      r
  }

  /** The accumulator of the fold: the text so far and the length of its last line. */
  datatype Acc = Acc(text: string, lineLength: int)

  /** One step of the fold: break before the word, or append it (after a space unless the text is still empty). */
  function WrapStep(acc: Acc, word: string, maxLineLength: int): Acc {
    if acc.lineLength + |word| >= maxLineLength then
      Acc(acc.text + "\n" + word, |word|)
    else if acc.text != "" then
      Acc(acc.text + " " + word, acc.lineLength + |word| + 1)
    else
      Acc(word, acc.lineLength + |word|)
  }

  /** `words.reduce(step, '')` from a given accumulator. */
  function WrapWords(words: seq<string>, acc: Acc, maxLineLength: int): Acc
    decreases |words|
  {
    if words == [] then acc else WrapWords(words[1..], WrapStep(acc, words[0], maxLineLength), maxLineLength)
  }

  /**
   * Every line of the result is at most `maxLineLength` long or is a single
   * over-long word, and the words are those of the text, in order: only the
   * spaces and line breaks between them change.
   */
  function FormatTextWrap(text: string, maxLineLength: int): (r: string)
    ensures forall line | line in Lines(r) :: |line| <= maxLineLength || ' ' !in line
    ensures Words(r) == Words(text)
  {
    var collapsed := CollapseBreaks(text);
    var words := Split(collapsed, ' ');
    forall i | 0 <= i < |words|
      ensures ' ' !in words[i] && '\n' !in words[i]
    {
      WordsHaveNoBreaks(collapsed, i);
    }
    assert Lines("") == [""];
    WrapWordsKeepsWellWrapped(words, Acc("", 0), maxLineLength);
    WrapWordsKeepsWords(words, Acc("", 0), maxLineLength);
    JoinSplit(collapsed, ' ');
    WordsJoin(words);
    WrapWords(words, Acc("", 0), maxLineLength).text
  }

  function Last<T>(s: seq<T>): T
    requires |s| >= 1
  {
    s[|s| - 1]
  }

  /** The lines of a text. */
  function Lines(s: string): (lines: seq<string>)
    ensures |lines| >= 1
  {
    Split(s, '\n')
  }

  /** The pieces of two texts, the last piece of the first glued to the first piece of the second. */
  function Glue(p: seq<string>, q: seq<string>): (r: seq<string>)
    requires |p| >= 1 && |q| >= 1
    ensures |r| == |p| + |q| - 1
  {
    p[..|p| - 1] + [Last(p) + q[0]] + q[1..]
  }

  lemma GlueAfterEmpty(p: seq<string>, q: seq<string>)
    requires |p| >= 1 && |q| >= 1
    ensures Glue([""] + p, q) == [""] + Glue(p, q)
  {
    var p1 := [""] + p;
    assert p1[..|p1| - 1] == [""] + p[..|p| - 1];
  }

  lemma GlueAfterChar(x: char, p: seq<string>, q: seq<string>)
    requires |p| >= 1 && |q| >= 1
    ensures var g := Glue(p, q);
      Glue([[x] + p[0]] + p[1..], q) == [[x] + g[0]] + g[1..]
  {
    var p1 := [[x] + p[0]] + p[1..];
    var g := Glue(p, q);
    if |p| == 1 {
      assert g == [p[0] + q[0]] + q[1..];
      assert p1 == [[x] + p[0]];
      assert [x] + g[0] == ([x] + p[0]) + q[0];
    } else {
      assert g[0] == p[0];
      assert g[1..] == p[1..|p| - 1] + [Last(p) + q[0]] + q[1..];
      assert p1[..|p1| - 1] == [[x] + p[0]] + p[1..|p| - 1];
    }
  }

  /** Splitting a concatenation glues the last piece of the first part to the first piece of the second. */
  lemma {:induction false} SplitAppend(a: string, b: string, sep: char)
    ensures Split(a + b, sep) == Glue(Split(a, sep), Split(b, sep))
  {
    if a == [] {
      var q := Split(b, sep);
      assert a + b == b;
      assert "" + q[0] == q[0];
      assert Glue([""], q) == [q[0]] + q[1..] == q;
    } else {
      var x := a[0];
      var p' := Split(a[1..], sep);
      assert (a + b)[0] == x && (a + b)[1..] == a[1..] + b;
      SplitAppend(a[1..], b, sep);
      if x == sep {
        GlueAfterEmpty(p', Split(b, sep));
      } else {
        GlueAfterChar(x, p', Split(b, sep));
      }
    }
  }

  lemma {:induction false} SplitWithoutSeparator(b: string, sep: char)
    requires sep !in b
    ensures Split(b, sep) == [b]
  {
    if b != [] {
      SplitWithoutSeparator(b[1..], sep);
      assert b == [b[0]] + b[1..];
    }
  }

  /** The lines fit within `maxLineLength`, unless they hold a single word; the tracked length is the last line's. */
  ghost predicate WellWrapped(acc: Acc, maxLineLength: int) {
    && acc.lineLength == |Last(Lines(acc.text))|
    && forall line | line in Lines(acc.text) :: |line| <= maxLineLength || ' ' !in line
  }

  /** A line break followed by a word adds that word as a new last line. */
  lemma LinesAfterBreak(text: string, word: string)
    requires '\n' !in word
    ensures Lines(text + "\n" + word) == Lines(text) + [word]
  {
    var lines := Lines(text);
    var tail := "\n" + word;
    SplitWithoutSeparator(word, '\n');
    assert tail[0] == '\n' && tail[1..] == word;
    assert Split(tail, '\n') == ["", word];
    SplitAppend(text, tail, '\n');
    assert Last(lines) + "" == Last(lines);
    assert lines[..|lines| - 1] + [Last(lines)] == lines;
    assert text + "\n" + word == text + tail;
  }

  /** A space followed by a word lengthens the last line. */
  lemma LinesAfterSpace(text: string, word: string)
    requires '\n' !in word
    ensures var lines := Lines(text);
      Lines(text + " " + word) == lines[..|lines| - 1] + [Last(lines) + " " + word]
  {
    var tail := " " + word;
    SplitWithoutSeparator(tail, '\n');
    SplitAppend(text, tail, '\n');
    assert text + " " + word == text + tail;
    assert Last(Lines(text)) + tail == Last(Lines(text)) + " " + word;
  }

  lemma WrapStepKeepsWellWrapped(acc: Acc, word: string, maxLineLength: int)
    requires WellWrapped(acc, maxLineLength)
    requires ' ' !in word && '\n' !in word
    ensures WellWrapped(WrapStep(acc, word, maxLineLength), maxLineLength)
  {
    var lines := Lines(acc.text);
    var next := WrapStep(acc, word, maxLineLength);
    if acc.lineLength + |word| >= maxLineLength {
      LinesAfterBreak(acc.text, word);
      assert Lines(next.text) == lines + [word];
    } else if acc.text != "" {
      LinesAfterSpace(acc.text, word);
      var longer := Last(lines) + " " + word;
      assert Lines(next.text) == lines[..|lines| - 1] + [longer];
      assert |longer| == next.lineLength <= maxLineLength;
      forall line | line in Lines(next.text)
        ensures |line| <= maxLineLength || ' ' !in line
      {
        if line != longer {
          assert line in lines;
        }
      }
    } else {
      assert Lines("") == [""];
      SplitWithoutSeparator(word, '\n');
    }
  }

  lemma {:induction false} WrapWordsKeepsWellWrapped(words: seq<string>, acc: Acc, maxLineLength: int)
    requires WellWrapped(acc, maxLineLength)
    requires forall i | 0 <= i < |words| :: ' ' !in words[i] && '\n' !in words[i]
    decreases |words|
    ensures WellWrapped(WrapWords(words, acc, maxLineLength), maxLineLength)
  {
    if words != [] {
      WrapStepKeepsWellWrapped(acc, words[0], maxLineLength);
      WrapWordsKeepsWellWrapped(words[1..], WrapStep(acc, words[0], maxLineLength), maxLineLength);
    }
  }

  /** The pieces of a text without line breaks have none either. */
  lemma {:induction false} WordsHaveNoBreaks(s: string, i: int)
    requires forall j | 0 <= j < |s| :: !IsLineBreak(s[j])
    requires 0 <= i < |Split(s, ' ')|
    ensures '\n' !in Split(s, ' ')[i]
  {
    if s != [] {
      var rest := Split(s[1..], ' ');
      if s[0] == ' ' {
        if i > 0 {
          WordsHaveNoBreaks(s[1..], i - 1);
        }
      } else if i == 0 {
        WordsHaveNoBreaks(s[1..], 0);
        assert Split(s, ' ')[0] == [s[0]] + rest[0];
      } else {
        WordsHaveNoBreaks(s[1..], i);
      }
    }
  }

  /** The words of each piece, in order. */
  function WordsOfAll(pieces: seq<string>): seq<string>
    decreases |pieces|
  {
    if pieces == [] then [] else Words(pieces[0]) + WordsOfAll(pieces[1..])
  }

  /** Joining pieces with spaces neither merges nor splits their words. */
  lemma {:induction false} WordsJoin(pieces: seq<string>)
    requires |pieces| >= 1
    decreases |pieces|
    ensures Words(Join(pieces, ' ')) == WordsOfAll(pieces)
  {
    if |pieces| == 1 {
      assert pieces[1..] == [];
      assert WordsOfAll(pieces) == Words(pieces[0]) + [];
    } else {
      WordsJoin(pieces[1..]);
      WordsSeparated(pieces[0], ' ', Join(pieces[1..], ' '));
    }
  }

  /** The fold only puts separators between whole words. */
  lemma {:induction false} WrapWordsKeepsWords(words: seq<string>, acc: Acc, maxLineLength: int)
    decreases |words|
    ensures Words(WrapWords(words, acc, maxLineLength).text) == Words(acc.text) + WordsOfAll(words)
  {
    if words != [] {
      var w := words[0];
      var next := WrapStep(acc, w, maxLineLength);
      WrapWordsKeepsWords(words[1..], next, maxLineLength);
      if acc.lineLength + |w| >= maxLineLength {
        assert next.text == acc.text + ['\n'] + w;
        WordsSeparated(acc.text, '\n', w);
      } else if acc.text != "" {
        assert next.text == acc.text + [' '] + w;
        WordsSeparated(acc.text, ' ', w);
      } else {
        assert Words(acc.text) == [];
      }
    }
  }
}
