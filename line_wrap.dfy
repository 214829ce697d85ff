/** The greedy word wrapper of the chat client (`calculateLines`, chat.js).
    Text measurement (`ctx.measureText(..).width`) is the parameter `measure`. */
module LineWrap {
  import opened Strings

  function Last(lines: seq<string>): string
    requires |lines| > 0
  {
    lines[|lines| - 1]
  }

  /** One turn of the `forEach` body for the word at index `i`: tentatively
      append `" " + word` to the last line; start a new line with the bare word
      only when the tentative line is too wide and the word is not the first. */
  function Step(lines: seq<string>, i: nat, word: string, maxWidth: real, measure: string -> real): seq<string>
    requires |lines| > 0
  {
    var testLine := Last(lines) + " " + word;
    if measure(testLine) > maxWidth && i > 0 then lines + [word]
    else lines[..|lines| - 1] + [testLine]
  }

  /** The lines after the loop has seen `words`, starting from `[""]`. */
  function WrapWords(words: seq<string>, maxWidth: real, measure: string -> real): (lines: seq<string>)
    ensures |lines| >= 1
    decreases |words|
  {
    if words == [] then [""]
    else Step(WrapWords(words[..|words| - 1], maxWidth, measure), |words| - 1, words[|words| - 1], maxWidth, measure)
  }

  /** `calculateLines(maxWidth, text)`, as a value. */
  function Wrap(maxWidth: real, text: string, measure: string -> real): seq<string>
  {
    WrapWords(Split(text), maxWidth, measure)
  }

  /** `calculateLines`: the loop that grows and overwrites `lines`. */
  method CalculateLines(maxWidth: real, inputText: string, measure: string -> real) returns (lines: seq<string>)
    ensures lines == Wrap(maxWidth, inputText, measure)
    ensures |lines| >= 1 && Join(lines) == " " + inputText
  {
    var words := Split(inputText);
    lines := [""];
    var i := 0;
    while i < |words|
      invariant 0 <= i <= |words|
      invariant lines == WrapWords(words[..i], maxWidth, measure)
    {
      WrapWordsSnoc(words, i, maxWidth, measure);
      var lastLine := lines[|lines| - 1];
      var testLine := lastLine + " " + words[i];
      if measure(testLine) > maxWidth && i > 0 {
        lines := lines + [words[i]];
      } else {
        assert lines[|lines| - 1 := testLine] == lines[..|lines| - 1] + [testLine];
        lines := lines[|lines| - 1 := testLine];
      }
      i := i + 1;
    }
    assert words[..|words|] == words;
    WrapJoin(maxWidth, inputText, measure);
  }

  /** One more word is one more turn of the loop. */
  lemma {:induction false} WrapWordsSnoc(words: seq<string>, i: nat, maxWidth: real, measure: string -> real)
    requires i < |words|
    ensures WrapWords(words[..i + 1], maxWidth, measure) ==
      Step(WrapWords(words[..i], maxWidth, measure), i, words[i], maxWidth, measure)
  {
    assert words[..i + 1][..i] == words[..i];
  }

  /** The part of a line that words and separators contributed: the first line
      carries the leading separator of the first word. */
  function Body(lines: seq<string>, r: nat): string
    requires r < |lines|
  {
    if r == 0 && |lines[0]| > 0 then lines[0][1..] else lines[r]
  }

  /** The characters of a line before its first space. */
  function FirstWord(s: string): (w: string)
    ensures w <= s && ' ' !in w
    ensures |w| < |s| ==> s[|w|] == ' '
  {
    if s == [] || s[0] == ' ' then [] else [s[0]] + FirstWord(s[1..])
  }

  /** Line `r` could not take the first word of line `r + 1`: the tentative
      line would have been wider than `maxWidth`. */
  predicate BreakForced(lines: seq<string>, r: nat, maxWidth: real, measure: string -> real)
    requires r + 1 < |lines|
  {
    measure(lines[r] + " " + FirstWord(lines[r + 1])) > maxWidth
  }

  /** Every line break in `lines` was forced. */
  predicate Greedy(lines: seq<string>, maxWidth: real, measure: string -> real)
  {
    forall r :: 0 <= r < |lines| - 1 ==> BreakForced(lines, r, maxWidth, measure)
  }

  /** Extending a line never changes its first word. */
  lemma {:induction false} FirstWordExtend(s: string, w: string)
    ensures FirstWord(s + " " + w) == FirstWord(s)
  {
    if s != [] && s[0] != ' ' {
      FirstWordExtend(s[1..], w);
      assert (s + " " + w)[1..] == s[1..] + " " + w;
    }
  }

  /** Round trip: the lines joined with single spaces are the words joined with
      single spaces, behind one leading space (the first word is appended to "").
      Hence nothing is lost or reordered, and there is always at least one line. */
  lemma {:induction false} WrapWordsJoin(words: seq<string>, maxWidth: real, measure: string -> real)
    requires |words| >= 1
    ensures Join(WrapWords(words, maxWidth, measure)) == " " + Join(words)
    decreases |words|
  {
    var n := |words|;
    if n == 1 {
      assert WrapWords(words[..0], maxWidth, measure) == [""];
    } else {
      var init := words[..n - 1];
      var prev := WrapWords(init, maxWidth, measure);
      var w := words[n - 1];
      WrapWordsJoin(init, maxWidth, measure);
      assert init + [w] == words;
      JoinSnoc(init, w);
      var testLine := Last(prev) + " " + w;
      if measure(testLine) > maxWidth {
        JoinSnoc(prev, w);
      } else {
        JoinExtendLast(prev, w);
      }
    }
  }

  /** Extending the last line by `" " + w` extends the joined text the same way. */
  lemma {:induction false} JoinExtendLast(lines: seq<string>, w: string)
    requires |lines| >= 1
    ensures Join(lines[..|lines| - 1] + [Last(lines) + " " + w]) == Join(lines) + " " + w
  {
    var m := |lines|;
    var last := lines[m - 1];
    var init := lines[..m - 1];
    assert lines[..|lines| - 1] == init;
    if m == 1 {
      assert init + [last + " " + w] == [last + " " + w];
    } else {
      assert init + [last] == lines;
      JoinSnoc(init, last);
      JoinSnoc(init, last + " " + w);
      AppendSpaced(Join(init), last, w);
    }
  }

  lemma AppendSpaced(a: string, b: string, c: string)
    ensures a + " " + (b + " " + c) == (a + " " + b) + " " + c
  {
  }

  /** The wrapped lines of `text`, joined back with spaces, are `" " + text`. */
  lemma WrapJoin(maxWidth: real, text: string, measure: string -> real)
    ensures Join(Wrap(maxWidth, text, measure)) == " " + text
  {
    WrapWordsJoin(Split(text), maxWidth, measure);
    JoinSplit(text);
  }

  /** The first line starts with the separator the first word was given. */
  lemma {:induction false} WrapWordsFirstLine(words: seq<string>, maxWidth: real, measure: string -> real)
    requires |words| >= 1
    ensures var lines := WrapWords(words, maxWidth, measure);
      |lines[0]| >= 1 && lines[0][0] == ' '
    decreases |words|
  {
    var n := |words|;
    if n == 1 {
      assert WrapWords(words[..0], maxWidth, measure) == [""];
    } else {
      WrapWordsFirstLine(words[..n - 1], maxWidth, measure);
    }
  }

  /** Fit: a line holding more than one word (a space in its body) was last
      extended by a tentative line that measured at most `maxWidth`; only a line
      made of a single word can be too wide. */
  lemma {:induction false} WrapWordsFit(words: seq<string>, maxWidth: real, measure: string -> real)
    requires |words| >= 1 && NoSpaces(words)
    ensures var lines := WrapWords(words, maxWidth, measure);
      forall r :: 0 <= r < |lines| && ' ' in Body(lines, r) ==> measure(lines[r]) <= maxWidth
    decreases |words|
  {
    var n := |words|;
    var lines := WrapWords(words, maxWidth, measure);
    if n == 1 {
      assert WrapWords(words[..0], maxWidth, measure) == [""];
      assert "" + " " + words[0] == " " + words[0];
      assert lines == [" " + words[0]];
      assert Body(lines, 0) == words[0];
    } else {
      var init := words[..n - 1];
      var prev := WrapWords(init, maxWidth, measure);
      var w := words[n - 1];
      assert NoSpaces(init) by {
        forall i | 0 <= i < n - 1 ensures ' ' !in init[i] { assert init[i] == words[i]; }
      }
      WrapWordsFit(init, maxWidth, measure);
      WrapWordsFirstLine(init, maxWidth, measure);
      var testLine := Last(prev) + " " + w;
      var m := |prev|;
      forall r | 0 <= r < |lines| && ' ' in Body(lines, r)
        ensures measure(lines[r]) <= maxWidth
      {
        if measure(testLine) > maxWidth {
          if r < m {
            assert lines[r] == prev[r];
            assert Body(lines, r) == Body(prev, r);
          }
        } else if r < m - 1 {
          assert lines[r] == prev[r];
          assert Body(lines, r) == Body(prev, r);
        }
      }
    }
  }

  /** Greedy: a line ends only where adding the next line's first word would
      have made it wider than `maxWidth`. */
  lemma {:induction false} WrapWordsGreedy(words: seq<string>, maxWidth: real, measure: string -> real)
    requires |words| >= 1 && NoSpaces(words)
    ensures Greedy(WrapWords(words, maxWidth, measure), maxWidth, measure)
    decreases |words|
  {
    var n := |words|;
    var lines := WrapWords(words, maxWidth, measure);
    if n == 1 {
      assert WrapWords(words[..0], maxWidth, measure) == [""];
    } else {
      var init := words[..n - 1];
      var prev := WrapWords(init, maxWidth, measure);
      var w := words[n - 1];
      assert NoSpaces(init) by {
        forall i | 0 <= i < n - 1 ensures ' ' !in init[i] { assert init[i] == words[i]; }
      }
      WrapWordsGreedy(init, maxWidth, measure);
      var testLine := Last(prev) + " " + w;
      var m := |prev|;
      forall r | 0 <= r < |lines| - 1
        ensures BreakForced(lines, r, maxWidth, measure)
      {
        if measure(testLine) > maxWidth {
          assert lines == prev + [w];
          if r == m - 1 {
            assert ' ' !in words[n - 1];
            assert FirstWord(w) == w;
            assert lines[r] == Last(prev) && lines[r + 1] == w;
            assert measure(lines[r] + " " + FirstWord(lines[r + 1])) > maxWidth;
          } else {
            assert lines[r] == prev[r] && lines[r + 1] == prev[r + 1];
            assert BreakForced(prev, r, maxWidth, measure);
          }
        } else {
          assert lines == prev[..m - 1] + [testLine];
          if r == m - 2 {
            FirstWordExtend(prev[m - 1], w);
            assert lines[r] == prev[r] && lines[r + 1] == testLine;
            assert FirstWord(lines[r + 1]) == FirstWord(prev[r + 1]);
            assert BreakForced(prev, r, maxWidth, measure);
          } else {
            assert lines[r] == prev[r] && lines[r + 1] == prev[r + 1];
            assert BreakForced(prev, r, maxWidth, measure);
          }
        }
      }
    }
  }

  /** Everything `calculateLines` promises about the lines of a text, stated on
      the text: at least one line, round trip to `" " + text`, the leading space
      of the first line, fit, and greedy line breaks. */
  lemma WrapProperties(maxWidth: real, text: string, measure: string -> real)
    ensures var lines := Wrap(maxWidth, text, measure);
      && |lines| >= 1
      && Join(lines) == " " + text
      && |lines[0]| >= 1 && lines[0][0] == ' '
      && (forall r :: 0 <= r < |lines| && ' ' in Body(lines, r) ==> measure(lines[r]) <= maxWidth)
      && (forall r :: 0 <= r < |lines| - 1 ==> BreakForced(lines, r, maxWidth, measure))
  {
    var words := Split(text);
    WrapJoin(maxWidth, text, measure);
    WrapWordsFirstLine(words, maxWidth, measure);
    WrapWordsFit(words, maxWidth, measure);
    WrapWordsGreedy(words, maxWidth, measure);
  }

  /** Empty input wraps to the single line `" "`. */
  lemma WrapEmpty(maxWidth: real, measure: string -> real)
    ensures Wrap(maxWidth, "", measure) == [" "]
  {
    assert Split("") == [""];
    assert [""][..0] == [];
    assert WrapWords([""][..0], maxWidth, measure) == [""];
    assert "" + " " + "" == " ";
  }
}
