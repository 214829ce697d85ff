/** The string built-ins the client and the server lean on, with the semantics of
    JavaScript's `split(" ")`, `join(" ")`, `trim`, `trimStart`, `slice(0, n)` and
    Go's `strings.HasSuffix` / `strings.TrimSuffix`. Strings are sequences of
    characters; no encoding or normalisation is modelled. */
module Strings {

  /** `s.split(" ")`: the pieces between single spaces, in order. Consecutive
      spaces give empty pieces and the empty string gives one empty piece. */
  function Split(s: string): (pieces: seq<string>)
    ensures |pieces| >= 1
    ensures forall i :: 0 <= i < |pieces| ==> ' ' !in pieces[i]
    decreases |s|
  {
    if s == [] then [""]
    else if s[0] == ' ' then [""] + Split(s[1..])
    else
      var rest := Split(s[1..]);
      [[s[0]] + rest[0]] + rest[1..]
  }

  /** `xs.join(" ")`. */
  function Join(xs: seq<string>): string
  {
    if |xs| == 0 then ""
    else if |xs| == 1 then xs[0]
    else xs[0] + " " + Join(xs[1..])
  }

  /** No piece contains the separator. */
  predicate NoSpaces(xs: seq<string>)
  {
    forall i :: 0 <= i < |xs| ==> ' ' !in xs[i]
  }

  /** Joining the pieces of a split gives back the string. */
  lemma {:induction false} JoinSplit(s: string)
    ensures Join(Split(s)) == s
    decreases |s|
  {
    if s == [] {
    } else if s[0] == ' ' {
      var rest := Split(s[1..]);
      JoinSplit(s[1..]);
      assert ([""] + rest)[1..] == rest;
    } else {
      var rest := Split(s[1..]);
      JoinSplit(s[1..]);
      var r := [[s[0]] + rest[0]] + rest[1..];
      if |rest| == 1 {
        assert Join(r) == [s[0]] + rest[0];
      } else {
        assert r[1..] == rest[1..];
        assert Join(rest) == rest[0] + " " + Join(rest[1..]);
      }
      assert [s[0]] + s[1..] == s;
    }
  }

  /** A piece without a space, followed by a space, splits off as the first piece. */
  lemma {:induction false} SplitCons(a: string, t: string)
    requires ' ' !in a
    ensures Split(a + " " + t) == [a] + Split(t)
    decreases |a|
  {
    if a == [] {
      assert a + " " + t == [' '] + t;
      assert (a + " " + t)[1..] == t;
    } else {
      SplitCons(a[1..], t);
      assert (a + " " + t)[1..] == a[1..] + " " + t;
      assert [a[0]] + a[1..] == a;
    }
  }

  /** A string without a space is a single piece. */
  lemma {:induction false} SplitWord(a: string)
    requires ' ' !in a
    ensures Split(a) == [a]
    decreases |a|
  {
    if a != [] {
      SplitWord(a[1..]);
      assert [a[0]] + a[1..] == a;
    }
  }

  /** Splitting the join of space-free pieces gives back the pieces. */
  lemma {:induction false} SplitJoin(xs: seq<string>)
    requires |xs| >= 1 && NoSpaces(xs)
    ensures Split(Join(xs)) == xs
    decreases |xs|
  {
    if |xs| == 1 {
      SplitWord(xs[0]);
    } else {
      SplitJoin(xs[1..]);
      SplitCons(xs[0], Join(xs[1..]));
      assert [xs[0]] + xs[1..] == xs;
    }
  }

  /** Appending a piece at the end adds one separator. */
  lemma {:induction false} JoinSnoc(xs: seq<string>, y: string)
    requires |xs| >= 1
    ensures Join(xs + [y]) == Join(xs) + " " + y
    decreases |xs|
  {
    if |xs| == 1 {
      assert (xs + [y])[1..] == [y];
    } else {
      JoinSnoc(xs[1..], y);
      assert (xs + [y])[1..] == xs[1..] + [y];
    }
  }

  /** The characters JavaScript's `trim` removes: WhiteSpace (tab, vertical tab,
      form feed, space, no-break space, byte order mark and the Unicode space
      separators) and LineTerminator (line feed, carriage return, line and
      paragraph separators). */
  predicate IsWhitespace(c: char)
  {
    || ('\t' <= c <= '\r') || c == ' ' || c == '\U{00A0}' || c == '\U{1680}'
    || ('\U{2000}' <= c <= '\U{200A}') || c == '\U{2028}' || c == '\U{2029}'
    || c == '\U{202F}' || c == '\U{205F}' || c == '\U{3000}' || c == '\U{FEFF}'
  }

  predicate AllWhitespace(s: string)
  {
    forall i :: 0 <= i < |s| ==> IsWhitespace(s[i])
  }

  /** `s.trimStart()`. */
  function TrimStart(s: string): string
    decreases |s|
  {
    if s != [] && IsWhitespace(s[0]) then TrimStart(s[1..]) else s
  }

  /** `s.trim()`: whitespace goes from the front, then from the back. */
  function Trim(s: string): string
    decreases |s|
  {
    if s != [] && IsWhitespace(s[0]) then Trim(s[1..])
    else if s != [] && IsWhitespace(s[|s| - 1]) then Trim(s[..|s| - 1])
    else s
  }

  /** `trimStart` removes exactly the leading whitespace: what is left is a
      suffix that is empty or starts with a non-whitespace character, and what
      was removed is all whitespace. */
  lemma {:induction false} TrimStartSpec(s: string)
    ensures var r := TrimStart(s);
      && |r| <= |s| && r == s[|s| - |r|..]
      && AllWhitespace(s[..|s| - |r|])
      && (r == [] || !IsWhitespace(r[0]))
    decreases |s|
  {
    if s != [] && IsWhitespace(s[0]) {
      TrimStartSpec(s[1..]);
      var r := TrimStart(s[1..]);
      assert s[..|s| - |r|] == [s[0]] + s[1..][..|s| - 1 - |r|];
    }
  }

  /** How many characters `trim` removes from the front of `s`. */
  ghost function TrimOffset(s: string): nat
    decreases |s|
  {
    if s != [] && IsWhitespace(s[0]) then 1 + TrimOffset(s[1..])
    else if s != [] && IsWhitespace(s[|s| - 1]) then TrimOffset(s[..|s| - 1])
    else 0
  }

  lemma AllWhitespaceCons(c: char, s: string)
    requires IsWhitespace(c) && AllWhitespace(s)
    ensures AllWhitespace([c] + s)
  {
    assert forall i :: 1 <= i < |s| + 1 ==> ([c] + s)[i] == s[i - 1];
  }

  lemma AllWhitespaceSnoc(s: string, c: char)
    requires IsWhitespace(c) && AllWhitespace(s)
    ensures AllWhitespace(s + [c])
  {
    assert forall i :: 0 <= i < |s| ==> (s + [c])[i] == s[i];
  }

  /** The facts `TrimSpec` states about a trimmed slice `r` found at offset
      `a` of `s`. */
  ghost predicate TrimmedAt(s: string, r: string, a: nat)
  {
    && a + |r| <= |s| && r == s[a..a + |r|]
    && AllWhitespace(s[..a]) && AllWhitespace(s[a + |r|..])
    && (r != [] ==> !IsWhitespace(r[0]) && !IsWhitespace(r[|r| - 1]))
  }

  lemma TrimmedAtCons(c: char, t: string, r: string, a: nat)
    requires IsWhitespace(c) && TrimmedAt(t, r, a)
    ensures TrimmedAt([c] + t, r, a + 1)
  {
    var s := [c] + t;
    assert s[a + 1..a + 1 + |r|] == t[a..a + |r|];
    assert s[..a + 1] == [c] + t[..a];
    AllWhitespaceCons(c, t[..a]);
    assert s[a + 1 + |r|..] == t[a + |r|..];
  }

  lemma TrimmedAtSnoc(t: string, c: char, r: string, a: nat)
    requires IsWhitespace(c) && TrimmedAt(t, r, a)
    ensures TrimmedAt(t + [c], r, a)
  {
    var s := t + [c];
    assert s[a..a + |r|] == t[a..a + |r|];
    assert s[..a] == t[..a];
    assert s[a + |r|..] == t[a + |r|..] + [c];
    AllWhitespaceSnoc(t[a + |r|..], c);
  }

  /** `trim` removes exactly the whitespace at both ends: what is left is the
      slice of `s` that starts after the removed prefix, the characters before
      and after that slice are all whitespace, and the slice neither starts
      nor ends with whitespace. */
  lemma {:induction false} TrimSpec(s: string)
    ensures TrimmedAt(s, Trim(s), TrimOffset(s))
    decreases |s|
  {
    if s != [] && IsWhitespace(s[0]) {
      TrimSpec(s[1..]);
      assert s == [s[0]] + s[1..];
      TrimmedAtCons(s[0], s[1..], Trim(s[1..]), TrimOffset(s[1..]));
    } else if s != [] && IsWhitespace(s[|s| - 1]) {
      TrimSpec(s[..|s| - 1]);
      assert s == s[..|s| - 1] + [s[|s| - 1]];
      TrimmedAtSnoc(s[..|s| - 1], s[|s| - 1], Trim(s[..|s| - 1]), TrimOffset(s[..|s| - 1]));
    } else {
      assert s[..0] == [] && s[|s|..] == [];
    }
  }

  /** `s.trim()` is empty exactly when `s` is all whitespace (JavaScript's
      truthiness test on a trimmed string). */
  lemma TrimEmptyIff(s: string)
    ensures Trim(s) == [] <==> AllWhitespace(s)
  {
    TrimSpec(s);
    var r, a := Trim(s), TrimOffset(s);
    assert TrimmedAt(s, r, a);
    if r == [] {
      forall i | 0 <= i < |s| ensures IsWhitespace(s[i]) {
        if i < a {
          assert s[i] == s[..a][i];
        } else {
          assert s[i] == s[a..][i - a];
        }
      }
    } else {
      assert r[0] == s[a];
    }
  }


  /** `s.slice(0, n)` for a non-negative `n`: clamps at the end of the string. */
  function Take(s: string, n: nat): (r: string)
    ensures |r| == if n <= |s| then n else |s|
    ensures r == s[..|r|]
  {
    if n <= |s| then s[..n] else s
  }

  /** `s.slice(n)` for a non-negative `n`: empty past the end of the string. */
  function Drop(s: string, n: nat): (r: string)
    ensures Take(s, n) + r == s
  {
    if n <= |s| then s[n..] else []
  }

  /** Go's `strings.HasSuffix(s, suffix)`. */
  predicate HasSuffix(s: string, suffix: string)
  {
    |suffix| <= |s| && s[|s| - |suffix|..] == suffix
  }

  /** Go's `strings.TrimSuffix(s, suffix)`: removes one occurrence at the end. */
  function TrimSuffix(s: string, suffix: string): (r: string)
    ensures HasSuffix(s, suffix) ==> r + suffix == s
    ensures !HasSuffix(s, suffix) ==> r == s
  {
    if HasSuffix(s, suffix) then s[..|s| - |suffix|] else s
  }
}
