/** The Python string operations the converters rely on, written out over `seq<char>`. */
module Text {

  /** Python's `str.isspace()` for one character (the characters `str.strip()` removes). */
  predicate IsSpace(c: char) {
    || c == ' '
    || ('\t' <= c <= '\r')
    || ('\U{1c}' <= c <= '\U{1f}')
    || c == '\U{85}' || c == '\U{a0}' || c == '\U{1680}'
    || ('\U{2000}' <= c <= '\U{200a}')
    || c == '\U{2028}' || c == '\U{2029}' || c == '\U{202f}' || c == '\U{205f}' || c == '\U{3000}'
  }

  /** The characters Python's universal-newline mode treats as line ends. */
  predicate IsBreak(c: char) {
    c == '\n' || c == '\r'
  }

  predicate StartsWith(s: string, prefix: string) {
    |prefix| <= |s| && s[..|prefix|] == prefix
  }

  predicate EndsWith(s: string, suffix: string) {
    |suffix| <= |s| && s[|s| - |suffix|..] == suffix
  }

  /** `sub` occurs in `s` starting at index `i`. */
  predicate OccursAt(s: string, sub: string, i: int) {
    0 <= i && i + |sub| <= |s| && s[i..i + |sub|] == sub
  }

  /** Python's `sub in s`. */
  predicate Contains(s: string, sub: string) {
    exists i | 0 <= i <= |s| - |sub| :: OccursAt(s, sub, i)
  }

  predicate NoBreaks(s: string) {
    forall i :: 0 <= i < |s| ==> !IsBreak(s[i])
  }

  /** ASCII lower-casing, the only part of `str.lower()` that can affect an ASCII suffix test. */
  function Lower(c: char): (d: char)
    ensures 'A' <= c <= 'Z' ==> d as int == c as int + 32
    ensures !('A' <= c <= 'Z') ==> d == c
  {
    if 'A' <= c <= 'Z' then (c as int + 32) as char else c
  }

  /** `s.lower()` with ASCII lower-casing. */
  function LowerString(s: string): (r: string)
    ensures |r| == |s|
  {
    if |s| == 0 then "" else [Lower(s[0])] + LowerString(s[1..])
  }

  lemma {:induction false} LowerStringAppend(a: string, b: string)
    ensures LowerString(a + b) == LowerString(a) + LowerString(b)
  {
    if |a| > 0 {
      assert (a + b)[1..] == a[1..] + b;
      LowerStringAppend(a[1..], b);
    } else {
      assert a + b == b;
    }
  }

  /** Python's `s.lower().endswith(suffix)`. */
  predicate LowerEndsWith(s: string, suffix: string) {
    EndsWith(LowerString(s), suffix)
  }

  // ---------------------------------------------------------------------------
  // str.strip()

  function StripStart(s: string): (r: string)
    ensures |r| <= |s| && r == s[|s| - |r|..]
    ensures forall i :: 0 <= i < |s| - |r| ==> IsSpace(s[i])
    ensures r == [] || !IsSpace(r[0])
  {
    if |s| > 0 && IsSpace(s[0]) then StripStart(s[1..]) else s
  }

  function StripEnd(s: string): (r: string)
    ensures |r| <= |s| && r == s[..|r|]
    ensures forall i :: |r| <= i < |s| ==> IsSpace(s[i])
    ensures r == [] || !IsSpace(r[|r| - 1])
  {
    if |s| > 0 && IsSpace(s[|s| - 1]) then StripEnd(s[..|s| - 1]) else s
  }

  /** Python's `s.strip()`: leading and trailing whitespace removed. */
  function Strip(s: string): (r: string)
    ensures r == [] || (!IsSpace(r[0]) && !IsSpace(r[|r| - 1]))
  {
    StripEnd(StripStart(s))
  }

  /**
   * What `strip()` removes: the result is the part of `s` that starts after its leading
   * whitespace and ends before its trailing whitespace.
   */
  lemma StripMeaning(s: string)
    ensures var r := Strip(s); var a := |s| - |StripStart(s)|;
      && a + |r| <= |s| && r == s[a..a + |r|]
      && (forall i :: 0 <= i < a ==> IsSpace(s[i]))
      && (forall i :: a + |r| <= i < |s| ==> IsSpace(s[i]))
  {
    var t := StripStart(s);
    var r := StripEnd(t);
    var a := |s| - |t|;
    assert t == s[a..];
    assert r == t[..|r|];
    forall i | a + |r| <= i < |s| ensures IsSpace(s[i]) {
      assert s[i] == t[i - a];
    }
  }

  /** Two pieces of a line make a piece of a line. */
  lemma NoBreaksAppend(a: string, b: string)
    requires NoBreaks(a) && NoBreaks(b)
    ensures NoBreaks(a + b)
  {
    forall i | 0 <= i < |a + b| ensures !IsBreak((a + b)[i]) {
      if i >= |a| {
        assert (a + b)[i] == b[i - |a|];
      }
    }
  }

  /** Stripping a piece of a line leaves a piece of a line. */
  lemma StripKeepsNoBreaks(s: string)
    requires NoBreaks(s)
    ensures NoBreaks(Strip(s))
  {
    var t := StripStart(s);
    var r := StripEnd(t);
    forall i | 0 <= i < |r| ensures !IsBreak(r[i]) {
      assert r[i] == t[i] == s[|s| - |t| + i];
    }
  }

  /** A suffix test that holds for the end of a string holds for the whole string. */
  lemma LowerEndsWithSuffix(s: string, tail: string, suffix: string)
    requires EndsWith(s, tail) && LowerEndsWith(tail, suffix)
    ensures LowerEndsWith(s, suffix)
  {
    var pre := s[..|s| - |tail|];
    assert s == pre + tail;
    LowerStringAppend(pre, tail);
    var l := LowerString(s);
    assert l[|l| - |suffix|..] == LowerString(tail)[|tail| - |suffix|..];
  }

  /** A string without surrounding whitespace is left as it is. */
  lemma {:induction false} StripUnchanged(s: string)
    requires s == [] || (!IsSpace(s[0]) && !IsSpace(s[|s| - 1]))
    ensures Strip(s) == s
  {
  }

  /** Whitespace added around a trimmed string is removed again. */
  lemma {:induction false} StripPadding(pre: string, s: string, post: string)
    requires forall i :: 0 <= i < |pre| ==> IsSpace(pre[i])
    requires forall i :: 0 <= i < |post| ==> IsSpace(post[i])
    requires s != [] && !IsSpace(s[0]) && !IsSpace(s[|s| - 1])
    ensures Strip(pre + s + post) == s
  {
    StripStartPrefix(pre, s + post);
    assert StripStart(pre + s + post) == s + post by {
      assert pre + s + post == pre + (s + post);
    }
    StripEndSuffix(s, post);
  }

  lemma {:induction false} StripStartPrefix(pre: string, t: string)
    requires forall i :: 0 <= i < |pre| ==> IsSpace(pre[i])
    requires t != [] && !IsSpace(t[0])
    ensures StripStart(pre + t) == t
  {
    if pre != [] {
      assert (pre + t)[1..] == pre[1..] + t;
      StripStartPrefix(pre[1..], t);
    }
  }

  lemma {:induction false} StripEndSuffix(t: string, post: string)
    requires forall i :: 0 <= i < |post| ==> IsSpace(post[i])
    requires t != [] && !IsSpace(t[|t| - 1])
    ensures StripEnd(t + post) == t
  {
    if post != [] {
      var p := post[..|post| - 1];
      assert (t + post)[..|t + post| - 1] == t + p;
      StripEndSuffix(t, p);
    } else {
      assert t + post == t;
    }
  }

  // ---------------------------------------------------------------------------
  // str.split(sep) for a one-character separator, and its inverse sep.join(parts)

  /** Python's `s.split(sep)`: the pieces between occurrences of `sep`, empty pieces kept. */
  function Split(s: string, sep: char): (parts: seq<string>)
    ensures |parts| >= 1
    ensures forall k :: 0 <= k < |parts| ==> sep !in parts[k]
  {
    if |s| == 0 then [""]
    else
      var rest := Split(s[1..], sep);
      if s[0] == sep then [""] + rest
      else [[s[0]] + rest[0]] + rest[1..]
  }

  /** Python's `sep.join(parts)`. */
  function Join(parts: seq<string>, sep: char): string {
    if |parts| == 0 then ""
    else if |parts| == 1 then parts[0]
    else parts[0] + [sep] + Join(parts[1..], sep)
  }

  /** Pieces without line breaks joined by a separator that is not one make a single line. */
  lemma {:induction false} JoinNoBreaks(parts: seq<string>, sep: char)
    requires !IsBreak(sep)
    requires forall k :: 0 <= k < |parts| ==> NoBreaks(parts[k])
    ensures NoBreaks(Join(parts, sep))
  {
    if |parts| > 1 {
      JoinNoBreaks(parts[1..], sep);
      var rest := Join(parts[1..], sep);
      var s := parts[0] + [sep] + rest;
      forall i | 0 <= i < |s| ensures !IsBreak(s[i]) {
        if i > |parts[0]| {
          assert s[i] == rest[i - |parts[0]| - 1];
        }
      }
    }
  }

  /** Splitting a piece that holds no separator gives the piece back. */
  lemma {:induction false} SplitNoSep(a: string, sep: char)
    requires sep !in a
    ensures Split(a, sep) == [a]
  {
    if |a| > 0 {
      SplitNoSep(a[1..], sep);
      assert [a[0]] + a[1..] == a;
    }
  }

  /** Splitting at the first separator peels off the piece before it. */
  lemma {:induction false} SplitFirst(a: string, sep: char, b: string)
    requires sep !in a
    ensures Split(a + [sep] + b, sep) == [a] + Split(b, sep)
  {
    if |a| == 0 {
      assert a + [sep] + b == [sep] + b;
      assert ([sep] + b)[1..] == b;
    } else {
      assert (a + [sep] + b)[1..] == a[1..] + [sep] + b;
      SplitFirst(a[1..], sep, b);
      assert [a[0]] + a[1..] == a;
    }
  }

  /** Joining the pieces of a split restores the string. */
  lemma {:induction false} JoinSplit(s: string, sep: char)
    ensures Join(Split(s, sep), sep) == s
  {
    if |s| > 0 {
      JoinSplit(s[1..], sep);
      var rest := Split(s[1..], sep);
      if s[0] == sep {
        assert [s[0]] + s[1..] == s;
      } else {
        var parts := Split(s, sep);
        assert parts[1..] == rest[1..];
        if |rest| == 1 {
          assert [s[0]] + rest[0] == s;
        } else {
          assert Join(rest, sep) == rest[0] + [sep] + Join(rest[1..], sep);
          assert [s[0]] + s[1..] == s;
        }
      }
    }
  }

  /** Splitting a joined list gives the list back when no piece holds the separator. */
  lemma {:induction false} SplitJoin(parts: seq<string>, sep: char)
    requires |parts| >= 1
    requires forall k :: 0 <= k < |parts| ==> sep !in parts[k]
    ensures Split(Join(parts, sep), sep) == parts
  {
    if |parts| == 1 {
      SplitNoSep(parts[0], sep);
    } else {
      SplitJoin(parts[1..], sep);
      SplitFirst(parts[0], sep, Join(parts[1..], sep));
      assert [parts[0]] + parts[1..] == parts;
    }
  }

  // ---------------------------------------------------------------------------
  // Lines

  /** The pieces of `s` between line-break characters, empty pieces kept. */
  function SplitBreaks(s: string): (parts: seq<string>)
    ensures |parts| >= 1
    ensures forall k :: 0 <= k < |parts| ==> NoBreaks(parts[k])
  {
    if |s| == 0 then [""]
    else
      var rest := SplitBreaks(s[1..]);
      if IsBreak(s[0]) then [""] + rest
      else [[s[0]] + rest[0]] + rest[1..]
  }

  function NonEmpty(parts: seq<string>): (r: seq<string>)
    ensures forall k :: 0 <= k < |r| ==> r[k] != ""
    ensures |r| <= |parts|
  {
    if |parts| == 0 then []
    else if parts[0] == "" then NonEmpty(parts[1..])
    else [parts[0]] + NonEmpty(parts[1..])
  }

  /**
   * The non-empty lines of a text read with universal newlines: "\r\n", "\r" and "\n"
   * all end a line, and a reader that skips empty lines sees exactly these.
   */
  function SplitLines(s: string): (lines: seq<string>)
    ensures forall k :: 0 <= k < |lines| ==> lines[k] != "" && NoBreaks(lines[k])
  {
    var parts := SplitBreaks(s);
    NonEmptyKeeps(parts);
    NonEmpty(parts)
  }

  lemma {:induction false} NonEmptyKeeps(parts: seq<string>)
    requires forall k :: 0 <= k < |parts| ==> NoBreaks(parts[k])
    ensures forall k :: 0 <= k < |NonEmpty(parts)| ==> NoBreaks(NonEmpty(parts)[k])
  {
    if |parts| > 0 {
      NonEmptyKeeps(parts[1..]);
    }
  }

  /** Every line followed by "\n": what writing each line plus "\n" to a file produces. */
  function JoinLines(lines: seq<string>): string {
    if |lines| == 0 then "" else lines[0] + "\n" + JoinLines(lines[1..])
  }

  lemma {:induction false} SplitBreaksNone(a: string)
    requires NoBreaks(a)
    ensures SplitBreaks(a) == [a]
  {
    if |a| > 0 {
      SplitBreaksNone(a[1..]);
      assert [a[0]] + a[1..] == a;
    }
  }

  lemma {:induction false} SplitBreaksFirst(a: string, b: string)
    requires NoBreaks(a)
    ensures SplitBreaks(a + "\n" + b) == [a] + SplitBreaks(b)
  {
    if |a| == 0 {
      assert a + "\n" + b == "\n" + b;
      assert ("\n" + b)[1..] == b;
    } else {
      assert (a + "\n" + b)[1..] == a[1..] + "\n" + b;
      SplitBreaksFirst(a[1..], b);
      assert [a[0]] + a[1..] == a;
    }
  }

  /** Lines written one per line are read back as the same lines, in order. */
  lemma {:induction false} SplitLinesJoinLines(lines: seq<string>)
    requires forall k :: 0 <= k < |lines| ==> lines[k] != "" && NoBreaks(lines[k])
    ensures SplitLines(JoinLines(lines)) == lines
  {
    if |lines| == 0 {
      assert SplitBreaks("") == [""];
    } else {
      SplitLinesJoinLines(lines[1..]);
      SplitBreaksFirst(lines[0], JoinLines(lines[1..]));
      var parts := SplitBreaks(JoinLines(lines));
      assert parts[1..] == SplitBreaks(JoinLines(lines[1..]));
      assert [lines[0]] + lines[1..] == lines;
    }
  }

  /** Python's universal-newline translation on reading: "\r\n" and "\r" become "\n". */
  function TranslateNewlines(s: string): (r: string)
    ensures '\r' !in r
  {
    if |s| == 0 then ""
    else if s[0] == '\r' then
      (if |s| > 1 && s[1] == '\n' then "\n" + TranslateNewlines(s[2..]) else "\n" + TranslateNewlines(s[1..]))
    else [s[0]] + TranslateNewlines(s[1..])
  }

  /** Text without carriage returns reads back unchanged. */
  lemma {:induction false} TranslateNewlinesNoCR(s: string)
    requires '\r' !in s
    ensures TranslateNewlines(s) == s
  {
    if |s| > 0 {
      TranslateNewlinesNoCR(s[1..]);
      assert [s[0]] + s[1..] == s;
    }
  }
}
