/** The Python string operations the tools rely on (str.strip, str.lower,
    str.upper, str.split, str.join, str.startswith, the `in` test on strings),
    restricted to ASCII whitespace and case, plus the splitting of a form's
    multi-line text into non-blank lines and the rendering of output lines. */
module Text {

  /** str.isspace() on ASCII: space, \t \n \v \f \r and the separators 0x1C..0x1F. */
  predicate IsSpace(c: char) {
    c == ' ' || 9 <= c as int <= 13 || 28 <= c as int <= 31
  }

  /** The number of whitespace characters s starts with. */
  function Leading(s: string): (n: nat)
    ensures n <= |s|
  {
    if s != [] && IsSpace(s[0]) then 1 + Leading(s[1..]) else 0
  }

  /** Leading(s) counts exactly the whitespace run at the front of s. */
  lemma {:induction false} LeadingSpaces(s: string)
    ensures forall k :: 0 <= k < Leading(s) ==> IsSpace(s[k])
    ensures Leading(s) == |s| || !IsSpace(s[Leading(s)])
  {
    if s != [] && IsSpace(s[0]) {
      LeadingSpaces(s[1..]);
    }
  }

  /** Trailing whitespace removed. */
  function TrimEnd(s: string): string {
    if s != [] && IsSpace(s[|s| - 1]) then TrimEnd(s[..|s| - 1]) else s
  }

  /** TrimEnd keeps a prefix of s, drops only whitespace, and leaves no
      whitespace at the end. */
  lemma {:induction false} TrimEndShape(s: string)
    ensures |TrimEnd(s)| <= |s| && TrimEnd(s) == s[..|TrimEnd(s)|]
    ensures forall k :: |TrimEnd(s)| <= k < |s| ==> IsSpace(s[k])
    ensures TrimEnd(s) == [] || !IsSpace(TrimEnd(s)[|TrimEnd(s)| - 1])
  {
    if s != [] && IsSpace(s[|s| - 1]) {
      TrimEndShape(s[..|s| - 1]);
    }
  }

  /** str.strip(): whitespace dropped at both ends. */
  function Strip(s: string): string {
    TrimEnd(s[Leading(s)..])
  }

  /** Strip(s) is the slice of s left after dropping whitespace at both ends:
      it neither starts nor ends with whitespace, and all it dropped is whitespace. */
  lemma StripShape(s: string)
    ensures Trimmed(Strip(s))
    ensures Leading(s) + |Strip(s)| <= |s| && Strip(s) == s[Leading(s)..Leading(s) + |Strip(s)|]
    ensures forall k :: 0 <= k < Leading(s) ==> IsSpace(s[k])
    ensures forall k :: Leading(s) + |Strip(s)| <= k < |s| ==> IsSpace(s[k])
  {
    StripSlice(s);
    StripTrimmed(s);
    LeadingSpaces(s);
  }

  lemma StripSlice(s: string)
    ensures Leading(s) + |Strip(s)| <= |s| && Strip(s) == s[Leading(s)..Leading(s) + |Strip(s)|]
    ensures forall k :: Leading(s) + |Strip(s)| <= k < |s| ==> IsSpace(s[k])
  {
    var n := Leading(s);
    var tail := s[n..];
    var r := Strip(s);
    TrimEndShape(tail);
    assert r == tail[..|r|] == s[n..n + |r|];
    forall k | n + |r| <= k < |s| ensures IsSpace(s[k]) {
      assert s[k] == tail[k - n];
    }
  }

  lemma StripTrimmed(s: string)
    ensures Trimmed(Strip(s))
  {
    var n := Leading(s);
    var tail := s[n..];
    var r := Strip(s);
    TrimEndShape(tail);
    LeadingSpaces(s);
    if r != [] {
      assert r[0] == tail[0] == s[n];
    }
  }

  /** s neither starts nor ends with whitespace. */
  predicate Trimmed(s: string) {
    s == [] || (!IsSpace(s[0]) && !IsSpace(s[|s| - 1]))
  }

  /** A string that neither starts nor ends with whitespace is its own strip. */
  lemma StripClean(s: string)
    requires Trimmed(s)
    ensures Strip(s) == s
  {
  }

  /** Stripping twice is stripping once. */
  lemma StripIdempotent(s: string)
    ensures Strip(Strip(s)) == Strip(s)
  {
    StripShape(s);
    StripClean(Strip(s));
  }

  /** A line strips to nothing exactly when it is whitespace only. */
  lemma {:induction false} StripEmptyIffBlank(s: string)
    ensures Strip(s) == [] <==> forall k :: 0 <= k < |s| ==> IsSpace(s[k])
  {
    var r := Strip(s);
    StripShape(s);
    LeadingSpaces(s);
    if r != [] {
      assert s[Leading(s)] == r[0];
    }
  }

  /** Stripping a leading whitespace character changes nothing. */
  lemma StripSpacePrefix(c: char, s: string)
    requires IsSpace(c)
    ensures Strip([c] + s) == Strip(s)
  {
    assert ([c] + s)[1..] == s;
    assert ([c] + s)[1 + Leading(s)..] == s[Leading(s)..];
  }

  /** A character absent from s is absent from Strip(s). */
  lemma StripKeepsOut(s: string, c: char)
    requires c !in s
    ensures c !in Strip(s)
  {
    StripShape(s);
  }

  function LowerChar(c: char): char {
    if 'A' <= c <= 'Z' then (c as int + 32) as char else c
  }

  function UpperChar(c: char): char {
    if 'a' <= c <= 'z' then (c as int - 32) as char else c
  }

  /** str.lower() on ASCII letters. */
  function Lower(s: string): string {
    seq(|s|, i requires 0 <= i < |s| => LowerChar(s[i]))
  }

  /** str.upper() on ASCII letters. */
  function Upper(s: string): string {
    seq(|s|, i requires 0 <= i < |s| => UpperChar(s[i]))
  }

  /** Upper-casing distributes over concatenation. */
  lemma UpperConcat(a: string, b: string)
    ensures Upper(a + b) == Upper(a) + Upper(b)
  {
  }

  /** sub occurs in s starting at index i. */
  predicate OccursAt(s: string, sub: string, i: int) {
    0 <= i <= |s| - |sub| && s[i..i + |sub|] == sub
  }

  /** The `sub in s` test on strings. */
  predicate Contains(s: string, sub: string) {
    exists i | 0 <= i <= |s| - |sub| :: OccursAt(s, sub, i)
  }

  /** str.startswith(prefix). */
  predicate StartsWith(s: string, prefix: string) {
    |prefix| <= |s| && s[..|prefix|] == prefix
  }

  /** Number of occurrences of c in s. */
  function Count(s: string, c: char): nat {
    if s == [] then 0 else (if s[0] == c then 1 else 0) + Count(s[1..], c)
  }

  /** str.split(sep) for a one-character separator: the pieces between the
      separators, one more piece than there are separators, none containing sep. */
  function Split(s: string, sep: char): (r: seq<string>)
    ensures |r| == Count(s, sep) + 1
    ensures forall k :: 0 <= k < |r| ==> sep !in r[k]
  {
    if s == [] then [""]
    else
      var rest := Split(s[1..], sep);
      if s[0] == sep then [""] + rest else [[s[0]] + rest[0]] + rest[1..]
  }

  /** sep.join(parts). */
  function Join(parts: seq<string>, sep: string): string {
    if |parts| == 0 then ""
    else if |parts| == 1 then parts[0]
    else parts[0] + sep + Join(parts[1..], sep)
  }

  /** The list comprehension [p.strip() for p in parts]. */
  function StripAll(parts: seq<string>): seq<string> {
    seq(|parts|, i requires 0 <= i < |parts| => Strip(parts[i]))
  }

  /** Joining the pieces of a split with the same separator gives the string back. */
  lemma {:induction false} JoinSplit(s: string, sep: char)
    ensures Join(Split(s, sep), [sep]) == s
  {
    if s != [] {
      JoinSplit(s[1..], sep);
      var rest := Split(s[1..], sep);
      if s[0] == sep {
        assert ([""] + rest)[1..] == rest;
      } else if |rest| > 1 {
        assert ([[s[0]] + rest[0]] + rest[1..])[1..] == rest[1..];
      }
    }
  }

  /** A string without the separator splits into itself alone. */
  lemma {:induction false} SplitNoSep(s: string, sep: char)
    requires sep !in s
    ensures Split(s, sep) == [s]
  {
    if s != [] {
      assert s == [s[0]] + s[1..];
      SplitNoSep(s[1..], sep);
    }
  }

  /** Splitting at the first separator. */
  lemma {:induction false} SplitAtFirst(a: string, b: string, sep: char)
    requires sep !in a
    ensures Split(a + [sep] + b, sep) == [a] + Split(b, sep)
  {
    var s := a + [sep] + b;
    if a == [] {
      assert s[1..] == b;
    } else {
      assert s[1..] == a[1..] + [sep] + b;
      SplitAtFirst(a[1..], b, sep);
      assert s[0] == a[0] && [a[0]] + a[1..] == a;
    }
  }

  /** Splitting a join gives the parts back when no part holds the separator. */
  lemma {:induction false} SplitJoin(parts: seq<string>, sep: char)
    requires |parts| >= 1
    requires forall k :: 0 <= k < |parts| ==> sep !in parts[k]
    ensures Split(Join(parts, [sep]), sep) == parts
  {
    if |parts| == 1 {
      SplitNoSep(parts[0], sep);
    } else {
      SplitJoin(parts[1..], sep);
      SplitAtFirst(parts[0], Join(parts[1..], [sep]), sep);
    }
  }

  /** A character absent from s is absent from every piece of a split of s. */
  lemma {:induction false} SplitKeepsOut(s: string, sep: char, c: char)
    requires c !in s
    ensures forall k :: 0 <= k < |Split(s, sep)| ==> c !in Split(s, sep)[k]
  {
    if s != [] {
      SplitKeepsOut(s[1..], sep, c);
    }
  }

  /** Reading a ", "-joined list back: split on the separator and strip each
      piece, and the parts come back when they hold no separator and carry no
      surrounding whitespace. */
  lemma {:induction false} StripSplitJoin(parts: seq<string>, sep: char)
    requires !IsSpace(sep)
    requires |parts| >= 1
    requires forall k :: 0 <= k < |parts| ==> sep !in parts[k] && Trimmed(parts[k])
    ensures StripAll(Split(Join(parts, [sep, ' ']), sep)) == parts
  {
    if |parts| == 1 {
      SplitNoSep(parts[0], sep);
      StripClean(parts[0]);
      assert StripAll([parts[0]]) == [parts[0]];
    } else {
      var tail := Join(parts[1..], [sep, ' ']);
      StripSplitJoin(parts[1..], sep);
      var j := Join(parts, [sep, ' ']);
      ConcatPair(parts[0], sep, ' ', tail);
      SplitAtFirst(parts[0], [' '] + tail, sep);
      StripAllSpacePrefix(tail, sep);
      StripClean(parts[0]);
      StripAllCons(parts[0], Split([' '] + tail, sep));
    }
  }

  lemma StripAllCons(x: string, xs: seq<string>)
    ensures StripAll([x] + xs) == [Strip(x)] + StripAll(xs)
  {
    var l := StripAll([x] + xs);
    var r := [Strip(x)] + StripAll(xs);
    assert |l| == |r|;
    forall i | 0 <= i < |l| ensures l[i] == r[i] {
      if i > 0 {
        assert ([x] + xs)[i] == xs[i - 1];
      }
    }
  }

  lemma ConcatPair(a: string, b: char, c: char, t: string)
    ensures a + [b, c] + t == a + [b] + ([c] + t)
  {
  }

  /** A space in front of a split string only pads the first piece, which
      stripping removes again. */
  lemma StripAllSpacePrefix(s: string, sep: char)
    requires !IsSpace(sep)
    ensures StripAll(Split([' '] + s, sep)) == StripAll(Split(s, sep))
  {
    var ys := Split(s, sep);
    var zs := Split([' '] + s, sep);
    assert ([' '] + s)[1..] == s;
    assert zs == [[' '] + ys[0]] + ys[1..];
    StripSpacePrefix(' ', ys[0]);
    assert |zs| == |ys|;
    forall i | 0 <= i < |ys|
      ensures StripAll(zs)[i] == StripAll(ys)[i]
    {
      if i > 0 {
        assert zs[i] == ys[i];
      }
    }
  }

  /** Output lines, each followed by a newline (the `output += ...\n` pattern). */
  function Unlines(lines: seq<string>): string {
    if lines == [] then "" else lines[0] + "\n" + Unlines(lines[1..])
  }

  /** Appending one line to the output. */
  lemma {:induction false} UnlinesAppend(lines: seq<string>, line: string)
    ensures Unlines(lines + [line]) == Unlines(lines) + line + "\n"
  {
    if lines != [] {
      assert (lines + [line])[1..] == lines[1..] + [line];
      UnlinesAppend(lines[1..], line);
    }
  }

  /** Rendering two runs of lines one after the other. */
  lemma {:induction false} UnlinesConcat(first: seq<string>, second: seq<string>)
    ensures Unlines(first + second) == Unlines(first) + Unlines(second)
  {
    if first == [] {
      assert first + second == second;
    } else {
      assert (first + second)[1..] == first[1..] + second;
      UnlinesConcat(first[1..], second);
    }
  }

  /** Splitting rendered output on newlines gives the lines back, followed by
      the empty piece after the final newline. */
  lemma {:induction false} SplitUnlines(lines: seq<string>)
    requires forall k :: 0 <= k < |lines| ==> '\n' !in lines[k]
    ensures Split(Unlines(lines), '\n') == lines + [""]
  {
    UnlinesAsJoin(lines);
    SplitJoin(lines + [""], '\n');
  }

  lemma {:induction false} UnlinesAsJoin(lines: seq<string>)
    ensures Unlines(lines) == Join(lines + [""], "\n")
  {
    if lines != [] {
      assert (lines + [""])[1..] == lines[1..] + [""];
      UnlinesAsJoin(lines[1..]);
    }
  }

  /** The stripped, non-empty lines of a list of lines, in order: the loop's
      `line = line.strip(); if not line: continue`. */
  function NonBlank(lines: seq<string>): (r: seq<string>)
    ensures |r| <= |lines|
    ensures forall k :: 0 <= k < |r| ==> r[k] != "" && Strip(r[k]) == r[k]
  {
    if lines == [] then []
    else
      var prev := NonBlank(lines[..|lines| - 1]);
      var line := Strip(lines[|lines| - 1]);
      StripIdempotent(lines[|lines| - 1]);
      if line == "" then prev else prev + [line]
  }

  /** One more line of input: NonBlank keeps it, stripped, unless it is blank. */
  lemma NonBlankSnoc(lines: seq<string>, line: string)
    ensures NonBlank(lines + [line])
      == if Strip(line) == "" then NonBlank(lines) else NonBlank(lines) + [Strip(line)]
  {
    assert (lines + [line])[..|lines|] == lines;
  }

  /** NonBlankSnoc for the first i + 1 lines, as the loops use it. */
  lemma NonBlankStep(lines: seq<string>, i: nat)
    requires i < |lines|
    ensures NonBlank(lines[..i + 1])
      == if Strip(lines[i]) == "" then NonBlank(lines[..i]) else NonBlank(lines[..i]) + [Strip(lines[i])]
  {
    assert lines[..i + 1] == lines[..i] + [lines[i]];
    NonBlankSnoc(lines[..i], lines[i]);
  }

  /** Filtering two runs of lines is filtering each and concatenating: the
      blank-line filter drops and strips line by line, keeping the order. */
  lemma {:induction false} NonBlankConcat(a: seq<string>, b: seq<string>)
    ensures NonBlank(a + b) == NonBlank(a) + NonBlank(b)
  {
    if b == [] {
      assert a + b == a;
    } else {
      var b', last := b[..|b| - 1], b[|b| - 1];
      assert a + b == (a + b') + [last];
      assert b == b' + [last];
      NonBlankConcat(a, b');
      NonBlankSnoc(a + b', last);
      NonBlankSnoc(b', last);
    }
  }

  /** A single line is kept, stripped, exactly when it is not blank. */
  lemma NonBlankOne(line: string)
    ensures NonBlank([line]) == if Strip(line) == "" then [] else [Strip(line)]
  {
    assert [line][..0] == [];
  }

  /** Every line that is not blank is kept, stripped, and every blank line is
      dropped: the filtered list has one entry per non-blank line, at the
      position given by the non-blank lines before it. */
  lemma NonBlankKeeps(lines: seq<string>, k: nat)
    requires k < |lines|
    ensures Strip(lines[k]) != "" ==>
      |NonBlank(lines[..k])| < |NonBlank(lines)| && NonBlank(lines)[|NonBlank(lines[..k])|] == Strip(lines[k])
    ensures Strip(lines[k]) == "" ==> NonBlank(lines[..k + 1]) == NonBlank(lines[..k])
  {
    assert lines == lines[..k] + ([lines[k]] + lines[k + 1..]);
    assert lines[..k + 1] == lines[..k] + [lines[k]];
    NonBlankConcat(lines[..k], [lines[k]] + lines[k + 1..]);
    NonBlankConcat([lines[k]], lines[k + 1..]);
    NonBlankConcat(lines[..k], [lines[k]]);
    NonBlankOne(lines[k]);
  }

  /** The lines a tool acts on: input_data.strip().split('\n'), blank lines dropped. */
  function FormLines(input: string): (r: seq<string>)
    ensures forall k :: 0 <= k < |r| ==> r[k] != "" && Strip(r[k]) == r[k] && '\n' !in r[k]
  {
    var lines := Split(Strip(input), '\n');
    NoNewlineInNonBlank(lines);
    NonBlank(lines)
  }

  lemma {:induction false} NoNewlineInNonBlank(lines: seq<string>)
    requires forall k :: 0 <= k < |lines| ==> '\n' !in lines[k]
    ensures forall k :: 0 <= k < |NonBlank(lines)| ==> '\n' !in NonBlank(lines)[k]
  {
    if lines != [] {
      NoNewlineInNonBlank(lines[..|lines| - 1]);
      StripKeepsOut(lines[|lines| - 1], '\n');
    }
  }

  /** Whitespace-only input leaves no line to act on. */
  lemma BlankFormHasNoLines(input: string)
    requires forall k :: 0 <= k < |input| ==> IsSpace(input[k])
    ensures FormLines(input) == []
  {
    StripEmptyIffBlank(input);
    assert Split("", '\n') == [""];
    assert Strip("") == "";
  }
}
