/** Splitting text at a mark, the inverse of joining parts that do not hold it. */
module Splitting {

  /** The parts with one more character in front. */
  function Extended(c: char, rest: seq<string>, mark: char): (r: seq<string>)
    requires rest != []
    ensures r != []
  {
    if c == mark then [""] + rest else [[c] + rest[0]] + rest[1..]
  }

  /** The parts between the marks, one more than there are marks. */
  function SplitOn(s: string, mark: char): (r: seq<string>)
    ensures r != []
  {
    if s == [] then [""] else Extended(s[0], SplitOn(s[1..], mark), mark)
  }

  /** The parts with more text at the end of the last. */
  function Longer(parts: seq<string>, more: string): (r: seq<string>)
    requires parts != []
    ensures r != []
  {
    parts[..|parts| - 1] + [parts[|parts| - 1] + more]
  }

  lemma ExtendedLonger(c: char, rest: seq<string>, more: string, mark: char)
    requires rest != []
    ensures Extended(c, Longer(rest, more), mark) == Longer(Extended(c, rest, mark), more)
  {
    if |rest| == 1 { assert [c] + (rest[0] + more) == ([c] + rest[0]) + more; }
  }

  /** Text without the mark goes on with the last part. */
  lemma {:induction false} SplitAppend(s: string, part: string, mark: char)
    requires mark !in part
    ensures SplitOn(s + part, mark) == Longer(SplitOn(s, mark), part)
    decreases |s|
  {
    if s == [] {
      assert s + part == part && "" + part == part;
      SplitWhole(part, mark);
    } else {
      var whole := s + part;
      SplitAppend(s[1..], part, mark);
      assert whole[1..] == s[1..] + part && whole[0] == s[0];
      ExtendedLonger(s[0], SplitOn(s[1..], mark), part, mark);
    }
  }

  lemma {:induction false} SplitWhole(part: string, mark: char)
    requires mark !in part
    ensures SplitOn(part, mark) == [part]
  {
    if part != [] {
      SplitWhole(part[1..], mark);
      assert part[0] in part && part == [part[0]] + part[1..];
    }
  }

  /** A mark ends a part and begins an empty one. */
  lemma {:induction false} SplitMark(s: string, mark: char)
    ensures SplitOn(s + [mark], mark) == SplitOn(s, mark) + [""]
    decreases |s|
  {
    if s == [] {
      assert s + [mark] == [mark] && [mark][1..] == [];
    } else {
      SplitMark(s[1..], mark);
      assert (s + [mark])[1..] == s[1..] + [mark];
    }
  }

  /** One part before a mark. */
  lemma {:induction false} SplitBefore(part: string, mark: char, rest: string)
    requires mark !in part
    ensures SplitOn(part + [mark] + rest, mark) == [part] + SplitOn(rest, mark)
    decreases |part|
  {
    var whole := part + [mark] + rest;
    if part == [] {
      assert whole[1..] == rest;
    } else {
      assert part[0] in part && part == [part[0]] + part[1..];
      SplitBefore(part[1..], mark, rest);
      assert whole[1..] == part[1..] + [mark] + rest;
      assert ([part[1..]] + SplitOn(rest, mark))[1..] == SplitOn(rest, mark);
    }
  }

  /** One more line, each line ending with the mark. */
  lemma LineFollows(before: string, lines: seq<string>, line: string, mark: char)
    requires mark !in line && SplitOn(before, mark) == lines + [""]
    ensures SplitOn(before + (line + [mark]), mark) == (lines + [line]) + [""]
  {
    SplitAppend(before, line, mark);
    SplitMark(before + line, mark);
    assert before + (line + [mark]) == (before + line) + [mark];
    assert "" + line == line;
  }

  /** One more part after a mark. */
  lemma SplitOneMore(s: string, mark: char, part: string)
    requires mark !in part
    ensures SplitOn(s + [mark] + part, mark) == SplitOn(s, mark) + [part]
  {
    SplitMark(s, mark);
    SplitAppend(s + [mark], part, mark);
    assert "" + part == part;
  }
}
