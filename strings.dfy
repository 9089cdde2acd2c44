/**
 * Go's strings.Split and strings.Join, restricted to a one-character
 * separator, which is how the core uses them (" ", "\n" and "/").
 */
module Strings {

  /**
   * strings.Split(s, string(sep)): the pieces of `s` between occurrences of
   * `sep`, so there is always one piece more than separators and the empty
   * string gives a single empty piece.
   */
  function Split(s: string, sep: char): (pieces: seq<string>)
    ensures |pieces| >= 1
    ensures |pieces| == 1 <==> sep !in s
    ensures forall i :: 0 <= i < |pieces| ==> sep !in pieces[i]
    decreases |s|
  {
    if s == [] then [""]
    else
      var rest := Split(s[1..], sep);
      if s[0] == sep then [""] + rest
      else [[s[0]] + rest[0]] + rest[1..]
  }

  /** strings.Join(parts, string(sep)): the parts with one `sep` between neighbours. */
  function Join(parts: seq<string>, sep: char): (s: string)
    ensures |parts| >= 1 ==> |parts[0]| <= |s| && s[..|parts[0]|] == parts[0]
    decreases |parts|
  {
    if |parts| == 0 then ""
    else if |parts| == 1 then parts[0]
    else parts[0] + [sep] + Join(parts[1..], sep)
  }

  /** The first piece is a prefix of `s`, and all of `s` when there is no separator. */
  lemma {:induction false} SplitHead(s: string, sep: char)
    ensures var pieces := Split(s, sep);
            && |pieces[0]| <= |s| && s[..|pieces[0]|] == pieces[0]
            && (|pieces| == 1 ==> pieces[0] == s)
    decreases |s|
  {
    if s != [] && s[0] != sep {
      var tail := s[1..];
      var rest := Split(tail, sep);
      assert Split(s, sep) == [[s[0]] + rest[0]] + rest[1..];
      SplitHead(tail, sep);
      assert s[..1 + |rest[0]|] == [s[0]] + tail[..|rest[0]|];
      assert s == [s[0]] + tail;
    }
  }

  /**
   * With two pieces or more, a separator follows the first piece, and the
   * remaining pieces are the split of the text after it.
   */
  lemma {:induction false} SplitAfterHead(s: string, sep: char)
    requires |Split(s, sep)| >= 2
    ensures var pieces := Split(s, sep);
            && |pieces[0]| < |s| && s[|pieces[0]|] == sep
            && Split(s[|pieces[0]| + 1..], sep) == pieces[1..]
    decreases |s|
  {
    if s[0] != sep {
      var tail := s[1..];
      var rest := Split(tail, sep);
      assert Split(s, sep) == [[s[0]] + rest[0]] + rest[1..];
      SplitAfterHead(tail, sep);
      assert s[1 + |rest[0]|] == tail[|rest[0]|];
      assert s[1 + |rest[0]| + 1..] == tail[|rest[0]| + 1..];
    }
  }

  /** With two pieces or more, the first ends at the first separator. */
  lemma FirstPieceEnds(s: string, sep: char)
    requires |Split(s, sep)| >= 2
    ensures var first := Split(s, sep)[0];
            |first| < |s| && s[|first|] == sep && s[..|first|] == first && sep !in s[..|first|]
  {
    SplitHead(s, sep);
    SplitAfterHead(s, sep);
    assert sep !in Split(s, sep)[0];
  }

  /** With two pieces or more, the second runs from after the first separator to the next one or the end. */
  lemma SecondPiece(s: string, sep: char)
    requires |Split(s, sep)| >= 2
    ensures var pieces := Split(s, sep);
            var start := |pieces[0]| + 1;
            && start + |pieces[1]| <= |s| && s[start..start + |pieces[1]|] == pieces[1]
            && (start + |pieces[1]| < |s| ==> s[start + |pieces[1]|] == sep)
  {
    var pieces := Split(s, sep);
    var second := pieces[1];
    var start := |pieces[0]| + 1;
    SplitAfterHead(s, sep);
    var rest := s[start..];
    var later := Split(rest, sep);
    assert later[0] == second;
    SplitHead(rest, sep);
    assert s[start..start + |second|] == rest[..|second|];
    if |later| >= 2 {
      SplitAfterHead(rest, sep);
      assert s[start + |second|] == rest[|second|];
    }
  }

  /**
   * When there are at least two pieces, the first ends at the first
   * separator and the second is the text after it, up to the next separator
   * or the end of `s`.
   */
  lemma FirstTwoPieces(s: string, sep: char)
    requires |Split(s, sep)| >= 2
    ensures var pieces := Split(s, sep);
            var h := |pieces[0]|;
            && h < |s| && s[h] == sep && s[..h] == pieces[0] && sep !in s[..h]
            && h + 1 + |pieces[1]| <= |s| && s[h + 1..h + 1 + |pieces[1]|] == pieces[1]
            && (h + 1 + |pieces[1]| < |s| ==> s[h + 1 + |pieces[1]|] == sep)
  {
    FirstPieceEnds(s, sep);
    SecondPiece(s, sep);
  }

  /** A piece free of the separator stays whole. */
  lemma {:induction false} SplitNoSeparator(x: string, sep: char)
    requires sep !in x
    ensures Split(x, sep) == [x]
    decreases |x|
  {
    if x != [] {
      assert x[0] != sep;
      SplitNoSeparator(x[1..], sep);
      assert [x[0]] + x[1..] == x;
    }
  }

  /** Splitting at the first separator peels off the piece before it. */
  lemma {:induction false} SplitAtFirst(x: string, sep: char, rest: string)
    requires sep !in x
    ensures Split(x + [sep] + rest, sep) == [x] + Split(rest, sep)
    decreases |x|
  {
    var s := x + [sep] + rest;
    if x == [] {
      assert s[1..] == rest;
    } else {
      assert s[0] == x[0] && x[0] != sep;
      assert s[1..] == x[1..] + [sep] + rest;
      SplitAtFirst(x[1..], sep, rest);
      assert [x[0]] + x[1..] == x;
    }
  }

  /** Joining parts that do not contain the separator and splitting again gives the parts back. */
  lemma {:induction false} SplitJoin(parts: seq<string>, sep: char)
    requires |parts| >= 1
    requires forall i :: 0 <= i < |parts| ==> sep !in parts[i]
    ensures Split(Join(parts, sep), sep) == parts
    decreases |parts|
  {
    if |parts| == 1 {
      SplitNoSeparator(parts[0], sep);
    } else {
      SplitJoin(parts[1..], sep);
      SplitAtFirst(parts[0], sep, Join(parts[1..], sep));
      assert [parts[0]] + parts[1..] == parts;
    }
  }

  /** Splitting and joining again gives the original string back, whatever it is. */
  lemma {:induction false} JoinSplit(s: string, sep: char)
    ensures Join(Split(s, sep), sep) == s
    decreases |s|
  {
    var pieces := Split(s, sep);
    SplitHead(s, sep);
    if |pieces| >= 2 {
      var h := |pieces[0]|;
      SplitAfterHead(s, sep);
      JoinSplit(s[h + 1..], sep);
      JoinAtSeparator(s, sep, h, pieces[0], pieces[1..]);
      assert [pieces[0]] + pieces[1..] == pieces;
    } else {
      assert Join(pieces, sep) == pieces[0];
    }
  }

  /** A string with a separator at `h` is the join of its prefix and of parts that join to its rest. */
  lemma JoinAtSeparator(s: string, sep: char, h: nat, first: string, rest: seq<string>)
    requires h < |s| && s[h] == sep && s[..h] == first
    requires |rest| >= 1 && Join(rest, sep) == s[h + 1..]
    ensures Join([first] + rest, sep) == s
  {
    JoinCons(first, rest, sep);
    assert s == s[..h] + [s[h]] + s[h + 1..];
  }

  /** Joining a part in front of others puts one separator between them. */
  lemma JoinCons(part: string, parts: seq<string>, sep: char)
    requires |parts| >= 1
    ensures Join([part] + parts, sep) == part + [sep] + Join(parts, sep)
  {
    assert ([part] + parts)[1..] == parts;
  }
}
