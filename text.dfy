/** The two string splits `processPlayers` performs: the stat text into lines
    (`split(/\r\n|\n/)`, main.js:22) and each line into fields (`split(',')`, main.js:30). */
module Text {

  /** `s.split(sep)` for a one-character separator: the pieces between separators, in order.
      There is always at least one piece (the empty text gives one empty piece). */
  function Split(s: string, sep: char): (pieces: seq<string>)
    ensures |pieces| >= 1
    decreases |s|
  {
    if s == [] then [""]
    else
      var rest := Split(s[1..], sep);
      if s[0] == sep then [""] + rest
      else [[s[0]] + rest[0]] + rest[1..]
  }

  /** The pieces put back together with the separator between them. */
  function Join(pieces: seq<string>, sep: char): string
    requires |pieces| >= 1
    decreases |pieces|
  {
    if |pieces| == 1 then pieces[0] else pieces[0] + [sep] + Join(pieces[1..], sep)
  }

  lemma {:induction false} JoinConsFirst(c: char, pieces: seq<string>, sep: char)
    requires |pieces| >= 1
    ensures Join([[c] + pieces[0]] + pieces[1..], sep) == [c] + Join(pieces, sep)
  {
    var q := [[c] + pieces[0]] + pieces[1..];
    assert q[1..] == pieces[1..];
  }

  /** Joining the pieces of a split gives the text back. */
  lemma {:induction false} JoinSplit(s: string, sep: char)
    ensures Join(Split(s, sep), sep) == s
    decreases |s|
  {
    if s != [] {
      var rest := Split(s[1..], sep);
      JoinSplit(s[1..], sep);
      if s[0] == sep {
        assert ([""] + rest)[1..] == rest;
      } else {
        JoinConsFirst(s[0], rest, sep);
      }
    }
  }

  /** No piece of a split contains the separator. */
  lemma {:induction false} SplitPiecesFree(s: string, sep: char)
    ensures forall i :: 0 <= i < |Split(s, sep)| ==> sep !in Split(s, sep)[i]
    decreases |s|
  {
    if s != [] {
      SplitPiecesFree(s[1..], sep);
    }
  }

  /** Splitting the join of separator-free pieces gives the pieces back. */
  lemma {:induction false} SplitJoin(pieces: seq<string>, sep: char)
    requires |pieces| >= 1
    requires forall i :: 0 <= i < |pieces| ==> sep !in pieces[i]
    ensures Split(Join(pieces, sep), sep) == pieces
    decreases |pieces|, |pieces[0]|
  {
    var p := pieces[0];
    if p == [] {
      if |pieces| > 1 {
        SplitJoin(pieces[1..], sep);
        var j := Join(pieces, sep);
        assert j == [sep] + Join(pieces[1..], sep);
        assert j[1..] == Join(pieces[1..], sep);
        assert pieces == [""] + pieces[1..];
      }
    } else {
      var shorter := [p[1..]] + pieces[1..];
      assert forall i :: 0 <= i < |shorter| ==> sep !in shorter[i] by {
        forall i | 0 <= i < |shorter| ensures sep !in shorter[i] {
          if i > 0 { assert shorter[i] == pieces[i]; }
        }
      }
      SplitJoin(shorter, sep);
      assert p == [p[0]] + p[1..];
      assert shorter[1..] == pieces[1..];
      JoinConsFirst(p[0], shorter, sep);
      var j := Join(pieces, sep);
      assert [[p[0]] + shorter[0]] + shorter[1..] == pieces;
      assert j == [p[0]] + Join(shorter, sep);
      assert j[0] == p[0] && j[1..] == Join(shorter, sep);
      assert p[0] != sep;
    }
  }

  /** `s.split(/\r\n|\n/)`: the text is cut at every line break, where a line break is
      CR LF or a lone LF, scanning left to right; a lone CR is kept as text. */
  function SplitLines(s: string): (lines: seq<string>)
    ensures |lines| >= 1
    decreases |s|
  {
    if s == [] then [""]
    else if |s| >= 2 && s[0] == '\r' && s[1] == '\n' then [""] + SplitLines(s[2..])
    else if s[0] == '\n' then [""] + SplitLines(s[1..])
    else
      var rest := SplitLines(s[1..]);
      [[s[0]] + rest[0]] + rest[1..]
  }

  /** A piece with one trailing CR taken off, if it has one. */
  function TrimCR(p: string): string {
    if |p| > 0 && p[|p| - 1] == '\r' then p[..|p| - 1] else p
  }

  /** Every piece but the last with its trailing CR taken off. */
  function TrimAllButLast(pieces: seq<string>): (r: seq<string>)
    requires |pieces| >= 1
    ensures |r| == |pieces|
    decreases |pieces|
  {
    if |pieces| == 1 then pieces else [TrimCR(pieces[0])] + TrimAllButLast(pieces[1..])
  }

  /** A split whose first piece is empty but which has more pieces began with the separator. */
  lemma SplitStartsWithSeparator(s: string, sep: char)
    requires Split(s, sep)[0] == [] && |Split(s, sep)| > 1
    ensures s != [] && s[0] == sep
  {
  }

  /** The line split is the same as cutting at every LF and then taking the CR off every line
      that was followed by an LF: no line contains an LF, and every line but the last loses
      exactly the one CR that stood before its LF. */
  lemma {:induction false} SplitLinesByLineFeed(s: string)
    ensures SplitLines(s) == TrimAllButLast(Split(s, '\n'))
    decreases |s|
  {
    if s == [] {
    } else if |s| >= 2 && s[0] == '\r' && s[1] == '\n' {
      SplitLinesByLineFeed(s[2..]);
      assert s[1..][1..] == s[2..];
      var p := Split(s[2..], '\n');
      var rest := Split(s[1..], '\n');
      assert rest == [""] + p;
      assert rest[0] == [] && rest[1..] == p;
      assert Split(s, '\n') == [['\r'] + rest[0]] + rest[1..];
      assert ['\r'] + rest[0] == "\r";
      assert Split(s, '\n') == ["\r"] + p;
      assert (["\r"] + p)[1..] == p;
    } else if s[0] == '\n' {
      SplitLinesByLineFeed(s[1..]);
      assert (Split(s, '\n'))[1..] == Split(s[1..], '\n');
    } else {
      SplitLinesByLineFeed(s[1..]);
      var p := Split(s[1..], '\n');
      var q := [[s[0]] + p[0]] + p[1..];
      assert Split(s, '\n') == q;
      if |p| > 1 {
        assert q[1..] == p[1..];
        if s[0] == '\r' && p[0] == [] {
          SplitStartsWithSeparator(s[1..], '\n');
          assert false;
        }
        assert TrimCR([s[0]] + p[0]) == [s[0]] + TrimCR(p[0]);
      }
    }
  }
}
