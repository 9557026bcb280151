/** `processPlayers` (main.js:20-48): the stat text becomes a map from player name to that
    player's PER values, one per quarter, in the order the lines list them. */
module PlayerStats {
  import opened Constants
  import opened Seqs
  import opened Text

  /** The contents of `playerMap`: a JavaScript `Map` keeps its keys in insertion order, so it
      is the key order `names` together with the lookup `per`. */
  datatype Table = Table(names: seq<string>, per: map<string, seq<real>>)

  /** The empty `new Map()` of main.js:2. */
  const EmptyTable := Table([], map[])

  /** The stat lines: the text split at line breaks with the header line shifted off. */
  function StatLines(text: string): seq<string> {
    SplitLines(text)[1..]
  }

  /** A line is used unless its comma split has at most one field (main.js:32). */
  predicate Kept(line: string) {
    |Split(line, ',')| > 1
  }

  /** The player name, the second field (main.js:35). */
  function NameOf(line: string): string
    requires Kept(line)
  {
    Split(line, ',')[1]
  }

  /** The text `parseFloat` reads: the tenth field, or `undefined` (which `parseFloat`
      reads as the text "undefined") when the line is shorter (main.js:44). */
  function PerText(line: string): string {
    var fields := Split(line, ',');
    if |fields| > 9 then fields[9] else "undefined"
  }

  /** The line is used and names player `n`. */
  predicate Mentions(line: string, n: string) {
    Kept(line) && NameOf(line) == n
  }

  /** One pass of the loop body at main.js:28-48. */
  function Step(t: Table, line: string, parse: string -> real): Table {
    if !Kept(line) then t
    else
      var name := NameOf(line);
      var t1 := if name in t.per then t else Table(t.names + [name], t.per[name := []]);
      Table(t1.names, t1.per[name := t1.per[name] + [parse(PerText(line))]])
  }

  /** The table after the loop has gone over `lines`, starting from `t`. */
  function Ingest(t: Table, lines: seq<string>, parse: string -> real): Table
    decreases |lines|
  {
    if lines == [] then t
    else Step(Ingest(t, lines[..|lines| - 1], parse), lines[|lines| - 1], parse)
  }

  /** The table built from the empty map. */
  function Load(lines: seq<string>, parse: string -> real): Table {
    Ingest(EmptyTable, lines, parse)
  }

  /** The key order lists each key of the map exactly once. */
  ghost predicate WellFormed(t: Table) {
    KeyOrder(t.names, t.per)
  }

  /** `names` lists each key of `per` exactly once. */
  ghost predicate KeyOrder(names: seq<string>, per: map<string, seq<real>>) {
    NoDup(names) && forall n :: n in per <==> n in names
  }

  /** Every player has a PER value for each of the four quarters. */
  ghost predicate Complete(t: Table) {
    FourQuarters(t.per)
  }

  /** Every list in `per` has a value for each of the four quarters. */
  ghost predicate FourQuarters(per: map<string, seq<real>>) {
    forall n :: n in per ==> |per[n]| >= NumQuarters
  }

  /** Reference definition of one player's list: the parsed tenth fields of the used lines
      that name the player, in input order. */
  function ValuesOf(lines: seq<string>, n: string, parse: string -> real): seq<real>
    decreases |lines|
  {
    if lines == [] then []
    else (if Mentions(lines[0], n) then [parse(PerText(lines[0]))] else [])
         + ValuesOf(lines[1..], n, parse)
  }

  /** The index of the first used line naming `n`, or `|lines|` if there is none. */
  function FirstMention(lines: seq<string>, n: string): (i: nat)
    ensures i <= |lines|
    ensures i < |lines| ==> Mentions(lines[i], n)
    ensures forall j :: 0 <= j < i ==> !Mentions(lines[j], n)
    decreases |lines|
  {
    if lines == [] then 0
    else if Mentions(lines[0], n) then 0
    else 1 + FirstMention(lines[1..], n)
  }

  lemma {:induction false} ValuesOfSnoc(lines: seq<string>, line: string, n: string, parse: string -> real)
    ensures ValuesOf(lines + [line], n, parse)
         == ValuesOf(lines, n, parse) + (if Mentions(line, n) then [parse(PerText(line))] else [])
    decreases |lines|
  {
    if lines != [] {
      assert (lines + [line])[1..] == lines[1..] + [line];
      ValuesOfSnoc(lines[1..], line, n, parse);
    }
  }

  lemma {:induction false} FirstMentionSnoc(lines: seq<string>, line: string, n: string)
    ensures FirstMention(lines + [line], n)
         == if FirstMention(lines, n) < |lines| then FirstMention(lines, n)
            else if Mentions(line, n) then |lines| else |lines| + 1
    decreases |lines|
  {
    if lines != [] {
      assert (lines + [line])[1..] == lines[1..] + [line];
      FirstMentionSnoc(lines[1..], line, n);
    }
  }

  /** Each step keeps the key order and the map in agreement. */
  lemma {:induction false} IngestWellFormed(t: Table, lines: seq<string>, parse: string -> real)
    requires WellFormed(t)
    ensures WellFormed(Ingest(t, lines, parse))
    decreases |lines|
  {
    if lines != [] {
      var init := lines[..|lines| - 1];
      IngestWellFormed(t, init, parse);
      var u := Ingest(t, init, parse);
      var line := lines[|lines| - 1];
      if Kept(line) && NameOf(line) !in u.per {
        forall i, j | 0 <= i < j < |u.names| + 1
          ensures (u.names + [NameOf(line)])[i] != (u.names + [NameOf(line)])[j]
        {
          if j == |u.names| { assert u.names[i] in u.names; }
        }
      }
    }
  }

  /** One step adds a key exactly when the line is used and names a player not yet seen. */
  lemma StepKeys(t: Table, line: string, parse: string -> real, n: string)
    ensures n in Step(t, line, parse).per <==> n in t.per || Mentions(line, n)
    ensures Step(t, line, parse).names
         == if Kept(line) && NameOf(line) !in t.per then t.names + [NameOf(line)] else t.names
  {
  }

  /** One step appends the line's parsed PER to the list of the player it names and to no other. */
  lemma StepValues(t: Table, line: string, parse: string -> real, n: string)
    ensures (if n in Step(t, line, parse).per then Step(t, line, parse).per[n] else [])
         == (if n in t.per then t.per[n] else [])
            + (if Mentions(line, n) then [parse(PerText(line))] else [])
  {
  }

  /** The keys of the built map are the players some used line names. */
  lemma {:induction false} LoadKeysFirst(lines: seq<string>, parse: string -> real, n: string)
    ensures n in Load(lines, parse).per <==> FirstMention(lines, n) < |lines|
    decreases |lines|
  {
    if lines != [] {
      var init, line := lines[..|lines| - 1], lines[|lines| - 1];
      assert lines == init + [line];
      LoadKeysFirst(init, parse, n);
      StepKeys(Load(init, parse), line, parse, n);
      FirstMentionSnoc(init, line, n);
    }
  }

  /** Every key is the name of some used line. */
  lemma LoadMentioned(lines: seq<string>, parse: string -> real)
    ensures forall a :: 0 <= a < |Load(lines, parse).names| ==>
              FirstMention(lines, Load(lines, parse).names[a]) < |lines|
  {
    var t := Load(lines, parse);
    IngestWellFormed(EmptyTable, lines, parse);
    forall a | 0 <= a < |t.names| ensures FirstMention(lines, t.names[a]) < |lines| {
      assert t.names[a] in t.names;
      LoadKeysFirst(lines, parse, t.names[a]);
    }
  }

  /** Keys appear in the order players are first seen. */
  lemma {:induction false} LoadOrder(lines: seq<string>, parse: string -> real)
    ensures forall a, b :: 0 <= a < b < |Load(lines, parse).names| ==>
              FirstMention(lines, Load(lines, parse).names[a])
              < FirstMention(lines, Load(lines, parse).names[b])
    decreases |lines|
  {
    if lines != [] {
      var init, line := lines[..|lines| - 1], lines[|lines| - 1];
      assert lines == init + [line];
      LoadOrder(init, parse);
      LoadMentioned(init, parse);
      var u := Load(init, parse);
      var names := Load(lines, parse).names;
      StepKeys(u, line, parse, if Kept(line) then NameOf(line) else "");
      assert names == if Kept(line) && NameOf(line) !in u.per then u.names + [NameOf(line)] else u.names;
      forall a | 0 <= a < |u.names|
        ensures FirstMention(lines, names[a]) == FirstMention(init, u.names[a]) < |init|
      {
        FirstMentionSnoc(init, line, u.names[a]);
      }
      if |names| > |u.names| {
        var n := NameOf(line);
        LoadKeysFirst(init, parse, n);
        FirstMentionSnoc(init, line, n);
        assert FirstMention(lines, names[|u.names|]) == |init|;
      }
    }
  }

  /** The keys of the built map are exactly the names of the used lines. */
  lemma LoadKeys(lines: seq<string>, parse: string -> real, n: string)
    ensures n in Load(lines, parse).per <==> exists i :: 0 <= i < |lines| && Mentions(lines[i], n)
  {
    LoadKeysFirst(lines, parse, n);
    var k := FirstMention(lines, n);
    if k < |lines| {
      assert Mentions(lines[k], n);
    }
  }

  /** Each player's list holds, in input order, the parsed PER of every used line naming
      the player; a name no line mentions has no list. */
  lemma {:induction false} LoadValues(lines: seq<string>, parse: string -> real, n: string)
    ensures (if n in Load(lines, parse).per then Load(lines, parse).per[n] else [])
         == ValuesOf(lines, n, parse)
    decreases |lines|
  {
    if lines != [] {
      var init, line := lines[..|lines| - 1], lines[|lines| - 1];
      assert lines == init + [line];
      LoadValues(init, parse, n);
      StepValues(Load(init, parse), line, parse, n);
      ValuesOfSnoc(init, line, n, parse);
    }
  }
}
