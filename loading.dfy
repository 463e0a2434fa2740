/**
 * Loading a source: each type's reader walks the lines of its `.dat` file once, from
 * the first to the last, and builds the payload, the comments and the cursor.
 *
 * Each reader is a method with a loop, proved equal to a specification function over
 * the lines; the lemmas below state what the specifications mean.
 */
module Loading {
  import opened Wrappers
  import opened Text
  import opened Entities

  /**
   * How a reader cleans each line before looking at it: the server readers strip
   * white space; the barcode reader of the recovery tool only drops CR and LF.
   */
  datatype Cleaning = Stripped | CrLfDropped

  function Clean(c: Cleaning, line: string): string {
    match c
    case Stripped => Strip(line)
    case CrLfDropped => DropCrLf(line)
  }

  /** The lines of a file as a reader sees them, each cleaned. */
  function Cleaned(c: Cleaning, lines: seq<string>): (r: seq<string>)
    ensures |r| == |lines|
  {
    if lines == [] then [] else Cleaned(c, lines[..|lines| - 1]) + [Clean(c, lines[|lines| - 1])]
  }

  lemma {:induction false} CleanedAt(c: Cleaning, lines: seq<string>, i: nat)
    requires i < |lines|
    ensures Cleaned(c, lines)[i] == Clean(c, lines[i])
    decreases |lines|
  {
    if i < |lines| - 1 {
      CleanedAt(c, lines[..|lines| - 1], i);
    }
  }

  // ----------------------------------------------------------------------------------------
  // Comments, records and value lines, over cleaned lines

  /** The `#` lines, in file order. */
  function Comments(ls: seq<string>): (r: seq<string>)
    ensures |r| <= |ls|
  {
    if ls == [] then []
    else Comments(ls[..|ls| - 1]) + (if IsComment(ls[|ls| - 1]) then [ls[|ls| - 1]] else [])
  }

  /** The lines that are not comments, blank ones included: the records of a CSV file. */
  function Records(ls: seq<string>): (r: seq<string>)
    ensures |r| <= |ls|
  {
    if ls == [] then []
    else Records(ls[..|ls| - 1]) + (if IsComment(ls[|ls| - 1]) then [] else [ls[|ls| - 1]])
  }

  /** A line that holds a value: neither a comment nor blank. */
  predicate IsValue(l: string) {
    !IsComment(l) && l != ""
  }

  /** The value lines, in file order. */
  function Values(ls: seq<string>): (r: seq<string>)
    ensures |r| <= |ls|
  {
    if ls == [] then []
    else Values(ls[..|ls| - 1]) + (if IsValue(ls[|ls| - 1]) then [ls[|ls| - 1]] else [])
  }

  /** What one more line adds to each filter. */
  lemma FilterStep(ls: seq<string>, i: nat)
    requires i < |ls|
    ensures Comments(ls[..i + 1]) == Comments(ls[..i]) + (if IsComment(ls[i]) then [ls[i]] else [])
    ensures Records(ls[..i + 1]) == Records(ls[..i]) + (if IsComment(ls[i]) then [] else [ls[i]])
    ensures Values(ls[..i + 1]) == Values(ls[..i]) + (if IsValue(ls[i]) then [ls[i]] else [])
  {
    assert ls[..i + 1][..i] == ls[..i];
  }

  /** Every line of a CSV file becomes exactly one comment or one record. */
  lemma {:induction false} CsvLinesPartitioned(ls: seq<string>)
    ensures |Comments(ls)| + |Records(ls)| == |ls|
  {
    if ls != [] {
      CsvLinesPartitioned(ls[..|ls| - 1]);
    }
  }

  /** What Python's `int(line)` gives inside `try ... except: no = 0`. */
  function IntOrZero(s: string): (n: int)
    ensures ParseInt(s).Some? ==> n == ParseInt(s).value
    ensures ParseInt(s).None? ==> n == 0
  {
    match ParseInt(s)
    case Some(n) => n
    case None => 0
  }

  /** The last value line, which is the one a Sequence or Counter reader keeps. */
  function LastValueLine(ls: seq<string>): (r: Option<string>)
    ensures r.None? <==> forall i :: 0 <= i < |ls| ==> !IsValue(ls[i])
    ensures r.Some? ==> IsValue(r.value)
  {
    if ls == [] then None
    else if IsValue(ls[|ls| - 1]) then Some(ls[|ls| - 1])
    else
      var r := LastValueLine(ls[..|ls| - 1]);
      assert forall i :: 0 <= i < |ls| - 1 ==> ls[..|ls| - 1][i] == ls[i];
      r
  }

  /** The number a Sequence or Counter reader keeps: that of the last value line. */
  function LastValue(ls: seq<string>): (r: Option<int>)
    ensures r.None? <==> forall i :: 0 <= i < |ls| ==> !IsValue(ls[i])
  {
    var l := LastValueLine(ls);
    if l.None? then None else Some(IntOrZero(l.value))
  }

  /** The line a number reader keeps is a value line, and no value line follows it. */
  lemma {:induction false} LastValueIsLast(ls: seq<string>)
    requires LastValueLine(ls).Some?
    ensures exists i :: (0 <= i < |ls| && ls[i] == LastValueLine(ls).value
      && forall j :: i < j < |ls| ==> !IsValue(ls[j]))
    decreases |ls|
  {
    var n := |ls|;
    if !IsValue(ls[n - 1]) {
      var a := ls[..n - 1];
      LastValueIsLast(a);
      var i :| 0 <= i < |a| && a[i] == LastValueLine(a).value && forall j :: i < j < |a| ==> !IsValue(a[j]);
      assert ls[i] == a[i];
      forall j | i < j < n ensures !IsValue(ls[j]) {
        if j < n - 1 { assert ls[j] == a[j]; }
      }
    }
  }

  // ----------------------------------------------------------------------------------------
  // Readers of record files

  /** Reads a CSV file: comments aside, every other stripped line, blank lines included, is a record. */
  method ReadCsv(lines: seq<string>) returns (comments: seq<string>, rows: seq<string>)
    ensures comments == Comments(Cleaned(Stripped, lines))
    ensures rows == Records(Cleaned(Stripped, lines))
  {
    ghost var ls := Cleaned(Stripped, lines);
    comments, rows := [], [];
    var i := 0;
    while i < |lines|
      invariant 0 <= i <= |lines|
      invariant comments == Comments(ls[..i])
      invariant rows == Records(ls[..i])
    {
      var line := Strip(lines[i]);
      CleanedAt(Stripped, lines, i);
      FilterStep(ls, i);
      if IsComment(line) {
        comments := comments + [line];
      } else {
        rows := rows + [line];
      }
      i := i + 1;
    }
    assert ls[..i] == ls;
  }

  /** Reads a file of value lines, skipping comments and blank lines. */
  method ReadValues(lines: seq<string>) returns (comments: seq<string>, values: seq<string>)
    ensures comments == Comments(Cleaned(Stripped, lines))
    ensures values == Values(Cleaned(Stripped, lines))
  {
    ghost var ls := Cleaned(Stripped, lines);
    comments, values := [], [];
    var i := 0;
    while i < |lines|
      invariant 0 <= i <= |lines|
      invariant comments == Comments(ls[..i])
      invariant values == Values(ls[..i])
    {
      var line := Strip(lines[i]);
      CleanedAt(Stripped, lines, i);
      FilterStep(ls, i);
      if IsComment(line) {
        comments := comments + [line];
      } else if |line| == 0 {
      } else {
        values := values + [line];
      }
      i := i + 1;
    }
    assert ls[..i] == ls;
  }

  /**
   * Reads a Sequence or Counter file: every value line overwrites the number read so
   * far, so the last one wins; a line that is not an integer reads as 0.
   */
  method ReadNumber(lines: seq<string>) returns (comments: seq<string>, last: Option<int>)
    ensures comments == Comments(Cleaned(Stripped, lines))
    ensures last == LastValue(Cleaned(Stripped, lines))
  {
    ghost var ls := Cleaned(Stripped, lines);
    comments, last := [], None;
    var i := 0;
    while i < |lines|
      invariant 0 <= i <= |lines|
      invariant comments == Comments(ls[..i])
      invariant last == LastValue(ls[..i])
    {
      var line := Strip(lines[i]);
      CleanedAt(Stripped, lines, i);
      FilterStep(ls, i);
      assert ls[..i + 1][..i] == ls[..i];
      assert LastValueLine(ls[..i + 1]) == if IsValue(line) then Some(line) else LastValueLine(ls[..i]);
      if IsComment(line) {
        comments := comments + [line];
      } else if |line| == 0 {
      } else {
        var no := 0;
        var parsed := ParseInt(line);
        if parsed.Some? {
          no := parsed.value;
        }
        last := Some(no);
      }
      i := i + 1;
    }
    assert ls[..i] == ls;
  }

  // ----------------------------------------------------------------------------------------
  // Readers of tagged files (KeyedSequence, Hashed, Barcodes)

  /** How a reader of tagged lines sees one cleaned line. */
  datatype LineKind = Note(text: string) | Blank | Entry(tag: string, value: string) | Malformed

  /**
   * A cleaned line is a comment, blank, or `tag<delimiter>value`; the line must split
   * on the delimiter into exactly two parts (else the unpacking fails), and the tag is
   * stripped while the value is kept as it is.
   */
  function Classify(td: char, l: string): (k: LineKind)
    ensures k.Note? <==> IsComment(l)
    ensures k.Note? ==> k.text == l
    ensures k.Blank? <==> l == ""
  {
    if IsComment(l) then Note(l)
    else if l == "" then Blank
    else
      var parts := Split(l, td);
      if |parts| != 2 then Malformed else Entry(Strip(parts[0]), parts[1])
  }

  /** The kinds of the lines of a file, each cleaned and classified. */
  function Kinds(c: Cleaning, td: char, lines: seq<string>): (r: seq<LineKind>)
    ensures |r| == |lines|
  {
    if lines == [] then [] else Kinds(c, td, lines[..|lines| - 1]) + [Classify(td, Clean(c, lines[|lines| - 1]))]
  }

  lemma {:induction false} KindsAt(c: Cleaning, td: char, lines: seq<string>, i: nat)
    requires i < |lines|
    ensures Kinds(c, td, lines)[i] == Classify(td, Clean(c, lines[i]))
    decreases |lines|
  {
    if i < |lines| - 1 {
      KindsAt(c, td, lines[..|lines| - 1], i);
    }
  }

  /** The value conversions of the tagged readers. */
  function TextValue(tag: string, value: string): Option<string> {
    Some(value)
  }

  function IntValue(tag: string, value: string): Option<int> {
    ParseInt(value)
  }

  function SeriesValue(tag: string, value: string): Option<BarcodeGroup> {
    var b := NewBarcodeGroup(tag, 0);
    var n := ParseInt(value);
    if b.None? || n.None? then None else Some(b.value.(serial := n.value))
  }

  /**
   * The map a tagged reader builds from `m` over classified lines: each entry sets its
   * tag to its converted value, so a later line with the same tag overwrites an earlier
   * one; a malformed line or a value that does not convert stops the load.
   */
  function TagsFrom<V>(convert: (string, string) -> Option<V>, m: map<string, V>, ks: seq<LineKind>): (r: Option<map<string, V>>)
    decreases |ks|
  {
    if ks == [] then Some(m)
    else
      var k := ks[0];
      if k.Malformed? then None
      else if k.Entry? then
        var x := convert(k.tag, k.value);
        if x.None? then None else TagsFrom(convert, m[k.tag := x.value], ks[1..])
      else TagsFrom(convert, m, ks[1..])
  }

  /** The comment lines among classified lines, in file order. */
  function Notes(ks: seq<LineKind>): seq<string> {
    if ks == [] then []
    else Notes(ks[..|ks| - 1]) + (if ks[|ks| - 1].Note? then [ks[|ks| - 1].text] else [])
  }

  /** The notes a tagged reader keeps are the comment lines of the file. */
  lemma {:induction false} NotesAreComments(c: Cleaning, td: char, lines: seq<string>)
    ensures Notes(Kinds(c, td, lines)) == Comments(Cleaned(c, lines))
  {
    if lines != [] {
      NotesAreComments(c, td, lines[..|lines| - 1]);
    }
  }

  /** The comments and the tag map of a tagged file, or nothing when a line fails. */
  function TaggedLoad<V>(c: Cleaning, td: char, convert: (string, string) -> Option<V>, lines: seq<string>): (r: Option<(seq<string>, map<string, V>)>)
    ensures r.Some? <==> TagsFrom(convert, map[], Kinds(c, td, lines)).Some?
    ensures r.Some? ==> r.value.0 == Notes(Kinds(c, td, lines)) && r.value.1 == TagsFrom(convert, map[], Kinds(c, td, lines)).value
  {
    var ks := Kinds(c, td, lines);
    var m := TagsFrom(convert, map[], ks);
    if m.None? then None else Some((Notes(ks), m.value))
  }

  /** What reading one more line does to the tag map. */
  lemma TagsStep<V>(convert: (string, string) -> Option<V>, m: map<string, V>, ks: seq<LineKind>, i: nat)
    requires i < |ks|
    ensures var k := ks[i];
      TagsFrom(convert, m, ks[i..]) ==
        if k.Malformed? || (k.Entry? && convert(k.tag, k.value).None?) then None
        else TagsFrom(convert, if k.Entry? then m[k.tag := convert(k.tag, k.value).value] else m, ks[i + 1..])
  {
    assert ks[i..][0] == ks[i] && ks[i..][1..] == ks[i + 1..];
  }

  /** Cleans and classifies line `i` of a tagged file. */
  method ReadKind(c: Cleaning, td: char, lines: seq<string>, i: nat) returns (kind: LineKind)
    requires i < |lines|
    ensures kind == Kinds(c, td, lines)[i]
  {
    var line := Clean(c, lines[i]);
    kind := Classify(td, line);
    KindsAt(c, td, lines, i);
  }

  /** Reads a tagged file line by line into a map, stopping at the first line that fails. */
  method ReadTagged<V>(c: Cleaning, td: char, convert: (string, string) -> Option<V>, lines: seq<string>) returns (r: Option<(seq<string>, map<string, V>)>)
    ensures r == TaggedLoad(c, td, convert, lines)
  {
    ghost var ks := Kinds(c, td, lines);
    var comments: seq<string> := [];
    var m: map<string, V> := map[];
    var i := 0;
    while i < |lines|
      invariant 0 <= i <= |lines|
      invariant comments == Notes(ks[..i])
      invariant TagsFrom(convert, m, ks[i..]) == TagsFrom(convert, map[], ks)
    {
      var kind := ReadKind(c, td, lines, i);
      assert ks[..i + 1][..i] == ks[..i];
      TagsStep(convert, m, ks, i);
      match kind {
        case Note(text) =>
          comments := comments + [text];
        case Blank =>
        case Malformed =>
          return None;
        case Entry(tag, value) =>
          var x := convert(tag, value);
          if x.None? {
            return None;
          }
          m := m[tag := x.value];
      }
      i := i + 1;
    }
    assert ks[..i] == ks && ks[i..] == [];
    r := Some((comments, m));
  }

  /** The tag a line sets, if it is an entry. */
  function TagOf(k: LineKind): Option<string> {
    if k.Entry? then Some(k.tag) else None
  }

  /** Once loaded, a tag is in the map exactly when it was there before or some line sets it. */
  lemma {:induction false} TagsMembership<V>(convert: (string, string) -> Option<V>, m: map<string, V>, ks: seq<LineKind>, tag: string)
    requires TagsFrom(convert, m, ks).Some?
    ensures tag in TagsFrom(convert, m, ks).value <==> tag in m || exists i :: 0 <= i < |ks| && TagOf(ks[i]) == Some(tag)
    decreases |ks|
  {
    if ks != [] {
      var k := ks[0];
      var m' := if k.Entry? then m[k.tag := convert(k.tag, k.value).value] else m;
      assert TagsFrom(convert, m, ks) == TagsFrom(convert, m', ks[1..]);
      TagsMembership(convert, m', ks[1..], tag);
      if exists i :: 0 <= i < |ks[1..]| && TagOf(ks[1..][i]) == Some(tag) {
        var i :| 0 <= i < |ks[1..]| && TagOf(ks[1..][i]) == Some(tag);
        assert TagOf(ks[i + 1]) == Some(tag);
      }
      if exists i :: 0 <= i < |ks| && TagOf(ks[i]) == Some(tag) {
        var i :| 0 <= i < |ks| && TagOf(ks[i]) == Some(tag);
        if i > 0 { assert TagOf(ks[1..][i - 1]) == Some(tag); }
      }
    }
  }

  /** A tag no line sets keeps the value it had. */
  lemma {:induction false} TagsUntouched<V>(convert: (string, string) -> Option<V>, m: map<string, V>, ks: seq<LineKind>, tag: string)
    requires TagsFrom(convert, m, ks).Some?
    requires tag in m && forall i :: 0 <= i < |ks| ==> TagOf(ks[i]) != Some(tag)
    ensures tag in TagsFrom(convert, m, ks).value && TagsFrom(convert, m, ks).value[tag] == m[tag]
    decreases |ks|
  {
    if ks != [] {
      var k := ks[0];
      assert TagOf(ks[0]) != Some(tag);
      var m' := if k.Entry? then m[k.tag := convert(k.tag, k.value).value] else m;
      assert TagsFrom(convert, m, ks) == TagsFrom(convert, m', ks[1..]);
      forall j | 0 <= j < |ks[1..]| ensures TagOf(ks[1..][j]) != Some(tag) {
        assert ks[1..][j] == ks[j + 1];
      }
      TagsUntouched(convert, m', ks[1..], tag);
    }
  }

  /** A later duplicate overwrites an earlier one: a loaded tag holds the value of the last line that sets it. */
  lemma {:induction false} TagsLastWins<V>(convert: (string, string) -> Option<V>, m: map<string, V>, ks: seq<LineKind>, tag: string, i: nat)
    requires TagsFrom(convert, m, ks).Some?
    requires i < |ks| && TagOf(ks[i]) == Some(tag)
    requires forall j :: i < j < |ks| ==> TagOf(ks[j]) != Some(tag)
    ensures tag in TagsFrom(convert, m, ks).value
    ensures Some(TagsFrom(convert, m, ks).value[tag]) == convert(tag, ks[i].value)
    decreases |ks|
  {
    var k := ks[0];
    var m' := if k.Entry? then m[k.tag := convert(k.tag, k.value).value] else m;
    assert TagsFrom(convert, m, ks) == TagsFrom(convert, m', ks[1..]);
    forall j | i - 1 < j < |ks[1..]| ensures TagOf(ks[1..][j]) != Some(tag) {
      assert ks[1..][j] == ks[j + 1];
    }
    if i == 0 {
      TagsUntouched(convert, m', ks[1..], tag);
    } else {
      assert ks[1..][i - 1] == ks[i];
      TagsLastWins(convert, m', ks[1..], tag, i - 1);
    }
  }

  // ----------------------------------------------------------------------------------------
  // Reader of keyed files

  /**
   * What the keyed reader has built so far: the comments before the first group, the
   * groups, and the name of the group that data lines go to.
   */
  datatype KeyedState = KeyedState(comments: seq<string>, groups: map<string, Group>, current: Option<string>)

  /** The open group, if any, is one of the groups, and every group's cursor is at its start. */
  predicate KeyedInvariant(st: KeyedState) {
    && (st.current.Some? ==> st.current.value in st.groups)
    && forall k :: k in st.groups ==> st.groups[k].idx == 0
  }

  /** The name a header line gives its group: the line with every `[` and `]` removed. */
  function HeaderName(line: string): (name: string)
    ensures '[' !in name && ']' !in name
  {
    Remove(Remove(line, '['), ']')
  }

  /**
   * One stripped line of a keyed file: a line with a `[` anywhere opens a new empty
   * group (replacing one of the same name); a comment goes to the open group, or to
   * the source before any group; blank lines are skipped; any other line is a record
   * of the open group, and before any group it stops the load.
   */
  function KeyedStep(st: KeyedState, line: string): (r: Option<KeyedState>)
    requires KeyedInvariant(st)
    ensures r.Some? ==> KeyedInvariant(r.value)
  {
    if '[' in line then
      var name := HeaderName(line);
      Some(KeyedState(st.comments, st.groups[name := NewGroup()], Some(name)))
    else if IsComment(line) then
      if st.current.None? then Some(st.(comments := st.comments + [line]))
      else
        var g := st.groups[st.current.value];
        Some(st.(groups := st.groups[st.current.value := g.(comments := g.comments + [line])]))
    else if line == "" then Some(st)
    else if st.current.None? then None
    else
      var g := st.groups[st.current.value];
      Some(st.(groups := st.groups[st.current.value := g.(data := g.data + [line])]))
  }

  function KeyedFrom(st: KeyedState, ls: seq<string>): (r: Option<KeyedState>)
    requires KeyedInvariant(st)
    ensures r.Some? ==> KeyedInvariant(r.value)
    decreases |ls|
  {
    if ls == [] then Some(st)
    else
      var st' := KeyedStep(st, ls[0]);
      if st'.None? then None else KeyedFrom(st'.value, ls[1..])
  }

  function KeyedStart(): (st: KeyedState)
    ensures KeyedInvariant(st)
  {
    KeyedState([], map[], None)
  }

  /** The keyed reader over a whole file. */
  function KeyedLoad(lines: seq<string>): (r: Option<KeyedState>)
    ensures r.Some? ==> KeyedInvariant(r.value)
  {
    KeyedFrom(KeyedStart(), Cleaned(Stripped, lines))
  }

  /** Reading the concatenation of two pieces reads the first and then continues with the second. */
  lemma {:induction false} KeyedFromAppend(st: KeyedState, a: seq<string>, b: seq<string>)
    requires KeyedInvariant(st)
    ensures KeyedFrom(st, a + b) == if KeyedFrom(st, a).None? then None else KeyedFrom(KeyedFrom(st, a).value, b)
    decreases |a|
  {
    if a == [] {
      assert a + b == b;
    } else {
      assert (a + b)[0] == a[0];
      assert (a + b)[1..] == a[1..] + b;
      var st' := KeyedStep(st, a[0]);
      if st'.Some? {
        KeyedFromAppend(st'.value, a[1..], b);
      }
    }
  }

  /** Reads a keyed file line by line, stopping at a data line that comes before any group. */
  method ReadKeyed(lines: seq<string>) returns (r: Option<KeyedState>)
    ensures r == KeyedLoad(lines)
  {
    ghost var ls := Cleaned(Stripped, lines);
    var comments: seq<string> := [];
    var groups: map<string, Group> := map[];
    var current: Option<string> := None;
    var i := 0;
    while i < |lines|
      invariant 0 <= i <= |lines|
      invariant KeyedInvariant(KeyedState(comments, groups, current))
      invariant KeyedFrom(KeyedState(comments, groups, current), ls[i..]) == KeyedLoad(lines)
    {
      var line := Strip(lines[i]);
      CleanedAt(Stripped, lines, i);
      assert ls[i..][0] == line && ls[i..][1..] == ls[i + 1..];
      if '[' in line {
        var name := HeaderName(line);
        groups := groups[name := NewGroup()];
        current := Some(name);
      } else if IsComment(line) {
        if current.Some? {
          var g := groups[current.value];
          groups := groups[current.value := g.(comments := g.comments + [line])];
        } else {
          comments := comments + [line];
        }
      } else if |line| == 0 {
      } else {
        if current.None? {
          return None;
        }
        var g := groups[current.value];
        groups := groups[current.value := g.(data := g.data + [line])];
      }
      i := i + 1;
    }
    r := Some(KeyedState(comments, groups, current));
  }

  // ----------------------------------------------------------------------------------------
  // Loading a source of any type

  /** What a loaded source starts with: its payload, its CSV cursor and its comments. */
  datatype Loaded = Loaded(data: Payload, idx: Option<nat>, comments: seq<string>)

  /** The state a loaded source starts serving from: nothing used or stored yet. */
  function Fresh(l: Loaded): Store {
    Store(l.data, l.idx, l.comments, [], [])
  }

  /** A CSV source: every non-comment line is a record, and the cursor is at the first record if there is one. */
  function LoadCsv(lines: seq<string>): (r: Loaded)
    ensures r.data.Rows? && (r.idx == Some(0) <==> r.data.rows != []) && (r.idx == None <==> r.data.rows == [])
  {
    var ls := Cleaned(Stripped, lines);
    var rows := Records(ls);
    Loaded(Rows(rows), if rows == [] then None else Some(0), Comments(ls))
  }

  /** An Indexed source: the value lines are the records; the socket server refuses a file without one. */
  function LoadIndexed(v: Variant, lines: seq<string>): (r: Option<Loaded>)
    ensures r.Some? ==> r.value.data.Rows? && r.value.idx == None
    ensures r.None? <==> v == Socket && Values(Cleaned(Stripped, lines)) == []
  {
    var ls := Cleaned(Stripped, lines);
    var rows := Values(ls);
    if v == Socket && rows == [] then None else Some(Loaded(Rows(rows), None, Comments(ls)))
  }

  /**
   * A Sequence, Counter or Indexer source: the number of the last value line. Without
   * one, on the HTTP server a Counter source starts at 1 and a Sequence source keeps
   * `None`; the socket server stops at either, because it then takes `len(None)`. An
   * Indexer reads no file and starts at its `start` attribute (default 1) on the HTTP
   * server and at 0 on the socket server.
   */
  function LoadNumber(v: Variant, t: SourceType, cfg: Config, lines: seq<string>): (r: Option<Loaded>)
    requires t == Sequence || t == Counter || t == Indexer
    ensures r.Some? ==> r.value.idx == None && ((r.value.data.Number? && r.value.data.extra == []) || r.value.data.Unset?)
    ensures r.Some? && r.value.data.Unset? ==> v == Http && t == Sequence
    ensures t == Indexer ==> r == Some(Loaded(Number(if v == Socket then 0 else if cfg.start.Some? then cfg.start.value else 1, []), None, []))
  {
    var ls := Cleaned(Stripped, lines);
    var last := LastValue(ls);
    if t == Indexer then
      Some(Loaded(Number(if v == Socket then 0 else if cfg.start.Some? then cfg.start.value else 1, []), None, []))
    else if last.Some? then Some(Loaded(Number(last.value, []), None, Comments(ls)))
    else if v == Http then Some(Loaded(if t == Counter then Number(1, []) else Unset, None, Comments(ls)))
    else None
  }

  /** A Hashed, KeyedSequence or Barcodes source: the tag map of its file. */
  function LoadTagged(v: Variant, t: SourceType, cfg: Config, lines: seq<string>): (r: Option<Loaded>)
    requires t == Hashed || t == KeyedSequence || t == Barcodes
    ensures r.Some? ==> Fits(v, t, r.value.data) && r.value.idx == None
  {
    var td := TagDelimiterOf(cfg);
    if t == Barcodes then
      var p := TaggedLoad(Stripped, td, SeriesValue, lines);
      if v == Socket || p.None? then None
      else
        SeriesValuesAgree(map[], Kinds(Stripped, td, lines));
        Some(Loaded(Codes(p.value.1), None, p.value.0))
    else if t == KeyedSequence && v == Http then
      var p := TaggedLoad(Stripped, td, IntValue, lines);
      if p.None? then None else Some(Loaded(Serials(p.value.1), None, p.value.0))
    else
      var p := TaggedLoad(Stripped, td, TextValue, lines);
      if p.None? then None else Some(Loaded(Table(p.value.1), None, p.value.0))
  }

  /** A Keyed source: its groups, each with its cursor at the start, and the comments before the first group. */
  function LoadKeyed(lines: seq<string>): (r: Option<Loaded>)
    ensures r.Some? ==> r.value.data.Groups? && r.value.idx == None
    ensures r.Some? ==> forall k :: k in r.value.data.groups ==> r.value.data.groups[k].idx == 0
    ensures r.None? <==> KeyedLoad(lines).None?
  {
    var st := KeyedLoad(lines);
    if st.None? then None else Some(Loaded(Groups(st.value.groups), None, st.value.comments))
  }

  /**
   * Loads the lines of a source's file as the server does, or nothing when the server
   * would stop: a malformed line, a data line before any group, a Sequence or Counter
   * file with no value line on the socket server, an empty Indexed file on the socket
   * server, or a Barcodes source on the socket server.
   */
  function Load(v: Variant, t: SourceType, cfg: Config, lines: seq<string>): (r: Option<Loaded>)
    ensures r.Some? ==> Sound(v, t, Fresh(r.value))
  {
    match t
    case CSV => Some(LoadCsv(lines))
    case Indexed => LoadIndexed(v, lines)
    case Sequence => LoadNumber(v, t, cfg, lines)
    case Counter => LoadNumber(v, t, cfg, lines)
    case Indexer => LoadNumber(v, t, cfg, lines)
    case Hashed => LoadTagged(v, t, cfg, lines)
    case KeyedSequence => LoadTagged(v, t, cfg, lines)
    case Barcodes => LoadTagged(v, t, cfg, lines)
    case Keyed => LoadKeyed(lines)
  }

  /** Every series a barcode reader builds agrees with the key it is stored under. */
  lemma {:induction false} SeriesValuesAgree(m: map<string, BarcodeGroup>, ks: seq<LineKind>)
    requires forall k :: k in m ==> SeriesOfKey(k, m[k])
    requires TagsFrom(SeriesValue, m, ks).Some?
    ensures var r := TagsFrom(SeriesValue, m, ks).value; forall k :: k in r ==> SeriesOfKey(k, r[k])
    decreases |ks|
  {
    if ks != [] {
      var k := ks[0];
      if k.Entry? {
        SeriesValuesAgree(m[k.tag := SeriesValue(k.tag, k.value).value], ks[1..]);
      } else {
        SeriesValuesAgree(m, ks[1..]);
      }
    }
  }

  /** No comment line becomes a record. */
  lemma {:induction false} RecordsAreNotComments(ls: seq<string>)
    ensures forall i :: 0 <= i < |Records(ls)| ==> !IsComment(Records(ls)[i])
  {
    if ls != [] {
      RecordsAreNotComments(ls[..|ls| - 1]);
    }
  }

  /** Every value line holds something and is not a comment. */
  lemma {:induction false} ValuesAreValues(ls: seq<string>)
    ensures forall i :: 0 <= i < |Values(ls)| ==> IsValue(Values(ls)[i])
  {
    if ls != [] {
      ValuesAreValues(ls[..|ls| - 1]);
    }
  }

  /** A CSV or Indexed source holds no record starting with `#`, and an Indexed source no blank record. */
  lemma CommentsNeverRecords(v: Variant, lines: seq<string>)
    ensures forall i :: 0 <= i < |LoadCsv(lines).data.rows| ==> !IsComment(LoadCsv(lines).data.rows[i])
    ensures LoadIndexed(v, lines).Some? ==>
      forall i :: 0 <= i < |LoadIndexed(v, lines).value.data.rows| ==> IsValue(LoadIndexed(v, lines).value.data.rows[i])
  {
    RecordsAreNotComments(Cleaned(Stripped, lines));
    ValuesAreValues(Cleaned(Stripped, lines));
  }

  /**
   * Without a value line, on the HTTP server a Counter source starts at 1 and a Sequence
   * source is left unset; the socket server does not load either.
   */
  lemma NoValueLine(v: Variant, t: SourceType, cfg: Config, lines: seq<string>)
    requires t == Sequence || t == Counter
    requires forall i :: 0 <= i < |lines| ==> !IsValue(Strip(lines[i]))
    ensures LoadNumber(v, t, cfg, lines) ==
      if v == Http then Some(Loaded(if t == Counter then Number(1, []) else Unset, None, Comments(Cleaned(Stripped, lines)))) else None
  {
    var ls := Cleaned(Stripped, lines);
    forall i | 0 <= i < |ls| ensures !IsValue(ls[i]) {
      CleanedAt(Stripped, lines, i);
    }
    assert LastValue(ls).None?;
  }

  /** The number a Sequence or Counter source starts from is that of its last value line. */
  lemma LastValueWins(v: Variant, t: SourceType, cfg: Config, lines: seq<string>, i: nat)
    requires t == Sequence || t == Counter
    requires i < |lines| && IsValue(Strip(lines[i]))
    requires forall j :: i < j < |lines| ==> !IsValue(Strip(lines[j]))
    ensures LoadNumber(v, t, cfg, lines) == Some(Loaded(Number(IntOrZero(Strip(lines[i])), []), None, Comments(Cleaned(Stripped, lines))))
  {
    var ls := Cleaned(Stripped, lines);
    CleanedAt(Stripped, lines, i);
    forall j | i < j < |lines| ensures !IsValue(ls[j]) {
      CleanedAt(Stripped, lines, j);
    }
    LastLineAt(ls, i);
  }

  /** The last value line is the one after which no value line follows. */
  lemma {:induction false} LastLineAt(ls: seq<string>, i: nat)
    requires i < |ls| && IsValue(ls[i])
    requires forall j :: i < j < |ls| ==> !IsValue(ls[j])
    ensures LastValueLine(ls) == Some(ls[i])
    decreases |ls|
  {
    var n := |ls|;
    if i < n - 1 {
      var a := ls[..n - 1];
      assert a[i] == ls[i];
      forall j | i < j < |a| ensures !IsValue(a[j]) {
        assert a[j] == ls[j];
      }
      LastLineAt(a, i);
    }
  }
}
