/**
 * Flushing a source: at shutdown each source whose type is written back rewrites its
 * `.dat` file from what it holds, after taking a backup copy of the old file. The
 * comments come first, then the payload: the records not yet handed out, the number,
 * one `tag<delimiter>value` line per key, or one block per group, keys in sorted order.
 *
 * The images are specification functions over a source's state; each writer is a
 * method with a loop proved to produce its image, and the lemmas at the end show that
 * reading an image back gives the state again.
 */
module Flushing {
  import opened Wrappers
  import opened Text
  import opened Entities
  import opened Loading

  /**
   * What flushing does to a source's file: nothing, or rewrite it, with or without a
   * backup copy first. `Truncated`: the file is backed up and opened for writing, `lines`
   * are written, and then `flush` raises, so shutdown flushes none of the later sources.
   */
  datatype FlushPlan = Untouched | Rewrite(lines: seq<string>, backup: bool) | Truncated(lines: seq<string>)

  // ----------------------------------------------------------------------------------------
  // Images

  /** The records a CSV flush writes: none when there are none, else those from the cursor on. */
  function RowsFrom(rows: seq<string>, idx: Option<nat>): (r: seq<string>)
    requires rows != [] ==> idx.Some? && idx.value <= |rows|
    ensures rows == [] ==> r == []
    ensures rows != [] ==> |r| == |rows| - idx.value && forall i :: 0 <= i < |r| ==> r[i] == rows[idx.value + i]
  {
    if rows == [] then [] else rows[idx.value..]
  }

  /** One line of a tagged file. */
  function TagLine(td: char, key: string, text: string): string {
    key + [td] + text
  }

  /** The lines of the keys `ks` of a tag map, each key with its value written by `enc`. */
  function TagLines<V>(td: char, enc: V -> string, m: map<string, V>, ks: seq<string>): (r: seq<string>)
    requires forall i :: 0 <= i < |ks| ==> ks[i] in m
    ensures |r| == |ks|
  {
    if ks == [] then []
    else TagLines(td, enc, m, ks[..|ks| - 1]) + [TagLine(td, ks[|ks| - 1], enc(m[ks[|ks| - 1]]))]
  }

  /** The `"%d"` numeral of a counter. */
  function SerialText(n: int): string {
    IntToString(n)
  }

  /** The value of a hashed or socket keyed-sequence entry, written as it is. */
  function PlainText(s: string): string {
    s
  }

  /** The `"%d"` numeral of a series' next serial number. */
  function SeriesText(b: BarcodeGroup): string {
    IntToString(b.serial)
  }

  /** The block of one group: its `[name]` header, its comments, its unconsumed records and an empty line. */
  function GroupBlock(key: string, g: Group): (r: seq<string>)
    requires CursorInRange(g)
  {
    ["[" + key + "]"] + g.comments + g.data[g.idx..] + [""]
  }

  /** The blocks of the groups `ks`, in that order. */
  function GroupBlocks(m: map<string, Group>, ks: seq<string>): seq<string>
    requires forall i :: 0 <= i < |ks| ==> ks[i] in m && CursorInRange(m[ks[i]])
  {
    if ks == [] then []
    else GroupBlocks(m, ks[..|ks| - 1]) + GroupBlock(ks[|ks| - 1], m[ks[|ks| - 1]])
  }

  /** The lines of a whole tag map, in sorted key order. */
  ghost function TagImage<V>(td: char, enc: V -> string, m: map<string, V>): (r: seq<string>)
    ensures |r| == |m.Keys|
  {
    TagLines(td, enc, m, SortedKeys(m.Keys))
  }

  /** The blocks of all groups, in sorted key order. */
  ghost function GroupsImage(m: map<string, Group>): seq<string>
    requires forall k :: k in m ==> CursorInRange(m[k])
  {
    GroupBlocks(m, SortedKeys(m.Keys))
  }

  /** What a flush writes after the comments. */
  ghost function FlushBody(v: Variant, t: SourceType, cfg: Config, st: Store): seq<string>
    requires Sound(v, t, st) && !st.data.Unset?
  {
    match t
    case CSV => RowsFrom(st.data.rows, st.idx)
    case Sequence => [SerialText(st.data.value)]
    case Counter => [SerialText(st.data.value + 1)]
    case KeyedSequence =>
      if v == Http then TagImage(TagDelimiterOf(cfg), SerialText, st.data.counters)
      else TagImage(TagDelimiterOf(cfg), PlainText, st.data.entries)
    case Keyed => GroupsImage(st.data.groups)
    case Barcodes => TagImage(TagDelimiterOf(cfg), SeriesText, st.data.codes)
    case _ => []
  }

  /**
   * What `flush` does to a loaded source. CSV, Sequence, KeyedSequence, Keyed, Counter and
   * Barcodes sources are rewritten; Hashed, Indexed and Indexer sources are left alone.
   * The socket server writes a Counter without a backup copy. An unset Sequence source
   * writes its comments and then raises at `"%d" % None`.
   */
  ghost function FlushOf(v: Variant, t: SourceType, cfg: Config, st: Store): (p: FlushPlan)
    requires Sound(v, t, st)
    ensures p.Untouched? <==> t in {Hashed, Indexed, Indexer}
    ensures p.Truncated? <==> st.data.Unset?
    ensures p.Truncated? ==> p.lines == st.comments
    ensures p.Rewrite? ==> p.backup == !(v == Socket && t == Counter)
    ensures !p.Untouched? ==> |p.lines| >= |st.comments| && p.lines[..|st.comments|] == st.comments
  {
    if t in {Hashed, Indexed, Indexer} then Untouched
    else if st.data.Unset? then Truncated(st.comments)
    else
      var lines := st.comments + FlushBody(v, t, cfg, st);
      assert lines[..|st.comments|] == st.comments;
      Rewrite(lines, !(v == Socket && t == Counter))
  }

  // ----------------------------------------------------------------------------------------
  // Writers

  /** Writes the comments and then the records from the cursor on, one line each. */
  method WriteRows(comments: seq<string>, rows: seq<string>, idx: Option<nat>) returns (lines: seq<string>)
    requires rows != [] ==> idx.Some? && idx.value <= |rows|
    ensures lines == comments + RowsFrom(rows, idx)
  {
    lines := [];
    for j := 0 to |comments|
      invariant lines == comments[..j]
    {
      lines := lines + [comments[j]];
    }
    assert comments[..|comments|] == comments;
    if |rows| > 0 {
      var i := idx.value;
      while i < |rows|
        invariant idx.value <= i <= |rows|
        invariant lines == comments + rows[idx.value..i]
      {
        lines := lines + [rows[i]];
        i := i + 1;
      }
    }
  }

  /** Appends one line per key of `ks` to `prefix`, in the order of `ks`. */
  method AppendTags<V>(td: char, enc: V -> string, prefix: seq<string>, m: map<string, V>, ks: seq<string>) returns (lines: seq<string>)
    requires forall i :: 0 <= i < |ks| ==> ks[i] in m
    ensures lines == prefix + TagLines(td, enc, m, ks)
  {
    lines := prefix;
    for i := 0 to |ks|
      invariant lines == prefix + TagLines(td, enc, m, ks[..i])
    {
      assert ks[..i + 1][..i] == ks[..i];
      lines := lines + [TagLine(td, ks[i], enc(m[ks[i]]))];
    }
    assert ks[..|ks|] == ks;
  }

  /** Writes the comments and then one line per key of a tag map, in sorted key order. */
  method WriteTags<V>(td: char, enc: V -> string, comments: seq<string>, m: map<string, V>) returns (lines: seq<string>)
    ensures lines == comments + TagImage(td, enc, m)
  {
    var ks := KeysInOrder(m);
    lines := AppendTags(td, enc, comments, m, ks);
  }

  /** Writes one group's block. */
  method WriteGroup(key: string, g: Group) returns (block: seq<string>)
    requires CursorInRange(g)
    ensures block == GroupBlock(key, g)
  {
    block := ["[" + key + "]"] + g.comments;
    var i := g.idx;
    while i < |g.data|
      invariant g.idx <= i <= |g.data|
      invariant block == ["[" + key + "]"] + g.comments + g.data[g.idx..i]
    {
      block := block + [g.data[i]];
      i := i + 1;
    }
    assert g.data[g.idx..|g.data|] == g.data[g.idx..];
    block := block + [""];
  }

  /** Appends the blocks of the groups `ks` to `prefix`, in the order of `ks`. */
  method AppendGroups(prefix: seq<string>, m: map<string, Group>, ks: seq<string>) returns (lines: seq<string>)
    requires forall i :: 0 <= i < |ks| ==> ks[i] in m && CursorInRange(m[ks[i]])
    ensures lines == prefix + GroupBlocks(m, ks)
  {
    lines := prefix;
    for i := 0 to |ks|
      invariant lines == prefix + GroupBlocks(m, ks[..i])
    {
      assert ks[..i + 1][..i] == ks[..i];
      var block := WriteGroup(ks[i], m[ks[i]]);
      lines := lines + block;
    }
    assert ks[..|ks|] == ks;
  }

  /** Writes the comments and then every group's block, in sorted key order. */
  method WriteGroups(comments: seq<string>, m: map<string, Group>) returns (lines: seq<string>)
    requires forall k :: k in m ==> CursorInRange(m[k])
    ensures lines == comments + GroupsImage(m)
  {
    var ks := KeysInOrder(m);
    lines := AppendGroups(comments, m, ks);
  }

  // ----------------------------------------------------------------------------------------
  // Reading an image back: the readers over concatenated and well-formed lines

  /** A comment line that stripping leaves alone. */
  predicate CommentLine(l: string) {
    IsComment(l) && Trimmed(l)
  }

  predicate CommentLines(cs: seq<string>) {
    forall i :: 0 <= i < |cs| ==> CommentLine(cs[i])
  }

  /** CSV records that read back as themselves: no `#` in front, no white space at either end. */
  predicate PlainRecords(rs: seq<string>) {
    forall i :: 0 <= i < |rs| ==> !IsComment(rs[i]) && Trimmed(rs[i])
  }

  /** Stripping leaves lines with no white space at either end alone. */
  lemma {:induction false} CleanedTrimmed(ls: seq<string>)
    requires forall i :: 0 <= i < |ls| ==> Trimmed(ls[i])
    ensures Cleaned(Stripped, ls) == ls
    decreases |ls|
  {
    if ls != [] {
      var p, x := ls[..|ls| - 1], ls[|ls| - 1];
      forall i | 0 <= i < |p| ensures Trimmed(p[i]) { assert p[i] == ls[i]; }
      CleanedTrimmed(p);
      assert Cleaned(Stripped, ls) == Cleaned(Stripped, p) + [Strip(x)];
      assert p + [x] == ls;
    }
  }

  /** The comment filter distributes over concatenation. */
  lemma {:induction false} CommentsAppend(a: seq<string>, b: seq<string>)
    ensures Comments(a + b) == Comments(a) + Comments(b)
    decreases |b|
  {
    if b == [] {
      assert a + b == a;
    } else {
      var p, x := b[..|b| - 1], b[|b| - 1];
      var e := if IsComment(x) then [x] else [];
      assert (a + b)[..|a + b| - 1] == a + p && (a + b)[|a + b| - 1] == x;
      assert Comments(a + b) == Comments(a + p) + e;
      assert Comments(b) == Comments(p) + e;
      CommentsAppend(a, p);
    }
  }

  /** The record filter distributes over concatenation. */
  lemma {:induction false} RecordsAppend(a: seq<string>, b: seq<string>)
    ensures Records(a + b) == Records(a) + Records(b)
    decreases |b|
  {
    if b == [] {
      assert a + b == a;
    } else {
      var p, x := b[..|b| - 1], b[|b| - 1];
      var e := if IsComment(x) then [] else [x];
      assert (a + b)[..|a + b| - 1] == a + p && (a + b)[|a + b| - 1] == x;
      assert Records(a + b) == Records(a + p) + e;
      assert Records(b) == Records(p) + e;
      RecordsAppend(a, p);
    }
  }

  /** Comment lines are all comments and none of them is a record. */
  lemma {:induction false} OnlyComments(cs: seq<string>)
    requires forall i :: 0 <= i < |cs| ==> IsComment(cs[i])
    ensures Comments(cs) == cs && Records(cs) == []
    decreases |cs|
  {
    if cs != [] {
      var p, x := cs[..|cs| - 1], cs[|cs| - 1];
      forall i | 0 <= i < |p| ensures IsComment(p[i]) { assert p[i] == cs[i]; }
      OnlyComments(p);
      assert Comments(cs) == Comments(p) + [x];
      assert p + [x] == cs;
    }
  }

  /** Lines with no comment among them are all records. */
  lemma {:induction false} NoComments(rs: seq<string>)
    requires forall i :: 0 <= i < |rs| ==> !IsComment(rs[i])
    ensures Comments(rs) == [] && Records(rs) == rs
    decreases |rs|
  {
    if rs != [] {
      var p, x := rs[..|rs| - 1], rs[|rs| - 1];
      forall i | 0 <= i < |p| ensures !IsComment(p[i]) { assert p[i] == rs[i]; }
      NoComments(p);
      assert Records(rs) == Records(p) + [x];
      assert p + [x] == rs;
    }
  }

  /** A CSV file of comments and records reads back as those comments and records. */
  lemma CsvReadsBack(cs: seq<string>, rs: seq<string>)
    requires CommentLines(cs) && PlainRecords(rs)
    ensures LoadCsv(cs + rs) == Loaded(Rows(rs), if rs == [] then None else Some(0), cs)
  {
    var ls := cs + rs;
    assert Cleaned(Stripped, ls) == ls by {
      forall i | 0 <= i < |ls| ensures Trimmed(ls[i]) {
        if i < |cs| { assert ls[i] == cs[i]; } else { assert ls[i] == rs[i - |cs|]; }
      }
      CleanedTrimmed(ls);
    }
    assert Comments(ls) == cs by {
      CommentsAppend(cs, rs);
      OnlyComments(cs);
      NoComments(rs);
      assert cs + [] == cs;
    }
    assert Records(ls) == rs by {
      RecordsAppend(cs, rs);
      OnlyComments(cs);
      NoComments(rs);
      assert [] + rs == rs;
    }
  }

  /**
   * Flushing a CSV source and loading the file again gives its comments and exactly the
   * records it had not handed out yet, with the cursor at the first of them.
   */
  lemma FlushCsvReadsBack(v: Variant, cfg: Config, st: Store)
    requires Sound(v, CSV, st)
    requires CommentLines(st.comments) && PlainRecords(st.data.rows)
    ensures var rest := RowsFrom(st.data.rows, st.idx);
      && FlushOf(v, CSV, cfg, st) == Rewrite(st.comments + rest, true)
      && LoadCsv(st.comments + rest) == Loaded(Rows(rest), if rest == [] then None else Some(0), st.comments)
  {
    var rest := RowsFrom(st.data.rows, st.idx);
    assert PlainRecords(rest);
    CsvReadsBack(st.comments, rest);
  }

  /** A number file of comments and one printed integer reads back as that integer. */
  lemma NumberReadsBack(v: Variant, t: SourceType, cfg: Config, cs: seq<string>, n: int)
    requires t == Sequence || t == Counter
    requires CommentLines(cs)
    ensures LoadNumber(v, t, cfg, cs + [IntToString(n)]) == Some(Loaded(Number(n, []), None, cs))
  {
    var x := IntToString(n);
    var ls := cs + [x];
    IntToStringShape(n);
    ParseIntOfIntToString(n);
    assert Cleaned(Stripped, ls) == ls by {
      forall i | 0 <= i < |ls| ensures Trimmed(ls[i]) {
        if i < |cs| { assert ls[i] == cs[i]; }
      }
      CleanedTrimmed(ls);
    }
    assert Comments(ls) == cs by {
      CommentsAppend(cs, [x]);
      OnlyComments(cs);
      assert cs + [] == cs;
    }
    assert ls[|ls| - 1] == x && IsValue(x);
    assert LastValueLine(ls) == Some(x);
  }

  /**
   * Flushing a Sequence source and loading the file again gives the same number and
   * comments; a Counter comes back one higher. On the socket server anything STOC
   * appended after the number is not written and so is lost.
   */
  lemma FlushNumberReadsBack(v: Variant, t: SourceType, cfg: Config, st: Store)
    requires t == Sequence || t == Counter
    requires Sound(v, t, st) && st.data.Number? && CommentLines(st.comments)
    ensures var n := if t == Sequence then st.data.value else st.data.value + 1;
      && FlushOf(v, t, cfg, st) == Rewrite(st.comments + [IntToString(n)], !(v == Socket && t == Counter))
      && LoadNumber(v, t, cfg, st.comments + [IntToString(n)]) == Some(Loaded(Number(n, []), None, st.comments))
  {
    NumberReadsBack(v, t, cfg, st.comments, if t == Sequence then st.data.value else st.data.value + 1);
  }

  /**
   * A Sequence source the HTTP server holds unset writes back only its comments before
   * the flush raises, and that file loads as an unset Sequence with the same comments.
   */
  lemma FlushUnsetReadsBack(cfg: Config, st: Store)
    requires Sound(Http, Sequence, st) && st.data.Unset? && CommentLines(st.comments)
    ensures FlushOf(Http, Sequence, cfg, st) == Truncated(st.comments)
    ensures LoadNumber(Http, Sequence, cfg, st.comments) == Some(Loaded(Unset, None, st.comments))
  {
    var cs := st.comments;
    CleanedTrimmed(cs);
    OnlyComments(cs);
    NoValueLine(Http, Sequence, cfg, cs);
  }

  /** Reading the concatenation of two pieces classifies each piece on its own. */
  lemma KindsSnoc(c: Cleaning, td: char, ls: seq<string>, x: string)
    ensures Kinds(c, td, ls + [x]) == Kinds(c, td, ls) + [Classify(td, Clean(c, x))]
  {
    var b := ls + [x];
    assert b[..|b| - 1] == ls && b[|b| - 1] == x;
  }

  lemma {:induction false} KindsAppend(c: Cleaning, td: char, a: seq<string>, b: seq<string>)
    ensures Kinds(c, td, a + b) == Kinds(c, td, a) + Kinds(c, td, b)
    decreases |b|
  {
    if b == [] {
      assert a + b == a;
    } else {
      var p, x := b[..|b| - 1], b[|b| - 1];
      var e := [Classify(td, Clean(c, x))];
      var ka, kp := Kinds(c, td, a), Kinds(c, td, p);
      calc {
        Kinds(c, td, a + b);
        { assert a + b == (a + p) + [x]; KindsSnoc(c, td, a + p, x); }
        Kinds(c, td, a + p) + e;
        { KindsAppend(c, td, a, p); }
        (ka + kp) + e;
        ka + (kp + e);
        { assert b == p + [x]; KindsSnoc(c, td, p, x); }
        ka + Kinds(c, td, b);
      }
    }
  }

  lemma {:induction false} NotesAppend(a: seq<LineKind>, b: seq<LineKind>)
    ensures Notes(a + b) == Notes(a) + Notes(b)
    decreases |b|
  {
    if b == [] {
      assert a + b == a;
    } else {
      var p, x := b[..|b| - 1], b[|b| - 1];
      var e := if x.Note? then [x.text] else [];
      assert (a + b)[..|a + b| - 1] == a + p && (a + b)[|a + b| - 1] == x;
      assert Notes(a + b) == Notes(a + p) + e;
      assert Notes(b) == Notes(p) + e;
      NotesAppend(a, p);
    }
  }

  /** Building a tag map over two pieces builds it over the first and continues over the second. */
  lemma {:induction false} TagsFromAppend<V>(convert: (string, string) -> Option<V>, m: map<string, V>, a: seq<LineKind>, b: seq<LineKind>)
    ensures TagsFrom(convert, m, a + b) ==
      if TagsFrom(convert, m, a).None? then None else TagsFrom(convert, TagsFrom(convert, m, a).value, b)
    decreases |a|
  {
    if a == [] {
      assert a + b == b;
    } else {
      assert (a + b)[0] == a[0] && (a + b)[1..] == a[1..] + b;
      var k := a[0];
      if k.Entry? && convert(k.tag, k.value).Some? {
        TagsFromAppend(convert, m[k.tag := convert(k.tag, k.value).value], a[1..], b);
      } else if !k.Entry? && !k.Malformed? {
        TagsFromAppend(convert, m, a[1..], b);
      }
    }
  }

  /** Comment lines leave a tag map as it is. */
  lemma {:induction false} NotesKeepTags<V>(convert: (string, string) -> Option<V>, m: map<string, V>, ks: seq<LineKind>)
    requires forall i :: 0 <= i < |ks| ==> ks[i].Note?
    ensures TagsFrom(convert, m, ks) == Some(m)
    decreases |ks|
  {
    if ks != [] {
      forall i | 0 <= i < |ks[1..]| ensures ks[1..][i].Note? { assert ks[1..][i] == ks[i + 1]; }
      NotesKeepTags(convert, m, ks[1..]);
    }
  }

  /** A comment block of a tagged file: its notes are the comments and it adds no tag. */
  lemma CommentsReadBack<V>(td: char, convert: (string, string) -> Option<V>, cs: seq<string>)
    requires CommentLines(cs)
    ensures Notes(Kinds(Stripped, td, cs)) == cs
    ensures TagsFrom(convert, map[], Kinds(Stripped, td, cs)) == Some(map[])
  {
    var ks := Kinds(Stripped, td, cs);
    assert Cleaned(Stripped, cs) == cs by {
      forall i | 0 <= i < |cs| ensures Trimmed(cs[i]) { }
      CleanedTrimmed(cs);
    }
    assert Notes(ks) == cs by {
      NotesAreComments(Stripped, td, cs);
      forall i | 0 <= i < |cs| ensures IsComment(cs[i]) { }
      OnlyComments(cs);
    }
    forall i | 0 <= i < |ks| ensures ks[i].Note? {
      KindsAt(Stripped, td, cs, i);
      assert Strip(cs[i]) == cs[i];
    }
    NotesKeepTags(convert, map[], ks);
  }

  /**
   * A tag line that reads back as its key and text: no white space at either end, not a
   * comment, a key that stripping leaves alone, and the delimiter in neither part.
   */
  predicate Writable(td: char, key: string, text: string) {
    var l := TagLine(td, key, text);
    Trimmed(l) && !IsComment(l) && Trimmed(key) && td !in key && td !in text
  }

  lemma ClassifyWritable(td: char, key: string, text: string)
    requires Writable(td, key, text)
    ensures Classify(td, Strip(TagLine(td, key, text))) == Entry(key, text)
  {
    var l := TagLine(td, key, text);
    assert l[|key|] == td;
    SplitPair(key, text, td);
  }

  /** The map of the keys `ks` of `m` to their values, built key by key. */
  function Absorb<V>(m: map<string, V>, ks: seq<string>): map<string, V>
    requires forall i :: 0 <= i < |ks| ==> ks[i] in m
  {
    if ks == [] then map[]
    else Absorb(m, ks[..|ks| - 1])[ks[|ks| - 1] := m[ks[|ks| - 1]]]
  }

  lemma {:induction false} AbsorbHolds<V>(m: map<string, V>, ks: seq<string>, k: string)
    requires forall i :: 0 <= i < |ks| ==> ks[i] in m
    ensures k in Absorb(m, ks) <==> k in ks
    ensures k in Absorb(m, ks) ==> Absorb(m, ks)[k] == m[k]
    decreases |ks|
  {
    if ks != [] {
      var p := ks[..|ks| - 1];
      AbsorbHolds(m, p, k);
      assert ks == p + [ks[|ks| - 1]];
    }
  }

  /** Absorbing every key of a map in sorted order gives the map back. */
  lemma AbsorbSorted<V>(m: map<string, V>)
    ensures Absorb(m, SortedKeys(m.Keys)) == m
  {
    var ks := SortedKeys(m.Keys);
    var a := Absorb(m, ks);
    forall k ensures (k in a <==> k in m) && (k in a ==> a[k] == m[k]) {
      AbsorbHolds(m, ks, k);
    }
  }

  lemma TagsFromEntry<V>(convert: (string, string) -> Option<V>, m: map<string, V>, key: string, text: string, x: V)
    requires convert(key, text) == Some(x)
    ensures TagsFrom(convert, m, [Entry(key, text)]) == Some(m[key := x])
  {
    var ks := [Entry(key, text)];
    assert ks[1..] == [];
  }

  /** The tag lines of keys `ks` read back as entries that build `Absorb(m, ks)`, with no comment among them. */
  lemma {:induction false} TagLinesReadBack<V>(td: char, convert: (string, string) -> Option<V>, enc: V -> string, m: map<string, V>, ks: seq<string>)
    requires forall i :: 0 <= i < |ks| ==> ks[i] in m
    requires forall k :: k in m ==> Writable(td, k, enc(m[k])) && convert(k, enc(m[k])) == Some(m[k])
    ensures Notes(Kinds(Stripped, td, TagLines(td, enc, m, ks))) == []
    ensures TagsFrom(convert, map[], Kinds(Stripped, td, TagLines(td, enc, m, ks))) == Some(Absorb(m, ks))
    decreases |ks|
  {
    if ks != [] {
      var p, k := ks[..|ks| - 1], ks[|ks| - 1];
      var ls := TagLines(td, enc, m, p);
      var e := Entry(k, enc(m[k]));
      var kp := Kinds(Stripped, td, ls);
      assert Kinds(Stripped, td, TagLines(td, enc, m, ks)) == kp + [e] by {
        var line := TagLine(td, k, enc(m[k]));
        assert TagLines(td, enc, m, ks) == ls + [line];
        ClassifyWritable(td, k, enc(m[k]));
        KindsSnoc(Stripped, td, ls, line);
      }
      TagLinesReadBack(td, convert, enc, m, p);
      assert Notes(kp + [e]) == [] by {
        var q := kp + [e];
        assert q[..|q| - 1] == kp;
      }
      assert TagsFrom(convert, map[], kp + [e]) == Some(Absorb(m, ks)) by {
        TagsFromAppend(convert, map[], kp, [e]);
        TagsFromEntry(convert, Absorb(m, p), k, enc(m[k]), m[k]);
      }
    }
  }

  /**
   * A tagged file of comments and the lines of a whole map reads back as those comments
   * and that map, whenever every line is writable and its text converts back to its value.
   */
  lemma TaggedReadsBack<V>(td: char, convert: (string, string) -> Option<V>, enc: V -> string, cs: seq<string>, m: map<string, V>)
    requires CommentLines(cs)
    requires forall k :: k in m ==> Writable(td, k, enc(m[k])) && convert(k, enc(m[k])) == Some(m[k])
    ensures TaggedLoad(Stripped, td, convert, cs + TagImage(td, enc, m)) == Some((cs, m))
  {
    var ks := SortedKeys(m.Keys);
    var body := TagLines(td, enc, m, ks);
    var a, b := Kinds(Stripped, td, cs), Kinds(Stripped, td, body);
    KindsAppend(Stripped, td, cs, body);
    CommentsReadBack(td, convert, cs);
    TagLinesReadBack(td, convert, enc, m, ks);
    NotesAppend(a, b);
    TagsFromAppend(convert, map[], a, b);
    AbsorbSorted(m);
    assert cs + [] == cs;
  }

  /** A key that can head a tag line: not empty, no white space at either end, not a comment, no delimiter. */
  predicate KeyWritable(td: char, key: string) {
    key != [] && Trimmed(key) && key[0] != '#' && td !in key
  }

  lemma WritableOf(td: char, key: string, text: string)
    requires KeyWritable(td, key) && !IsSpace(td) && Trimmed(text) && td !in text
    ensures Writable(td, key, text)
  {
    var l := TagLine(td, key, text);
    assert l[0] == key[0];
    assert l[|l| - 1] == if text == [] then td else text[|text| - 1];
  }

  /**
   * An HTTP KeyedSequence source, flushed and loaded again, has the same counters and
   * comments, when its keys can head tag lines and the tag delimiter is neither a digit,
   * a minus sign nor white space.
   */
  lemma FlushSerialsReadsBack(cfg: Config, st: Store)
    requires Sound(Http, KeyedSequence, st) && CommentLines(st.comments)
    requires var td := TagDelimiterOf(cfg);
      && !IsDigit(td) && td != '-' && !IsSpace(td)
      && forall k :: k in st.data.counters ==> KeyWritable(td, k)
    ensures FlushOf(Http, KeyedSequence, cfg, st).Rewrite?
    ensures LoadTagged(Http, KeyedSequence, cfg, FlushOf(Http, KeyedSequence, cfg, st).lines) == Some(Loaded(st.data, None, st.comments))
  {
    var td, m := TagDelimiterOf(cfg), st.data.counters;
    forall k | k in m ensures Writable(td, k, SerialText(m[k])) && IntValue(k, SerialText(m[k])) == Some(m[k]) {
      IntToStringShape(m[k]);
      IntToStringExcludes(m[k], td);
      WritableOf(td, k, SerialText(m[k]));
      ParseIntOfIntToString(m[k]);
    }
    TaggedReadsBack(td, IntValue, SerialText, st.comments, m);
  }

  /**
   * A socket KeyedSequence source, flushed and loaded again, has the same table and
   * comments, when its keys can head tag lines and its values have no white space at
   * either end and no tag delimiter.
   */
  lemma FlushTableReadsBack(cfg: Config, st: Store)
    requires Sound(Socket, KeyedSequence, st) && CommentLines(st.comments)
    requires var td := TagDelimiterOf(cfg);
      && !IsSpace(td)
      && forall k :: k in st.data.entries ==> KeyWritable(td, k) && Trimmed(st.data.entries[k]) && td !in st.data.entries[k]
    ensures FlushOf(Socket, KeyedSequence, cfg, st).Rewrite?
    ensures LoadTagged(Socket, KeyedSequence, cfg, FlushOf(Socket, KeyedSequence, cfg, st).lines) == Some(Loaded(st.data, None, st.comments))
  {
    var td, m := TagDelimiterOf(cfg), st.data.entries;
    forall k | k in m ensures Writable(td, k, PlainText(m[k])) && TextValue(k, PlainText(m[k])) == Some(m[k]) {
      WritableOf(td, k, PlainText(m[k]));
    }
    TaggedReadsBack(td, TextValue, PlainText, st.comments, m);
  }

  /**
   * A Barcodes source, flushed and loaded again, has the same series at the same serial
   * numbers, when its keys can head tag lines and the tag delimiter is neither a digit,
   * a minus sign nor white space.
   */
  lemma FlushBarcodesReadsBack(cfg: Config, st: Store)
    requires Sound(Http, Barcodes, st) && CommentLines(st.comments)
    requires var td := TagDelimiterOf(cfg);
      && !IsDigit(td) && td != '-' && !IsSpace(td)
      && forall k :: k in st.data.codes ==> KeyWritable(td, k)
    ensures FlushOf(Http, Barcodes, cfg, st).Rewrite?
    ensures LoadTagged(Http, Barcodes, cfg, FlushOf(Http, Barcodes, cfg, st).lines) == Some(Loaded(st.data, None, st.comments))
  {
    var td, m := TagDelimiterOf(cfg), st.data.codes;
    forall k | k in m ensures Writable(td, k, SeriesText(m[k])) && SeriesValue(k, SeriesText(m[k])) == Some(m[k]) {
      var b := m[k];
      IntToStringShape(b.serial);
      IntToStringExcludes(b.serial, td);
      WritableOf(td, k, SeriesText(b));
      ParseIntOfIntToString(b.serial);
      assert SeriesOfKey(k, b);
    }
    TaggedReadsBack(td, SeriesValue, SeriesText, st.comments, m);
  }

  // ----------------------------------------------------------------------------------------
  // Keyed files read back

  /** A comment line of a keyed file that reads back as a comment: it must not hold a `[`. */
  predicate KeyedNote(l: string) {
    CommentLine(l) && '[' !in l
  }

  predicate KeyedNotes(cs: seq<string>) {
    forall i :: 0 <= i < |cs| ==> KeyedNote(cs[i])
  }

  /** A record of a keyed file that reads back as a record. */
  predicate KeyedRecord(l: string) {
    l != "" && !IsComment(l) && Trimmed(l) && '[' !in l
  }

  predicate KeyedRecords(rs: seq<string>) {
    forall i :: 0 <= i < |rs| ==> KeyedRecord(rs[i])
  }

  /** A group whose block reads back as the group: a header name without brackets, and readable comments and records. */
  predicate GroupWritable(key: string, g: Group) {
    '[' !in key && ']' !in key && CursorInRange(g) && KeyedNotes(g.comments) && KeyedRecords(g.data[g.idx..])
  }

  /** A group as loading its block gives it back: the records from the cursor on, and the cursor at the start. */
  function Rewound(g: Group): (r: Group)
    requires CursorInRange(g)
    ensures r.idx == 0 && r.comments == g.comments && r.data == Remaining(g)
  {
    Group(g.data[g.idx..], 0, g.comments)
  }

  ghost function RewoundAll(m: map<string, Group>): (r: map<string, Group>)
    requires forall k :: k in m ==> CursorInRange(m[k])
    ensures r.Keys == m.Keys
  {
    map k | k in m :: Rewound(m[k])
  }

  lemma {:induction false} CleanedAppend(c: Cleaning, a: seq<string>, b: seq<string>)
    ensures Cleaned(c, a + b) == Cleaned(c, a) + Cleaned(c, b)
    decreases |b|
  {
    if b == [] {
      assert a + b == a;
    } else {
      var p, x := b[..|b| - 1], b[|b| - 1];
      var e := [Clean(c, x)];
      var ca, cp := Cleaned(c, a), Cleaned(c, p);
      calc {
        Cleaned(c, a + b);
        { var q := a + b; assert q[..|q| - 1] == a + p && q[|q| - 1] == x; }
        Cleaned(c, a + p) + e;
        { CleanedAppend(c, a, p); }
        (ca + cp) + e;
        ca + (cp + e);
        { assert b[..|b| - 1] == p; }
        ca + Cleaned(c, b);
      }
    }
  }

  lemma RemoveClosing(key: string)
    requires ']' !in key
    ensures Remove(key + "]", ']') == key
  {
    RemoveAppend(key, "]", ']');
    assert Remove("]", ']') == [] by { assert "]"[1..] == []; }
  }

  /** The header line of a group names the group. */
  lemma HeaderOf(key: string)
    requires '[' !in key && ']' !in key
    ensures var h := "[" + key + "]"; Trimmed(h) && '[' in h && HeaderName(h) == key
  {
    var h := "[" + key + "]";
    var tail := key + "]";
    assert h[0] == '[' && h[|h| - 1] == ']';
    assert h[1..] == tail;
    assert '[' !in tail by {
      forall i | 0 <= i < |tail| ensures tail[i] != '[' {
        if i < |key| { assert tail[i] == key[i]; }
      }
    }
    assert Remove(h, '[') == tail;
    RemoveClosing(key);
  }

  lemma KeyedFromOne(st: KeyedState, l: string)
    requires KeyedInvariant(st)
    ensures KeyedFrom(st, [l]) == KeyedStep(st, l)
  {
    assert [l][1..] == [];
  }

  /** Comment lines before any group join the source's comments. */
  lemma {:induction false} KeyedNotesRead(st: KeyedState, cs: seq<string>)
    requires KeyedInvariant(st) && st.current.None? && KeyedNotes(cs)
    ensures KeyedFrom(st, cs) == Some(st.(comments := st.comments + cs))
    decreases |cs|
  {
    if cs != [] {
      assert KeyedNote(cs[0]);
      var st1 := st.(comments := st.comments + [cs[0]]);
      assert KeyedStep(st, cs[0]) == Some(st1);
      assert KeyedFrom(st, cs) == KeyedFrom(st1, cs[1..]);
      forall i | 0 <= i < |cs[1..]| ensures KeyedNote(cs[1..][i]) { assert cs[1..][i] == cs[i + 1]; }
      KeyedNotesRead(st1, cs[1..]);
      assert st1.comments + cs[1..] == st.comments + cs;
    } else {
      assert st.comments + cs == st.comments;
    }
  }

  /** Comment lines inside a group join that group's comments. */
  lemma {:induction false} GroupNotesRead(st: KeyedState, k: string, cs: seq<string>)
    requires KeyedInvariant(st) && st.current == Some(k) && KeyedNotes(cs)
    ensures var g := st.groups[k];
      KeyedFrom(st, cs) == Some(st.(groups := st.groups[k := g.(comments := g.comments + cs)]))
    decreases |cs|
  {
    if cs != [] {
      var g := st.groups[k];
      assert KeyedNote(cs[0]);
      var st1 := st.(groups := st.groups[k := g.(comments := g.comments + [cs[0]])]);
      assert KeyedStep(st, cs[0]) == Some(st1);
      assert KeyedFrom(st, cs) == KeyedFrom(st1, cs[1..]);
      forall i | 0 <= i < |cs[1..]| ensures KeyedNote(cs[1..][i]) { assert cs[1..][i] == cs[i + 1]; }
      GroupNotesRead(st1, k, cs[1..]);
      assert g.comments + [cs[0]] + cs[1..] == g.comments + cs;
      assert st1.groups[k := g.(comments := g.comments + cs)] == st.groups[k := g.(comments := g.comments + cs)];
    } else {
      var g := st.groups[k];
      assert g.comments + cs == g.comments;
      assert st.groups[k := g] == st.groups;
    }
  }

  /** Records inside a group join that group's records. */
  lemma {:induction false} GroupRecordsRead(st: KeyedState, k: string, rs: seq<string>)
    requires KeyedInvariant(st) && st.current == Some(k) && KeyedRecords(rs)
    ensures var g := st.groups[k];
      KeyedFrom(st, rs) == Some(st.(groups := st.groups[k := g.(data := g.data + rs)]))
    decreases |rs|
  {
    if rs != [] {
      var g := st.groups[k];
      assert KeyedRecord(rs[0]);
      var st1 := st.(groups := st.groups[k := g.(data := g.data + [rs[0]])]);
      assert KeyedStep(st, rs[0]) == Some(st1);
      assert KeyedFrom(st, rs) == KeyedFrom(st1, rs[1..]);
      forall i | 0 <= i < |rs[1..]| ensures KeyedRecord(rs[1..][i]) { assert rs[1..][i] == rs[i + 1]; }
      GroupRecordsRead(st1, k, rs[1..]);
      assert g.data + [rs[0]] + rs[1..] == g.data + rs;
      assert st1.groups[k := g.(data := g.data + rs)] == st.groups[k := g.(data := g.data + rs)];
    } else {
      var g := st.groups[k];
      assert g.data + rs == g.data;
      assert st.groups[k := g] == st.groups;
    }
  }

  lemma KeyedFromThen(st: KeyedState, a: seq<string>, b: seq<string>, s1: KeyedState, s2: KeyedState)
    requires KeyedInvariant(st) && KeyedInvariant(s1)
    requires KeyedFrom(st, a) == Some(s1) && KeyedFrom(s1, b) == Some(s2)
    ensures KeyedFrom(st, a + b) == Some(s2)
  {
    KeyedFromAppend(st, a, b);
  }

  /** A header line opens a new empty group under its name. */
  lemma BlockHeader(st: KeyedState, key: string)
    requires KeyedInvariant(st) && '[' !in key && ']' !in key
    ensures KeyedFrom(st, ["[" + key + "]"]) == Some(KeyedState(st.comments, st.groups[key := NewGroup()], Some(key)))
  {
    HeaderOf(key);
    KeyedFromOne(st, "[" + key + "]");
  }

  /** The comments after a header go to the group it opened. */
  lemma BlockComments(st: KeyedState, key: string, gc: seq<string>)
    requires KeyedInvariant(st) && KeyedNotes(gc)
    ensures var s1 := KeyedState(st.comments, st.groups[key := NewGroup()], Some(key));
      KeyedInvariant(s1) && KeyedFrom(s1, gc) == Some(KeyedState(st.comments, st.groups[key := Group([], 0, gc)], Some(key)))
  {
    var s1 := KeyedState(st.comments, st.groups[key := NewGroup()], Some(key));
    GroupNotesRead(s1, key, gc);
    assert [] + gc == gc;
    assert s1.groups[key := Group([], 0, gc)] == st.groups[key := Group([], 0, gc)];
  }

  /** A header line and the group's comments open the group with those comments. */
  lemma BlockOpen(st: KeyedState, key: string, gc: seq<string>)
    requires KeyedInvariant(st) && '[' !in key && ']' !in key && KeyedNotes(gc)
    ensures KeyedFrom(st, ["[" + key + "]"] + gc) == Some(KeyedState(st.comments, st.groups[key := Group([], 0, gc)], Some(key)))
  {
    var st1 := KeyedState(st.comments, st.groups[key := NewGroup()], Some(key));
    var st2 := KeyedState(st.comments, st.groups[key := Group([], 0, gc)], Some(key));
    BlockHeader(st, key);
    BlockComments(st, key, gc);
    KeyedFromThen(st, ["[" + key + "]"], gc, st1, st2);
  }

  /** The records of an open group join it. */
  lemma BlockRecords(st: KeyedState, key: string, gc: seq<string>, rs: seq<string>)
    requires KeyedInvariant(st) && KeyedRecords(rs)
    ensures var s := KeyedState(st.comments, st.groups[key := Group([], 0, gc)], Some(key));
      KeyedInvariant(s) && KeyedFrom(s, rs) == Some(KeyedState(st.comments, st.groups[key := Group(rs, 0, gc)], Some(key)))
  {
    var s := KeyedState(st.comments, st.groups[key := Group([], 0, gc)], Some(key));
    GroupRecordsRead(s, key, rs);
    assert [] + rs == rs;
    assert s.groups[key := Group(rs, 0, gc)] == st.groups[key := Group(rs, 0, gc)];
  }

  /** The records of an open group, then a blank line, fill the group. */
  lemma BlockFill(st: KeyedState, key: string, gc: seq<string>, rs: seq<string>)
    requires KeyedInvariant(st) && KeyedRecords(rs)
    ensures var s := KeyedState(st.comments, st.groups[key := Group([], 0, gc)], Some(key));
      KeyedInvariant(s) && KeyedFrom(s, rs + [""]) == Some(KeyedState(st.comments, st.groups[key := Group(rs, 0, gc)], Some(key)))
  {
    var s := KeyedState(st.comments, st.groups[key := Group([], 0, gc)], Some(key));
    var s3 := KeyedState(st.comments, st.groups[key := Group(rs, 0, gc)], Some(key));
    BlockRecords(st, key, gc, rs);
    KeyedFromOne(s3, "");
    KeyedFromThen(s, rs, [""], s3, s3);
  }

  /** The block of a group reads back as that group, rewound, and leaves it open. */
  lemma BlockRead(st: KeyedState, key: string, g: Group)
    requires KeyedInvariant(st) && GroupWritable(key, g)
    ensures KeyedFrom(st, GroupBlock(key, g)) == Some(KeyedState(st.comments, st.groups[key := Rewound(g)], Some(key)))
  {
    var h, gc, rs := "[" + key + "]", g.comments, g.data[g.idx..];
    BlockOpen(st, key, gc);
    BlockFill(st, key, gc, rs);
    KeyedFromAppend(st, [h] + gc, rs + [""]);
    assert GroupBlock(key, g) == ([h] + gc) + (rs + [""]);
  }

  /** Every line of a group block is left alone by stripping. */
  lemma BlockCleaned(key: string, g: Group)
    requires GroupWritable(key, g)
    ensures Cleaned(Stripped, GroupBlock(key, g)) == GroupBlock(key, g)
  {
    var h, gc, rs := "[" + key + "]", g.comments, g.data[g.idx..];
    HeaderOf(key);
    var b := GroupBlock(key, g);
    assert b == [h] + gc + rs + [""];
    forall i | 0 <= i < |b| ensures Trimmed(b[i]) {
      if i == 0 {
        assert b[i] == h;
      } else if i <= |gc| {
        assert b[i] == gc[i - 1] && KeyedNote(gc[i - 1]);
      } else if i <= |gc| + |rs| {
        assert b[i] == rs[i - 1 - |gc|] && KeyedRecord(rs[i - 1 - |gc|]);
      } else {
        assert b[i] == "";
      }
    }
    CleanedTrimmed(b);
  }

  /** Every line of a run of group blocks is left alone by stripping. */
  lemma {:induction false} BlocksCleaned(m: map<string, Group>, ks: seq<string>)
    requires forall i :: 0 <= i < |ks| ==> ks[i] in m && CursorInRange(m[ks[i]]) && GroupWritable(ks[i], m[ks[i]])
    ensures Cleaned(Stripped, GroupBlocks(m, ks)) == GroupBlocks(m, ks)
    decreases |ks|
  {
    if ks != [] {
      var p, k := ks[..|ks| - 1], ks[|ks| - 1];
      assert GroupWritable(k, m[k]);
      BlocksCleaned(m, p);
      BlockCleaned(k, m[k]);
      CleanedAppend(Stripped, GroupBlocks(m, p), GroupBlock(k, m[k]));
    }
  }

  /**
   * The blocks of the groups `ks`, read after the comments `cs`, give those groups
   * rewound, each key once, with the last one open.
   */
  lemma {:induction false} BlocksRead(cs: seq<string>, m: map<string, Group>, ks: seq<string>)
    requires forall k :: k in m ==> CursorInRange(m[k])
    requires forall i :: 0 <= i < |ks| ==> ks[i] in m && CursorInRange(m[ks[i]]) && GroupWritable(ks[i], m[ks[i]])
    ensures KeyedFrom(KeyedState(cs, map[], None), GroupBlocks(m, ks))
      == Some(KeyedState(cs, Absorb(RewoundAll(m), ks), if ks == [] then None else Some(ks[|ks| - 1])))
    decreases |ks|
  {
    var r := RewoundAll(m);
    if ks != [] {
      var p, k := ks[..|ks| - 1], ks[|ks| - 1];
      var a := Absorb(r, p);
      var stp := KeyedState(cs, a, if p == [] then None else Some(p[|p| - 1]));
      BlocksRead(cs, m, p);
      assert KeyedInvariant(stp) by {
        forall k' | k' in a ensures a[k'].idx == 0 { AbsorbHolds(r, p, k'); }
        if p != [] { AbsorbHolds(r, p, p[|p| - 1]); }
      }
      assert GroupWritable(k, m[k]);
      BlockRead(stp, k, m[k]);
      KeyedFromAppend(KeyedState(cs, map[], None), GroupBlocks(m, p), GroupBlock(k, m[k]));
    }
  }

  lemma KeyedFileCleaned(cs: seq<string>, m: map<string, Group>)
    requires KeyedNotes(cs)
    requires forall k :: k in m ==> CursorInRange(m[k]) && GroupWritable(k, m[k])
    ensures Cleaned(Stripped, cs + GroupsImage(m)) == cs + GroupsImage(m)
  {
    var body := GroupsImage(m);
    CleanedAppend(Stripped, cs, body);
    CleanedTrimmed(cs);
    BlocksCleaned(m, SortedKeys(m.Keys));
  }

  /** The blocks of a whole groups map, read after the comments `cs`, give the map rewound. */
  lemma KeyedBodyRead(cs: seq<string>, m: map<string, Group>)
    requires forall k :: k in m ==> CursorInRange(m[k]) && GroupWritable(k, m[k])
    ensures exists open: Option<string> ::
      KeyedFrom(KeyedState(cs, map[], None), GroupsImage(m)) == Some(KeyedState(cs, RewoundAll(m), open))
  {
    var ks := SortedKeys(m.Keys);
    var r := RewoundAll(m);
    var last := if ks == [] then None else Some(ks[|ks| - 1]);
    BlocksRead(cs, m, ks);
    AbsorbSorted(r);
    assert KeyedFrom(KeyedState(cs, map[], None), GroupsImage(m)) == Some(KeyedState(cs, r, last));
  }

  /**
   * A keyed file of comments and the blocks of a whole groups map loads as those
   * comments and those groups, rewound.
   */
  lemma KeyedFileRead(cs: seq<string>, m: map<string, Group>)
    requires KeyedNotes(cs)
    requires forall k :: k in m ==> CursorInRange(m[k]) && GroupWritable(k, m[k])
    ensures LoadKeyed(cs + GroupsImage(m)) == Some(Loaded(Groups(RewoundAll(m)), None, cs))
  {
    var s0 := KeyedState(cs, map[], None);
    KeyedFileCleaned(cs, m);
    assert KeyedFrom(KeyedStart(), cs) == Some(s0) by {
      KeyedNotesRead(KeyedStart(), cs);
      assert [] + cs == cs;
    }
    KeyedBodyRead(cs, m);
    var open: Option<string> :| KeyedFrom(s0, GroupsImage(m)) == Some(KeyedState(cs, RewoundAll(m), open));
    KeyedFromThen(KeyedStart(), cs, GroupsImage(m), s0, KeyedState(cs, RewoundAll(m), open));
  }

  /**
   * A Keyed source, flushed and loaded again, has the same comments and groups, each
   * holding the records it had not handed out and with its cursor back at the start,
   * when its comments, group names and records are ones that read back.
   */
  lemma FlushKeyedReadsBack(v: Variant, cfg: Config, st: Store)
    requires Sound(v, Keyed, st) && KeyedNotes(st.comments)
    requires forall k :: k in st.data.groups ==> GroupWritable(k, st.data.groups[k])
    ensures FlushOf(v, Keyed, cfg, st) == Rewrite(st.comments + GroupsImage(st.data.groups), true)
    ensures LoadKeyed(st.comments + GroupsImage(st.data.groups)) == Some(Loaded(Groups(RewoundAll(st.data.groups)), None, st.comments))
  {
    KeyedFileRead(st.comments, st.data.groups);
  }
}
