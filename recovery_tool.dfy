/**
 * The recovery tool: it loads one source's `.dat` file the way it loads it (not always
 * as the servers do), replays that source's used and stored audit files against it,
 * and writes what the source should hold to `<environment>/<name>.rec`.
 *
 * The tool's `Source` object keeps the payload, the comments, the tag delimiter and,
 * for a Barcodes source, each series' recovered serial number; its methods change them
 * as the tool's methods do, proved against the functions of `Recovery`. `Recover` runs
 * the whole tool for one source and is proved to write what `RecoveryRun` describes;
 * the lemmas at the end show that the file it writes loads back, on the HTTP server,
 * as the recovered state.
 */
module RecoveryTool {
  import opened Wrappers
  import opened Text
  import opened Entities
  import opened Loading
  import opened Flushing
  import opened Recovery

  /** A file the tool writes: its path and its lines. */
  datatype RecoveryFile = RecoveryFile(path: string, lines: seq<string>)

  /** What one run of the tool does: it stops with an exception, writes nothing, or writes a file. */
  datatype Run = Crashed | Skipped | Wrote(file: RecoveryFile)

  /** The `%s/%s.rec` path a recovered source is written to. */
  function RecoveryPath(env: string, name: string): string {
    env + "/" + name + ".rec"
  }

  /** The `"%d"` numeral of one past a series' recovered serial number. */
  function NextSerialText(n: int): (s: string)
    ensures ParseInt(s) == Some(n + 1)
  {
    ParseIntOfIntToString(n + 1);
    IntToString(n + 1)
  }

  /** The series of a Barcodes source with their serial numbers set one past the recovered ones. */
  function Advanced(codes: map<string, BarcodeGroup>, recovered: map<string, int>): (r: map<string, BarcodeGroup>)
    requires codes.Keys <= recovered.Keys
    ensures r.Keys == codes.Keys
    ensures forall k :: k in codes ==> r[k] == codes[k].(serial := recovered[k] + 1)
  {
    map k | k in codes :: codes[k].(serial := recovered[k] + 1)
  }

  /** Every group's cursor is at its first record. */
  predicate GroupsRewound(m: map<string, Group>) {
    forall k :: k in m ==> m[k].idx == 0
  }

  /** Every series agrees with the key it is stored under. */
  predicate SeriesAgree(m: map<string, BarcodeGroup>) {
    forall k :: k in m ==> SeriesOfKey(k, m[k])
  }

  /**
   * How the tool loads the file of a Keyed, KeyedSequence or Barcodes source. A keyed file
   * is read as the servers read it. A keyed-sequence file is read on `:` after stripping,
   * and a configured tag delimiter stops the load, since the tool then reads an undefined
   * name. A barcodes file has its carriage returns and line feeds removed but is not
   * stripped, and is split on the configured tag delimiter.
   */
  function ToolLoad(t: SourceType, cfg: Config, lines: seq<string>): (r: Option<Loaded>)
    requires t == Keyed || t == KeyedSequence || t == Barcodes
    ensures r.Some? && t == Keyed ==> r.value.data.Groups? && GroupsRewound(r.value.data.groups)
    ensures r.Some? && t == KeyedSequence ==> r.value.data.Serials? && cfg.tagDelimiter.None?
    ensures r.Some? && t == Barcodes ==> r.value.data.Codes? && SeriesAgree(r.value.data.codes)
  {
    if t == Keyed then LoadKeyed(lines)
    else if t == KeyedSequence then
      if cfg.tagDelimiter.Some? then None
      else
        var p := TaggedLoad(Stripped, ':', IntValue, lines);
        if p.None? then None else Some(Loaded(Serials(p.value.1), None, p.value.0))
    else
      var td := TagDelimiterOf(cfg);
      var p := TaggedLoad(CrLfDropped, td, SeriesValue, lines);
      if p.None? then None
      else
        SeriesValuesAgree(map[], Kinds(CrLfDropped, td, lines));
        Some(Loaded(Codes(p.value.1), None, p.value.0))
  }

  /**
   * The tool reads a Keyed source, and a KeyedSequence source without a configured tag
   * delimiter, exactly as the HTTP server does.
   */
  lemma ToolLoadsAsServer(t: SourceType, cfg: Config, lines: seq<string>)
    requires t == Keyed || (t == KeyedSequence && cfg.tagDelimiter.None?)
    ensures ToolLoad(t, cfg, lines) == Load(Http, t, cfg, lines)
  {
  }

  class Source {
    const name: string
    const kind: SourceType
    var tagDelimiter: char
    var comments: seq<string>
    var data: Payload
    /** The recovered serial number of each series of a Barcodes source. */
    var recovered: map<string, int>

    constructor(name: string, kind: SourceType)
      ensures this.name == name && this.kind == kind
      ensures comments == [] && data == Rows([]) && recovered == map[] && tagDelimiter == ':'
    {
      this.name := name;
      this.kind := kind;
      tagDelimiter := ':';
      comments := [];
      data := Rows([]);
      recovered := map[];
    }

    /**
     * Loads the source's file with reading only (`init(rw=False)`); false when the
     * load fails, after which the tool stops. The comments are appended to the ones
     * already held.
     */
    method Init(cfg: Config, lines: seq<string>) returns (ok: bool)
      requires kind == Keyed || kind == KeyedSequence || kind == Barcodes
      modifies this
      ensures ok <==> ToolLoad(kind, cfg, lines).Some?
      ensures ok ==> data == ToolLoad(kind, cfg, lines).value.data
      ensures ok ==> comments == old(comments) + ToolLoad(kind, cfg, lines).value.comments
      ensures ok ==> tagDelimiter == if kind == Keyed then old(tagDelimiter) else TagDelimiterOf(cfg)
      ensures recovered == old(recovered)
    {
      if kind == Keyed {
        var st := ReadKeyed(lines);
        if st.None? {
          return false;
        }
        data := Groups(st.value.groups);
        comments := comments + st.value.comments;
        return true;
      }
      if kind == KeyedSequence && cfg.tagDelimiter.Some? {
        return false;
      }
      tagDelimiter := TagDelimiterOf(cfg);
      if kind == KeyedSequence {
        var p := ReadTagged(Stripped, tagDelimiter, IntValue, lines);
        if p.None? {
          return false;
        }
        data := Serials(p.value.1);
        comments := comments + p.value.0;
      } else {
        var p := ReadTagged(CrLfDropped, tagDelimiter, SeriesValue, lines);
        if p.None? {
          return false;
        }
        data := Codes(p.value.1);
        comments := comments + p.value.0;
      }
      ok := true;
    }

    /** `list_keyed`: shows each group's first and last record; false when a group has none, which raises. */
    method ListKeyed() returns (ok: bool)
      requires data.Groups?
      ensures ok <==> AllHoldRecords(data.groups)
    {
      ok := CheckRecords(data.groups);
    }

    /**
     * `recover_keyed`: replays the stored audit lines and then the used ones against the
     * groups; false when it raises.
     */
    method RecoverKeyed(stored: seq<string>, used: seq<string>) returns (ok: bool)
      requires data.Groups?
      modifies this
      ensures ok <==> RecoverKeyedOf(old(data.groups), stored, used).Some?
      ensures ok ==> data == Groups(RecoverKeyedOf(old(data.groups), stored, used).value)
      ensures !ok ==> data == old(data)
      ensures comments == old(comments) && tagDelimiter == old(tagDelimiter) && recovered == old(recovered)
    {
      var r := RecoverGroups(data.groups, stored, used);
      ok := r.Some?;
      if ok {
        data := Groups(r.value);
      }
    }

    /**
     * `recover_keyed_sequence` as evidently intended: each counter is raised past every
     * number handed out for its key; false when an entry's text is neither a token nor
     * an integer, which raises.
     */
    method RecoverKeyedSequence(used: seq<string>) returns (ok: bool)
      requires data.Serials?
      modifies this
      ensures ok <==> RecoverCountersOf(old(data.counters), used).Some?
      ensures ok ==> data == Serials(RecoverCountersOf(old(data.counters), used).value)
      ensures !ok ==> data == old(data)
      ensures comments == old(comments) && tagDelimiter == old(tagDelimiter) && recovered == old(recovered)
    {
      var r := RecoverCounters(data.counters, used);
      ok := r.Some?;
      if ok {
        data := Serials(r.value);
      }
    }

    /**
     * `recover_barcodes` as evidently intended: each series' recovered serial is the
     * largest serial among the identifiers of that series handed out, 0 when there is none.
     */
    method RecoverBarcodes(used: seq<string>)
      requires data.Codes?
      modifies this
      ensures data == old(data) && comments == old(comments) && tagDelimiter == old(tagDelimiter)
      ensures recovered == RecoveredSerials(data.codes, used)
    {
      recovered := RecoverSeries(data.codes, used);
    }

    /** `list_recovered_barcodes`: the lines it shows, one per series with one past its recovered serial. */
    method ListRecoveredBarcodes() returns (lines: seq<string>)
      ensures |lines| == |recovered.Keys|
      ensures lines == TagImage(tagDelimiter, NextSerialText, recovered)
    {
      lines := WriteTags(tagDelimiter, NextSerialText, [], recovered);
    }

    /** `flush_keyed(recover=True)`: the comments, then each group's block in sorted order. */
    method FlushKeyed(env: string) returns (f: RecoveryFile)
      requires data.Groups? && forall k :: k in data.groups ==> CursorInRange(data.groups[k])
      ensures f == RecoveryFile(RecoveryPath(env, name), comments + GroupsImage(data.groups))
    {
      var lines := WriteGroups(comments, data.groups);
      f := RecoveryFile(env + "/" + name + ".rec", lines);
    }

    /** `flush_keyed_sequence(recover=True)`: the comments, then `tag:counter` lines in sorted order. */
    method FlushKeyedSequence(env: string) returns (f: RecoveryFile)
      requires data.Serials?
      ensures f == RecoveryFile(RecoveryPath(env, name), comments + TagImage(':', SerialText, data.counters))
    {
      var lines := WriteTags(':', SerialText, comments, data.counters);
      f := RecoveryFile(env + "/" + name + ".rec", lines);
    }

    /** `flush_barcodes(recover=True)`: the comments, then each series with one past its recovered serial. */
    method FlushBarcodes(env: string) returns (f: RecoveryFile)
      ensures f == RecoveryFile(RecoveryPath(env, name), comments + TagImage(tagDelimiter, NextSerialText, recovered))
    {
      var lines := WriteTags(tagDelimiter, NextSerialText, comments, recovered);
      f := RecoveryFile(env + "/" + name + ".rec", lines);
    }
  }

  /**
   * What the tool writes for a Keyed source loaded as `l`: the groups are shown, then
   * recovered, then shown again, and showing a group without records raises.
   */
  ghost function KeyedRun(path: string, l: Loaded, stored: seq<string>, used: seq<string>): Run
    requires l.data.Groups? && GroupsRewound(l.data.groups)
  {
    match RecoverKeyedOf(l.data.groups, stored, used)
    case None => Crashed
    case Some(r) =>
      if !AllHoldRecords(r) then Crashed
      else Wrote(RecoveryFile(path, l.comments + GroupsImage(r)))
  }

  /** What the tool writes for a KeyedSequence source loaded as `l`. */
  ghost function CountersRun(path: string, l: Loaded, used: seq<string>): Run
    requires l.data.Serials?
  {
    match RecoverCountersOf(l.data.counters, used)
    case None => Crashed
    case Some(c) => Wrote(RecoveryFile(path, l.comments + TagImage(':', SerialText, c)))
  }

  /** What the tool writes for a Barcodes source loaded as `l` with tag delimiter `td`. */
  ghost function BarcodesRun(path: string, td: char, l: Loaded, used: seq<string>): Run
    requires l.data.Codes?
  {
    Wrote(RecoveryFile(path, l.comments + TagImage(td, NextSerialText, RecoveredSerials(l.data.codes, used))))
  }

  /**
   * What the tool does for one source of type `t` named `name` in environment `env`,
   * given its configuration, the lines of its `.dat` file and of its stored and used
   * audit files. Only Keyed, KeyedSequence and Barcodes sources are recovered; a load
   * that fails stops the tool.
   */
  ghost function RecoveryRun(env: string, name: string, t: SourceType, cfg: Config,
                             lines: seq<string>, stored: seq<string>, used: seq<string>): Run
  {
    if !(t == Keyed || t == KeyedSequence || t == Barcodes) then Skipped
    else
      match ToolLoad(t, cfg, lines)
      case None => Crashed
      case Some(l) =>
        var path := RecoveryPath(env, name);
        if t == Keyed then KeyedRun(path, l, stored, used)
        else if t == KeyedSequence then CountersRun(path, l, used)
        else BarcodesRun(path, TagDelimiterOf(cfg), l, used)
  }

  /** `recover_keyed(source)`: load, show, recover, show again, write the `.rec` file. */
  method RecoverKeyedSource(s: Source, env: string, cfg: Config, lines: seq<string>, stored: seq<string>, used: seq<string>)
    returns (run: Run)
    requires s.kind == Keyed && s.comments == []
    modifies s
    ensures run == RecoveryRun(env, s.name, Keyed, cfg, lines, stored, used)
  {
    var ok := s.Init(cfg, lines);
    if !ok {
      return Crashed;
    }
    ghost var l := ToolLoad(Keyed, cfg, lines).value;
    assert [] + l.comments == l.comments;
    assert RecoveryRun(env, s.name, Keyed, cfg, lines, stored, used) == KeyedRun(RecoveryPath(env, s.name), l, stored, used);
    ok := s.ListKeyed();
    if !ok {
      return Crashed;
    }
    ok := s.RecoverKeyed(stored, used);
    if !ok {
      return Crashed;
    }
    ok := s.ListKeyed();
    if !ok {
      return Crashed;
    }
    var f := s.FlushKeyed(env);
    run := Wrote(f);
  }

  /** `recover_keyed_sequence(source)`: load, recover, write the `.rec` file. */
  method RecoverKeyedSequenceSource(s: Source, env: string, cfg: Config, lines: seq<string>, used: seq<string>)
    returns (run: Run)
    requires s.kind == KeyedSequence && s.comments == []
    modifies s
    ensures run == RecoveryRun(env, s.name, KeyedSequence, cfg, lines, [], used)
  {
    var ok := s.Init(cfg, lines);
    if !ok {
      return Crashed;
    }
    ghost var l := ToolLoad(KeyedSequence, cfg, lines).value;
    assert [] + l.comments == l.comments;
    assert RecoveryRun(env, s.name, KeyedSequence, cfg, lines, [], used) == CountersRun(RecoveryPath(env, s.name), l, used);
    ok := s.RecoverKeyedSequence(used);
    if !ok {
      return Crashed;
    }
    var f := s.FlushKeyedSequence(env);
    run := Wrote(f);
  }

  /** `recover_barcodes(source)`: load, recover, show the recovered serials, write the `.rec` file. */
  method RecoverBarcodesSource(s: Source, env: string, cfg: Config, lines: seq<string>, used: seq<string>)
    returns (run: Run)
    requires s.kind == Barcodes && s.comments == []
    modifies s
    ensures run == RecoveryRun(env, s.name, Barcodes, cfg, lines, [], used)
  {
    var ok := s.Init(cfg, lines);
    if !ok {
      return Crashed;
    }
    ghost var l := ToolLoad(Barcodes, cfg, lines).value;
    assert [] + l.comments == l.comments;
    assert RecoveryRun(env, s.name, Barcodes, cfg, lines, [], used) == BarcodesRun(RecoveryPath(env, s.name), TagDelimiterOf(cfg), l, used);
    s.RecoverBarcodes(used);
    var shown := s.ListRecoveredBarcodes();
    var f := s.FlushBarcodes(env);
    run := Wrote(f);
  }

  /** `recover(source)`: the source's type picks what is done; other types are left alone. */
  method Recover(env: string, name: string, t: SourceType, cfg: Config,
                 lines: seq<string>, stored: seq<string>, used: seq<string>) returns (run: Run)
    ensures run == RecoveryRun(env, name, t, cfg, lines, stored, used)
  {
    if !(t == Keyed || t == KeyedSequence || t == Barcodes) {
      return Skipped;
    }
    var s := new Source(name, t);
    if t == Keyed {
      run := RecoverKeyedSource(s, env, cfg, lines, stored, used);
    } else if t == KeyedSequence {
      run := RecoverKeyedSequenceSource(s, env, cfg, lines, used);
    } else {
      run := RecoverBarcodesSource(s, env, cfg, lines, used);
    }
  }

  // ----------------------------------------------------------------------------------------
  // The recovered files read back

  /** Two tag maps whose values are written the same way have the same lines. */
  lemma {:induction false} TagLinesAgree<V, W>(td: char, enc: V -> string, m: map<string, V>,
                                               enc2: W -> string, m2: map<string, W>, ks: seq<string>)
    requires forall i :: 0 <= i < |ks| ==> ks[i] in m && ks[i] in m2 && enc(m[ks[i]]) == enc2(m2[ks[i]])
    ensures TagLines(td, enc, m, ks) == TagLines(td, enc2, m2, ks)
    decreases |ks|
  {
    if ks != [] {
      TagLinesAgree(td, enc, m, enc2, m2, ks[..|ks| - 1]);
    }
  }

  /** A keyed file of comments and groups with their cursors at the start loads back as exactly those. */
  lemma GroupsReadBack(cs: seq<string>, r: map<string, Group>)
    requires KeyedNotes(cs) && GroupsRewound(r)
    requires forall k :: k in r ==> GroupWritable(k, r[k])
    ensures LoadKeyed(cs + GroupsImage(r)) == Some(Loaded(Groups(r), None, cs))
  {
    KeyedFileRead(cs, r);
    forall k | k in r
      ensures RewoundAll(r)[k] == r[k]
    {
      assert r[k].data[0..] == r[k].data;
    }
    SameMaps(RewoundAll(r), r);
  }

  /** A counters file written with `:` loads back as its comments and counters. */
  lemma CountersReadBack(cs: seq<string>, c: map<string, int>)
    requires CommentLines(cs) && forall k :: k in c ==> KeyWritable(':', k)
    ensures TaggedLoad(Stripped, ':', IntValue, cs + TagImage(':', SerialText, c)) == Some((cs, c))
  {
    forall k | k in c ensures Writable(':', k, SerialText(c[k])) && IntValue(k, SerialText(c[k])) == Some(c[k]) {
      IntToStringShape(c[k]);
      IntToStringExcludes(c[k], ':');
      WritableOf(':', k, SerialText(c[k]));
      ParseIntOfIntToString(c[k]);
    }
    TaggedReadsBack(':', IntValue, SerialText, cs, c);
  }

  /** Every series advanced to one past its recovered serial writes a line that reads back as that series. */
  lemma AdvancedWritable(td: char, codes: map<string, BarcodeGroup>, rec: map<string, int>)
    requires !IsDigit(td) && td != '-' && !IsSpace(td)
    requires codes.Keys <= rec.Keys && SeriesAgree(codes)
    requires forall k :: k in codes ==> KeyWritable(td, k)
    ensures var m := Advanced(codes, rec);
      forall k :: k in m ==> Writable(td, k, SeriesText(m[k])) && SeriesValue(k, SeriesText(m[k])) == Some(m[k])
  {
    var m := Advanced(codes, rec);
    forall k | k in m ensures Writable(td, k, SeriesText(m[k])) && SeriesValue(k, SeriesText(m[k])) == Some(m[k]) {
      var b := m[k];
      IntToStringShape(b.serial);
      IntToStringExcludes(b.serial, td);
      WritableOf(td, k, SeriesText(b));
      ParseIntOfIntToString(b.serial);
      assert SeriesOfKey(k, codes[k]);
    }
  }

  /**
   * A barcodes file written with one past each recovered serial loads back as its
   * comments and the series advanced to those serials.
   */
  lemma SeriesReadBack(td: char, cs: seq<string>, codes: map<string, BarcodeGroup>, rec: map<string, int>)
    requires CommentLines(cs) && !IsDigit(td) && td != '-' && !IsSpace(td)
    requires rec.Keys == codes.Keys && SeriesAgree(codes)
    requires forall k :: k in codes ==> KeyWritable(td, k)
    ensures TaggedLoad(Stripped, td, SeriesValue, cs + TagImage(td, NextSerialText, rec)) == Some((cs, Advanced(codes, rec)))
  {
    AdvancedWritable(td, codes, rec);
    TaggedReadsBack(td, SeriesValue, SeriesText, cs, Advanced(codes, rec));
    AdvancedImage(td, codes, rec);
  }

  /** The recovered serials written one past each are the lines of the advanced series. */
  lemma AdvancedImage(td: char, codes: map<string, BarcodeGroup>, rec: map<string, int>)
    requires rec.Keys == codes.Keys
    ensures TagImage(td, NextSerialText, rec) == TagImage(td, SeriesText, Advanced(codes, rec))
  {
    var m := Advanced(codes, rec);
    assert m.Keys == rec.Keys;
    TagLinesAgree(td, NextSerialText, rec, SeriesText, m, SortedKeys(m.Keys));
  }

  /**
   * A recovered keyed file, loaded by a server, gives back the comments and the
   * recovered groups, when its comments, group names and records are ones that read back.
   */
  lemma KeyedRecoveryReadsBack(env: string, name: string, cfg: Config, lines: seq<string>, stored: seq<string>, used: seq<string>,
                               l: Loaded, r: map<string, Group>)
    requires ToolLoad(Keyed, cfg, lines) == Some(l) && KeyedNotes(l.comments)
    requires RecoverKeyedOf(l.data.groups, stored, used) == Some(r)
    requires AllHoldRecords(r) && forall k :: k in r ==> GroupWritable(k, r[k])
    ensures RecoveryRun(env, name, Keyed, cfg, lines, stored, used) == Wrote(RecoveryFile(RecoveryPath(env, name), l.comments + GroupsImage(r)))
    ensures Load(Http, Keyed, cfg, l.comments + GroupsImage(r)) == Some(Loaded(Groups(r), None, l.comments))
  {
    GroupsReadBack(l.comments, r);
  }

  /**
   * A recovered keyed-sequence file, loaded by the HTTP server, gives back the comments
   * and the recovered counters, when the comments read back and every key can head a
   * tag line.
   */
  lemma CountersRecoveryReadsBack(env: string, name: string, cfg: Config, lines: seq<string>, used: seq<string>,
                                  l: Loaded, c: map<string, int>)
    requires ToolLoad(KeyedSequence, cfg, lines) == Some(l) && CommentLines(l.comments)
    requires RecoverCountersOf(l.data.counters, used) == Some(c)
    requires forall k :: k in l.data.counters ==> KeyWritable(':', k)
    ensures RecoveryRun(env, name, KeyedSequence, cfg, lines, [], used) == Wrote(RecoveryFile(RecoveryPath(env, name), l.comments + TagImage(':', SerialText, c)))
    ensures Load(Http, KeyedSequence, cfg, l.comments + TagImage(':', SerialText, c)) == Some(Loaded(Serials(c), None, l.comments))
  {
    CountersReadBack(l.comments, c);
  }

  /** A barcodes recovery writes the comments and every series at one past its recovered serial. */
  lemma BarcodesRecoveryWrites(env: string, name: string, cfg: Config, lines: seq<string>, used: seq<string>,
                               l: Loaded, codes: map<string, BarcodeGroup>)
    requires ToolLoad(Barcodes, cfg, lines) == Some(l) && l.data == Codes(codes)
    ensures var file := l.comments + TagImage(TagDelimiterOf(cfg), NextSerialText, RecoveredSerials(codes, used));
      RecoveryRun(env, name, Barcodes, cfg, lines, [], used) == Wrote(RecoveryFile(RecoveryPath(env, name), file))
  {
  }

  /**
   * A recovered barcodes file, loaded by the HTTP server, gives back the comments and
   * every series with its serial number one past the recovered one, when the comments
   * read back, every key can head a tag line and the tag delimiter is neither a digit,
   * a minus sign nor white space.
   */
  lemma BarcodesRecoveryReadsBack(cfg: Config, used: seq<string>, comments: seq<string>, codes: map<string, BarcodeGroup>)
    requires CommentLines(comments) && SeriesAgree(codes)
    requires var td := TagDelimiterOf(cfg); !IsDigit(td) && td != '-' && !IsSpace(td)
    requires forall k :: k in codes ==> KeyWritable(TagDelimiterOf(cfg), k)
    ensures var file := comments + TagImage(TagDelimiterOf(cfg), NextSerialText, RecoveredSerials(codes, used));
      Load(Http, Barcodes, cfg, file) == Some(Loaded(Codes(Advanced(codes, RecoveredSerials(codes, used))), None, comments))
  {
    var rec := RecoveredSerials(codes, used);
    var file := comments + TagImage(TagDelimiterOf(cfg), NextSerialText, rec);
    SeriesReadBack(TagDelimiterOf(cfg), comments, codes, rec);
    LoadsBarcodes(cfg, file, comments, Advanced(codes, rec));
  }

  /** The HTTP server loads a barcodes file as its tag map. */
  lemma LoadsBarcodes(cfg: Config, lines: seq<string>, cs: seq<string>, codes: map<string, BarcodeGroup>)
    requires TaggedLoad(Stripped, TagDelimiterOf(cfg), SeriesValue, lines) == Some((cs, codes))
    ensures Load(Http, Barcodes, cfg, lines) == Some(Loaded(Codes(codes), None, cs))
  {
  }
}
