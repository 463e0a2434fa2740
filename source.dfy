/**
 * A data source as the servers hold it: an object made from a configuration line and
 * the lines of its `.dat` file, whose payload, cursor, comments and audit streams the
 * verbs update in place, and which writes itself back at shutdown.
 *
 * Each verb is a method that changes the fields the way the server's `process` does,
 * proved to leave the state the matching function of `Verbs` describes, and to keep
 * the source sound.
 */
module DataSource {
  import opened Wrappers
  import opened Text
  import opened Entities
  import opened Loading
  import opened Flushing
  import opened Verbs
  import opened Barcode

  /**
   * What `process` hands back to the transport: a string, an object that is not a
   * string, or nothing because it raised.
   */
  datatype Returned = Text(text: string) | Unsendable | Raised

  /** What `process` hands back for an outcome. */
  function ReplyOf(o: Outcome): (r: Returned)
    ensures r.Text? <==> o.Done?
    ensures o.Done? ==> r.text == o.reply
    ensures r.Unsendable? <==> o.Unsent?
    ensures r.Raised? <==> o.Fault?
  {
    match o
    case Done(reply, _) => Text(reply)
    case Unsent(_) => Unsendable
    case Fault => Raised
  }

  /** The state an outcome leaves: the new one, or the old one when the server raised before changing it. */
  function StateAfter(o: Outcome, st: Store): (r: Store)
    ensures !o.Fault? ==> r == o.after
    ensures o.Fault? ==> r == st
  {
    if o.Fault? then st else o.after
  }

  /** Runs the reader of a source's type over the lines of its file. */
  method Read(v: Variant, t: SourceType, cfg: Config, lines: seq<string>) returns (l: Option<Loaded>)
    ensures l == Load(v, t, cfg, lines)
  {
    match t {
      case CSV =>
        var comments, rows := ReadCsv(lines);
        l := Some(Loaded(Rows(rows), if rows == [] then None else Some(0), comments));
      case Indexed =>
        var comments, values := ReadValues(lines);
        if v == Socket && values == [] {
          l := None;
        } else {
          l := Some(Loaded(Rows(values), None, comments));
        }
      case Indexer =>
        var start := if v == Socket then 0 else if cfg.start.Some? then cfg.start.value else 1;
        l := Some(Loaded(Number(start, []), None, []));
      case Sequence =>
        var comments, last := ReadNumber(lines);
        if last.Some? {
          l := Some(Loaded(Number(last.value, []), None, comments));
        } else if v == Http {
          l := Some(Loaded(Unset, None, comments));
        } else {
          l := None;
        }
      case Counter =>
        var comments, last := ReadNumber(lines);
        if last.Some? {
          l := Some(Loaded(Number(last.value, []), None, comments));
        } else if v == Http {
          l := Some(Loaded(Number(1, []), None, comments));
        } else {
          l := None;
        }
      case Hashed =>
        var p := ReadTagged(Stripped, TagDelimiterOf(cfg), TextValue, lines);
        l := if p.None? then None else Some(Loaded(Table(p.value.1), None, p.value.0));
      case KeyedSequence =>
        if v == Http {
          var p := ReadTagged(Stripped, TagDelimiterOf(cfg), IntValue, lines);
          l := if p.None? then None else Some(Loaded(Serials(p.value.1), None, p.value.0));
        } else {
          var p := ReadTagged(Stripped, TagDelimiterOf(cfg), TextValue, lines);
          l := if p.None? then None else Some(Loaded(Table(p.value.1), None, p.value.0));
        }
      case Barcodes =>
        if v == Socket {
          l := None;
        } else {
          var p := ReadTagged(Stripped, TagDelimiterOf(cfg), SeriesValue, lines);
          if p.None? {
            l := None;
          } else {
            SeriesValuesAgree(map[], Kinds(Stripped, TagDelimiterOf(cfg), lines));
            l := Some(Loaded(Codes(p.value.1), None, p.value.0));
          }
        }
      case Keyed =>
        var st := ReadKeyed(lines);
        l := if st.None? then None else Some(Loaded(Groups(st.value.groups), None, st.value.comments));
    }
  }

  class Source {
    const variant: Variant
    const name: string
    const kind: SourceType
    const cfg: Config
    /** The attribute dictionary published at registration, fixed when the source is loaded. */
    const attributes: Attributes

    var data: Payload
    var idx: Option<nat>
    var comments: seq<string>
    /** The lines written to the `.used` audit file. */
    var used: seq<string>
    /** The lines written to the `.stored` audit file. */
    var stored: seq<string>

    function Model(): Store
      reads this
    {
      Store(data, idx, comments, used, stored)
    }

    ghost predicate Valid()
      reads this
    {
      Sound(variant, kind, Model())
    }

    constructor (v: Variant, name: string, t: SourceType, cfg: Config, l: Loaded)
      requires Sound(v, t, Fresh(l))
      ensures variant == v && this.name == name && kind == t && this.cfg == cfg
      ensures attributes == AttributesOf(v, t, DelimiterOf(cfg), l.data)
      ensures Model() == Fresh(l) && Valid()
    {
      variant, this.name, kind, this.cfg := v, name, t, cfg;
      attributes := AttributesOf(v, t, DelimiterOf(cfg), l.data);
      data, idx, comments := l.data, l.idx, l.comments;
      used, stored := [], [];
    }

    /**
     * Loads a source from the lines of its file, or gives nothing when the server would
     * stop at this source.
     */
    static method Open(v: Variant, name: string, t: SourceType, cfg: Config, lines: seq<string>) returns (s: Source?)
      ensures s == null <==> Load(v, t, cfg, lines).None?
      ensures s != null ==> fresh(s) && s.Valid() && s.Model() == Fresh(Load(v, t, cfg, lines).value)
      ensures s != null ==> s.variant == v && s.name == name && s.kind == t && s.cfg == cfg
    {
      var l := Read(v, t, cfg, lines);
      if l.None? {
        return null;
      }
      s := new Source(v, name, t, cfg, l.value);
    }

    /** GETN. */
    method Next(ts: string) returns (reply: Returned)
      requires Valid()
      modifies this
      ensures Valid()
      ensures var o := GetNext(variant, kind, ts, old(Model())); reply == ReplyOf(o) && Model() == StateAfter(o, old(Model()))
    {
      NextKeepsSound(variant, kind, ts, Model());
      if kind == Sequence && data.Unset? {
        return Raised;
      }
      var text;
      if kind == CSV {
        if idx.Some? && idx.value < |data.rows| {
          text := data.rows[idx.value];
          idx := Some(idx.value + 1);
        } else {
          text := "*Exhausted*";
        }
      } else if kind == Sequence || kind == Indexer {
        text := IntToString(data.value);
        data := data.(value := data.value + 1);
      } else if kind == Counter {
        text := IntToString(data.value);
      } else {
        text := UnknownType(variant);
      }
      used := used + [Audit(ts, text)];
      reply := Text(text);
    }

    /** GETKS. */
    method KeyedSequenceNext(ts: string, key: string) returns (reply: Returned)
      requires Valid()
      modifies this
      ensures Valid()
      ensures var o := GetKeyedSequence(variant, ts, old(Model()), key); reply == ReplyOf(o) && Model() == StateAfter(o, old(Model()))
    {
      KeyedSequenceKeepsSound(variant, kind, ts, Model(), key);
      if variant == Http {
        if !IsDict(data) {
          return Raised;
        }
        if !HasKey(data, key) {
          reply := Text("*NO*VALID*KEY*");
        } else if !data.Serials? {
          return Raised;
        } else {
          var n := data.counters[key];
          reply := Text(IntToString(n));
          data := Serials(data.counters[key := n + 1]);
        }
      } else {
        if IsDict(data) && HasKey(data, key) {
          return Raised;
        }
        reply := Text("*INVALID*GROUP*");
      }
      used := used + [KeyedAudit(ts, key, reply.text)];
    }

    /** GETK. */
    method KeyedNext(ts: string, grp: string) returns (reply: Returned)
      requires Valid()
      modifies this
      ensures Valid()
      ensures var o := GetKeyed(variant, ts, old(Model()), grp); reply == ReplyOf(o) && Model() == StateAfter(o, old(Model()))
    {
      KeyedKeepsSound(variant, kind, ts, Model(), grp);
      if IsDict(data) && HasKey(data, grp) {
        if !data.Groups? {
          return Raised;
        }
        var g := data.groups[grp];
        if g.idx < |g.data| {
          var j := PyIndex(|g.data|, g.idx);
          if j.None? {
            return Raised;
          }
          reply := Text(g.data[j.value]);
          data := Groups(data.groups[grp := g.(idx := g.idx + 1)]);
        } else {
          reply := Text(GroupExhausted(variant));
        }
      } else {
        reply := Text(BadGroup(variant));
      }
      used := used + [KeyedAudit(ts, grp, reply.text)];
    }

    /** GETKR, with the random choice given as `pick`. */
    method RandomPick(ts: string, grp: string, pick: nat) returns (reply: Returned)
      requires Valid()
      modifies this
      ensures Valid()
      ensures var o := GetRandom(ts, old(Model()), grp, pick); reply == ReplyOf(o) && Model() == StateAfter(o, old(Model()))
    {
      if IsDict(data) && HasKey(data, grp) {
        if !data.Groups? {
          return Raised;
        }
        var g := data.groups[grp];
        if |g.data| > 0 {
          reply := Text(g.data[pick % |g.data|]);
        } else {
          reply := Text("*Exhausted*");
        }
      } else {
        reply := Text("*BAD*GROUP*");
      }
      used := used + [KeyedAudit(ts, grp, reply.text)];
    }

    /** GETH. */
    method Hash(ts: string, key: string) returns (reply: Returned)
      requires Valid()
      modifies this
      ensures Valid()
      ensures var o := GetHashed(ts, old(Model()), key); reply == ReplyOf(o) && Model() == StateAfter(o, old(Model()))
    {
      if IsDict(data) && HasKey(data, key) {
        used := used + [KeyedAudit(ts, key, Shown(data, key))];
        if data.Table? {
          reply := Text(data.entries[key]);
        } else {
          reply := Unsendable;
        }
      } else {
        reply := Text("*UNDEFINED*HASH*");
        used := used + [KeyedAudit(ts, key, reply.text)];
      }
    }

    /** GETI. */
    method Index(ts: string, i: Option<int>) returns (reply: Returned)
      requires Valid()
      modifies this
      ensures Valid()
      ensures var o := GetIndexed(variant, ts, old(Model()), i); reply == ReplyOf(o) && Model() == StateAfter(o, old(Model()))
    {
      if variant == Http {
        if i.None? || i.value < 0 {
          reply := Text("*INVALID*INDEX*");
        } else if data.Rows? && i.value < |data.rows| {
          reply := Text(data.rows[i.value]);
        } else {
          reply := Text("*OUT*OF*RANGE*");
        }
      } else if i.None? || i.value < 0 || i.value >= SizeOf(data) {
        reply := Text("*INVALID*INDEX*");
      } else if data.Rows? {
        reply := Text(data.rows[i.value]);
      } else if data.Number? {
        if i.value == 0 {
          used := used + [KeyedAudit(ts, IndexText(i), IntToString(data.value))];
          return Unsendable;
        }
        reply := Text(data.extra[i.value - 1]);
      } else {
        reply := Text("*INDEX*OUT*OF*RANGE*");
      }
      used := used + [KeyedAudit(ts, IndexText(i), reply.text)];
    }

    /** GETB. */
    method Barcode(ts: string, key: string) returns (reply: Returned)
      requires Valid() && variant == Http
      modifies this
      ensures Valid()
      ensures var o := GetBarcode(ts, old(Model()), key); reply == ReplyOf(o) && Model() == StateAfter(o, old(Model()))
    {
      BarcodeKeepsSound(kind, ts, Model(), key);
      if !IsDict(data) {
        return Raised;
      }
      if !HasKey(data, key) {
        reply := Text("*NO*VALID*KEY*");
        used := used + [KeyedAudit(ts, key, reply.text)];
      } else if !data.Codes? {
        return Raised;
      } else {
        reply := Issue(ts, key);
      }
    }

    /** The identifier of a series the source holds, and the step of its serial number. */
    method Issue(ts: string, key: string) returns (reply: Returned)
      requires data.Codes? && key in data.codes
      modifies this
      ensures var o := GetBarcode(ts, old(Model()), key); reply == ReplyOf(o) && Model() == StateAfter(o, old(Model()))
    {
      var b := data.codes[key];
      var id := Identify(b);
      if id.None? {
        return Raised;
      }
      reply := Text(id.value);
      data := Codes(data.codes[key := b.(serial := b.serial + 1)]);
      used := used + [KeyedAudit(ts, key, id.value)];
    }

    /** STOC. */
    method StoreRecord(ts: string, record: string) returns (reply: Returned)
      requires Valid()
      modifies this
      ensures Valid()
      ensures var o := StoreCsv(variant, ts, old(Model()), record); reply == ReplyOf(o) && Model() == StateAfter(o, old(Model()))
    {
      StoreCsvKeepsSound(variant, kind, ts, Model(), record);
      if data.Rows? {
        data := Rows(data.rows + [record]);
      } else if data.Number? && variant == Socket {
        data := data.(extra := data.extra + [record]);
      } else {
        return Raised;
      }
      if idx.None? {
        idx := Some(0);
      }
      stored := stored + [Audit(ts, record)];
      reply := Text("1");
    }

    /** STOK. */
    method StoreGrouped(ts: string, grp: string, record: string) returns (reply: Returned)
      requires Valid()
      modifies this
      ensures Valid()
      ensures var o := StoreKeyed(ts, old(Model()), grp, record); reply == ReplyOf(o) && Model() == StateAfter(o, old(Model()))
    {
      StoreKeyedKeepsSound(variant, kind, ts, Model(), grp, record);
      if !data.Groups? {
        return Raised;
      }
      var g := if grp in data.groups then data.groups[grp] else NewGroup();
      data := Groups(data.groups[grp := g.(data := g.data + [record])]);
      stored := stored + [KeyedAudit(ts, grp, record)];
      reply := Text("1");
    }

    /** `flush`: what the source writes to its file at shutdown. The source itself does not change. */
    method Flush() returns (p: FlushPlan)
      requires Valid()
      ensures p == FlushOf(variant, kind, cfg, Model())
    {
      var td := TagDelimiterOf(cfg);
      match kind {
        case CSV =>
          var lines := WriteRows(comments, data.rows, idx);
          p := Rewrite(lines, true);
        case Sequence =>
          if data.Unset? {
            p := Truncated(comments);
          } else {
            p := Rewrite(comments + [SerialText(data.value)], true);
          }
        case Counter =>
          p := Rewrite(comments + [SerialText(data.value + 1)], variant == Http);
        case KeyedSequence =>
          var lines;
          if variant == Http {
            lines := WriteTags(td, SerialText, comments, data.counters);
          } else {
            lines := WriteTags(td, PlainText, comments, data.entries);
          }
          p := Rewrite(lines, true);
        case Keyed =>
          var lines := WriteGroups(comments, data.groups);
          p := Rewrite(lines, true);
        case Barcodes =>
          var lines := WriteTags(td, SeriesText, comments, data.codes);
          p := Rewrite(lines, true);
        case Hashed =>
          p := Untouched;
        case Indexed =>
          p := Untouched;
        case Indexer =>
          p := Untouched;
      }
    }
  }
}
