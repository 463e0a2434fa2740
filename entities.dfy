/**
 * The entities of the data server: the kinds of data source, the records of a keyed
 * group, the barcode series, the payload a source holds once loaded, and the
 * per-source state the dispatcher reads and changes.
 *
 * Two servers hold the same engine: the HTTP server (`Http`) and the socket server
 * (`Socket`). Where they differ the functions take a `Variant`.
 */
module Entities {
  import opened Wrappers
  import opened Text

  datatype Variant = Http | Socket

  datatype SourceType =
    | CSV | Sequence | KeyedSequence | Hashed | Indexed | Keyed | Indexer | Counter | Barcodes

  /** The name a configuration line uses for a source type. */
  function TypeName(t: SourceType): string {
    match t
    case CSV => "CSV"
    case Sequence => "Sequence"
    case KeyedSequence => "KeyedSequence"
    case Hashed => "Hashed"
    case Indexed => "Indexed"
    case Keyed => "Keyed"
    case Indexer => "Indexer"
    case Counter => "Counter"
    case Barcodes => "Barcodes"
  }

  /**
   * The type a configured name selects. The socket server knows no `Barcodes` type;
   * a name neither server knows selects nothing, which stops the server at load.
   */
  function TypeNamed(v: Variant, name: string): (r: Option<SourceType>)
    ensures r.Some? ==> TypeName(r.value) == name
    ensures r.Some? && v == Socket ==> r.value != Barcodes
  {
    if name == "CSV" then Some(CSV)
    else if name == "Sequence" then Some(Sequence)
    else if name == "KeyedSequence" then Some(KeyedSequence)
    else if name == "Hashed" then Some(Hashed)
    else if name == "Indexed" then Some(Indexed)
    else if name == "Keyed" then Some(Keyed)
    else if name == "Indexer" then Some(Indexer)
    else if name == "Counter" then Some(Counter)
    else if name == "Barcodes" && v == Http then Some(Barcodes)
    else None
  }

  /** Every type is selected by its own name, except `Barcodes` on the socket server. */
  lemma TypeNamedOfTypeName(v: Variant, t: SourceType)
    ensures TypeNamed(v, TypeName(t)) == if v == Socket && t == Barcodes then None else Some(t)
  {
  }

  // ----------------------------------------------------------------------------------------
  // Groups

  /** The records of one `[name]` section of a keyed source, its cursor and its comments. */
  datatype Group = Group(data: seq<string>, idx: int, comments: seq<string>)

  /** A group as its constructor makes it: no records, cursor at the start, no comments. */
  function NewGroup(): (g: Group)
    ensures g.data == [] && g.comments == [] && g.idx == 0
  {
    Group([], 0, [])
  }

  /** The cursor of a group points at a record or just past the last one. */
  predicate CursorInRange(g: Group) {
    0 <= g.idx <= |g.data|
  }

  /** The records a group has not handed out yet. */
  function Remaining(g: Group): (r: seq<string>)
    requires CursorInRange(g)
    ensures |r| == |g.data| - g.idx
    ensures forall i :: 0 <= i < |r| ==> r[i] == g.data[g.idx + i]
  {
    g.data[g.idx..]
  }

  // ----------------------------------------------------------------------------------------
  // Barcode series

  /**
   * A barcode series `PREFIX-RANGE-COUNTRY` with the next serial number to issue.
   */
  datatype BarcodeGroup = BarcodeGroup(prefix: string, range: int, country: string, serial: int)

  /**
   * The prefix, range and country named by a series key: the key must split on `-`
   * into exactly three parts and the middle one must read as an integer.
   */
  function SeriesOfName(name: string): (r: Option<(string, int, string)>)
    ensures r.Some? ==> '-' !in r.value.0 && '-' !in r.value.2
    ensures r.Some? ==> |Split(name, '-')| == 3 && ParseInt(Split(name, '-')[1]) == Some(r.value.1)
  {
    var parts := Split(name, '-');
    if |parts| != 3 then None
    else
      match ParseInt(parts[1])
      case None => None
      case Some(range) => Some((parts[0], range, parts[2]))
  }

  /** A key written from its parts names those parts again. */
  lemma SeriesOfNameOfParts(prefix: string, range: nat, country: string)
    requires '-' !in prefix && '-' !in country
    ensures SeriesOfName(prefix + "-" + NatToString(range) + "-" + country) == Some((prefix, range, country))
  {
    var r := NatToString(range);
    DigitsExclude(r, '-');
    var tail := r + ['-'] + country;
    var name := prefix + "-" + r + "-" + country;
    assert name == prefix + ['-'] + tail;
    SplitFront(prefix, tail, '-');
    SplitPair(r, country, '-');
    assert Split(name, '-') == [prefix, r, country];
    assert IntToString(range) == r;
    ParseIntOfIntToString(range);
  }

  /** A series as built from its key, before its serial number is read. */
  function NewBarcodeGroup(name: string, serial: int): (r: Option<BarcodeGroup>)
    ensures r.Some? <==> SeriesOfName(name).Some?
    ensures r.Some? ==> r.value.serial == serial && SeriesOfName(name) == Some((r.value.prefix, r.value.range, r.value.country))
  {
    match SeriesOfName(name)
    case None => None
    case Some(parts) => Some(BarcodeGroup(parts.0, parts.1, parts.2, serial))
  }

  /** A series agrees with the key it is stored under. */
  predicate SeriesOfKey(key: string, b: BarcodeGroup) {
    SeriesOfName(key) == Some((b.prefix, b.range, b.country))
  }

  // ----------------------------------------------------------------------------------------
  // Payloads

  /**
   * What a loaded source holds.
   * - `Rows`: the records of a CSV or Indexed source.
   * - `Number`: the integer of a Sequence, Indexer or Counter source; `extra` holds what
   *   STOC appended on the socket server, where the integer sits in a list.
   * - `Table`: tag to text (Hashed; KeyedSequence on the socket server).
   * - `Serials`: tag to integer (KeyedSequence on the HTTP server).
   * - `Groups`: name to group (Keyed).
   * - `Codes`: key to barcode series (Barcodes).
   * - `Unset`: the `None` a Sequence source keeps on the HTTP server when its file has
   *   no value line. Only the constructor leaves it: the server's start-up then prints
   *   the source with `%d`, which raises on `None` and stops the server.
   */
  datatype Payload =
    | Rows(rows: seq<string>)
    | Number(value: int, extra: seq<string>)
    | Table(entries: map<string, string>)
    | Serials(counters: map<string, int>)
    | Groups(groups: map<string, Group>)
    | Codes(codes: map<string, BarcodeGroup>)
    | Unset

  /** The payload shape each type loads into. */
  predicate Fits(v: Variant, t: SourceType, d: Payload) {
    match t
    case CSV => d.Rows?
    case Indexed => d.Rows?
    case Sequence => if v == Http then (d.Number? && d.extra == []) || d.Unset? else d.Number?
    case Indexer => d.Number? && (v == Http ==> d.extra == [])
    case Counter => d.Number? && (v == Http ==> d.extra == [])
    case KeyedSequence => if v == Http then d.Serials? else d.Table?
    case Hashed => d.Table?
    case Keyed => d.Groups?
    case Barcodes => v == Http && d.Codes? && forall k :: k in d.codes ==> SeriesOfKey(k, d.codes[k])
  }

  /**
   * `len(Data)`: the number of records, keys, or list elements on the socket server.
   * `Unset` never occurs there: `len(None)` raises while the source is made.
   */
  function SizeOf(d: Payload): nat {
    match d
    case Rows(rows) => |rows|
    case Number(_, extra) => 1 + |extra|
    case Table(m) => |m.Keys|
    case Serials(m) => |m.Keys|
    case Groups(m) => |m.Keys|
    case Codes(m) => |m.Keys|
    case Unset => 0
  }

  // ----------------------------------------------------------------------------------------
  // Attributes

  /**
   * The `Size` attribute: the HTTP server stores the loader's success flag, the socket
   * server the length of the loaded data.
   */
  datatype Size = LoadedFlag | Count(n: nat)

  /** The attribute dictionary a source publishes to registering Python clients. */
  datatype Attributes = Attributes(kind: SourceType, delimiter: char, size: Size)

  /** The attributes a configuration line may set for a source. */
  datatype Config = Config(delimiter: Option<char>, tagDelimiter: Option<char>, start: Option<int>)

  /** The record delimiter: the configured one, else `,`. */
  function DelimiterOf(c: Config): (r: char)
    ensures c.delimiter.Some? ==> r == c.delimiter.value
    ensures c.delimiter.None? ==> r == ','
  {
    match c.delimiter
    case Some(d) => d
    case None => ','
  }

  /** The tag delimiter of keyed, hashed and barcode sources: the configured one, else `:`. */
  function TagDelimiterOf(c: Config): (r: char)
    ensures c.tagDelimiter.Some? ==> r == c.tagDelimiter.value
    ensures c.tagDelimiter.None? ==> r == ':'
  {
    match c.tagDelimiter
    case Some(d) => d
    case None => ':'
  }

  function AttributesOf(v: Variant, t: SourceType, delimiter: char, d: Payload): (a: Attributes)
    ensures a.kind == t && a.delimiter == delimiter
    ensures v == Http <==> a.size == LoadedFlag
    ensures v == Socket ==> a.size == Count(SizeOf(d))
  {
    Attributes(t, delimiter, if v == Http then LoadedFlag else Count(SizeOf(d)))
  }

  // ----------------------------------------------------------------------------------------
  // Per-source state

  /**
   * What the dispatcher reads and changes in a source: its payload, the record cursor of
   * a CSV source, its comments, and the lines of its `.used` and `.stored` audit files.
   */
  datatype Store = Store(data: Payload, idx: Option<nat>, comments: seq<string>, used: seq<string>, stored: seq<string>)

  /**
   * The invariant a source keeps: the payload has its type's shape, every cursor is in
   * range, and a CSV source with records has a cursor.
   */
  predicate Sound(v: Variant, t: SourceType, s: Store) {
    && Fits(v, t, s.data)
    && (s.data.Rows? && s.idx.Some? ==> s.idx.value <= |s.data.rows|)
    && (t == CSV && s.data.Rows? && s.data.rows != [] ==> s.idx.Some?)
    && (s.data.Groups? ==> forall k :: k in s.data.groups ==> CursorInRange(s.data.groups[k]))
  }
}
