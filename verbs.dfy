/**
 * What each verb of the dispatcher does to one source, as a function of the source's
 * state: the reply it sends and the state it leaves, or a fault where the server raises
 * an exception. A fault leaves the source as it was: every exception the verbs raise is
 * raised before they change anything, save two, which log their reply and then fail to
 * send it (`Unsent`): the socket server's GETI at index 0 of a number list, whose reply
 * is an integer, and GETH of a held value that is not a string.
 *
 * Read verbs (GETN, GETKS, GETK, GETKR, GETH, GETI, GETB) add one line to the source's
 * `.used` audit file; store verbs (STOC, STOK) add one line to its `.stored` file. The
 * timestamp `ts` stands for the server's `%Y%m%d%H%M%S` clock reading.
 */
module Verbs {
  import opened Wrappers
  import opened Text
  import opened Entities
  import opened Barcode

  datatype Outcome =
    | Done(reply: string, after: Store)
    /** The verb changed the source, and sending its reply then raised. */
    | Unsent(after: Store)
    | Fault

  /** The audit line of a verb that names no key: `ts - text`. */
  function Audit(ts: string, text: string): string {
    ts + " - " + text
  }

  /** The audit line of a verb that names a key: `ts - key::text`. */
  function KeyedAudit(ts: string, key: string, text: string): string {
    ts + " - " + key + "::" + text
  }

  function Logged(st: Store, line: string): (r: Store)
    ensures r.used == st.used + [line]
    ensures r.data == st.data && r.idx == st.idx && r.comments == st.comments && r.stored == st.stored
  {
    st.(used := st.used + [line])
  }

  function Kept(st: Store, line: string): (r: Store)
    ensures r.stored == st.stored + [line]
    ensures r.data == st.data && r.used == st.used && r.comments == st.comments
  {
    st.(stored := st.stored + [line])
  }

  function Min(a: int, b: int): int {
    if a < b then a else b
  }

  /** The payloads that are Python dictionaries. */
  predicate IsDict(d: Payload) {
    d.Table? || d.Serials? || d.Groups? || d.Codes?
  }

  /** `d.has_key(key)` on a dictionary payload. */
  predicate HasKey(d: Payload, key: string)
    requires IsDict(d)
  {
    match d
    case Table(m) => key in m
    case Serials(m) => key in m
    case Groups(m) => key in m
    case Codes(m) => key in m
  }

  // ----------------------------------------------------------------------------------------
  // Reply tokens that differ between the servers

  function UnknownType(v: Variant): string {
    if v == Http then "UNKNOWN" else "*UNKNOWN*SOURCE*TYPE*"
  }

  function BadGroup(v: Variant): string {
    if v == Http then "*BAD*GROUP*" else "*INVALID*GROUP*"
  }

  function GroupExhausted(v: Variant): string {
    if v == Http then "*Exhausted*" else "*GROUP*EXHAUSTED*"
  }

  /** How the audit line of GETI prints the requested index: `None` when it was not an integer. */
  function IndexText(idx: Option<int>): string {
    match idx
    case None => "None"
    case Some(i) => IntToString(i)
  }

  // ----------------------------------------------------------------------------------------
  // Read verbs

  /**
   * The payload shape GETN relies on: records for a CSV source, a number for a numbered
   * one, or for a Sequence source the `None` of a file without a value line.
   */
  predicate NextReady(t: SourceType, d: Payload) {
    && (t == CSV ==> d.Rows?)
    && (t == Indexer || t == Counter ==> d.Number?)
    && (t == Sequence ==> d.Number? || d.Unset?)
  }


  /**
   * GETN: the next record of a CSV source (or `*Exhausted*`), the number of a Sequence or
   * Indexer source, which then counts up, or the number of a Counter source, which does
   * not; any other type gets the unknown-type token. An unset Sequence source raises,
   * since `"%d" % None` does.
   */
  function GetNext(v: Variant, t: SourceType, ts: string, st: Store): (o: Outcome)
    requires NextReady(t, st.data)
    ensures o.Fault? <==> t == Sequence && st.data.Unset?
    ensures !o.Unsent?
    ensures o.Done? ==> o.after.used == st.used + [Audit(ts, o.reply)] && o.after.stored == st.stored && o.after.comments == st.comments
    ensures o.Done? ==> NextReady(t, o.after.data) && o.after.data.Unset? == st.data.Unset?
  {
    if t == Sequence && st.data.Unset? then Fault
    else
      var (reply, s) :=
        if t == CSV then
          if st.idx.Some? && st.idx.value < |st.data.rows| then (st.data.rows[st.idx.value], st.(idx := Some(st.idx.value + 1)))
          else ("*Exhausted*", st)
        else if t == Sequence || t == Indexer then (IntToString(st.data.value), st.(data := st.data.(value := st.data.value + 1)))
        else if t == Counter then (IntToString(st.data.value), st)
        else (UnknownType(v), st);
      Done(reply, Logged(s, Audit(ts, reply)))
  }

  /**
   * GETKS: on the HTTP server the counter of a key, which then counts up; a missing key
   * gets `*NO*VALID*KEY*`, and a source that is not a dictionary or whose value is not an
   * integer raises. The socket server raises for any key it holds and otherwise replies
   * `*INVALID*GROUP*`.
   */
  function GetKeyedSequence(v: Variant, ts: string, st: Store, key: string): (o: Outcome)
    ensures o.Done? ==> o.after.used == st.used + [KeyedAudit(ts, key, o.reply)] && o.after.stored == st.stored && o.after.comments == st.comments
    ensures o.Done? ==> o.after.idx == st.idx && (st.data.Serials? <==> o.after.data.Serials?) && (!st.data.Serials? ==> o.after.data == st.data)
    ensures o.Done? && st.data.Serials? ==> o.after.data.counters.Keys == st.data.counters.Keys
    ensures v == Http ==> (o.Fault? <==> !IsDict(st.data) || (HasKey(st.data, key) && !st.data.Serials?))
    ensures v == Socket ==> (o.Fault? <==> IsDict(st.data) && HasKey(st.data, key))
    ensures !o.Unsent?
    ensures v == Http && st.data.Serials? && key in st.data.counters ==>
      var n := st.data.counters[key];
      o.Done? && o.reply == IntToString(n) && o.after.data == Serials(st.data.counters[key := n + 1])
    ensures v == Http && IsDict(st.data) && !HasKey(st.data, key) ==> o.Done? && o.reply == "*NO*VALID*KEY*" && o.after.data == st.data
    ensures v == Socket && o.Done? ==> o.reply == "*INVALID*GROUP*"
  {
    if v == Http then
      if !IsDict(st.data) then Fault
      else if !HasKey(st.data, key) then Done("*NO*VALID*KEY*", Logged(st, KeyedAudit(ts, key, "*NO*VALID*KEY*")))
      else if !st.data.Serials? then Fault
      else
        var n := st.data.counters[key];
        var s := st.(data := Serials(st.data.counters[key := n + 1]));
        Done(IntToString(n), Logged(s, KeyedAudit(ts, key, IntToString(n))))
    else if IsDict(st.data) && HasKey(st.data, key) then Fault
    else Done("*INVALID*GROUP*", Logged(st, KeyedAudit(ts, key, "*INVALID*GROUP*")))
  }

  /**
   * Python's `records[i]` on a list of `n` records: a negative index counts from the end,
   * and an index outside `-n <= i < n` raises.
   */
  function PyIndex(n: nat, i: int): (r: Option<nat>)
    ensures r.Some? <==> 0 <= n + i && i < n
    ensures r.Some? ==> r.value < n && (i >= 0 ==> r.value == i) && (i < 0 ==> r.value == n + i)
  {
    if 0 <= i < n then Some(i) else if 0 <= n + i && i < 0 then Some(n + i) else None
  }

  /** A group whose cursor lies so far below zero that reading under it raises. */
  predicate Unreadable(g: Group) {
    g.idx < -|g.data|
  }

  /**
   * GETK: the record under the cursor of a group, which then moves on, or the exhausted
   * token once the cursor reaches the end; a name that is not a group of a dictionary
   * source gets the bad-group token, and a key whose value is not a group raises. The
   * cursor is compared with the length before it is used as a Python index, so a negative
   * cursor reads from the end of the records, and raises when the records are too few.
   */
  function GetKeyed(v: Variant, ts: string, st: Store, grp: string): (o: Outcome)
    ensures o.Done? ==> o.after.used == st.used + [KeyedAudit(ts, grp, o.reply)] && o.after.stored == st.stored && o.after.comments == st.comments
    ensures o.Done? ==> o.after.idx == st.idx && (!st.data.Groups? ==> o.after.data == st.data)
    ensures o.Fault? <==> IsDict(st.data) && HasKey(st.data, grp) && (!st.data.Groups? || Unreadable(st.data.groups[grp]))
    ensures o.Done? && st.data.Groups? ==> o.after.data.Groups? && o.after.data.groups.Keys == st.data.groups.Keys
    ensures o.Done? && st.data.Groups? && grp !in st.data.groups ==> o.after.data == st.data
    ensures o.Done? && st.data.Groups? && grp in st.data.groups ==>
      var g := st.data.groups[grp];
      && o.after.data.groups == st.data.groups[grp := o.after.data.groups[grp]]
      && o.after.data.groups[grp] == g.(idx := if g.idx < |g.data| then g.idx + 1 else g.idx)
    ensures o.Done? && st.data.Groups? && grp in st.data.groups && CursorInRange(st.data.groups[grp]) ==>
      var g := st.data.groups[grp];
      && o.reply == (if g.idx < |g.data| then g.data[g.idx] else GroupExhausted(v))
      && o.after.data == Groups(st.data.groups[grp := g.(idx := Min(g.idx + 1, |g.data|))])
    ensures !o.Unsent?
    ensures !(IsDict(st.data) && HasKey(st.data, grp)) ==> o.Done? && o.reply == BadGroup(v) && o.after == Logged(st, KeyedAudit(ts, grp, o.reply))
  {
    if IsDict(st.data) && HasKey(st.data, grp) then
      if st.data.Groups? then
        var g := st.data.groups[grp];
        if g.idx < |g.data| then
          match PyIndex(|g.data|, g.idx)
          case None => Fault
          case Some(j) =>
            var s := st.(data := Groups(st.data.groups[grp := g.(idx := g.idx + 1)]));
            Done(g.data[j], Logged(s, KeyedAudit(ts, grp, g.data[j])))
        else Done(GroupExhausted(v), Logged(st, KeyedAudit(ts, grp, GroupExhausted(v))))
      else Fault
    else Done(BadGroup(v), Logged(st, KeyedAudit(ts, grp, BadGroup(v))))
  }

  /**
   * GETKR (HTTP server only): a record of a group picked at random, without moving the
   * cursor. The random choice is the parameter `pick`, taken modulo the group's size.
   */
  function GetRandom(ts: string, st: Store, grp: string, pick: nat): (o: Outcome)
    ensures o.Done? ==> Logged(st, KeyedAudit(ts, grp, o.reply)) == o.after
    ensures o.Fault? <==> IsDict(st.data) && HasKey(st.data, grp) && !st.data.Groups?
    ensures st.data.Groups? && grp in st.data.groups && |st.data.groups[grp].data| > 0 ==> o.Done? && o.reply in st.data.groups[grp].data
    ensures !o.Unsent?
  {
    if IsDict(st.data) && HasKey(st.data, grp) then
      if st.data.Groups? then
        var g := st.data.groups[grp];
        var reply := if |g.data| > 0 then g.data[pick % |g.data|] else "*Exhausted*";
        Done(reply, Logged(st, KeyedAudit(ts, grp, reply)))
      else Fault
    else Done("*BAD*GROUP*", Logged(st, KeyedAudit(ts, grp, "*BAD*GROUP*")))
  }

  /**
   * The text `"%s"` makes of the value a dictionary holds under a key: a table's string
   * itself, a counter's numeral, and the `__str__` of a `Group` or a `BarcodeGroup`,
   * whose name is the key it is stored under.
   */
  function Shown(d: Payload, key: string): string
    requires IsDict(d) && HasKey(d, key)
  {
    match d
    case Table(m) => m[key]
    case Serials(m) => IntToString(m[key])
    case Groups(m) => "Grp " + key + "  Len " + NatToString(|m[key].data|)
    case Codes(m) => "Grp " + key + "  Serial " + IntToString(m[key].serial)
  }

  /**
   * GETH: the text stored under a key of a table; a key the source does not hold, or a
   * source that is not a dictionary, gets `*UNDEFINED*HASH*`. A held value that is not
   * a string (a counter, a group or a series) is logged as its text and returned as the
   * object itself, which neither server can send (`len` of it on the HTTP server,
   * `send` of it on the socket server).
   */
  function GetHashed(ts: string, st: Store, key: string): (o: Outcome)
    ensures !o.Fault?
    ensures o.Done? ==> Logged(st, KeyedAudit(ts, key, o.reply)) == o.after
    ensures o.Unsent? <==> IsDict(st.data) && HasKey(st.data, key) && !st.data.Table?
    ensures st.data.Table? ==> o.Done? && o.reply == if key in st.data.entries then st.data.entries[key] else "*UNDEFINED*HASH*"
    ensures st.data.Serials? && key in st.data.counters ==>
      o == Unsent(Logged(st, KeyedAudit(ts, key, IntToString(st.data.counters[key]))))
    ensures st.data.Groups? && key in st.data.groups ==>
      o == Unsent(Logged(st, KeyedAudit(ts, key, "Grp " + key + "  Len " + NatToString(|st.data.groups[key].data|))))
    ensures st.data.Codes? && key in st.data.codes ==>
      o == Unsent(Logged(st, KeyedAudit(ts, key, "Grp " + key + "  Serial " + IntToString(st.data.codes[key].serial))))
  {
    if IsDict(st.data) && HasKey(st.data, key) then
      var text := Shown(st.data, key);
      var after := Logged(st, KeyedAudit(ts, key, text));
      if st.data.Table? then Done(text, after) else Unsent(after)
    else Done("*UNDEFINED*HASH*", Logged(st, KeyedAudit(ts, key, "*UNDEFINED*HASH*")))
  }

  /**
   * GETI: the record at an index. The HTTP server refuses a missing or negative index and
   * answers `*OUT*OF*RANGE*` past the end or for a source that is not a list of records.
   * The socket server refuses any index outside `0 <= idx < len(Data)` and answers
   * `*INDEX*OUT*OF*RANGE*` for a dictionary; index 0 of a number list is the integer
   * itself, which it logs and then cannot send.
   */
  function GetIndexed(v: Variant, ts: string, st: Store, idx: Option<int>): (o: Outcome)
    ensures !o.Fault?
    ensures o.Done? ==> Logged(st, KeyedAudit(ts, IndexText(idx), o.reply)) == o.after
    ensures o.Unsent? ==> v == Socket && st.data.Number? && idx == Some(0)
    ensures v == Socket && st.data.Number? && idx == Some(0) ==> o.Unsent?
    ensures o.Unsent? ==> o.after == Logged(st, KeyedAudit(ts, IndexText(idx), IntToString(st.data.value)))
    ensures v == Http && (idx.None? || idx.value < 0) ==> o.Done? && o.reply == "*INVALID*INDEX*"
    ensures v == Http && idx.Some? && idx.value >= 0 ==>
      o.Done? && o.reply == if st.data.Rows? && idx.value < |st.data.rows| then st.data.rows[idx.value] else "*OUT*OF*RANGE*"
    ensures v == Socket && (idx.None? || idx.value < 0 || idx.value >= SizeOf(st.data)) ==> o.Done? && o.reply == "*INVALID*INDEX*"
    ensures v == Socket && st.data.Rows? && idx.Some? && 0 <= idx.value < |st.data.rows| ==> o.Done? && o.reply == st.data.rows[idx.value]
    ensures v == Socket && st.data.Number? && idx.Some? && 1 <= idx.value <= |st.data.extra| ==> o.Done? && o.reply == st.data.extra[idx.value - 1]
    ensures v == Socket && IsDict(st.data) && idx.Some? && 0 <= idx.value < SizeOf(st.data) ==> o.Done? && o.reply == "*INDEX*OUT*OF*RANGE*"
  {
    var line := IndexText(idx);
    if v == Http then
      if idx.None? || idx.value < 0 then Done("*INVALID*INDEX*", Logged(st, KeyedAudit(ts, line, "*INVALID*INDEX*")))
      else if st.data.Rows? && idx.value < |st.data.rows| then Done(st.data.rows[idx.value], Logged(st, KeyedAudit(ts, line, st.data.rows[idx.value])))
      else Done("*OUT*OF*RANGE*", Logged(st, KeyedAudit(ts, line, "*OUT*OF*RANGE*")))
    else if idx.None? || idx.value < 0 || idx.value >= SizeOf(st.data) then Done("*INVALID*INDEX*", Logged(st, KeyedAudit(ts, line, "*INVALID*INDEX*")))
    else
      match st.data
      case Rows(rows) => Done(rows[idx.value], Logged(st, KeyedAudit(ts, line, rows[idx.value])))
      case Number(n, extra) =>
        if idx.value == 0 then assert v == Socket; assert st.data.Number?; assert idx == Some(0); Unsent(Logged(st, KeyedAudit(ts, line, IntToString(n))))
        else Done(extra[idx.value - 1], Logged(st, KeyedAudit(ts, line, extra[idx.value - 1])))
      case _ => Done("*INDEX*OUT*OF*RANGE*", Logged(st, KeyedAudit(ts, line, "*INDEX*OUT*OF*RANGE*")))
  }

  /**
   * GETB (HTTP server only): the next identifier of a barcode series, whose serial number
   * then counts up. A key the source does not hold gets `*NO*VALID*KEY*`; a source that
   * is not a dictionary, a value that is not a series and a negative number raise.
   */
  function GetBarcode(ts: string, st: Store, key: string): (o: Outcome)
    ensures o.Done? ==> o.after.used == st.used + [KeyedAudit(ts, key, o.reply)] && o.after.stored == st.stored && o.after.comments == st.comments
    ensures o.Done? ==> o.after.idx == st.idx && (st.data.Codes? <==> o.after.data.Codes?) && (!st.data.Codes? ==> o.after.data == st.data)
    ensures o.Done? && st.data.Codes? ==> o.after.data.codes.Keys == st.data.codes.Keys
    ensures o.Fault? <==> !IsDict(st.data) || (HasKey(st.data, key) && (!st.data.Codes? || IdentifierOf(st.data.codes[key]).None?))
    ensures !o.Unsent?
    ensures IsDict(st.data) && !HasKey(st.data, key) ==> o.Done? && o.reply == "*NO*VALID*KEY*" && o.after.data == st.data
  {
    if !IsDict(st.data) then Fault
    else if !HasKey(st.data, key) then Done("*NO*VALID*KEY*", Logged(st, KeyedAudit(ts, key, "*NO*VALID*KEY*")))
    else if !st.data.Codes? then Fault
    else
      var b := st.data.codes[key];
      match IdentifierOf(b)
      case None => Fault
      case Some(id) =>
        var s := st.(data := Codes(st.data.codes[key := b.(serial := b.serial + 1)]));
        Done(id, Logged(s, KeyedAudit(ts, key, id)))
  }

  // ----------------------------------------------------------------------------------------
  // Store verbs

  /**
   * STOC: appends a record to a list source and gives a source without a cursor one at
   * the start. The HTTP server's number sources are plain integers and raise; the
   * socket server's are lists and take the record after the number. Dictionaries raise.
   */
  function StoreCsv(v: Variant, ts: string, st: Store, data: string): (o: Outcome)
    ensures o.Done? ==> o.reply == "1" && o.after.stored == st.stored + [Audit(ts, data)] && o.after.used == st.used && o.after.comments == st.comments
    ensures o.Done? ==> o.after.idx == if st.idx.None? then Some(0) else st.idx
    ensures o.Done? && st.data.Rows? ==> o.after.data == Rows(st.data.rows + [data])
    ensures o.Done? && st.data.Number? ==> o.after.data == Number(st.data.value, st.data.extra + [data])
    ensures o.Fault? <==> IsDict(st.data) || (st.data.Number? && v == Http) || st.data.Unset?
    ensures !o.Unsent?
  {
    var idx := if st.idx.None? then Some(0) else st.idx;
    match st.data
    case Rows(rows) => Done("1", Kept(st.(data := Rows(rows + [data]), idx := idx), Audit(ts, data)))
    case Number(n, extra) =>
      if v == Http then Fault
      else Done("1", Kept(st.(data := Number(n, extra + [data]), idx := idx), Audit(ts, data)))
    case _ => Fault
  }

  /**
   * STOK: appends a record to a group of a Keyed source, creating the group at the
   * start if it is new. Any other source raises.
   */
  function StoreKeyed(ts: string, st: Store, grp: string, data: string): (o: Outcome)
    ensures o.Done? ==> o.reply == "1" && o.after.stored == st.stored + [KeyedAudit(ts, grp, data)] && o.after.used == st.used && o.after.comments == st.comments
    ensures o.Done? ==> st.data.Groups? && o.after.data.Groups? && o.after.data.groups.Keys == st.data.groups.Keys + {grp} && o.after.idx == st.idx
    ensures o.Done? ==> o.after.data.groups[grp].data == (if grp in st.data.groups then st.data.groups[grp].data else []) + [data]
    ensures o.Done? ==> forall k :: k in st.data.groups && k != grp ==> o.after.data.groups[k] == st.data.groups[k]
    ensures o.Fault? <==> !st.data.Groups?
    ensures !o.Unsent?
    ensures o.Done? && grp !in st.data.groups ==> o.after.data.groups[grp].idx == 0 && o.after.data.groups[grp].comments == []
    ensures o.Done? && grp in st.data.groups ==>
      o.after.data.groups[grp].idx == st.data.groups[grp].idx && o.after.data.groups[grp].comments == st.data.groups[grp].comments
  {
    if !st.data.Groups? then Fault
    else
      var m := st.data.groups;
      var g := if grp in m then m[grp] else NewGroup();
      Done("1", Kept(st.(data := Groups(m[grp := g.(data := g.data + [data])])), KeyedAudit(ts, grp, data)))
  }

  // ----------------------------------------------------------------------------------------
  // The verbs keep a loaded source sound

  /** GETN finds the shape it relies on in a sound source, and leaves it sound. */
  lemma NextKeepsSound(v: Variant, t: SourceType, ts: string, st: Store)
    requires Sound(v, t, st)
    ensures NextReady(t, st.data) && var o := GetNext(v, t, ts, st); o.Done? ==> Sound(v, t, o.after)
  {
  }

  /** GETKS leaves a sound source sound. */
  lemma KeyedSequenceKeepsSound(v: Variant, t: SourceType, ts: string, st: Store, key: string)
    requires Sound(v, t, st)
    ensures var o := GetKeyedSequence(v, ts, st, key); o.Done? ==> Sound(v, t, o.after)
  {
  }

  /** GETK never reads below the records of a sound source, and leaves the source sound. */
  lemma KeyedKeepsSound(v: Variant, t: SourceType, ts: string, st: Store, grp: string)
    requires Sound(v, t, st)
    ensures var o := GetKeyed(v, ts, st, grp); o.Done? ==> Sound(v, t, o.after)
  {
  }

  /** GETB leaves a sound source sound: a series keeps the name its key spells. */
  lemma BarcodeKeepsSound(t: SourceType, ts: string, st: Store, key: string)
    requires Sound(Http, t, st)
    ensures var o := GetBarcode(ts, st, key); o.Done? ==> Sound(Http, t, o.after)
  {
    var o := GetBarcode(ts, st, key);
    if o.Done? && t == Barcodes {
      forall k | k in o.after.data.codes ensures SeriesOfKey(k, o.after.data.codes[k]) {
        assert SeriesOfKey(k, st.data.codes[k]);
      }
    }
  }

  /** STOC leaves a sound source sound: the new record lies past a cursor that exists. */
  lemma StoreCsvKeepsSound(v: Variant, t: SourceType, ts: string, st: Store, data: string)
    requires Sound(v, t, st)
    ensures var o := StoreCsv(v, ts, st, data); o.Done? ==> Sound(v, t, o.after)
  {
  }

  /** STOK leaves a sound source sound. */
  lemma StoreKeyedKeepsSound(v: Variant, t: SourceType, ts: string, st: Store, grp: string, data: string)
    requires Sound(v, t, st)
    ensures var o := StoreKeyed(ts, st, grp, data); o.Done? ==> Sound(v, t, o.after)
  {
  }

  // ----------------------------------------------------------------------------------------
  // Runs of requests

  /** The audit lines of some replies. */
  function AuditLines(ts: string, replies: seq<string>): (r: seq<string>)
    ensures |r| == |replies|
  {
    if replies == [] then [] else [Audit(ts, replies[0])] + AuditLines(ts, replies[1..])
  }

  /** One reply more at the front of a run adds its audit line at the front of the run's lines. */
  lemma AuditedStep(ts: string, st: Store, reply: string, after: Store, replies: seq<string>, last: Store)
    requires after.used == st.used + [Audit(ts, reply)]
    requires last.used == after.used + AuditLines(ts, replies)
    ensures last.used == st.used + AuditLines(ts, [reply] + replies)
  {
    assert ([reply] + replies)[1..] == replies;
    assert AuditLines(ts, [reply] + replies) == [Audit(ts, reply)] + AuditLines(ts, replies);
  }

  /**
   * The replies of `n` GETN requests in a row, and the state they leave. The run records
   * each reply in the audit file, in order, and nothing else changes there or in the comments.
   */
  function NextRun(v: Variant, t: SourceType, ts: string, st: Store, n: nat): (r: (seq<string>, Store))
    requires NextReady(t, st.data) && !st.data.Unset?
    ensures |r.0| == n && NextReady(t, r.1.data) && !r.1.data.Unset?
    ensures r.1.used == st.used + AuditLines(ts, r.0) && r.1.stored == st.stored && r.1.comments == st.comments
    decreases n
  {
    if n == 0 then
      assert st.used + [] == st.used;
      ([], st)
    else
      var o := GetNext(v, t, ts, st);
      var rest := NextRun(v, t, ts, o.after, n - 1);
      AuditedStep(ts, st, o.reply, o.after, rest.0, rest.1);
      ([o.reply] + rest.0, rest.1)
  }

  /** The numerals of the `n` consecutive integers `a`, `a + 1`, ..., `a + n - 1`. */
  function Numerals(a: int, n: nat): (r: seq<string>)
    ensures |r| == n
    decreases n
  {
    if n == 0 then [] else [IntToString(a)] + Numerals(a + 1, n - 1)
  }

  /**
   * What `n` requests hand out of a list read from position `k`: each record in turn,
   * and the token `spent` once the list is used up.
   */
  function Handed(records: seq<string>, k: nat, n: nat, spent: string): (r: seq<string>)
    ensures |r| == n
    decreases n
  {
    if n == 0 then []
    else if k < |records| then [records[k]] + Handed(records, k + 1, n - 1, spent)
    else [spent] + Handed(records, k, n - 1, spent)
  }

  lemma {:induction false} HandedAt(records: seq<string>, k: nat, n: nat, spent: string, i: nat)
    requires i < n
    ensures Handed(records, k, n, spent)[i] == if k + i < |records| then records[k + i] else spent
    decreases n
  {
    if i > 0 {
      if k < |records| {
        HandedAt(records, k + 1, n - 1, spent, i - 1);
      } else {
        HandedAt(records, k, n - 1, spent, i - 1);
      }
    }
  }

  /** A Sequence or Indexer source hands out consecutive numbers from its current one. */
  lemma {:induction false} SequenceRun(v: Variant, t: SourceType, ts: string, st: Store, n: nat, a: int, extra: seq<string>)
    requires (t == Sequence || t == Indexer) && st.data == Number(a, extra)
    ensures var r := NextRun(v, t, ts, st, n);
      r.0 == Numerals(a, n) && r.1.data == Number(a + n, extra)
    decreases n
  {
    if n > 0 {
      var o := GetNext(v, t, ts, st);
      SequenceRun(v, t, ts, o.after, n - 1, a + 1, extra);
    }
  }

  /** `n` copies of `x`. */
  function Copies(x: string, n: nat): (r: seq<string>)
    ensures |r| == n
  {
    if n == 0 then [] else [x] + Copies(x, n - 1)
  }

  /** A Counter source gives the same number to every GETN; only a flush moves it on. */
  lemma {:induction false} CounterRun(v: Variant, ts: string, st: Store, n: nat)
    requires st.data.Number?
    ensures var r := NextRun(v, Counter, ts, st, n);
      r.0 == Copies(IntToString(st.data.value), n) && r.1.data == st.data
    decreases n
  {
    if n > 0 {
      var o := GetNext(v, Counter, ts, st);
      CounterRun(v, ts, o.after, n - 1);
    }
  }

  /** Where GETN reads a CSV source: at its cursor, or at the start when it has none. */
  function CursorOf(st: Store): nat {
    if st.idx.Some? then st.idx.value else 0
  }

  /**
   * A CSV source hands out its records in file order from its cursor, each once, and then
   * `*Exhausted*` for ever.
   */
  lemma {:induction false} CsvRun(v: Variant, ts: string, st: Store, n: nat)
    requires st.data.Rows? && (st.idx.None? ==> st.data.rows == [])
    ensures var r := NextRun(v, CSV, ts, st, n);
      r.0 == Handed(st.data.rows, CursorOf(st), n, "*Exhausted*") && r.1.data == st.data
    decreases n
  {
    if n > 0 {
      var o := GetNext(v, CSV, ts, st);
      CsvRun(v, ts, o.after, n - 1);
    }
  }

  /**
   * The replies of up to `n` GETKS requests for one key in a row, and the state they
   * leave; a request that raises ends the run.
   */
  function KeyedSequenceRun(v: Variant, ts: string, st: Store, key: string, n: nat): (r: (seq<string>, Store))
    ensures |r.0| <= n
    decreases n
  {
    if n == 0 then ([], st)
    else
      var o := GetKeyedSequence(v, ts, st, key);
      if !o.Done? then ([], st)
      else
        var rest := KeyedSequenceRun(v, ts, o.after, key, n - 1);
        ([o.reply] + rest.0, rest.1)
  }

  /**
   * On the HTTP server the counter of a key hands out consecutive numbers from its
   * current one and ends `n` higher after `n` requests; the other keys keep theirs.
   */
  lemma KeyedSequenceCounts(ts: string, st: Store, key: string, n: nat)
    requires st.data.Serials? && key in st.data.counters
    ensures var m := st.data.counters;
      var r := KeyedSequenceRun(Http, ts, st, key, n);
      r.0 == Numerals(m[key], n) && r.1.data == Serials(m[key := m[key] + n])
  {
    var m := st.data.counters;
    Overwrite(m, key, m[key], m[key]);
    KeyedSequenceFrom(ts, st, key, n, m, m[key], m[key] + n);
  }

  /**
   * `KeyedSequenceCounts` for a key whose counter stands at `c` in a map otherwise `m`,
   * and ends at `e`.
   */
  lemma {:induction false} KeyedSequenceFrom(ts: string, st: Store, key: string, n: nat, m: map<string, int>, c: int, e: int)
    requires st.data == Serials(m[key := c]) && e == c + n
    ensures var r := KeyedSequenceRun(Http, ts, st, key, n);
      r.0 == Numerals(c, n) && r.1.data == Serials(m[key := e])
    decreases n
  {
    if n > 0 {
      var after := KeyedSequenceStep(ts, st, key, n, m, c);
      KeyedSequenceFrom(ts, after, key, n - 1, m, c + 1, e);
    }
  }

  /** The first GETKS of a run on a key the HTTP server counts, and the state the rest of the run starts from. */
  lemma KeyedSequenceStep(ts: string, st: Store, key: string, n: nat, m: map<string, int>, c: int) returns (after: Store)
    requires st.data == Serials(m[key := c]) && n > 0
    ensures after.data == Serials(m[key := c + 1])
    ensures KeyedSequenceRun(Http, ts, st, key, n).0 == [IntToString(c)] + KeyedSequenceRun(Http, ts, after, key, n - 1).0
    ensures KeyedSequenceRun(Http, ts, st, key, n).1 == KeyedSequenceRun(Http, ts, after, key, n - 1).1
  {
    after := GetKeyedSequence(Http, ts, st, key).after;
    Overwrite(m, key, c, c + 1);
  }

  /** Setting a key twice keeps the second value. */
  lemma Overwrite<V>(m: map<string, V>, key: string, a: V, b: V)
    ensures m[key := a][key := b] == m[key := b]
  {
  }

  /**
   * GETI on a list of records: an index within the list gets its record on both servers,
   * a negative one the invalid-index token, and one past the end the HTTP server's
   * out-of-range token or the socket server's invalid-index token. The records stay as
   * they were.
   */
  lemma IndexedLookup(v: Variant, ts: string, st: Store, i: int)
    requires st.data.Rows?
    ensures var o := GetIndexed(v, ts, st, Some(i));
      && o.Done? && o.after.data == st.data && o.after.idx == st.idx
      && (0 <= i < |st.data.rows| ==> o.reply == st.data.rows[i])
      && (i < 0 ==> o.reply == "*INVALID*INDEX*")
      && (i >= |st.data.rows| ==> o.reply == if v == Http then "*OUT*OF*RANGE*" else "*INVALID*INDEX*")
  {
  }

  /**
   * The replies of up to `n` GETK requests on one group in a row, and the state they
   * leave; a request that raises ends the run.
   */
  function KeyedRun(v: Variant, ts: string, st: Store, grp: string, n: nat): (r: (seq<string>, Store))
    ensures |r.0| <= n
    decreases n
  {
    if n == 0 then ([], st)
    else
      var o := GetKeyed(v, ts, st, grp);
      if !o.Done? then ([], st)
      else
        var rest := KeyedRun(v, ts, o.after, grp, n - 1);
        ([o.reply] + rest.0, rest.1)
  }

  /** The source is a Keyed one whose group `grp` holds `records` and has its cursor at `k`, within the records. */
  predicate GroupAt(st: Store, grp: string, records: seq<string>, k: nat) {
    st.data.Groups? && grp in st.data.groups && st.data.groups[grp].data == records && st.data.groups[grp].idx == k && k <= |records|
  }

  /** The first of a run of requests on a list, and the rest. */
  lemma HandedStep(records: seq<string>, k: nat, n: nat, spent: string)
    requires 0 < n && k <= |records|
    ensures Handed(records, k, n, spent) == [if k < |records| then records[k] else spent] + Handed(records, Min(k + 1, |records|), n - 1, spent)
  {
  }

  /**
   * A group hands out its records in order from its cursor, each once, and then the
   * exhausted token for ever; its cursor moves on by one per record.
   */
  lemma {:induction false} KeyedRunOrder(v: Variant, ts: string, st: Store, grp: string, n: nat, records: seq<string>, k: nat)
    requires GroupAt(st, grp, records, k)
    ensures var r := KeyedRun(v, ts, st, grp, n);
      r.0 == Handed(records, k, n, GroupExhausted(v)) && GroupAt(r.1, grp, records, Min(k + n, |records|))
    decreases n
  {
    if n > 0 {
      KeyedStep(v, ts, st, grp, n, records, k);
      KeyedRunOrder(v, ts, GetKeyed(v, ts, st, grp).after, grp, n - 1, records, Min(k + 1, |records|));
      HandedStep(records, k, n, GroupExhausted(v));
    }
  }

  /** The first GETK of a run on a group whose cursor is in range, and the rest of the run. */
  lemma KeyedStep(v: Variant, ts: string, st: Store, grp: string, n: nat, records: seq<string>, k: nat)
    requires GroupAt(st, grp, records, k) && n > 0
    ensures var o := GetKeyed(v, ts, st, grp);
      && o.Done? && GroupAt(o.after, grp, records, Min(k + 1, |records|))
      && o.reply == (if k < |records| then records[k] else GroupExhausted(v))
      && KeyedRun(v, ts, st, grp, n).0 == [o.reply] + KeyedRun(v, ts, o.after, grp, n - 1).0
      && KeyedRun(v, ts, st, grp, n).1 == KeyedRun(v, ts, o.after, grp, n - 1).1
  {
  }

  // ----------------------------------------------------------------------------------------
  // Storing, then reading

  /** A record stored into a spent CSV source is the next one GETN hands out. */
  lemma StoreThenNext(v: Variant, ts: string, ts': string, st: Store, data: string)
    requires st.data.Rows? && (if st.idx.None? then st.data.rows == [] else st.idx.value == |st.data.rows|)
    ensures var o := StoreCsv(v, ts, st, data);
      o.Done? && GetNext(v, CSV, ts', o.after).reply == data
  {
    var o := StoreCsv(v, ts, st, data);
    assert o.after.data.rows == st.data.rows + [data];
  }

  /** A record stored into a new or spent group is the next one GETK hands out from it. */
  lemma StoreThenKeyed(v: Variant, ts: string, ts': string, st: Store, grp: string, data: string)
    requires st.data.Groups?
    requires grp !in st.data.groups || st.data.groups[grp].idx == |st.data.groups[grp].data|
    ensures var o := StoreKeyed(ts, st, grp, data);
      o.Done? && GetKeyed(v, ts', o.after, grp).reply == data
  {
    var o := StoreKeyed(ts, st, grp, data);
    var g := o.after.data.groups[grp];
    assert g.data[g.idx] == data;
  }

  /** Every record of a group is the reply of GETKR for some random pick. */
  lemma RandomReachesEvery(ts: string, st: Store, grp: string, i: nat)
    requires st.data.Groups? && grp in st.data.groups && i < |st.data.groups[grp].data|
    ensures GetRandom(ts, st, grp, i).reply == st.data.groups[grp].data[i]
  {
    assert i % |st.data.groups[grp].data| == i;
  }

  /**
   * Two GETB requests on a series reply with the identifiers of its current serial
   * number and of the next one, and leave the serial two higher.
   */
  lemma BarcodeTwice(ts: string, st: Store, key: string)
    requires st.data.Codes? && key in st.data.codes
    requires SerialNumber(st.data.codes[key]) >= 0
    ensures var b := st.data.codes[key];
      var o1 := GetBarcode(ts, st, key);
      && o1.Done? && Some(o1.reply) == IdentifierOf(b)
      && var o2 := GetBarcode(ts, o1.after, key);
      && o2.Done? && Some(o2.reply) == IdentifierOf(b.(serial := b.serial + 1))
      && o2.after.data.codes[key] == b.(serial := b.serial + 2)
  {
    var b := st.data.codes[key];
    var o1 := GetBarcode(ts, st, key);
    assert o1.after.data.codes[key] == b.(serial := b.serial + 1);
    assert SerialNumber(b.(serial := b.serial + 1)) >= 0;
  }

  /** The series EE-16-AU at serial 56796 issues EE160567961AU and then EE160567975AU. */
  lemma ExampleBarcodes(ts: string, st: Store, key: string)
    requires st.data.Codes? && key in st.data.codes
    requires st.data.codes[key] == BarcodeGroup("EE", 16, "AU", 56796)
    ensures var o1 := GetBarcode(ts, st, key);
      && o1.Done? && o1.reply == "EE160567961AU"
      && GetBarcode(ts, o1.after, key).reply == "EE160567975AU"
  {
    var b := st.data.codes[key];
    BarcodeTwice(ts, st, key);
    FirstExampleIdentifier(b, "16056796");
    SecondExampleIdentifier(b.(serial := b.serial + 1), "16056797");
  }
}
