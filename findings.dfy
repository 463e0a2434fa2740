/**
 * Places where the servers or the recovery tool do something other than what they
 * evidently mean to do. Each is modelled here as written, with a concrete input that
 * shows the difference; the rest of the model uses the corrected behaviour, whose
 * properties are proved where it is defined.
 */
module Findings {
  import opened Wrappers
  import opened Text
  import opened Entities
  import opened Loading
  import opened Recovery
  import opened Barcode
  import Verbs
  import Dispatch
  import DataSource

  // ----------------------------------------------------------------------------------------
  // Handles: `sources[hdl]` inside a try, and the audit line written through `source`

  /**
   * `process` on a request that names a source, as written: the handle is a Python index
   * into the list of sources, so a negative one counts from the end; for one outside
   * `-n <= h < n` the store verbs send the bad-handle token, and the read verbs choose
   * it but then write their audit line through `source = None`, which raises.
   */
  function AddressedAsWritten(v: Variant, r: Dispatch.Request, kinds: seq<SourceType>, stores: seq<Store>, ts: string, pick: nat): (a: (Dispatch.Reply, seq<Store>))
    requires Dispatch.Addressed(r) && |kinds| == |stores|
    requires forall i :: 0 <= i < |stores| ==> Sound(v, kinds[i], stores[i])
    ensures |a.1| == |stores|
    ensures Verbs.PyIndex(|stores|, r.handle).None? ==> a.1 == stores
    ensures Verbs.PyIndex(|stores|, r.handle).None? && !r.StoreRecord? && !r.StoreGrouped? ==> a.0 == Dispatch.Failed(v)
    ensures Verbs.PyIndex(|stores|, r.handle).None? && (r.StoreRecord? || r.StoreGrouped?) ==> a.0 == Dispatch.Sent(Dispatch.BadHandle(v, r))
    ensures Verbs.PyIndex(|stores|, r.handle).Some? ==>
      var j := Verbs.PyIndex(|stores|, r.handle).value;
      var o := Dispatch.Serve(v, kinds[j], r, stores[j], ts, pick);
      a.0 == Dispatch.Answer(v, o) && a.1[j] == DataSource.StateAfter(o, stores[j])
      && forall k :: 0 <= k < |stores| && k != j ==> a.1[k] == stores[k]
  {
    match Verbs.PyIndex(|stores|, r.handle)
    case None =>
      (if r.StoreRecord? || r.StoreGrouped? then Dispatch.Sent(Dispatch.BadHandle(v, r)) else Dispatch.Failed(v), stores)
    case Some(j) =>
      var o := Dispatch.Serve(v, kinds[j], r, stores[j], ts, pick);
      (Dispatch.Answer(v, o), stores[j := DataSource.StateAfter(o, stores[j])])
  }

  /**
   * As written, handle -1 is served by the last source, whose audit stream grows by
   * one line on a read verb that does not raise; `Dispatch.Server.Process` answers it
   * with the bad-handle token and changes nothing.
   */
  lemma NegativeHandleServed(v: Variant, r: Dispatch.Request, kinds: seq<SourceType>, stores: seq<Store>, ts: string, pick: nat)
    requires Dispatch.Addressed(r) && !r.StoreRecord? && !r.StoreGrouped? && r.handle == -1
    requires |kinds| == |stores| && stores != []
    requires forall i :: 0 <= i < |stores| ==> Sound(v, kinds[i], stores[i])
    ensures var n := |stores|;
      var o := Dispatch.Serve(v, kinds[n - 1], r, stores[n - 1], ts, pick);
      var a := AddressedAsWritten(v, r, kinds, stores, ts, pick);
      !o.Fault? ==> |a.1[n - 1].used| == |stores[n - 1].used| + 1
  {
    var n := |stores|;
    assert Verbs.PyIndex(n, r.handle) == Some(n - 1);
    Dispatch.ReadIsAudited(v, kinds[n - 1], r, stores[n - 1], ts, pick);
  }

  /**
   * As written, a read verb whose handle is one past the last source raises instead of
   * getting the bad-handle token that `Dispatch.Server.Process` sends.
   */
  lemma OutOfRangeHandleRaises(v: Variant, r: Dispatch.Request, kinds: seq<SourceType>, stores: seq<Store>, ts: string, pick: nat)
    requires Dispatch.Addressed(r) && !r.StoreRecord? && !r.StoreGrouped? && r.handle == |stores|
    requires |kinds| == |stores|
    requires forall i :: 0 <= i < |stores| ==> Sound(v, kinds[i], stores[i])
    ensures var a := AddressedAsWritten(v, r, kinds, stores, ts, pick);
      a == (Dispatch.Failed(v), stores) && a.0 != Dispatch.Sent(Dispatch.BadHandle(v, r))
  {
  }

  // ----------------------------------------------------------------------------------------
  // Keyed files on the socket server: `group.append_comment`, a method Group does not have

  /** One line of a keyed file as the socket server reads it: a comment inside a group raises. */
  function SocketKeyedStepAsWritten(st: KeyedState, line: string): (r: Option<KeyedState>)
    requires KeyedInvariant(st)
    ensures r.Some? ==> r == KeyedStep(st, line)
    ensures r.None? <==> KeyedStep(st, line).None? || ('[' !in line && IsComment(line) && st.current.Some?)
  {
    if '[' !in line && IsComment(line) && st.current.Some? then None else KeyedStep(st, line)
  }

  function SocketKeyedFromAsWritten(st: KeyedState, ls: seq<string>): (r: Option<KeyedState>)
    requires KeyedInvariant(st)
    decreases |ls|
  {
    if ls == [] then Some(st)
    else
      match SocketKeyedStepAsWritten(st, ls[0])
      case None => None
      case Some(st') => SocketKeyedFromAsWritten(st', ls[1..])
  }

  /** The socket server's keyed reader over a whole file, as written. */
  function SocketKeyedLoadAsWritten(lines: seq<string>): Option<KeyedState> {
    SocketKeyedFromAsWritten(KeyedStart(), Cleaned(Stripped, lines))
  }

  /** A header, a comment and a record, each already stripped: a group holding one comment and one record. */
  predicate CommentedGroup(h: string, c: string, x: string) {
    && Trimmed(h) && '[' in h
    && Trimmed(c) && '[' !in c && IsComment(c)
    && Trimmed(x) && '[' !in x && !IsComment(x) && x != ""
  }

  lemma CommentedGroupClean(h: string, c: string, x: string)
    requires CommentedGroup(h, c, x)
    ensures Cleaned(Stripped, [h, c, x]) == [h, c, x]
  {
    var ls := [h, c, x];
    CleanedAt(Stripped, ls, 0);
    CleanedAt(Stripped, ls, 1);
    CleanedAt(Stripped, ls, 2);
  }

  /** The state once the header is read: one empty group, open. */
  function Opened(h: string): (st: KeyedState)
    ensures KeyedInvariant(st)
  {
    KeyedState([], map[HeaderName(h) := NewGroup()], Some(HeaderName(h)))
  }

  /** As written, the socket server does not load a group with a comment: `append_comment` raises. */
  lemma GroupCommentAsWritten(h: string, c: string, x: string)
    requires CommentedGroup(h, c, x)
    ensures SocketKeyedLoadAsWritten([h, c, x]) == None
  {
    CommentedGroupClean(h, c, x);
    var g := HeaderName(h);
    assert map[][g := NewGroup()] == map[g := NewGroup()];
    assert SocketKeyedStepAsWritten(KeyedStart(), h) == Some(Opened(h));
    assert SocketKeyedStepAsWritten(Opened(h), c) == None;
    assert SocketKeyedFromAsWritten(Opened(h), [c, x]) == None;
    assert [h, c, x][1..] == [c, x];
    assert SocketKeyedFromAsWritten(KeyedStart(), [h, c, x]) == SocketKeyedFromAsWritten(Opened(h), [c, x]);
  }

  /** The intended reader keeps the comment with its group, as the HTTP server does. */
  lemma GroupCommentKept(h: string, c: string, x: string)
    requires CommentedGroup(h, c, x)
    ensures KeyedLoad([h, c, x]) == Some(KeyedState([], map[HeaderName(h) := Group([x], 0, [c])], Some(HeaderName(h))))
  {
    CommentedGroupClean(h, c, x);
    var g := HeaderName(h);
    var s2 := KeyedState([], map[g := Group([], 0, [c])], Some(g));
    assert map[][g := NewGroup()] == map[g := NewGroup()];
    assert KeyedStep(KeyedStart(), h) == Some(Opened(h));
    assert [] + [c] == [c] && [] + [x] == [x];
    assert map[g := NewGroup()][g := Group([], 0, [c])] == map[g := Group([], 0, [c])];
    assert KeyedStep(Opened(h), c) == Some(s2);
    assert map[g := Group([], 0, [c])][g := Group([x], 0, [c])] == map[g := Group([x], 0, [c])];
    var s3 := KeyedState([], map[g := Group([x], 0, [c])], Some(g));
    assert KeyedStep(s2, x) == Some(s3);
    assert [h, c, x][1..] == [c, x];
    assert [c, x][1..] == [x];
    assert [x][1..] == [];
    assert KeyedFrom(s3, []) == Some(s3);
    assert KeyedFrom(s2, [x]) == Some(s3);
    assert KeyedFrom(Opened(h), [c, x]) == Some(s3);
    assert KeyedFrom(KeyedStart(), [h, c, x]) == Some(s3);
  }

  // ----------------------------------------------------------------------------------------
  // Keyed groups on the socket server: `set_idx` puts an empty group's cursor at -1

  /** The cursor `set_idx` gives a group after loading, as written. */
  function SetIdxAsWritten(g: Group): (r: Group)
    ensures r.data == g.data && r.comments == g.comments
    ensures r.idx == (if g.data == [] then -1 else 0)
  {
    g.(idx := if |g.data| > 0 then 0 else -1)
  }

  /** A source holding one group `grp`. */
  function OneGroup(grp: string, g: Group): Store {
    Store(Groups(map[grp := g]), None, [], [], [])
  }

  /**
   * As written, GETK on an empty group raises on the socket server: the cursor -1 is
   * below the length 0, and reading the records at -1 fails.
   */
  lemma EmptyGroupRaisesAsWritten(ts: string, grp: string)
    ensures Verbs.GetKeyed(Socket, ts, OneGroup(grp, SetIdxAsWritten(NewGroup())), grp).Fault?
  {
  }

  /** With the cursor at the start, as the model loads every group, GETK on an empty group answers the exhausted token. */
  lemma EmptyGroupExhausted(ts: string, grp: string)
    ensures var o := Verbs.GetKeyed(Socket, ts, OneGroup(grp, NewGroup()), grp);
      o.Done? && o.reply == "*GROUP*EXHAUSTED*"
  {
  }

  // ----------------------------------------------------------------------------------------
  // recover_keyed_sequence: `self.Data[group_tag] = value`

  /** The one entry of the used line of GETKS handing out `n` under `key`, and the number it logs. */
  lemma NumberEntries(ts: string, key: string, n: int)
    requires AllDigits(ts) && ':' !in key && OneLine(key)
    ensures var es := Entries([Verbs.KeyedAudit(ts, key, IntToString(n))]);
      es == [(key, IntToString(n))] && Countable(es) && Logged(es, key, Numbers) == [n]
  {
    var t := IntToString(n);
    var es := [(key, t)];
    assert Entries([Verbs.KeyedAudit(ts, key, t)]) == es by {
      IntToStringExcludes(n, '\r');
      IntToStringExcludes(n, '\n');
      IssuedEntries(ts, key, t);
    }
    assert ValueOf(Numbers, t) == Some(n) by {
      IntToStringExcludes(n, '*');
      assert '*' in NoValidKey && '*' in BadGroupToken;
      ParseIntOfIntToString(n);
    }
    assert Countable(es) by {
      ParseIntOfIntToString(n);
    }
    assert Logged(es, key, Numbers) == [n] by {
      assert es[..0] == [] && es[0] == (key, t);
    }
  }

  /**
   * The used line of GETKS handing out `n` for a counter loaded at `v <= n`, as for a
   * counter A at 3 and a line handing out 7: as written the counter stays at `v`, so
   * `v` to `n` are handed out again after recovery.
   */
  lemma CountersAsWrittenExample(ts: string, key: string, v: int, n: int)
    requires AllDigits(ts) && ':' !in key && OneLine(key) && v <= n
    ensures RecoverCountersAsWritten(map[key := v], [Verbs.KeyedAudit(ts, key, IntToString(n))]) == Some(map[key := v])
  {
    NumberEntries(ts, key, n);
    AsWrittenKeepsCounters(map[key := v], [(key, IntToString(n))]);
  }

  /** On the same line the corrected recovery resumes the counter at `n + 1`. */
  lemma CountersCorrectedExample(ts: string, key: string, v: int, n: int)
    requires AllDigits(ts) && ':' !in key && OneLine(key) && v <= n
    ensures RecoverCountersOf(map[key := v], [Verbs.KeyedAudit(ts, key, IntToString(n))]) == Some(map[key := n + 1])
  {
    var used := [Verbs.KeyedAudit(ts, key, IntToString(n))];
    NumberEntries(ts, key, n);
    CountersResume(map[key := v], used, key);
    var c := RecoverCountersOf(map[key := v], used).value;
    assert c[key] == n + 1 by {
      assert Logged(Entries(used), key, Numbers)[0] == n;
    }
    SameMaps(c, map[key := n + 1]);
  }

  // ----------------------------------------------------------------------------------------
  // recover_barcodes: the pattern `([0-9]*)$` after `::`

  /** A series whose prefix starts with a letter and whose parts hold no line break, as EE-16-AU does. */
  predicate Lettered(b: BarcodeGroup) {
    b.prefix != [] && !IsDigit(b.prefix[0]) && OneLine(b.prefix) && OneLine(b.country)
  }

  /** An identifier a lettered series hands out is one line and not digits only. */
  lemma IdentifierLine(b: BarcodeGroup)
    requires Lettered(b) && SerialNumber(b) >= 0
    ensures OneLine(IdentifierOf(b).value) && !AllDigits(IdentifierOf(b).value)
  {
    IdentifierParts(b);
    var d := Pad8(SerialNumber(b));
    var ch := DigitChar(CheckDigit(WeightedSum(d, 8)));
    var id := IdentifierOf(b).value;
    assert id == b.prefix + d + [ch] + b.country;
    DigitsExclude(d, '\r');
    DigitsExclude(d, '\n');
    assert id[0] == b.prefix[0];
  }

  /** Reading an identifier does not depend on the serial a series is at. */
  lemma SerialOfAnySerial(b: BarcodeGroup, n: int, id: string)
    ensures SerialOf(b.(serial := n), id) == SerialOf(b, id)
  {
  }

  /** An identifier a lettered series hands out is one line, not digits only, and reads back as its serial. */
  lemma IssuedShape(c: BarcodeGroup, n: int)
    requires Lettered(c) && SerialNumber(c.(serial := n)) >= 0
    ensures var id := IdentifierOf(c.(serial := n)).value;
      OneLine(id) && !AllDigits(id) && SerialOf(c, id) == Some(n)
  {
    var b := c.(serial := n);
    IdentifierLine(b);
    SerialOfIdentifier(b);
    SerialOfAnySerial(b, c.serial, IdentifierOf(b).value);
    assert b.(serial := c.serial) == c;
  }

  lemma IssuedLogged(key: string, id: string, c: BarcodeGroup, n: int)
    requires !AllDigits(id) && SerialOf(c, id) == Some(n)
    ensures Logged([(key, id)], key, Digits) == []
    ensures Logged([(key, id)], key, Identifiers(c)) == [n]
  {
    assert [(key, id)][..0] == [];
  }

  /** The one entry of the used line handing out identifier `id` under `key`. */
  lemma IssuedEntries(ts: string, key: string, id: string)
    requires AllDigits(ts) && ':' !in key && OneLine(key) && OneLine(id)
    ensures Entries([Verbs.KeyedAudit(ts, key, id)]) == [(key, id)]
  {
    EntriesOfAudit([], ts, key, id);
    assert [] + [Verbs.KeyedAudit(ts, key, id)] == [Verbs.KeyedAudit(ts, key, id)];
  }

  lemma DigitsMissIssued(key: string, id: string, c: BarcodeGroup, n: int)
    requires !AllDigits(id) && SerialOf(c, id) == Some(n)
    ensures DigitsReadable([(key, id)], map[key := c])
    ensures (map k | k in map[key := c] :: Peak(0, Logged([(key, id)], k, Digits))) == map[key := 0]
  {
    var es := [(key, id)];
    var codes := map[key := c];
    IssuedLogged(key, id, c, n);
    assert es[0].1 == id;
    var a := map k | k in codes :: Peak(0, Logged(es, k, Digits));
    forall k | k in a
      ensures a[k] == map[key := 0][k]
    {
    }
    SameMaps(a, map[key := 0]);
  }

  lemma IdentifiersFindIssued(key: string, id: string, c: BarcodeGroup, n: nat)
    requires !AllDigits(id) && SerialOf(c, id) == Some(n)
    ensures (map k | k in map[key := c] :: Peak(0, Logged([(key, id)], k, Identifiers(map[key := c][k])))) == map[key := n]
  {
    var es := [(key, id)];
    var codes := map[key := c];
    IssuedLogged(key, id, c, n);
    assert Peak(0, [n]) == n by {
      assert [n][..0] == [];
    }
    var r := map k | k in codes :: Peak(0, Logged(es, k, Identifiers(codes[k])));
    forall k | k in r
      ensures r[k] == map[key := n][k]
    {
    }
    SameMaps(r, map[key := n]);
  }

  /**
   * The used line of GETB handing out identifier `id`, serial `n` of a series such as
   * EE-16-AU (IssuedShape shows every identifier GETB hands out is one): as written the
   * line does not match, and the recovered serial stays 0, so the file gets serial 1.
   */
  lemma BarcodesAsWrittenExample(ts: string, key: string, c: BarcodeGroup, id: string, n: nat)
    requires AllDigits(ts) && ':' !in key && OneLine(key)
    requires OneLine(id) && !AllDigits(id) && SerialOf(c, id) == Some(n)
    ensures RecoverBarcodesAsWritten(map[key := c], [Verbs.KeyedAudit(ts, key, id)]) == Some(map[key := 0])
  {
    IssuedEntries(ts, key, id);
    DigitsMissIssued(key, id, c, n);
    var es := Entries([Verbs.KeyedAudit(ts, key, id)]);
    assert DigitsReadable(es, map[key := c]);
    assert (map k | k in map[key := c] :: Peak(0, Logged(es, k, Digits))) == map[key := 0];
  }

  /** On the same line the corrected recovery finds `n`, and the file gets `n + 1`. */
  lemma BarcodesCorrectedExample(ts: string, key: string, c: BarcodeGroup, id: string, n: nat)
    requires AllDigits(ts) && ':' !in key && OneLine(key)
    requires OneLine(id) && !AllDigits(id) && SerialOf(c, id) == Some(n)
    ensures RecoveredSerials(map[key := c], [Verbs.KeyedAudit(ts, key, id)]) == map[key := n]
  {
    IssuedEntries(ts, key, id);
    IdentifiersFindIssued(key, id, c, n);
  }
}
