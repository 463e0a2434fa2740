/**
 * The recovery tool. After a server stopped without flushing, it loads one source's data
 * file, replays the source's `.stored` and `.used` audit files against it, and writes the
 * result to `<environment>/<name>.rec`, leaving the data file alone. Keyed, KeyedSequence
 * and Barcodes sources are recovered; a CSV source is only named, and every other type is
 * left alone.
 *
 * Audit files are their lines, CR and LF dropped from each as the tool does. A Python
 * exception, which ends the tool before anything is written, is a run that crashed.
 */
module Recovery {
  import opened Wrappers
  import opened Text
  import opened Entities
  import opened Loading
  import opened Flushing
  import opened Barcode
  import Verbs

  // ----------------------------------------------------------------------------------------
  // Audit lines

  /** The timestamp an audit line starts with: its digits as far as they go. */
  function Stamp(line: string): (ts: string)
    ensures AllDigits(ts) && |ts| <= |line|
    decreases |line|
  {
    if line != [] && IsDigit(line[0]) then [line[0]] + Stamp(line[1..]) else []
  }

  /**
   * The pattern `[0-9]* - ([^:]*)::(.*)$` matched at the start of a line: digits as far
   * as they go, then ` - `, then the key and the text. The result is the key and the text.
   */
  function ParseAudit(line: string): (r: Option<(string, string)>)
    ensures r.Some? ==> ':' !in r.value.0
    decreases |line|
  {
    if line != [] && IsDigit(line[0]) then ParseAudit(line[1..])
    else if |line| >= 3 && line[0] == ' ' && line[1] == '-' && line[2] == ' ' then KeyAndText(line[3..])
    else None
  }

  /** The key running up to the first `:`, which must be doubled, and the text after the pair. */
  function KeyAndText(s: string): (r: Option<(string, string)>)
    ensures r.Some? ==> ':' !in r.value.0 && s == r.value.0 + "::" + r.value.1
  {
    if s == [] then None
    else if s[0] == ':' then
      if |s| >= 2 && s[1] == ':' then Some(([], s[2..])) else None
    else
      match KeyAndText(s[1..])
      case None => None
      case Some(p) => Some(([s[0]] + p.0, p.1))
  }

  /** A key without `:` followed by `::` and a text splits back into the two. */
  lemma {:induction false} KeyAndTextOf(key: string, text: string)
    requires ':' !in key
    ensures KeyAndText(key + "::" + text) == Some((key, text))
    decreases |key|
  {
    var s := key + "::" + text;
    if key == [] {
      assert s == "::" + text && s[2..] == text;
    } else {
      assert s[0] == key[0] && s[1..] == key[1..] + "::" + text;
      KeyAndTextOf(key[1..], text);
      assert [key[0]] + key[1..] == key;
    }
  }

  /** Whatever the pattern matches is a keyed audit line, as the servers write them, of its key and text. */
  lemma ParsedAudit(line: string)
    requires ParseAudit(line).Some?
    ensures var e := ParseAudit(line).value; line == Verbs.KeyedAudit(Stamp(line), e.0, e.1)
  {
    var e := ParseAudit(line).value;
    StampThenBody(line);
    AuditAfterStamp(Stamp(line), e.0, e.1);
  }

  /** A matched line is its stamp followed by the line an empty stamp would give. */
  lemma {:induction false} StampThenBody(line: string)
    requires ParseAudit(line).Some?
    ensures var e := ParseAudit(line).value; line == Stamp(line) + Verbs.KeyedAudit([], e.0, e.1)
    decreases |line|
  {
    var e := ParseAudit(line).value;
    var body := Verbs.KeyedAudit([], e.0, e.1);
    if line != [] && IsDigit(line[0]) {
      var rest := line[1..];
      assert ParseAudit(rest) == ParseAudit(line);
      StampThenBody(rest);
      assert line == [line[0]] + rest;
      assert Stamp(line) + body == [line[0]] + (Stamp(rest) + body);
    } else {
      var tail := line[3..];
      assert tail == e.0 + "::" + e.1;
      assert line == " - " + tail;
      assert Stamp(line) == [];
    }
  }

  /** A keyed audit line is its stamp followed by what the line would be with an empty stamp. */
  lemma AuditAfterStamp(ts: string, key: string, text: string)
    ensures Verbs.KeyedAudit(ts, key, text) == ts + Verbs.KeyedAudit([], key, text)
  {
  }

  /** A keyed audit line parses back into its key and text when the stamp is digits and the key has no `:`. */
  lemma {:induction false} ParseKeyedAudit(ts: string, key: string, text: string)
    requires AllDigits(ts) && ':' !in key
    ensures ParseAudit(Verbs.KeyedAudit(ts, key, text)) == Some((key, text))
    decreases |ts|
  {
    var line := Verbs.KeyedAudit(ts, key, text);
    if ts == [] {
      assert line == " - " + (key + "::" + text);
      KeyAndTextOf(key, text);
    } else {
      assert line[1..] == Verbs.KeyedAudit(ts[1..], key, text);
      ParseKeyedAudit(ts[1..], key, text);
    }
  }

  /** A line without CR or LF. */
  predicate OneLine(s: string) {
    '\r' !in s && '\n' !in s
  }

  /** What one line of an audit file contributes: its key and text when the pattern matches. */
  function Matched(line: string): seq<(string, string)> {
    match ParseAudit(DropCrLf(line))
    case None => []
    case Some(e) => [e]
  }

  /** The keys and texts of the lines of an audit file that the pattern matches, in file order. */
  function Entries(lines: seq<string>): (r: seq<(string, string)>)
    ensures |r| <= |lines|
  {
    if lines == [] then [] else Entries(lines[..|lines| - 1]) + Matched(lines[|lines| - 1])
  }

  /** Reading one more line adds what it matches. */
  lemma EntriesSnoc(lines: seq<string>, i: nat)
    requires i < |lines|
    ensures Entries(lines[..i + 1]) == Entries(lines[..i]) + Matched(lines[i])
  {
    assert lines[..i + 1][..i] == lines[..i];
  }

  /** Reading one more line adds its key and text when the pattern matches it, and nothing otherwise. */
  lemma EntriesStep(lines: seq<string>, i: nat)
    requires i < |lines|
    ensures var found := ParseAudit(DropCrLf(lines[i]));
      Entries(lines[..i + 1]) == Entries(lines[..i]) + (if found.Some? then [found.value] else [])
  {
    EntriesSnoc(lines, i);
  }

  /** An entry naming a key keeps the entries naming keys. */
  lemma KnownSnoc<T>(es: seq<(string, string)>, e: (string, string), m: map<string, T>)
    requires Known(es, m) && e.0 in m
    ensures Known(es + [e], m)
  {
    forall j | 0 <= j < |es| + 1 ensures (es + [e])[j].0 in m {
      if j < |es| {
        assert (es + [e])[j] == es[j];
      }
    }
  }

  lemma {:induction false} EntriesAppend(a: seq<string>, b: seq<string>)
    ensures Entries(a + b) == Entries(a) + Entries(b)
    decreases |b|
  {
    if b == [] {
      assert a + b == a;
    } else {
      var p := b[..|b| - 1];
      assert (a + b)[..|a + b| - 1] == a + p;
      assert (a + b)[|a + b| - 1] == b[|b| - 1];
      EntriesAppend(a, p);
    }
  }

  /** Each line a server appends to an audit file for a key adds that key and text to what recovery reads. */
  lemma EntriesOfAudit(lines: seq<string>, ts: string, key: string, text: string)
    requires AllDigits(ts) && ':' !in key && OneLine(key) && OneLine(text)
    ensures Entries(lines + [Verbs.KeyedAudit(ts, key, text)]) == Entries(lines) + [(key, text)]
  {
    var line := Verbs.KeyedAudit(ts, key, text);
    DigitsExclude(ts, '\r');
    DigitsExclude(ts, '\n');
    assert OneLine(line);
    ParseKeyedAudit(ts, key, text);
    assert (lines + [line])[..|lines|] == lines;
  }

  /** A prefix one longer is the prefix and the next element. */
  lemma TakeOneMore<T>(s: seq<T>, i: nat)
    requires i < |s|
    ensures s[..i + 1] == s[..i] + [s[i]]
  {
  }

  lemma DropSnoc<T>(p: seq<T>, y: T, i: nat)
    requires i <= |p|
    ensures (p + [y])[i..] == p[i..] + [y]
  {
  }

  /** Two maps with the same keys and the same value at each key are equal. */
  lemma SameMaps<V>(a: map<string, V>, b: map<string, V>)
    requires forall k :: k in a <==> k in b
    requires forall k :: k in a ==> a[k] == b[k]
    ensures a == b
  {
  }

  /** Every entry names a key of `m`; an entry naming another raises a KeyError. */
  predicate Known<T>(es: seq<(string, string)>, m: map<string, T>) {
    forall i :: 0 <= i < |es| ==> es[i].0 in m
  }




  // ----------------------------------------------------------------------------------------
  // Keyed sources: replaying the stored records

  /** The texts of the entries naming `key`, in order: the records stored into that group. */
  function TextsFor(es: seq<(string, string)>, key: string): (r: seq<string>)
    ensures |r| <= |es|
  {
    if es == [] then []
    else
      var e := es[|es| - 1];
      TextsFor(es[..|es| - 1], key) + (if e.0 == key then [e.1] else [])
  }

  lemma TextsForSnoc(es: seq<(string, string)>, e: (string, string))
    ensures forall k :: TextsFor(es + [e], k) == TextsFor(es, k) + (if e.0 == k then [e.1] else [])
  {
    assert (es + [e])[..|es|] == es;
  }

  /** The position of the last `x` in `s`. */
  function LastIndexOf(s: seq<string>, x: string): (r: Option<nat>)
    ensures r.None? <==> x !in s
    ensures r.Some? ==> r.value < |s| && s[r.value] == x && x !in s[r.value + 1..]
  {
    if s == [] then None
    else
      var p := s[..|s| - 1];
      assert s == p + [s[|s| - 1]];
      if s[|s| - 1] == x then Some(|s| - 1)
      else
        var r := LastIndexOf(p, x);
        if r.Some? then
          DropSnoc(p, s[|s| - 1], r.value + 1);
          r
        else r
  }

  /** An occurrence with no later one is the last. */
  lemma {:induction false} LastIndexUnique(s: seq<string>, x: string, j: nat)
    requires j < |s| && s[j] == x && x !in s[j + 1..]
    ensures LastIndexOf(s, x) == Some(j)
    decreases |s|
  {
    if j < |s| - 1 {
      var p := s[..|s| - 1];
      assert s[j + 1..][|s| - j - 2] == s[|s| - 1];
      assert p[j + 1..] <= s[j + 1..];
      LastIndexUnique(p, x, j);
    }
  }

  /**
   * The stored records newer than a group's last record: those after its last
   * occurrence, and none at all when it never occurs.
   */
  function Newer(s: seq<string>, x: string): (r: seq<string>)
    ensures x !in r
    ensures x !in s ==> r == []
    ensures x in s ==> |r| < |s| && s[|s| - |r| - 1] == x && r == s[|s| - |r|..]
  {
    match LastIndexOf(s, x)
    case None => []
    case Some(j) => s[j + 1..]
  }

  /** A group once its stored records are replayed: the ones newer than its last record follow its records. */
  function Replayed(g: Group, stored: seq<string>): Group
    requires g.data != []
  {
    g.(data := g.data + Newer(stored, g.data[|g.data| - 1]))
  }

  /**
   * When a group's last record occurs among its stored records and only `after` follows
   * its last occurrence, replaying appends exactly `after`; the records, comments and
   * cursor it had are kept.
   */
  lemma ReplayedAfterLast(g: Group, before: seq<string>, after: seq<string>)
    requires g.data != [] && g.data[|g.data| - 1] !in after
    ensures var r := Replayed(g, before + [g.data[|g.data| - 1]] + after);
      r.data == g.data + after && r.comments == g.comments && r.idx == g.idx
  {
    var x := g.data[|g.data| - 1];
    var s := before + [x] + after;
    assert s[|before|] == x && s[|before| + 1..] == after;
    LastIndexUnique(s, x, |before|);
  }

  /** When a group's last record was never stored, replaying leaves the group as it is. */
  lemma ReplayedWithoutLast(g: Group, stored: seq<string>)
    requires g.data != [] && g.data[|g.data| - 1] !in stored
    ensures Replayed(g, stored) == g
  {
    assert g.data + [] == g.data;
  }

  /** The stored records newer than `last`: a scan backwards for its last occurrence, then the appends. */
  method NewerOf(stored: seq<string>, last: string) returns (r: seq<string>)
    ensures r == Newer(stored, last)
  {
    var start := |stored|;
    var idx := |stored| - 1;
    while idx >= 0
      invariant -1 <= idx < |stored|
      invariant start == |stored| && last !in stored[idx + 1..]
      decreases idx + 1
    {
      if stored[idx] != last {
        assert stored[idx..] == [stored[idx]] + stored[idx + 1..];
        idx := idx - 1;
      } else {
        LastIndexUnique(stored, last, idx);
        start := idx + 1;
        break;
      }
    }
    if idx < 0 {
      assert stored[idx + 1..] == stored;
    }
    r := [];
    var i := start;
    while i < |stored|
      invariant start <= i <= |stored|
      invariant r == stored[start..i]
    {
      r := r + [stored[i]];
      i := i + 1;
    }
    assert stored[start..|stored|] == stored[start..];
  }

  // ----------------------------------------------------------------------------------------
  // Keyed sources: dropping the used records

  /** The exhausted token GETK logs for a group with nothing left. */
  const Exhausted := "*Exhausted*"

  /** The text before the first `,`, or all of it when there is none. */
  function Head(s: string): (h: string)
    ensures ',' !in h
    ensures ',' !in s ==> h == s
  {
    match SplitOnce(s, ',')
    case None => s
    case Some(pair) => pair.0
  }

  /** The records read from group `key`, each named by its text before the first `,`; exhausted tokens name none. */
  function ReadsFor(es: seq<(string, string)>, key: string): (r: seq<string>)
    ensures |r| <= |es|
  {
    if es == [] then []
    else
      var e := es[|es| - 1];
      ReadsFor(es[..|es| - 1], key) + (if e.0 == key && e.1 != Exhausted then [Head(e.1)] else [])
  }

  lemma ReadsForSnoc(es: seq<(string, string)>, e: (string, string))
    ensures forall k :: ReadsFor(es + [e], k) == ReadsFor(es, k) + (if e.0 == k && e.1 != Exhausted then [Head(e.1)] else [])
  {
    assert (es + [e])[..|es|] == es;
  }

  /** Every read other than the exhausted token holds a `,`; unpacking `split(',', 1)` raises otherwise. */
  predicate Splittable(es: seq<(string, string)>) {
    forall i :: 0 <= i < |es| ==> es[i].1 != Exhausted ==> ',' in es[i].1
  }

  lemma SplittableSnoc(es: seq<(string, string)>, e: (string, string))
    requires Splittable(es) && (e.1 != Exhausted ==> ',' in e.1)
    ensures Splittable(es + [e])
  {
    forall j | 0 <= j < |es| + 1 ensures (es + [e])[j].1 != Exhausted ==> ',' in (es + [e])[j].1 {
      if j < |es| {
        assert (es + [e])[j] == es[j];
      }
    }
  }

  /** The names of the records `rs`, each its text before the first `,`. */
  function Names(rs: seq<string>): set<string> {
    if rs == [] then {} else Names(rs[..|rs| - 1]) + {Head(rs[|rs| - 1])}
  }

  /** The names the used log is matched against: those of every record of the group but the last. */
  function RefNames(records: seq<string>): set<string> {
    if records == [] then {} else Names(records[..|records| - 1])
  }

  lemma {:induction false} NamesHold(rs: seq<string>, i: nat)
    requires i < |rs|
    ensures Head(rs[i]) in Names(rs)
    decreases |rs|
  {
    if i < |rs| - 1 {
      NamesHold(rs[..|rs| - 1], i);
    }
  }

  /** How many reads name one of `refs`: one record is popped from the front of the group for each. */
  function Hits(taken: seq<string>, refs: set<string>): (n: nat)
    ensures n <= |taken|
  {
    if taken == [] then 0
    else Hits(taken[..|taken| - 1], refs) + (if taken[|taken| - 1] in refs then 1 else 0)
  }

  lemma {:induction false} HitsPrefix(taken: seq<string>, refs: set<string>, j: nat)
    requires j <= |taken|
    ensures Hits(taken[..j], refs) <= Hits(taken, refs)
    decreases |taken|
  {
    if j < |taken| {
      assert taken[..|taken| - 1][..j] == taken[..j];
      HitsPrefix(taken[..|taken| - 1], refs, j);
    } else {
      assert taken[..j] == taken;
    }
  }

  /**
   * A group once the reads are replayed: one record off the front for every read naming
   * one of its records other than the last; more such reads than records raise.
   */
  function Pruned(g: Group, taken: seq<string>): Option<Group> {
    var n := Hits(taken, RefNames(g.data));
    if n > |g.data| then None else Some(g.(data := g.data[n..]))
  }

  /**
   * Replaying the reads of a group's first `n` records, in order, drops exactly those
   * `n` records, provided one record is left after them.
   */
  lemma {:induction false} PrunedReads(g: Group, taken: seq<string>)
    requires |taken| < |g.data|
    requires forall i :: 0 <= i < |taken| ==> taken[i] == Head(g.data[i])
    ensures Pruned(g, taken) == Some(g.(data := g.data[|taken|..]))
  {
    var refs := RefNames(g.data);
    HitsAll(taken, refs, g.data);
  }

  lemma {:induction false} HitsAll(taken: seq<string>, refs: set<string>, records: seq<string>)
    requires |taken| < |records| && refs == RefNames(records)
    requires forall i :: 0 <= i < |taken| ==> taken[i] == Head(records[i])
    ensures Hits(taken, refs) == |taken|
    decreases |taken|
  {
    if taken != [] {
      var p := taken[..|taken| - 1];
      HitsAll(p, refs, records);
      NamesHold(records[..|records| - 1], |taken| - 1);
    }
  }

  /** Reads that name none of a group's records leave it as it is. */
  lemma {:induction false} PrunedNothing(g: Group, taken: seq<string>)
    requires forall i :: 0 <= i < |taken| ==> taken[i] !in RefNames(g.data)
    ensures Pruned(g, taken) == Some(g)
    decreases |taken|
  {
    assert Hits(taken, RefNames(g.data)) == 0 by {
      HitsNone(taken, RefNames(g.data));
    }
    assert g.data[0..] == g.data;
  }

  lemma {:induction false} HitsNone(taken: seq<string>, refs: set<string>)
    requires forall i :: 0 <= i < |taken| ==> taken[i] !in refs
    ensures Hits(taken, refs) == 0
    decreases |taken|
  {
    if taken != [] {
      HitsNone(taken[..|taken| - 1], refs);
    }
  }

  /** Names the records of one group that the used log is matched against: all but the last. */
  method RefNamesOf(records: seq<string>) returns (refs: set<string>)
    ensures refs == RefNames(records)
  {
    refs := {};
    if |records| == 0 {
      return;
    }
    var n := |records| - 1;
    var idx := 0;
    while idx < n
      invariant 0 <= idx <= n
      invariant refs == Names(records[..idx])
    {
      assert records[..idx + 1][..idx] == records[..idx];
      refs := refs + {Head(records[idx])};
      idx := idx + 1;
    }
    assert records[..n] == records[..|records| - 1];
  }

  /** Drops the used records of one group, popping the front record once for each read that names one. */
  method PruneGroup(g: Group, taken: seq<string>) returns (r: Option<Group>)
    ensures r == Pruned(g, taken)
  {
    var refs := RefNamesOf(g.data);
    var data := g.data;
    ghost var popped := 0;
    for j := 0 to |taken|
      invariant popped == Hits(taken[..j], refs) && popped <= |g.data|
      invariant data == g.data[popped..]
    {
      assert taken[..j + 1][..j] == taken[..j];
      if taken[j] in refs {
        if |data| == 0 {
          HitsPrefix(taken, refs, j + 1);
          return None;
        }
        data := data[1..];
        popped := popped + 1;
      }
    }
    assert taken[..|taken|] == taken;
    r := Some(g.(data := data));
  }

  // ----------------------------------------------------------------------------------------
  // Keyed sources: the whole recovery

  /** Every group holds a record (reading its last record, or its first, raises otherwise). */
  predicate AllHoldRecords(m: map<string, Group>) {
    forall k :: k in m ==> m[k].data != []
  }

  /** One group recovered: its stored records replayed, then its reads. */
  function GroupRecovered(g: Group, stored: seq<string>, taken: seq<string>): (r: Option<Group>)
    requires g.data != []
    ensures r.Some? ==> r.value.comments == g.comments && r.value.idx == g.idx
  {
    Pruned(Replayed(g, stored), taken)
  }

  /**
   * The groups after `recover_keyed` replays the stored file `stored` and then the used
   * file `used` against them, or nothing when it raises: a group without records, an
   * entry naming a key that is no group, a read without a `,`, or too many reads.
   */
  function RecoverKeyedOf(groups: map<string, Group>, stored: seq<string>, used: seq<string>): (r: Option<map<string, Group>>)
    ensures r.Some? ==> r.value.Keys == groups.Keys
    ensures r.Some? ==> forall k :: k in groups ==> r.value[k].comments == groups[k].comments && r.value[k].idx == groups[k].idx
  {
    var ss, us := Entries(stored), Entries(used);
    if !AllHoldRecords(groups) || !Known(ss, groups) || !Known(us, groups) || !Splittable(us) then None
    else if exists k :: k in groups && GroupRecovered(groups[k], TextsFor(ss, k), ReadsFor(us, k)).None? then None
    else Some(map k | k in groups :: GroupRecovered(groups[k], TextsFor(ss, k), ReadsFor(us, k)).value)
  }

  /** The group tags in sorted order, as the tool walks them; below only which tags they are matters. */
  method GroupTags<T>(m: map<string, T>) returns (ks: seq<string>)
    ensures forall k :: k in ks <==> k in m
  {
    ks := KeysInOrder(m);
  }

  /** Checks, group by group in sorted order, that every group holds a record. */
  method CheckRecords(m: map<string, Group>) returns (ok: bool)
    ensures ok <==> AllHoldRecords(m)
  {
    var ks := GroupTags(m);
    for i := 0 to |ks|
      invariant forall j :: 0 <= j < i ==> m[ks[j]].data != []
    {
      if |m[ks[i]].data| == 0 {
        return false;
      }
    }
    ok := true;
  }

  /** What one more entry does to the lists: appends `x` to the list of the group it names. */
  function Appended(m: map<string, seq<string>>, key: string, x: string): map<string, seq<string>> {
    if key in m then m[key := m[key] + [x]] else m
  }

  lemma StoredStep(groups: map<string, Group>, es: seq<(string, string)>, e: (string, string), m: map<string, seq<string>>)
    requires m.Keys == groups.Keys && forall k :: k in groups ==> m[k] == TextsFor(es, k)
    ensures var m' := Appended(m, e.0, e.1);
      m'.Keys == groups.Keys && forall k :: k in groups ==> m'[k] == TextsFor(es + [e], k)
  {
    TextsForSnoc(es, e);
  }

  lemma ReadStep(groups: map<string, Group>, es: seq<(string, string)>, e: (string, string), m: map<string, seq<string>>)
    requires m.Keys == groups.Keys && forall k :: k in groups ==> m[k] == ReadsFor(es, k)
    ensures var m' := if e.1 != Exhausted then Appended(m, e.0, Head(e.1)) else m;
      m'.Keys == groups.Keys && forall k :: k in groups ==> m'[k] == ReadsFor(es + [e], k)
  {
    ReadsForSnoc(es, e);
  }

  /** Goes through the entries of the stored file: each entry's text goes to the list of the group it names. */
  method CollectStored(groups: map<string, Group>, es: seq<(string, string)>) returns (lists: Option<map<string, seq<string>>>)
    ensures lists.Some? <==> Known(es, groups)
    ensures lists.Some? ==> lists.value.Keys == groups.Keys
    ensures lists.Some? ==> forall k :: k in groups ==> lists.value[k] == TextsFor(es, k)
  {
    var none: seq<string> := [];
    var m := map k | k in groups :: none;
    for i := 0 to |es|
      invariant m.Keys == groups.Keys && Known(es[..i], groups)
      invariant forall k :: k in groups ==> m[k] == TextsFor(es[..i], k)
    {
      var e := es[i];
      if e.0 !in groups {
        return None;
      }
      KnownSnoc(es[..i], e, groups);
      StoredStep(groups, es[..i], e, m);
      TakeOneMore(es, i);
      m := Appended(m, e.0, e.1);
    }
    assert es[..|es|] == es;
    lists := Some(m);
  }

  /** Goes through the entries of the used file: each read other than an exhausted token goes, up to its first `,`, to its group's list. */
  method CollectReads(groups: map<string, Group>, es: seq<(string, string)>) returns (lists: Option<map<string, seq<string>>>)
    ensures lists.Some? <==> Known(es, groups) && Splittable(es)
    ensures lists.Some? ==> lists.value.Keys == groups.Keys
    ensures lists.Some? ==> forall k :: k in groups ==> lists.value[k] == ReadsFor(es, k)
  {
    var none: seq<string> := [];
    var m := map k | k in groups :: none;
    for i := 0 to |es|
      invariant m.Keys == groups.Keys && Known(es[..i], groups) && Splittable(es[..i])
      invariant forall k :: k in groups ==> m[k] == ReadsFor(es[..i], k)
    {
      var e := es[i];
      if e.0 !in groups || (e.1 != Exhausted && ',' !in e.1) {
        return None;
      }
      KnownSnoc(es[..i], e, groups);
      SplittableSnoc(es[..i], e);
      ReadStep(groups, es[..i], e, m);
      TakeOneMore(es, i);
      if e.1 != Exhausted {
        m := Appended(m, e.0, Head(e.1));
      }
    }
    assert es[..|es|] == es;
    lists := Some(m);
  }

  /** Replays the stored records of every group, in sorted order. */
  method ReplayAll(groups: map<string, Group>, lists: map<string, seq<string>>) returns (m: map<string, Group>)
    requires AllHoldRecords(groups) && groups.Keys <= lists.Keys
    ensures m.Keys == groups.Keys && forall k :: k in groups ==> m[k] == Replayed(groups[k], lists[k])
  {
    var ks := GroupTags(groups);
    m := map[];
    for i := 0 to |ks|
      invariant forall k :: k in m <==> k in ks[..i]
      invariant forall k :: k in m ==> k in groups && m[k] == Replayed(groups[k], lists[k])
    {
      var k := ks[i];
      var g := groups[k];
      var newer := NewerOf(lists[k], g.data[|g.data| - 1]);
      var r := g.(data := g.data + newer);
      assert r == Replayed(g, lists[k]);
      TakeOneMore(ks, i);
      m := m[k := r];
    }
    assert ks[..|ks|] == ks;
  }

  /** Drops the used records of every group, in sorted order. */
  method PruneAll(groups: map<string, Group>, lists: map<string, seq<string>>) returns (r: Option<map<string, Group>>)
    requires groups.Keys <= lists.Keys
    ensures r.Some? <==> forall k :: k in groups ==> Pruned(groups[k], lists[k]).Some?
    ensures r.Some? ==> r.value.Keys == groups.Keys && forall k :: k in groups ==> r.value[k] == Pruned(groups[k], lists[k]).value
  {
    var ks := GroupTags(groups);
    var m := map[];
    for i := 0 to |ks|
      invariant forall k :: k in m <==> k in ks[..i]
      invariant forall k :: k in m ==> k in groups && Pruned(groups[k], lists[k]) == Some(m[k])
    {
      var k := ks[i];
      var g := PruneGroup(groups[k], lists[k]);
      if g.None? {
        return None;
      }
      TakeOneMore(ks, i);
      m := m[k := g.value];
    }
    assert ks[..|ks|] == ks;
    r := Some(m);
  }

  // ----------------------------------------------------------------------------------------
  // Counters and barcode series: the largest number logged

  /** The token GETKS logs for a key the source does not hold. */
  const NoValidKey := "*NO*VALID*KEY*"

  /** The bad-group token, which recovery also skips. */
  const BadGroupToken := "*BAD*GROUP*"

  /** How the text of an entry is read as a number. */
  datatype Reader =
    | Numbers                          // a counter value GETKS handed out, the two tokens skipped
    | Digits                           // a text of decimal digits only
    | Identifiers(series: BarcodeGroup)  // an identifier of the series, read as its serial

  /**
   * The serial an identifier of series `b` carries: the prefix, the digits of the
   * number, one check character and the country, the number being the range times a
   * million plus the serial.
   */
  function SerialOf(b: BarcodeGroup, id: string): Option<int> {
    var p, c := b.prefix, b.country;
    if |id| < |p| + |c| + 2 || id[..|p|] != p || id[|id| - |c|..] != c then None
    else
      var digits := id[|p|..|id| - |c| - 1];
      match ParseInt(digits)
      case None => None
      case Some(n) => if AllDigits(digits) then Some(n - b.range * 1000000) else None
  }

  /** The identifier GETB hands out for a series reads back as the serial it was issued at. */
  lemma SerialOfIdentifier(b: BarcodeGroup)
    requires SerialNumber(b) >= 0
    ensures SerialOf(b, IdentifierOf(b).value) == Some(b.serial)
  {
    IdentifierParts(b);
    var d := Pad8(SerialNumber(b));
    SerialOfParts(b, d, DigitChar(CheckDigit(WeightedSum(d, 8))));
  }

  lemma SerialOfParts(b: BarcodeGroup, d: string, ch: char)
    requires d != [] && AllDigits(d) && ParseInt(d) == Some(SerialNumber(b))
    ensures SerialOf(b, b.prefix + d + [ch] + b.country) == Some(b.serial)
  {
    var id := b.prefix + d + [ch] + b.country;
    assert id[..|b.prefix|] == b.prefix;
    assert id[|id| - |b.country|..] == b.country;
    assert id[|b.prefix|..|id| - |b.country| - 1] == d;
  }

  function ValueOf(rd: Reader, text: string): Option<int> {
    match rd
    case Numbers => if text == NoValidKey || text == BadGroupToken then None else ParseInt(text)
    case Digits => if text != [] && AllDigits(text) then ParseInt(text) else None
    case Identifiers(b) => SerialOf(b, text)
  }

  /** The numbers read from the entries naming `key`, in order. */
  function Logged(es: seq<(string, string)>, key: string, rd: Reader): (r: seq<int>)
    ensures |r| <= |es|
  {
    if es == [] then []
    else
      var e := es[|es| - 1];
      var v := ValueOf(rd, e.1);
      Logged(es[..|es| - 1], key, rd) + (if e.0 == key && v.Some? then [v.value] else [])
  }

  lemma LoggedSnoc(es: seq<(string, string)>, e: (string, string), key: string, rd: Reader)
    ensures var v := ValueOf(rd, e.1);
      Logged(es + [e], key, rd) == Logged(es, key, rd) + (if e.0 == key && v.Some? then [v.value] else [])
  {
    assert (es + [e])[..|es|] == es;
  }

  /** The largest of `n` and the numbers `vs`. */
  function Peak(n: int, vs: seq<int>): int {
    if vs == [] then n
    else
      var m := Peak(n, vs[..|vs| - 1]);
      if vs[|vs| - 1] > m then vs[|vs| - 1] else m
  }

  lemma PeakSnoc(n: int, vs: seq<int>, v: int)
    ensures Peak(n, vs + [v]) == if v > Peak(n, vs) then v else Peak(n, vs)
  {
    assert (vs + [v])[..|vs|] == vs;
  }

  /** The peak is at least `n` and every number, and it is `n` or one of the numbers. */
  lemma {:induction false} PeakIsMax(n: int, vs: seq<int>)
    ensures Peak(n, vs) >= n && forall i :: 0 <= i < |vs| ==> vs[i] <= Peak(n, vs)
    ensures Peak(n, vs) == n || exists i :: 0 <= i < |vs| && Peak(n, vs) == vs[i]
    decreases |vs|
  {
    if vs != [] {
      var p := vs[..|vs| - 1];
      PeakIsMax(n, p);
      assert forall i :: 0 <= i < |p| ==> vs[i] == p[i];
      if Peak(n, p) != n {
        var i :| 0 <= i < |p| && Peak(n, p) == p[i];
        assert vs[i] == p[i];
      }
    }
  }

  /** Every text read as a counter value is a token or an integer; `int()` raises otherwise, whichever key it names. */
  predicate Countable(es: seq<(string, string)>) {
    forall i :: 0 <= i < |es| ==> es[i].1 == NoValidKey || es[i].1 == BadGroupToken || ParseInt(es[i].1).Some?
  }

  /**
   * The counters `recover_keyed_sequence` means to leave: each one raised past every
   * number handed out for its key, so that the next GETKS hands out a new number; a
   * text that is neither a token nor an integer raises.
   */
  function RecoverCountersOf(counters: map<string, int>, used: seq<string>): (r: Option<map<string, int>>)
    ensures r.Some? <==> Countable(Entries(used))
    ensures r.Some? ==> r.value.Keys == counters.Keys
  {
    var es := Entries(used);
    if !Countable(es) then None
    else Some(map k | k in counters :: Peak(counters[k] - 1, Logged(es, k, Numbers)) + 1)
  }

  /**
   * A recovered counter is at least the counter loaded, lies past every number handed
   * out for its key, and is the loaded counter or one past such a number.
   */
  lemma CountersResume(counters: map<string, int>, used: seq<string>, key: string)
    requires RecoverCountersOf(counters, used).Some? && key in counters
    ensures var c := RecoverCountersOf(counters, used).value[key]; var vs := Logged(Entries(used), key, Numbers);
      && c >= counters[key] && (forall i :: 0 <= i < |vs| ==> vs[i] < c)
      && (c == counters[key] || exists i :: 0 <= i < |vs| && c == vs[i] + 1)
  {
    PeakIsMax(counters[key] - 1, Logged(Entries(used), key, Numbers));
  }

  /**
   * `recover_keyed_sequence` as written: a larger number than the counter stores back
   * the counter itself, `self.Data[group_tag] = value`.
   */
  function CountersAsWritten(counters: map<string, int>, es: seq<(string, string)>): (m: map<string, int>)
    ensures m.Keys == counters.Keys
  {
    if es == [] then counters
    else
      var m := CountersAsWritten(counters, es[..|es| - 1]);
      var e := es[|es| - 1];
      var v := ValueOf(Numbers, e.1);
      if e.0 in m && v.Some? && v.value > m[e.0] then m[e.0 := m[e.0]] else m
  }

  function RecoverCountersAsWritten(counters: map<string, int>, used: seq<string>): (r: Option<map<string, int>>)
    ensures r.Some? <==> Countable(Entries(used))
  {
    var es := Entries(used);
    if !Countable(es) then None else Some(CountersAsWritten(counters, es))
  }

  /** As written, the counters are never changed. */
  lemma {:induction false} AsWrittenKeepsCounters(counters: map<string, int>, es: seq<(string, string)>)
    ensures CountersAsWritten(counters, es) == counters
    decreases |es|
  {
    if es != [] {
      AsWrittenKeepsCounters(counters, es[..|es| - 1]);
    }
  }

  /**
   * The serials `recover_barcodes` means to recover: for each series, the largest
   * serial among the identifiers of that series logged under its key, starting from 0.
   * Lines of other texts are skipped.
   */
  function RecoveredSerials(codes: map<string, BarcodeGroup>, used: seq<string>): (r: map<string, int>)
    ensures r.Keys == codes.Keys
  {
    var es := Entries(used);
    map k | k in codes :: Peak(0, Logged(es, k, Identifiers(codes[k])))
  }

  /**
   * A recovered serial is at least 0 and every serial logged for its series, and is 0
   * or one of them.
   */
  lemma SerialsResume(codes: map<string, BarcodeGroup>, used: seq<string>, key: string)
    requires key in codes
    ensures var r := RecoveredSerials(codes, used)[key]; var vs := Logged(Entries(used), key, Identifiers(codes[key]));
      && r >= 0 && (forall i :: 0 <= i < |vs| ==> vs[i] <= r)
      && (r == 0 || exists i :: 0 <= i < |vs| && r == vs[i])
  {
    PeakIsMax(0, Logged(Entries(used), key, Identifiers(codes[key])));
  }

  /**
   * After GETB logs the identifier of series `b` under its key, recovery gives that
   * series at least the serial the identifier was issued at, so the file it writes
   * resumes at the serial the server moved on to or later.
   */
  lemma ResumesAfterIssue(codes: map<string, BarcodeGroup>, used: seq<string>, ts: string, key: string)
    requires key in codes && SerialNumber(codes[key]) >= 0
    requires AllDigits(ts) && ':' !in key && OneLine(key) && OneLine(IdentifierOf(codes[key]).value)
    ensures var after := used + [Verbs.KeyedAudit(ts, key, IdentifierOf(codes[key]).value)];
      RecoveredSerials(codes, after)[key] + 1 >= codes[key].serial + 1
  {
    var b := codes[key];
    var id := IdentifierOf(b).value;
    var after := used + [Verbs.KeyedAudit(ts, key, id)];
    EntriesOfAudit(used, ts, key, id);
    SerialOfIdentifier(b);
    LoggedSnoc(Entries(used), (key, id), key, Identifiers(b));
    var vs := Logged(Entries(after), key, Identifiers(b));
    assert vs[|vs| - 1] == b.serial;
    PeakIsMax(0, vs);
  }

  /**
   * Once GETKS has handed out `n` for a key and logged it, the recovered counter of that
   * key is past `n`, so the number is not handed out again.
   */
  lemma CounterResumesAfterIssue(counters: map<string, int>, used: seq<string>, ts: string, key: string, n: int)
    requires key in counters && AllDigits(ts) && ':' !in key && OneLine(key)
    requires RecoverCountersOf(counters, used + [Verbs.KeyedAudit(ts, key, IntToString(n))]).Some?
    ensures RecoverCountersOf(counters, used + [Verbs.KeyedAudit(ts, key, IntToString(n))]).value[key] > n
  {
    var text := IntToString(n);
    var after := used + [Verbs.KeyedAudit(ts, key, text)];
    IntToStringExcludes(n, '\r');
    IntToStringExcludes(n, '\n');
    IntToStringExcludes(n, '*');
    assert NoValidKey[0] == '*' && BadGroupToken[0] == '*';
    ParseIntOfIntToString(n);
    EntriesOfAudit(used, ts, key, text);
    LoggedSnoc(Entries(used), (key, text), key, Numbers);
    var vs := Logged(Entries(after), key, Numbers);
    assert vs[|vs| - 1] == n;
    CountersResume(counters, after, key);
  }

  /** A line the digits pattern matches raises when its key names no series or its digits are empty. */
  predicate DigitsReadable(es: seq<(string, string)>, codes: map<string, BarcodeGroup>) {
    forall i :: 0 <= i < |es| ==> AllDigits(es[i].1) ==> es[i].0 in codes && es[i].1 != []
  }

  /**
   * `recover_barcodes` as written: the pattern `[0-9]* - ([^:]*)::([0-9]*)$` takes only
   * texts of digits, so an identifier, which starts with its prefix, is never read.
   */
  function RecoverBarcodesAsWritten(codes: map<string, BarcodeGroup>, used: seq<string>): (r: Option<map<string, int>>)
    ensures r.Some? <==> DigitsReadable(Entries(used), codes)
    ensures r.Some? ==> r.value.Keys == codes.Keys
  {
    var es := Entries(used);
    if !DigitsReadable(es, codes) then None
    else Some(map k | k in codes :: Peak(0, Logged(es, k, Digits)))
  }

  /** One more entry raises the peak of a key's numbers to the number it carries, when that is larger. */
  lemma PeakStep(n: int, es: seq<(string, string)>, e: (string, string), key: string, rd: Reader)
    ensures var before := Peak(n, Logged(es, key, rd)); var v := ValueOf(rd, e.1);
      Peak(n, Logged(es + [e], key, rd)) == if e.0 == key && v.Some? && v.value > before then v.value else before
  {
    LoggedSnoc(es, e, key, rd);
    var v := ValueOf(rd, e.1);
    if e.0 == key && v.Some? {
      PeakSnoc(n, Logged(es, key, rd), v.value);
    } else {
      assert Logged(es, key, rd) + [] == Logged(es, key, rd);
    }
  }

  lemma CountableSnoc(es: seq<(string, string)>, e: (string, string))
    requires Countable(es) && (e.1 == NoValidKey || e.1 == BadGroupToken || ParseInt(e.1).Some?)
    ensures Countable(es + [e])
  {
    forall j | 0 <= j < |es| + 1
      ensures (es + [e])[j].1 == NoValidKey || (es + [e])[j].1 == BadGroupToken || ParseInt((es + [e])[j].1).Some?
    {
      if j < |es| {
        assert (es + [e])[j] == es[j];
      }
    }
  }

  /** Reads an audit file line by line, keeping the key and text of every line the pattern matches. */
  method ReadEntries(lines: seq<string>) returns (es: seq<(string, string)>)
    ensures es == Entries(lines)
  {
    es := [];
    for i := 0 to |lines|
      invariant es == Entries(lines[..i])
    {
      EntriesStep(lines, i);
      var found := ParseAudit(DropCrLf(lines[i]));
      if found.Some? {
        es := es + [found.value];
      }
    }
    assert lines[..|lines|] == lines;
  }

  /** What one more entry does to the counters: raises its key's counter past the number it carries. */
  function CountStep(m: map<string, int>, e: (string, string)): map<string, int> {
    var n := ValueOf(Numbers, e.1);
    if e.0 in m && n.Some? && n.value >= m[e.0] then m[e.0 := n.value + 1] else m
  }

  lemma CountStepKeeps(counters: map<string, int>, es: seq<(string, string)>, e: (string, string), m: map<string, int>)
    requires m.Keys == counters.Keys
    requires forall k :: k in counters ==> m[k] == Peak(counters[k] - 1, Logged(es, k, Numbers)) + 1
    ensures var m' := CountStep(m, e);
      m'.Keys == counters.Keys && forall k :: k in counters ==> m'[k] == Peak(counters[k] - 1, Logged(es + [e], k, Numbers)) + 1
  {
    forall k | k in counters ensures CountStep(m, e)[k] == Peak(counters[k] - 1, Logged(es + [e], k, Numbers)) + 1 {
      PeakStep(counters[k] - 1, es, e, k, Numbers);
    }
  }

  /**
   * Goes through the entries of the used file of a KeyedSequence source, raising the
   * counter of each key past every number handed out for it; a text that is neither a
   * token nor an integer raises.
   */
  method RaiseCounters(counters: map<string, int>, es: seq<(string, string)>) returns (r: Option<map<string, int>>)
    ensures r.Some? <==> Countable(es)
    ensures r.Some? ==> r.value.Keys == counters.Keys
    ensures r.Some? ==> forall k :: k in counters ==> r.value[k] == Peak(counters[k] - 1, Logged(es, k, Numbers)) + 1
  {
    var m := counters;
    for i := 0 to |es|
      invariant Countable(es[..i]) && m.Keys == counters.Keys
      invariant forall k :: k in counters ==> m[k] == Peak(counters[k] - 1, Logged(es[..i], k, Numbers)) + 1
    {
      var e := es[i];
      if e.1 != NoValidKey && e.1 != BadGroupToken && ParseInt(e.1).None? {
        return None;
      }
      CountableSnoc(es[..i], e);
      CountStepKeeps(counters, es[..i], e, m);
      TakeOneMore(es, i);
      m := CountStep(m, e);
    }
    assert es[..|es|] == es;
    r := Some(m);
  }

  /** What one more entry does to the recovered serials: raises its series' serial to the one it carries. */
  function SerialStep(codes: map<string, BarcodeGroup>, r: map<string, int>, e: (string, string)): map<string, int> {
    if e.0 in codes && e.0 in r then
      var n := SerialOf(codes[e.0], e.1);
      if n.Some? && n.value > r[e.0] then r[e.0 := n.value] else r
    else r
  }

  lemma SerialStepKeeps(codes: map<string, BarcodeGroup>, es: seq<(string, string)>, e: (string, string), r: map<string, int>)
    requires r.Keys == codes.Keys
    requires forall k :: k in codes ==> r[k] == Peak(0, Logged(es, k, Identifiers(codes[k])))
    ensures var r' := SerialStep(codes, r, e);
      r'.Keys == codes.Keys && forall k :: k in codes ==> r'[k] == Peak(0, Logged(es + [e], k, Identifiers(codes[k])))
  {
    forall k | k in codes ensures SerialStep(codes, r, e)[k] == Peak(0, Logged(es + [e], k, Identifiers(codes[k]))) {
      PeakStep(0, es, e, k, Identifiers(codes[k]));
    }
  }

  /**
   * Goes through the entries of the used file of a Barcodes source, keeping for each
   * series the largest serial among the identifiers logged for it, from 0.
   */
  method RecoverSerials(codes: map<string, BarcodeGroup>, es: seq<(string, string)>) returns (r: map<string, int>)
    ensures r.Keys == codes.Keys
    ensures forall k :: k in codes ==> r[k] == Peak(0, Logged(es, k, Identifiers(codes[k])))
  {
    r := map k | k in codes :: 0;
    for i := 0 to |es|
      invariant r.Keys == codes.Keys
      invariant forall k :: k in codes ==> r[k] == Peak(0, Logged(es[..i], k, Identifiers(codes[k])))
    {
      var e := es[i];
      SerialStepKeeps(codes, es[..i], e, r);
      TakeOneMore(es, i);
      r := SerialStep(codes, r, e);
    }
    assert es[..|es|] == es;
  }

  // ----------------------------------------------------------------------------------------
  // Whole recoveries

  /** The parts the keyed recovery computes, group by group, make up `RecoverKeyedOf`. */
  lemma RecoveredOfParts(groups: map<string, Group>, stored: seq<string>, used: seq<string>,
                         lists: map<string, seq<string>>, replayed: map<string, Group>,
                         taken: map<string, seq<string>>, r: Option<map<string, Group>>)
    requires AllHoldRecords(groups) && Known(Entries(stored), groups)
    requires Known(Entries(used), groups) && Splittable(Entries(used))
    requires lists.Keys == groups.Keys && forall k :: k in groups ==> lists[k] == TextsFor(Entries(stored), k)
    requires replayed.Keys == groups.Keys && forall k :: k in groups ==> replayed[k] == Replayed(groups[k], lists[k])
    requires taken.Keys == groups.Keys && forall k :: k in groups ==> taken[k] == ReadsFor(Entries(used), k)
    requires r.Some? <==> forall k :: k in replayed ==> Pruned(replayed[k], taken[k]).Some?
    requires r.Some? ==> r.value.Keys == replayed.Keys && forall k :: k in replayed ==> r.value[k] == Pruned(replayed[k], taken[k]).value
    ensures r == RecoverKeyedOf(groups, stored, used)
  {
    var ss, us := Entries(stored), Entries(used);
    forall k | k in groups
      ensures Pruned(replayed[k], taken[k]) == GroupRecovered(groups[k], TextsFor(ss, k), ReadsFor(us, k))
    {
    }
    if r.Some? {
      var m := map k | k in groups :: GroupRecovered(groups[k], TextsFor(ss, k), ReadsFor(us, k)).value;
      forall k | k in groups
        ensures r.value[k] == m[k]
      {
      }
      SameMaps(r.value, m);
    }
  }

  /**
   * `recover_keyed`: checks that every group holds a record, replays the stored file
   * and then the used file against the groups; nothing when it raises.
   */
  method RecoverGroups(groups: map<string, Group>, stored: seq<string>, used: seq<string>) returns (r: Option<map<string, Group>>)
    ensures r == RecoverKeyedOf(groups, stored, used)
  {
    var ok := CheckRecords(groups);
    if !ok {
      return None;
    }
    var ss := ReadEntries(stored);
    var lists := CollectStored(groups, ss);
    if lists.None? {
      return None;
    }
    var replayed := ReplayAll(groups, lists.value);
    var us := ReadEntries(used);
    var taken := CollectReads(groups, us);
    if taken.None? {
      return None;
    }
    r := PruneAll(replayed, taken.value);
    RecoveredOfParts(groups, stored, used, lists.value, replayed, taken.value, r);
  }

  /** `recover_keyed_sequence` as evidently intended: every counter raised past the numbers handed out for its key. */
  method RecoverCounters(counters: map<string, int>, used: seq<string>) returns (r: Option<map<string, int>>)
    ensures r == RecoverCountersOf(counters, used)
  {
    var es := ReadEntries(used);
    r := RaiseCounters(counters, es);
    if r.Some? {
      var c := map k | k in counters :: Peak(counters[k] - 1, Logged(es, k, Numbers)) + 1;
      forall k | k in counters
        ensures r.value[k] == c[k]
      {
      }
      SameMaps(r.value, c);
    }
  }

  /** `recover_barcodes` as evidently intended: the largest serial handed out in each series. */
  method RecoverSeries(codes: map<string, BarcodeGroup>, used: seq<string>) returns (r: map<string, int>)
    ensures r == RecoveredSerials(codes, used)
  {
    var es := ReadEntries(used);
    r := RecoverSerials(codes, es);
    SameMaps(r, map k | k in codes :: Peak(0, Logged(es, k, Identifiers(codes[k]))));
  }
}
