/**
 * What a source answers straight after the server has read its file: the loaders of
 * `Loading` and the verbs of `Dispatch` put together.
 */
module FileServing {
  import opened Wrappers
  import opened Text
  import opened Entities
  import opened Verbs
  import opened Loading
  import opened Dispatch

  /**
   * GETI on a freshly loaded Indexed source answers with the value line at that position
   * of its file, or the out-of-range token past the last one; the records stay as read.
   */
  lemma IndexedFileServed(v: Variant, cfg: Config, lines: seq<string>, h: int, i: int, ts: string, pick: nat)
    requires Load(v, Indexed, cfg, lines).Some?
    ensures var vs := Values(Cleaned(Stripped, lines));
      var st := Fresh(Load(v, Indexed, cfg, lines).value);
      var o := Serve(v, Indexed, Index(h, Some(i)), st, ts, pick);
      && o.Done? && o.after.data == Rows(vs)
      && (0 <= i < |vs| ==> Answer(v, o) == Sent(vs[i]))
      && (i >= |vs| ==> Answer(v, o) == Sent(if v == Http then "*OUT*OF*RANGE*" else "*INVALID*INDEX*"))
  {
    var st := Fresh(Load(v, Indexed, cfg, lines).value);
    IndexedLookup(v, ts, st, i);
  }

  /**
   * On the HTTP server a Sequence file without a value line makes an unset source, and
   * GETN on such a source would raise and be answered `*ERROR*`. The server never
   * serves it: printing the new source at start-up raises first.
   */
  lemma UnsetSequenceErrors(cfg: Config, lines: seq<string>, h: int, ts: string, pick: nat)
    requires forall i :: 0 <= i < |lines| ==> !IsValue(Strip(lines[i]))
    ensures var l := Load(Http, Sequence, cfg, lines);
      && l.Some? && l.value.data.Unset?
      && Answer(Http, Serve(Http, Sequence, Next(h), Fresh(l.value), ts, pick)) == Sent("*ERROR*")
  {
    NoValueLine(Http, Sequence, cfg, lines);
  }
}
