/**
 * The dispatcher: `process` splits a request `VERB|arg|...` on `|`, checks the number of
 * fields, resolves the numeric handle against the ordered list of sources, performs the
 * verb on that one source and answers with a reply string.
 *
 * A request whose verb raises is answered `*ERROR*` by the HTTP server and ends the
 * connection on the socket server. The shared client language is the server's only
 * other state; the marshalled attribute dictionaries of INIT and REG are kept as values.
 */
module Dispatch {
  import opened Wrappers
  import opened Text
  import opened Entities
  import opened Verbs
  import opened DataSource

  /** A request as `process` reads it. */
  datatype Request =
    | Init(language: string)
    | Register(name: string)
    | RegisterKeyed
    | RegisterIndexed
    | Next(handle: int)
    | KeyedSequenceNext(handle: int, key: string)
    | KeyedNext(handle: int, key: string)
    | RandomPick(handle: int, key: string)
    | Hash(handle: int, key: string)
    | Index(handle: int, index: Option<int>)
    | BarcodeNext(handle: int, key: string)
    | StoreRecord(handle: int, record: string)
    | StoreGrouped(handle: int, key: string, record: string)
    /** A known verb with the wrong number of fields. */
    | BadMessage
    /** A verb the server does not know. */
    | Unrecognised
    /** A request that raises while it is read: a missing argument, or a handle that is not an integer. */
    | Raising

  /** The requests that name a source by its handle. */
  predicate Addressed(r: Request) {
    r.Next? || r.KeyedSequenceNext? || r.KeyedNext? || r.RandomPick? || r.Hash? || r.Index? || r.BarcodeNext? || r.StoreRecord? || r.StoreGrouped?
  }

  /** The verbs of the protocol. */
  datatype Verb = INIT | REG | REGK | REGI | GETN | GETKS | GETK | GETKR | GETH | GETI | GETB | STOC | STOK

  /** The word that names a verb in a request. */
  function VerbWord(verb: Verb): string {
    match verb
    case INIT => "INIT"
    case REG => "REG"
    case REGK => "REGK"
    case REGI => "REGI"
    case GETN => "GETN"
    case GETKS => "GETKS"
    case GETK => "GETK"
    case GETKR => "GETKR"
    case GETH => "GETH"
    case GETI => "GETI"
    case GETB => "GETB"
    case STOC => "STOC"
    case STOK => "STOK"
  }

  /** The verb a word names on a server; the socket server knows neither GETKR nor GETB. */
  function VerbNamed(v: Variant, word: string): (r: Option<Verb>)
    ensures r.Some? ==> VerbWord(r.value) == word
    ensures v == Socket ==> r != Some(GETKR) && r != Some(GETB)
  {
    if word == "INIT" then Some(INIT)
    else if word == "REG" then Some(REG)
    else if word == "REGK" then Some(REGK)
    else if word == "REGI" then Some(REGI)
    else if word == "GETN" then Some(GETN)
    else if word == "GETKS" then Some(GETKS)
    else if word == "GETK" then Some(GETK)
    else if word == "GETKR" && v == Http then Some(GETKR)
    else if word == "GETH" then Some(GETH)
    else if word == "GETI" then Some(GETI)
    else if word == "GETB" && v == Http then Some(GETB)
    else if word == "STOC" then Some(STOC)
    else if word == "STOK" then Some(STOK)
    else None
  }

  /** Every verb a server knows is named by its own word. */
  lemma VerbNamedOfWord(v: Variant, verb: Verb)
    requires v == Socket ==> verb != GETKR && verb != GETB
    ensures VerbNamed(v, VerbWord(verb)) == Some(verb)
  {
  }

  /** The number of fields, verb included, that a verb other than INIT and REG requires. */
  function Arity(verb: Verb): nat {
    match verb
    case REGI => 2
    case GETN => 2
    case STOK => 4
    case _ => 3
  }

  /** The request a verb that names a source makes from its handle and fields. */
  function Addressing(verb: Verb, h: int, msg: seq<string>): (r: Request)
    requires verb !in {INIT, REG, REGK, REGI} && |msg| == Arity(verb)
    ensures Addressed(r) && r.handle == h
  {
    match verb
    case GETN => Next(h)
    case GETKS => KeyedSequenceNext(h, msg[2])
    case GETK => KeyedNext(h, msg[2])
    case GETKR => RandomPick(h, msg[2])
    case GETH => Hash(h, msg[2])
    case GETI => Index(h, ParseInt(msg[2]))
    case GETB => BarcodeNext(h, msg[2])
    case STOC => StoreRecord(h, msg[2])
    case STOK => StoreGrouped(h, msg[2], msg[3])
  }

  /**
   * Reads the fields of a request. INIT and REG read their first argument without
   * checking the field count; REG drops the CR and LF characters of the name. Every
   * other verb needs its exact number of fields, and the handle is read with `int()`.
   * GETH with the wrong number of fields raises: it logs the bad message by calling
   * `ERROR` with two arguments, and `ERROR` takes one.
   */
  function ReadFields(v: Variant, msg: seq<string>): (r: Request)
    requires |msg| >= 1
    ensures v == Socket ==> !r.RandomPick? && !r.BarcodeNext?
    ensures r.Register? ==> '\n' !in r.name && '\r' !in r.name
    ensures r.Init? || r.Register? || Addressed(r) ==> |msg| >= 2
    ensures Addressed(r) ==> ParseInt(msg[1]) == Some(r.handle)
    ensures r.Unrecognised? <==> VerbNamed(v, msg[0]).None?
    ensures r.BadMessage? <==> VerbNamed(v, msg[0]).Some? && VerbNamed(v, msg[0]).value !in {INIT, REG, GETH} && |msg| != Arity(VerbNamed(v, msg[0]).value)
    ensures VerbNamed(v, msg[0]) == Some(GETH) && |msg| != 3 ==> r.Raising?
  {
    match VerbNamed(v, msg[0])
    case None => Unrecognised
    case Some(verb) =>
      if verb == INIT then
        if |msg| >= 2 then Init(msg[1]) else Raising
      else if verb == REG then
        if |msg| >= 2 then Register(Remove(Remove(msg[1], '\n'), '\r')) else Raising
      else if |msg| != Arity(verb) then
        if verb == GETH then Raising else BadMessage
      else if verb == REGK then RegisterKeyed
      else if verb == REGI then RegisterIndexed
      else
        match ParseInt(msg[1])
        case None => Raising
        case Some(h) => Addressing(verb, h, msg)
  }

  /** `process` reads a request from its `|`-separated fields. */
  function Parse(v: Variant, s: string): (r: Request)
    ensures v == Socket ==> !r.RandomPick? && !r.BarcodeNext?
  {
    ReadFields(v, Split(s, '|'))
  }

  // ----------------------------------------------------------------------------------------
  // Writing requests: the client side of the protocol

  /** The requests a client can write so that the server reads them back as sent. */
  predicate Writable(r: Request) {
    match r
    case Init(language) => '|' !in language
    case Register(name) => '|' !in name && '\n' !in name && '\r' !in name
    case RegisterKeyed => true
    case RegisterIndexed => true
    case Next(_) => true
    case KeyedSequenceNext(_, key) => '|' !in key
    case KeyedNext(_, key) => '|' !in key
    case RandomPick(_, key) => '|' !in key
    case Hash(_, key) => '|' !in key
    case Index(_, _) => true
    case BarcodeNext(_, key) => '|' !in key
    case StoreRecord(_, record) => '|' !in record
    case StoreGrouped(_, key, record) => '|' !in key && '|' !in record
    case BadMessage => false
    case Unrecognised => false
    case Raising => false
  }

  /** The index field of GETI: the numeral, or an empty field for a missing index. */
  function IndexField(i: Option<int>): string {
    if i.Some? then IntToString(i.value) else ""
  }

  /** The verb of a writable request. */
  function VerbOf(r: Request): Verb
    requires Writable(r)
  {
    match r
    case Init(_) => INIT
    case Register(_) => REG
    case RegisterKeyed => REGK
    case RegisterIndexed => REGI
    case Next(_) => GETN
    case KeyedSequenceNext(_, _) => GETKS
    case KeyedNext(_, _) => GETK
    case RandomPick(_, _) => GETKR
    case Hash(_, _) => GETH
    case Index(_, _) => GETI
    case BarcodeNext(_, _) => GETB
    case StoreRecord(_, _) => STOC
    case StoreGrouped(_, _, _) => STOK
  }

  /** The argument fields of a writable request. */
  function Arguments(r: Request): seq<string>
    requires Writable(r)
  {
    match r
    case Init(language) => [language]
    case Register(name) => [name]
    case RegisterKeyed => ["", ""]
    case RegisterIndexed => [""]
    case Next(h) => [IntToString(h)]
    case KeyedSequenceNext(h, key) => [IntToString(h), key]
    case KeyedNext(h, key) => [IntToString(h), key]
    case RandomPick(h, key) => [IntToString(h), key]
    case Hash(h, key) => [IntToString(h), key]
    case Index(h, i) => [IntToString(h), IndexField(i)]
    case BarcodeNext(h, key) => [IntToString(h), key]
    case StoreRecord(h, record) => [IntToString(h), record]
    case StoreGrouped(h, key, record) => [IntToString(h), key, record]
  }

  /** The fields of a request, verb first. */
  function Fields(r: Request): (f: seq<string>)
    requires Writable(r)
    ensures |f| >= 1 && f[0] == VerbWord(VerbOf(r))
  {
    [VerbWord(VerbOf(r))] + Arguments(r)
  }

  /** The message a client sends for a request. */
  function Format(r: Request): string
    requires Writable(r)
  {
    Join(Fields(r), '|')
  }

  /** No argument of a writable request holds the separator. */
  lemma FieldsFree(r: Request)
    requires Writable(r)
    requires Addressed(r) ==> '|' !in IntToString(r.handle)
    requires r.Index? && r.index.Some? ==> '|' !in IntToString(r.index.value)
    ensures forall i :: 0 <= i < |Arguments(r)| ==> '|' !in Arguments(r)[i]
  {
  }

  /** The fields of a written request hold no separator, so the message splits back into them. */
  lemma FieldsSplit(r: Request)
    requires Writable(r)
    ensures Split(Format(r), '|') == Fields(r)
  {
    var f := Fields(r);
    if Addressed(r) {
      IntToStringExcludes(r.handle, '|');
      if r.Index? && r.index.Some? {
        IntToStringExcludes(r.index.value, '|');
      }
    }
    assert '|' !in VerbWord(VerbOf(r));
    FieldsFree(r);
    SplitJoin(f, '|');
  }

  /** The index field of GETI reads back as the index it was written from. */
  lemma IndexFieldReads(i: Option<int>)
    ensures ParseInt(IndexField(i)) == i
  {
    if i.Some? {
      ParseIntOfIntToString(i.value);
    } else {
      assert "" == Strip("");
    }
  }

  /** The fields of a written request that names a source make that request again. */
  lemma AddressingFields(r: Request)
    requires Writable(r) && Addressed(r)
    ensures VerbOf(r) !in {INIT, REG, REGK, REGI} && |Fields(r)| == Arity(VerbOf(r))
    ensures Addressing(VerbOf(r), r.handle, Fields(r)) == r
  {
    match r {
      case Next(h) =>
      case KeyedSequenceNext(h, key) =>
      case KeyedNext(h, key) =>
      case RandomPick(h, key) =>
      case Hash(h, key) =>
      case Index(h, i) =>
        IndexFieldReads(i);
      case BarcodeNext(h, key) =>
      case StoreRecord(h, record) =>
      case StoreGrouped(h, key, record) =>
    }
  }

  /** The server reads every writable request back as the one the client wrote. */
  lemma ParseFormat(v: Variant, r: Request)
    requires Writable(r)
    requires v == Socket ==> !r.RandomPick? && !r.BarcodeNext?
    ensures Parse(v, Format(r)) == r
  {
    FieldsSplit(r);
    var msg := Fields(r);
    var verb := VerbOf(r);
    VerbNamedOfWord(v, verb);
    assert VerbNamed(v, msg[0]) == Some(verb);
    if Addressed(r) {
      AddressingFields(r);
      ParseIntOfIntToString(r.handle);
      assert ParseInt(msg[1]) == Some(r.handle);
      assert ReadFields(v, msg) == Addressing(verb, r.handle, msg);
    }
  }

  // ----------------------------------------------------------------------------------------
  // Replies

  /** What a client receives. */
  datatype Reply =
    | Sent(text: string)
    /** REG for a Python client: the handle and the marshalled attributes of a source. */
    | Registered(handle: int, attributes: Attributes)
    /** INIT for a Python client: the marshalled server attributes, an empty dictionary. */
    | ServerAttributes
    /**
     * The request's handler ended on an exception outside the server's own `try`: the
     * socket server's client thread, or the HTTP handler. No reply is sent.
     */
    | Dropped

  /** The answer to a request that raised. */
  function Failed(v: Variant): (r: Reply)
    ensures r.Dropped? <==> v.Socket?
    ensures r.Sent? ==> r.text == "*ERROR*"
  {
    if v == Http then Sent("*ERROR*") else Dropped
  }

  /**
   * The answer to a verb's outcome. A reply that is not a string fails in the
   * transport, after `process` (`len` of it on the HTTP server, `send` of it on the
   * socket server), so no reply is sent on either server.
   */
  function Answer(v: Variant, o: Outcome): (r: Reply)
    ensures o.Done? ==> r == Sent(o.reply)
    ensures o.Unsent? ==> r == Dropped
    ensures o.Fault? ==> r == Failed(v)
  {
    match o
    case Done(reply, _) => Sent(reply)
    case Unsent(_) => Dropped
    case Fault => Failed(v)
  }

  /** The token for a handle that names no source. */
  function BadHandle(v: Variant, r: Request): (token: string)
    ensures v == Socket ==> token == "*BAD*SOURCE*INDEX*"
    ensures v == Http ==> token == if r.KeyedSequenceNext? || r.BarcodeNext? then "*BAD*SOURCE*INDEX*" else "*BAD*HANDLE*"
  {
    if v == Socket || r.KeyedSequenceNext? || r.BarcodeNext? then "*BAD*SOURCE*INDEX*" else "*BAD*HANDLE*"
  }

  /** The position of the first source called `name`, or -1. */
  function IndexOf(names: seq<string>, name: string): (r: int)
    ensures -1 <= r < |names|
    ensures r >= 0 ==> names[r] == name && forall j :: 0 <= j < r ==> names[j] != name
    ensures r == -1 <==> forall j :: 0 <= j < |names| ==> names[j] != name
    decreases |names|
  {
    if names == [] then -1
    else if names[0] == name then 0
    else
      var k := IndexOf(names[1..], name);
      if k == -1 then -1 else k + 1
  }

  /**
   * What a request that names no source does: its reply and the client language after
   * it. REG answers with the position of the first source of that name; a Python client
   * also gets the attributes of the source under that position as a Python index, so
   * -1 names the last source, and an empty list of sources raises.
   */
  function Control(v: Variant, r: Request, language: Option<string>, names: seq<string>, attributes: seq<Attributes>): (a: (Reply, Option<string>))
    requires !Addressed(r) && |names| == |attributes|
    ensures r.Init? ==> a.1 == Some(r.language)
    ensures !r.Init? ==> a.1 == language
    ensures r.Register? && language != Some("Python") ==> a.0 == Sent(IntToString(IndexOf(names, r.name)))
    ensures r.Register? && language == Some("Python") && names != [] ==> a.0.Registered? && a.0.handle == IndexOf(names, r.name)
  {
    match r
    case Init(l) => (if l == "Python" then ServerAttributes else Sent("0"), Some(l))
    case Register(name) =>
      var h := IndexOf(names, name);
      if language == Some("Python") then
        match PyIndex(|names|, h)
        case None => (Failed(v), language)
        case Some(j) => (Registered(h, attributes[j]), language)
      else (Sent(IntToString(h)), language)
    case RegisterKeyed => (Sent(if v == Http then "*OK*" else "0"), language)
    case RegisterIndexed => (Sent(if v == Http then "*OK*" else "0"), language)
    case BadMessage => (Sent("*BAD*MESSAGE*"), language)
    case Unrecognised => (Sent("None"), language)
    case Raising => (Failed(v), language)
  }

  /** What a request that names a source does to that source. GETN relies on the payload shape of a sound source. */
  function Serve(v: Variant, t: SourceType, r: Request, st: Store, ts: string, pick: nat): (o: Outcome)
    requires Addressed(r) && Sound(v, t, st)
  {
    NextKeepsSound(v, t, ts, st);
    match r
    case Next(_) => GetNext(v, t, ts, st)
    case KeyedSequenceNext(_, key) => GetKeyedSequence(v, ts, st, key)
    case KeyedNext(_, key) => GetKeyed(v, ts, st, key)
    case RandomPick(_, key) => GetRandom(ts, st, key, pick)
    case Hash(_, key) => GetHashed(ts, st, key)
    case Index(_, i) => GetIndexed(v, ts, st, i)
    case BarcodeNext(_, key) => GetBarcode(ts, st, key)
    case StoreRecord(_, record) => StoreCsv(v, ts, st, record)
    case StoreGrouped(_, key, record) => StoreKeyed(ts, st, key, record)
  }

  /** A read verb adds one line to the source's `.used` stream and none to its `.stored` one. */
  lemma ReadIsAudited(v: Variant, t: SourceType, r: Request, st: Store, ts: string, pick: nat)
    requires Addressed(r) && !r.StoreRecord? && !r.StoreGrouped? && Sound(v, t, st)
    ensures var o := Serve(v, t, r, st, ts, pick);
      !o.Fault? ==> |o.after.used| == |st.used| + 1 && o.after.used[..|st.used|] == st.used && o.after.stored == st.stored
  {
    var o := Serve(v, t, r, st, ts, pick);
    if !o.Fault? {
      assert (st.used + [o.after.used[|st.used|]])[..|st.used|] == st.used;
    }
  }

  /** A store verb adds one line to the source's `.stored` stream and none to its `.used` one, and answers 1. */
  lemma StoreIsAudited(v: Variant, t: SourceType, r: Request, st: Store, ts: string, pick: nat)
    requires (r.StoreRecord? || r.StoreGrouped?) && Sound(v, t, st)
    ensures var o := Serve(v, t, r, st, ts, pick);
      o.Done? ==> o.reply == "1" && |o.after.stored| == |st.stored| + 1 && o.after.stored[..|st.stored|] == st.stored && o.after.used == st.used
  {
    var o := Serve(v, t, r, st, ts, pick);
    if o.Done? {
      assert (st.stored + [o.after.stored[|st.stored|]])[..|st.stored|] == st.stored;
    }
  }

  /** Does to the source what `Serve` says. */
  method Apply(src: Source, r: Request, ts: string, pick: nat) returns (reply: Returned)
    requires src.Valid() && Addressed(r)
    requires r.BarcodeNext? ==> src.variant == Http
    modifies src
    ensures src.Valid()
    ensures var o := Serve(src.variant, src.kind, r, old(src.Model()), ts, pick);
      reply == ReplyOf(o) && src.Model() == StateAfter(o, old(src.Model()))
  {
    match r {
      case Next(_) =>
        reply := src.Next(ts);
      case KeyedSequenceNext(_, key) =>
        reply := src.KeyedSequenceNext(ts, key);
      case KeyedNext(_, key) =>
        reply := src.KeyedNext(ts, key);
      case RandomPick(_, key) =>
        reply := src.RandomPick(ts, key, pick);
      case Hash(_, key) =>
        reply := src.Hash(ts, key);
      case Index(_, i) =>
        reply := src.Index(ts, i);
      case BarcodeNext(_, key) =>
        reply := src.Barcode(ts, key);
      case StoreRecord(_, record) =>
        reply := src.StoreRecord(ts, record);
      case StoreGrouped(_, key, record) =>
        reply := src.StoreGrouped(ts, key, record);
    }
  }

  // ----------------------------------------------------------------------------------------
  // The server

  class Server {
    const variant: Variant
    /** The sources in configuration order; a handle is a position in this list. */
    var sources: seq<Source>
    /** The language the last INIT named, shared by every client. */
    var language: Option<string>

    /** The sources are distinct objects, each a sound source of this server's kind. */
    ghost predicate Valid()
      reads this, sources
    {
      && (forall i, j :: 0 <= i < j < |sources| ==> sources[i] != sources[j])
      && (forall i :: 0 <= i < |sources| ==> sources[i].variant == variant && sources[i].Valid())
    }

    function Names(): (names: seq<string>)
      reads this
      ensures |names| == |sources| && forall i :: 0 <= i < |sources| ==> names[i] == sources[i].name
    {
      var ss := sources;
      seq(|ss|, i requires 0 <= i < |ss| => ss[i].name)
    }

    function AttributeList(): (attributes: seq<Attributes>)
      reads this
      ensures |attributes| == |sources| && forall i :: 0 <= i < |sources| ==> attributes[i] == sources[i].attributes
    {
      var ss := sources;
      seq(|ss|, i requires 0 <= i < |ss| => ss[i].attributes)
    }

    constructor (v: Variant, loaded: seq<Source>)
      requires forall i, j :: 0 <= i < j < |loaded| ==> loaded[i] != loaded[j]
      requires forall i :: 0 <= i < |loaded| ==> loaded[i].variant == v && loaded[i].Valid()
      ensures variant == v && sources == loaded && language == None && Valid()
    {
      variant := v;
      sources := loaded;
      language := None;
    }

    /** `get_source_index`: the first position whose source has the name, or -1. */
    method GetSourceIndex(name: string) returns (i: int)
      ensures i == IndexOf(Names(), name)
    {
      var k := 0;
      while k < |sources|
        invariant 0 <= k <= |sources|
        invariant forall j :: 0 <= j < k ==> sources[j].name != name
      {
        if sources[k].name == name {
          return k;
        }
        k := k + 1;
      }
      return -1;
    }

    /** REG: the handle of a source, with its attributes for a Python client. */
    method Reg(name: string) returns (reply: Reply)
      ensures reply == Control(variant, Register(name), language, Names(), AttributeList()).0
    {
      var h := GetSourceIndex(name);
      if language == Some("Python") {
        var j := PyIndex(|sources|, h);
        if j.None? {
          reply := Failed(variant);
        } else {
          reply := Registered(h, sources[j.value].attributes);
        }
      } else {
        reply := Sent(IntToString(h));
      }
    }

    /**
     * `process`: reads the request, and either answers it from the server's own state
     * or performs it on the one source its handle names. A handle outside the list gets
     * the bad-handle token and changes nothing. The timestamp `ts` and the random
     * choice `pick` of GETKR are parameters.
     */
    method Process(s: string, ts: string, pick: nat) returns (reply: Reply)
      requires Valid()
      modifies this, sources
      ensures Valid() && sources == old(sources)
      ensures var r := Parse(variant, s);
        !Addressed(r) ==> (reply, language) == Control(variant, r, old(language), Names(), AttributeList()) && unchanged(sources)
      ensures var r := Parse(variant, s);
        Addressed(r) && !(0 <= r.handle < |sources|) ==> reply == Sent(BadHandle(variant, r)) && language == old(language) && unchanged(sources)
      ensures var r := Parse(variant, s);
        Addressed(r) && 0 <= r.handle < |sources| ==>
          var o := Serve(variant, sources[r.handle].kind, r, old(sources[r.handle].Model()), ts, pick);
          && reply == Answer(variant, o) && language == old(language)
          && sources[r.handle].Model() == StateAfter(o, old(sources[r.handle].Model()))
          && forall i :: 0 <= i < |sources| && i != r.handle ==> sources[i].Model() == old(sources[i].Model())
    {
      var r := Parse(variant, s);
      if !Addressed(r) {
        match r {
          case Init(l) =>
            language := Some(l);
            reply := if l == "Python" then ServerAttributes else Sent("0");
          case Register(name) =>
            reply := Reg(name);
          case RegisterKeyed =>
            reply := Sent(if variant == Http then "*OK*" else "0");
          case RegisterIndexed =>
            reply := Sent(if variant == Http then "*OK*" else "0");
          case BadMessage =>
            reply := Sent("*BAD*MESSAGE*");
          case Unrecognised =>
            reply := Sent("None");
          case Raising =>
            reply := Failed(variant);
        }
      } else if !(0 <= r.handle < |sources|) {
        reply := Sent(BadHandle(variant, r));
      } else {
        var src := sources[r.handle];
        var o := Apply(src, r, ts, pick);
        match o {
          case Text(text) => reply := Sent(text);
          case Unsendable => reply := Dropped;
          case Raised => reply := Failed(variant);
        }
      }
    }
  }
}
