# Data-source servers and their recovery tool, modelled in Dafny

The repository serves test data to load-generating clients. A server reads a
configuration of named **sources**. Each source has a type and a `.dat` file. The
server loads every source into memory, then answers `|`-separated requests over
the network:

- `INIT` and `REG` set the client language and look sources up by name;
- `GETN`, `GETK`, `GETKS`, `GETKR`, `GETH`, `GETI` and `GETB` read;
- `STOC` and `STOK` store.

Every read is appended to the source's `.used` audit file and every store to its
`.stored` file, as a line `timestamp - key::text` (or `timestamp - text`). At
shutdown each source writes its contents back to its file (**flush**). After a
crash, the **recovery tool** replays the audit files against the last flushed
`.dat` files and writes `.rec` files that a server can load again.

There are two servers:

- `Http` is the HTTP server, bin/dshttpd.py;
- `Socket` is the socket server, bin/dserver.py.

They share one data model. A `Variant` parameter carries their differences: the
reply tokens, the range check of `GETI`, `GETKS` on a table, the start of an
Indexer, the Counter default, the verbs each knows, and the `Size` attribute.

The model is split into these modules:

- **Text** models the string built-ins the code relies on: `strip`, `split`,
  `replace`, `int()`, `"%d"` and `"%08d"`, and the sorted key order of a
  dictionary.
- **Entities** holds the source types, the `Group` and `BarcodeGroup` values, the
  configuration attributes and the `Store`, which is what a source holds. It also
  holds the soundness invariant every source keeps.
- **Loading** holds every `init_*` reader as a function over the file's lines and
  as a method with a loop proved against that function.
- **Flushing** holds every `flush_*` writer as a spec function (`FlushOf`) and as
  methods that build the lines. The read-back lemmas prove that loading a
  flushed file gives the source back.
- **Barcode** holds the GETB identifier and its weighted mod-11 check digit, plus
  the loop that computes it.
- **Verbs** holds every verb as a function from a source's state to an outcome: a
  reply and the new state, `Fault` when the Python code raises before it changes
  anything, or `Unsent` when the verb logs its reply and the server then fails to
  send it, because the reply is not a string. Lemmas here
  cover runs of requests, soundness and the order in which records are handed out.
- **DataSource** has the `Source` class. Its methods update the fields in place
  and are proved to leave the state the `Verbs` function describes.
- **Dispatch** covers parsing, `process` and `get_source_index`. It has a
  `Server` class over a sequence of `Source` objects, and a lemma
  that a request written by a client is read back as sent.
- **Recovery** covers the audit-line pattern and the replay of the stored and used
  files for Keyed, KeyedSequence and Barcodes sources. Each is a spec function
  and a loop method.
- **RecoveryTool** covers the tool's `Source` class, its `init`, `list_*`,
  `recover_*` and `flush_*(recover=True)` methods, and the per-type drivers. It
  also proves that a recovered file loads back in the HTTP server.
- **FileServing** puts the two together: what a source answers straight after its
  file is loaded.
- **Findings** holds the discrepancies listed below.

## Model

| member | source | states |
|---|---|---|
| Text.Strip | bin/dshttpd.py:465 | the result has no white space at either end, and a string already without any is left alone |
| Text.Remove | bin/dshttpd.py:586 | the character no longer occurs, nothing new appears, and a string without it is unchanged |
| Text.DropCrLf | bin/dshttpd.py:1076 | no CR or LF survives, and a line without them is unchanged |
| Text.Split | bin/dshttpd.py:1059 | at least one part, no part holds the separator, and a string without it is one part |
| Text.JoinSplit | bin/dshttpd.py:1059 | joining the parts of a split with the separator gives the string back |
| Text.SplitJoin | bin/dshttpd.py:1059 | splitting a join of separator-free parts gives the parts back |
| Text.SplitOnce | bin/recover.py:506 | `split(',', 1)`: nothing exactly when the separator is absent, else the part before its first occurrence and the rest, which rebuild the string |
| Text.NatToString | bin/dshttpd.py:1326 | a nonempty digit string with no leading zero whose value is the number |
| Text.ParseInt | bin/dshttpd.py:510-513 | a string that `int()` accepts is not blank after stripping; white space may follow the sign |
| Text.ParseIntOfIntToString | bin/dshttpd.py:1101 | `int("%d" % n) == n` for every integer |
| Text.SpaceAfterSign | bin/dshttpd.py:510-513 | `int("- 5")` is -5 and `int("+ 7")` is 7 |
| Text.Pad8 | bin/dshttpd.py:1308 | `"%08d"`: digits only, at least eight of them |
| Text.ParseIntOfPad8 | bin/dshttpd.py:1308 | the zero-padded numeral reads back as the number |
| Text.LessTotal | bin/dshttpd.py:861 | the key order of `sort()` relates every two distinct keys |
| Text.LessTransitive | bin/dshttpd.py:861 | the key order is transitive |
| Text.KeysInOrder | bin/dshttpd.py:859-861 | the keys of a map, computed by repeatedly taking the least, are exactly `SortedKeys` of the map's keys |
| Entities.TypeNamed | bin/dshttpd.py:352-392 | a type is selected only by its own name, and the socket server never selects `Barcodes` |
| Entities.TypeNamedOfTypeName | bin/dserver.py:187-216 | every type's name selects it, except `Barcodes` on the socket server |
| Entities.NewGroup | bin/dshttpd.py:262-266 | a new group has no records, no comments, and its cursor at 0 |
| Entities.Remaining | bin/dshttpd.py:897-901 | the records from the cursor on, element by element |
| Entities.SeriesOfName | bin/dshttpd.py:293-300 | a series key is read only when it splits on `-` into three parts with an integer middle part, and then gives those parts |
| Entities.SeriesOfNameOfParts | bin/dshttpd.py:293-300 | a key written from a prefix, range and country reads back as those parts |
| Entities.NewBarcodeGroup | bin/recover.py:98-105 | a series is built exactly when its key reads, with the key's parts and the given serial |
| Entities.DelimiterOf | bin/dshttpd.py:340-347 | the configured delimiter, else `,` |
| Entities.TagDelimiterOf | bin/dshttpd.py:358-361 | the configured tag delimiter, else `:` |
| Entities.AttributesOf | bin/dshttpd.py:400-405 | type and delimiter as configured; `Size` is the load flag on the HTTP server and `len(Data)` on the socket server (bin/dserver.py:225-230) |
| Barcode.CheckDigit | bin/dshttpd.py:1315-1324 | a check digit below 10: 5 for remainder 0, 0 for remainder 1, and otherwise the digit that makes sum plus digit a multiple of 11 |
| Barcode.IdentifierOf | bin/dshttpd.py:1306-1326 | an identifier exists exactly when `Range * 1000000 + Serial` is not negative |
| Barcode.IdentifierParts | bin/dshttpd.py:1306-1326 | the identifier is prefix, padded number, the check digit of its first eight digits, and country; the padded digits read back as the number |
| Barcode.Identify | bin/dshttpd.py:1306-1326 | the weighted-sum loop over the eight factors computes exactly `IdentifierOf` |
| Barcode.EightDigitsSum | bin/dshttpd.py:118 | the weighted sum uses the factors 8, 6, 4, 2, 3, 5, 9, 7 in that order |
| Barcode.IdentifierOfNumeral | bin/dshttpd.py:1306-1326 | for an eight-digit number the identifier embeds the numeral itself |
| Barcode.FirstExampleIdentifier | bin/recover.py:389 | series EE-16-AU at serial 56796 gives EE160567961AU |
| Barcode.SecondExampleIdentifier | bin/recover.py:390 | the next serial gives EE160567975AU |
| Verbs.Logged | bin/dshttpd.py:1125-1126 | appending a line to the `.used` stream changes nothing else |
| Verbs.Kept | bin/dshttpd.py:1359-1360 | appending a line to the `.stored` stream changes neither the payload nor the `.used` stream |
| Verbs.GetNext | bin/dshttpd.py:1099-1131 | GETN raises exactly on a Sequence source left unset (`"%d" % None`); otherwise it answers, logs exactly its reply, and keeps the payload shape it needs |
| Verbs.NextKeepsSound | bin/dshttpd.py:1099-1131 | GETN on a sound source finds its payload shape and leaves the source sound |
| Verbs.CsvRun | bin/dshttpd.py:1109-1114 | a CSV source hands out its records in file order from its cursor, each once, then `*Exhausted*` for ever |
| Verbs.SequenceRun | bin/dshttpd.py:1115-1117 | a Sequence or Indexer source hands out consecutive numbers from its current one |
| Verbs.CounterRun | bin/dshttpd.py:1118-1119 | a Counter hands out the same number on every GETN |
| Verbs.NextRun | bin/dshttpd.py:1099-1131 | `n` GETN requests give `n` replies, each logged in order, and change neither stored lines nor comments |
| Verbs.GetKeyedSequence | bin/dshttpd.py:1133-1158 | GETKS logs its reply and keeps the key set; on the HTTP server it replies with the key's counter and adds one to it, answers `*NO*VALID*KEY*` for a missing key, and raises exactly for a non-dictionary or a held key whose value is not a counter; on the socket server (bin/dserver.py:890-921) it raises exactly for a held key and otherwise answers `*INVALID*GROUP*` |
| Verbs.KeyedSequenceKeepsSound | bin/dshttpd.py:1133-1158 | GETKS leaves a sound source sound |
| Verbs.KeyedSequenceRun | bin/dshttpd.py:1133-1158 | at most `n` replies for `n` GETKS requests |
| Verbs.KeyedSequenceCounts | bin/dshttpd.py:1143-1146 | on the HTTP server `n` GETKS requests for a key reply with its counter `c`, `c + 1`, ..., `c + n - 1`, and leave it at `c + n` with every other key unchanged |
| Verbs.KeyedSequenceFrom | bin/dshttpd.py:1143-1146 | the same, for a counter standing at any `c` |
| Verbs.KeyedSequenceStep | bin/dshttpd.py:1143-1146 | the first GETKS of a run replies with the counter, adds one to it, and the run goes on from there |
| Verbs.PyIndex | bin/dshttpd.py:1177-1178 | Python list indexing: defined exactly for `-n <= i < n`, and a negative index counts from the end |
| Verbs.GetKeyed | bin/dshttpd.py:1160-1193 | GETK raises exactly when the name is a key whose value is not a readable group; a name that is no key gets the bad-group token; otherwise it logs its reply, moves only that group's cursor on by one up to the end, and replies with the record under the cursor or the exhausted token |
| Verbs.KeyedKeepsSound | bin/dshttpd.py:1160-1193 | GETK never reads below the records of a sound source and leaves it sound |
| Verbs.KeyedStep | bin/dshttpd.py:1160-1193 | the first GETK of a run on an in-range group replies with the record under the cursor and moves the cursor by one |
| Verbs.KeyedRunOrder | bin/dshttpd.py:1160-1193 | a group hands out its records in order from its cursor, each once, then the exhausted token for ever |
| Verbs.GetRandom | bin/dshttpd.py:1195-1230 | GETKR only logs; it raises exactly for a key whose value is not a group; from a nonempty group its reply is one of the group's records |
| Verbs.RandomReachesEvery | bin/dshttpd.py:1212-1216 | every record of a group is the reply for some random choice |
| Verbs.GetHashed | bin/dshttpd.py:1232-1256 | GETH only logs; it gives a table's entry for the key, or `*UNDEFINED*HASH*` when the key is missing; a held counter, group or series is logged as its `%s` text (`Grp <key>  Len <n>`, `Grp <key>  Serial <s>`) and then cannot be sent (`Unsent`, as `len` or `send` of the object raises at bin/dshttpd.py:207 and bin/dserver.py:1308) |
| Verbs.GetIndexed | bin/dshttpd.py:1258-1290 | GETI never raises before logging; on the HTTP server an index within the records gets its record, one past them `*OUT*OF*RANGE*`, and a negative or missing one `*INVALID*INDEX*`; on the socket server (bin/dserver.py:986-1018) an index outside the size gets `*INVALID*INDEX*`, and index 0 of a number source logs the number and then fails to send it (bin/dserver.py:1308) |
| Verbs.IndexedLookup | bin/dshttpd.py:1272-1280 | GETI on a list of records answers the record at an index within it on both servers, `*INVALID*INDEX*` below it, and the server's out-of-range token past it, and changes no record |
| Verbs.GetBarcode | bin/dshttpd.py:1292-1341 | GETB logs its reply and keeps the key set; a missing key gets `*NO*VALID*KEY*`; it raises exactly for a non-dictionary, or for a held key whose value is not a series or whose number is negative |
| Verbs.BarcodeKeepsSound | bin/dshttpd.py:1292-1341 | GETB leaves every series agreeing with its key |
| Verbs.BarcodeTwice | bin/dshttpd.py:1326-1328 | two GETB requests give the identifiers of the current and next serial, and leave the serial two higher |
| Verbs.ExampleBarcodes | bin/recover.py:389-390 | the series EE-16-AU at 56796 issues EE160567961AU and then EE160567975AU |
| Verbs.StoreCsv | bin/dshttpd.py:1342-1371 | STOC answers 1, appends the record to the record list and to `.stored`, and gives a cursor-less source a cursor at 0; it raises exactly for dictionaries, HTTP number sources and an unset Sequence |
| Verbs.StoreCsvKeepsSound | bin/dshttpd.py:1342-1371 | STOC leaves a sound source sound |
| Verbs.StoreKeyed | bin/dshttpd.py:1373-1406 | STOK answers 1 and appends the record to the named group; a new group starts with cursor 0 and no comments (bin/dshttpd.py:262-266), an existing one keeps its cursor and comments, every other group is left alone, and it raises exactly for a non-Keyed source |
| Verbs.StoreKeyedKeepsSound | bin/dshttpd.py:1373-1406 | STOK leaves a sound source sound |
| Verbs.StoreThenNext | bin/dshttpd.py:1342-1371 | a record stored into a spent CSV source is the next one GETN hands out |
| Verbs.StoreThenKeyed | bin/dshttpd.py:1373-1406 | a record stored into a new or spent group is the next one GETK hands out from it |
| DataSource.ReplyOf | bin/dshttpd.py:193-207 | what `process` returns: the reply text exactly when the verb completed, an unsendable object exactly when it logged a value that is not a string, and nothing exactly when it raised |
| DataSource.StateAfter | bin/dshttpd.py:193-200 | a raising verb leaves the old state, and one whose reply could not be sent keeps its changes |
| DataSource.Read | bin/dshttpd.py:352-398 | running the type's reader over the file gives exactly `Load` |
| DataSource.Source.constructor | bin/dshttpd.py:320-417 | the new source holds the loaded state, with empty audit streams, the published attributes, and soundness |
| DataSource.Source.Next | bin/dshttpd.py:1099-1131 | the in-place GETN leaves exactly the state and reply of `GetNext` |
| DataSource.Source.KeyedSequenceNext | bin/dshttpd.py:1133-1158 | the in-place GETKS matches `GetKeyedSequence` |
| DataSource.Source.KeyedNext | bin/dshttpd.py:1160-1193 | the in-place GETK matches `GetKeyed` |
| DataSource.Source.RandomPick | bin/dshttpd.py:1195-1230 | the in-place GETKR matches `GetRandom` |
| DataSource.Source.Hash | bin/dshttpd.py:1232-1256 | the in-place GETH matches `GetHashed`, including the logged line of an unsendable value |
| DataSource.Source.Index | bin/dshttpd.py:1258-1290 | the in-place GETI matches `GetIndexed`, including the line logged before the socket server fails to send an integer reply |
| DataSource.Source.Barcode | bin/dshttpd.py:1292-1341 | the in-place GETB matches `GetBarcode` |
| DataSource.Source.Issue | bin/dshttpd.py:1303-1328 | the identifier and the serial step of a held series match `GetBarcode` |
| DataSource.Source.StoreRecord | bin/dshttpd.py:1342-1371 | the in-place STOC matches `StoreCsv` |
| DataSource.Source.StoreGrouped | bin/dshttpd.py:1373-1406 | the in-place STOK matches `StoreKeyed` |
| DataSource.Source.Flush | bin/dshttpd.py:777-806 | the flush writes exactly `FlushOf` of the source's state |
| Dispatch.VerbNamed | bin/dshttpd.py:1067-1373 | a verb is named only by its own word, and the socket server knows neither GETKR nor GETB |
| Dispatch.VerbNamedOfWord | bin/dserver.py:821-1047 | every verb a server knows is named by its word |
| Dispatch.Addressing | bin/dshttpd.py:1099-1406 | a verb that names a source makes a request carrying the handle |
| Dispatch.ReadFields | bin/dshttpd.py:1067-1406 | REG's name holds no CR or LF, INIT and REG need a second field, an addressed request carries `int(msg[1])`, a request is unrecognised exactly when its verb word is unknown, a bad message exactly when a verb other than INIT, REG and GETH has the wrong field count, and GETH with the wrong field count raises, since it calls `ERROR` with two arguments (bin/dshttpd.py:1253) |
| Dispatch.Parse | bin/dserver.py:810-1082 | the socket server never reads a GETKR or GETB request |
| Dispatch.Fields | bin/dshttpd.py:1059 | the fields of a request start with its verb word |
| Dispatch.FieldsSplit | bin/dshttpd.py:1059 | a formatted request splits on `|` back into its fields |
| Dispatch.IndexFieldReads | bin/dshttpd.py:1262-1266 | the index field of a written GETI reads back as the index, a missing index as none |
| Dispatch.AddressingFields | bin/dshttpd.py:1099-1406 | the fields of a written addressed request have the verb's arity and rebuild the request |
| Dispatch.ParseFormat | bin/dshttpd.py:1056-1406 | the server reads every writable request back as the one the client wrote |
| Dispatch.Failed | bin/dshttpd.py:197-200 | a raising request answers `*ERROR*` on the HTTP server; the socket server's thread dies and the client gets nothing (bin/dserver.py:1304) |
| Dispatch.Answer | bin/dshttpd.py:191-207 | a verb's reply is sent; a raising verb gets `Failed`; a verb whose reply is not a string gets `Dropped` on both servers, because `len(s)` at bin/dshttpd.py:207 lies outside the `try` |
| Dispatch.BadHandle | bin/dshttpd.py:1122-1123 | the bad-handle token: `*BAD*SOURCE*INDEX*` on the socket server and for GETKS/GETB, `*BAD*HANDLE*` otherwise |
| Dispatch.IndexOf | bin/dshttpd.py:1047-1054 | the first position with the name, or -1 exactly when no source has it |
| Dispatch.Control | bin/dshttpd.py:1067-1083 | INIT sets the client language; REG answers with the first index of the name, with the attributes for a Python client |
| Dispatch.ReadIsAudited | bin/dshttpd.py:1125-1126 | a read verb that answers adds one line to `.used` and none to `.stored` |
| Dispatch.StoreIsAudited | bin/dshttpd.py:1359-1364 | a store verb that answers adds one line to `.stored`, none to `.used`, and replies 1 |
| Dispatch.Apply | bin/dshttpd.py:1099-1406 | performing an addressed request on a source leaves exactly `Serve`'s outcome and keeps the source valid |
| Dispatch.Server.Names | bin/dshttpd.py:1047-1054 | the names of the sources, in order |
| Dispatch.Server.constructor | bin/dshttpd.py:980-1045 | the server holds the loaded sources, with no client language yet |
| Dispatch.Server.GetSourceIndex | bin/dshttpd.py:1047-1054 | the loop returns the first index whose source has the name, or -1 |
| Dispatch.Server.Reg | bin/dshttpd.py:1075-1083 | REG answers as `Control` says |
| Dispatch.Server.Process | bin/dshttpd.py:1056-1406 | `process`: a control request changes only the language; a handle outside the list gets the bad-handle token and changes nothing (the corrected form of the handle check, see Findings); an addressed request changes exactly its own source as `Serve` says and no other source |
| Loading.Cleaned | bin/dshttpd.py:465 | one cleaned line per file line |
| Loading.CsvLinesPartitioned | bin/dshttpd.py:460-471 | every line of a CSV file becomes exactly one comment or one record |
| Loading.IntOrZero | bin/dshttpd.py:510-513 | `int(line)`, white space after the sign included, or 0 when it raises |
| Loading.LastValue | bin/dshttpd.py:496-515 | no number exactly when the file has no value line |
| Loading.LastValueIsLast | bin/dshttpd.py:496-515 | the line a number reader keeps is a value line and no value line follows it |
| Loading.ReadCsv | bin/dshttpd.py:451-487 | the reading loop yields the comments and the records, blank lines included |
| Loading.ReadValues | bin/dshttpd.py:653-687 | the reading loop yields the comments and the non-blank, non-comment lines |
| Loading.ReadNumber | bin/dshttpd.py:489-521 | the reading loop yields the comments and the number of the last value line |
| Loading.Classify | bin/dshttpd.py:540-554 | a cleaned line is a comment exactly when it starts with `#` and blank exactly when empty |
| Loading.NotesAreComments | bin/dshttpd.py:542-544 | the notes of a tagged reader are the comment lines of the file |
| Loading.TaggedLoad | bin/dshttpd.py:523-564 | the tagged reader loads exactly when no line fails, giving the notes and the tag map |
| Loading.ReadTagged | bin/dshttpd.py:613-651 | the line-by-line loop gives exactly `TaggedLoad` |
| Loading.TagsMembership | bin/dshttpd.py:550-554 | a tag is in the loaded map exactly when some line sets it |
| Loading.TagsUntouched | bin/dshttpd.py:550-554 | a tag no line sets keeps the value it had |
| Loading.TagsLastWins | bin/dshttpd.py:550-554 | a loaded tag holds the value of the last line that sets it |
| Loading.HeaderName | bin/dshttpd.py:586 | a group name holds no bracket |
| Loading.KeyedStep | bin/dshttpd.py:583-601 | one keyed line keeps the open group among the groups and every cursor at its start |
| Loading.KeyedFromAppend | bin/dshttpd.py:578-601 | reading two pieces reads the first and continues with the second |
| Loading.ReadKeyed | bin/dshttpd.py:566-611 | the reading loop gives exactly `KeyedLoad` |
| Loading.LoadCsv | bin/dshttpd.py:451-487 | the cursor is at 0 exactly when there are records |
| Loading.LoadIndexed | bin/dshttpd.py:653-687 | an Indexed source has no cursor, and fails exactly on the socket server for a file without values (bin/dserver.py:482-516) |
| Loading.LoadNumber | bin/dshttpd.py:489-519 | number sources load a plain number; without a value line the HTTP constructor leaves a Sequence unset (which stops the server at start-up, see "## Left out") and the socket server loads neither kind (bin/dserver.py:225); an Indexer starts at `start` (default 1) on the HTTP server and at 0 on the socket server |
| Loading.LoadTagged | bin/dshttpd.py:732-775 | a tagged load has the payload shape of its type |
| Loading.LoadKeyed | bin/dshttpd.py:566-611 | a Keyed load has every group cursor at 0, and fails exactly when the keyed reader fails |
| Loading.Load | bin/dshttpd.py:352-398 | every source that loads is sound |
| Loading.SeriesValuesAgree | bin/dshttpd.py:759-765 | every series a barcode reader builds agrees with its key |
| Loading.CommentsNeverRecords | bin/dshttpd.py:460-471 | no CSV or Indexed record starts with `#`, and no Indexed record is blank |
| Loading.NoValueLine | bin/dshttpd.py:489-519 | without a value line, on the HTTP server a Counter starts at 1 and the constructor leaves a Sequence unset with its comments; on the socket server `len(None)` stops the load (bin/dserver.py:225) |
| Loading.LastValueWins | bin/dshttpd.py:496-515 | a Sequence or Counter starts from the number of its last value line |
| Flushing.RowsFrom | bin/dshttpd.py:820-826 | nothing for an empty source, else exactly the records from the cursor on |
| Flushing.TagLines | bin/dshttpd.py:866-867 | one line per key |
| Flushing.TagImage | bin/dshttpd.py:859-867 | one line per key of the map |
| Flushing.FlushOf | bin/dshttpd.py:777-806 | Hashed, Indexed and Indexer files are left alone, the rest rewritten starting with their comments; an unset Sequence writes only its comments before `"%d" % None` raises (bin/dshttpd.py:841-844); the socket server writes a Counter without a backup (bin/dserver.py:698-714) |
| Flushing.WriteRows | bin/dshttpd.py:808-830 | the writing loop gives the comments and then the records from the cursor |
| Flushing.AppendTags | bin/dshttpd.py:866-867 | the loop appends one tag line per key, in order |
| Flushing.WriteTags | bin/dshttpd.py:850-871 | the comments and then the tag lines in sorted key order |
| Flushing.WriteGroup | bin/dshttpd.py:889-903 | the block of one group |
| Flushing.AppendGroups | bin/dshttpd.py:889-903 | the loop appends each group's block, in order |
| Flushing.WriteGroups | bin/dshttpd.py:873-907 | the comments and then every block in sorted key order |
| Flushing.CsvReadsBack | bin/dshttpd.py:451-487 | a CSV file of comments and records reads back as them |
| Flushing.FlushCsvReadsBack | bin/dshttpd.py:808-830 | a flushed CSV source reloads with its comments and exactly its unread records, cursor at the first |
| Flushing.NumberReadsBack | bin/dshttpd.py:489-521 | comments and one printed integer read back as that integer |
| Flushing.FlushNumberReadsBack | bin/dshttpd.py:919-937 | a flushed Sequence reloads with the same number, a Counter one higher; on the socket server what STOC appended is lost |
| Flushing.FlushUnsetReadsBack | bin/dshttpd.py:832-846 | an unset Sequence flushes only its comments, and that file loads back as the same unset Sequence with the same comments |
| Flushing.TaggedReadsBack | bin/dshttpd.py:850-871 | a tagged file of comments and a whole map's lines reads back as them |
| Flushing.ClassifyWritable | bin/dshttpd.py:550-552 | a writable tag line reads back as its key and text |
| Flushing.AbsorbSorted | bin/dshttpd.py:859-861 | taking every key in sorted order rebuilds the map |
| Flushing.FlushSerialsReadsBack | bin/dshttpd.py:850-871 | a flushed HTTP KeyedSequence source reloads with the same counters and comments |
| Flushing.FlushTableReadsBack | bin/dserver.py:629-650 | a flushed socket KeyedSequence source reloads with the same table and comments |
| Flushing.FlushBarcodesReadsBack | bin/dshttpd.py:939-960 | a flushed Barcodes source reloads with the same series at the same serials |
| Flushing.Rewound | bin/dshttpd.py:897-901 | a reloaded group has cursor 0, the same comments and only the unread records |
| Flushing.BlockRead | bin/dshttpd.py:889-903 | the block of a group reads back as that group rewound |
| Flushing.KeyedFileRead | bin/dshttpd.py:566-611 | a keyed file of comments and blocks loads as those comments and the groups rewound |
| Flushing.FlushKeyedReadsBack | bin/dshttpd.py:873-907 | a flushed Keyed source reloads with its comments and groups, each holding its unread records, cursor at the start |
| Recovery.Stamp | bin/recover.py:394 | the leading digits of a line |
| Recovery.ParseAudit | bin/recover.py:394 | a matched key holds no `:` |
| Recovery.KeyAndText | bin/recover.py:394 | the key holds no `:` and key, `::` and text rebuild the string |
| Recovery.ParsedAudit | bin/recover.py:428-432 | whatever the pattern matches is a keyed audit line of its key and text, as the servers write them |
| Recovery.ParseKeyedAudit | bin/recover.py:428-432 | a server's keyed audit line parses back into its key and text |
| Recovery.Entries | bin/recover.py:417-434 | at most one entry per line |
| Recovery.EntriesOfAudit | bin/recover.py:417-434 | each line a server appends for a key adds exactly that key and text to what recovery reads |
| Recovery.ReadEntries | bin/recover.py:417-434 | the reading loop yields exactly `Entries` |
| Recovery.TextsFor | bin/recover.py:430-434 | at most one text per entry |
| Recovery.LastIndexOf | bin/recover.py:452-461 | nothing exactly when the record is absent, else the position of its last occurrence |
| Recovery.Newer | bin/recover.py:447-474 | the stored records after the last occurrence of the group's last record, none when it never occurs |
| Recovery.ReplayedAfterLast | bin/recover.py:447-474 | replaying appends exactly the records after the last occurrence and keeps the rest of the group |
| Recovery.ReplayedWithoutLast | bin/recover.py:447-474 | a group whose last record was never stored is unchanged |
| Recovery.NewerOf | bin/recover.py:450-474 | the backward scan and the appends compute exactly `Newer` |
| Recovery.Head | bin/recover.py:506 | the text before the first `,` |
| Recovery.ReadsFor | bin/recover.py:499-507 | at most one read per entry |
| Recovery.Hits | bin/recover.py:530-535 | at most one pop per read |
| Recovery.PrunedReads | bin/recover.py:513-535 | replaying the reads of a group's first `n` records drops exactly those records |
| Recovery.PrunedNothing | bin/recover.py:530-535 | reads naming none of a group's records leave it as it is |
| Recovery.RefNamesOf | bin/recover.py:520-528 | the names are those of every record but the last |
| Recovery.PruneGroup | bin/recover.py:513-535 | the popping loop computes exactly `Pruned` |
| Recovery.GroupRecovered | bin/recover.py:447-535 | recovery keeps a group's comments and cursor |
| Recovery.RecoverKeyedOf | bin/recover.py:387-540 | recovery keeps the groups' keys, comments and cursors |
| Recovery.GroupTags | bin/recover.py:389-391 | the sorted tags are exactly the keys |
| Recovery.CheckRecords | bin/recover.py:398-408 | the check passes exactly when every group holds a record |
| Recovery.CollectStored | bin/recover.py:417-434 | succeeds exactly when every entry names a group, and then gives each group its stored texts |
| Recovery.CollectReads | bin/recover.py:486-507 | succeeds exactly when every entry names a group and every read holds a `,`, and then gives each group its read names |
| Recovery.ReplayAll | bin/recover.py:447-478 | every group replayed with its stored list |
| Recovery.PruneAll | bin/recover.py:513-535 | succeeds exactly when every group has no more reads than records, and then gives every group pruned |
| Recovery.RecoveredOfParts | bin/recover.py:387-540 | the parts computed group by group make up `RecoverKeyedOf` |
| Recovery.RecoverGroups | bin/recover.py:387-540 | `recover_keyed` computes exactly `RecoverKeyedOf` |
| Recovery.SerialOfIdentifier | bin/recover.py:606-652 | an identifier GETB hands out reads back as the serial it was issued at |
| Recovery.Logged | bin/recover.py:575-593 | at most one number per entry |
| Recovery.PeakIsMax | bin/recover.py:590-593 | the peak is at least the start and every number, and is one of them |
| Recovery.RecoverCountersOf | bin/recover.py:543-602 | fails exactly when some text is neither a token nor an integer, and keeps the keys |
| Recovery.CountersResume | bin/recover.py:543-602 | a recovered counter is at least the loaded one, past every number handed out for its key, and the loaded one or one past such a number |
| Recovery.CounterResumesAfterIssue | bin/recover.py:543-602 | after GETKS logs `n` for a key, the recovered counter is past `n` |
| Recovery.RaiseCounters | bin/recover.py:564-593 | the loop raises each counter past the peak of its logged numbers |
| Recovery.RecoverCounters | bin/recover.py:543-602 | the loop computes exactly `RecoverCountersOf` |
| Recovery.CountersAsWritten | bin/recover.py:590-593 | keeps the keys |
| Recovery.RecoverCountersAsWritten | bin/recover.py:543-602 | fails exactly when some text is neither a token nor an integer |
| Recovery.AsWrittenKeepsCounters | bin/recover.py:590-593 | as written, the assignment never changes a counter |
| Recovery.RecoveredSerials | bin/recover.py:606-652 | one recovered serial per series |
| Recovery.SerialsResume | bin/recover.py:606-652 | a recovered serial is at least 0 and every serial logged for its series, and is 0 or one of them |
| Recovery.ResumesAfterIssue | bin/recover.py:606-652 | after GETB logs a series' identifier, recovery gives the series at least that serial |
| Recovery.RecoverSerials | bin/recover.py:618-644 | the loop keeps for each series the peak of its logged serials, from 0 |
| Recovery.RecoverSeries | bin/recover.py:606-652 | the loop computes exactly `RecoveredSerials` |
| Recovery.RecoverBarcodesAsWritten | bin/recover.py:612-644 | as written, fails exactly when a matched digits line names no series or has empty digits, and keeps the keys |
| RecoveryTool.NextSerialText | bin/recover.py:801 | the `%d` of one past the recovered serial reads back as that number |
| RecoveryTool.Advanced | bin/recover.py:801 | every series with its serial set one past the recovered one |
| RecoveryTool.ToolLoad | bin/recover.py:181-386 | a keyed load has every cursor at 0, a keyed-sequence load needs no configured tag delimiter, and every loaded series agrees with its key |
| RecoveryTool.ToolLoadsAsServer | bin/recover.py:252-341 | the tool reads Keyed and KeyedSequence files exactly as the HTTP server does |
| RecoveryTool.Source.constructor | bin/recover.py:113-147 | a new tool source has its name and type, no comments, no records and no recovered serials |
| RecoveryTool.Source.Init | bin/recover.py:181-250 | `init` succeeds exactly when the file loads, and then holds its data and appends its comments |
| RecoveryTool.Source.ListKeyed | bin/recover.py:663-679 | listing succeeds exactly when every group holds a record |
| RecoveryTool.Source.RecoverKeyed | bin/recover.py:387-540 | the groups become `RecoverKeyedOf`, or stay as they were when it raises |
| RecoveryTool.Source.RecoverKeyedSequence | bin/recover.py:543-602 | the counters become `RecoverCountersOf`, or stay when it raises |
| RecoveryTool.Source.RecoverBarcodes | bin/recover.py:606-652 | the recovered serials become `RecoveredSerials`, and nothing else changes |
| RecoveryTool.Source.ListRecoveredBarcodes | bin/recover.py:703-709 | one line per series, with one past its recovered serial |
| RecoveryTool.Source.FlushKeyed | bin/recover.py:713-749 | the `.rec` file holds the comments, then each group's block in sorted order |
| RecoveryTool.Source.FlushKeyedSequence | bin/recover.py:753-776 | the `.rec` file holds the comments, then `tag:counter` lines in sorted order |
| RecoveryTool.Source.FlushBarcodes | bin/recover.py:780-803 | the `.rec` file holds the comments, then each series with one past its recovered serial |
| RecoveryTool.RecoverKeyedSource | bin/recover.py:887-902 | the Keyed driver does exactly `RecoveryRun` |
| RecoveryTool.RecoverKeyedSequenceSource | bin/recover.py:906-921 | the KeyedSequence driver does exactly `RecoveryRun` |
| RecoveryTool.RecoverBarcodesSource | bin/recover.py:925-940 | the Barcodes driver does exactly `RecoveryRun` |
| RecoveryTool.Recover | bin/recover.py:946-954 | the type picks the driver, and other types are skipped |
| RecoveryTool.GroupsReadBack | bin/recover.py:713-749 | a keyed file of rewound groups loads back as exactly those groups |
| RecoveryTool.CountersReadBack | bin/recover.py:753-776 | a counters file written with `:` loads back as its comments and counters |
| RecoveryTool.SeriesReadBack | bin/recover.py:780-803 | a recovered barcodes file loads back as the series advanced to one past the recovered serials |
| RecoveryTool.AdvancedImage | bin/recover.py:801 | the recovered lines are the lines a server flush of the advanced series would write |
| RecoveryTool.KeyedRecoveryReadsBack | bin/recover.py:887-902 | the tool writes the recovered groups, and the HTTP server loads them back |
| RecoveryTool.CountersRecoveryReadsBack | bin/recover.py:906-921 | the tool writes the recovered counters, and the HTTP server loads them back |
| RecoveryTool.BarcodesRecoveryWrites | bin/recover.py:925-940 | the tool writes the comments and every series at one past its recovered serial |
| RecoveryTool.BarcodesRecoveryReadsBack | bin/recover.py:780-803 | the HTTP server loads the recovered barcodes file as the advanced series |
| RecoveryTool.LoadsBarcodes | bin/dshttpd.py:732-775 | the HTTP server loads a barcodes file as its tag map |
| FileServing.IndexedFileServed | bin/dshttpd.py:653-687 | GETI on a freshly loaded Indexed source answers the value line at that position of the file, and the out-of-range token past the last one |
| FileServing.UnsetSequenceErrors | bin/dshttpd.py:489-519 | the `Source` constructor leaves a value-less HTTP Sequence unset, and GETN on such a source would be answered `*ERROR*`; the server itself stops before serving it (see "## Left out") |
| Findings.AddressedAsWritten | bin/dshttpd.py:1099-1406 | as written, a handle is a Python index into the sources; one outside `-n <= h < n` changes nothing, gets the bad-handle token on a store verb and raises on a read verb; any other serves the source it indexes and only that one |
| Findings.NegativeHandleServed | bin/dshttpd.py:1103-1106 | as written, handle -1 is served by the last source, whose `.used` stream grows by one line on a read that answers |
| Findings.OutOfRangeHandleRaises | bin/dshttpd.py:1122-1126 | as written, a read whose handle is one past the last source raises, changes nothing, and so never sends the bad-handle token |
| Findings.SocketKeyedStepAsWritten | bin/dserver.py:414-417 | as written, a comment inside a group fails the load, and otherwise the step is the intended one |
| Findings.GroupCommentAsWritten | bin/dserver.py:414-417 | as written, a group with a comment line stops the socket server's keyed load |
| Findings.GroupCommentKept | bin/dshttpd.py:591-595 | corrected, the comment joins the group's comments and the record joins its records |
| Findings.SetIdxAsWritten | bin/dserver.py:139-143 | as written, an empty group gets cursor -1 |
| Findings.EmptyGroupRaisesAsWritten | bin/dserver.py:923-957 | as written, GETK on an empty socket group raises |
| Findings.EmptyGroupExhausted | bin/dshttpd.py:1160-1193 | corrected, GETK on an empty group answers `*GROUP*EXHAUSTED*` |
| Findings.CountersAsWrittenExample | bin/recover.py:590-593 | as written, a counter stays put after its number has been handed out |
| Findings.CountersCorrectedExample | bin/recover.py:590-593 | corrected, the counter moves one past the number handed out |
| Findings.BarcodesAsWrittenExample | bin/recover.py:612 | as written, an issued identifier is never matched, so the series recovers serial 0 |
| Findings.BarcodesCorrectedExample | bin/recover.py:612 | corrected, the series recovers the serial its identifier was issued at |

## Left out

- I/O is modelled as values. File reads are the lines of the file. Writes are the line
  sequences a plan or a `RecoveryFile` holds. Opening, backups (`os.system` of the
  backup command), IOError exits and the audit file handles are not modelled.
- The HTTP request handler, the socket loop, threads and the network are not modelled,
  and neither is the HTML status page. Concurrent requests are not modelled: every
  verb is one atomic step.
- `read_config` and the daemon machinery (pid files, signals, logging, command-line
  options) are not modelled. The sources arrive already loaded, with a `Config` of
  their attributes.
- `INFO`/`ERROR`/`WARNING` logging and `print` output are not modelled. The tool's
  `list_keyed`, `list_keyed_sequence` and `list_barcodes` are modelled only for
  whether they raise.
- The attributes a Python client receives through `marshal.dumps` are modelled as a
  value, not as bytes.
- The timestamp of an audit line and GETKR's random choice are parameters rather than
  the clock and `random`.
- Delimiters are modelled as single characters. Python's `split` by a longer
  delimiter is not modelled.
- Files are modelled as sequences of lines without their line ends.
- The indentation of bin/dshttpd.py:646-647 mixes a tab into spaces. The model reads
  those lines as the statement they evidently are, a log line under
  `debug_level > 2`; how Python 2 tokenises them is not modelled.
- The servers' `debug_level > 2` path, in which a raising request is not caught, is
  not modelled.
- Verbs.StoreKeyed: STOK on a dictionary that is not Keyed is modelled as an
  exception. The code would store a new Python `Group` object into a table there,
  which the model's payload cannot hold.
- Loading.LoadNumber: models `Source.__init__` only. An HTTP Sequence file without a
  value line gives the `Unset` source there, but `read_config` then runs
  `str(source)`, whose `"%d" % self.Data` raises on `None` (bin/dshttpd.py:427-428,
  1037), and the HTTP server stops at start-up. So `Unset`, Loading.NoValueLine,
  Flushing.FlushUnsetReadsBack and FileServing.UnsetSequenceErrors describe a source
  the running server never serves.
- recover.py's Hashed handling and `recover_csv`/`recover_serial` only print, so they
  are modelled as `Skipped`.
- A series with no logged identifier is written with serial 1, since the recovered
  serial starts at 0. This is faithful to the code and is not listed as a finding.
- Recovery of KeyedSequence or Hashed sources with a configured `TagDelimiter` fails
  in the tool, because `init` reads an undefined global there. The model treats this
  as a failed load.

## Findings

| source | as written | input that shows it | evidently intended | confidence | as-written member | corrected member |
|---|---|---|---|---|---|---|
| bin/dshttpd.py:1103-1106 | `sources[hdl]` accepts a negative handle, which Python counts from the end | handle -1 with two sources serves the second source | handles outside `0 <= h < len(sources)` get the bad-handle token | not executed | Findings.NegativeHandleServed | Dispatch.Server.Process |
| bin/dshttpd.py:1122-1126 | for an out-of-range handle `source` is None, and after choosing the bad-handle reply the code still calls `source.ufh.write`, which raises | GETN with handle 5 and one source | the bad-handle token is sent and nothing is logged | not executed | Findings.OutOfRangeHandleRaises | Dispatch.Server.Process |
| bin/dserver.py:414-417 | a comment inside a group calls `append_comment`, which Group does not define, so the load stops | `[g]`, `#c`, `x` | the comment joins the group's comments, as on the HTTP server | not executed | Findings.GroupCommentAsWritten | Findings.GroupCommentKept |
| bin/dserver.py:139-143 | `set_idx` gives a group without records cursor -1, and GETK then indexes an empty list | a group header with no records, then GETK on it | the cursor starts at 0 and GETK answers the exhausted token | not executed | Findings.EmptyGroupRaisesAsWritten | Findings.EmptyGroupExhausted |
| bin/recover.py:590-593 | a logged number above the counter stores the counter back into itself, so nothing is recovered | counter 3, log line `ts - k::7` | the counter moves past the largest number handed out for its key | not executed | Findings.CountersAsWrittenExample | Findings.CountersCorrectedExample |
| bin/recover.py:612 | the pattern takes only a text of digits, but GETB logs full identifiers such as EE160567961AU that start with the prefix, so no issued serial is recovered | series EE-16-AU and log line `ts - EE-16-AU::EE160567961AU` | the serial is read from the identifier of the key's series | not executed | Findings.BarcodesAsWrittenExample | Findings.BarcodesCorrectedExample |

The -1 cursor of the `set_idx` row also reaches the socket server's `flush_keyed`
(bin/dserver.py:676-680): its loop starts at `Data[-1]`, so a group that STOK filled
after loading is written with its last record first and then all its records, and a
group that is still empty raises there. The model's corrected cursor of 0 avoids both.
