# LightToSpread: a verified model

The daemons of this repository bridge a line-oriented client to a Spread group. This project models
the library behind them and proves what it keeps over whole runs:

- **Symbol table.** The 31-bucket chained table of `commonToSpread.c`, as linked nodes rewritten in
  place, refines a map. What `^save` prints and what a config file does when it is loaded are put
  together into a merge theorem. Over any run, a lock is permanent and a GLOBAL symbol was last
  written locally.
- **Connecting.** `spreadConnect` with its alternating server, and how often the connect loop calls
  it.
- **Membership cache.** The `nodes` table is a list of rows without a key. Each function and each
  message is proved against a map from (name, group). The receive thread and any number of command
  threads then interleave statement by statement: no row is ever duplicated, and, duplicates found or
  not, while the receive thread waits every CONNECTED row is explained by a message of the current
  session; by a JOIN in every run if and only if DEBUG is off.
- **Redis codec and template** of `connectToSpread.c`: round trip, unique decodability, expansion.
- **The older dialect** of `hash.c` and `cmdInterp`, saved and loaded.
- **Framing** of `interactive_controller.py`.

`dafny verify dfyconfig.toml` checks all of it.

## Files

| file | content |
|---|---|
| `CString.dfy` | strtok, fgets, atoi, %d as functions |
| `Symbols.dfy`, `SymbolTable.dfy` | the map, the save text; the linked table |
| `Commands.dfy` | the line parser and the pointer scan of `^multicast` and `^send` |
| `DaemonSpec.dfy`, `Daemon.dfy`, `Reconnect.dfy` | commands, config files, connects: functions, then the daemon object; the connect loop |
| `TextLines.dfy`, `SaveLoad.dfy`, `Runs.dfy` | lines of a save file, for both dialects; the merge; whole runs |
| `NodeRows.dfy`, `NodeCache.dfy` | SQL statements on rows; the cache object |
| `Session.dfy`, `OneThread.dfy` | threads and the lock; one thread alone does what the cache object does |
| `SessionSafety.dfy`, `DebugMode.dfy`, `Purge.dfy` | session safety; what DEBUG does to it; purge history |
| `Resp.dfy`, `RespDecode.dfy`, `Template.dfy` | encoders; interpreter; templates |
| `HashDialect.dfy`, `HashLoad.dfy` | `hash.c` and the part of `cmdInterp` that reads its file |
| `DaemonFacts.dfy`, `LineEffects.dfy`, `ClientFacts.dfy` | from the text of a line, message or request to the symbols and nodes it changes |
| `Framing.dfy` | the reader loop |

## What the proofs turned up

Each of these is a lemma that says exactly when the code does what one would expect.

- A saved value with a space comes back as its first token (`SaveLoad.KeptIff`), and the default
  `SET_FMT` is such a value (`SaveLoad.DefaultFormatIsCut`). Nothing stored by a `^set` line is. With
  AUTOCONNECT "true", loading also locks an unlocked USER. There is nothing else: a table survives its
  own save and load exactly otherwise (`SaveLoad.SelfLoadIff`).
- `^multicast` and `^send` send the group's name along when the line starts with a space
  (`Commands.MessageIsRestOfLine`, `Commands.LeadingSpaceSendsGroup`).
- `cacheAdd` duplicates a row if its count fails and its insert works
  (`Session.FailedCountDuplicates`).
- With DEBUG on, from every start and in any table, a regular message can leave a CONNECTED row that
  no JOIN explains; with DEBUG off none ever is (`DebugMode.SafeIffDebugOff`). What then explains it
  is a message that has it as target under its sender (`SessionSafety.SessionExplained`).
- `CONNECTED_TO` is the server tried first, also when the fallback answered, and is not written when
  it is locked or SERVER is unknown (`Reconnect.ConnectedToIff`).
- `params.txt` says AUTOPURGE removes an entry that has not been connected for STALE_AFTER seconds;
  a row never touched by `cacheSetConnected` is not removed (`Purge.PurgeExactly`).
- The Redis serialization protocol specification, sections "Arrays" and "Bulk strings", ends lines
  with a carriage return and a newline. Only HSET requests do (`Resp.WellFormedIff`), and a subscribe
  request is not even an array of bulk strings with bare newlines (`Resp.SubIsNotArray`).
- `redisCmdInterp` checks a token's length against the one announced, but not against the 32 characters
  of its row: a word of 32 to 254 characters is copied over the row's end (`RespDecode.SlotExact`).
- With a signed `char`, a bucket index is inside the table exactly if the sum of the name's characters
  is not negative or a multiple of 31 (`SymbolTables.SignedIndexIff`).
- In the `hash.c` dialect an unknown CLIENT is forced to `raw` even when locked, unless `cmd` was
  chosen before, which is never taken back (`HashLoad.RestoresIff`).
- A template cut between `$` and its letter expands differently (`Template.ExpandConcatIff`).

## Model

| member | source | states |
|---|---|---|
| SymbolTables.HashOf | commonToSpread.c:30-35 | The summing loop gives the bucket of the name, below 31; for names of 7-bit characters also where `char` is signed. |
| SymbolTables.SignedIndexIff | commonToSpread.c:30-35 | With signed characters the index is inside the table exactly if the sum is not negative or a multiple of 31; names of 7-bit characters keep their bucket. |
| SymbolTables.SymbolTable.constructor | commonToSpread.c:18 | An empty table stands for the empty map. |
| SymbolTables.SymbolTable.NodesDistinct | commonToSpread.c:37-69 | No node occurs at two places: chains are acyclic and disjoint. |
| SymbolTables.SymbolTable.Lookup | commonToSpread.c:37-45 | Null exactly for names the map lacks, otherwise the node that holds the map's symbol. |
| SymbolTables.SymbolTable.GetSymbol | commonToSpread.c:71-76 | The map's value, or none. |
| SymbolTables.ShapePrepend | commonToSpread.c:57-59 | Linking a new name in at the head of its bucket keeps every chain sound. |
| SymbolTables.SymbolTable.Prepend | commonToSpread.c:53-59 | A new node for an unknown name; the map gains one key. |
| SymbolTables.SymbolTable.Rewrite | commonToSpread.c:60-68 | Writing a node's fields changes that one key of the map. |
| SymbolTables.SymbolTable.Install | commonToSpread.c:47-69 | Exactly one key changes, whatever its lock. |
| SymbolTables.SymbolTable.LockSymbol | commonToSpread.c:78-82 | A known name is locked, nothing else changes. |
| SymbolTables.SymbolTable.SetSymbol | commonToSpread.c:84-94 | As install, unless the symbol is locked. |
| SymbolTables.ListsTable | commonToSpread.c:180-191 | Walking buckets and chains meets every symbol of the map exactly once. |
| SymbolTables.SymbolTable.RenderTable | commonToSpread.c:180-191 | The text printed is the rendering of such a listing. |
| SymbolTables.SymbolTable.SaveSymbols | commonToSpread.c:150-193 | A file is written exactly if allowed and openable; header and listing of the table; START_FILE gets its default. |
| Commands.ScanMessage | commonToSpread.c:1468-1473 | The four pointer loops compute the scan the parser is specified with. |
| Commands.ScanSkips | commonToSpread.c:1468-1473 | The scan drops two tokens of a line that starts with one, but only one of a line that starts with a space. |
| Commands.MessageIsRestOfLine | commonToSpread.c:1388-1411 | For every line a reader hands over with group and message: the text sent is the rest of the line from the third token, exactly if the line has no leading space; the fallback is never taken; ^send adds one newline. |
| Commands.LeadingSpaceSendsGroup | commonToSpread.c:1466-1498 | A line on which it fails. |
| Commands.PlainLine | commonToSpread.c:1528-1534 | A line that starts with no space, ^ or # is sent whole. |
| Commands.BareLine | commonToSpread.c:1442-1520 | What the command words without parameter ask for. |
| Commands.BareOptional | commonToSpread.c:1431-1465 | What ^dump, ^empty and ^connected ask for without a parameter. |
| Commands.BareIncomplete | commonToSpread.c:1414-1504 | The other commands do nothing without one. |
| Commands.UnknownLine | commonToSpread.c:1521-1525 | Any other word behind a ^ is unknown. |
| Commands.OneParameter | commonToSpread.c:1414-1455 | ^set, ^lock, ^get, ^join, ^leave and ^del with one parameter, from the text of the line. |
| Commands.OptionalParameter | commonToSpread.c:1431-1483 | ^dump, ^empty, ^connected and ^exec with one. |
| Commands.TwoParameters | commonToSpread.c:1414-1483 | ^set, ^add, ^del and ^exec with two, each in its place. |
| Commands.EndsAlike | commonToSpread.c:1396-1397 | It does not matter how a line ends; one without text is blank. |
| Daemons.Daemon.SpreadConnect | commonToSpread.c:833-942 | Symbols, flipFlop, result, number of cache wipes, groups joined and lines printed for a connect attempt with any outcomes. |
| Daemons.Daemon.ProcessSpreadCommand | commonToSpread.c:1388-1538 | Parsed command, effect on the table; 0 exactly for ^exit with EXIT_COMMAND "true", 2 exactly for ^disconnect; the file ^save writes, unless SAVE_ALLOWED is "false", under the name START_FILE. |
| Daemons.Daemon.ProcessConfigFile | commonToSpread.c:1365-1386 | -1 and no change for a file that cannot be read; otherwise the fgets loop runs the parsed lines until ^exit; the receive thread is started and USER locked exactly if AUTOCONNECT ends up "true". |
| Daemons.Daemon.RxSet | commonToSpread.c:996-1009 | A received ^set is installed as LOCAL unless locked, and handed to the program ON_CHANGE names, if any. |
| Reconnect.TwoAttempts | commonToSpread.c:860-899 | While SERVER or a set ALTSERVER answers, one of the first two attempts connects; the first if ALTSERVER answers or flipFlop picks SERVER. |
| Reconnect.ConnectLoop | commonToSpread.c:1047-1056 | The loop ends after one or two calls, in the state of that many attempts. |
| Reconnect.ConnectedToIff | commonToSpread.c:886-916 | After any successful connect, CONNECTED_TO names the server reached exactly if the first try worked or both host parts agree; where it is locked or SERVER is unknown, exactly if it named it before. |
| DaemonFacts.DialOrder | commonToSpread.c:860-899 | SERVER is dialled first and ALTSERVER second; when it is ALTSERVER's turn, ALTSERVER both times. |
| DaemonFacts.DialOrderAlone | commonToSpread.c:860-899 | Without ALTSERVER: SERVER both times, or "4803" once. |
| DaemonFacts.AltFirst | commonToSpread.c:864-899 | On its turn a reachable ALTSERVER answers first, whatever becomes of SERVER. |
| DaemonFacts.ConnectsIff | commonToSpread.c:880-907 | A connect succeeds exactly if the first server answers, or a second one is known and does. |
| DaemonFacts.HostText | commonToSpread.c:909-914 | The host of x@h is h, and of a name without @ the name. |
| DaemonFacts.ConnectWrites | commonToSpread.c:833-919 | CONNECTED, CONNECTED_TO and ME after a connect, as text; ME locked. |
| DaemonFacts.ConnectLeaves | commonToSpread.c:833-919 | No other symbol, and no locked one, changes. |
| DaemonFacts.UnknownServer | commonToSpread.c:896-919 | With SERVER unknown a first answer is not recorded. |
| DaemonFacts.ConnectGreets | commonToSpread.c:924-940 | The groups joined and lines printed, as text. |
| DaemonFacts.ConnectWipes | commonToSpread.c:849-892 | One cache wipe for an attempt that succeeds, two for one that fails, which joins and prints nothing. |
| DaemonFacts.SetLineEffect | commonToSpread.c:1414-1417 | From the text "^set n v" to the table. |
| DaemonFacts.LockLineEffect | commonToSpread.c:1418-1419 | From the text "^lock n" to the table. |
| DaemonFacts.StartEffect | commonToSpread.c:1226-1230 | ^start locks USER. |
| DaemonFacts.SaveEffect | commonToSpread.c:158-167 | ^save names a START_FILE where saving is allowed. |
| DaemonFacts.OthersLeave | commonToSpread.c:1414-1538 | No other command changes a symbol. |
| DaemonFacts.ExitLine | commonToSpread.c:1375-1378 | ^exit ends a config file exactly if EXIT_COMMAND is "true"; else it is passed over. |
| DaemonFacts.AutoConnectEffect | commonToSpread.c:1381-1384 | At its end USER is locked exactly if AUTOCONNECT is "true". |
| DaemonFacts.ReceivedSetEffect | commonToSpread.c:1116-1124 | From the text of a received "^set n v", whatever follows, to the table: n becomes v, LOCAL. |
| DaemonFacts.OtherMessage | commonToSpread.c:1116-1124 | A message with any other first word changes no symbol. |
| DaemonFacts.NoCommand | commonToSpread.c:1122 | Nor does one that does not start with ^. |
| SaveLoad.KeptIff | commonToSpread.c:1409-1416 | ^set keeps a value exactly if it holds no space. |
| SaveLoad.DefaultFormatIsCut | commonToSpread.c:1258 | The default SET_FMT is cut to its first token. |
| SaveLoad.PutAllIsMerge | commonToSpread.c:180-191 | Storing a listing entry by entry is the merge, in whatever order the table is listed. |
| TextLines.SavedReads | commonToSpread.c:1375-1378 | Whatever the line parser, reading a saved file yields its comment lines and then each entry's lines, none split or joined. |
| SaveLoad.SavedCommands | commonToSpread.c:1375-1378 | Reading a saved file line by line gives comments and then the ^set and ^lock commands of its entries. |
| SaveLoad.LoadSaved | commonToSpread.c:150-193 | Loading the file saved from t into any table gives the merge: t's GLOBAL symbols with value, lock and scope where not locked, all else unchanged; USER locked if AUTOCONNECT ends up "true". |
| SaveLoad.MergedTwice | commonToSpread.c:1365-1386 | Loading the file again changes nothing. |
| SaveLoad.SelfLoadIff | commonToSpread.c:1365-1386 | Loading the file saved from a table into that same daemon leaves it as it was exactly if no unlocked GLOBAL value holds a space and AUTOCONNECT "true" finds no unlocked USER. |
| SaveLoad.SetIsSavable | commonToSpread.c:1414-1417 | What any ^set line that a reader hands over stores meets all that LoadSaved asks of an entry, line length included, and loses nothing in the file. |
| SaveLoad.LockIsSavable | commonToSpread.c:1418-1419 | It still does after a ^lock line. |
| TextLines.LineApart | commonToSpread.c:1375 | However long a line, fgets never joins it with the next. |
| Runs.LineStep | commonToSpread.c:1388-1538 | A command line in a run is the daemon's own step. |
| Runs.ConnectStep | commonToSpread.c:833-920 | So is a connect. |
| Runs.MessageStep | commonToSpread.c:996-1002 | So is a received message; a received ^set of a symbol that is not locked makes it LOCAL. |
| Runs.ConfigIsRun | commonToSpread.c:1365-1386 | Reading a config file is the run of its lines up to a stopping ^exit, with the AUTOCONNECT check at its end. |
| Runs.LockPermanent | commonToSpread.c:78-94 | Over every run, a locked symbol keeps value, lock and scope. |
| Runs.OptionWins | commonToSpread.c:1326-1348 | A value option of the command line holds for good, whatever config or messages say. |
| Runs.OptionBeatsConfig | commonToSpread.c:1326-1348 | A config file read at any later time cannot change it. |
| Runs.OptionsSet | commonToSpread.c:1326-1348 | Which symbol each value option sets and locks, and in which scope. |
| Runs.LogOptionSets | commonToSpread.c:1349-1357 | -l locks DEBUG to "true" and LOG_FILE, if the file opens. |
| Runs.LostAndSetup | commonToSpread.c:1222 | A lost connection leaves CONNECTED "false"; setupDatabase names and locks a missing DATABASE. |
| Runs.StartsWith | commonToSpread.c:1247-1253 | A fresh daemon neither exits on command nor connects by itself. |
| Runs.PurgesWith | commonToSpread.c:1259-1260 | It does not purge, and rows go stale after 600 seconds. |
| Runs.ConnectsWith | commonToSpread.c:1300-1301 | The servers it knows when nothing else names them. |
| Runs.MeFixed | commonToSpread.c:909-919 | The first connect that takes a server fixes ME for good. |
| Runs.NoHookEver | commonToSpread.c:1265 | Started on an empty table, no received change is ever handed to a program. |
| Runs.LastWriteHolds | commonToSpread.c:47-69 | A symbol holds what its last unblocked write put there. |
| Runs.GlobalIsLocallyWritten | commonToSpread.c:996-1002 | Over every run, a GLOBAL symbol's last writer is local, so no remote value is ever saved. |
| NodeRows.ApplyRefines | commonToSpread.c:791 | Every statement acts on the map key by key; only the insert of a known key breaks uniqueness. |
| NodeRows.SelectedIsAbs | commonToSpread.c:958-962 | spreadLeave's select finds exactly the rows to leave. |
| NodeCaches.LeaveExactly | commonToSpread.c:958-972 | Leaving one group turns the daemon's own CONNECTED row of that group to LEAVE, leaving all those of every group but global; no other row changes. |
| NodeCaches.NodeCache.CacheAdd | commonToSpread.c:634-708 | Inserts or updates one key; stale is not touched. |
| NodeCaches.NodeCache.CacheSetConnected | commonToSpread.c:344-400 | Marks a known key with state, time and stale time; an unknown one does nothing. |
| NodeCaches.NodeCache.CacheRemove | commonToSpread.c:595-632 | Removes one key, or all of a name. |
| NodeCaches.NodeCache.EmptyCache | commonToSpread.c:552-593 | What each form of ^empty removes. |
| NodeCaches.NodeCache.CacheClean | commonToSpread.c:309-342 | Removes what is not CONNECTED and past its stale time. |
| NodeCaches.NodeCache.CacheTouch | commonToSpread.c:277-307 | Sets touched for a name in every group. |
| NodeCaches.NodeCache.DisconnectCache | commonToSpread.c:525-550 | Every row becomes DISCONNECTED. |
| NodeCaches.NodeCache.LookupCacheGroup | commonToSpread.c:241-275 | Positive exactly for known keys. |
| NodeCaches.NodeCache.IsConnected | commonToSpread.c:402-436 | The number of groups the name is CONNECTED in. |
| NodeCaches.NodeCache.SpreadLeave | commonToSpread.c:944-979 | Exactly the selected rows become LEAVE; the groups left. |
| NodeCaches.JoinedMore | commonToSpread.c:1175-1184 | One more member joins, with its own clock readings: look up, add if unknown, mark. |
| NodeCaches.NodeCache.JoinMessage | commonToSpread.c:1175-1184 | The listed members are CONNECTED in the group, at the time each was marked last; nothing else moves. |
| NodeCaches.SplitMore | commonToSpread.c:1206-1216 | One more view-synchrony set, flags cleared again. |
| NodeCaches.NodeCache.NetworkMessage | commonToSpread.c:1197-1217 | From all flags zero, whatever duplicates there are: every row stays in its place, one of the group keeps its state exactly if every set has its name, rows of other groups are unchanged, all flags end at zero; without duplicates, the same on the map. |
| NodeCaches.SplitRowsAbs | commonToSpread.c:1197-1217 | What happens row by row is Split on the map. |
| NodeCaches.DisjointSetsForgetAll | commonToSpread.c:1206-1216 | Two disjoint sets make the whole group UNKNOWN. |
| NodeCaches.NodeCache.HandleAll | commonToSpread.c:1154-1219 | For every sequence of messages and commands the rows are the fold of the events over a map. |
| Session.AlwaysExclusive | commonToSpread.c:651-708 | From any table, under every interleaving: one thread at a time past the lock, and a count of zero stays right until the insert. |
| Session.StepSound | commonToSpread.c:651-708 | Mutual exclusion, and a count of zero that stays right until the insert, survive every step of every thread. |
| Session.NeverDuplicated | commonToSpread.c:634-708 | Under every interleaving of any number of threads no two rows have the same name and group. |
| Session.FailedCountDuplicates | commonToSpread.c:658-696 | With failing statements, a duplicate arises exactly if the count of a known row fails and the write works. |
| OneThread.BlockAlone | commonToSpread.c:634-708 | A piece of a program run by its thread alone, step by step under the lock, has its effect on the map. |
| OneThread.RegularIsStep | commonToSpread.c:1108-1153 | A regular message that carries an ^empty empties what the command says, and AUTOPURGE then removes what is stale. |
| OneThread.EventAlone | commonToSpread.c:1108-1219 | A thread that runs the program of any message, regular ones with and without ^empty included, or of any command alone takes the map through exactly the step the cache object is proved to take. |
| OneThread.WipesBeforeDial | commonToSpread.c:849-892 | After a failed dial the thread wipes the cache twice before it can dial again, after a lost session once. |
| LineEffects.ExecuteOnCache | commonToSpread.c:1429-1457 | The cache calls of a command line. |
| LineEffects.AddEffect | commonToSpread.c:1452-1453 | ^add makes the node UNKNOWN in the group. |
| LineEffects.DelEffect | commonToSpread.c:1454-1455 | ^del removes the node from the group, or from all. |
| LineEffects.LeaveEffect | commonToSpread.c:1429-1430 | ^leave turns the daemon's own CONNECTED row of that group to LEAVE and no other. |
| LineEffects.EmptyEffect | commonToSpread.c:569-577 | What each form of ^empty removes. |
| LineEffects.ReceivedEmptyAll | commonToSpread.c:1127-1128 | A peer's "^empty all" removes all that is not CONNECTED. |
| LineEffects.ReceivedOther | commonToSpread.c:1116-1153 | Another message empties nothing; with AUTOPURGE what is stale goes. |
| SessionSafety.JustifiedMore | commonToSpread.c:1170-1196 | How one more message changes what the session justifies, with DEBUG on or off. |
| SessionSafety.RunEffect | commonToSpread.c:1046-1224 | A thread's step marks only what it could mark, and a pending clear is done or still pending. |
| SessionSafety.MessageEffect | commonToSpread.c:1164-1217 | A message's statements mark exactly what it lists as joined and clear what it ends. |
| SessionSafety.ReceivedEffect | commonToSpread.c:1094-1196 | With the additions of DEBUG in front, exactly the targets under the sender as well. |
| SessionSafety.StepSafe | commonToSpread.c:1046-1224 | Every step keeps: CONNECTED rows are justified or about to be cleared. |
| SessionSafety.SessionExplained | commonToSpread.c:1046-1224 | From any table, while spreadRX waits: each CONNECTED row was put by a message of this session and not ended since; by a JOIN that lists it or, with DEBUG on, by a message that has it as target under its sender. |
| SessionSafety.SessionSafe | commonToSpread.c:1046-1224 | DEBUG off, from any table: while spreadRX waits, each CONNECTED row was listed by a JOIN of this session and not ended since. |
| SessionSafety.ReconnectStartsClean | commonToSpread.c:849-850 | When a connect succeeds no row is CONNECTED, whatever DEBUG is and the table was. |
| Purge.LogExplainsRows | commonToSpread.c:634-708 | The rows are always the replay of the statements run, and no insert ever met its own key. |
| Purge.StaleIsHistory | commonToSpread.c:356-386 | A row's stale time is what the last cacheSetConnected since its insert wrote, NULL if there was none, or what a row of its key was found with. |
| Purge.PurgeExactly | commonToSpread.c:330-331 | Over every run, from any table, the purge removes a row exactly if it is not CONNECTED and its stale time, read off that history, is past. |
| Purge.KeyPurgeExactly | commonToSpread.c:330-331 | In a table without duplicates: the same for each key, from the one stale time it was found with. |
| Purge.FreshPurgeExactly | commonToSpread.c:330-331 | Where no row found had a stale time and STALE_AFTER is constant: exactly if the row is not CONNECTED and was last set more than STALE_AFTER seconds ago. |
| DebugMode.DebugBreaksSession | commonToSpread.c:1094-1105 | DEBUG on: every start, with any table, leads to a waiting receive thread and a CONNECTED row no JOIN explains. |
| DebugMode.SafeIffDebugOff | commonToSpread.c:1046-1224 | From a start, every run is safe while the receive thread waits if and only if DEBUG is off. |
| Resp.SetIsArray | connectToSpread.c:439-441 | A SET request is an array of three bulk strings with bare newlines for line ends. |
| Resp.SenderIsSet | connectToSpread.c:430-432 | A SENDER request is the SET of the key SENDER. |
| Resp.HsetIsArray | connectToSpread.c:448-450 | An HSET request is a protocol array of four bulk strings. |
| Resp.GetIsArray | connectToSpread.c:456-458 | A GET request is an array of two bulk strings with bare newlines for line ends. |
| Resp.SubIsNotArray | connectToSpread.c:460-462 | A SUBSCRIBE request is no array of any bulk strings with bare newlines. |
| Resp.WellFormedIff | connectToSpread.c:430-462 | A request is a protocol array of some bulk strings, with CRLF line ends, exactly if it is an HSET request. |
| Resp.PrefixFree | connectToSpread.c:430-462 | For all five encoders, whatever keys, values and tails: equal streams start with the same request and go on equally. |
| Resp.UniqueDecoding | connectToSpread.c:430-462 | Any concatenation of their requests splits in one way only. |
| RespDecode.RedisCmdInterp | connectToSpread.c:507-549 | The loop computes the decoding function: outcome and input left. |
| RespDecode.SlotExact | connectToSpread.c:530-545 | A bulk string, with or without carriage returns, is read back exactly if it is a non-empty word of at most 31 characters, and runs over the end of its row exactly if it is a word of 32 to 254; the code refuses all others. |
| RespDecode.SetRoundTrip | connectToSpread.c:507-549 | A SET request decodes to its ^SET line, consuming exactly its lines, if and only if key and value fit; a row is overrun exactly if the first that does not fit is a longer word; otherwise there is no command. |
| RespDecode.RemoteSetRoundTrip | connectToSpread.c:351-357 | What remoteSet writes decodes to the SENDER command, then the key's. |
| RespDecode.NotThreeParts | connectToSpread.c:524-526 | A request that announces other than three parts is dropped unread. |
| RespDecode.NoLengthLine | connectToSpread.c:532-536 | A line without $ where a length is due ends the request; it alone is consumed. |
| RespDecode.WrongLength | connectToSpread.c:540-541 | So does a word whose length is not the one announced. |
| RespDecode.CutAfterKey | connectToSpread.c:530-549 | At the end of input the buffer keeps its last token: a request cut off after its key is a command all the same exactly if the key is a $ and its own length. |
| ClientFacts.RequestExecutes | connectToSpread.c:507-689 | In local mode a SET request, from its bytes, sets its key to its value, and the stream goes on after it. |
| ClientFacts.ModeDecides | connectToSpread.c:615-618 | Lines have an effect exactly where MODE is unset or says local, in any case. |
| ClientFacts.LowerText | connectToSpread.c:618-652 | Words are compared without regard to case. |
| ClientFacts.SetEffect | hash.c:47-72 | The table after a ^set. |
| ClientFacts.ClientEffect | connectToSpread.c:653-681 | The flags and the symbol after ^set CLIENT, by its value. |
| ClientFacts.MissingValueIff | connectToSpread.c:648-653 | A missing value is a null pointer exactly unless the symbol is locked and not CLIENT. |
| ClientFacts.SaveDefaults | hash.c:281-310 | What saveSymbols makes known. |
| Template.ProcessFormat | connectToSpread.c:300-328 | The in-place loop fills the buffer with the recursive expansion, a newline for ADD_CR, and zeros. |
| Template.ExpandLength | connectToSpread.c:309-323 | The exact length, by counting $, $K and $V. |
| Template.ExpandConcatIff | connectToSpread.c:309-323 | Expansion distributes over concatenation exactly if no marker is cut. |
| Template.ExpandPlain | connectToSpread.c:309-323 | Text without $ stands for itself. |
| Template.ExpandMarkers | connectToSpread.c:309-323 | $K and $V bring key and value, any other $ nothing. |
| HashDialect.InstallSymbol | hash.c:47-72 | A known name keeps lock and scope, a locked one its value. |
| HashDialect.SetSymbolValue | hash.c:135-153 | Overwrites the value whatever the lock. |
| HashDialect.SaveNodes | hash.c:312-335 | The walk prints header and lines of every GLOBAL symbol but MODE, each symbol once. |
| HashDialect.SaveSymbols | hash.c:281-341 | A file is written exactly if allowed and openable; SAVE_ALLOWED and START_FILE get their defaults. |
| HashLoad.Client.CmdInterp | connectToSpread.c:555-718 | The ^set and ^lock branches in local mode, with the CLIENT flags; exactly which missing parameters are a null pointer. |
| HashLoad.Client.Load | hash.c:343-368 | The fgets loop runs the parsed lines. |
| HashLoad.ParseSetLine | connectToSpread.c:648-651 | A saved line reads back with every space of its value. |
| HashLoad.PutStatesAt | hash.c:47-72 | A name gets what its own entry stores over the table as it was. |
| HashLoad.LoadSaved | hash.c:281-368 | In local mode every line of a saved file executes and any table ends as the merge. |
| HashLoad.RestoresIff | connectToSpread.c:653-681 | Where no saved name is known, exactly the saved symbols are restored, value and lock included, if and only if a saved CLIENT is known to the flags. |
| Framing.EnqueueOutput | interactive_controller.py:19-38 | The queued chunks concatenate to the bytes handled and each ends at the first newline or prompt end in it, but possibly the last. |
| Framing.HandledAll | interactive_controller.py:26-28 | Nothing is lost exactly if the stop event is never seen. |
| Framing.OnlyChunking | interactive_controller.py:29-37 | There is only one such chunking of given bytes. |
| Framing.EndsIff | interactive_controller.py:29-37 | A chunk ends exactly at a newline or at the characters of the prompt toSpread>. |

## Left out

- Spread, SQLite, SQL text, pthreads, clocks and files: calls have arbitrary outcomes, statements act on rows, names hold no quotes and no statement is truncated.
- Failed allocations, dangling `getSymbol` pointers, and races of the receive thread with a command thread on the symbol table: its operations run one at a time. Settings read by a session stay as they are within it.
- SymbolTables.HashOf: characters are taken as unsigned. Where `char` is signed, SignedIndexIff says when the index is still inside the table; the buckets are not modelled for other names. A node's name and link are constants, since the code never rewrites them.
- Daemons.Daemon.ProcessSpreadCommand: what a line asks of the network and the terminal is only in the command it returns; what it asks of the cache is LineEffects.ExecuteOnCache.
- Session: database calls succeed (FailedCountDuplicates says what else can happen); only thread 0 calls `spreadConnect`; the additions that DEBUG makes carry time zero; a session may end at any wait, which covers every way `runFlag` is cleared.
- SaveLoad.LoadSaved: lines of more than 254 characters, which a reader cuts, and names or values with line ends, which only an option can store, are not covered, and so not in SelfLoadIff; SAVE_ALLOWED "false" writes no file, which SaveSymbols states.
- HashLoad.LoadSaved: empty values, values with a newline, and lines of more than 254 characters are not covered.
- RespDecode.SetRoundTrip: Overflow is a copy over the end of a row, which C does not define, and not a refusal; what it leaves is not modelled (a value of 32 to 63 characters lands in the spare fourth row and may be read back whole). Lengths are those of a C `int`; the sizes of the encoders' output buffers are not modelled.
- Template.ProcessFormat: a result that does not fit the 255 character buffer, which the code would overrun.
- HashLoad.Client.CmdInterp: commands other than ^set and ^lock, remote mode, and the Redis branch taken for a line that starts with `*`.
- Option, start-up and clean-up code (`handleCommonOption`, `initDefaultSymbols`, `finishSymbolInitialization`, `setupDatabase`) appears in runs as the list of its `setSymbol` calls.
- Output of `^dump`, `^help`, `^exec`, JSON configuration, FIFO and socket main loops, the MySQL programs, the older programs not built by default, Forth words and scripts.
