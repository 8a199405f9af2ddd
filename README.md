# A model of a small Redis server in Dafny

This project models the core of a small Redis clone written in C++ and
proves properties of the model. The clone speaks RESP2 (the Redis
Serialization Protocol, version 2) and keeps an in-memory key-value store
whose entries may expire. It answers PING, ECHO, SET (with PX), GET,
CONFIG GET, KEYS \*, INFO replication, REPLCONF and PSYNC. As a replica it
performs the PING / REPLCONF / REPLCONF handshake with its master.

The modules follow the source files:

| module | file | source |
|---|---|---|
| `CLib` | `clib.dfy` | the C++ library calls the core relies on: `std::stoi` (with its exceptions), `std::to_string`, ASCII `toupper`/`tolower` |
| `Resp` | `resp.dfy` | `src/RESPParser.cpp`: the encoders, the request-array decoder `parseArray`, `parseSimpleString` |
| `Storage` | `storage.dfy` | `src/Storage.cpp`: the expiring store, a class over a `map` |
| `Commands` | `commands.dfy` | `src/CommandHandler.cpp`: the dispatcher, as a function `Respond` and a class `CommandHandler` proved against it |
| `Legacy` | `legacy.dfy` | `src/Server.cpp`: the older stand-alone parser and dispatcher, related to the ones above |
| `Configuration` | `configuration.dfy` | `src/Config.cpp`: the defaults and the `parseArgs` loop |
| `Redis` | `server.dfy` | `src/RedisServer.cpp`: the replica handshake, the startup order of `run`, the set of client descriptors |

How the modules are written:

- The decoder's meaning is given by functions.
  - `Lines` lists the lines that `std::getline` yields from a position.
  - `Bulks` lists what the loop reads from those lines: each declared length with its payload line.
  - `Decode(data, truncate)` turns that into the returned strings, each cut to its declared length when `truncate` holds.
- `ParseArray` (this parser) and `Legacy.ParseRESPArray` (the older one, which does not cut) are loops proved equal to `Decode` with `truncate` true and false.
- The store, the command handler, the configuration and the server are classes whose methods update their fields in place.
  - Each method's contract gives its new state as a function of the old one.
  - Lemmas about those functions state what the source promises.
- Time is the parameter `now` (milliseconds).
- Every socket call is an input: its result is passed in and its output is recorded.

How the model treats `std::stoi` exceptions:

- `std::stoi` throws when it meets a count, a length or a `--port` value it cannot read.
- That exception is not caught, so it ends the program.
- The model does not forbid such inputs. It returns an `Outcome` whose `Threw` case stands for the exception.

## Model

| member | source | states |
|---|---|---|
| `CLib.StoI` | src/RESPParser.cpp:20 | `std::stoi`: every value it returns without throwing lies in the range of a 32-bit `int`; `StoIOutcomes` states all its outcomes |
| `CLib.StoIOutcomes` | src/RESPParser.cpp:20 | `std::stoi` on white space, an optional sign, a run of digits and a rest that does not go on with a digit: no digit throws, a signed value outside `int` throws, otherwise the result is that value |
| `CLib.StoISkipsSpace` | src/Config.cpp:19 | `std::stoi` skips leading C-locale white space before reading the number |
| `CLib.SignedDecimalOutcomes` | src/CommandHandler.cpp:83 | after the white space, a sign and a run of digits read as their signed value when it fits an `int`; no digit or a value out of range throws |
| `CLib.NatToString` | src/RESPParser.cpp:66 | `std::to_string` of a length: a non-empty run of decimal digits with no leading zero |
| `CLib.IntToString` | src/RedisServer.cpp:146 | `std::to_string` of an `int` (the port): a minus sign for a negative value, then the digits of its magnitude; `StoIOfIntToString` proves `stoi` reads it back |
| `CLib.DigitsValueOfNatToString` | src/RESPParser.cpp:66 | the digits `std::to_string` writes have the value written |
| `CLib.StoIReadsLeadingDecimal` | src/CommandHandler.cpp:83 | `stoi` reads back any `int` that `to_string` wrote, whatever non-digit text follows: it parses a leading signed decimal and does not validate the rest |
| `CLib.StoIOfNonNegative` | src/RESPParser.cpp:20 | `stoi` of a non-negative numeral followed by non-digits is its value |
| `CLib.StoIOfNegative` | src/RESPParser.cpp:20 | `stoi` of `-` and a numeral followed by non-digits is the negated value |
| `CLib.StoIOfNatToString` | src/RESPParser.cpp:30 | `stoi(to_string(n)) == n` for every `n` that fits an `int` |
| `CLib.StoIOfIntToString` | src/Config.cpp:19 | `stoi(to_string(i)) == i` for every `int`, negative ones included |
| `CLib.NatToStringLength` | src/RedisServer.cpp:146 | a decimal numeral has at most one digit more than a tenth of its value |
| `CLib.Upper` | src/CommandHandler.cpp:23 | `std::transform` with ASCII `toupper` on a copy of the name; `UpperOfLower` and `UpperOfUpperCase` state its properties |
| `CLib.Lower` | src/CommandHandler.cpp:122 | `std::transform` with ASCII `tolower` on a copy; `LowerOfUpper` and `LowerOfLowerCase` state its properties |
| `CLib.UpperOfLower` | src/CommandHandler.cpp:23 | upper-casing after lower-casing is upper-casing: the case a name was sent in does not matter |
| `CLib.LowerOfUpper` | src/CommandHandler.cpp:122 | lower-casing after upper-casing is lower-casing |
| `CLib.UpperOfUpperCase` | src/CommandHandler.cpp:23 | upper-casing a string with no lower-case letter leaves it unchanged |
| `CLib.LowerOfLowerCase` | src/CommandHandler.cpp:158 | lower-casing a string with no upper-case letter leaves it unchanged |
| `Resp.EncodeSimpleString` | src/RESPParser.cpp:61-63 | `"+" + s + "\r\n"`; `SimpleStringRoundTrip` proves `ParseSimpleString` recovers `s` when it holds no `\r\n` |
| `Resp.EncodeBulkString` | src/RESPParser.cpp:65-67 | `"$" + to_string(length) + "\r\n" + s + "\r\n"`; `LinesOfBulkFrame` and `ReadOneBulk` prove the decoder reads it back as `s` with its exact length |
| `Resp.EncodeError` | src/RESPParser.cpp:77-79 | `"-" + e + "\r\n"`: every error reply of both dispatchers, whose byte equality the `Legacy.LegacyAgreesOn…` lemmas prove |
| `Resp.EncodeNull` | src/RESPParser.cpp:81 | `"$-1\r\n"`, the null bulk string GET answers for a missing or expired key (`Commands.GetOutcomes`, `Commands.SetExpiringThenGet`) |
| `Resp.ArrayFrame` | src/RESPParser.cpp:69-75 | the array `encodeArray` builds: the count header, then every item's bulk encoding in order; `EncodeArray` is proved to build it and `RoundTrip` proves the decoder inverts it |
| `Resp.EncodeArray` | src/RESPParser.cpp:69-75 | the append loop of `encodeArray` builds `*<count>\r\n` followed by the bulk encoding of every item, in order |
| `Resp.BulkFramesSnoc` | src/RESPParser.cpp:71-73 | appending one more item appends its bulk encoding: the body of the loop |
| `Resp.EmptyArrayFrame` | src/RESPParser.cpp:69-75 | `encodeArray([])` is `*0\r\n` |
| `Resp.LineAt` | src/RESPParser.cpp:23 | the line `getline` yields from a position ends inside `data`, at a `\n` or at the end of the stream |
| `Resp.LineAtIsText` | src/RESPParser.cpp:23 | the line `getline` yields from a position is the text of `data` from there on, so with `LineAt`'s contract it is exactly the text up to the first `\n` or to the end |
| `Resp.GetLine` | src/RESPParser.cpp:12 | `getline` fails exactly when nothing is left, and otherwise moves forward |
| `Resp.LineAtHasNoNewline` | src/RESPParser.cpp:23 | a line `getline` yields holds no `\n` |
| `Resp.LinesHaveNoNewline` | src/RESPParser.cpp:22-43 | no line the loop reads holds a `\n` |
| `Resp.LinesStep` | src/RESPParser.cpp:23 | each `getline` consumes the head of the lines still to be read |
| `Resp.Lines` | src/RESPParser.cpp:22-43 | the lines `getline` yields from a position until the stream is exhausted; `LinesStep` ties each `getline` to its head and `LinesHaveNoNewline` states that none holds `\n` |
| `Resp.Bulks` | src/RESPParser.cpp:22-43 | what the loop reads from the remaining lines with `n` more declared; `ReadElements` is proved equal to it and `BulksAtMost`, `BulksAreLines` state its bounds |
| `Resp.Elements` | src/RESPParser.cpp:12-43 | the header, then the bulk strings the loop reads; `ReadHeader` is proved to follow it and `DecodeRejectsNonArray`, `DecodedElements` state its outcomes |
| `Resp.Decode` | src/RESPParser.cpp:7-46 | the strings either parser returns, cut to their declared lengths when `truncate` holds; `ParseArray` and `Legacy.ParseRESPArray` are proved equal to it, `RoundTrip` inverts `ArrayFrame` with it |
| `Resp.ReadHeader` | src/RESPParser.cpp:12-20 | the first line: no array (empty result) when missing, empty or not starting with `*`; `stoi` on the count throws or gives the count the loop then reads |
| `Resp.ReadBulk` | src/RESPParser.cpp:23-36 | one turn reads a `$` header, its length and its payload line, each with its `\r` dropped, or stops (missing line, header without `$`, missing payload) or throws (`stoi` on the length), exactly as the decoder's meaning says |
| `Resp.ReadElements` | src/RESPParser.cpp:22-43 | the `for` loop returns what the decoder's meaning gives for the lines after the header and the declared count |
| `Resp.ReadElement` | src/RESPParser.cpp:23-42 | one turn appends the payload, cut to its declared length when cutting is on and the lengths differ, and leaves the outcome of the whole loop unchanged |
| `Resp.ParseArray` | src/RESPParser.cpp:7-46 | `parseArray` returns `Decode(data, true)`: the payloads cut to their declared lengths, or the exception |
| `Resp.BulksThrow` | src/RESPParser.cpp:30 | a bulk length `stoi` rejects throws and ends the parse |
| `Resp.BulksLast` | src/RESPParser.cpp:32 | a bulk header with no payload line after it ends the array, keeping what was read |
| `Resp.BulksNext` | src/RESPParser.cpp:23-42 | a header and a payload line read as one element, and the loop continues with one fewer declared |
| `Resp.ElementsAfterHeader` | src/RESPParser.cpp:12-22 | after an array header with count `n`, the parse reads up to `n` bulk strings from the following lines |
| `Resp.ElementsThrow` | src/RESPParser.cpp:20 | an array count `stoi` rejects throws |
| `Resp.DecodeRejectsNonArray` | src/RESPParser.cpp:12-14 | an input whose first line is missing, empty or not a `*` header decodes to the empty sequence (both parsers) |
| `Resp.BulksAtMost` | src/RESPParser.cpp:22 | the loop reads at most as many bulk strings as declared, none for a count of zero or less |
| `Resp.DecodeAtMostDeclared` | src/RESPParser.cpp:22-43 | both parsers return at most the declared count of elements, and nothing without a header |
| `Resp.DecodeShortArray` | src/RESPParser.cpp:23-32 | an array that declares more elements than it carries returns the elements it has, whether the stream ends after them or goes on with a line that is not a `$` header |
| `Resp.NoBulkHeaderLeft` | src/RESPParser.cpp:23-24 | at the end of the stream, or before a line that does not start with `$`, the loop breaks and reads nothing more |
| `Resp.DecodeDeclaredPrefix` | src/RESPParser.cpp:22 | an array that carries more elements than it declares returns the declared prefix, whatever follows |
| `Resp.BulksAreLines` | src/RESPParser.cpp:32-36 | every payload the loop reads is a line with no `\n` |
| `Resp.DecodedElements` | src/RESPParser.cpp:34-42 | each returned element is one line with its `\r` dropped; this parser's element is the uncut element cut to the declared length, and is no longer than that length |
| `Resp.LinesOfBulkFrame` | src/RESPParser.cpp:65-67 | `getline` splits one bulk encoding into its header line and its payload line |
| `Resp.LinesOfBulkFrames` | src/RESPParser.cpp:69-75 | `getline` splits the bulk encodings of an array into two lines per item |
| `Resp.ReadOneBulk` | src/RESPParser.cpp:23-42 | the lines of one bulk encoding read back as that item with its exact length |
| `Resp.ReadBulkFrames` | src/RESPParser.cpp:22-43 | the lines of the bulk encodings of `items` read back as `items`, each with its exact length, and reading goes on after them |
| `Resp.ReadBulkFramesPrefix` | src/RESPParser.cpp:22 | with a smaller count, the loop reads only the first `n` items |
| `Resp.ArrayHeaderValue` | src/RESPParser.cpp:12-20 | the header `encodeArray` writes is an array header whose count reads back as written |
| `Resp.ExactPayloads` | src/RESPParser.cpp:38-40 | items read with their exact lengths come out unchanged, cut or not |
| `Resp.RoundTrip` | src/RESPParser.cpp:7-46 | `parseArray(encodeArray(items)) == items` when no item holds a `\n` and every length fits an `int`; the same holds for the parser that does not cut |
| `Resp.DecodersAlign` | src/Server.cpp:17-57 | the two parsers throw on the same inputs and otherwise return the same number of elements |
| `Resp.DecodersAgreeOnAccurateLengths` | src/Server.cpp:17-57 | where every declared length matches its payload, the legacy parser returns exactly what `parseArray` returns |
| `Resp.FindCRLF` | src/RESPParser.cpp:53 | `data.find("\r\n")`: the index of the first `\r\n`, or none when there is none |
| `Resp.ParseSimpleString` | src/RESPParser.cpp:48-59 | `""` when the input does not start with `+` or has no `\r\n`; otherwise exactly the text after the `+` up to the first `\r\n` |
| `Resp.SimpleStringRoundTrip` | src/RESPParser.cpp:48-63 | `parseSimpleString(encodeSimpleString(s)) == s` when `s` holds no `\r\n` |
| `Storage.Store.constructor` | src/Storage.cpp:5 | a new store is empty |
| `Storage.Store.Set` | src/Storage.cpp:5-8 | `set` stores the value with no expiry under the key and changes nothing else |
| `Storage.Store.SetWithExpiry` | src/Storage.cpp:10-14 | `setWithExpiry` stores the value with expiry `now + ms` under the key and changes nothing else |
| `Storage.Store.Get` | src/Storage.cpp:16-33 | `get` returns the value of a present, unexpired entry and nothing otherwise; it erases the key exactly when its entry has expired and changes nothing else |
| `Storage.Store.RemoveExpiredKey` | src/Storage.cpp:35-43 | `removeExpiredKey` erases the key exactly when it has an expiry that has passed |
| `Storage.Store.GetAllKeys` | src/Storage.cpp:45-61 | the sweep erases exactly the expired entries, keeps the others unchanged, and lists each remaining key exactly once |
| `Storage.Lookup` | src/Storage.cpp:16-33 | what `get` answers: the value of a present entry that has not expired; `SetThenLookup` and `SetWithExpiryThenLookup` state it after a store |
| `Storage.Purge` | src/Storage.cpp:24-29 | the map after the lazy erase of one key; `PurgeErasesOnlyExpired` and `PurgeIsUnobservable` state what it erases and that no later lookup sees it |
| `Storage.Live` | src/Storage.cpp:51-58 | the map after the sweep of `getAllKeys`; `LiveKeepsUnexpired` and `LiveIdempotent` state what it keeps |
| `Storage.SetThenLookup` | src/Storage.cpp:5-8 | after `set(k, v)`, `get(k)` returns `v` at every time |
| `Storage.SetWithExpiryThenLookup` | src/Storage.cpp:10-30 | after `setWithExpiry(k, v, ms)` at `t0`, `get(k)` at `t` returns `v` if and only if `t < t0 + ms` |
| `Storage.StoreTouchesOnlyKey` | src/Storage.cpp:7-13 | storing under one key changes no other key or lookup |
| `Storage.ExpiredStaysExpired` | src/Storage.cpp:24-29 | a key that reads as absent at one time stays absent later |
| `Storage.PurgeIsUnobservable` | src/Storage.cpp:26-29 | the lazy erase in `get` changes no lookup made at that time or later |
| `Storage.PurgeErasesOnlyExpired` | src/Storage.cpp:35-43 | a purge erases at most its own key, only when expired, and leaves every other entry unchanged |
| `Storage.LiveKeepsUnexpired` | src/Storage.cpp:51-58 | the sweep keeps exactly the unexpired entries, and lookups at that time or later answer as before it |
| `Storage.LiveIdempotent` | src/Storage.cpp:45-61 | a second sweep at the same time changes nothing |
| `Commands.CommandHandler.constructor` | src/CommandHandler.cpp:14 | the handler keeps the configuration and the shared store it is given |
| `Commands.CommandHandler.HandleSet` | src/CommandHandler.cpp:68-95 | `handleSet` gives the reply and the new store that `SET` means |
| `Commands.CommandHandler.HandleGet` | src/CommandHandler.cpp:97-109 | `handleGet` gives the reply and the new store that `GET` means |
| `Commands.CommandHandler.HandleKeys` | src/CommandHandler.cpp:139-152 | `handleKeys` gives the reply and the swept store that `KEYS` means, and its listing names every remaining key once |
| `Commands.CommandHandler.HandleCommand` | src/CommandHandler.cpp:16-54 | `handleCommand` answers and updates the store as `Respond` says; for `KEYS *` the listing names every unexpired key once |
| `Commands.Respond` | src/CommandHandler.cpp:16-54 | the reply and new store of one request: an empty request, the nine names in any case, or an unknown name; `CommandHandler.HandleCommand` is proved equal to it and the lemmas below state each outcome |
| `Commands.Ping` | src/CommandHandler.cpp:56-58 | `+PONG\r\n` (`PingAndReplconfIgnoreArguments`) |
| `Commands.Echo` | src/CommandHandler.cpp:60-66 | the arity error or the bulk string of the first argument (`EchoOutcomes`) |
| `Commands.SetCommand` | src/CommandHandler.cpp:68-95 | the reply and store of SET; `CommandHandler.HandleSet` is proved equal to it and `SetOutcomes` states its four outcomes |
| `Commands.GetCommand` | src/CommandHandler.cpp:97-109 | the reply and store of GET; `CommandHandler.HandleGet` is proved equal to it and `GetOutcomes` states its outcomes |
| `Commands.ConfigCommand` | src/CommandHandler.cpp:111-137 | the reply of CONFIG (`ConfigOutcomes`) |
| `Commands.KeysCommand` | src/CommandHandler.cpp:139-152 | the reply and store of KEYS given the listing order; `CommandHandler.HandleKeys` is proved equal to it and `KeysOutcomes` states its outcomes |
| `Commands.ReplicationInfo` | src/CommandHandler.cpp:162-169 | the replication section (`ReplicaInfoText`, `MasterInfoText`) |
| `Commands.InfoCommand` | src/CommandHandler.cpp:154-177 | the reply of INFO (`InfoOutcomes`) |
| `Commands.Replconf` | src/CommandHandler.cpp:179-184 | `+OK\r\n` whatever the arguments (`PingAndReplconfIgnoreArguments`) |
| `Commands.Psync` | src/CommandHandler.cpp:186-200 | the reply of PSYNC (`PsyncOutcomes`) |
| `Commands.FixedNames` | src/CommandHandler.cpp:25-48 | the names the dispatcher compares with, and `PX`, are their own upper case |
| `Commands.EmptyCommandFails` | src/CommandHandler.cpp:18-20 | an empty request answers `-ERR empty command\r\n` and leaves the store unchanged |
| `Commands.UnknownCommandFails` | src/CommandHandler.cpp:51-53 | an unknown name answers the unknown-command error, quoting the name in its original case, and leaves the store unchanged |
| `Commands.NamesIgnoreCase` | src/CommandHandler.cpp:22-23 | two spellings of a name with the same upper case get the same answer and the same new store |
| `Commands.LowerCaseNames` | src/CommandHandler.cpp:22-50 | the lower-case spelling of every name is recognised and answered alike |
| `Commands.PingAndReplconfIgnoreArguments` | src/CommandHandler.cpp:56-58 | PING answers `+PONG\r\n` and REPLCONF `+OK\r\n`, whatever their arguments, and neither changes the store |
| `Commands.EchoOutcomes` | src/CommandHandler.cpp:60-66 | ECHO with no argument is the arity error, otherwise the bulk string of its first argument |
| `Commands.OtherCommandsKeepStore` | src/CommandHandler.cpp:16-54 | no command other than SET, GET and KEYS changes the store |
| `Commands.OnlySetChangesLookups` | src/CommandHandler.cpp:103-150 | no command but SET changes what a lookup at that time or later finds |
| `Commands.SetOutcomes` | src/CommandHandler.cpp:68-95 | SET with fewer than 2 arguments is the arity error; PX with a value `stoi` rejects is the expire-time error; neither changes the store; PX with a value stores an expiring entry; every other shape stores the value with no expiry; each store answers `+OK\r\n` |
| `Commands.SetThenGet` | src/CommandHandler.cpp:68-109 | SET then GET of the same key answers the value, at any later time |
| `Commands.SetExpiringThenGet` | src/CommandHandler.cpp:77-109 | after `SET k v PX ms`, GET answers the value while the time is below `now + ms`, and the null bulk string from then on |
| `Commands.GetOutcomes` | src/CommandHandler.cpp:97-109 | GET with no key is the arity error; it answers the bulk string of a live value, the null bulk string otherwise, and leaves the store unchanged for an absent key |
| `Commands.ConfigOutcomes` | src/CommandHandler.cpp:111-137 | CONFIG: the arity error below 2 arguments, an error for a subcommand other than GET, the pair (name, value) for `dir` and `dbfilename` in any case, `*0\r\n` for any other name |
| `Commands.KeysOutcomes` | src/CommandHandler.cpp:139-152 | KEYS with no argument is the arity error and any pattern but `*` an error; `KEYS *` lists exactly the unexpired keys, in an array a client decodes back to the same list |
| `Commands.ReplicaInfoText` | src/CommandHandler.cpp:162-163 | a replica's replication section is `role:slave\r\n` |
| `Commands.MasterInfoText` | src/CommandHandler.cpp:162-168 | a master's replication section gives its role, the fixed replication id and offset 0 |
| `Commands.InfoOutcomes` | src/CommandHandler.cpp:154-177 | INFO replication, in any case, answers the replication section as a bulk string; any other section, or none, is an error |
| `Commands.PsyncOutcomes` | src/CommandHandler.cpp:186-200 | PSYNC with exactly 2 arguments answers `+FULLRESYNC <id> 0\r\n`, otherwise the arity error |
| `Legacy.ParseRESPArray` | src/Server.cpp:17-57 | the legacy parser returns `Decode(data, false)`: the same loop as `parseArray` but with each payload kept whole |
| `Legacy.HandleCommand` | src/Server.cpp:60-81 | the legacy dispatcher: the empty-command error, PONG, the ECHO arity error or bulk string, and the unknown-command error; the lemmas below state each answer and relate it to `Commands.Respond` |
| `Legacy.LegacyAgreesOnEmpty` | src/Server.cpp:61-63 | the legacy dispatcher answers an empty request with the same bytes as `CommandHandler` |
| `Legacy.LegacyAgreesOnPing` | src/Server.cpp:65-70 | the legacy dispatcher answers PING, in any case and with any arguments, as `CommandHandler` does |
| `Legacy.LegacyAgreesOnEcho` | src/Server.cpp:71-77 | the legacy dispatcher answers ECHO, with or without an argument, with the same bytes as `CommandHandler`: its hand-written bulk string is `encodeBulkString` |
| `Legacy.LegacyKnowsOnlyPingAndEcho` | src/Server.cpp:78-80 | every other name, SET and GET included, is an unknown command to the legacy dispatcher |
| `Legacy.LegacyAgreesOnUnknown` | src/Server.cpp:78-80 | a name neither dispatcher knows gets the same error from both |
| `Legacy.LegacyEcho` | src/Server.cpp:17-77 | an ECHO request a client encodes parses back whole and is answered with the bulk string of its argument |
| `Configuration.Config.constructor` | src/Config.cpp:6-10 | the defaults are dir `.`, dbfilename `dump.rdb` and port 6379 |
| `Configuration.Config.ParseArgs` | src/Config.cpp:12-22 | the loop sets the fields as `Apply` says from index 1; it fails exactly when `stoi` throws on a `--port` value |
| `Configuration.Apply` | src/Config.cpp:13-21 | what the loop does from an index on; `Config.ParseArgs` is proved equal to it and the lemmas below state its properties |
| `Configuration.ApplyReadsOnlySuffix` | src/Config.cpp:13 | the loop reads the arguments only from its index on |
| `Configuration.ProgramNameIgnored` | src/Config.cpp:13 | `argv[0]` is never inspected, even when it reads as a flag |
| `Configuration.FlagTakesNextArgument` | src/Config.cpp:14-19 | a recognised flag followed by a value sets its field to that value, and the loop goes on after the value; `stoi` throwing on a port ends the parse |
| `Configuration.UnknownArgumentIgnored` | src/Config.cpp:13-21 | an argument that is not a recognised flag is passed over |
| `Configuration.TrailingFlagIgnored` | src/Config.cpp:14-18 | a flag in the last position changes no field |
| `Configuration.LaterFlagOverrides` | src/Config.cpp:14-15 | of two `--dir` flags in a row, the later value wins |
| `Configuration.FieldsChangeOnlyByTheirFlag` | src/Config.cpp:13-21 | a field changes only when its own flag is among the arguments |
| `Configuration.ValuesComeFromArguments` | src/Config.cpp:15-17 | the resulting directory and file name are the old values or arguments that follow the index |
| `Configuration.AllThreeOptions` | src/Config.cpp:12-22 | a command line naming all three flags sets all three fields |
| `Redis.Agreed` | src/RedisServer.cpp:115-199 | how many handshake exchanges in a row went through: every exchange before that count was answered as expected, and the one at the count, if any, was not |
| `Redis.Frames` | src/RedisServer.cpp:116-175 | the three frames the handshake sends, in order; `FixedFramesDecode` and `PortFrameDecodes` prove a master decodes them back to their words |
| `Redis.HandshakeOf` | src/RedisServer.cpp:77-205 | what `connectToMaster` returns, sends and leaves in `masterFd_`; `RedisServer.ConnectToMaster` is proved equal to it and `HandshakeSucceedsIff`, `HandshakeStopsAtFailure`, `FailedHandshakeClosesMaster` state its properties |
| `Redis.Startup` | src/RedisServer.cpp:207-220 | the stages `run` goes through; `RedisServer.Run` is proved to follow it and `StartupOrder` states the order |
| `Redis.PhaseOf` | src/RedisServer.cpp:207-220 | how the startup of `run` ends; `RedisServer.Run` returns it |
| `Redis.RedisServer.constructor` | src/RedisServer.cpp:22-27 | a fresh empty store shared with the handler, no server or master socket, no clients |
| `Redis.RedisServer.SendAndExpect` | src/RedisServer.cpp:115-142 | one handshake step sends its frame and succeeds exactly when the frame was sent and the reply parses to the expected text; on failure the master socket is reset to -1 |
| `Redis.RedisServer.ConnectToMaster` | src/RedisServer.cpp:77-205 | `connectToMaster` returns, sends and leaves in `masterFd_` what `HandshakeOf` says, touching no other field |
| `Redis.RedisServer.HandleNewConnection` | src/RedisServer.cpp:254-267 | an accepted descriptor joins the clients; a failed accept changes nothing |
| `Redis.RedisServer.CloseClient` | src/RedisServer.cpp:287-291 | closing removes exactly that descriptor from the clients |
| `Redis.RedisServer.HandleClientData` | src/RedisServer.cpp:269-285 | a failed read closes exactly that client; a request that parses to nothing sends nothing; a request `parseArray` rejects throws; any other request is answered as `Respond` says, the reply recorded as sent to that client |
| `Redis.RedisServer.CreateServerSocket` | src/RedisServer.cpp:41-75 | the server socket is usable exactly when `socket` returned a descriptor and `setsockopt`, `bind` and `listen` succeeded |
| `Redis.RedisServer.LoadRDBFile` | src/RedisServer.cpp:293-303 | the snapshot loader may only add entries, and its result is what the parser returned |
| `Redis.RedisServer.Run` | src/RedisServer.cpp:207-220 | the startup runs the stages `Startup` lists and ends in the phase `PhaseOf` gives, loading the snapshot from `dir/dbfilename` and sending the handshake frames only as a listening replica; `serverFd` is the socket afterwards, and `masterFd` is what the handshake leaves for a listening replica and unchanged otherwise |
| `Redis.HandshakeSucceedsIff` | src/RedisServer.cpp:77-205 | the handshake succeeds if and only if the socket is created, the host resolves, the connection is made and the three replies parse to PONG, OK and OK, each after its request was sent |
| `Redis.HandshakeStopsAtFailure` | src/RedisServer.cpp:115-199 | the frames sent are a prefix of PING, REPLCONF listening-port, REPLCONF capa, and nothing is sent after the first failed exchange |
| `Redis.FailedHandshakeClosesMaster` | src/RedisServer.cpp:96-198 | every failure after socket creation leaves `masterFd_` at -1; success keeps the socket |
| `Redis.HandshakeWithWellBehavedMaster` | src/RedisServer.cpp:115-204 | a master answering `+PONG\r\n`, `+OK\r\n`, `+OK\r\n` completes the handshake, and all three frames are sent |
| `Redis.PortNumeralIsShortLine` | src/RedisServer.cpp:146 | the decimal form of the port holds no `\n` and its length fits an `int` |
| `Redis.FixedFramesDecode` | src/RedisServer.cpp:116 | the master's `parseArray` decodes the PING and capa frames back to their words |
| `Redis.PortFrameDecodes` | src/RedisServer.cpp:146 | the master's `parseArray` decodes the listening-port frame back to its words |
| `Redis.MasterAnswersHandshake` | src/RedisServer.cpp:116-175 | a master running this `CommandHandler` answers the three requests with exactly the replies the handshake expects |
| `Redis.StartupOrder` | src/RedisServer.cpp:207-220 | without a server socket nothing else happens; the snapshot loads before the handshake; a failed handshake never reaches the serve loop |

## Left out

- Concurrency: the `std::mutex` that guards the store is not modelled. Each store operation is one atomic step (`removeExpiredKey` takes no lock in the source).
- The clock: `steady_clock::now()` is the parameter `now`, an integer number of milliseconds. `setWithExpiry` is given that instant by its caller.
- Sockets and logging are not modelled.
  - This covers `socket`, `setsockopt`, `bind`, `listen`, `accept`, `recv`, `send`, `select`, `close`, `inet_pton`, `gethostbyname`, and all `cout`/`cerr` output.
  - Their results are inputs, and the frames handed to `send` are recorded.
  - The 256- and 1024-byte `recv` buffers are not modelled.
  - `HandleClientData` receives the bytes already read.
  - The handshake receives each reply as already read.
- The serve loop of `run` (the `while (true)` around `select`) is not modelled past its entry: an infinite loop of I/O events. Each of its steps is `HandleNewConnection` or `HandleClientData` on a descriptor, and those are modelled.
- The snapshot (RDB) parser: `RDBParser.cpp` is not part of this model, so `LoadRDBFile` takes the entries it would store and its result as inputs.
- `main` in `src/main.cpp` and in `src/Server.cpp` is process bootstrap and socket plumbing.
- The destructor of `RedisServer` closes descriptors and changes no modelled state.
- Case folding is ASCII `toupper`/`tolower`; locales are not modelled.
- Strings: each C++ `std::string` is a `seq<char>` in which one `char` stands for one byte. The lengths `encodeBulkString` and `encodeArray` write, and the lengths the truncation in `parseArray` compares, are therefore byte counts. Text encodings such as UTF-8 are not modelled, so a multi-byte character is several elements.
- `isReplica`, `getMasterHost` and `getMasterPort` are not declared in `include/redis/Config.h`.
  - The dispatcher reads the replica flag from a `Settings` record.
  - The master's address appears only through whether it resolved and connected (`Link`).
- The literal replies of the legacy `handleCommand` are written with the encoders of `Resp`, which give exactly the same strings.
- Commands.CommandHandler.HandleKeys: the order in which KEYS lists the keys is the map's iteration order, which the source does not fix. The dispatcher's meaning takes that order as an argument, and the contract states only that the listing names every unexpired key once.
- After an uncaught `std::stoi` exception the program ends. The model stops with `Threw` and says nothing about what follows.
