/**
 * The command dispatcher of `CommandHandler`: a decoded request (the
 * command name, then its arguments) is answered by one encoded reply.
 * Names match whatever their case.  SET, GET and KEYS read or update the
 * store; the other handlers read only the configuration.
 *
 * `Respond` is the meaning of one request: the reply text and the store
 * afterwards.  KEYS lists the keys in the order the map visits them,
 * which the source does not fix; `Respond` takes that order as the
 * argument `listing`, and `CommandHandler.HandleCommand` returns the order
 * it used.
 */
module Commands {
  import opened CLib
  import opened Resp
  import opened Storage

  /** The replication id every master reports. */
  const ReplicationId: string := "8371b4fb1155b71f4a04d3e1bc3e18c4a990aeeb"

  /** The command names the dispatcher recognises, upper-cased. */
  const Names: set<string> := {"PING", "ECHO", "SET", "GET", "CONFIG", "KEYS", "INFO", "REPLCONF", "PSYNC"}

  /** What the handlers read from the configuration: `getDir`, `getDbFilename`, `isReplica`. */
  datatype Settings = Settings(dir: string, dbFilename: string, replica: bool)

  /** A reply and the store's map once it has been computed. */
  datatype Reply = Reply(text: string, data: map<string, Entry>)

  /** `handlePing` */
  function Ping(): string
  {
    EncodeSimpleString("PONG")
  }

  /** `handleEcho` */
  function Echo(args: seq<string>): string
  {
    if args == [] then EncodeError("ERR wrong number of arguments for 'echo' command")
    else EncodeBulkString(args[0])
  }

  /**
   * `handleSet`: with at least four arguments and a third that reads PX in
   * any case, the fourth is the expiry in milliseconds, read by `stoi`; a
   * value `stoi` rejects is an error and nothing is stored.
   */
  function SetCommand(args: seq<string>, m: map<string, Entry>, now: nat): Reply
  {
    if |args| < 2 then Reply(EncodeError("ERR wrong number of arguments for 'set' command"), m)
    else if |args| >= 4 && Upper(args[2]) == "PX" then
      match StoI(args[3])
      case Threw => Reply(EncodeError("ERR invalid expire time in 'set' command"), m)
      case Done(ms) => Reply(EncodeSimpleString("OK"), m[args[0] := Entry(args[1], Some(now + ms))])
    else Reply(EncodeSimpleString("OK"), m[args[0] := Entry(args[1], None)])
  }

  /** `handleGet` */
  function GetCommand(args: seq<string>, m: map<string, Entry>, now: nat): Reply
  {
    if args == [] then Reply(EncodeError("ERR wrong number of arguments for 'get' command"), m)
    else
      var text := match Lookup(m, args[0], now)
        case Some(v) => EncodeBulkString(v)
        case None => EncodeNull();
      Reply(text, Purge(m, args[0], now))
  }

  /** `handleConfig`: CONFIG GET of `dir` or `dbfilename`, the parameter's name lower-cased. */
  function ConfigCommand(settings: Settings, args: seq<string>): string
  {
    if |args| < 2 then EncodeError("ERR wrong number of arguments for 'config' command")
    else if Upper(args[0]) == "GET" then
      var param := Lower(args[1]);
      if param == "dir" then ArrayFrame([param, settings.dir])
      else if param == "dbfilename" then ArrayFrame([param, settings.dbFilename])
      else ArrayFrame([])
    else EncodeError("ERR Unknown CONFIG subcommand")
  }

  /** `handleKeys`: only the pattern "*" is supported; the sweep erases expired entries. */
  function KeysCommand(args: seq<string>, m: map<string, Entry>, now: nat, listing: seq<string>): Reply
  {
    if args == [] then Reply(EncodeError("ERR wrong number of arguments for 'keys' command"), m)
    else if args[0] != "*" then Reply(EncodeError("ERR pattern not supported"), m)
    else Reply(ArrayFrame(listing), Live(m, now))
  }

  /** The body of the bulk string INFO replication returns. */
  function ReplicationInfo(replica: bool): string
  {
    var role := if replica then "slave" else "master";
    var info := "role:" + role + "\r\n";
    if replica then info
    else info + "master_replid:" + ReplicationId + "\r\n" + "master_repl_offset:0"
  }

  /** `handleInfo`: only the section `replication`, in any case. */
  function InfoCommand(settings: Settings, args: seq<string>): string
  {
    if args != [] && Lower(args[0]) == "replication" then EncodeBulkString(ReplicationInfo(settings.replica))
    else EncodeError("ERR wrong section for 'info' command")
  }

  /** `handleReplconf`: the arguments are ignored. */
  function Replconf(args: seq<string>): string
  {
    EncodeSimpleString("OK")
  }

  /** `handlePsync`: a full resynchronisation from offset 0. */
  function Psync(args: seq<string>): string
  {
    if |args| != 2 then EncodeError("ERR wrong number of arguments for 'psync' command")
    else EncodeSimpleString("FULLRESYNC " + ReplicationId + " 0")
  }

  /** `handleCommand`: the reply to `command` and the store afterwards. */
  function Respond(settings: Settings, command: seq<string>, m: map<string, Entry>, now: nat, listing: seq<string>): Reply
  {
    if command == [] then Reply(EncodeError("ERR empty command"), m)
    else
      var cmd := Upper(command[0]);
      var args := command[1..];
      if cmd == "PING" then Reply(Ping(), m)
      else if cmd == "ECHO" then Reply(Echo(args), m)
      else if cmd == "SET" then SetCommand(args, m, now)
      else if cmd == "GET" then GetCommand(args, m, now)
      else if cmd == "CONFIG" then Reply(ConfigCommand(settings, args), m)
      else if cmd == "KEYS" then KeysCommand(args, m, now, listing)
      else if cmd == "INFO" then Reply(InfoCommand(settings, args), m)
      else if cmd == "REPLCONF" then Reply(Replconf(args), m)
      else if cmd == "PSYNC" then Reply(Psync(args), m)
      else Reply(EncodeError("ERR unknown command '" + command[0] + "'"), m)
  }

  /** Whether answering `command` sweeps the store and lists its keys. */
  predicate ListsKeys(command: seq<string>)
  {
    |command| >= 2 && Upper(command[0]) == "KEYS" && command[1] == "*"
  }

  /** `listing` names every key of `m` once. */
  ghost predicate Enumerates(listing: seq<string>, m: map<string, Entry>)
  {
    NoDuplicates(listing) && forall k :: k in listing <==> k in m
  }

  class CommandHandler {
    const settings: Settings
    const store: Store

    constructor(settings: Settings, store: Store)
      ensures this.settings == settings && this.store == store
    {
      this.settings := settings;
      this.store := store;
    }

    method HandleSet(args: seq<string>, now: nat) returns (reply: string)
      modifies store
      ensures Reply(reply, store.data) == SetCommand(args, old(store.data), now)
    {
      if |args| < 2 {
        return EncodeError("ERR wrong number of arguments for 'set' command");
      }
      var key := args[0];
      var value := args[1];
      if |args| >= 4 {
        var option := Upper(args[2]);
        if option == "PX" {
          var expiry := StoI(args[3]);
          if expiry.Threw? {
            return EncodeError("ERR invalid expire time in 'set' command");
          }
          store.SetWithExpiry(key, value, expiry.value, now);
          return EncodeSimpleString("OK");
        }
      }
      store.Set(key, value);
      return EncodeSimpleString("OK");
    }

    method HandleGet(args: seq<string>, now: nat) returns (reply: string)
      modifies store
      ensures Reply(reply, store.data) == GetCommand(args, old(store.data), now)
    {
      if args == [] {
        return EncodeError("ERR wrong number of arguments for 'get' command");
      }
      var value := store.Get(args[0], now);
      if value.Some? {
        reply := EncodeBulkString(value.value);
      } else {
        reply := EncodeNull();
      }
    }

    method HandleKeys(args: seq<string>, now: nat) returns (reply: string, ghost listing: seq<string>)
      modifies store
      ensures Reply(reply, store.data) == KeysCommand(args, old(store.data), now, listing)
      ensures args != [] && args[0] == "*" ==> Enumerates(listing, store.data)
    {
      listing := [];
      if args == [] {
        return EncodeError("ERR wrong number of arguments for 'keys' command"), listing;
      }
      if args[0] != "*" {
        return EncodeError("ERR pattern not supported"), listing;
      }
      var keys := store.GetAllKeys(now);
      listing := keys;
      reply := EncodeArray(keys);
    }

    /** `handleCommand`; `listing` is the order in which KEYS listed the keys. */
    method HandleCommand(command: seq<string>, now: nat) returns (response: string, ghost listing: seq<string>)
      modifies store
      ensures Reply(response, store.data) == Respond(settings, command, old(store.data), now, listing)
      ensures ListsKeys(command) ==> Enumerates(listing, Live(old(store.data), now))
    {
      listing := [];
      if command == [] {
        return EncodeError("ERR empty command"), listing;
      }
      var cmd := Upper(command[0]);
      var args := command[1..];
      if cmd == "PING" {
        response := Ping();
      } else if cmd == "ECHO" {
        response := Echo(args);
      } else if cmd == "SET" {
        response := HandleSet(args, now);
      } else if cmd == "GET" {
        response := HandleGet(args, now);
      } else if cmd == "CONFIG" {
        response := ConfigCommand(settings, args);
      } else if cmd == "KEYS" {
        response, listing := HandleKeys(args, now);
      } else if cmd == "INFO" {
        response := InfoCommand(settings, args);
      } else if cmd == "REPLCONF" {
        response := Replconf(args);
      } else if cmd == "PSYNC" {
        response := Psync(args);
      } else {
        response := EncodeError("ERR unknown command '" + command[0] + "'");
      }
    }
  }

  // ---------------------------------------------------------------------
  // Properties

  /** The fixed names the dispatcher compares with are their own upper case. */
  lemma {:induction false} FixedNames()
    ensures Upper("PING") == "PING" && Upper("ECHO") == "ECHO" && Upper("SET") == "SET"
    ensures Upper("GET") == "GET" && Upper("CONFIG") == "CONFIG" && Upper("KEYS") == "KEYS"
    ensures Upper("INFO") == "INFO" && Upper("REPLCONF") == "REPLCONF" && Upper("PSYNC") == "PSYNC"
    ensures Upper("PX") == "PX"
  {
    UpperOfUpperCase("PING");
    UpperOfUpperCase("ECHO");
    UpperOfUpperCase("SET");
    UpperOfUpperCase("GET");
    UpperOfUpperCase("CONFIG");
    UpperOfUpperCase("KEYS");
    UpperOfUpperCase("INFO");
    UpperOfUpperCase("REPLCONF");
    UpperOfUpperCase("PSYNC");
    UpperOfUpperCase("PX");
  }

  /** An empty request is an error and leaves the store alone. */
  lemma {:induction false} EmptyCommandFails(settings: Settings, m: map<string, Entry>, now: nat, listing: seq<string>)
    ensures Respond(settings, [], m, now, listing) == Reply(EncodeError("ERR empty command"), m)
  {
  }

  /** An unrecognised name is an error quoting the name as it was sent, and leaves the store alone. */
  lemma {:induction false} UnknownCommandFails(settings: Settings, command: seq<string>, m: map<string, Entry>, now: nat, listing: seq<string>)
    requires command != [] && Upper(command[0]) !in Names
    ensures Respond(settings, command, m, now, listing) == Reply(EncodeError("ERR unknown command '" + command[0] + "'"), m)
  {
  }

  /** Names match whatever their case: any spelling with the same upper case gives the same answer. */
  lemma {:induction false} NamesIgnoreCase(settings: Settings, name: string, same: string, args: seq<string>,
                                           m: map<string, Entry>, now: nat, listing: seq<string>)
    requires Upper(same) == Upper(name)
    ensures Respond(settings, [same] + args, m, now, listing).data == Respond(settings, [name] + args, m, now, listing).data
    ensures Upper(name) in Names ==>
      Respond(settings, [same] + args, m, now, listing) == Respond(settings, [name] + args, m, now, listing)
  {
    assert ([same] + args)[1..] == args;
    assert ([name] + args)[1..] == args;
  }

  /** In particular the lower-case spelling of a name is recognised. */
  lemma {:induction false} LowerCaseNames(settings: Settings, name: string, args: seq<string>,
                                          m: map<string, Entry>, now: nat, listing: seq<string>)
    requires Upper(name) in Names
    ensures Respond(settings, [Lower(name)] + args, m, now, listing) == Respond(settings, [name] + args, m, now, listing)
  {
    UpperOfLower(name);
    NamesIgnoreCase(settings, name, Lower(name), args, m, now, listing);
  }

  /** PING answers PONG whatever its arguments; REPLCONF answers OK whatever its arguments. */
  lemma {:induction false} PingAndReplconfIgnoreArguments(settings: Settings, command: seq<string>,
                                                          m: map<string, Entry>, now: nat, listing: seq<string>)
    requires command != []
    ensures Upper(command[0]) == "PING" ==> Respond(settings, command, m, now, listing) == Reply(EncodeSimpleString("PONG"), m)
    ensures Upper(command[0]) == "REPLCONF" ==> Respond(settings, command, m, now, listing) == Reply(EncodeSimpleString("OK"), m)
  {
  }

  /** ECHO returns its first argument as a bulk string, and needs one. */
  lemma {:induction false} EchoOutcomes(settings: Settings, command: seq<string>, m: map<string, Entry>, now: nat, listing: seq<string>)
    requires command != [] && Upper(command[0]) == "ECHO"
    ensures Respond(settings, command, m, now, listing)
         == Reply(if |command| < 2 then EncodeError("ERR wrong number of arguments for 'echo' command")
                  else EncodeBulkString(command[1]), m)
  {
  }

  /** Only SET, GET and KEYS touch the store. */
  lemma {:induction false} OtherCommandsKeepStore(settings: Settings, command: seq<string>,
                                                  m: map<string, Entry>, now: nat, listing: seq<string>)
    requires command == [] || Upper(command[0]) !in {"SET", "GET", "KEYS"}
    ensures Respond(settings, command, m, now, listing).data == m
  {
  }

  /**
   * No command but SET changes what a lookup at `now` or later finds: GET
   * and KEYS only erase entries that have already expired.
   */
  lemma {:induction false} OnlySetChangesLookups(settings: Settings, command: seq<string>, m: map<string, Entry>,
                                                 now: nat, listing: seq<string>, k: string, later: nat)
    requires command == [] || Upper(command[0]) != "SET"
    requires now <= later
    ensures Lookup(Respond(settings, command, m, now, listing).data, k, later) == Lookup(m, k, later)
  {
    if command != [] && Upper(command[0]) == "GET" && command[1..] != [] {
      PurgeIsUnobservable(m, command[1..][0], now, k, later);
    } else if command != [] && Upper(command[0]) == "KEYS" && command[1..] != [] && command[1..][0] == "*" {
      LiveKeepsUnexpired(m, now, k, later);
    }
  }

  /**
   * The outcomes of SET: too few arguments or a PX value `stoi` rejects
   * leave the store alone; PX with a value stores an expiring entry; any
   * other shape stores the value with no expiry.  Every store answers OK.
   */
  lemma {:induction false} SetOutcomes(args: seq<string>, m: map<string, Entry>, now: nat)
    ensures |args| < 2 ==> SetCommand(args, m, now) == Reply(EncodeError("ERR wrong number of arguments for 'set' command"), m)
    ensures |args| >= 4 && Upper(args[2]) == "PX" && StoI(args[3]).Threw? ==>
      SetCommand(args, m, now) == Reply(EncodeError("ERR invalid expire time in 'set' command"), m)
    ensures |args| >= 4 && Upper(args[2]) == "PX" && StoI(args[3]).Done? ==>
      SetCommand(args, m, now) == Reply(EncodeSimpleString("OK"), m[args[0] := Entry(args[1], Some(now + StoI(args[3]).value))])
    ensures |args| >= 2 && !(|args| >= 4 && Upper(args[2]) == "PX") ==>
      SetCommand(args, m, now) == Reply(EncodeSimpleString("OK"), m[args[0] := Entry(args[1], None)])
  {
  }

  /** SET then GET of the same key returns the value at any later time. */
  lemma {:induction false} SetThenGet(settings: Settings, m: map<string, Entry>, k: string, v: string,
                                      now: nat, later: nat, l1: seq<string>, l2: seq<string>)
    ensures var stored := Respond(settings, ["SET", k, v], m, now, l1).data;
      Respond(settings, ["GET", k], stored, later, l2).text == EncodeBulkString(v)
  {
    FixedNames();
    assert ["SET", k, v][1..] == [k, v];
    assert ["GET", k][1..] == [k];
  }

  /**
   * SET with PX `ms` at `now`, then GET at `later`: the value while
   * `later < now + ms`, the null bulk string from then on.
   */
  lemma {:induction false} SetExpiringThenGet(settings: Settings, m: map<string, Entry>, k: string, v: string, px: string,
                                              ms: int, now: nat, later: nat, l1: seq<string>, l2: seq<string>)
    requires Upper(px) == "PX" && IntMin <= ms <= IntMax
    ensures var stored := Respond(settings, ["SET", k, v, px, IntToString(ms)], m, now, l1).data;
      Respond(settings, ["GET", k], stored, later, l2).text
        == if later < now + ms then EncodeBulkString(v) else EncodeNull()
  {
    FixedNames();
    StoIOfIntToString(ms);
    assert ["SET", k, v, px, IntToString(ms)][1..] == [k, v, px, IntToString(ms)];
    assert ["GET", k][1..] == [k];
  }

  /** GET answers the stored value as a bulk string, the null bulk string when there is none, and needs a key. */
  lemma {:induction false} GetOutcomes(args: seq<string>, m: map<string, Entry>, now: nat)
    ensures args == [] ==> GetCommand(args, m, now) == Reply(EncodeError("ERR wrong number of arguments for 'get' command"), m)
    ensures args != [] && Lookup(m, args[0], now).Some? ==>
      GetCommand(args, m, now).text == EncodeBulkString(m[args[0]].value)
    ensures args != [] && Lookup(m, args[0], now).None? ==> GetCommand(args, m, now).text == EncodeNull()
    ensures args != [] && args[0] !in m ==> GetCommand(args, m, now).data == m
  {
  }

  /**
   * The outcomes of CONFIG: an arity error below two arguments, an error
   * for a subcommand other than GET, the pair (name, value) for `dir` and
   * `dbfilename` in any case, and the empty array for any other name.
   */
  lemma {:induction false} ConfigOutcomes(settings: Settings, args: seq<string>)
    ensures |args| < 2 ==> ConfigCommand(settings, args) == EncodeError("ERR wrong number of arguments for 'config' command")
    ensures |args| >= 2 && Upper(args[0]) != "GET" ==> ConfigCommand(settings, args) == EncodeError("ERR Unknown CONFIG subcommand")
    ensures |args| >= 2 && Upper(args[0]) == "GET" && Lower(args[1]) == "dir" ==>
      ConfigCommand(settings, args) == ArrayFrame(["dir", settings.dir])
    ensures |args| >= 2 && Upper(args[0]) == "GET" && Lower(args[1]) == "dbfilename" ==>
      ConfigCommand(settings, args) == ArrayFrame(["dbfilename", settings.dbFilename])
    ensures |args| >= 2 && Upper(args[0]) == "GET" && Lower(args[1]) !in {"dir", "dbfilename"} ==>
      ConfigCommand(settings, args) == ArrayFrame([])
  {
  }

  /**
   * KEYS * answers the array of the unexpired keys, which a client decodes
   * back to the same list when no key holds a '\n'; another pattern is an
   * error and the store is left alone.
   */
  lemma {:induction false} KeysOutcomes(args: seq<string>, m: map<string, Entry>, now: nat, listing: seq<string>)
    requires Enumerates(listing, Live(m, now))
    ensures args == [] ==> KeysCommand(args, m, now, listing) == Reply(EncodeError("ERR wrong number of arguments for 'keys' command"), m)
    ensures args != [] && args[0] != "*" ==> KeysCommand(args, m, now, listing) == Reply(EncodeError("ERR pattern not supported"), m)
    ensures args != [] && args[0] == "*" && NoNewline(listing) && FitsInt(listing) ==>
      Decode(KeysCommand(args, m, now, listing).text, true) == Done(listing)
    ensures args != [] && args[0] == "*" ==>
      forall k :: k in listing <==> k in m && !Expired(m[k], now)
  {
    if args != [] && args[0] == "*" && NoNewline(listing) && FitsInt(listing) {
      RoundTrip(listing, true);
    }
  }

  /** A replica's replication section names only its role. */
  lemma {:induction false} ReplicaInfoText()
    ensures ReplicationInfo(true) == "role:slave\r\n"
  {
  }

  /** A master's replication section names its role, the fixed replication id and offset 0. */
  lemma {:induction false} MasterInfoText()
    ensures ReplicationInfo(false) == "role:master\r\n" + "master_replid:" + ReplicationId + "\r\n" + "master_repl_offset:0"
  {
  }

  /** INFO replication, in any case, reports the replication section; any other section, or none, is an error. */
  lemma {:induction false} InfoOutcomes(settings: Settings, args: seq<string>)
    ensures args != [] && Lower(args[0]) == "replication" ==>
      InfoCommand(settings, args) == EncodeBulkString(ReplicationInfo(settings.replica))
    ensures args == [] || Lower(args[0]) != "replication" ==>
      InfoCommand(settings, args) == EncodeError("ERR wrong section for 'info' command")
  {
  }

  /** PSYNC with its two arguments answers a full resynchronisation; any other count is an arity error. */
  lemma {:induction false} PsyncOutcomes(args: seq<string>)
    ensures |args| == 2 ==> Psync(args) == EncodeSimpleString("FULLRESYNC " + ReplicationId + " 0")
    ensures |args| != 2 ==> Psync(args) == EncodeError("ERR wrong number of arguments for 'psync' command")
  {
  }
}
