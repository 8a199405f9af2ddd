/**
 * The first, stand-alone server loop (`Server.cpp`): its own copy of the
 * request parser, which never cuts a payload to its declared length, and a
 * dispatcher that knows only PING and ECHO.  Its literal replies are the
 * strings the encoders of `Resp` produce, and are written with them.
 */
module Legacy {
  import opened CLib
  import opened Resp
  import opened Storage
  import opened Commands

  /** `parseRESPArray`: `parseArray` without the truncation of payloads. */
  method ParseRESPArray(data: string) returns (r: Outcome<seq<string>>)
    ensures r == Decode(data, false)
  {
    var h: Header, pos: nat := ReadHeader(data);
    if h.NotArray? {
      assert Payloads([], false) == [];
      return Done([]);
    } else if h.BadCount? {
      return Threw;
    }
    r := ReadElements(data, pos, h.count, false);
  }

  /** `handleCommand` of `Server.cpp`. */
  function HandleCommand(command: seq<string>): string
  {
    if command == [] then EncodeError("ERR empty command")
    else
      var cmd := Upper(command[0]);
      if cmd == "PING" then EncodeSimpleString("PONG")
      else if cmd == "ECHO" then
        if |command| < 2 then EncodeError("ERR wrong number of arguments for 'echo' command")
        else EncodeBulkString(command[1])
      else EncodeError("ERR unknown command '" + command[0] + "'")
  }

  /** The legacy dispatcher answers an empty request as `CommandHandler` does. */
  lemma {:induction false} LegacyAgreesOnEmpty(settings: Settings, m: map<string, Entry>, now: nat, listing: seq<string>)
    ensures HandleCommand([]) == Respond(settings, [], m, now, listing).text
  {
    EmptyCommandFails(settings, m, now, listing);
  }

  /** The legacy dispatcher answers PING, in any case and with any arguments, as `CommandHandler` does. */
  lemma {:induction false} LegacyAgreesOnPing(settings: Settings, command: seq<string>,
                                              m: map<string, Entry>, now: nat, listing: seq<string>)
    requires command != [] && Upper(command[0]) == "PING"
    ensures HandleCommand(command) == Respond(settings, command, m, now, listing).text
  {
    PingAndReplconfIgnoreArguments(settings, command, m, now, listing);
  }

  /** The legacy dispatcher answers ECHO, in any case, as `CommandHandler` does: the arity error or the bulk string. */
  lemma {:induction false} LegacyAgreesOnEcho(settings: Settings, command: seq<string>,
                                              m: map<string, Entry>, now: nat, listing: seq<string>)
    requires command != [] && Upper(command[0]) == "ECHO"
    ensures HandleCommand(command) == Respond(settings, command, m, now, listing).text
  {
    EchoOutcomes(settings, command, m, now, listing);
  }

  /** Every other name, SET, GET and the rest included, is unknown to the legacy dispatcher. */
  lemma {:induction false} LegacyKnowsOnlyPingAndEcho(command: seq<string>)
    requires command != [] && Upper(command[0]) != "PING" && Upper(command[0]) != "ECHO"
    ensures HandleCommand(command) == EncodeError("ERR unknown command '" + command[0] + "'")
  {
  }

  /** On a name neither dispatcher knows, the two answer alike. */
  lemma {:induction false} LegacyAgreesOnUnknown(settings: Settings, command: seq<string>,
                                                 m: map<string, Entry>, now: nat, listing: seq<string>)
    requires command != [] && Upper(command[0]) !in Names
    ensures HandleCommand(command) == Respond(settings, command, m, now, listing).text
  {
    UnknownCommandFails(settings, command, m, now, listing);
  }

  /**
   * The request a client encodes comes back whole from the legacy parser,
   * and a request it parses is answered as its words ask.
   */
  lemma {:induction false} LegacyEcho(x: string)
    requires '\n' !in x && |x| <= IntMax
    ensures Decode(ArrayFrame(["ECHO", x]), false) == Done(["ECHO", x])
    ensures HandleCommand(["ECHO", x]) == EncodeBulkString(x)
  {
    assert NoNewline(["ECHO", x]);
    assert FitsInt(["ECHO", x]);
    RoundTrip(["ECHO", x], false);
    FixedNames();
  }
}
