/**
 * The event-driven server (`RedisServer`): its startup order, the replica's
 * handshake with its master, and the bookkeeping of connected clients.
 *
 * Every system call is an input here.  `Link` carries what the calls of the
 * handshake return; `HandleNewConnection` receives the descriptor `accept`
 * returned, `HandleClientData` the bytes `recv` returned (`None` when it
 * returned 0 or less), and `Run` whether the listening socket could be set
 * up and what the snapshot loader did.  Frames handed to `send` are
 * recorded, in order, in `toMaster` and `replies`.
 */
module Redis {
  import opened CLib
  import opened Resp
  import opened Storage
  import opened Commands
  import opened Configuration

  // ---------------------------------------------------------------------
  // The replica handshake

  /** One request of the handshake: whether `send` succeeded and what `recv` returned. */
  datatype Exchange = Exchange(sendOk: bool, received: Option<string>)

  /**
   * The results of the system calls `connectToMaster` makes: the descriptor
   * `socket` returned, whether the master's host resolved (`inet_pton` or
   * `gethostbyname`), whether `connect` succeeded, and the three exchanges.
   */
  datatype Link = Link(socket: int, resolved: bool, connected: bool, exchanges: seq<Exchange>)

  /** What `connectToMaster` returns, the frames it handed to `send`, and `masterFd_` afterwards. */
  datatype Handshake = Handshake(ok: bool, sent: seq<string>, masterFd: int)

  /** The three requests of the handshake, in the order they are sent. */
  function Frames(port: int): seq<string>
  {
    [ArrayFrame(["PING"]),
     ArrayFrame(["REPLCONF", "listening-port", IntToString(port)]),
     ArrayFrame(["REPLCONF", "capa", "psync2"])]
  }

  /** The simple strings the master must answer with, in order. */
  const Expected: seq<string> := ["PONG", "OK", "OK"]

  /** The exchange went through: the frame was sent and the reply parses to `expected`. */
  predicate Answered(x: Exchange, expected: string)
  {
    x.sendOk && x.received.Some? && ParseSimpleString(x.received.value) == expected
  }

  /** How many exchanges in a row, from the first, went through. */
  function Agreed(xs: seq<Exchange>): (k: nat)
    requires |xs| == 3
    ensures k <= 3
    ensures forall i :: 0 <= i < k ==> Answered(xs[i], Expected[i])
    ensures k < 3 ==> !Answered(xs[k], Expected[k])
  {
    if !Answered(xs[0], Expected[0]) then 0
    else if !Answered(xs[1], Expected[1]) then 1
    else if !Answered(xs[2], Expected[2]) then 2
    else 3
  }

  /**
   * `connectToMaster`: no frame is sent unless the socket was created, the
   * host resolved and the connection was made; then each request is sent
   * in turn until one fails or is answered wrongly.  A socket that could not
   * be created is left in `masterFd_`; every later failure resets it to -1.
   */
  function HandshakeOf(link: Link, port: int): Handshake
    requires |link.exchanges| == 3
  {
    if link.socket < 0 then Handshake(false, [], link.socket)
    else if !link.resolved || !link.connected then Handshake(false, [], -1)
    else
      var k := Agreed(link.exchanges);
      if k == 3 then Handshake(true, Frames(port), link.socket)
      else Handshake(false, Frames(port)[..k + 1], -1)
  }

  // ---------------------------------------------------------------------
  // Startup

  /** The startup stages `run` goes through. */
  datatype Stage =
    | Listen                      // `createServerSocket`
    | LoadSnapshot(path: string)  // `loadRDBFile` on `dir + "/" + dbfilename`
    | ConnectMaster               // `connectToMaster`, for a replica
    | Serve                       // the `select` loop

  /** How `run` ends its startup. */
  datatype Phase = NoSocket | HandshakeFailed | Serving

  /** The path `loadRDBFile` reads. */
  function SnapshotPath(o: Options): string
  {
    o.dir + "/" + o.dbFilename
  }

  /** The stages `run` goes through, given whether the server socket and the handshake succeed. */
  function Startup(listening: bool, replica: bool, handshakeOk: bool, path: string): seq<Stage>
  {
    if !listening then [Listen]
    else if replica && !handshakeOk then [Listen, LoadSnapshot(path), ConnectMaster]
    else if replica then [Listen, LoadSnapshot(path), ConnectMaster, Serve]
    else [Listen, LoadSnapshot(path), Serve]
  }

  function PhaseOf(listening: bool, replica: bool, handshakeOk: bool): Phase
  {
    if !listening then NoSocket
    else if replica && !handshakeOk then HandshakeFailed
    else Serving
  }

  // ---------------------------------------------------------------------
  // Clients

  /** How `handleClientData` ends. */
  datatype ClientTurn =
    | Closed                      // `recv` returned 0 or less: the client is closed
    | Crashed                     // `parseArray` threw: the exception ends the server
    | Silent                      // the request parsed to no words: nothing is sent
    | Replied(response: string)   // the response sent back

  class RedisServer {
    const config: Config
    const settings: Settings
    const store: Store
    const handler: CommandHandler
    var serverFd: int
    var masterFd: int
    var clientFds: set<int>
    /** The frames handed to `send` on the master connection. */
    var toMaster: seq<string>
    /** The responses handed to `send`, with the client they went to. */
    var replies: seq<(int, string)>
    /** The startup stages entered so far. */
    var stages: seq<Stage>

    /** The command handler shares this server's store and configuration. */
    ghost predicate Valid()
    {
      handler.store == store && handler.settings == settings
    }

    constructor(config: Config, replica: bool)
      ensures Valid() && fresh(store) && store.data == map[]
      ensures this.config == config && settings == Settings(config.dir, config.dbFilename, replica)
      ensures serverFd == -1 && masterFd == -1 && clientFds == {}
      ensures toMaster == [] && replies == [] && stages == []
    {
      this.config := config;
      settings := Settings(config.dir, config.dbFilename, replica);
      var s := new Store();
      store := s;
      handler := new CommandHandler(Settings(config.dir, config.dbFilename, replica), s);
      serverFd := -1;
      masterFd := -1;
      clientFds := {};
      toMaster := [];
      replies := [];
      stages := [];
    }

    /**
     * One request of the handshake: `frame` is handed to `send`, and the
     * reply must parse to `expected`; on any failure the master connection
     * is closed.
     */
    method SendAndExpect(frame: string, x: Exchange, expected: string) returns (ok: bool)
      modifies this
      ensures ok == Answered(x, expected)
      ensures toMaster == old(toMaster) + [frame]
      ensures masterFd == if ok then old(masterFd) else -1
      ensures clientFds == old(clientFds) && serverFd == old(serverFd)
      ensures replies == old(replies) && stages == old(stages)
    {
      toMaster := toMaster + [frame];
      if !x.sendOk || x.received.None? {
        masterFd := -1;
        return false;
      }
      var parsed := ParseSimpleString(x.received.value);
      if parsed != expected {
        masterFd := -1;
        return false;
      }
      return true;
    }

    /** `connectToMaster` */
    method ConnectToMaster(link: Link) returns (ok: bool)
      requires |link.exchanges| == 3
      modifies this
      ensures var h := HandshakeOf(link, config.port);
        ok == h.ok && masterFd == h.masterFd && toMaster == old(toMaster) + h.sent
      ensures clientFds == old(clientFds) && serverFd == old(serverFd)
      ensures replies == old(replies) && stages == old(stages)
    {
      ghost var frames := Frames(config.port);
      masterFd := link.socket;
      if masterFd < 0 {
        return false;
      }
      if !link.resolved || !link.connected {
        masterFd := -1;
        return false;
      }
      var ping := EncodeArray(["PING"]);
      ok := SendAndExpect(ping, link.exchanges[0], "PONG");
      if !ok {
        assert Agreed(link.exchanges) == 0;
        assert HandshakeOf(link, config.port) == Handshake(false, frames[..1], -1);
        assert frames[..1] == [ping];
        return;
      }
      var listeningPort := EncodeArray(["REPLCONF", "listening-port", IntToString(config.port)]);
      ok := SendAndExpect(listeningPort, link.exchanges[1], "OK");
      if !ok {
        assert Agreed(link.exchanges) == 1;
        assert HandshakeOf(link, config.port) == Handshake(false, frames[..2], -1);
        assert frames[..2] == [ping, listeningPort];
        return;
      }
      var capa := EncodeArray(["REPLCONF", "capa", "psync2"]);
      ok := SendAndExpect(capa, link.exchanges[2], "OK");
      if !ok {
        assert Agreed(link.exchanges) == 2;
        assert HandshakeOf(link, config.port) == Handshake(false, frames[..3], -1);
        assert frames[..3] == [ping, listeningPort, capa];
        return;
      }
      assert Agreed(link.exchanges) == 3;
      assert HandshakeOf(link, config.port) == Handshake(true, frames, link.socket);
    }

    /** `handleNewConnection`: a descriptor `accept` returned joins the clients; a failed accept changes nothing. */
    method HandleNewConnection(accepted: int)
      modifies this
      ensures clientFds == if accepted < 0 then old(clientFds) else old(clientFds) + {accepted}
      ensures masterFd == old(masterFd) && serverFd == old(serverFd)
      ensures toMaster == old(toMaster) && replies == old(replies) && stages == old(stages)
    {
      if accepted < 0 {
        return;
      }
      clientFds := clientFds + {accepted};
    }

    /** `closeClient` */
    method CloseClient(fd: int)
      modifies this
      ensures clientFds == old(clientFds) - {fd}
      ensures masterFd == old(masterFd) && serverFd == old(serverFd)
      ensures toMaster == old(toMaster) && replies == old(replies) && stages == old(stages)
    {
      clientFds := clientFds - {fd};
    }

    /**
     * `handleClientData`: a failed read closes the client; otherwise the
     * bytes read are parsed as one request and, when it has any word,
     * answered.  `listing` is the order in which KEYS listed the keys.
     */
    method HandleClientData(fd: int, received: Option<string>, now: nat) returns (turn: ClientTurn, ghost listing: seq<string>)
      requires Valid()
      modifies this, store
      ensures received.None? ==> turn == Closed && clientFds == old(clientFds) - {fd}
      ensures received.Some? ==> clientFds == old(clientFds)
      ensures received.Some? && Decode(received.value, true).Threw? ==> turn == Crashed
      ensures received.Some? && Decode(received.value, true) == Done([]) ==> turn == Silent
      ensures turn.Replied? <==> received.Some? && Decode(received.value, true).Done? && Decode(received.value, true).value != []
      ensures turn.Replied? ==>
        var r := Respond(settings, Decode(received.value, true).value, old(store.data), now, listing);
        && turn.response == r.text && store.data == r.data && replies == old(replies) + [(fd, r.text)]
      ensures turn.Replied? && ListsKeys(Decode(received.value, true).value) ==>
        Enumerates(listing, Live(old(store.data), now))
      ensures !turn.Replied? ==> store.data == old(store.data) && replies == old(replies)
      ensures masterFd == old(masterFd) && serverFd == old(serverFd)
      ensures toMaster == old(toMaster) && stages == old(stages)
    {
      listing := [];
      if received.None? {
        CloseClient(fd);
        return Closed, listing;
      }
      var command := ParseArray(received.value);
      if command.Threw? {
        return Crashed, listing;
      }
      if command.value == [] {
        return Silent, listing;
      }
      var response;
      response, listing := handler.HandleCommand(command.value, now);
      replies := replies + [(fd, response)];
      turn := Replied(response);
    }

    /** `createServerSocket`: `configured` says whether `setsockopt`, `bind` and `listen` all succeeded. */
    method CreateServerSocket(socket: int, configured: bool) returns (ok: bool)
      modifies this
      ensures ok == (socket >= 0 && configured) && serverFd == socket
      ensures masterFd == old(masterFd) && clientFds == old(clientFds)
      ensures toMaster == old(toMaster) && replies == old(replies) && stages == old(stages)
    {
      serverFd := socket;
      if serverFd < 0 {
        return false;
      }
      return configured;
    }

    /**
     * `loadRDBFile`: the snapshot parser is not part of this model; it may
     * store any `entries`, and `parsed` is what it returned.
     */
    method LoadRDBFile(parsed: bool, entries: map<string, Entry>) returns (ok: bool)
      modifies store
      ensures ok == parsed && store.data == old(store.data) + entries
    {
      store.data := store.data + entries;
      return parsed;
    }

    /**
     * The startup of `run`: the socket, then the snapshot, then for a
     * replica the handshake, then the serve loop, which is not modelled
     * past its entry.
     */
    method Run(socket: int, configured: bool, parsed: bool, entries: map<string, Entry>, link: Link) returns (phase: Phase)
      requires |link.exchanges| == 3
      modifies this, store
      ensures var listening := socket >= 0 && configured;
        var handshakeOk := HandshakeOf(link, config.port).ok;
        && phase == PhaseOf(listening, settings.replica, handshakeOk)
        && stages == old(stages) + Startup(listening, settings.replica, handshakeOk, SnapshotPath(config.Fields()))
        && store.data == (if listening then old(store.data) + entries else old(store.data))
        && toMaster == old(toMaster) + (if listening && settings.replica then HandshakeOf(link, config.port).sent else [])
      ensures serverFd == socket
      ensures masterFd == if socket >= 0 && configured && settings.replica then HandshakeOf(link, config.port).masterFd else old(masterFd)
      ensures clientFds == old(clientFds) && replies == old(replies)
    {
      stages := stages + [Listen];
      var listening := CreateServerSocket(socket, configured);
      if !listening {
        return NoSocket;
      }
      stages := stages + [LoadSnapshot(config.dir + "/" + config.dbFilename)];
      var loaded := LoadRDBFile(parsed, entries);
      if settings.replica {
        stages := stages + [ConnectMaster];
        var connected := ConnectToMaster(link);
        if !connected {
          return HandshakeFailed;
        }
      }
      stages := stages + [Serve];
      return Serving;
    }
  }

  // ---------------------------------------------------------------------
  // Properties

  /**
   * The handshake succeeds exactly when the socket is created, the host
   * resolves, the connection is made and the three replies parse to PONG,
   * OK and OK, each after its request was sent.
   */
  lemma {:induction false} HandshakeSucceedsIff(link: Link, port: int)
    requires |link.exchanges| == 3
    ensures HandshakeOf(link, port).ok <==>
      && link.socket >= 0 && link.resolved && link.connected
      && forall i :: 0 <= i < 3 ==> Answered(link.exchanges[i], Expected[i])
  {
    var xs := link.exchanges;
    if HandshakeOf(link, port).ok {
      assert Agreed(xs) == 3;
      forall i | 0 <= i < 3
        ensures Answered(xs[i], Expected[i])
      {
        assert i == 0 || i == 1 || i == 2;
      }
    }
  }

  /** The frames sent are the handshake's requests in order, and none is sent after the first failed exchange. */
  lemma {:induction false} HandshakeStopsAtFailure(link: Link, port: int, i: nat)
    requires |link.exchanges| == 3 && i < 3
    ensures var sent := HandshakeOf(link, port).sent;
      |sent| <= 3 && sent == Frames(port)[..|sent|]
    ensures !Answered(link.exchanges[i], Expected[i]) ==> |HandshakeOf(link, port).sent| <= i + 1
  {
  }

  /** After socket creation, every failed handshake leaves no master connection: `masterFd_` is -1. */
  lemma {:induction false} FailedHandshakeClosesMaster(link: Link, port: int)
    requires |link.exchanges| == 3
    ensures link.socket >= 0 && !HandshakeOf(link, port).ok ==> HandshakeOf(link, port).masterFd == -1
    ensures HandshakeOf(link, port).ok ==> HandshakeOf(link, port).masterFd == link.socket >= 0
    ensures !HandshakeOf(link, port).ok ==> HandshakeOf(link, port).masterFd < 0
  {
  }

  /** A master that answers each request with `+PONG\r\n`, `+OK\r\n` and `+OK\r\n` completes the handshake. */
  lemma {:induction false} HandshakeWithWellBehavedMaster(socket: int, port: int)
    requires socket >= 0
    ensures var link := Link(socket, true, true,
        [Exchange(true, Some(EncodeSimpleString("PONG"))),
         Exchange(true, Some(EncodeSimpleString("OK"))),
         Exchange(true, Some(EncodeSimpleString("OK")))]);
      HandshakeOf(link, port) == Handshake(true, Frames(port), socket)
  {
    assert HasNoCRLF("PONG") && HasNoCRLF("OK");
    SimpleStringRoundTrip("PONG");
    SimpleStringRoundTrip("OK");
  }

  /** The decimal form of an `int` is one short line. */
  lemma {:induction false} PortNumeralIsShortLine(port: int)
    requires IntMin <= port <= IntMax
    ensures '\n' !in IntToString(port) && |IntToString(port)| <= IntMax
  {
    var n: nat := if port < 0 then -port else port;
    var digits := NatToString(n);
    assert forall j :: 0 <= j < |digits| ==> IsDigit(digits[j]);
    NatToStringLength(n);
  }

  /** The master decodes the two fixed requests of the handshake back to their words. */
  lemma {:induction false} FixedFramesDecode(port: int)
    ensures Decode(Frames(port)[0], true) == Done(["PING"])
    ensures Decode(Frames(port)[2], true) == Done(["REPLCONF", "capa", "psync2"])
  {
    assert NoNewline(["PING"]) && FitsInt(["PING"]);
    assert NoNewline(["REPLCONF", "capa", "psync2"]) && FitsInt(["REPLCONF", "capa", "psync2"]);
    RoundTrip(["PING"], true);
    RoundTrip(["REPLCONF", "capa", "psync2"], true);
  }

  /** The master decodes the request announcing the listening port back to its words. */
  lemma {:induction false} PortFrameDecodes(port: int)
    requires IntMin <= port <= IntMax
    ensures Decode(Frames(port)[1], true) == Done(["REPLCONF", "listening-port", IntToString(port)])
  {
    PortNumeralIsShortLine(port);
    var items := ["REPLCONF", "listening-port", IntToString(port)];
    assert NoNewline(items) && FitsInt(items);
    RoundTrip(items, true);
  }

  /** A master running `CommandHandler` answers the decoded requests with exactly the replies the handshake expects. */
  lemma {:induction false} MasterAnswersHandshake(settings: Settings, port: int, m: map<string, Entry>,
                                                  now: nat, listing: seq<string>)
    ensures Respond(settings, ["PING"], m, now, listing).text == EncodeSimpleString(Expected[0])
    ensures Respond(settings, ["REPLCONF", "listening-port", IntToString(port)], m, now, listing).text
         == EncodeSimpleString(Expected[1])
    ensures Respond(settings, ["REPLCONF", "capa", "psync2"], m, now, listing).text == EncodeSimpleString(Expected[2])
  {
    FixedNames();
  }

  /**
   * Startup order: without a server socket nothing else happens; the
   * snapshot is loaded before the handshake; a failed handshake never
   * reaches the serve loop.
   */
  lemma {:induction false} StartupOrder(listening: bool, replica: bool, handshakeOk: bool, path: string)
    ensures var s := Startup(listening, replica, handshakeOk, path);
      && (!listening ==> s == [Listen])
      && (listening ==> s[0] == Listen && s[1] == LoadSnapshot(path))
      && (listening && replica ==> s[2] == ConnectMaster)
      && (Serve in s <==> listening && (!replica || handshakeOk))
      && (ConnectMaster in s <==> listening && replica)
  {
  }
}
