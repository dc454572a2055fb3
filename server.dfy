/** The server side: the registry of names and connections (`ChatServer`) and
    the handler that runs one connection (`ConnectionThread`). A socket is two
    sequences of lines: the lines the client has yet to send, read from the
    front, and the lines written to the client, appended at the back. */
module Server {
  import opened Lists
  import opened Protocol

  /** The handshake test of `ConnectionThread.run`: while names are registered
      a candidate is accepted iff it is not one of them; while none are, every
      candidate is accepted. */
  predicate Acceptable(names: seq<string>, candidate: string)
  {
    if |names| != 0 then candidate !in names else true
  }

  /** The bootstrap branch taken on an empty registry accepts exactly what the
      general branch would: nothing is registered, so nothing is taken. */
  lemma BootstrapIsOrdinary(names: seq<string>, candidate: string)
    ensures Acceptable(names, candidate) <==> candidate !in names
  {
  }

  /** A handshake that accepts keeps the registered names pairwise distinct. */
  lemma AcceptKeepsNamesDistinct(names: seq<string>, candidate: string)
    requires Distinct(names) && Acceptable(names, candidate)
    ensures Distinct(names + [candidate])
  {
    AppendDistinct(names, candidate);
  }

  /** How many candidate lines the handshake turns down before it accepts
      one: the position of the first acceptable line, or the number of lines
      when there is none. */
  function FirstAccepted(names: seq<string>, lines: seq<string>): nat
  {
    FirstWhere(lines, candidate => Acceptable(names, candidate))
  }

  /** The name a handshake over `lines` settles on: the first acceptable
      candidate, or none when the lines run out first. */
  function Accepted(names: seq<string>, lines: seq<string>): Option<string>
  {
    var k := FirstAccepted(names, lines);
    if k < |lines| then Some(lines[k]) else None
  }

  /** The client's lines left for the relay once the handshake is over. */
  function Leftover(names: seq<string>, lines: seq<string>): seq<string>
  {
    var k := FirstAccepted(names, lines);
    if k < |lines| then lines[k + 1..] else []
  }

  /** The lines a relay broadcasts from `rest`: those before the first
      "/disconnect", or none for a handler that already knows the server is
      closed. */
  function Relayed(closed: bool, rest: seq<string>): (r: seq<string>)
    ensures closed ==> r == []
    ensures DisconnectCommand !in r
    ensures r <= rest
  {
    if closed then [] else rest[..FirstIndex(rest, DisconnectCommand)]
  }

  /** The names a handshake registers: its accepted name, if any. */
  function Named(userName: Option<string>): seq<string>
  {
    if userName.Some? then [userName.value] else []
  }

  /** The replies written to a client whose first `k` candidates were taken. */
  function Rejections(k: nat): (r: seq<string>)
    ensures |r| == k
    ensures forall j :: 0 <= j < k ==> r[j] == NameTaken
  {
    if k == 0 then [] else Rejections(k - 1) + [NameTaken]
  }

  /** The name list after `userNames.remove(userName)`; a handler whose name
      was never set (Java's `null`) has nothing registered to remove. */
  function Unregister(names: seq<string>, userName: Option<string>): (r: seq<string>)
    ensures userName.None? ==> r == names
    ensures |r| == |names| - (if userName.Some? && userName.value in names then 1 else 0)
    ensures forall x :: x in r ==> x in names
    ensures forall x :: x in names && userName != Some(x) ==> x in r
    ensures userName.Some? && Distinct(names) ==> Distinct(r) && userName.value !in r
  {
    match userName
    case None => names
    case Some(n) =>
      var r := RemoveFirst(names, n);
      var k := FirstIndex(names, n);
      // the name, if present, sits between the two pieces `RemoveFirst` keeps
      assert n in names ==> names == names[..k] + [n] + names[k + 1..];
      assert Distinct(names) ==> Distinct(r) && n !in r by {
        if Distinct(names) { RemoveFirstDistinct(names, n); }
      }
      r
  }

  /** A session whose accepted name is unregistered again leaves the name list
      as it found it. */
  lemma UnregisterAccepted(names: seq<string>, candidate: string)
    requires Acceptable(names, candidate)
    ensures Unregister(names + [candidate], Some(candidate)) == names
  {
    BootstrapIsOrdinary(names, candidate);
    RemoveAppended(names, candidate);
  }

  /** The registry: the names taken and the live connections, in order of
      arrival. */
  class ChatServer {
    var userNames: seq<string>
    var connectedClients: seq<ConnectionThread>
    /** Set when accepting fails; ends the accept loop of `main`. */
    var closeTheServer: bool
    /** Whether the listening socket is still open. */
    var listening: bool

    /** Every connection is registered once: each comes from its own accept. */
    ghost predicate Valid()
      reads this
    {
      Distinct(connectedClients)
    }

    /** No name is held twice. */
    ghost predicate NamesDistinct()
      reads this
    {
      Distinct(userNames)
    }

    constructor ()
      ensures Valid() && NamesDistinct()
      ensures userNames == [] && connectedClients == []
      ensures !closeTheServer && listening
    {
      userNames := [];
      connectedClients := [];
      closeTheServer := false;
      listening := true;
    }

    /** Registers a name, without checking whether it is taken. */
    method AddUser(userName: string)
      modifies this`userNames
      ensures userNames == old(userNames) + [userName]
    {
      userNames := userNames + [userName];
    }

    /** Writes the message, unchanged, once to every connected client and to
        nothing else; the registry itself stays as it is. */
    method PrintMessageToAllClients(message: string)
      requires Valid()
      modifies connectedClients`clientOut
      ensures forall i :: 0 <= i < |connectedClients| ==>
                connectedClients[i].clientOut == old(connectedClients[i].clientOut) + [message]
    {
      var i := 0;
      while i < |connectedClients|
        invariant 0 <= i <= |connectedClients|
        invariant forall j :: 0 <= j < i ==>
                    connectedClients[j].clientOut == old(connectedClients[j].clientOut) + [message]
        invariant forall j :: i <= j < |connectedClients| ==>
                    connectedClients[j].clientOut == old(connectedClients[j].clientOut)
      {
        var client := connectedClients[i];
        client.clientOut := client.clientOut + [message];
        i := i + 1;
      }
    }

    /** Forgets a disconnected client: its name and its connection are each
        removed once, and an absent one is left alone. */
    method Disconnect(userName: Option<string>, connection: ConnectionThread)
      requires Valid()
      modifies this`userNames, this`connectedClients
      ensures Valid()
      ensures userNames == Unregister(old(userNames), userName)
      ensures connectedClients == RemoveFirst(old(connectedClients), connection)
      ensures connection !in connectedClients
      ensures old(NamesDistinct()) ==> NamesDistinct()
      ensures old(NamesDistinct()) && userName.Some? ==> userName.value !in userNames
    {
      RemoveFirstDistinct(connectedClients, connection);
      if userName.Some? && NamesDistinct() {
        RemoveFirstDistinct(userNames, userName.value);
      }
      userNames := Unregister(userNames, userName);
      connectedClients := RemoveFirst(connectedClients, connection);
    }

    /** One round of the accept loop: a new connection, whose client will
        send `incoming`, is appended after all earlier ones; once the
        listening socket is closed, accepting fails and the server is marked
        for closing instead. */
    method Go(incoming: seq<string>) returns (client: ConnectionThread?)
      requires Valid()
      modifies this`connectedClients, this`closeTheServer
      ensures Valid()
      ensures old(listening) ==>
                client != null && fresh(client) && client.server == this &&
                client.clientIn == incoming && client.clientOut == [] &&
                !client.isUsernameSet && !client.serverClosed && !client.socketClosed &&
                connectedClients == old(connectedClients) + [client] &&
                closeTheServer == old(closeTheServer)
      ensures !old(listening) ==>
                client == null && connectedClients == old(connectedClients) && closeTheServer
    {
      if listening {
        client := new ConnectionThread(this, incoming);
        AppendDistinct(connectedClients, client);
        connectedClients := connectedClients + [client];
      } else {
        client := null;
        closeTheServer := true;
      }
    }

    /** The close-all loop of the EXIT thread: every connected handler is told
        that the server is closed and its socket is closed, then the listening
        socket is closed. */
    method Shutdown()
      modifies connectedClients`serverClosed, connectedClients`socketClosed, this`listening
      ensures forall i :: 0 <= i < |connectedClients| ==>
                connectedClients[i].serverClosed && connectedClients[i].socketClosed
      ensures !listening
    {
      var i := 0;
      while i < |connectedClients|
        invariant 0 <= i <= |connectedClients|
        invariant forall j :: 0 <= j < i ==>
                    connectedClients[j].serverClosed && connectedClients[j].socketClosed
      {
        connectedClients[i].SetServerClosed();
        connectedClients[i].socketClosed := true;
        i := i + 1;
      }
      listening := false;
    }

    /** The EXIT thread: reads operator lines until one is "EXIT", then shuts
        everything down. When the console ends first the thread dies on the
        `null` line and nothing is closed. */
    method AwaitExit(console: seq<string>) returns (shutDown: bool)
      modifies connectedClients`serverClosed, connectedClients`socketClosed, this`listening
      ensures shutDown <==> ExitCommand in console
      ensures shutDown ==> !listening
      ensures shutDown ==>
                forall i :: 0 <= i < |connectedClients| ==>
                  connectedClients[i].serverClosed && connectedClients[i].socketClosed
      ensures !shutDown ==> listening == old(listening)
      ensures !shutDown ==>
                forall i :: 0 <= i < |connectedClients| ==>
                  connectedClients[i].serverClosed == old(connectedClients[i].serverClosed) &&
                  connectedClients[i].socketClosed == old(connectedClients[i].socketClosed)
    {
      var read := 0;
      while read < |console| && console[read] != ExitCommand
        invariant 0 <= read <= |console|
        invariant ExitCommand !in console[..read]
      {
        read := read + 1;
      }
      if read == |console| {
        assert console[..read] == console;
        shutDown := false;
      } else {
        Shutdown();
        shutDown := true;
      }
    }
  }

  /** The handler of one connection: the name handshake, then the relay loop. */
  class ConnectionThread {
    const server: ChatServer
    /** Lines the client has yet to send; reading past the end yields `null`. */
    var clientIn: seq<string>
    /** Lines written to the client. */
    var clientOut: seq<string>
    var serverClosed: bool
    var isUsernameSet: bool
    /** `None` stands for Java's `null`: no name yet. */
    var userName: Option<string>
    /** Whether this connection's socket has been closed. */
    var socketClosed: bool

    constructor (server: ChatServer, incoming: seq<string>)
      ensures this.server == server && clientIn == incoming && clientOut == []
      ensures !serverClosed && !isUsernameSet && userName == None && !socketClosed
    {
      this.server := server;
      clientIn := incoming;
      clientOut := [];
      serverClosed := false;
      isUsernameSet := false;
      userName := None;
      socketClosed := false;
    }

    method SetServerClosed()
      modifies this`serverClosed
      ensures serverClosed
    {
      serverClosed := true;
    }

    /** The handshake loop. Candidates are read one per line; each taken one is
        answered with the rejection line, and the first acceptable one is
        registered, becomes this handler's name and is answered with the
        confirmation. If the client's lines run out first, the `null` read is
        accepted as Java accepts it: confirmed, with no name. */
    method AwaitName() returns (rejected: nat)
      requires !isUsernameSet
      modifies this`clientIn, this`clientOut, this`isUsernameSet, this`userName, server`userNames
      ensures rejected == FirstAccepted(old(server.userNames), old(clientIn))
      ensures isUsernameSet
      ensures clientOut == old(clientOut) + Rejections(rejected) + [Confirmation]
      ensures rejected < |old(clientIn)| ==>
                Acceptable(old(server.userNames), old(clientIn)[rejected]) &&
                userName == Some(old(clientIn)[rejected]) &&
                server.userNames == old(server.userNames) + [old(clientIn)[rejected]] &&
                clientIn == old(clientIn)[rejected + 1..]
      ensures rejected == |old(clientIn)| ==>
                userName == None && server.userNames == old(server.userNames) && clientIn == []
      ensures old(server.NamesDistinct()) ==> server.NamesDistinct()
    {
      ghost var input := clientIn;
      ghost var names := server.userNames;
      rejected := 0;
      while !isUsernameSet
        invariant rejected <= |input|
        invariant forall j :: 0 <= j < rejected ==> !Acceptable(names, input[j])
        invariant !isUsernameSet ==>
                    clientIn == input[rejected..] && server.userNames == names &&
                    clientOut == old(clientOut) + Rejections(rejected)
        invariant isUsernameSet ==>
                    clientOut == old(clientOut) + Rejections(rejected) + [Confirmation] &&
                    (rejected < |input| ==>
                       Acceptable(names, input[rejected]) &&
                       userName == Some(input[rejected]) &&
                       server.userNames == names + [input[rejected]] &&
                       clientIn == input[rejected + 1..]) &&
                    (rejected == |input| ==>
                       userName == None && server.userNames == names && clientIn == [])
        decreases |clientIn|, if isUsernameSet then 0 else 1
      {
        if clientIn == [] {
          isUsernameSet := true;
          userName := None;
          clientOut := clientOut + [Confirmation];
        } else {
          var candidate := clientIn[0];
          clientIn := clientIn[1..];
          if |server.userNames| != 0 {
            if candidate !in server.userNames {
              isUsernameSet := true;
              server.AddUser(candidate);
              userName := Some(candidate);
              clientOut := clientOut + [Confirmation];
              break;
            }
            AppendAssoc(old(clientOut), Rejections(rejected), [NameTaken]);
            clientOut := clientOut + [NameTaken];
            rejected := rejected + 1;
          } else {
            isUsernameSet := true;
            userName := Some(candidate);
            server.AddUser(candidate);
            clientOut := clientOut + [Confirmation];
          }
        }
      }
      FirstWhereIs(input, candidate => Acceptable(names, candidate), rejected);
      if old(server.NamesDistinct()) && rejected < |input| {
        AcceptKeepsNamesDistinct(names, input[rejected]);
      }
    }

    /** The relay loop. Every line up to the first "/disconnect" is broadcast
        verbatim to every connected client. The "/disconnect" line closes the
        socket and ends the loop: nothing is broadcast and the registry keeps
        the name and the connection. When the lines run out first, the
        handler unregisters itself and marks the server closed. A handler that
        already knows the server is closed reads nothing. */
    method Relay() returns (relayed: nat)
      requires server.Valid()
      modifies this`clientIn, this`serverClosed, this`socketClosed
      modifies server`userNames, server`connectedClients, server.connectedClients`clientOut
      ensures server.Valid()
      ensures old(server.NamesDistinct()) ==> server.NamesDistinct()
      ensures old(serverClosed) ==>
                relayed == 0 && clientIn == old(clientIn) && serverClosed &&
                socketClosed == old(socketClosed) &&
                server.userNames == old(server.userNames) &&
                server.connectedClients == old(server.connectedClients)
      ensures !old(serverClosed) ==> relayed == FirstIndex(old(clientIn), DisconnectCommand)
      ensures forall i :: 0 <= i < |old(server.connectedClients)| ==>
                old(server.connectedClients)[i].clientOut ==
                old(server.connectedClients[i].clientOut) + old(clientIn)[..relayed]
      ensures !old(serverClosed) && relayed < |old(clientIn)| ==>
                socketClosed && !serverClosed && clientIn == old(clientIn)[relayed + 1..] &&
                server.userNames == old(server.userNames) &&
                server.connectedClients == old(server.connectedClients)
      ensures !old(serverClosed) && relayed == |old(clientIn)| ==>
                serverClosed && clientIn == [] && socketClosed == old(socketClosed) &&
                server.userNames == Unregister(old(server.userNames), userName) &&
                server.connectedClients == RemoveFirst(old(server.connectedClients), this)
    {
      ghost var input := clientIn;
      ghost var clients := server.connectedClients;
      ghost var names := server.userNames;
      relayed := 0;
      while !serverClosed
        invariant relayed <= |input|
        invariant DisconnectCommand !in input[..relayed]
        invariant server.Valid()
        invariant old(server.NamesDistinct()) ==> server.NamesDistinct()
        invariant old(serverClosed) ==> relayed == 0 && clientIn == input
        invariant forall i :: 0 <= i < |clients| ==>
                    clients[i].clientOut == old(clients[i].clientOut) + input[..relayed]
        invariant !serverClosed ==>
                    clientIn == input[relayed..] && socketClosed == old(socketClosed) &&
                    server.userNames == names && server.connectedClients == clients
        invariant serverClosed && !old(serverClosed) ==>
                    relayed == |input| && clientIn == [] && socketClosed == old(socketClosed) &&
                    server.userNames == Unregister(names, userName) &&
                    server.connectedClients == RemoveFirst(clients, this)
        invariant old(serverClosed) ==>
                    socketClosed == old(socketClosed) &&
                    server.userNames == names && server.connectedClients == clients
        decreases |clientIn|, if serverClosed then 0 else 1
      {
        if clientIn == [] {
          assert input[..relayed] == input;
          server.Disconnect(userName, this);
          serverClosed := true;
        } else {
          var line := clientIn[0];
          clientIn := clientIn[1..];
          if line == DisconnectCommand {
            socketClosed := true;
            FirstIndexIs(input, DisconnectCommand, relayed);
            break;
          }
          assert input[..relayed + 1] == input[..relayed] + [line];
          forall i | 0 <= i < |clients| {
            AppendAssoc(old(clients[i].clientOut), input[..relayed], [line]);
          }
          server.PrintMessageToAllClients(line);
          relayed := relayed + 1;
        }
      }
      if !old(serverClosed) && relayed == |input| {
        assert input[..relayed] == input;
      }
    }

    /** `run`: the handshake, then the relay. Afterwards the handler is past
        its handshake and its loop has ended, and a registry whose names were
        distinct still has distinct names. What the session leaves in the
        registry depends on how the client's lines end: a session ended by
        "/disconnect" (or cut short by a closed server) keeps its accepted name
        and its connection registered; one ended by the end of the stream
        leaves the name list as it found it and drops its connection. */
    method Run()
      requires server.Valid() && !isUsernameSet
      modifies this`clientIn, this`clientOut, this`isUsernameSet, this`userName
      modifies this`serverClosed, this`socketClosed
      modifies server`userNames, server`connectedClients, server.connectedClients`clientOut
      ensures server.Valid()
      ensures old(server.NamesDistinct()) ==> server.NamesDistinct()
      ensures isUsernameSet && (serverClosed || socketClosed)
      ensures userName == Accepted(old(server.userNames), old(clientIn))
      ensures userName.Some? ==> userName.value !in old(server.userNames)
      ensures old(serverClosed) || DisconnectCommand in Leftover(old(server.userNames), old(clientIn)) ==>
                server.userNames == old(server.userNames) + Named(userName) &&
                server.connectedClients == old(server.connectedClients)
      ensures !old(serverClosed) && DisconnectCommand !in Leftover(old(server.userNames), old(clientIn)) ==>
                server.userNames == old(server.userNames) &&
                server.connectedClients == RemoveFirst(old(server.connectedClients), this)
      ensures var sent := Relayed(old(serverClosed), Leftover(old(server.userNames), old(clientIn)));
              forall i :: 0 <= i < |old(server.connectedClients)| && old(server.connectedClients)[i] != this ==>
                old(server.connectedClients)[i].clientOut == old(server.connectedClients[i].clientOut) + sent
      ensures var sent := Relayed(old(serverClosed), Leftover(old(server.userNames), old(clientIn)));
              clientOut == old(clientOut) + Rejections(FirstAccepted(old(server.userNames), old(clientIn))) +
                           [Confirmation] + (if this in old(server.connectedClients) then sent else [])
    {
      ghost var names := server.userNames;
      ghost var input := clientIn;
      var rejected := AwaitName();
      assert clientIn == Leftover(names, input);
      var relayed := Relay();
      if !old(serverClosed) && DisconnectCommand !in Leftover(names, input) {
        if rejected < |input| {
          UnregisterAccepted(names, input[rejected]);
        }
      }
    }
  }
}
