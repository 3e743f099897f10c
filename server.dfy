/**
 * The server's module-level state as one object whose handlers update it in
 * place, as server.js does: `waitingUser` is reassigned, the `users` Map and the
 * `reportCounts` dictionary are written, `bannedIPs` grows, and every `emit` is
 * appended to `outbox`. Each method is proved to take the object from
 * `old(Snapshot())` to the state the matching Engine handler computes.
 */
module Service {
  import opened Wrappers
  import Nickname
  import Engine

  class Server {
    var sockets: map<Engine.Id, Engine.Ip>
    var users: map<Engine.Id, Engine.User>
    var waiting: Option<Engine.Id>
    var reportCounts: map<Engine.Ip, nat>
    var banned: set<Engine.Ip>
    var outbox: seq<Engine.Emit>

    /** The fields as an Engine state. */
    function Snapshot(): Engine.State
      reads this
    {
      Engine.State(sockets, users, waiting, reportCounts, banned)
    }

    ghost predicate Valid()
      reads this
    {
      Engine.Valid(Snapshot())
    }

    /** Process start: every collection empty, nobody waiting. */
    constructor ()
      ensures Valid() && Snapshot() == Engine.Init && outbox == []
    {
      sockets, users, waiting, reportCounts, banned := map[], map[], None, map[], {};
      outbox := [];
    }

    /** `io.on('connection')`: reports whether handlers were registered. */
    method Connect(id: Engine.Id, ip: Engine.Ip) returns (accepted: bool)
      requires Valid()
      modifies this`sockets, this`outbox
      ensures Valid()
      ensures accepted <==> ip !in old(banned)
      ensures Snapshot() == Engine.OnConnect(old(Snapshot()), id, ip).state
      ensures outbox == old(outbox) + Engine.OnConnect(old(Snapshot()), id, ip).emits
    {
      if ip in banned {
        outbox := outbox + [Engine.Kicked(id)];
        return false;
      }
      sockets := sockets[id := ip];
      accepted := true;
    }

    /** The 'join' handler. */
    method Join(id: Engine.Id, nickname: Option<string>)
      requires Valid()
      modifies this`users, this`waiting, this`outbox
      ensures Valid()
      ensures Snapshot() == Engine.OnJoin(old(Snapshot()), id, nickname).state
      ensures outbox == old(outbox) + Engine.OnJoin(old(Snapshot()), id, nickname).emits
    {
      if id !in sockets {
        return;
      }
      var nick := Nickname.CleanNickname(nickname);
      users := users[id := Engine.User(nick, sockets[id])];
      if waiting.Some? && waiting.value != id && users[waiting.value].ip !in banned {
        var partnerId := waiting.value;
        waiting := None;
        outbox := outbox + [Engine.PartnerFound(id, partnerId, users[partnerId].nickname)];
        outbox := outbox + [Engine.PartnerFound(partnerId, id, nick)];
      } else {
        waiting := Some(id);
      }
    }

    /** The 'signal' handler: only the outbox changes. */
    method Signal(id: Engine.Id, to: Engine.Target, data: Engine.Data)
      requires Valid()
      modifies this`outbox
      ensures Valid()
      ensures outbox == old(outbox) + Engine.OnSignal(old(Snapshot()), id, to, data).emits
    {
      if id in sockets {
        outbox := outbox + [Engine.Relay(to, id, data)];
      }
    }

    /** The 'report' handler: only the counts and the bans change. */
    method Report(id: Engine.Id)
      requires Valid()
      modifies this`reportCounts, this`banned
      ensures Valid()
      ensures Snapshot() == Engine.OnReport(old(Snapshot()), id).state
    {
      if id !in sockets {
        return;
      }
      var ip := sockets[id];
      if ip !in reportCounts {
        reportCounts := reportCounts[ip := 0];
      }
      reportCounts := reportCounts[ip := reportCounts[ip] + 1];
      if reportCounts[ip] >= Engine.BanThreshold {
        banned := banned + {ip};
      }
    }

    /** The 'disconnect' handler: the slot, the registry and the connection's handlers. */
    method Disconnect(id: Engine.Id)
      requires Valid()
      modifies this`sockets, this`users, this`waiting
      ensures Valid()
      ensures Snapshot() == Engine.OnDisconnect(old(Snapshot()), id).state
    {
      if id !in sockets {
        return;
      }
      if waiting == Some(id) {
        waiting := None;
      }
      users := users - {id};
      sockets := sockets - {id};
    }
  }

  /**
   * A client of the class: two strangers connect to a fresh server, where
   * nothing is banned, so both are admitted. They join in turn: the first is
   * told nothing, then both receive 'partner-found' naming each other with
   * each other's clean nickname.
   */
  method PairTwoStrangers(a: Engine.Id, b: Engine.Id, ipA: Engine.Ip, ipB: Engine.Ip,
                          nickA: Option<string>, nickB: Option<string>)
    returns (okA: bool, okB: bool, afterFirst: seq<Engine.Emit>, afterSecond: seq<Engine.Emit>)
    requires a != b
    ensures okA && okB
    ensures afterFirst == []
    ensures afterSecond == [Engine.PartnerFound(b, a, Nickname.CleanNickname(nickA)),
                            Engine.PartnerFound(a, b, Nickname.CleanNickname(nickB))]
  {
    var server := new Server();
    okA := server.Connect(a, ipA);
    okB := server.Connect(b, ipB);
    server.Join(a, nickA);
    afterFirst := server.outbox;
    server.Join(b, nickB);
    afterSecond := server.outbox;
  }
}
