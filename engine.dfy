/**
 * The matchmaking engine of server.js as a state machine over values: the module
 * state `waitingUser`, `users`, `reportCounts` and `bannedIPs` (server.js:24-27),
 * the connection gate (server.js:37-43) and the `join`, `signal`, `report` and
 * `disconnect` handlers (server.js:46-90). Each handler maps a state to the next
 * state and the messages it emits, in emission order.
 */
module Engine {
  import opened Wrappers
  import Nickname

  /**
   * A socket.io connection id. socket.io never hands out an empty id, so the
   * truthiness test `waitingUser && ...` on server.js:50 is the same as "someone waits".
   */
  type Id = s: string | s != "" witness "id"
  /** Where an emit is addressed: a socket.io room name; every connection id names one. */
  type Target = string
  /** A connection's handshake address. */
  type Ip = string
  /** A relayed signalling payload; the engine never looks inside it. */
  type Data = string

  /** The record `users` keeps per connection: `{ nickname, ip }`. */
  datatype User = User(nickname: string, ip: Ip)

  /** What the handlers send out. */
  datatype Emit =
    | PartnerFound(to: Target, partner: Id, nickname: string) // 'partner-found' to `to`
    | Relay(to: Target, from: Id, data: Data)                  // 'signal' to `to`
    | Kicked(to: Target)                                       // socket.disconnect() at the gate

  /**
   * The server's memory. `sockets` records the connections that passed the gate,
   * with the address their handlers captured; only those have handlers.
   */
  datatype State = State(
    sockets: map<Id, Ip>,
    users: map<Id, User>,
    waiting: Option<Id>,
    reportCounts: map<Ip, nat>,
    banned: set<Ip>)

  /** The next state and what was emitted on the way there. */
  datatype Step = Step(state: State, emits: seq<Emit>)

  /** The number of reports after which an address is banned. */
  const BanThreshold: nat := 3

  /** The server at start-up: nothing connected, nobody waiting, nothing reported. */
  const Init := State(map[], map[], None, map[], {})

  /** The lookup `users.get(waitingUser).ip` on server.js:50 finds an entry. */
  ghost predicate SlotRegistered(s: State) {
    s.waiting.Some? ==> s.waiting.value in s.users
  }

  /** The invariant every handler keeps. */
  ghost predicate Valid(s: State) {
    && SlotRegistered(s)
    && s.users.Keys <= s.sockets.Keys
    && (forall id :: id in s.users ==> Nickname.IsClean(s.users[id].nickname))
    && (forall ip :: ip in s.reportCounts && s.reportCounts[ip] >= BanThreshold ==> ip in s.banned)
  }

  /** The count `reportCounts[ip]` has, 0 when it has none. */
  function ReportCount(s: State, ip: Ip): nat {
    if ip in s.reportCounts then s.reportCounts[ip] else 0
  }

  /**
   * The waiting connection `join` would pair `id` with (server.js:50), if any.
   * The source reads the waiter's address after registering `id`; the waiter is
   * not `id`, so its entry is the same before and after.
   */
  function PairCandidate(s: State, id: Id): Option<Id>
    requires SlotRegistered(s)
  {
    if s.waiting.Some? && s.waiting.value != id && s.users[s.waiting.value].ip !in s.banned
    then s.waiting else None
  }

  /** `io.on('connection')`: a banned address is disconnected and gets no handlers. */
  function OnConnect(s: State, id: Id, ip: Ip): (r: Step)
    ensures Valid(s) ==> Valid(r.state)
  {
    if ip in s.banned then Step(s, [Kicked(id)])
    else Step(s.(sockets := s.sockets[id := ip]), [])
  }

  /** The 'join' handler (server.js:46-66). */
  function OnJoin(s: State, id: Id, nickname: Option<string>): (r: Step)
    requires SlotRegistered(s)
    ensures Valid(s) ==> Valid(r.state)
  {
    if id !in s.sockets then Step(s, [])
    else
      var nick := Nickname.CleanNickname(nickname);
      var users := s.users[id := User(nick, s.sockets[id])];
      var candidate := PairCandidate(s, id);
      if candidate.Some? then
        var partner := candidate.value;
        Step(s.(users := users, waiting := None),
             [PartnerFound(id, partner, users[partner].nickname), PartnerFound(partner, id, nick)])
      else
        Step(s.(users := users, waiting := Some(id)), [])
  }

  /** The 'signal' handler (server.js:69-71). */
  function OnSignal(s: State, id: Id, to: Target, data: Data): (r: Step)
    ensures Valid(s) ==> Valid(r.state)
  {
    if id !in s.sockets then Step(s, [])
    else Step(s, [Relay(to, id, data)])
  }

  /** The 'report' handler (server.js:74-82); it counts the reporting connection's own address. */
  function OnReport(s: State, id: Id): (r: Step)
    ensures Valid(s) ==> Valid(r.state)
  {
    if id !in s.sockets then Step(s, [])
    else
      var ip := s.sockets[id];
      var count := ReportCount(s, ip) + 1;
      Step(s.(reportCounts := s.reportCounts[ip := count],
              banned := if count >= BanThreshold then s.banned + {ip} else s.banned), [])
  }

  /** The 'disconnect' handler (server.js:85-90); the connection's handlers go with it. */
  function OnDisconnect(s: State, id: Id): (r: Step)
    ensures Valid(s) ==> Valid(r.state)
  {
    if id !in s.sockets then Step(s, [])
    else
      Step(s.(sockets := s.sockets - {id},
              users := s.users - {id},
              waiting := if s.waiting == Some(id) then None else s.waiting), [])
  }

  /** The gate: a banned address changes nothing and is disconnected; any other is admitted. */
  lemma ConnectGate(s: State, id: Id, ip: Ip)
    ensures ip in s.banned ==> OnConnect(s, id, ip) == Step(s, [Kicked(id)])
    ensures ip !in s.banned ==> OnConnect(s, id, ip).state.sockets == s.sockets[id := ip]
    ensures ip !in s.banned ==> OnConnect(s, id, ip).emits == []
    ensures OnConnect(s, id, ip).state.(sockets := s.sockets) == s
  {
  }

  /**
   * A join that finds the slot empty, holding the joiner itself, or holding a
   * banned address parks the joiner: it is registered with its clean nickname and
   * address, takes the slot, and nothing is emitted.
   */
  lemma JoinParks(s: State, id: Id, nickname: Option<string>)
    requires SlotRegistered(s) && id in s.sockets
    requires s.waiting.None? || s.waiting.value == id || s.users[s.waiting.value].ip in s.banned
    ensures OnJoin(s, id, nickname).state.waiting == Some(id)
    ensures OnJoin(s, id, nickname).state.users == s.users[id := User(Nickname.CleanNickname(nickname), s.sockets[id])]
    ensures OnJoin(s, id, nickname).emits == []
    ensures OnJoin(s, id, nickname).state.(users := s.users, waiting := s.waiting) == s
  {
  }

  /**
   * A join that finds a different, non-banned connection `p` waiting empties the
   * slot and tells both sides: `id` learns `p` and p's nickname, `p` learns `id`
   * and the joiner's clean nickname.
   */
  lemma JoinPairs(s: State, id: Id, nickname: Option<string>, p: Id)
    requires SlotRegistered(s) && id in s.sockets
    requires s.waiting == Some(p) && p != id && s.users[p].ip !in s.banned
    ensures OnJoin(s, id, nickname).state.waiting == None
    ensures OnJoin(s, id, nickname).state.users == s.users[id := User(Nickname.CleanNickname(nickname), s.sockets[id])]
    ensures OnJoin(s, id, nickname).emits ==
      [PartnerFound(id, p, s.users[p].nickname), PartnerFound(p, id, Nickname.CleanNickname(nickname))]
    ensures OnJoin(s, id, nickname).state.(users := s.users, waiting := s.waiting) == s
  {
  }

  /**
   * Pairing is symmetric and names peers correctly: a join emits nothing or two
   * 'partner-found' messages; each message's partner is the other message's
   * recipient, the two parties differ, both stay registered, and each message
   * carries its partner's registered, clean nickname. Exactly when it pairs,
   * the slot is left empty.
   */
  lemma PairingSymmetric(s: State, id: Id, nickname: Option<string>)
    requires Valid(s)
    ensures var r := OnJoin(s, id, nickname);
      && (r.emits == [] || |r.emits| == 2)
      && (|r.emits| == 2 <==> id in s.sockets && PairCandidate(s, id).Some?)
      && (|r.emits| == 2 ==>
            && r.state.waiting.None?
            && r.emits[0].PartnerFound? && r.emits[1].PartnerFound?
            && r.emits[0].to == id && r.emits[1].to == PairCandidate(s, id).value
            && r.emits[0].to == r.emits[1].partner && r.emits[1].to == r.emits[0].partner
            && r.emits[0].to != r.emits[1].to
            && (forall k :: 0 <= k < 2 ==>
                  && r.emits[k].partner in r.state.users
                  && r.state.users[r.emits[k].partner].nickname == r.emits[k].nickname
                  && Nickname.IsClean(r.emits[k].nickname)))
  {
  }

  /** After a join the joiner is registered; it waits exactly when it was not paired. */
  lemma JoinRegisters(s: State, id: Id, nickname: Option<string>)
    requires SlotRegistered(s) && id in s.sockets
    ensures var r := OnJoin(s, id, nickname);
      && id in r.state.users
      && r.state.users[id] == User(Nickname.CleanNickname(nickname), s.sockets[id])
      && (r.state.waiting == Some(id) <==> PairCandidate(s, id).None?)
      && (forall u :: u != id ==> (u in r.state.users <==> u in s.users))
      && (forall u :: u != id && u in s.users ==> r.state.users[u] == s.users[u])
  {
  }

  /** 'signal' re-addresses the payload unchanged, tagged with the sender, and changes no state. */
  lemma SignalRelays(s: State, id: Id, to: Target, data: Data)
    requires id in s.sockets
    ensures OnSignal(s, id, to, data) == Step(s, [Relay(to, id, data)])
  {
  }

  /**
   * 'report' adds exactly one to the reporter's address count (from 0 when
   * unseen), bans that address once the count reaches 3, and changes nothing else.
   */
  lemma ReportCounts(s: State, id: Id)
    requires id in s.sockets
    ensures var ip := s.sockets[id]; var t := OnReport(s, id).state;
      && ReportCount(t, ip) == ReportCount(s, ip) + 1
      && (forall a :: a != ip ==> ReportCount(t, a) == ReportCount(s, a))
      && t.reportCounts.Keys == s.reportCounts.Keys + {ip}
      && (ip in t.banned <==> ip in s.banned || ReportCount(t, ip) >= BanThreshold)
      && s.banned <= t.banned <= s.banned + {ip}
      && t.(reportCounts := s.reportCounts, banned := s.banned) == s
      && OnReport(s, id).emits == []
  {
  }

  /**
   * 'disconnect' releases the slot only if `id` holds it, removes `id`'s entry
   * and handlers, and leaves every other entry, every other connection's
   * handlers, the counts and the bans as they were.
   */
  lemma DisconnectReleases(s: State, id: Id)
    requires id in s.sockets
    ensures var t := OnDisconnect(s, id).state;
      && (t.waiting.None? <==> s.waiting.None? || s.waiting == Some(id))
      && (t.waiting.Some? ==> t.waiting == s.waiting)
      && id !in t.users && id !in t.sockets
      && t.sockets == s.sockets - {id}
      && (forall u :: u != id ==> (u in t.users <==> u in s.users))
      && (forall u :: u != id && u in s.users ==> t.users[u] == s.users[u])
      && t.reportCounts == s.reportCounts && t.banned == s.banned
      && t.(waiting := s.waiting, users := s.users, sockets := s.sockets) == s
      && OnDisconnect(s, id).emits == []
  {
  }
}
