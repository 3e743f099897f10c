/**
 * Runs of the engine: Node delivers the handlers' events one at a time, so a run
 * is a sequence of events applied in order. Properties that relate several calls
 * live here.
 */
module Traces {
  import opened Wrappers
  import Nickname
  import opened Engine

  /** One delivered event: a new connection, or an event on connection `id`. */
  datatype Event =
    | Connect(id: Id, ip: Ip)
    | Join(id: Id, nickname: Option<string>)
    | Signal(id: Id, to: Target, data: Data)
    | Report(id: Id)
    | Disconnect(id: Id)

  function Apply(s: State, e: Event): (r: Step)
    requires Valid(s)
    ensures Valid(r.state)
  {
    match e
    case Connect(id, ip) => OnConnect(s, id, ip)
    case Join(id, nickname) => OnJoin(s, id, nickname)
    case Signal(id, to, data) => OnSignal(s, id, to, data)
    case Report(id) => OnReport(s, id)
    case Disconnect(id) => OnDisconnect(s, id)
  }

  /** The state after a run, and everything emitted during it, in order. */
  function Run(s: State, events: seq<Event>): (r: Step)
    requires Valid(s)
    ensures Valid(r.state)
    decreases |events|
  {
    if events == [] then Step(s, [])
    else
      var first := Apply(s, events[0]);
      var rest := Run(first.state, events[1..]);
      Step(rest.state, first.emits + rest.emits)
  }

  /** Every run from start-up keeps the invariant, so the lookup on server.js:50 never fails. */
  lemma ReachableIsValid(events: seq<Event>)
    ensures Valid(Run(Init, events).state)
    ensures SlotRegistered(Run(Init, events).state)
  {
  }

  /** Counts only go up and bans are never lifted. */
  ghost predicate Grows(s: State, t: State) {
    && s.banned <= t.banned
    && (forall ip :: ip in s.reportCounts ==> ip in t.reportCounts && s.reportCounts[ip] <= t.reportCounts[ip])
  }

  lemma ApplyGrows(s: State, e: Event)
    requires Valid(s)
    ensures Grows(s, Apply(s, e).state)
  {
  }

  lemma {:induction false} RunGrows(s: State, events: seq<Event>)
    requires Valid(s)
    ensures Grows(s, Run(s, events).state)
    decreases |events|
  {
    if events != [] {
      var mid := Apply(s, events[0]).state;
      ApplyGrows(s, events[0]);
      RunGrows(mid, events[1..]);
    }
  }

  /** An event on a connection that has no handlers does nothing at all. */
  lemma IgnoredWithoutHandlers(s: State, e: Event)
    requires Valid(s) && !e.Connect? && e.id !in s.sockets
    ensures Apply(s, e) == Step(s, [])
  {
  }

  /**
   * A banned address stays banned whatever happens next: any later connection
   * from it is disconnected at the gate and changes nothing.
   */
  lemma BanIsPermanent(s: State, events: seq<Event>, id: Id, ip: Ip)
    requires Valid(s) && ip in s.banned
    ensures var t := Run(s, events).state;
      ip in t.banned && Apply(t, Connect(id, ip)) == Step(t, [Kicked(id)])
  {
    RunGrows(s, events);
  }

  /** Without a new connection under its id, a connection that has no handlers never gets any. */
  lemma {:induction false} StaysWithoutHandlers(t: State, id: Id, events: seq<Event>)
    requires Valid(t) && id !in t.sockets
    requires forall k :: 0 <= k < |events| && events[k].Connect? ==> events[k].id != id
    ensures id !in Run(t, events).state.sockets
    decreases |events|
  {
    if events != [] {
      StaysWithoutHandlers(Apply(t, events[0]).state, id, events[1..]);
    }
  }

  /**
   * A connection turned away at the gate gets no handlers: in any run that
   * follows, however other connections' events interleave, while no new
   * connection reuses its id, each of its events finds it without handlers and
   * does nothing at the point where it arrives.
   */
  lemma RejectedStaysIgnored(s: State, id: Id, ip: Ip, events: seq<Event>)
    requires Valid(s) && ip in s.banned && id !in s.sockets
    requires forall k :: 0 <= k < |events| && events[k].Connect? ==> events[k].id != id
    ensures var t := OnConnect(s, id, ip).state;
      && t == s
      && id !in Run(t, events).state.sockets
      && (forall k :: 0 <= k < |events| && events[k].id == id ==>
            Apply(Run(t, events[..k]).state, events[k]) == Step(Run(t, events[..k]).state, []))
  {
    var t := OnConnect(s, id, ip).state;
    StaysWithoutHandlers(t, id, events);
    forall k | 0 <= k < |events| && events[k].id == id
      ensures Apply(Run(t, events[..k]).state, events[k]) == Step(Run(t, events[..k]).state, [])
    {
      assert forall j :: 0 <= j < k ==> events[..k][j] == events[j];
      StaysWithoutHandlers(t, id, events[..k]);
      IgnoredWithoutHandlers(Run(t, events[..k]).state, events[k]);
    }
  }

  /** A signalling payload and its addressee. */
  datatype Message = Message(to: Target, data: Data)

  /** The `signal` events that send `msgs` from `from`, one per message, in order. */
  function SignalsFrom(from: Id, msgs: seq<Message>): (evs: seq<Event>)
    ensures |evs| == |msgs|
    ensures forall k :: 0 <= k < |msgs| ==> evs[k] == Signal(from, msgs[k].to, msgs[k].data)
  {
    if msgs == [] then [] else [Signal(from, msgs[0].to, msgs[0].data)] + SignalsFrom(from, msgs[1..])
  }

  /** The relayed messages that deliver `msgs`, one per message, in order, tagged with `from`. */
  function RelaysFrom(from: Id, msgs: seq<Message>): (out: seq<Emit>)
    ensures |out| == |msgs|
    ensures forall k :: 0 <= k < |msgs| ==> out[k] == Relay(msgs[k].to, from, msgs[k].data)
  {
    if msgs == [] then [] else [Relay(msgs[0].to, from, msgs[0].data)] + RelaysFrom(from, msgs[1..])
  }

  /**
   * Signals from one live connection are relayed one for one, in the order sent,
   * each tagged with the sender and carrying its data unchanged; the state does
   * not move.
   */
  lemma {:induction false} SignalsRelayedInOrder(s: State, from: Id, msgs: seq<Message>)
    requires Valid(s) && from in s.sockets
    ensures Run(s, SignalsFrom(from, msgs)) == Step(s, RelaysFrom(from, msgs))
  {
    if msgs != [] {
      SignalsRelayedInOrder(s, from, msgs[1..]);
      assert SignalsFrom(from, msgs)[1..] == SignalsFrom(from, msgs[1..]);
    }
  }

  /**
   * Two strangers from unbanned addresses connect and join one after the other:
   * the first waits silently (no message), the second is paired with it, each
   * learns the other's id and clean nickname, and the slot ends empty.
   */
  lemma TwoStrangersArePaired(a: Id, b: Id, ipA: Ip, ipB: Ip, nickA: Option<string>, nickB: Option<string>)
    requires a != b
    ensures var s1 := OnConnect(Init, a, ipA).state;
      var s2 := OnConnect(s1, b, ipB).state;
      var j1 := OnJoin(s2, a, nickA);
      var j2 := OnJoin(j1.state, b, nickB);
      && j1.emits == [] && j1.state.waiting == Some(a)
      && j2.emits == [PartnerFound(b, a, Nickname.CleanNickname(nickA)),
                      PartnerFound(a, b, Nickname.CleanNickname(nickB))]
      && j2.state.waiting.None?
  {
  }

  /**
   * A connection that leaves while waiting frees the slot: the next joiner waits
   * instead of being paired with the one that left.
   */
  lemma LeaverIsNotPaired(a: Id, c: Id, ipA: Ip, ipC: Ip, nickA: Option<string>, nickC: Option<string>)
    requires a != c
    ensures var s1 := OnConnect(Init, a, ipA).state;
      var s2 := OnJoin(s1, a, nickA).state;
      var s3 := OnDisconnect(s2, a).state;
      var s4 := OnConnect(s3, c, ipC).state;
      var j := OnJoin(s4, c, nickC);
      && s3.waiting.None? && a !in s3.users
      && j.emits == [] && j.state.waiting == Some(c)
  {
  }

  /**
   * Three reports from one connection ban its own address: the counter is keyed
   * by the reporter's address. The next connection from that address is
   * disconnected at the gate.
   */
  lemma ThreeReportsBanReporter(a: Id, ip: Ip, later: Id)
    ensures var s1 := OnConnect(Init, a, ip).state;
      var s4 := OnReport(OnReport(OnReport(s1, a).state, a).state, a).state;
      && ReportCount(s4, ip) == 3 && ip in s4.banned
      && OnConnect(s4, later, ip) == Step(s4, [Kicked(later)])
  {
  }

  /**
   * A waiting connection whose address was banned after it joined is passed
   * over: the next joiner takes the slot instead of being paired with it.
   */
  lemma BannedWaiterIsPassedOver(a: Id, b: Id, ipA: Ip, ipB: Ip, nickA: Option<string>, nickB: Option<string>)
    requires a != b && ipA != ipB
    ensures var s1 := OnConnect(Init, a, ipA).state;
      var s2 := OnJoin(s1, a, nickA).state;
      var s3 := OnReport(OnReport(OnReport(s2, a).state, a).state, a).state;
      var s4 := OnConnect(s3, b, ipB).state;
      var j := OnJoin(s4, b, nickB);
      && ipA in s3.banned && a in s3.sockets
      && j.emits == [] && j.state.waiting == Some(b) && a in j.state.users
  {
  }
}
