/**
  The signaling rendezvous server of slkrd. Peers exchange WebRTC session
  descriptions through it: the sender registers a session under a passcode
  with an Offer, the receiver answers under the same passcode, and ICE
  candidates are then relayed between the two.

  The UDP socket is not modelled. Each datagram the socket accepts is
  appended to an outbox, and whether `send_to` fails is given as a
  parameter (`SendStatus`). JSON encoding is treated as carrying the message
  through unchanged.
 */
module Signaling {
  import opened Wrappers
  import opened Errors

  /** A peer's UDP address; the server only compares addresses for equality. */
  type SocketAddr(==)

  /** A session identifier, carried from the Offer into the table. */
  type Uuid(==)

  datatype MessageType = Offer | Answer | IceCandidate

  datatype SignalingMessage = SignalingMessage(
    sessionId: Uuid,
    passcode: string,
    messageType: MessageType,
    payload: string)

  /** A registered session: who offered it and, once answered, who answered. */
  datatype SessionInfo = SessionInfo(
    id: Uuid,
    senderAddr: SocketAddr,
    receiverAddr: Option<SocketAddr>)

  /** The rendezvous table, keyed by passcode. */
  type SessionTable = map<string, SessionInfo>

  /** A message the socket accepted, addressed to `target`. */
  datatype Datagram = Datagram(message: SignalingMessage, target: SocketAddr)

  /** What the socket reports for one `send_to`. */
  datatype SendStatus = Delivered | SendFailed(reason: string)

  /** The addresses that have taken part in a session. */
  function Peers(session: SessionInfo): set<SocketAddr>
  {
    {session.senderAddr} + (if session.receiverAddr.Some? then {session.receiverAddr.value} else {})
  }

  /** Where an ICE candidate arriving from `from` is relayed: to the other peer of the session. */
  function OtherPeer(session: SessionInfo, from: SocketAddr): (target: Option<SocketAddr>)
    ensures target.Some? ==> target.value in Peers(session)
    ensures from !in Peers(session) ==> target == Some(session.senderAddr)
    ensures from in Peers(session) && session.receiverAddr.Some? && session.receiverAddr.value != session.senderAddr
            ==> target.Some? && target.value != from
    ensures target.None? <==> from == session.senderAddr && session.receiverAddr.None?
  {
    if from == session.senderAddr then session.receiverAddr else Some(session.senderAddr)
  }

  /** The address a message is forwarded to, if any, judged on the table before the message. */
  function ForwardTarget(table: SessionTable, message: SignalingMessage, from: SocketAddr): (target: Option<SocketAddr>)
    ensures target.Some? ==> message.passcode in table && target.value in Peers(table[message.passcode])
  {
    match message.messageType
    case Offer => None
    case Answer =>
      if message.passcode in table then Some(table[message.passcode].senderAddr) else None
    case IceCandidate =>
      if message.passcode in table then OtherPeer(table[message.passcode], from) else None
  }

  /** The table after a message, whether or not its forward succeeds. */
  function UpdatedTable(table: SessionTable, message: SignalingMessage, from: SocketAddr): (next: SessionTable)
    ensures next.Keys == table.Keys + (if message.messageType.Offer? then {message.passcode} else {})
    ensures forall p :: p in table && p != message.passcode ==> next[p] == table[p]
  {
    var p := message.passcode;
    match message.messageType
    case Offer => table[p := SessionInfo(message.sessionId, from, None)]
    case Answer =>
      if p in table then table[p := table[p].(receiverAddr := Some(from))] else table
    case IceCandidate => table
  }

  /** The effect of handling one message. */
  datatype Outcome = Outcome(table: SessionTable, sent: Option<Datagram>, result: Result<(), SlkrdError>)

  /** The datagrams an outcome adds to the outbox: none or one. */
  function Sent(d: Option<Datagram>): seq<Datagram>
  {
    if d.Some? then [d.value] else []
  }

  /** Handling one message from `from`; `status` is what the socket reports if a forward is attempted. */
  function Handle(table: SessionTable, message: SignalingMessage, from: SocketAddr, status: SendStatus): (o: Outcome)
    ensures o.table.Keys == table.Keys + (if message.messageType.Offer? then {message.passcode} else {})
    ensures forall p :: p in table && p != message.passcode ==> o.table[p] == table[p]
    ensures message.messageType.IceCandidate? ==> o.table == table
    ensures o.sent.Some? ==> o.sent.value.message == message && status.Delivered?
    ensures o.sent.Some? ==> message.passcode in table && o.sent.value.target in Peers(table[message.passcode])
    ensures o.result.Failure? <==> status.SendFailed? && ForwardTarget(table, message, from).Some?
    ensures o.result.Failure? ==> o.result.error == Network(status.reason) && o.sent.None?
    ensures message.messageType.Offer? ==> o.sent.None? && o.result.Success?
    ensures status.Delivered? && ForwardTarget(table, message, from).Some?
            ==> o.sent == Some(Datagram(message, ForwardTarget(table, message, from).value))
    ensures o.sent.Some? ==> ForwardTarget(table, message, from) == Some(o.sent.value.target)
  {
    var next := UpdatedTable(table, message, from);
    match ForwardTarget(table, message, from)
    case None => Outcome(next, None, Success(()))
    case Some(target) =>
      if status.Delivered? then Outcome(next, Some(Datagram(message, target)), Success(()))
      else Outcome(next, None, Failure(Network(status.reason)))
  }

  /** An Offer registers a fresh, unanswered session under its passcode, replacing any earlier one, and sends nothing. */
  lemma OfferRegistersSession(table: SessionTable, message: SignalingMessage, from: SocketAddr, status: SendStatus)
    requires message.messageType.Offer?
    ensures Handle(table, message, from, status)
         == Outcome(table[message.passcode := SessionInfo(message.sessionId, from, None)], None, Success(()))
  {
  }

  /** An Answer under an unknown passcode changes nothing, sends nothing and succeeds. */
  lemma AnswerUnknownPasscodeIgnored(table: SessionTable, message: SignalingMessage, from: SocketAddr, status: SendStatus)
    requires message.messageType.Answer? && message.passcode !in table
    ensures Handle(table, message, from, status) == Outcome(table, None, Success(()))
  {
  }

  /**
    An Answer under a known passcode records the answering address as the
    receiver, keeps id and sender, and forwards the message unchanged to the
    sender. If the forward fails the recorded receiver stays.
   */
  lemma AnswerRecordsReceiver(table: SessionTable, message: SignalingMessage, from: SocketAddr, status: SendStatus)
    requires message.messageType.Answer? && message.passcode in table
    ensures var o := Handle(table, message, from, status);
      var prev := table[message.passcode];
      && message.passcode in o.table
      && o.table[message.passcode] == SessionInfo(prev.id, prev.senderAddr, Some(from))
      && (status.Delivered? ==> o.sent == Some(Datagram(message, prev.senderAddr)) && o.result == Success(()))
      && (status.SendFailed? ==> o.sent == None && o.result == Failure(Network(status.reason)))
  {
  }

  /**
    An ICE candidate leaves the table alone. From the sender it goes to the
    recorded receiver, or nowhere if none is recorded; from any other address
    it goes to the sender; under an unknown passcode it goes nowhere.
   */
  lemma IceCandidateRouting(table: SessionTable, message: SignalingMessage, from: SocketAddr, status: SendStatus)
    requires message.messageType.IceCandidate?
    ensures var o := Handle(table, message, from, status);
      && o.table == table
      && (message.passcode !in table ==> o.sent == None && o.result == Success(()))
      && (message.passcode in table && status.Delivered? ==>
            var session := table[message.passcode];
            o.result == Success(()) &&
            o.sent == (if from == session.senderAddr
                       then (if session.receiverAddr.Some? then Some(Datagram(message, session.receiverAddr.value)) else None)
                       else Some(Datagram(message, session.senderAddr))))
  {
  }

  /** One datagram as the server's receive loop sees it. */
  datatype Inbound =
    | Received(message: SignalingMessage, from: SocketAddr, status: SendStatus)
    | ReceiveFailed(reason: string)
    | Malformed(reason: string)

  /** The state the receive loop ends in: the table, what it sent, and the error that stopped it, if one did. */
  datatype Trace = Trace(table: SessionTable, sent: seq<Datagram>, stopped: Option<SlkrdError>)

  function Prepend(sent: seq<Datagram>, t: Trace): Trace
  {
    Trace(t.table, sent + t.sent, t.stopped)
  }

  /**
    The receive loop over a finite sequence of inbound datagrams: messages are
    handled in order and the first error, whether from receiving, decoding or
    forwarding, stops the loop. `stopped == None` means the inbox ran out
    while the server was still running.
   */
  function Serve(table: SessionTable, inbox: seq<Inbound>): (t: Trace)
    ensures t.stopped.Some? ==> t.stopped.value.Network?
    decreases |inbox|
  {
    if inbox == [] then Trace(table, [], None)
    else match inbox[0]
      case ReceiveFailed(reason) => Trace(table, [], Some(Network(reason)))
      case Malformed(reason) => Trace(table, [], Some(Network(reason)))
      case Received(message, from, status) =>
        var o := Handle(table, message, from, status);
        if o.result.Failure? then Trace(o.table, [], Some(o.result.error))
        else Prepend(Sent(o.sent), Serve(o.table, inbox[1..]))
  }

  /**
    One turn of the receive loop at position `i`: a run that has sent `sent`
    so far and now serves `inbox[i..]` either stops here or carries on from
    `inbox[i + 1..]`.
   */
  lemma ServeTurn(run: Trace, sent: seq<Datagram>, table: SessionTable, inbox: seq<Inbound>, i: nat)
    requires i < |inbox|
    requires run == Prepend(sent, Serve(table, inbox[i..]))
    ensures !inbox[i].Received? ==> run == Trace(table, sent, Some(Network(inbox[i].reason)))
    ensures inbox[i].Received? ==>
      var o := Handle(table, inbox[i].message, inbox[i].from, inbox[i].status);
      if o.result.Failure? then run == Trace(o.table, sent, Some(o.result.error))
      else run == Prepend(sent + Sent(o.sent), Serve(o.table, inbox[i + 1..]))
  {
    assert inbox[i..][0] == inbox[i] && inbox[i..][1..] == inbox[i + 1..];
    if inbox[i].Received? {
      var o := Handle(table, inbox[i].message, inbox[i].from, inbox[i].status);
      if o.result.Success? {
        var rest := Serve(o.table, inbox[i + 1..]);
        assert sent + (Sent(o.sent) + rest.sent) == (sent + Sent(o.sent)) + rest.sent;
      }
    }
  }

  /** No inbound datagram carries a message under passcode `p`. */
  ghost predicate SilentOn(inbox: seq<Inbound>, p: string)
  {
    forall i :: 0 <= i < |inbox| && inbox[i].Received? ==> inbox[i].message.passcode != p
  }

  /** Messages only ever change the entries under their own passcodes. */
  lemma {:induction false} ServeLeavesOtherPasscodes(table: SessionTable, inbox: seq<Inbound>, p: string)
    requires SilentOn(inbox, p)
    ensures var t := Serve(table, inbox);
      (p in t.table <==> p in table) && (p in table ==> t.table[p] == table[p])
    decreases |inbox|
  {
    if inbox != [] && inbox[0].Received? {
      var o := Handle(table, inbox[0].message, inbox[0].from, inbox[0].status);
      if o.result.Success? {
        assert SilentOn(inbox[1..], p) by {
          forall i | 0 <= i < |inbox[1..]| && inbox[1..][i].Received?
            ensures inbox[1..][i].message.passcode != p
          {
            assert inbox[1..][i] == inbox[i + 1];
          }
        }
        ServeLeavesOtherPasscodes(o.table, inbox[1..], p);
      }
    }
  }

  /** Every message that arrives is an ICE candidate; receive and decode failures may occur too. */
  ghost predicate OnlyIceCandidates(inbox: seq<Inbound>)
  {
    forall i :: 0 <= i < |inbox| && inbox[i].Received? ==> inbox[i].message.messageType.IceCandidate?
  }

  /** A run with no Offer and no Answer, however long, never changes the table. */
  lemma {:induction false} IceTrafficKeepsTable(table: SessionTable, inbox: seq<Inbound>)
    requires OnlyIceCandidates(inbox)
    ensures Serve(table, inbox).table == table
    decreases |inbox|
  {
    if inbox != [] && inbox[0].Received? {
      var o := Handle(table, inbox[0].message, inbox[0].from, inbox[0].status);
      if o.result.Success? {
        assert OnlyIceCandidates(inbox[1..]) by {
          forall i | 0 <= i < |inbox[1..]| ensures inbox[1..][i] == inbox[i + 1] { }
        }
        IceTrafficKeepsTable(table, inbox[1..]);
      }
    }
  }

  /** Each inbound datagram causes at most one outgoing datagram. */
  lemma {:induction false} ServeSendsAtMostOnePerDatagram(table: SessionTable, inbox: seq<Inbound>)
    ensures |Serve(table, inbox).sent| <= |inbox|
    decreases |inbox|
  {
    if inbox != [] && inbox[0].Received? {
      var o := Handle(table, inbox[0].message, inbox[0].from, inbox[0].status);
      if o.result.Success? {
        ServeSendsAtMostOnePerDatagram(o.table, inbox[1..]);
      }
    }
  }

  /**
    A complete rendezvous: the sender at `a` offers, the receiver at `b`
    answers, then each sends an ICE candidate. The answer reaches the sender,
    each candidate reaches the other peer, and the session records both.
   */
  lemma Rendezvous(
    table: SessionTable, a: SocketAddr, b: SocketAddr,
    offer: SignalingMessage, answer: SignalingMessage, iceA: SignalingMessage, iceB: SignalingMessage)
    requires a != b
    requires offer.messageType.Offer? && answer.messageType.Answer?
    requires iceA.messageType.IceCandidate? && iceB.messageType.IceCandidate?
    requires answer.passcode == offer.passcode && iceA.passcode == offer.passcode && iceB.passcode == offer.passcode
    ensures Serve(table, [Received(offer, a, Delivered), Received(answer, b, Delivered),
                          Received(iceA, a, Delivered), Received(iceB, b, Delivered)])
         == Trace(table[offer.passcode := SessionInfo(offer.sessionId, a, Some(b))],
                  [Datagram(answer, a), Datagram(iceA, b), Datagram(iceB, a)],
                  None)
  {
    var inbox := [Received(offer, a, Delivered), Received(answer, b, Delivered),
                  Received(iceA, a, Delivered), Received(iceB, b, Delivered)];
    var t1 := UpdatedTable(table, offer, a);
    var t2 := UpdatedTable(t1, answer, b);
    assert t2 == table[offer.passcode := SessionInfo(offer.sessionId, a, Some(b))];
    assert inbox[1..] == [Received(answer, b, Delivered), Received(iceA, a, Delivered), Received(iceB, b, Delivered)];
    assert inbox[1..][1..] == [Received(iceA, a, Delivered), Received(iceB, b, Delivered)];
    assert inbox[1..][1..][1..] == [Received(iceB, b, Delivered)];
    assert inbox[1..][1..][1..][1..] == [];
    assert Serve(t2, inbox[1..][1..][1..]) == Trace(t2, [Datagram(iceB, a)], None);
    assert Serve(t2, inbox[1..][1..]) == Trace(t2, [Datagram(iceA, b), Datagram(iceB, a)], None);
    assert Serve(t1, inbox[1..]) == Trace(t2, [Datagram(answer, a), Datagram(iceA, b), Datagram(iceB, a)], None);
  }

  /** The server: the rendezvous table and the datagrams the socket has accepted. */
  class SignalingServer {
    var sessions: SessionTable
    var outbox: seq<Datagram>

    /** A freshly bound server has no sessions and has sent nothing. */
    constructor ()
      ensures sessions == map[] && outbox == []
    {
      sessions := map[];
      outbox := [];
    }

    /** Hands `message` to the socket for `target`; a failing send becomes a Network error. */
    method SendTo(message: SignalingMessage, target: SocketAddr, status: SendStatus) returns (result: Result<(), SlkrdError>)
      modifies this`outbox
      ensures status.Delivered? ==> result == Success(()) && outbox == old(outbox) + [Datagram(message, target)]
      ensures status.SendFailed? ==> result == Failure(Network(status.reason)) && outbox == old(outbox)
    {
      if status.SendFailed? {
        return Failure(Network(status.reason));
      }
      outbox := outbox + [Datagram(message, target)];
      return Success(());
    }

    /** Handles one message received from `from`. */
    method HandleMessage(message: SignalingMessage, from: SocketAddr, status: SendStatus) returns (result: Result<(), SlkrdError>)
      modifies this
      ensures var o := Handle(old(sessions), message, from, status);
        sessions == o.table && outbox == old(outbox) + Sent(o.sent) && result == o.result
    {
      match message.messageType {
        case Offer =>
          var session := SessionInfo(message.sessionId, from, None);
          sessions := sessions[message.passcode := session];
        case Answer =>
          if message.passcode in sessions {
            var session := sessions[message.passcode];
            sessions := sessions[message.passcode := session.(receiverAddr := Some(from))];
            result := SendTo(message, session.senderAddr, status);
            if result.Failure? {
              return;
            }
          }
        case IceCandidate =>
          if message.passcode in sessions {
            var session := sessions[message.passcode];
            var target := if from == session.senderAddr then session.receiverAddr else Some(session.senderAddr);
            if target.Some? {
              result := SendTo(message, target.value, status);
              if result.Failure? {
                return;
              }
            }
          }
      }
      result := Success(());
    }

    /** The receive loop, run over the datagrams that arrive; returns the error that stopped it, if any. */
    method Run(inbox: seq<Inbound>) returns (stopped: Option<SlkrdError>)
      modifies this
      ensures var t := Serve(old(sessions), inbox);
        sessions == t.table && outbox == old(outbox) + t.sent && stopped == t.stopped
    {
      ghost var sent: seq<Datagram> := [];
      var i := 0;
      while i < |inbox|
        invariant 0 <= i <= |inbox|
        invariant outbox == old(outbox) + sent
        invariant Serve(old(sessions), inbox) == Prepend(sent, Serve(sessions, inbox[i..]))
      {
        ServeTurn(Serve(old(sessions), inbox), sent, sessions, inbox, i);
        match inbox[i] {
          case ReceiveFailed(reason) =>
            return Some(Network(reason));
          case Malformed(reason) =>
            return Some(Network(reason));
          case Received(message, from, status) =>
            ghost var o := Handle(sessions, message, from, status);
            var result := HandleMessage(message, from, status);
            if result.Failure? {
              return Some(result.error);
            }
            sent := sent + Sent(o.sent);
        }
        i := i + 1;
      }
      return None;
    }
  }
}
