/** Ids, terminal reasons and transport errors shared by every part of the bridge. */
module Base {

  type Byte = bv8
  type Id = nat

  /** Names one completion channel: a write completer, a finish oneshot or an open reply. */
  type Token = nat

  /** What a bounded channel answers a reservation. */
  datatype SlotAnswer = Permit | Full | Closed

  datatype Option<+T> = None | Some(value: T)
  datatype Result<+T, +E> = Ok(value: T) | Err(error: E)

  const H3_NO_ERROR: nat := 0x100
  const H3_REQUEST_CANCELLED: nat := 0x10c
  const MAX_CHUNK: nat := 16384

  /** A bidirectional stream id has bit 0x2 clear. */
  predicate IsBidi(id: Id) {
    id / 2 % 2 == 0
  }

  /** Bit 0x1 names the initiator: clear for the client, set for the server. */
  predicate IsLocal(id: Id, isServer: bool) {
    (id % 2 == 1) == isServer
  }

  datatype CloseOrigin = Peer | Local
  datatype ConnError = ConnError(isApp: bool, code: nat, reason: seq<Byte>)
  datatype CloseFrame = CloseFrame(code: nat, reason: seq<Byte>)

  datatype ConnTerminal =
    | AppClose(origin: CloseOrigin, code: nat, reason: seq<Byte>)
    | TransportClose(origin: CloseOrigin, code: nat)
    | Timeout
    | Internal(msg: string)

  datatype SendEnd = Stopped(code: nat) | LocalReset(code: nat) | SendConn(terminal: ConnTerminal)
  datatype RecvEnd = Fin | PeerReset(code: nat) | RecvConn(terminal: ConnTerminal)

  datatype QuicError =
    | Done
    | StreamStopped(code: nat)
    | StreamReset(code: nat)
    | StreamLimit
    | InvalidState
    | InvalidStreamState
    | FinalSize
    | FlowControl
    | OtherError

  datatype SendClass = ClassStopped(code: nat) | ClassBlocked | ClassLimit | ClassSendGone | ClassSendBug
  datatype RecvClass = ClassReset(code: nat) | ClassDone | ClassRecvGone | ClassRecvBug

  function ClassifySend(e: QuicError): SendClass {
    match e
    case StreamStopped(code) => ClassStopped(code)
    case Done => ClassBlocked
    case StreamLimit => ClassLimit
    case InvalidState | InvalidStreamState | FinalSize | FlowControl => ClassSendGone
    case _ => ClassSendBug
  }

  function ClassifyRecv(e: QuicError): RecvClass {
    match e
    case StreamReset(code) => ClassReset(code)
    case Done => ClassDone
    case InvalidState | InvalidStreamState | FinalSize | FlowControl => ClassRecvGone
    case _ => ClassRecvBug
  }

  function FromError(origin: CloseOrigin, e: ConnError): ConnTerminal {
    if e.isApp then AppClose(origin, e.code, e.reason) else TransportClose(origin, e.code)
  }

  function Min(a: nat, b: nat): nat {
    if a < b then a else b
  }
}

/** Duplicate-free work queues paired with a membership set. */
module Queues {
  import opened Base

  predicate NoDup(q: seq<Id>) {
    forall i, j :: 0 <= i < j < |q| ==> q[i] != q[j]
  }

  /** The queue holds each member of the set exactly once and nothing else. */
  ghost predicate QueueOk(q: seq<Id>, s: set<Id>) {
    NoDup(q) && forall x :: x in s <==> x in q
  }

  function Without(q: seq<Id>, x: Id): (r: seq<Id>) {
    if q == [] then []
    else if q[0] == x then Without(q[1..], x)
    else [q[0]] + Without(q[1..], x)
  }

  lemma {:induction false} WithoutMembers(q: seq<Id>, x: Id)
    ensures forall y :: y in Without(q, x) <==> y in q && y != x
  {
    if q != [] {
      WithoutMembers(q[1..], x);
      assert q == [q[0]] + q[1..];
    }
  }

  lemma {:induction false} WithoutNoDup(q: seq<Id>, x: Id)
    requires NoDup(q)
    ensures NoDup(Without(q, x))
  {
    if q != [] {
      assert forall i :: 0 <= i < |q| - 1 ==> q[1..][i] == q[i + 1];
      WithoutNoDup(q[1..], x);
      var r := Without(q[1..], x);
      WithoutMembers(q[1..], x);
      assert q[0] !in q[1..];
    }
  }

  /** Removing an absent element changes nothing: other ids never lose their place. */
  lemma {:induction false} WithoutAbsent(q: seq<Id>, x: Id)
    requires x !in q
    ensures Without(q, x) == q
  {
    if q != [] {
      WithoutAbsent(q[1..], x);
      assert q == [q[0]] + q[1..];
    }
  }
}
