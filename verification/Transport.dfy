/**
 * The QUIC connection as the worker sees it (quiche-h3/src/conn.rs). Every answer
 * is an arbitrary choice among those the contract admits, so a property proved of
 * the worker holds against every transport behaviour.
 */
module Transport {
  import opened Base

  /** What one stream's send side has put on the wire. */
  datatype Wire = Wire(bytes: seq<Byte>, fins: nat, resets: seq<nat>)

  datatype SendCall = SendCall(id: Id, bytes: seq<Byte>, fin: bool)

  datatype Direction = ReadSide | WriteSide
  datatype Shutdown = Shutdown(id: Id, dir: Direction, code: nat)

  function At(wire: map<Id, Wire>, id: Id): Wire {
    if id in wire then wire[id] else Wire([], 0, [])
  }

  function TakenAt(taken: map<Id, seq<Byte>>, id: Id): seq<Byte> {
    if id in taken then taken[id] else []
  }

  /** QUIC stream ids stay below 2^62 (section 2.1 of RFC 9000). */
  const ID_LIMIT: nat := 0x4000_0000_0000_0000

  /**
   * What the transport told the worker: ids it will report writable again, ids it had nothing to read for,
   * ids it failed as if the connection were gone, and its last capacity answer.
   */
  datatype Told = Told(
    armed: set<Id>,
    quiet: set<Id>,
    dead: set<Id>,
    capacity: Result<nat, QuicError>)

  /**
   * Every stop code it answered for a stream, the streams whose send side it failed, how often it was asked for a
   * stream's capacity, and the ids it reported writable, in order.
   */
  datatype Answers = Answers(
    stops: map<Id, seq<nat>>,
    broken: set<Id>,
    probes: map<Id, nat>,
    shown: seq<Id>)

  function StopsAt(a: Answers, id: Id): seq<nat> {
    if id in a.stops then a.stops[id] else []
  }

  function ProbesAt(a: Answers, id: Id): nat {
    if id in a.probes then a.probes[id] else 0
  }

  /** The transport stopped or failed the send side of `id`. */
  predicate Refused(a: Answers, id: Id) {
    StopsAt(a, id) != [] || id in a.broken
  }

  /** What an error on a send-side call says about the stream; being blocked says nothing. */
  function Heard(a: Answers, id: Id, e: QuicError): Answers {
    match ClassifySend(e)
    case ClassStopped(code) => a.(stops := a.stops[id := StopsAt(a, id) + [code]])
    case ClassBlocked => a
    case _ => a.(broken := a.broken + {id})
  }

  function Probed(a: Answers, id: Id, r: Result<nat, QuicError>): Answers {
    var asked := a.(probes := a.probes[id := ProbesAt(a, id) + 1]);
    if r.Err? then Heard(asked, id, r.error) else asked
  }

  /** The last answers about how many streams may still be opened, per class. */
  datatype Credit = Credit(bidi: nat, uni: nat)

  function CreditOf(credit: Credit, bidi: bool): nat {
    if bidi then credit.bidi else credit.uni
  }

  /** A read that takes bytes may leave more; one that takes none, or is refused, leaves nothing for now. */
  function Read(told: Told, id: Id, r: Result<(seq<Byte>, bool), QuicError>): Told {
    match r
    case Ok((data, _)) => told.(quiet := if data == [] then told.quiet + {id} else told.quiet - {id})
    case Err(e) =>
      match ClassifyRecv(e)
      case ClassDone => told.(quiet := told.quiet + {id})
      case ClassRecvGone => told.(dead := told.dead + {id})
      case _ => told
  }

  class QuicConn {
    var wire: map<Id, Wire>
    /** Accepted `stream_send` calls in order. */
    var sent: seq<SendCall>
    /** Bytes read from each stream so far. */
    var taken: map<Id, seq<Byte>>
    var shutdowns: seq<Shutdown>
    var closes: seq<CloseFrame>
    var peerError: Option<ConnError>
    var localError: Option<ConnError>
    var timedOut: bool
    ghost var told: Told
    ghost var credit: Credit
    ghost var answers: Answers
    /** No error and no timeout was known when it was closed. */
    ghost var calm: bool
    /** Ids it discovered that the worker has not looked at yet. */
    ghost var surfaced: set<Id>

    constructor ()
      ensures wire == map[] && sent == [] && taken == map[] && shutdowns == [] && closes == [] && surfaced == {}
      ensures answers == Answers(map[], {}, map[], [])
    {
      wire, sent, taken, shutdowns, closes := map[], [], map[], [], [];
      peerError, localError, timedOut := None, None, false;
      told, credit, surfaced := Told({}, {}, {}, Ok(0)), Credit(0, 0), {};
      answers, calm := Answers(map[], {}, map[], []), false;
    }

    method AnyError() returns (e: QuicError)
    {
      e := *;
    }

    /** Accepts a prefix; FIN takes effect iff requested and the whole buffer was accepted. */
    method StreamSend(id: Id, buf: seq<Byte>, fin: bool) returns (r: Result<nat, QuicError>)
      modifies `wire, `sent, `told, `answers
      ensures r.Err? ==> wire == old(wire) && sent == old(sent)
      ensures answers == if r.Err? then Heard(old(answers), id, r.error) else old(answers)
      ensures told == if r.Err? && ClassifySend(r.error).ClassSendGone? then old(told).(dead := old(told).dead + {id})
                      else old(told)
      ensures r.Ok? ==>
                && r.value <= |buf|
                && var took, last := buf[..r.value], fin && r.value == |buf|;
                && var w := At(old(wire), id);
                && wire == old(wire)[id := w.(bytes := w.bytes + took,
                                             fins := w.fins + if last then 1 else 0)]
                && sent == old(sent) + [SendCall(id, took, last)]
    {
      if * {
        var e := AnyError();
        if ClassifySend(e).ClassSendGone? {
          told := told.(dead := told.dead + {id});
        }
        answers := Heard(answers, id, e);
        return Err(e);
      }
      var n: nat :| n <= |buf|;
      var last := fin && n == |buf|;
      var w := At(wire, id);
      wire := wire[id := w.(bytes := w.bytes + buf[..n], fins := w.fins + if last then 1 else 0)];
      sent := sent + [SendCall(id, buf[..n], last)];
      r := Ok(n);
    }

    method StreamCapacity(id: Id) returns (r: Result<nat, QuicError>)
      modifies `told, `answers
      ensures answers == Probed(old(answers), id, r)
      ensures var lost := if r.Err? && ClassifySend(r.error).ClassSendGone? then {id} else {};
              told == old(told).(capacity := r, dead := old(told).dead + lost)
    {
      r := *;
      var lost := if r.Err? && ClassifySend(r.error).ClassSendGone? then {id} else {};
      told := told.(capacity := r, dead := told.dead + lost);
      answers := Probed(answers, id, r);
    }

    /** Low-water re-arm: on success the id will be reported writable again. */
    method StreamWritable(id: Id, len: nat) returns (r: Result<bool, QuicError>)
      modifies `told, `answers
      ensures answers == if r.Err? && r.error.StreamStopped? then Heard(old(answers), id, r.error) else old(answers)
      ensures r.Ok? ==> told == old(told).(armed := old(told).armed + {id})
      ensures r.Err? ==>
                told == old(told).(dead := old(told).dead + if r.error.StreamStopped? then {} else {id})
    {
      r := *;
      if r.Ok? {
        told := told.(armed := told.armed + {id});
      } else if r.Err? {
        told := told.(dead := told.dead + if r.error.StreamStopped? then {} else {id});
        answers := if r.error.StreamStopped? then Heard(answers, id, r.error) else answers;
      }
    }

    /** RESET_STREAM on the write side, STOP_SENDING on the read side; the result is ignored by every caller. */
    method StreamShutdown(id: Id, dir: Direction, code: nat)
      modifies `wire, `shutdowns
      ensures shutdowns == old(shutdowns) + [Shutdown(id, dir, code)]
      ensures dir.ReadSide? ==> wire == old(wire)
      ensures dir.WriteSide? ==>
                var w := At(old(wire), id);
                wire == old(wire)[id := w.(resets := w.resets + [code])]
    {
      shutdowns := shutdowns + [Shutdown(id, dir, code)];
      if dir.WriteSide? {
        var w := At(wire, id);
        wire := wire[id := w.(resets := w.resets + [code])];
      }
    }

    /** Reads at most one window; an error takes nothing. */
    method StreamRecv(id: Id) returns (r: Result<(seq<Byte>, bool), QuicError>)
      modifies `taken, `told
      ensures r.Err? ==> taken == old(taken)
      ensures r.Ok? ==> taken == old(taken)[id := TakenAt(old(taken), id) + r.value.0]
      ensures told == Read(old(told), id, r)
    {
      if * {
        var e := AnyError();
        r := Err(e);
      } else {
        var data: seq<Byte>, fin: bool := *, *;
        taken := taken[id := TakenAt(taken, id) + data];
        r := Ok((data, fin));
      }
      told := Read(told, id, r);
    }

    method StreamReadable(id: Id) returns (b: bool)
      modifies `told
      ensures told == if b then old(told) else old(told).(quiet := old(told).quiet + {id})
    {
      b := *;
      if !b {
        told := told.(quiet := told.quiet + {id});
      }
    }

    /**
     * Destructive discovery. An id is one the worker already tracks, or a peer id it never
     * handed out: fully terminal ids and fresh local ids are never surfaced.
     */
    method NextReadable(tracked: set<Id>, handed: set<Id>, isServer: bool) returns (r: Option<Id>)
      modifies `told, `surfaced
      ensures r.Some? ==> r.value in tracked || (!IsLocal(r.value, isServer) && r.value !in handed)
      ensures r.None? ==> told == old(told) && surfaced == old(surfaced)
      ensures r.Some? ==>
                told == old(told).(quiet := old(told).quiet - {r.value}) && surfaced == old(surfaced) + {r.value}
    {
      r := AnyDiscovery(tracked, handed, isServer);
      if r.Some? {
        told := told.(quiet := told.quiet - {r.value});
        surfaced := surfaced + {r.value};
      }
    }

    method NextWritable(tracked: set<Id>, handed: set<Id>, isServer: bool) returns (r: Option<Id>)
      modifies `told, `surfaced, `answers
      ensures r.Some? ==> r.value in tracked || (!IsLocal(r.value, isServer) && r.value !in handed)
      ensures r.None? ==> told == old(told) && surfaced == old(surfaced) && answers == old(answers)
      ensures r.Some? ==>
                && told == old(told).(armed := old(told).armed - {r.value}) && surfaced == old(surfaced) + {r.value}
                && answers == old(answers).(shown := old(answers).shown + [r.value])
    {
      r := AnyDiscovery(tracked, handed, isServer);
      if r.Some? {
        told := told.(armed := told.armed - {r.value});
        surfaced := surfaced + {r.value};
        answers := answers.(shown := answers.shown + [r.value]);
      }
    }

    method AnyDiscovery(tracked: set<Id>, handed: set<Id>, isServer: bool) returns (r: Option<Id>)
      ensures r.Some? ==> r.value in tracked || (!IsLocal(r.value, isServer) && r.value !in handed)
    {
      r := *;
      if r.Some? && r.value !in tracked && (IsLocal(r.value, isServer) || r.value in handed) {
        r := None;
      }
    }

    /** The worker has looked at everything surfaced. */
    ghost method Handled()
      modifies `surfaced
      ensures surfaced == {}
    {
      surfaced := {};
    }

    method StreamsLeft(bidi: bool) returns (n: nat)
      modifies `credit
      ensures credit == if bidi then old(credit).(bidi := n) else old(credit).(uni := n)
    {
      n := *;
      credit := if bidi then credit.(bidi := n) else credit.(uni := n);
    }

    /** Materializes a stream, with nothing to read yet; ids past the protocol limit are never granted. */
    method StreamPriority(id: Id) returns (ok: bool)
      modifies `told
      ensures ok ==> id < ID_LIMIT
      ensures told == if ok then old(told).(quiet := old(told).quiet + {id}) else old(told)
    {
      ok := *;
      ok := ok && id < ID_LIMIT;
      if ok {
        told := told.(quiet := told.quiet + {id});
      }
    }

    /** Packets and timers: a terminal may appear at any time, and once there it stays. */
    method Progress()
      modifies `peerError, `localError, `timedOut
      ensures old(peerError).Some? ==> peerError == old(peerError)
      ensures old(localError).Some? ==> localError == old(localError)
      ensures old(timedOut) ==> timedOut
    {
      if peerError.None? { peerError := *; }
      if localError.None? { localError := *; }
      if !timedOut { timedOut := *; }
    }

    method Close(frame: CloseFrame) returns (r: Result<(), QuicError>)
      modifies `closes, `calm
      ensures closes == old(closes) + [frame] && calm == (peerError.None? && localError.None? && !timedOut)
    {
      closes := closes + [frame];
      calm := peerError.None? && localError.None? && !timedOut;
      r := *;
    }
  }
}
