/** The worker's invariants over plain values, and the lemmas that each kind of step keeps them. */
module Invariants {
  import opened Base
  import opened Queues
  import opened Buffers
  import opened Transport
  import opened SendHalves
  import opened Registry
  import Drain = RecvProtocol

  // ----- the worker's records -----

  /** What happens to the run queue: an id is marked runnable, evicted, or popped for its turn. */
  datatype QueueStep = Marked(id: Id) | Evicted(id: Id) | Served(id: Id)

  /** Send halves, the round-robin run queue with its membership set, and what happened to the queue so far. */
  datatype SendSide = SendSide(halves: map<Id, SendHalf>, run: seq<Id>, runSet: set<Id>, steps: seq<QueueStep>)

  datatype RecvHalf = RecvHalf(pushed: seq<Byte>, end: Option<RecvEnd>)

  /** Receive halves and the two drain cursors with their membership sets. */
  datatype RecvSide = RecvSide(
    halves: map<Id, RecvHalf>,
    readable: seq<Id>,
    readableSet: set<Id>,
    resume: seq<Id>,
    resumeSet: set<Id>)

  /** Commands pulled into the inbox, commands still in the channel, staged opens, and which tokens are open replies. */
  datatype Ingress = Ingress(
    inbox: seq<Command>,
    cmdRx: seq<Command>,
    openBidi: seq<Token>,
    openUni: seq<Token>,
    nextTok: Token,
    opens: set<Token>)

  /**
   * Why a half with queued work is not in the run queue: the transport will re-surface it,
   * it waits for connection close, or its place was dropped with work still queued.
   */
  datatype Parking = Parking(armed: set<Id>, gone: set<Id>, orphan: set<Id>)

  /** Streams admitted with a retained STOP_SENDING, and ids whose Finish or Reset was applied. */
  datatype Past = Past(preset: set<Id>, ended: set<Id>)

  /**
   * Why a live receive half is not in the drain cursor: the transport reported nothing more and
   * will re-surface it, its channel was full twice, or the connection is gone.
   */
  datatype Idle = Idle(dry: set<Id>, full: set<Id>, gone: set<Id>)

  /**
   * STOP_SENDING codes seen before hand-over, the status each bidi handle was handed over with, and how many stops
   * of a stream had been answered when it was last torn down.
   */
  datatype Early = Early(seen: map<Id, nat>, given: map<Id, Option<SendEnd>>, from: map<Id, nat>)

  /** The close barrier's flags (`pending_close` .. `last_handle_teardown`). */
  datatype Closing = Closing(
    pending: Option<CloseFrame>,
    attempted: bool,
    local: Option<CloseFrame>,
    bug: Option<string>,
    issued: bool,
    lastHandle: bool)

  const NO_ERROR_CLOSE := CloseFrame(H3_NO_ERROR, [])

  function PutHalf(tx: SendSide, id: Id, h: SendHalf): SendSide {
    tx.(halves := tx.halves[id := h])
  }

  function PushRun(tx: SendSide, id: Id): SendSide {
    if id in tx.runSet then tx
    else tx.(run := tx.run + [id], runSet := tx.runSet + {id}, steps := tx.steps + [Marked(id)])
  }

  function DropRun(tx: SendSide, id: Id): SendSide {
    if id in tx.runSet then
      tx.(run := Without(tx.run, id), runSet := tx.runSet - {id}, steps := tx.steps + [Evicted(id)])
    else
      tx
  }

  function PopRun(tx: SendSide): SendSide
    requires tx.run != []
  {
    tx.(run := tx.run[1..], runSet := tx.runSet - {tx.run[0]}, steps := tx.steps + [Served(tx.run[0])])
  }

  function PushReadable(rx: RecvSide, id: Id): RecvSide {
    if id in rx.readableSet then rx
    else rx.(readable := rx.readable + [id], readableSet := rx.readableSet + {id})
  }

  function PushResume(rx: RecvSide, id: Id): RecvSide {
    if id in rx.resumeSet then rx
    else rx.(resume := rx.resume + [id], resumeSet := rx.resumeSet + {id})
  }

  /** The receive registry once `id` is let go of. */
  function Seal(rx: RecvSide, id: Id): RecvSide {
    DropCursors(rx.(halves := rx.halves - {id}), id)
  }

  function SealIn(sealed: map<Id, RecvHalf>, rx: RecvSide, id: Id): map<Id, RecvHalf> {
    if id in rx.halves then sealed[id := rx.halves[id]] else sealed
  }

  /** First-writer-wins publication into a receive half's terminal cell. */
  function Published(h: RecvHalf, end: RecvEnd): RecvHalf {
    if h.end.None? then h.(end := Some(end)) else h
  }

  /** A half that loses its run-queue place with work still queued has nobody left to serve it. */
  function Orphaned(tx: SendSide, p: Parking, id: Id): Parking {
    if id in tx.halves && !Waits(tx.halves[id], id, tx.runSet - {id}, p) then p.(orphan := p.orphan + {id}) else p
  }

  function DropCursors(rx: RecvSide, id: Id): RecvSide {
    rx.(readable := if id in rx.readableSet then Without(rx.readable, id) else rx.readable,
    readableSet := rx.readableSet - {id},
    resume := if id in rx.resumeSet then Without(rx.resume, id) else rx.resume,
    resumeSet := rx.resumeSet - {id})
  }

  // ----- invariants -----

  /** Someone is bound to serve this half. */
  predicate Waits(h: SendHalf, id: Id, run: set<Id>, p: Parking) {
    && (h.pendingReset.Some? ==> id in run || id in p.orphan)
    && (h.terminal.None? && h.ops != [] ==> id in run || id in p.armed || id in p.gone || id in p.orphan)
  }

  /** Every half is coherent, the run queue is exact, and no half with work is forgotten (but `exc`). */
  ghost predicate SendOk(tx: SendSide, led: map<Id, Ledger>, p: Parking, wire: map<Id, Wire>, exc: set<Id>) {
    && tx.halves.Keys == led.Keys
    && (forall id | id in tx.halves :: HalfOk(tx.halves[id], led[id], At(wire, id)))
    && QueueOk(tx.run, tx.runSet)
    && (forall id | id in tx.halves && id !in exc :: Waits(tx.halves[id], id, tx.runSet, p))
  }

  /** Unresolved tokens sit in exactly one place, resolved ones in none. */
  ghost predicate TokOk(halves: map<Id, SendHalf>, io: Ingress, home: map<Token, Place>, resolved: map<Token, Outcome>,
                        abandoned: set<Token>)
  {
    && home.Keys !! resolved.Keys && home.Keys !! abandoned && resolved.Keys !! abandoned
    && (forall tok | tok in home || tok in resolved || tok in abandoned :: tok < io.nextTok)
    && SendToks(halves, home)
    && CmdToks(io.inbox + io.cmdRx, home)
    && OpenToks(io.openBidi, InOpenBidi, home)
    && OpenToks(io.openUni, InOpenUni, home)
    && Kinds(io, home, abandoned)
  }

  /** Only the reply of an open is staged for opening or given up; a Write's or Finish's channel never is. */
  ghost predicate Kinds(io: Ingress, home: map<Token, Place>, abandoned: set<Token>) {
    && (forall tok | tok in io.opens :: tok < io.nextTok)
    && (forall tok | tok in home && home[tok].InSend? :: tok !in io.opens)
    && (forall tok | tok in home && (home[tok].InOpenBidi? || home[tok].InOpenUni?) :: tok in io.opens)
    && (forall c | c in io.inbox + io.cmdRx && CmdTok(c).Some? :: CmdTok(c).value in io.opens <==> IsOpen(c))
    && abandoned <= io.opens
  }

  /**
   * Every byte taken from the transport was pushed to its consumer in order, nothing is taken before
   * hand-over, and no live half is forgotten (but `exc`).
   */
  ghost predicate RecvOk(rx: RecvSide, sealed: map<Id, RecvHalf>, idle: Idle, handed: Handed,
                         taken: map<Id, seq<Byte>>, exc: set<Id>) {
    && QueueOk(rx.readable, rx.readableSet) && QueueOk(rx.resume, rx.resumeSet)
    && rx.readableSet <= rx.halves.Keys <= handed.recv
    && sealed.Keys <= handed.recv
    && rx.halves.Keys !! sealed.Keys
    && (forall id | id in rx.halves :: rx.halves[id].pushed == TakenAt(taken, id))
    && (forall id | id in sealed :: sealed[id].pushed == TakenAt(taken, id))
    && (forall id | id !in handed.recv :: TakenAt(taken, id) == [])
    && (forall id | id in rx.halves && id !in exc ::
          id in rx.readableSet || id in idle.dry || id in idle.full || id in idle.gone)
    && exc !! idle.dry && idle.dry <= handed.recv
  }

  function LogAt(drains: map<Id, seq<Drain.Act>>, id: Id): seq<Drain.Act> {
    if id in drains then drains[id] else []
  }

  function Noted(drains: map<Id, seq<Drain.Act>>, id: Id, a: Drain.Act): map<Id, seq<Drain.Act>> {
    drains[id := LogAt(drains, id) + [a]]
  }

  /** The log is one the drain protocol admits, its reads took what the half was pushed, and its end is the half's. */
  predicate LogOk(log: seq<Drain.Act>, h: RecvHalf) {
    Drain.PcOf(log).Some? && Drain.BytesOf(log) == h.pushed && Drain.EndOf(log) == h.end
  }

  /** The worker is away from the half, or the connection was closed under it. */
  predicate Resting(log: seq<Drain.Act>, closed: bool) {
    || Drain.PcOf(log) == Some(Drain.Away)
    || (closed && Drain.PcOf(log) == Some(Drain.Gone) && Drain.EndOf(log).Some?)
  }

  /**
   * Every receive half was drained as the protocol says. The worker rests from each live half (but `exc`),
   * a half idle on a full channel was parked by its last drain, and a half let go was sealed or stopped.
   */
  predicate DrainsOk(drains: map<Id, seq<Drain.Act>>, halves: map<Id, RecvHalf>, sealed: map<Id, RecvHalf>,
                     full: set<Id>, recv: set<Id>, exc: set<Id>, closed: bool) {
    && drains.Keys <= recv && full <= recv && exc !! full
    && (forall id | id in halves ::
          && LogOk(LogAt(drains, id), halves[id])
          && (id !in exc ==> Resting(LogAt(drains, id), closed))
          && (id in full ==> closed || Drain.Parked(LogAt(drains, id))))
    && (forall id | id in sealed ::
          LogOk(LogAt(drains, id), sealed[id]) && Drain.PcOf(LogAt(drains, id)) == Some(Drain.Gone))
  }

  /** The reasons to wait are what the transport said: re-armed, nothing to read, or connection gone. */
  predicate ToldOk(p: Parking, idle: Idle, told: Told, surfaced: set<Id>) {
    && p.armed <= told.armed + surfaced && p.gone <= told.dead
    && idle.dry <= told.quiet + surfaced && idle.gone <= told.dead
  }

  /** Only handed-out send halves were ever re-armed, lost, preset or ended. */
  predicate Within(p: Parking, past: Past, handed: Handed) {
    p.armed <= handed.send && p.gone <= handed.send && past.preset <= handed.send && past.ended <= handed.send
  }

  function SeenEnd(seen: map<Id, nat>, id: Id): Option<SendEnd> {
    if id in seen then Some(Stopped(seen[id])) else None
  }

  /**
   * A stop code seen before admission is owned by the waiting stream and is what its handle was given; `hand` are
   * the streams taken out of their place right now.
   */
  ghost predicate EarlyOk(a: Admission, e: Early, handed: Handed, hand: set<Id>) {
    && e.given.Keys <= handed.send
    && (forall id | id in e.seen ::
          IsBidi(id) && (id in handed.send || id in a.pending || (id in a.admit && a.admit[id].Parked?) || id in hand))
    && (forall id | id in a.pending :: a.pending[id].sendEnd == SeenEnd(e.seen, id))
    && (forall id | id in a.admit && a.admit[id].Parked? :: a.admit[id].peer.sendEnd == SeenEnd(e.seen, id))
    && (forall id | id in e.given :: e.given[id] == SeenEnd(e.seen, id))
  }

  /** Locally allocated ids keep their initiator and class bits, stay below the limit and are never reused. */
  ghost predicate IdsOk(nextBidi: Id, nextUni: Id, handed: Handed, isServer: bool) {
    && nextBidi % 4 == (if isServer then 1 else 0)
    && nextUni % 4 == (if isServer then 3 else 2)
    && nextBidi < ID_LIMIT + 4 && nextUni < ID_LIMIT + 4
    && (forall id: Id | handed.Has(id) && IsLocal(id, isServer) :: id < if IsBidi(id) then nextBidi else nextUni)
  }

  /** How send halves, the admission map and the handed-out handles constrain each other. */
  ghost predicate CrossOk(halves: map<Id, SendHalf>, led: map<Id, Ledger>, admit: map<Id, AdmitState>, handed: Handed,
                          past: Past, orphan: set<Id>)
  {
    && halves.Keys == led.Keys
    && halves.Keys <= handed.send
    && orphan <= past.preset
    && (forall id | id in halves && led[id].finSubmitted :: id in past.ended)
    && (forall id | id in admit && admit[id].Registered? && !admit[id].sendDone ::
          id in halves && !halves[id].finished)
    && (forall id | id in admit && admit[id].Registered? && admit[id].sendDone && id in halves ::
          halves[id].finished || id in past.preset)
    && (forall id | id in admit && admit[id].Registered? && id in handed.send && id !in halves ::
          id in past.preset)
  }

  /** A write-side shutdown never names a peer uni stream, nor a read-side one a local uni stream. */
  ghost predicate DirOk(shutdowns: seq<Shutdown>, handed: Handed, isServer: bool) {
    && (forall id | id in handed.send :: IsLocal(id, isServer) || IsBidi(id))
    && (forall id | id in handed.recv :: !IsLocal(id, isServer) || IsBidi(id))
    && (forall s | s in shutdowns && s.dir.WriteSide? :: IsLocal(s.id, isServer) || IsBidi(s.id))
    && (forall s | s in shutdowns && s.dir.ReadSide? :: !IsLocal(s.id, isServer) || IsBidi(s.id))
  }

  lemma DirWrite(shutdowns: seq<Shutdown>, handed: Handed, isServer: bool, id: Id, code: nat)
    requires DirOk(shutdowns, handed, isServer)
    requires id in handed.send || IsLocal(id, isServer) || IsBidi(id)
    ensures DirOk(shutdowns + [Shutdown(id, WriteSide, code)], handed, isServer)
  {
  }

  lemma DirRead(shutdowns: seq<Shutdown>, handed: Handed, isServer: bool, id: Id, code: nat)
    requires DirOk(shutdowns, handed, isServer)
    requires id in handed.recv || !IsLocal(id, isServer) || IsBidi(id)
    ensures DirOk(shutdowns + [Shutdown(id, ReadSide, code)], handed, isServer)
  {
  }

  function FailAll(ops: seq<Op>, end: SendEnd): map<Token, Outcome> {
    map tok | tok in Toks(ops) :: Failed(end)
  }

  // ----- run queues -----

  lemma QueuePush(q: seq<Id>, s: set<Id>, id: Id)
    requires QueueOk(q, s) && id !in s
    ensures QueueOk(q + [id], s + {id})
  {
  }

  lemma QueueDrop(q: seq<Id>, s: set<Id>, id: Id)
    requires QueueOk(q, s)
    ensures QueueOk(Without(q, id), s - {id})
    ensures id !in s ==> Without(q, id) == q && QueueOk(q, s - {id})
  {
    WithoutNoDup(q, id);
    WithoutMembers(q, id);
    if id !in s { WithoutAbsent(q, id); }
  }

  lemma QueuePop(q: seq<Id>, s: set<Id>)
    requires QueueOk(q, s) && q != []
    ensures QueueOk(q[1..], s - {q[0]}) && q[0] in s
  {
    assert forall i :: 0 <= i < |q| - 1 ==> q[1..][i] == q[i + 1];
  }

  /** Turns were served in queue order, and ids not yet served kept their order at the front. */
  predicate RoundRobin(start: seq<Id>, turns: seq<Id>, run: seq<Id>) {
    && (forall i :: 0 <= i < |turns| && i < |start| ==> turns[i] == start[i])
    && (|turns| <= |start| ==> start[|turns|..] <= run)
  }

  lemma RoundRobinStart(start: seq<Id>)
    ensures RoundRobin(start, [], start)
  {
  }

  lemma RoundRobinTurn(start: seq<Id>, turns: seq<Id>, run: seq<Id>, run': seq<Id>)
    requires RoundRobin(start, turns, run) && run != []
    requires run' == run[1..] || run' == run[1..] + [run[0]]
    ensures RoundRobin(start, turns + [run[0]], run')
  {
    if |turns| < |start| {
      assert run[0] == start[|turns|..][0];
      assert start[|turns| + 1..] == start[|turns|..][1..];
    }
  }

  lemma RoundRobinOn(start: seq<Id>, turns: seq<Id>, mid: seq<Id>, more: seq<Id>, run: seq<Id>)
    requires RoundRobin(start, turns, mid) && RoundRobin(mid, more, run)
    ensures RoundRobin(start, turns + more, run)
  {
    if |turns| <= |start| {
      assert forall i :: 0 <= i < |start| - |turns| ==> start[|turns| + i] == start[|turns|..][i] == mid[i];
      if |turns| + |more| <= |start| {
        assert start[|turns| + |more|..] == start[|turns|..][|more|..];
        assert mid[|more|..][..|start| - |turns| - |more|] == start[|turns| + |more|..];
      }
    }
  }

  /** Once the queue is empty, everyone in it was served, in order, before anyone twice. */
  lemma RoundRobinDone(start: seq<Id>, turns: seq<Id>)
    requires RoundRobin(start, turns, [])
    ensures start <= turns
  {
  }

  // ----- the run queue over whole runs -----

  predicate Possible(tx: SendSide, st: QueueStep) {
    st.Served? ==> tx.run != [] && tx.run[0] == st.id
  }

  function QueueNext(tx: SendSide, st: QueueStep): SendSide
    requires Possible(tx, st)
  {
    match st
    case Marked(id) => PushRun(tx, id)
    case Evicted(id) => DropRun(tx, id)
    case Served(_) => PopRun(tx)
  }

  predicate QueueRun(tx: SendSide, steps: seq<QueueStep>)
    decreases |steps|
  {
    steps == [] || (Possible(tx, steps[0]) && QueueRun(QueueNext(tx, steps[0]), steps[1..]))
  }

  /** The queue after a run. */
  function Replay(tx: SendSide, steps: seq<QueueStep>): SendSide
    requires QueueRun(tx, steps)
    decreases |steps|
  {
    if steps == [] then tx else Replay(QueueNext(tx, steps[0]), steps[1..])
  }

  /** A run queue is what the steps since `a` made of the queue of `a`. */
  predicate QueueGrows(a: SendSide, steps: seq<QueueStep>, run: seq<Id>, runSet: set<Id>) {
    && a.steps <= steps
    && var since := steps[|a.steps|..];
    && QueueRun(a, since)
    && Replay(a, since).run == run && Replay(a, since).runSet == runSet
  }

  lemma {:induction false} ReplayOn(tx: SendSide, steps: seq<QueueStep>, st: QueueStep)
    requires QueueRun(tx, steps) && Possible(Replay(tx, steps), st)
    ensures QueueRun(tx, steps + [st]) && Replay(tx, steps + [st]) == QueueNext(Replay(tx, steps), st)
    decreases |steps|
  {
    hide QueueNext, Possible;
    if steps == [] {
      assert (steps + [st])[1..] == [];
    } else {
      assert (steps + [st])[1..] == steps[1..] + [st];
      ReplayOn(QueueNext(tx, steps[0]), steps[1..], st);
    }
  }

  lemma {:induction false} ReplayTwice(tx: SendSide, steps: seq<QueueStep>, mid: SendSide, more: seq<QueueStep>)
    requires QueueRun(tx, steps) && QueueRun(mid, more)
    requires Replay(tx, steps).run == mid.run && Replay(tx, steps).runSet == mid.runSet
    ensures QueueRun(tx, steps + more)
    ensures Replay(tx, steps + more).run == Replay(mid, more).run
    ensures Replay(tx, steps + more).runSet == Replay(mid, more).runSet
    decreases |more|
  {
    if more == [] {
      assert steps + more == steps;
    } else {
      ReplayOn(tx, steps, more[0]);
      ReplayTwice(tx, steps + [more[0]], QueueNext(mid, more[0]), more[1..]);
      assert steps + [more[0]] + more[1..] == steps + more;
    }
  }

  lemma QueueGrowsTrans(a: SendSide, b: SendSide, c: SendSide)
    requires QueueGrows(a, b.steps, b.run, b.runSet) && QueueGrows(b, c.steps, c.run, c.runSet)
    ensures QueueGrows(a, c.steps, c.run, c.runSet)
  {
    hide QueueRun, Replay;
    ReplayTwice(a, b.steps[|a.steps|..], b, c.steps[|b.steps|..]);
    assert b.steps[|a.steps|..] + c.steps[|b.steps|..] == c.steps[|a.steps|..];
  }

  /** The queue takes one more step. */
  lemma QueueMoves(a: SendSide, b: SendSide, st: QueueStep)
    requires QueueGrows(a, b.steps, b.run, b.runSet) && Possible(b, st)
    ensures QueueGrows(a, QueueNext(b, st).steps, QueueNext(b, st).run, QueueNext(b, st).runSet)
  {
    hide QueueRun, Replay;
    ReplayOn(a, b.steps[|a.steps|..], st);
    var b' := QueueNext(b, st);
    if b' != b {
      assert b'.steps[|a.steps|..] == b.steps[|a.steps|..] + [st];
    }
  }

  function Pops(steps: seq<QueueStep>): nat {
    if steps == [] then 0 else (if steps[0].Served? then 1 else 0) + Pops(steps[1..])
  }

  lemma {:induction false} PlaceWithout(q: seq<Id>, x: Id, p: nat) returns (place: nat)
    requires p < |q| && q[p] != x
    ensures place <= p && place < |Without(q, x)| && Without(q, x)[place] == q[p]
  {
    if p == 0 {
      place := 0;
    } else {
      place := PlaceWithout(q[1..], x, p - 1);
      place := if q[0] == x then place else place + 1;
    }
  }

  /** No step moves a queued id back: it is the one served or evicted, or it keeps or improves its place. */
  lemma PlaceKept(tx: SendSide, st: QueueStep, p: nat) returns (place: nat)
    requires QueueOk(tx.run, tx.runSet) && Possible(tx, st) && p < |tx.run| && st.id != tx.run[p]
    ensures QueueOk(QueueNext(tx, st).run, QueueNext(tx, st).runSet)
    ensures place <= p - (if st.Served? then 1 else 0)
    ensures place < |QueueNext(tx, st).run| && QueueNext(tx, st).run[place] == tx.run[p]
  {
    QueueStays(tx, st);
    hide QueueOk;
    place := p;
    match st
    case Marked(id) =>
    case Evicted(id) => if id in tx.runSet { place := PlaceWithout(tx.run, id, p); }
    case Served(_) => place := p - 1;
  }

  lemma QueueStays(tx: SendSide, st: QueueStep)
    requires QueueOk(tx.run, tx.runSet) && Possible(tx, st)
    ensures QueueOk(QueueNext(tx, st).run, QueueNext(tx, st).runSet)
  {
    match st
    case Marked(id) => if id !in tx.runSet { QueuePush(tx.run, tx.runSet, id); }
    case Evicted(id) => QueueDrop(tx.run, tx.runSet, id);
    case Served(_) => QueuePop(tx.run, tx.runSet);
  }

  /**
   * Bounded waiting: whatever is marked, evicted or requeued meanwhile, an id at position `p` is served or
   * evicted within the next p + 1 pops.
   */
  lemma {:induction false} BoundedWaiting(tx: SendSide, steps: seq<QueueStep>, p: nat) returns (k: nat)
    requires QueueOk(tx.run, tx.runSet) && QueueRun(tx, steps) && p < |tx.run| && Pops(steps) > p
    ensures k < |steps| && steps[k].id == tx.run[p] && !steps[k].Marked? && Pops(steps[..k]) <= p
    decreases |steps|
  {
    hide QueueOk, QueueNext, Possible;
    if steps[0].id == tx.run[p] && !steps[0].Marked? {
      k := 0;
    } else {
      var place := PlaceKeptUnlessGone(tx, steps[0], p);
      k := BoundedWaiting(QueueNext(tx, steps[0]), steps[1..], place);
      k := k + 1;
      assert steps[..k][0] == steps[0] && steps[..k][1..] == steps[1..][..k - 1];
    }
  }

  /** Marking an id that is queued already changes nothing. */
  lemma PlaceKeptUnlessGone(tx: SendSide, st: QueueStep, p: nat) returns (place: nat)
    requires QueueOk(tx.run, tx.runSet) && Possible(tx, st) && p < |tx.run| && (st.Marked? || st.id != tx.run[p])
    ensures QueueOk(QueueNext(tx, st).run, QueueNext(tx, st).runSet)
    ensures place <= p - (if st.Served? then 1 else 0)
    ensures place < |QueueNext(tx, st).run| && QueueNext(tx, st).run[place] == tx.run[p]
  {
    if st.id == tx.run[p] {
      place := p;
    } else {
      place := PlaceKept(tx, st, p);
    }
  }

  // ----- how much work the run queue holds -----

  function WeightAt(halves: map<Id, SendHalf>, id: Id): nat {
    if id in halves then Weight(halves[id]) else 0
  }

  /** One for each place in the queue, plus the bytes and operations waiting behind it. */
  function RunWeight(run: seq<Id>, halves: map<Id, SendHalf>): nat {
    if run == [] then 0 else 1 + WeightAt(halves, run[0]) + RunWeight(run[1..], halves)
  }

  lemma {:induction false} RunWeightOthers(run: seq<Id>, halves: map<Id, SendHalf>, halves': map<Id, SendHalf>, id: Id)
    requires id !in run && halves' - {id} == halves - {id}
    ensures RunWeight(run, halves') == RunWeight(run, halves)
  {
    hide Weight;
    if run != [] {
      assert run[0] in halves - {id} <==> run[0] in halves;
      assert run[0] in halves' - {id} <==> run[0] in halves';
      if run[0] in halves {
        assert (halves - {id})[run[0]] == (halves' - {id})[run[0]];
      }
      RunWeightOthers(run[1..], halves, halves', id);
    }
  }

  lemma {:induction false} RunWeightAppend(run: seq<Id>, id: Id, halves: map<Id, SendHalf>)
    ensures RunWeight(run + [id], halves) == RunWeight(run, halves) + 1 + WeightAt(halves, id)
  {
    hide WeightAt;
    if run == [] {
      assert run + [id] == [id] && [id][1..] == [];
    } else {
      assert (run + [id])[1..] == run[1..] + [id];
      RunWeightAppend(run[1..], id, halves);
    }
  }

  /** Serving the head, and requeueing it only if it shrank, leaves strictly less work in the queue. */
  lemma TurnLightens(run: seq<Id>, halves: map<Id, SendHalf>, halves': map<Id, SendHalf>, requeued: bool)
    requires run != [] && NoDup(run) && halves' - {run[0]} == halves - {run[0]}
    requires requeued ==> WeightAt(halves', run[0]) < WeightAt(halves, run[0])
    ensures RunWeight(if requeued then run[1..] + [run[0]] else run[1..], halves') < RunWeight(run, halves)
  {
    hide WeightAt;
    NoDupTail(run);
    RunWeightOthers(run[1..], halves, halves', run[0]);
    RunWeightAppend(run[1..], run[0], halves');
  }

  lemma OthersKept(halves: map<Id, SendHalf>, id: Id, h: SendHalf)
    ensures halves[id := h] - {id} == halves - {id} && halves - {id} - {id} == halves - {id}
  {
  }

  // ----- completions -----

  /** The tokens waiting somewhere, answered or given up. */
  function KnownIn(home: map<Token, Place>, resolved: map<Token, Outcome>, abandoned: set<Token>): set<Token> {
    home.Keys + resolved.Keys + abandoned
  }

  lemma KnownTook(home: map<Token, Place>, resolved: map<Token, Outcome>, abandoned: set<Token>, toks: set<Token>)
    requires toks <= home.Keys
    ensures KnownIn(home - toks, resolved, abandoned) + toks == KnownIn(home, resolved, abandoned)
  {
  }

  lemma KnownPut(home: map<Token, Place>, resolved: map<Token, Outcome>, abandoned: set<Token>, tok: Token, p: Place)
    ensures KnownIn(home[tok := p], resolved, abandoned) == KnownIn(home, resolved, abandoned) + {tok}
  {
  }

  lemma KnownAnswered(home: map<Token, Place>, resolved: map<Token, Outcome>, abandoned: set<Token>, tok: Token,
                      out: Outcome)
    ensures KnownIn(home, resolved[tok := out], abandoned) == KnownIn(home, resolved, abandoned) + {tok}
    ensures tok !in home ==> home - {tok} == home
    ensures tok !in resolved ==> Extends(resolved, resolved[tok := out])
  {
  }

  lemma KnownDropped(home: map<Token, Place>, resolved: map<Token, Outcome>, abandoned: set<Token>, tok: Token)
    ensures KnownIn(home, resolved, abandoned + {tok}) == KnownIn(home, resolved, abandoned) + {tok}
  {
  }

  /** Completions are never taken back or changed. */
  predicate Extends(before: map<Token, Outcome>, after: map<Token, Outcome>) {
    forall tok | tok in before :: tok in after && after[tok] == before[tok]
  }

  lemma ExtendsSelf(a: map<Token, Outcome>)
    ensures Extends(a, a)
  {
  }

  lemma ExtendsKeys(a: map<Token, Outcome>, b: map<Token, Outcome>)
    requires Extends(a, b)
    ensures a.Keys <= b.Keys
  {
  }

  lemma ExtendsTrans(a: map<Token, Outcome>, b: map<Token, Outcome>, c: map<Token, Outcome>)
    requires Extends(a, b) && Extends(b, c)
    ensures Extends(a, c)
  {
  }

  lemma NothingFails(ops: seq<Op>, end: SendEnd)
    ensures FailAll(ops[..0], end) == map[] && Toks(ops[..0]) == {}
  {
  }

  lemma FailAllStep(ops: seq<Op>, i: nat, end: SendEnd)
    requires i < |ops| && DistinctToks(ops)
    ensures ops[i].done in Toks(ops) && ops[i].done !in Toks(ops[..i])
    ensures Toks(ops[..i + 1]) == Toks(ops[..i]) + {ops[i].done}
    ensures FailAll(ops[..i + 1], end) == FailAll(ops[..i], end)[ops[i].done := Failed(end)]
  {
    assert forall j :: 0 <= j < i ==> ops[..i][j] == ops[j] && ops[..i + 1][j] == ops[j];
    assert ops[..i + 1][i] == ops[i];
  }

  lemma TokDrain(halves: map<Id, SendHalf>, io: Ingress, home: map<Token, Place>, resolved: map<Token, Outcome>,
                 abandoned: set<Token>, id: Id, h: SendHalf, end: SendEnd)
    requires TokOk(halves, io, home, resolved, abandoned) && id in halves && h.ops == []
    ensures TokOk(halves[id := h], io, home - Toks(halves[id].ops), resolved + FailAll(halves[id].ops, end), abandoned)
    ensures DistinctToks(halves[id].ops) && Toks(halves[id].ops) <= home.Keys && home.Keys !! resolved.Keys
  {
    hide SendToks, CmdToks, OpenToks, Toks, DistinctToks;
    SendToksDrain(halves, home, id, h);
    OtherToksKept(io.inbox + io.cmdRx, io.openBidi, io.openUni, home, home - Toks(halves[id].ops));
    SendToksHeld(halves, home, id);
  }

  lemma DrainConserves(ops: seq<Op>, end: SendEnd, home: map<Token, Place>, resolved: map<Token, Outcome>)
    requires Toks(ops) <= home.Keys && home.Keys !! resolved.Keys
    ensures (home - Toks(ops)).Keys + (resolved + FailAll(ops, end)).Keys == home.Keys + resolved.Keys
    ensures Extends(resolved, resolved + FailAll(ops, end))
    ensures forall tok | tok in resolved + FailAll(ops, end) && tok !in resolved ::
              (resolved + FailAll(ops, end))[tok] == Failed(end)
  {
    hide Toks;
  }

  lemma TokPop(halves: map<Id, SendHalf>, io: Ingress, home: map<Token, Place>, resolved: map<Token, Outcome>,
               abandoned: set<Token>, id: Id, h: SendHalf, out: Outcome)
    requires TokOk(halves, io, home, resolved, abandoned) && id in halves
    requires halves[id].ops != [] && h.ops == halves[id].ops[1..]
    ensures var tok := halves[id].ops[0].done;
            && tok in home && tok !in resolved
            && TokOk(halves[id := h], io, home - {tok}, resolved[tok := out], abandoned)
  {
    SendToksPop(halves, home, id, h);
    OtherToksKept(io.inbox + io.cmdRx, io.openBidi, io.openUni, home, home - {halves[id].ops[0].done});
    hide SendToks, CmdToks, OpenToks;
  }

  lemma TokSame(halves: map<Id, SendHalf>, io: Ingress, home: map<Token, Place>, resolved: map<Token, Outcome>,
                abandoned: set<Token>, id: Id, h: SendHalf)
    requires TokOk(halves, io, home, resolved, abandoned) && id in halves
    requires |h.ops| == |halves[id].ops| && forall i :: 0 <= i < |h.ops| ==> h.ops[i].done == halves[id].ops[i].done
    ensures TokOk(halves[id := h], io, home, resolved, abandoned)
  {
    SendToksSame(halves, home, id, h);
    hide SendToks, CmdToks, OpenToks;
  }

  // ----- send halves -----

  /** Replacing one half, its ledger and its wire by coherent ones keeps all the others. */
  lemma SendPut(tx: SendSide, led: map<Id, Ledger>, p: Parking, wire: map<Id, Wire>, exc: set<Id>, id: Id, h: SendHalf,
                l: Ledger, wire': map<Id, Wire>, p': Parking)
    requires SendOk(tx, led, p, wire, exc + {id})
    requires HalfOk(h, l, At(wire', id))
    requires forall x | x != id :: At(wire', x) == At(wire, x)
    requires p.armed - {id} <= p'.armed && p.gone - {id} <= p'.gone && p.orphan - {id} <= p'.orphan
    ensures SendOk(PutHalf(tx, id, h), led[id := l], p', wire', exc + {id})
    ensures Waits(h, id, tx.runSet, p') ==> SendOk(PutHalf(tx, id, h), led[id := l], p', wire', exc)
  {
    hide HalfOk, QueueOk;
  }

  lemma SendOtherWire(tx: SendSide, led: map<Id, Ledger>, p: Parking, wire: map<Id, Wire>, wire': map<Id, Wire>,
                      exc: set<Id>, id: Id)
    requires SendOk(tx, led, p, wire, exc) && id !in tx.halves
    requires forall x | x != id :: At(wire', x) == At(wire, x)
    ensures SendOk(tx, led, p, wire', exc)
  {
    hide HalfOk, QueueOk;
  }

  /** Replacing a half that is not in the run queue leaves the queue alone. */
  lemma PutAside(tx: SendSide, id: Id, h: SendHalf)
    requires id !in tx.runSet
    ensures DropRun(PutHalf(tx, id, h), id) == PutHalf(tx, id, h)
    ensures PutHalf(tx, id, h).halves == tx.halves[id := h]
    ensures PutHalf(tx, id, h).run == tx.run && PutHalf(tx, id, h).runSet == tx.runSet
  {
  }

  /** The same, when neither the ledger nor the parking reasons change. */
  lemma SendReplace(tx: SendSide, led: map<Id, Ledger>, p: Parking, wire: map<Id, Wire>, exc: set<Id>, id: Id,
                    h: SendHalf, wire': map<Id, Wire>)
    requires SendOk(tx, led, p, wire, exc + {id}) && id in tx.halves
    requires HalfOk(h, led[id], At(wire', id))
    requires forall x | x != id :: At(wire', x) == At(wire, x)
    ensures SendOk(PutHalf(tx, id, h), led, p, wire', exc + {id})
    ensures Waits(h, id, tx.runSet, p) ==> SendOk(PutHalf(tx, id, h), led, p, wire', exc)
  {
    hide HalfOk, QueueOk;
    SendPut(tx, led, p, wire, exc, id, h, led[id], wire', p);
    assert led[id := led[id]] == led;
  }

  lemma SendDropRun(tx: SendSide, led: map<Id, Ledger>, p: Parking, wire: map<Id, Wire>, exc: set<Id>, id: Id)
    requires SendOk(tx, led, p, wire, exc + {id})
    ensures SendOk(DropRun(tx, id), led, p, wire, exc + {id})
    ensures id in tx.halves && Waits(tx.halves[id], id, tx.runSet - {id}, p) ==>
              SendOk(DropRun(tx, id), led, p, wire, exc)
    ensures id !in tx.halves ==> SendOk(DropRun(tx, id), led, p, wire, exc)
  {
    hide HalfOk;
    QueueDrop(tx.run, tx.runSet, id);
  }

  lemma SendPushRun(tx: SendSide, led: map<Id, Ledger>, p: Parking, wire: map<Id, Wire>, exc: set<Id>, id: Id)
    requires SendOk(tx, led, p, wire, exc + {id})
    ensures SendOk(PushRun(tx, id), led, p, wire, exc)
  {
    hide HalfOk;
    if id !in tx.runSet { QueuePush(tx.run, tx.runSet, id); }
  }

  /** Popping the run queue: the id is out of every waiting place while its turn runs. */
  lemma SendPop(tx: SendSide, led: map<Id, Ledger>, p: Parking, wire: map<Id, Wire>)
    requires SendOk(tx, led, p, wire, {}) && tx.run != []
    ensures var id := tx.run[0];
            var p' := p.(armed := p.armed - {id}, gone := p.gone - {id});
            NoDup(tx.run) && SendOk(PopRun(tx), led, p', wire, {id})
  {
    hide HalfOk;
    QueuePop(tx.run, tx.runSet);
  }

  /** A terminal edge leaves one coherent, fully drained half that nothing waits on. */
  lemma TerminateKeeps(tx: SendSide, led: map<Id, Ledger>, p: Parking, wire: map<Id, Wire>, id: Id, end: SendEnd)
    requires SendOk(tx, led, p, wire, {id})
    requires id in tx.halves && tx.halves[id].pendingReset.None? && !end.LocalReset?
    ensures var h := Terminated(tx.halves[id], end).(finished := true);
            h.terminal.Some? && SendOk(DropRun(PutHalf(tx, id, h), id), led, p, wire, {})
  {
    var h := Terminated(tx.halves[id], end).(finished := true);
    TerminatedOk(tx.halves[id], led[id], At(wire, id), end);
    hide HalfOk, QueueOk, Terminated;
    SendReplace(tx, led, p, wire, {}, id, h, wire);
    SendDropRun(PutHalf(tx, id, h), led, p, wire, {}, id);
  }

  /** A half is born the first time an operation reaches a stream without one. */
  lemma BornKeeps(tx: SendSide, led: map<Id, Ledger>, p: Parking, wire: map<Id, Wire>, id: Id, birth: nat, from: nat)
    requires SendOk(tx, led, p, wire, {}) && id !in tx.halves
    ensures SendOk(PutHalf(tx, id, FRESH), led[id := Born(At(wire, id), birth, from)], p, wire, {})
  {
    FreshOk(At(wire, id), birth, from);
    hide HalfOk, QueueOk;
    SendPut(tx, led, p, wire, {}, id, FRESH, Born(At(wire, id), birth, from), wire, p);
  }

  /** Queueing an operation keeps every half served. */
  lemma EnqueueKeeps(tx: SendSide, led: map<Id, Ledger>, p: Parking, wire: map<Id, Wire>, id: Id, op: Op)
    requires SendOk(tx, led, p, wire, {})
    requires id in tx.halves && tx.halves[id].terminal.None? && !led[id].finSubmitted
    ensures var h := tx.halves[id].(ops := tx.halves[id].ops + [op]);
            var l := Asked(led[id], op);
            SendOk(PushRun(PutHalf(tx, id, h), id), led[id := l], p, wire, {})
  {
    var h := tx.halves[id].(ops := tx.halves[id].ops + [op]);
    var l := Asked(led[id], op);
    EnqueueOk(tx.halves[id], led[id], At(wire, id), op);
    hide HalfOk, QueueOk;
    SendPut(tx, led, p, wire, {}, id, h, l, wire, p);
    SendPushRun(PutHalf(tx, id, h), led[id := l], p, wire, {}, id);
  }

  lemma PendingHasTerminal(tx: SendSide, led: map<Id, Ledger>, p: Parking, wire: map<Id, Wire>, exc: set<Id>, id: Id)
    requires SendOk(tx, led, p, wire, exc) && id in tx.halves
    ensures tx.halves[id].pendingReset.Some? ==>
              tx.halves[id].terminal == Some(LocalReset(tx.halves[id].pendingReset.value)) && !tx.halves[id].finished
  {
    assert HalfOk(tx.halves[id], led[id], At(wire, id));
  }

  lemma HeldNotEmpty(tx: SendSide, led: map<Id, Ledger>, p: Parking, wire: map<Id, Wire>, exc: set<Id>, id: Id)
    requires SendOk(tx, led, p, wire, exc) && id in tx.halves && tx.halves[id].held.Some?
    ensures tx.halves[id].held.value.Remaining() > 0
  {
    assert HalfOk(tx.halves[id], led[id], At(wire, id));
  }

  lemma PushRunKeepsHalves(tx: SendSide, id: Id)
    ensures PushRun(tx, id).halves == tx.halves && id in PushRun(tx, id).runSet
  {
  }

  /** A half with neither a pending reset nor a live operation needs no one. */
  lemma NothingWaits(tx: SendSide, led: map<Id, Ledger>, p: Parking, wire: map<Id, Wire>, id: Id)
    requires SendOk(tx, led, p, wire, {id})
    requires id in tx.halves ==>
              tx.halves[id].pendingReset.None? && (tx.halves[id].terminal.Some? || tx.halves[id].ops == [])
    ensures SendOk(tx, led, p, wire, {})
  {
    hide HalfOk, QueueOk;
  }

  /** A parked half is either re-armed in the transport or waits for connection close. */
  lemma ParkKeeps(tx: SendSide, led: map<Id, Ledger>, p: Parking, wire: map<Id, Wire>, id: Id, rearmed: bool)
    requires SendOk(tx, led, p, wire, {id})
    requires id in tx.halves && tx.halves[id].pendingReset.None?
    ensures var p' := if rearmed then p.(armed := p.armed + {id}) else p.(gone := p.gone + {id});
            SendOk(tx, led, p', wire, {})
  {
    hide HalfOk, QueueOk;
  }

  /** The first effective reset is in the run queue as soon as it is pending. */
  lemma ResetKeeps(tx: SendSide, led: map<Id, Ledger>, p: Parking, wire: map<Id, Wire>, id: Id, code: nat)
    requires SendOk(tx, led, p, wire, {})
    requires id in tx.halves && tx.halves[id].terminal.None? && !tx.halves[id].finished
    ensures var h := Terminated(tx.halves[id], LocalReset(code)).(pendingReset := Some(code));
            SendOk(PushRun(PutHalf(tx, id, h), id), led, p, wire, {})
  {
    var h := Terminated(tx.halves[id], LocalReset(code)).(pendingReset := Some(code));
    ResetOk(tx.halves[id], led[id], At(wire, id), code);
    hide HalfOk, QueueOk, Terminated;
    SendReplace(tx, led, p, wire, {}, id, h, wire);
    SendPushRun(PutHalf(tx, id, h), led, p, wire, {}, id);
  }

  /** Servicing a reset makes its one RESET_STREAM call and retires the half. */
  lemma ResetServiceKeeps(tx: SendSide, led: map<Id, Ledger>, p: Parking, wire: map<Id, Wire>, id: Id)
    requires SendOk(tx, led, p, wire, {id}) && id in tx.halves && tx.halves[id].pendingReset.Some?
    ensures var h := tx.halves[id].(pendingReset := None, finished := true);
            var w := At(wire, id);
            var wire' := wire[id := w.(resets := w.resets + [tx.halves[id].pendingReset.value])];
            SendOk(DropRun(PutHalf(tx, id, h), id), led, p, wire', {})
  {
    var h := tx.halves[id].(pendingReset := None, finished := true);
    var w := At(wire, id);
    var wire' := wire[id := w.(resets := w.resets + [tx.halves[id].pendingReset.value])];
    ResetServicedOk(tx.halves[id], led[id], w);
    assert h.terminal.Some?;
    hide HalfOk, QueueOk;
    SendReplace(tx, led, p, wire, {}, id, h, wire');
    SendDropRun(PutHalf(tx, id, h), led, p, wire', {}, id);
  }

  /** The transport's effect of accepting n bytes of `offer` on stream `id`. */
  function Accepted(wire: map<Id, Wire>, id: Id, offer: seq<Byte>, n: nat, fin: bool): map<Id, Wire>
    requires n <= |offer|
  {
    var w := At(wire, id);
    wire[id := w.(bytes := w.bytes + offer[..n], fins := w.fins + if fin then 1 else 0)]
  }

  lemma FlushKeeps(tx: SendSide, led: map<Id, Ledger>, p: Parking, wire: map<Id, Wire>, id: Id, n: nat)
    requires SendOk(tx, led, p, wire, {id}) && id in tx.halves
    requires tx.halves[id].terminal.None? && tx.halves[id].held.Some? && n <= |Offer(tx.halves[id].held.value)|
    ensures var h := tx.halves[id];
            var wire' := Accepted(wire, id, Offer(h.held.value), n, false);
            && n <= |Todo(h)|
            && SendOk(PutHalf(tx, id, Flushed(h, n)), led, p, wire', {id})
            && At(wire', id) == Sent(h, At(wire, id), n, false)
            && Todo(Flushed(h, n)) == Todo(h)[n..] && NoGrowth(h, Flushed(h, n))
            && (n > 0 ==> Shrinks(h, Flushed(h, n)))
  {
    hide HalfOk, QueueOk, Offer, Todo, Flushed, Shrinks, NoGrowth;
    var h := tx.halves[id];
    OfferIsPrefix(h.held.value);
    FlushTodo(h, n);
    FlushOk(h, led[id], At(wire, id), n);
    SendReplace(tx, led, p, wire, {}, id, Flushed(h, n), Accepted(wire, id, Offer(h.held.value), n, false));
  }

  lemma WriteKeeps(tx: SendSide, led: map<Id, Ledger>, p: Parking, wire: map<Id, Wire>, id: Id, n: nat)
    requires SendOk(tx, led, p, wire, {id}) && id in tx.halves
    requires tx.halves[id].terminal.None? && tx.halves[id].held.None?
    requires tx.halves[id].ops != [] && tx.halves[id].ops[0].WriteOp? && n <= |Offer(tx.halves[id].ops[0].buf)|
    ensures var h := tx.halves[id];
            var wire' := Accepted(wire, id, Offer(h.ops[0].buf), n, false);
            && n <= |Todo(h)|
            && SendOk(PutHalf(tx, id, Written(h, n)), led, p, wire', {id})
            && At(wire', id) == Sent(h, At(wire, id), n, false) && NoGrowth(h, Written(h, n))
            && (n > 0 ==> Shrinks(h, Written(h, n)))
  {
    hide HalfOk, QueueOk, Offer, Todo, Written, Shrinks, NoGrowth;
    var h := tx.halves[id];
    OfferIsPrefix(h.ops[0].buf);
    WriteTodo(h, n);
    WriteOk(h, led[id], At(wire, id), n);
    SendReplace(tx, led, p, wire, {}, id, Written(h, n), Accepted(wire, id, Offer(h.ops[0].buf), n, false));
  }

  lemma HoldKeeps(tx: SendSide, led: map<Id, Ledger>, p: Parking, wire: map<Id, Wire>, id: Id)
    requires SendOk(tx, led, p, wire, {id}) && id in tx.halves
    requires tx.halves[id].terminal.None? && tx.halves[id].held.None?
    requires tx.halves[id].ops != [] && tx.halves[id].ops[0].WriteOp? && tx.halves[id].ops[0].buf.Remaining() > 0
    ensures var h := Holding(tx.halves[id]);
            SendOk(PutHalf(tx, id, h), led, p, wire, {id}) && Shrinks(tx.halves[id], h)
  {
    hide HalfOk, QueueOk, Holding, Shrinks;
    HoldOk(tx.halves[id], led[id], At(wire, id));
    SendReplace(tx, led, p, wire, {}, id, Holding(tx.halves[id]), wire);
  }

  lemma PopKeeps(tx: SendSide, led: map<Id, Ledger>, p: Parking, wire: map<Id, Wire>, id: Id)
    requires SendOk(tx, led, p, wire, {id}) && id in tx.halves && tx.halves[id].terminal.None?
    requires tx.halves[id].ops != [] && tx.halves[id].ops[0].WriteOp? && tx.halves[id].ops[0].buf.Remaining() == 0
    ensures var h := tx.halves[id].(ops := tx.halves[id].ops[1..]);
            SendOk(PutHalf(tx, id, h), led, p, wire, {id}) && Shrinks(tx.halves[id], h)
  {
    hide HalfOk, QueueOk, Shrinks, Todo;
    PopOk(tx.halves[id], led[id], At(wire, id));
    var h := tx.halves[id].(ops := tx.halves[id].ops[1..]);
    SendReplace(tx, led, p, wire, {}, id, h, wire);
  }

  /** The FIN leaves with the last byte: the half is done, and everything submitted is on the wire once. */
  lemma FinKeeps(tx: SendSide, led: map<Id, Ledger>, p: Parking, wire: map<Id, Wire>, id: Id, wire': map<Id, Wire>)
    requires SendOk(tx, led, p, wire, {id}) && id in tx.halves && tx.halves[id].terminal.None?
    requires tx.halves[id].ops != [] && tx.halves[id].ops[0].FinishOp?
    requires wire' == wire[id := Sent(tx.halves[id], At(wire, id), |Todo(tx.halves[id])|, true)]
    ensures var h := tx.halves[id].(ops := [], held := None, finished := true);
            SendOk(PutHalf(tx, id, h), led, p, wire', {})
    ensures At(wire', id).bytes == led[id].base.bytes + led[id].submitted
    ensures At(wire', id).fins == led[id].base.fins + 1
  {
    var h := tx.halves[id].(ops := [], held := None, finished := true);
    FinOk(tx.halves[id], led[id], At(wire, id));
    assert At(wire', id).fins == led[id].base.fins + 1;
    hide HalfOk, QueueOk, Todo;
    SendReplace(tx, led, p, wire, {}, id, h, wire');
  }

  /** Flushing the whole held write with the FIN is the plain sender's last step. */
  lemma FinFlushed(tx: SendSide, led: map<Id, Ledger>, p: Parking, wire: map<Id, Wire>, id: Id)
    requires SendOk(tx, led, p, wire, {id}) && id in tx.halves && tx.halves[id].terminal.None?
    requires tx.halves[id].ops != [] && tx.halves[id].ops[0].FinishOp? && tx.halves[id].held.Some?
    requires |Offer(tx.halves[id].held.value)| == tx.halves[id].held.value.Remaining()
    ensures var h := tx.halves[id];
            var offer := Offer(h.held.value);
            var wire' := Accepted(wire, id, offer, |offer|, true);
            && |h.ops| == 1 && |Todo(h)| == |offer|
            && At(wire', id) == Sent(h, At(wire, id), |Todo(h)|, true)
            && SendOk(PutHalf(tx, id, h.(ops := [], held := None, finished := true)), led, p, wire', {})
            && At(wire', id).bytes == led[id].base.bytes + led[id].submitted
            && At(wire', id).fins == led[id].base.fins + 1
  {
    hide SendOk, HalfOk, Offer, Todo;
    var h := tx.halves[id];
    var offer := Offer(h.held.value);
    OfferIsPrefix(h.held.value);
    FinishLast(tx, led, p, wire, {id}, id);
    assert offer[..|offer|] == offer && Todo(h)[..|Todo(h)|] == Todo(h);
    FinKeeps(tx, led, p, wire, id, Accepted(wire, id, offer, |offer|, true));
  }

  lemma FinishLast(tx: SendSide, led: map<Id, Ledger>, p: Parking, wire: map<Id, Wire>, exc: set<Id>, id: Id)
    requires SendOk(tx, led, p, wire, exc) && id in tx.halves
    requires tx.halves[id].ops != [] && tx.halves[id].ops[0].FinishOp?
    ensures |tx.halves[id].ops| == 1
    ensures Todo(tx.halves[id]) == if tx.halves[id].held.Some? then tx.halves[id].held.value.Bytes() else []
    ensures tx.halves.Keys == led.Keys
  {
    assert HalfOk(tx.halves[id], led[id], At(wire, id));
    FinishIsLast(tx.halves[id]);
  }

  /** A turn of the held-write machine is a step of the plain sender. */
  lemma TurnIsPlain(tx: SendSide, led: map<Id, Ledger>, p: Parking, wire: map<Id, Wire>, exc: set<Id>, tx': SendSide,
                    p': Parking, wire': map<Id, Wire>, exc': set<Id>, id: Id, n: nat, fin: bool)
    requires SendOk(tx, led, p, wire, exc) && SendOk(tx', led, p', wire', exc')
    requires id in tx.halves && id in tx'.halves
    requires tx.halves[id].terminal.None? && tx'.halves[id].terminal.None?
    requires n <= |Todo(tx.halves[id])| && At(wire', id) == Sent(tx.halves[id], At(wire, id), n, fin)
    ensures PlainStep(View(tx.halves[id], led[id], At(wire, id)), View(tx'.halves[id], led[id], At(wire', id)), n, fin)
  {
    hide HalfOk, QueueOk, Todo, PlainStep, View, Sent;
    HeldRefinesPlain(tx.halves[id], led[id], At(wire, id), tx'.halves[id], At(wire', id), n, fin);
  }

  /** A finished half whose receive side is gone is forgotten: nothing was queued on it. */
  lemma ReclaimKeeps(tx: SendSide, led: map<Id, Ledger>, p: Parking, wire: map<Id, Wire>, exc: set<Id>, id: Id)
    requires SendOk(tx, led, p, wire, exc) && id in tx.halves && tx.halves[id].finished
    ensures SendOk(tx.(halves := tx.halves - {id}), led - {id}, p, wire, exc)
    ensures tx.halves[id].ops == []
  {
    assert HalfOk(tx.halves[id], led[id], At(wire, id));
    hide QueueOk;
  }

  lemma CrossHanded(halves: map<Id, SendHalf>, led: map<Id, Ledger>, admit: map<Id, AdmitState>, handed: Handed,
                    past: Past, orphan: set<Id>)
    requires CrossOk(halves, led, admit, handed, past, orphan)
    ensures halves.Keys <= handed.send && halves.Keys == led.Keys
  {
  }

  lemma CrossForget(halves: map<Id, SendHalf>, led: map<Id, Ledger>, admit: map<Id, AdmitState>, handed: Handed,
                    past: Past, orphan: set<Id>, id: Id)
    requires CrossOk(halves, led, admit, handed, past, orphan)
    ensures CrossOk(halves - {id}, led - {id}, admit - {id}, handed, past, orphan)
  {
  }

  lemma AdmitForget(a: Admission, live: set<Id>, handed: Handed, isServer: bool, id: Id)
    requires AdmitOk(a, live, handed, isServer) && id !in live && id in handed.send
    ensures AdmitOk(a.(admit := a.admit - {id}), live, handed, isServer)
  {
  }

  lemma TokForget(halves: map<Id, SendHalf>, io: Ingress, home: map<Token, Place>, resolved: map<Token, Outcome>,
                  abandoned: set<Token>, id: Id)
    requires TokOk(halves, io, home, resolved, abandoned) && id in halves && halves[id].ops == []
    ensures TokOk(halves - {id}, io, home, resolved, abandoned)
  {
    SendToksGone(halves, home, id);
    hide SendToks, CmdToks, OpenToks;
  }

  lemma TokBorn(halves: map<Id, SendHalf>, io: Ingress, home: map<Token, Place>, resolved: map<Token, Outcome>,
                abandoned: set<Token>, id: Id)
    requires TokOk(halves, io, home, resolved, abandoned) && id !in halves
    ensures TokOk(halves[id := FRESH], io, home, resolved, abandoned)
  {
    SendToksBorn(halves, home, id, FRESH);
    hide SendToks, CmdToks, OpenToks;
  }

  /** A token in hand joins its stream's queue. */
  lemma TokPush(halves: map<Id, SendHalf>, io: Ingress, home: map<Token, Place>, resolved: map<Token, Outcome>,
                abandoned: set<Token>, id: Id, op: Op)
    requires TokOk(halves, io, home, resolved, abandoned) && id in halves
    requires op.done !in home && op.done !in resolved && op.done !in abandoned && op.done < io.nextTok
    requires op.done !in io.opens
    ensures var h := halves[id].(ops := halves[id].ops + [op]);
            TokOk(halves[id := h], io, home[op.done := InSend(id)], resolved, abandoned)
  {
    SendToksPush(halves, home, id, halves[id].(ops := halves[id].ops + [op]), op);
    CmdToksAside(io.inbox + io.cmdRx, home, op.done, id);
    OpenToksAside(io.openBidi, InOpenBidi, home, op.done, id);
    OpenToksAside(io.openUni, InOpenUni, home, op.done, id);
    hide SendToks, CmdToks, OpenToks;
  }

  /** A token in hand is resolved at once. */
  lemma TokResolve(halves: map<Id, SendHalf>, io: Ingress, home: map<Token, Place>, resolved: map<Token, Outcome>,
                   abandoned: set<Token>, tok: Token, out: Outcome)
    requires TokOk(halves, io, home, resolved, abandoned)
    requires tok !in home && tok !in abandoned && tok < io.nextTok
    ensures TokOk(halves, io, home - {tok}, resolved[tok := out], abandoned)
  {
    assert home - {tok} == home;
  }

  lemma CrossBorn(halves: map<Id, SendHalf>, led: map<Id, Ledger>, admit: map<Id, AdmitState>, handed: Handed,
                  past: Past, orphan: set<Id>, id: Id, l: Ledger)
    requires CrossOk(halves, led, admit, handed, past, orphan) && id !in halves && id in handed.send
    requires !l.finSubmitted
    ensures CrossOk(halves[id := FRESH], led[id := l], admit, handed, past, orphan)
  {
  }

  lemma CrossSendDone(halves: map<Id, SendHalf>, led: map<Id, Ledger>, admit: map<Id, AdmitState>, handed: Handed,
                      past: Past, orphan: set<Id>, id: Id, h: SendHalf)
    requires CrossOk(halves, led, admit, handed, past, orphan) && id in halves && h.finished
    ensures CrossOk(halves[id := h], led, SendDoneIn(admit, id), handed, past, orphan)
  {
  }

  /** Serving a pending reset, seen from every part of the invariant but the receive side. */
  lemma ResetServed(tx: SendSide, led: map<Id, Ledger>, p: Parking, wire: map<Id, Wire>, io: Ingress,
                    home: map<Token, Place>, resolved: map<Token, Outcome>, abandoned: set<Token>,
                    admit: map<Id, AdmitState>, handed: Handed, past: Past, shutdowns: seq<Shutdown>, isServer: bool,
                    id: Id)
    requires SendOk(tx, led, p, wire, {id}) && TokOk(tx.halves, io, home, resolved, abandoned)
    requires CrossOk(tx.halves, led, admit, handed, past, p.orphan) && DirOk(shutdowns, handed, isServer)
    requires id !in tx.runSet && id in tx.halves && tx.halves[id].pendingReset.Some?
    ensures var code := tx.halves[id].pendingReset.value;
            var tx' := PutHalf(tx, id, tx.halves[id].(pendingReset := None, finished := true));
            var w := At(wire, id);
            && DropRun(tx', id) == tx' && tx'.run == tx.run && tx'.runSet == tx.runSet
            && tx'.halves == tx.halves[id := tx'.halves[id]] && id in tx'.halves
            && tx'.halves - {id} == tx.halves - {id}
            && tx'.halves[id] == tx.halves[id].(pendingReset := None, finished := true)
            && SendOk(tx', led, p, wire[id := w.(resets := w.resets + [code])], {})
            && TokOk(tx'.halves, io, home, resolved, abandoned)
            && CrossOk(tx'.halves, led, SendDoneIn(admit, id), handed, past, p.orphan)
            && DirOk(shutdowns + [Shutdown(id, WriteSide, code)], handed, isServer)
  {
    var h := tx.halves[id].(pendingReset := None, finished := true);
    ResetServiceKeeps(tx, led, p, wire, id);
    CrossHanded(tx.halves, led, admit, handed, past, p.orphan);
    DirWrite(shutdowns, handed, isServer, id, tx.halves[id].pendingReset.value);
    TokSame(tx.halves, io, home, resolved, abandoned, id, h);
    CrossSendDone(tx.halves, led, admit, handed, past, p.orphan, id, h);
    PutAside(tx, id, h);
    OthersKept(tx.halves, id, h);
    hide SendOk, TokOk, CrossOk, DirOk, SendDoneIn, PutHalf, DropRun;
  }

  /** A half with something left to send has no FIN of its own on the wire yet. */
  lemma FinAhead(tx: SendSide, led: map<Id, Ledger>, p: Parking, wire: map<Id, Wire>, exc: set<Id>,
                 admit: map<Id, AdmitState>, handed: Handed, past: Past, id: Id)
    requires SendOk(tx, led, p, wire, exc) && CrossOk(tx.halves, led, admit, handed, past, p.orphan)
    requires id in tx.halves && tx.halves[id].terminal.None? && (tx.halves[id].ops != [] || tx.halves[id].held.Some?)
    ensures id in led && id in handed.send && At(wire, id).fins == led[id].base.fins
    ensures tx.halves[id].ops != [] && tx.halves[id].ops[0].FinishOp? ==> id in past.ended
  {
    assert HalfOk(tx.halves[id], led[id], At(wire, id));
    assert tx.halves[id].ops != [] && tx.halves[id].ops[0].FinishOp? ==> EndsWithFinish(tx.halves[id].ops);
  }

  /** A stream whose Finish or Reset has not been applied cannot have a finished live half. */
  lemma NotEnded(tx: SendSide, led: map<Id, Ledger>, p: Parking, wire: map<Id, Wire>, exc: set<Id>,
                 admit: map<Id, AdmitState>, handed: Handed, past: Past, id: Id)
    requires SendOk(tx, led, p, wire, exc) && CrossOk(tx.halves, led, admit, handed, past, p.orphan)
    requires id in tx.halves && id !in past.ended && tx.halves[id].terminal.None?
    ensures !led[id].finSubmitted && !tx.halves[id].finished
  {
    assert HalfOk(tx.halves[id], led[id], At(wire, id));
  }

  lemma CrossEnqueue(halves: map<Id, SendHalf>, led: map<Id, Ledger>, admit: map<Id, AdmitState>, handed: Handed,
                     past: Past, orphan: set<Id>, id: Id, h: SendHalf, l: Ledger, ended: set<Id>)
    requires CrossOk(halves, led, admit, handed, past, orphan)
    requires id in halves && h.finished == halves[id].finished
    requires past.ended <= ended && (l.finSubmitted ==> id in ended)
    ensures CrossOk(halves[id := h], led[id := l], admit, handed, past.(ended := ended), orphan)
  {
  }

  lemma CrossEnded(halves: map<Id, SendHalf>, led: map<Id, Ledger>, admit: map<Id, AdmitState>, handed: Handed,
                   past: Past, orphan: set<Id>, ended: set<Id>)
    requires CrossOk(halves, led, admit, handed, past, orphan) && past.ended <= ended
    ensures CrossOk(halves, led, admit, handed, past.(ended := ended), orphan)
  {
  }

  lemma CrossPut(halves: map<Id, SendHalf>, led: map<Id, Ledger>, admit: map<Id, AdmitState>, handed: Handed,
                 past: Past, orphan: set<Id>, id: Id, h: SendHalf)
    requires CrossOk(halves, led, admit, handed, past, orphan)
    requires id in halves && h.finished == halves[id].finished
    ensures CrossOk(halves[id := h], led, admit, handed, past, orphan)
  {
  }

  // ----- receive halves -----

  lemma RecvDropCursors(rx: RecvSide, sealed: map<Id, RecvHalf>, idle: Idle, handed: Handed, taken: map<Id, seq<Byte>>,
                        exc: set<Id>, id: Id)
    requires RecvOk(rx, sealed, idle, handed, taken, exc)
    ensures id in exc || id !in rx.halves ==> RecvOk(DropCursors(rx, id), sealed, idle, handed, taken, exc)
  {
    QueueDrop(rx.readable, rx.readableSet, id);
    QueueDrop(rx.resume, rx.resumeSet, id);
    hide QueueOk;
  }

  lemma EarlyDone(a: Admission, e: Early, handed: Handed, hand: set<Id>, id: Id)
    requires EarlyOk(a, e, handed, hand)
    ensures EarlyOk(a.(admit := SendDoneIn(a.admit, id)), e, handed, hand)
    ensures EarlyOk(a.(admit := RecvDoneIn(a.admit, id)), e, handed, hand)
  {
  }

  lemma EarlyForget(a: Admission, e: Early, handed: Handed, hand: set<Id>, id: Id)
    requires EarlyOk(a, e, handed, hand) && id in handed.send
    ensures EarlyOk(a.(admit := a.admit - {id}), e, handed, hand)
  {
  }

  lemma RecvPush(rx: RecvSide, sealed: map<Id, RecvHalf>, idle: Idle, handed: Handed, taken: map<Id, seq<Byte>>,
                 exc: set<Id>, id: Id, data: seq<Byte>)
    requires RecvOk(rx, sealed, idle, handed, taken, exc) && id in rx.halves
    ensures var h := rx.halves[id];
            RecvOk(rx.(halves := rx.halves[id := h.(pushed := h.pushed + data)]), sealed, idle, handed,
                   taken[id := TakenAt(taken, id) + data], exc)
  {
    hide QueueOk;
  }

  lemma RecvPublish(rx: RecvSide, sealed: map<Id, RecvHalf>, idle: Idle, handed: Handed, taken: map<Id, seq<Byte>>,
                    exc: set<Id>, id: Id, end: RecvEnd)
    requires RecvOk(rx, sealed, idle, handed, taken, exc) && id in rx.halves
    ensures RecvOk(rx.(halves := rx.halves[id := Published(rx.halves[id], end)]), sealed, idle, handed, taken, exc)
  {
    hide QueueOk;
  }

  /** Letting go of a half keeps delivery exact. */
  lemma RecvSeal(rx: RecvSide, sealed: map<Id, RecvHalf>, idle: Idle, handed: Handed, taken: map<Id, seq<Byte>>, id: Id)
    requires RecvOk(rx, sealed, idle, handed, taken, {id})
    ensures RecvOk(Seal(rx, id), SealIn(sealed, rx, id), idle, handed, taken, {})
  {
    QueueDrop(rx.readable, rx.readableSet, id);
    QueueDrop(rx.resume, rx.resumeSet, id);
    hide QueueOk, Without;
  }

  lemma RecvRequeue(rx: RecvSide, sealed: map<Id, RecvHalf>, idle: Idle, handed: Handed, taken: map<Id, seq<Byte>>,
                    id: Id)
    requires RecvOk(rx, sealed, idle, handed, taken, {id}) && id in rx.halves
    ensures RecvOk(PushReadable(rx, id), sealed, idle, handed, taken, {})
  {
    if id !in rx.readableSet { QueuePush(rx.readable, rx.readableSet, id); }
    hide QueueOk;
  }

  lemma RecvResumed(rx: RecvSide, sealed: map<Id, RecvHalf>, idle: Idle, handed: Handed, taken: map<Id, seq<Byte>>,
                    exc: set<Id>, id: Id)
    requires RecvOk(rx, sealed, idle, handed, taken, exc)
    ensures RecvOk(PushResume(rx, id), sealed, idle, handed, taken, exc)
  {
    if id !in rx.resumeSet { QueuePush(rx.resume, rx.resumeSet, id); }
    hide QueueOk;
  }

  lemma RecvIdle(rx: RecvSide, sealed: map<Id, RecvHalf>, idle: Idle, handed: Handed, taken: map<Id, seq<Byte>>,
                 id: Id, idle': Idle)
    requires RecvOk(rx, sealed, idle, handed, taken, {id}) && id in rx.halves && idle'.dry <= idle.dry + {id}
    requires idle.dry <= idle'.dry && idle.full <= idle'.full && idle.gone <= idle'.gone
    requires id in idle'.dry || id in idle'.full || id in idle'.gone
    ensures RecvOk(rx, sealed, idle', handed, taken, {})
  {
    hide QueueOk;
  }

  function Awake(idle: Idle, id: Id): Idle {
    Idle(idle.dry - {id}, idle.full - {id}, idle.gone - {id})
  }

  /** Taking a half up for draining: it is in no waiting place until the drain decides. */
  lemma RecvWake(rx: RecvSide, sealed: map<Id, RecvHalf>, idle: Idle, handed: Handed, taken: map<Id, seq<Byte>>,
                 exc: set<Id>, id: Id)
    requires RecvOk(rx, sealed, idle, handed, taken, exc) && exc <= {id}
    ensures RecvOk(rx, sealed, Awake(idle, id), handed, taken, {id}) && rx.halves.Keys <= handed.recv
    ensures id !in rx.halves ==> RecvOk(rx, sealed, Awake(idle, id), handed, taken, {})
  {
    hide QueueOk;
  }

  lemma RecvServed(rx: RecvSide, sealed: map<Id, RecvHalf>, idle: Idle, handed: Handed, taken: map<Id, seq<Byte>>,
                   id: Id)
    requires RecvOk(rx, sealed, idle, handed, taken, {id})
    ensures id !in idle.dry
    ensures id in rx.halves ==> id in handed.recv && id !in sealed && rx.halves[id].pushed == TakenAt(taken, id)
  {
  }

  /** Popping the drain cursor takes a live half up for draining. */
  lemma RecvPopReadable(rx: RecvSide, sealed: map<Id, RecvHalf>, idle: Idle, handed: Handed, taken: map<Id, seq<Byte>>)
    requires RecvOk(rx, sealed, idle, handed, taken, {}) && rx.readable != []
    ensures var id := rx.readable[0];
            id in rx.halves
            && RecvOk(rx.(readable := rx.readable[1..], readableSet := rx.readableSet - {id}), sealed, Awake(idle, id),
                      handed, taken, {id})
  {
    QueuePop(rx.readable, rx.readableSet);
    hide QueueOk;
  }

  lemma RecvPopResume(rx: RecvSide, sealed: map<Id, RecvHalf>, idle: Idle, handed: Handed, taken: map<Id, seq<Byte>>)
    requires RecvOk(rx, sealed, idle, handed, taken, {}) && rx.resume != []
    ensures var id := rx.resume[0];
            RecvOk(rx.(resume := rx.resume[1..], resumeSet := rx.resumeSet - {id}), sealed, idle, handed, taken, {})
  {
    QueuePop(rx.resume, rx.resumeSet);
    hide QueueOk;
  }

  // ----- drain logs -----

  /** The worker notes one operation on the half it serves. */
  lemma DrainNoted(drains: map<Id, seq<Drain.Act>>, halves: map<Id, RecvHalf>, sealed: map<Id, RecvHalf>,
                   full: set<Id>, recv: set<Id>, closed: bool, id: Id, a: Drain.Act, h: RecvHalf)
    requires DrainsOk(drains, halves, sealed, full, recv, {id}, closed) && id in halves && id in recv && id !in sealed
    requires Drain.PcOf(LogAt(drains, id)).Some? && Drain.Move(Drain.PcOf(LogAt(drains, id)).value, a).Some?
    requires h.pushed == halves[id].pushed + Drain.ChunkOf(a) && h.end == Drain.EndAfter(halves[id].end, a)
    ensures DrainsOk(Noted(drains, id, a), halves[id := h], sealed, full, recv, {id}, closed)
    ensures Drain.PcOf(LogAt(Noted(drains, id, a), id)) == Drain.Move(Drain.PcOf(LogAt(drains, id)).value, a)
  {
    hide Drain.Move, Drain.PcOf, Drain.BytesOf, Drain.EndOf, Drain.EndAfter, Drain.Parked, Drain.ChunkOf;
    Drain.Logged(LogAt(drains, id), a);
  }

  lemma DrainWoken(drains: map<Id, seq<Drain.Act>>, halves: map<Id, RecvHalf>, sealed: map<Id, RecvHalf>,
                   full: set<Id>, recv: set<Id>, closed: bool, id: Id)
    requires DrainsOk(drains, halves, sealed, full, recv, {}, closed)
    ensures DrainsOk(drains, halves, sealed, full - {id}, recv, {}, closed)
    ensures DrainsOk(drains, halves, sealed, full - {id}, recv, {id}, closed)
    ensures id in halves ==> Resting(LogAt(drains, id), closed)
  {
    hide Drain.PcOf, Drain.Parked, LogOk;
  }

  lemma DrainOver(drains: map<Id, seq<Drain.Act>>, halves: map<Id, RecvHalf>, sealed: map<Id, RecvHalf>, full: set<Id>,
                  recv: set<Id>, closed: bool, id: Id)
    requires DrainsOk(drains, halves, sealed, full, recv, {id}, closed)
    requires id in halves ==> Resting(LogAt(drains, id), closed)
    ensures DrainsOk(drains, halves, sealed, full, recv, {}, closed)
    ensures id in recv && Drain.Parked(LogAt(drains, id)) ==>
              DrainsOk(drains, halves, sealed, full + {id}, recv, {}, closed)
  {
    hide Drain.PcOf, Drain.Parked, LogOk;
  }

  lemma DrainLetGo(drains: map<Id, seq<Drain.Act>>, rx: RecvSide, sealed: map<Id, RecvHalf>, full: set<Id>,
                   recv: set<Id>, closed: bool, id: Id)
    requires DrainsOk(drains, rx.halves, sealed, full, recv, {id}, closed)
    requires id in rx.halves ==> Drain.PcOf(LogAt(drains, id)) == Some(Drain.Gone)
    ensures DrainsOk(drains, Seal(rx, id).halves, SealIn(sealed, rx, id), full, recv, {}, closed)
  {
    hide Drain.PcOf, Drain.Parked, LogOk;
  }

  lemma DrainBorn(drains: map<Id, seq<Drain.Act>>, halves: map<Id, RecvHalf>, sealed: map<Id, RecvHalf>, full: set<Id>,
                  recv: set<Id>, closed: bool, exc: set<Id>, id: Id)
    requires DrainsOk(drains, halves, sealed, full, recv, {}, closed) && id !in recv && exc <= {id}
    ensures DrainsOk(drains, halves[id := RecvHalf([], None)], sealed, full, recv + {id}, exc, closed)
  {
    hide Drain.Parked;
  }

  lemma DrainAdmit(drains: map<Id, seq<Drain.Act>>, halves: map<Id, RecvHalf>, sealed: map<Id, RecvHalf>,
                   full: set<Id>, handed: Handed, closed: bool, id: Id)
    requires DrainsOk(drains, halves, sealed, full, handed.recv, {}, closed) && !handed.Has(id)
    ensures DrainsOk(drains, halves[id := RecvHalf([], None)], sealed, full, HandOver(handed, id).recv, {id}, closed)
    ensures Drain.PcOf(LogAt(drains, id)) == Some(Drain.Away)
  {
    DrainBorn(drains, halves, sealed, full, handed.recv, closed, {id}, id);
    hide DrainsOk, IsBidi;
  }

  lemma DrainOpen(drains: map<Id, seq<Drain.Act>>, rx: RecvSide, sealed: map<Id, RecvHalf>, idle: Idle, handed: Handed,
                  closed: bool, id: Id, bidi: bool)
    requires DrainsOk(drains, rx.halves, sealed, idle.full, handed.recv, {}, closed) && !handed.Has(id)
    ensures var full := OpenIdle(idle, id, bidi).full;
            DrainsOk(drains, OpenRx(rx, id, bidi).halves, sealed, full, LocalHanded(handed, id, bidi).recv, {}, closed)
  {
    DrainBorn(drains, rx.halves, sealed, idle.full, handed.recv, closed, {}, id);
    hide DrainsOk;
  }

  lemma StartDrains()
    ensures DrainsOk(map[], NO_RECVS.halves, map[], {}, NOBODY.recv, {}, false)
  {
  }

  lemma DrainForgotten(drains: map<Id, seq<Drain.Act>>, halves: map<Id, RecvHalf>, sealed: map<Id, RecvHalf>,
                       full: set<Id>, recv: set<Id>, closed: bool, id: Id)
    requires DrainsOk(drains, halves, sealed, full, recv, {}, closed)
    ensures DrainsOk(drains, halves - {id}, sealed, full, recv, {}, closed)
  {
  }

  lemma DrainsClose(drains: map<Id, seq<Drain.Act>>, halves: map<Id, RecvHalf>, sealed: map<Id, RecvHalf>,
                    full: set<Id>, recv: set<Id>, closed: bool)
    requires DrainsOk(drains, halves, sealed, full, recv, {}, closed)
    ensures DrainsOk(drains, halves, sealed, full, recv, {}, true)
  {
    hide Drain.PcOf, Drain.Parked, LogOk;
  }

  lemma DrainPut(drains: map<Id, seq<Drain.Act>>, halves: map<Id, RecvHalf>, sealed: map<Id, RecvHalf>, full: set<Id>,
                 recv: set<Id>, id: Id, log: seq<Drain.Act>, h: RecvHalf)
    requires DrainsOk(drains, halves, sealed, full, recv, {}, true) && id in halves && id in recv && id !in sealed
    requires LogOk(log, h) && Resting(log, true)
    ensures DrainsOk(drains[id := log], halves[id := h], sealed, full, recv, {}, true)
  {
    hide LogOk, Resting, Drain.PcOf, Drain.Parked;
  }

  lemma LogClosed(log: seq<Drain.Act>, h: RecvHalf, terminal: ConnTerminal)
    requires LogOk(log, h) && Resting(log, true)
    ensures var away := Drain.PcOf(log) == Some(Drain.Away);
            var log' := if away then log + [Drain.ConnClosed(terminal)] else log;
            LogOk(log', Published(h, RecvConn(terminal))) && Resting(log', true)
  {
    Drain.GoneHasEnd(log);
    Drain.Logged(log, Drain.ConnClosed(terminal));
    hide Drain.PcOf, Drain.BytesOf, Drain.EndOf;
  }

  /** The connection is closed under a half the worker rests from; the first end counts. */
  lemma DrainClosed(drains: map<Id, seq<Drain.Act>>, halves: map<Id, RecvHalf>, sealed: map<Id, RecvHalf>,
                    full: set<Id>, recv: set<Id>, id: Id, terminal: ConnTerminal)
    requires DrainsOk(drains, halves, sealed, full, recv, {}, true) && id in halves && id in recv && id !in sealed
    ensures var away := Drain.PcOf(LogAt(drains, id)) == Some(Drain.Away);
            var drains' := if away then Noted(drains, id, Drain.ConnClosed(terminal)) else drains;
            DrainsOk(drains', halves[id := Published(halves[id], RecvConn(terminal))], sealed, full, recv, {}, true)
  {
    var log, h := LogAt(drains, id), Published(halves[id], RecvConn(terminal));
    LogClosed(log, halves[id], terminal);
    hide LogOk, Resting, Drain.PcOf, Drain.Parked;
    if Drain.PcOf(log) == Some(Drain.Away) {
      DrainPut(drains, halves, sealed, full, recv, id, log + [Drain.ConnClosed(terminal)], h);
    } else {
      Drain.StartsAway();
      DrainPut(drains, halves, sealed, full, recv, id, log, h);
      assert drains[id := log] == drains;
    }
  }

  lemma TwiceFull(drains: map<Id, seq<Drain.Act>>, id: Id)
    ensures var d := Noted(Noted(Noted(drains, id, Drain.Tried(Full)), id, Drain.BlockedSet), id, Drain.Tried(Full));
            Drain.Parked(LogAt(d, id))
  {
    var d := Noted(Noted(Noted(drains, id, Drain.Tried(Full)), id, Drain.BlockedSet), id, Drain.Tried(Full));
    assert d[id] == LogAt(drains, id) + [Drain.Tried(Full), Drain.BlockedSet, Drain.Tried(Full)];
  }

  /** The sealing edge, seen from admission and the receive side. */
  lemma SealKeeps(a: Admission, rx: RecvSide, sealed: map<Id, RecvHalf>, idle: Idle, e: Early, handed: Handed,
                  hand: set<Id>, taken: map<Id, seq<Byte>>, drains: map<Id, seq<Drain.Act>>, closed: bool,
                  isServer: bool, id: Id)
    requires AdmitOk(a, rx.halves.Keys, handed, isServer) && EarlyOk(a, e, handed, hand)
    requires RecvOk(rx, sealed, idle, handed, taken, {id})
    requires DrainsOk(drains, rx.halves, sealed, idle.full, handed.recv, {id}, closed)
    requires id in rx.halves ==> Drain.PcOf(LogAt(drains, id)) == Some(Drain.Gone)
    ensures var a', rx', sealed' := a.(admit := RecvDoneIn(a.admit, id)), Seal(rx, id), SealIn(sealed, rx, id);
            && AdmitOk(a', rx'.halves.Keys, handed, isServer) && EarlyOk(a', e, handed, hand)
            && RecvOk(rx', sealed', idle, handed, taken, {})
            && DrainsOk(drains, rx'.halves, sealed', idle.full, handed.recv, {}, closed)
    ensures id in rx.halves ==> id !in sealed
    ensures id in a.admit && a.admit[id].Registered? && !IsBidi(id) ==> a.admit[id].sendDone
  {
    AdmitRecvDone(a, rx.halves.Keys, handed, isServer, id);
    EarlyDone(a, e, handed, hand, id);
    RecvSeal(rx, sealed, idle, handed, taken, id);
    DrainLetGo(drains, rx, sealed, idle.full, handed.recv, closed, id);
    RecvServed(rx, sealed, idle, handed, taken, id);
    hide AdmitOk, RecvOk, DrainsOk, EarlyOk, IsBidi, RecvDoneIn, SealIn, Without, Drain.PcOf;
    assert Seal(rx, id).halves.Keys == rx.halves.Keys - {id};
  }

  lemma FinishedWaitsForNobody(tx: SendSide, led: map<Id, Ledger>, p: Parking, wire: map<Id, Wire>, exc: set<Id>,
                               id: Id)
    requires SendOk(tx, led, p, wire, exc) && id in tx.halves && tx.halves[id].finished
    ensures forall run, q :: Waits(tx.halves[id], id, run, q)
  {
    assert HalfOk(tx.halves[id], led[id], At(wire, id));
  }

  lemma OrphanKeeps(tx: SendSide, led: map<Id, Ledger>, p: Parking, wire: map<Id, Wire>, id: Id)
    requires SendOk(tx, led, p, wire, {})
    ensures SendOk(DropRun(tx, id), led, Orphaned(tx, p, id), wire, {})
  {
    hide HalfOk;
    QueueDrop(tx.run, tx.runSet, id);
    hide QueueOk, Without;
  }

  /**
   * Ending the receive direction may drop a fully done stream's run-queue place. Only a stream admitted
   * with a retained STOP_SENDING can still have work queued then, and that work is orphaned.
   */
  lemma OrphanOnlyPreset(tx: SendSide, led: map<Id, Ledger>, p: Parking, wire: map<Id, Wire>,
                         admit: map<Id, AdmitState>, handed: Handed, past: Past, id: Id)
    requires SendOk(tx, led, p, wire, {}) && CrossOk(tx.halves, led, admit, handed, past, p.orphan)
    requires id in admit && admit[id].Registered? && admit[id].sendDone
    ensures CrossOk(tx.halves, led, admit - {id}, handed, past, Orphaned(tx, p, id).orphan)
    ensures Orphaned(tx, p, id) == p || id in past.preset
  {
    hide SendOk, Waits;
    if id in tx.halves && id !in past.preset {
      FinishedWaitsForNobody(tx, led, p, wire, {}, id);
    }
  }

  lemma CrossRecvDone(halves: map<Id, SendHalf>, led: map<Id, Ledger>, admit: map<Id, AdmitState>, handed: Handed,
                      past: Past, orphan: set<Id>, id: Id)
    requires CrossOk(halves, led, admit, handed, past, orphan) && id in admit && admit[id].Registered?
    ensures CrossOk(halves, led, admit[id := admit[id].(recvDone := true)], handed, past, orphan)
  {
  }

  // ----- admission -----

  /** The handles after stream `id` is handed over: both halves of a bidi stream, the receive half of a uni one. */
  function HandOver(handed: Handed, id: Id): Handed {
    Handed(if IsBidi(id) then handed.send + {id} else handed.send, handed.recv + {id})
  }

  /** A stream the worker owns outright: discovered, not waiting anywhere, never handed out. */
  predicate Owned(a: Admission, e: Early, handed: Handed, isServer: bool, peer: PeerStream) {
    && peer.id !in a.pending && peer.id !in a.admit
    && !handed.Has(peer.id) && !IsLocal(peer.id, isServer)
    && peer.sendEnd == SeenEnd(e.seen, peer.id)
  }

  lemma AdmitRegister(a: Admission, live: set<Id>, handed: Handed, isServer: bool, id: Id, sendDone: bool)
    requires AdmitOk(a, live, handed, isServer)
    requires id !in a.pending && id !in a.admit && !handed.Has(id) && !IsLocal(id, isServer) && (IsBidi(id) || sendDone)
    ensures AdmitOk(a.(admit := a.admit[id := Registered(sendDone, false)]), live + {id}, HandOver(handed, id),
                    isServer)
  {
    hide NoDup, IsBidi, IsLocal;
  }

  lemma RecvBorn(rx: RecvSide, sealed: map<Id, RecvHalf>, idle: Idle, handed: Handed, taken: map<Id, seq<Byte>>,
                 id: Id, handed': Handed)
    requires RecvOk(rx, sealed, idle, handed, taken, {}) && id !in handed.recv && handed'.recv == handed.recv + {id}
    ensures RecvOk(rx.(halves := rx.halves[id := RecvHalf([], None)]), sealed, idle, handed', taken, {id})
    ensures id !in rx.halves
  {
    hide QueueOk;
  }

  lemma CrossAdmit(halves: map<Id, SendHalf>, led: map<Id, Ledger>, admit: map<Id, AdmitState>, handed: Handed,
                   past: Past, orphan: set<Id>, id: Id, l: Ledger, live: bool, bidi: bool)
    requires CrossOk(halves, led, admit, handed, past, orphan)
    requires id !in handed.send && (bidi || !live) && !l.finSubmitted
    ensures var handed' := Handed(if bidi then handed.send + {id} else handed.send, handed.recv + {id});
            var past' := if bidi && !live then past.(preset := past.preset + {id}) else past;
            id !in halves && CrossOk(if live then halves[id := FRESH] else halves, if live then led[id := l] else led,
                    admit[id := Registered(!live, false)], handed', past', orphan)
  {
  }

  lemma DirHandOver(shutdowns: seq<Shutdown>, handed: Handed, isServer: bool, id: Id)
    requires DirOk(shutdowns, handed, isServer) && !IsLocal(id, isServer)
    ensures DirOk(shutdowns, HandOver(handed, id), isServer)
  {
    hide IsBidi, IsLocal;
  }

  lemma IdsHandOver(nextBidi: Id, nextUni: Id, handed: Handed, isServer: bool, id: Id)
    requires IdsOk(nextBidi, nextUni, handed, isServer) && !IsLocal(id, isServer)
    ensures IdsOk(nextBidi, nextUni, HandOver(handed, id), isServer)
  {
    hide IsBidi, IsLocal;
  }

  /** The handle is given exactly the stop code seen before admission. */
  lemma EarlyHandOver(a: Admission, e: Early, handed: Handed, hand: set<Id>, peer: PeerStream, sendDone: bool)
    requires EarlyOk(a, e, handed, hand) && peer.sendEnd == SeenEnd(e.seen, peer.id) && peer.id !in a.admit
    ensures var e' := if IsBidi(peer.id) then e.(given := e.given[peer.id := peer.sendEnd]) else e;
            EarlyOk(a.(admit := a.admit[peer.id := Registered(sendDone, false)]), e', HandOver(handed, peer.id),
                    hand - {peer.id})
  {
    hide IsBidi;
  }

  /** The status a bidi handle is handed over with. */
  function Given(e: Early, peer: PeerStream): Early {
    if IsBidi(peer.id) then e.(given := e.given[peer.id := peer.sendEnd]) else e
  }

  /** Handing over an owned peer stream, seen from admission, the receive side, ids and directions. */
  lemma RecvAdmit(a: Admission, rx: RecvSide, sealed: map<Id, RecvHalf>, idle: Idle, e: Early, handed: Handed,
                  hand: set<Id>, taken: map<Id, seq<Byte>>, drains: map<Id, seq<Drain.Act>>, closed: bool,
                  shutdowns: seq<Shutdown>, nextBidi: Id, nextUni: Id, isServer: bool, peer: PeerStream)
    requires AdmitOk(a, rx.halves.Keys, handed, isServer) && RecvOk(rx, sealed, idle, handed, taken, {})
    requires EarlyOk(a, e, handed, hand) && DirOk(shutdowns, handed, isServer)
    requires IdsOk(nextBidi, nextUni, handed, isServer)
    requires DrainsOk(drains, rx.halves, sealed, idle.full, handed.recv, {}, closed)
    requires Owned(a, e, handed, isServer, peer)
    ensures var id := peer.id;
            var a' := a.(admit := a.admit[id := Registered(!IsBidi(id) || peer.sendEnd.Some?, false)]);
            var rx' := rx.(halves := rx.halves[id := RecvHalf([], None)]);
            var handed' := HandOver(handed, id);
            && AdmitOk(a', rx'.halves.Keys, handed', isServer) && RecvOk(rx', sealed, idle, handed', taken, {id})
            && EarlyOk(a', Given(e, peer), handed', hand - {peer.id}) && DirOk(shutdowns, handed', isServer)
            && IdsOk(nextBidi, nextUni, handed', isServer)
            && DrainsOk(drains, rx'.halves, sealed, idle.full, handed'.recv, {id}, closed)
            && Drain.PcOf(LogAt(drains, id)) == Some(Drain.Away)
  {
    hide AdmitOk, RecvOk, DrainsOk, LogAt, Drain.PcOf, EarlyOk, DirOk, IdsOk, IsBidi, IsLocal;
    var id, done := peer.id, !IsBidi(peer.id) || peer.sendEnd.Some?;
    AdmitRegister(a, rx.halves.Keys, handed, isServer, id, done);
    RecvBorn(rx, sealed, idle, handed, taken, id, HandOver(handed, id));
    DrainAdmit(drains, rx.halves, sealed, idle.full, handed, closed, id);
    EarlyHandOver(a, e, handed, hand, peer, done);
    DirHandOver(shutdowns, handed, isServer, id);
    IdsHandOver(nextBidi, nextUni, handed, isServer, id);
    assert rx.(halves := rx.halves[id := RecvHalf([], None)]).halves.Keys == rx.halves.Keys + {id};
  }

  /** The send side of a stream handed over: a live direction has a new entry. */
  function BornTx(tx: SendSide, id: Id, live: bool): SendSide {
    if live then PutHalf(tx, id, FRESH) else tx
  }

  function BornLed(led: map<Id, Ledger>, id: Id, live: bool, l: Ledger): map<Id, Ledger> {
    if live then led[id := l] else led
  }

  /** A stopped direction is done from the start. */
  function PresetPast(past: Past, id: Id, stopped: bool): Past {
    if stopped then past.(preset := past.preset + {id}) else past
  }

  /** The same, seen from the send side: a live bidi half is born, a stopped one is not. */
  lemma SendAdmit(tx: SendSide, led: map<Id, Ledger>, p: Parking, wire: map<Id, Wire>, io: Ingress,
                  home: map<Token, Place>, resolved: map<Token, Outcome>, abandoned: set<Token>,
                  admit: map<Id, AdmitState>, handed: Handed, past: Past, id: Id, live: bool, bidi: bool, birth: nat,
                  from: nat)
    requires SendOk(tx, led, p, wire, {}) && TokOk(tx.halves, io, home, resolved, abandoned)
    requires CrossOk(tx.halves, led, admit, handed, past, p.orphan)
    requires id !in handed.send && (bidi || !live) && bidi == IsBidi(id) && Within(p, past, handed)
    ensures var l := Born(At(wire, id), birth, from);
            var tx', led' := BornTx(tx, id, live), BornLed(led, id, live, l);
            var past' := PresetPast(past, id, bidi && !live);
            && id !in tx.halves && SendOk(tx', led', p, wire, {}) && TokOk(tx'.halves, io, home, resolved, abandoned)
            && CrossOk(tx'.halves, led', admit[id := Registered(!live, false)], HandOver(handed, id), past', p.orphan)
            && Within(p, past', HandOver(handed, id))
  {
    hide SendOk, TokOk, CrossOk;
    var l := Born(At(wire, id), birth, from);
    CrossAdmit(tx.halves, led, admit, handed, past, p.orphan, id, l, live, bidi);
    BornKeeps(tx, led, p, wire, id, birth, from);
    TokBorn(tx.halves, io, home, resolved, abandoned, id);
  }

  /** The record once a waiting stream was torn down, with `n` stops answered for it so far. */
  function Torn(e: Early, id: Id, n: nat): Early {
    e.(seen := e.seen - {id}, from := e.from[id := n])
  }

  /** A stream torn down before hand-over takes its stop code with it. */
  lemma EarlyTornDown(a: Admission, e: Early, handed: Handed, hand: set<Id>, isServer: bool, peer: PeerStream, n: nat)
    requires EarlyOk(a, e, handed, hand) && Owned(a, e, handed, isServer, peer)
    ensures EarlyOk(a, Torn(e, peer.id, n), handed, hand - {peer.id})
  {
  }

  function PutPending(a: Admission, peer: PeerStream): Admission {
    if IsBidi(peer.id) then a.(pending := a.pending[peer.id := peer], pendBidi := a.pendBidi + [peer.id])
    else a.(pending := a.pending[peer.id := peer], pendUni := a.pendUni + [peer.id])
  }

  function PutParked(a: Admission, peer: PeerStream): Admission {
    if IsBidi(peer.id) then a.(admit := a.admit[peer.id := Parked(peer)], parkBidi := a.parkBidi + [peer.id])
    else a.(admit := a.admit[peer.id := Parked(peer)], parkUni := a.parkUni + [peer.id])
  }

  /** A failed promotion goes back to the head of its class. */
  function PutBack(a: Admission, peer: PeerStream): Admission {
    if IsBidi(peer.id) then a.(admit := a.admit[peer.id := Parked(peer)], parkBidi := [peer.id] + a.parkBidi)
    else a.(admit := a.admit[peer.id := Parked(peer)], parkUni := [peer.id] + a.parkUni)
  }

  /** Take the head of a pending class queue. */
  function TakePending(a: Admission, bidi: bool): Admission
    requires if bidi then a.pendBidi != [] else a.pendUni != []
  {
    if bidi then a.(pending := a.pending - {a.pendBidi[0]}, pendBidi := a.pendBidi[1..])
    else a.(pending := a.pending - {a.pendUni[0]}, pendUni := a.pendUni[1..])
  }

  function TakeParked(a: Admission, bidi: bool): Admission
    requires if bidi then a.parkBidi != [] else a.parkUni != []
  {
    if bidi then a.(admit := a.admit - {a.parkBidi[0]}, parkBidi := a.parkBidi[1..])
    else a.(admit := a.admit - {a.parkUni[0]}, parkUni := a.parkUni[1..])
  }

  function ParkQueue(a: Admission, bidi: bool): seq<Id> {
    if bidi then a.parkBidi else a.parkUni
  }

  lemma AdmitPend(a: Admission, live: set<Id>, handed: Handed, isServer: bool, peer: PeerStream)
    requires AdmitOk(a, live, handed, isServer)
    requires peer.id !in a.pending && peer.id !in a.admit && !handed.Has(peer.id) && !IsLocal(peer.id, isServer)
    ensures AdmitOk(PutPending(a, peer), live, handed, isServer)
  {
    hide IsBidi, IsLocal;
  }

  lemma AdmitPark(a: Admission, live: set<Id>, handed: Handed, isServer: bool, peer: PeerStream)
    requires AdmitOk(a, live, handed, isServer)
    requires peer.id !in a.pending && peer.id !in a.admit && !handed.Has(peer.id) && !IsLocal(peer.id, isServer)
    ensures AdmitOk(PutParked(a, peer), live, handed, isServer)
  {
    hide IsBidi, IsLocal, NoDup;
    NoDupEnds(if IsBidi(peer.id) then a.parkBidi else a.parkUni, peer.id);
  }

  lemma AdmitPutBack(a: Admission, live: set<Id>, handed: Handed, isServer: bool, peer: PeerStream)
    requires AdmitOk(a, live, handed, isServer)
    requires peer.id !in a.pending && peer.id !in a.admit && !handed.Has(peer.id) && !IsLocal(peer.id, isServer)
    ensures AdmitOk(PutBack(a, peer), live, handed, isServer)
  {
    hide IsBidi, IsLocal, NoDup;
    NoDupEnds(if IsBidi(peer.id) then a.parkBidi else a.parkUni, peer.id);
  }

  /** The same seen code, merged first-writer-wins into a stream that waits for admission. */
  function MergeStop(a: Admission, id: Id, end: Option<SendEnd>): Admission {
    if id in a.pending then
      if a.pending[id].sendEnd.None? then a.(pending := a.pending[id := a.pending[id].(sendEnd := end)]) else a
    else if id in a.admit && a.admit[id].Parked? then
      if a.admit[id].peer.sendEnd.None?
      then a.(admit := a.admit[id := Parked(a.admit[id].peer.(sendEnd := end))]) else a
    else a
  }

  /** The stop code a capacity probe reports, if any. */
  function StopOf(capacity: Result<nat, QuicError>): Option<SendEnd> {
    if capacity.Err? && capacity.error.StreamStopped? then Some(Stopped(capacity.error.code)) else None
  }

  /** A discovered stream that is not handed over yet. */
  predicate Waiting(a: Admission, id: Id) {
    id in a.pending || (id in a.admit && a.admit[id].Parked?)
  }

  /** The stop code a waiting stream owns. */
  function OwnedEnd(a: Admission, id: Id): Option<SendEnd>
    requires Waiting(a, id)
  {
    if id in a.pending then a.pending[id].sendEnd else a.admit[id].peer.sendEnd
  }

  lemma StillWaiting(a: Admission, id: Id, x: Id, end: Option<SendEnd>, peer: PeerStream)
    requires Waiting(a, x)
    ensures Waiting(a.(admit := SendDoneIn(a.admit, id)), x) && Waiting(MergeStop(a, id, end), x)
    ensures Waiting(PutPending(a, peer), x)
  {
    hide AllTerminal, IsBidi;
  }

  function See(e: Early, id: Id, end: Option<SendEnd>): Early {
    if id !in e.seen && end.Some? && end.value.Stopped? then e.(seen := e.seen[id := end.value.code]) else e
  }

  lemma AdmitMerge(a: Admission, live: set<Id>, handed: Handed, isServer: bool, id: Id, end: Option<SendEnd>)
    requires AdmitOk(a, live, handed, isServer)
    ensures AdmitOk(MergeStop(a, id, end), live, handed, isServer)
  {
    hide NoDup, IsBidi, IsLocal;
  }

  lemma EarlyMerge(a: Admission, e: Early, handed: Handed, hand: set<Id>, id: Id, end: Option<SendEnd>)
    requires EarlyOk(a, e, handed, hand) && id !in handed.send
    requires id in a.pending || (id in a.admit && a.admit[id].Parked?)
    requires id in a.pending ==> id !in a.admit
    requires end.Some? ==> end.value.Stopped? && IsBidi(id)
    ensures EarlyOk(MergeStop(a, id, end), See(e, id, end), handed, hand)
  {
  }

  lemma EarlySee(a: Admission, e: Early, handed: Handed, hand: set<Id>, id: Id, end: Option<SendEnd>)
    requires EarlyOk(a, e, handed, hand) && id !in handed.send && id !in a.pending && id !in a.admit && id !in hand
    requires end.Some? ==> end.value.Stopped? && IsBidi(id)
    ensures EarlyOk(a, See(e, id, end), handed, hand + {id}) && id !in e.seen
    ensures SeenEnd(See(e, id, end).seen, id) == end
  {
    hide IsBidi;
  }

  lemma NoDupEnds(q: seq<Id>, id: Id)
    requires NoDup(q) && id !in q
    ensures NoDup([id] + q) && NoDup(q + [id])
  {
  }

  lemma NoDupTail(q: seq<Id>)
    requires NoDup(q) && q != []
    ensures NoDup(q[1..]) && q[0] !in q[1..] && forall x :: x in q <==> x == q[0] || x in q[1..]
  {
    assert q == [q[0]] + q[1..];
  }

  lemma {:induction false} NoDupOnce(q: seq<Id>, id: Id)
    requires NoDup(q)
    ensures multiset(q)[id] == if id in q then 1 else 0
  {
    if q != [] {
      NoDupTail(q);
      assert q == [q[0]] + q[1..];
      NoDupOnce(q[1..], id);
    }
  }

  /** How often an id waits in a class queue, or is registered. */
  function Places(a: Admission, id: Id): nat {
    multiset(a.pendBidi + a.pendUni)[id] + multiset(a.parkBidi + a.parkUni)[id]
    + if id in a.admit && a.admit[id].Registered? then 1 else 0
  }

  /**
   * The admission partition: every observed peer id is in exactly one place, once, in the queue of its own class,
   * and every other id in none. A registered id has its receive half exactly until `recvDone`, and never has every
   * direction done.
   */
  lemma AdmissionPartition(a: Admission, live: set<Id>, handed: Handed, isServer: bool, id: Id)
    requires AdmitOk(a, live, handed, isServer)
    ensures Places(a, id) == if id in a.pending || id in a.admit then 1 else 0
    ensures id in a.pending ==> id in (if IsBidi(id) then a.pendBidi else a.pendUni)
    ensures id in a.admit && a.admit[id].Parked? ==> id in (if IsBidi(id) then a.parkBidi else a.parkUni)
    ensures id in a.admit && a.admit[id].Registered? ==>
              (a.admit[id].recvDone <==> id !in live) && !AllTerminal(a.admit, id)
  {
    hide IsBidi, IsLocal, NoDup;
    NoDupOnce(a.pendBidi, id);
    NoDupOnce(a.pendUni, id);
    NoDupOnce(a.parkBidi, id);
    NoDupOnce(a.parkUni, id);
  }

  /** Popping a pending class queue always yields an owned stream: the defensive branches are dead. */
  lemma AdmitTakePending(a: Admission, live: set<Id>, handed: Handed, isServer: bool, bidi: bool)
    requires AdmitOk(a, live, handed, isServer) && (if bidi then a.pendBidi != [] else a.pendUni != [])
    ensures var id := if bidi then a.pendBidi[0] else a.pendUni[0];
            && id in a.pending && a.pending[id].id == id && IsBidi(id) == bidi
            && id !in a.admit && id !in live && !handed.Has(id) && !IsLocal(id, isServer)
            && AdmitOk(TakePending(a, bidi), live, handed, isServer)
  {
    hide IsBidi, IsLocal, NoDup;
    NoDupTail(if bidi then a.pendBidi else a.pendUni);
  }

  lemma AdmitTakeParked(a: Admission, live: set<Id>, handed: Handed, isServer: bool, bidi: bool)
    requires AdmitOk(a, live, handed, isServer) && (if bidi then a.parkBidi != [] else a.parkUni != [])
    ensures var id := if bidi then a.parkBidi[0] else a.parkUni[0];
            && id in a.admit && a.admit[id].Parked? && a.admit[id].peer.id == id && IsBidi(id) == bidi
            && id !in a.pending && id !in live && !handed.Has(id) && !IsLocal(id, isServer)
            && AdmitOk(TakeParked(a, bidi), live, handed, isServer)
  {
    hide IsBidi, IsLocal, NoDup;
    NoDupTail(if bidi then a.parkBidi else a.parkUni);
  }

  lemma EarlyTake(a: Admission, e: Early, handed: Handed, hand: set<Id>, bidi: bool)
    requires EarlyOk(a, e, handed, hand)
    ensures (if bidi then a.pendBidi != [] else a.pendUni != []) ==>
              EarlyOk(TakePending(a, bidi), e, handed, hand + {if bidi then a.pendBidi[0] else a.pendUni[0]})
    ensures (if bidi then a.parkBidi != [] else a.parkUni != []) ==>
              EarlyOk(TakeParked(a, bidi), e, handed, hand + {if bidi then a.parkBidi[0] else a.parkUni[0]})
  {
  }

  lemma EarlyPut(a: Admission, e: Early, handed: Handed, hand: set<Id>, peer: PeerStream)
    requires EarlyOk(a, e, handed, hand) && peer.sendEnd == SeenEnd(e.seen, peer.id)
    ensures EarlyOk(PutPending(a, peer), e, handed, hand - {peer.id})
    ensures EarlyOk(PutParked(a, peer), e, handed, hand - {peer.id})
    ensures EarlyOk(PutBack(a, peer), e, handed, hand - {peer.id})
  {
    hide IsBidi;
  }

  lemma PendingOwned(a: Admission, e: Early, handed: Handed, hand: set<Id>)
    requires EarlyOk(a, e, handed, hand)
    ensures forall id | id in a.pending :: a.pending[id].sendEnd == SeenEnd(e.seen, id)
  {
  }

  lemma ParkedOwned(a: Admission, e: Early, handed: Handed, hand: set<Id>)
    requires EarlyOk(a, e, handed, hand)
    ensures forall id | id in a.admit && a.admit[id].Parked? :: a.admit[id].peer.sendEnd == SeenEnd(e.seen, id)
  {
  }

  lemma CrossParked(halves: map<Id, SendHalf>, led: map<Id, Ledger>, admit: map<Id, AdmitState>, handed: Handed,
                    past: Past, orphan: set<Id>, peer: PeerStream)
    requires CrossOk(halves, led, admit, handed, past, orphan) && peer.id !in admit
    ensures CrossOk(halves, led, admit[peer.id := Parked(peer)], handed, past, orphan)
  {
  }

  lemma CrossUnpark(halves: map<Id, SendHalf>, led: map<Id, Ledger>, admit: map<Id, AdmitState>, handed: Handed,
                    past: Past, orphan: set<Id>, id: Id)
    requires CrossOk(halves, led, admit, handed, past, orphan)
    ensures CrossOk(halves, led, admit - {id}, handed, past, orphan)
  {
  }

  lemma RunIsExact(tx: SendSide, led: map<Id, Ledger>, p: Parking, wire: map<Id, Wire>)
    requires SendOk(tx, led, p, wire, {})
    ensures tx.run == [] <==> tx.runSet == {}
  {
    if tx.run != [] { assert tx.run[0] in tx.runSet; }
  }

  lemma SendMark(tx: SendSide, led: map<Id, Ledger>, p: Parking, wire: map<Id, Wire>, id: Id)
    requires SendOk(tx, led, p, wire, {})
    ensures SendOk(PushRun(tx, id), led, p, wire, {})
    ensures PushRun(tx, id).halves == tx.halves && PushRun(tx, id).runSet == tx.runSet + {id}
  {
    hide HalfOk, QueueOk;
    assert SendOk(tx, led, p, wire, {} + {id});
    SendPushRun(tx, led, p, wire, {}, id);
  }

  // ----- writable discovery -----

  /** A surfaced half is no longer armed: it must be served, unless nothing is left to serve. */
  lemma SendServed(tx: SendSide, led: map<Id, Ledger>, p: Parking, wire: map<Id, Wire>, exc: set<Id>, id: Id)
    requires SendOk(tx, led, p, wire, exc) && exc <= {id}
    ensures SendOk(tx, led, p, wire, {id}) && SendOk(tx, led, p, wire, {} + {id})
  {
    hide HalfOk, QueueOk, Waits;
  }

  lemma SendDisarm(tx: SendSide, led: map<Id, Ledger>, p: Parking, wire: map<Id, Wire>, id: Id)
    requires SendOk(tx, led, p, wire, {})
    ensures var p' := p.(armed := p.armed - {id});
            && SendOk(tx, led, p', wire, {id})
            && (id !in tx.halves || tx.halves[id].terminal.Some? || tx.halves[id].ops == [] ==>
                  SendOk(tx, led, p', wire, {}))
  {
    hide HalfOk, QueueOk;
  }

  lemma CrossMerge(halves: map<Id, SendHalf>, led: map<Id, Ledger>, a: Admission, handed: Handed, past: Past,
                   orphan: set<Id>, id: Id, end: Option<SendEnd>)
    requires CrossOk(halves, led, a.admit, handed, past, orphan)
    ensures CrossOk(halves, led, MergeStop(a, id, end).admit, handed, past, orphan)
  {
  }

  lemma WaitingIsUnhanded(a: Admission, live: set<Id>, handed: Handed, isServer: bool, id: Id)
    requires AdmitOk(a, live, handed, isServer)
    requires id in a.pending || (id in a.admit && a.admit[id].Parked?)
    ensures !handed.Has(id) && (id in a.pending ==> id !in a.admit)
  {
  }

  // ----- commands -----

  /** What is still queued respects the front end's promises. */
  ghost predicate CmdsOk(io: Ingress, handed: Handed, past: Past) {
    CmdsWf(io.inbox + io.cmdRx, handed.send, handed.recv, past.ended) && past.ended <= handed.send
  }

  lemma CmdsGrow(io: Ingress, handed: Handed, past: Past, handed': Handed, past': Past)
    requires CmdsOk(io, handed, past) && handed.send <= handed'.send && handed.recv <= handed'.recv
    requires past'.ended == past.ended
    ensures CmdsOk(io, handed', past')
  {
  }

  lemma CmdsSame(io: Ingress, io': Ingress, handed: Handed, past: Past)
    requires CmdsOk(io, handed, past) && io'.inbox == io.inbox && io'.cmdRx == io.cmdRx
    ensures CmdsOk(io', handed, past)
  {
  }

  /** `c` was taken off the FIFO and not applied yet: its token is in nobody's keeping. */
  predicate InHand(c: Command, io: Ingress, home: map<Token, Place>, resolved: map<Token, Outcome>,
                   abandoned: set<Token>) {
    CmdTok(c).Some? ==>
      var tok := CmdTok(c).value;
      && tok !in home && tok !in resolved && tok !in abandoned && tok < io.nextTok
      && (tok in io.opens <==> IsOpen(c))
  }

  /** The ids ended once `c` is applied. */
  function EndedBy(c: Command, ended: set<Id>): set<Id> {
    if EndsSend(c) then ended + {c.id} else ended
  }

  function TokSet(c: Command): set<Token> {
    if CmdTok(c).Some? then {CmdTok(c).value} else {}
  }

  /** Take the oldest command: from the inbox first, then from the channel. */
  function PoppedIo(io: Ingress): Ingress
    requires io.inbox + io.cmdRx != []
  {
    if io.inbox != [] then io.(inbox := io.inbox[1..]) else io.(cmdRx := io.cmdRx[1..])
  }

  lemma PopKeepsOrder(io: Ingress)
    requires io.inbox + io.cmdRx != []
    ensures var c := if io.inbox != [] then io.inbox[0] else io.cmdRx[0];
            && (io.inbox + io.cmdRx)[0] == c
            && PoppedIo(io).inbox + PoppedIo(io).cmdRx == (io.inbox + io.cmdRx)[1..]
  {
    if io.inbox == [] { assert io.inbox + io.cmdRx == io.cmdRx; }
  }

  lemma TokApart(halves: map<Id, SendHalf>, io: Ingress, home: map<Token, Place>, c: Command)
    requires SendToks(halves, home) && OpenToks(io.openBidi, InOpenBidi, home) && OpenToks(io.openUni, InOpenUni, home)
    requires CmdToks(io.inbox + io.cmdRx, home) && c in io.inbox + io.cmdRx
    ensures var home' := home - TokSet(c);
            && SendToks(halves, home') && OpenToks(io.openBidi, InOpenBidi, home')
            && OpenToks(io.openUni, InOpenUni, home')
  {
    hide NoDup, Toks, CmdTok;
  }

  lemma KindsPop(io: Ingress, home: map<Token, Place>, abandoned: set<Token>)
    requires Kinds(io, home, abandoned) && io.inbox + io.cmdRx != []
    ensures var c := (io.inbox + io.cmdRx)[0];
            && Kinds(PoppedIo(io), home - TokSet(c), abandoned)
            && (CmdTok(c).Some? ==> (CmdTok(c).value in io.opens <==> IsOpen(c)))
            && PoppedIo(io) == io.(inbox := PoppedIo(io).inbox, cmdRx := PoppedIo(io).cmdRx)
  {
    PopKeepsOrder(io);
    hide CmdTok, IsOpen;
    forall c | c in PoppedIo(io).inbox + PoppedIo(io).cmdRx
      ensures c in io.inbox + io.cmdRx
    {
    }
  }

  lemma TokPopCmd(halves: map<Id, SendHalf>, io: Ingress, home: map<Token, Place>, resolved: map<Token, Outcome>,
                  abandoned: set<Token>)
    requires TokOk(halves, io, home, resolved, abandoned) && io.inbox + io.cmdRx != []
    ensures var c := (io.inbox + io.cmdRx)[0];
            && TokOk(halves, PoppedIo(io), home - TokSet(c), resolved, abandoned)
            && InHand(c, io, home - TokSet(c), resolved, abandoned) && TokSet(c) <= home.Keys
  {
    PopKeepsOrder(io);
    CmdToksPop(io.inbox + io.cmdRx, home);
    KindsPop(io, home, abandoned);
    TokApart(halves, io, home, (io.inbox + io.cmdRx)[0]);
    hide CmdToks, CmdTok, Kinds, PoppedIo, SendToks, OpenToks;
    var c := (io.inbox + io.cmdRx)[0];
    if CmdTok(c).None? { assert home - TokSet(c) == home; }
  }

  lemma CmdsPop(io: Ingress, handed: Handed, past: Past)
    requires CmdsOk(io, handed, past) && io.inbox + io.cmdRx != []
    ensures var c := (io.inbox + io.cmdRx)[0];
            && CmdsOk(PoppedIo(io), handed, past.(ended := EndedBy(c, past.ended)))
            && (SendTarget(c).Some? ==> SendTarget(c).value in handed.send && SendTarget(c).value !in past.ended)
            && (c.StopSending? ==> c.id in handed.recv)
  {
    PopKeepsOrder(io);
    CmdsWfPop(io.inbox + io.cmdRx, handed.send, handed.recv, past.ended);
  }

  /** A token that is nowhere can be staged as an open without touching the other places. */
  lemma OtherToks(halves: map<Id, SendHalf>, io: Ingress, home: map<Token, Place>, bidi: bool, tok: Token)
    requires SendToks(halves, home) && CmdToks(io.inbox + io.cmdRx, home)
    requires OpenToks(OpenQueue(io, !bidi), OpenPlace(!bidi), home) && tok !in home
    ensures var home' := home[tok := OpenPlace(bidi)];
            && SendToks(halves, home') && CmdToks(io.inbox + io.cmdRx, home')
            && OpenToks(OpenQueue(io, !bidi), OpenPlace(!bidi), home')
  {
    hide NoDup, Toks, CmdTok;
  }

  /** A popped open request moves to its staging queue. */
  lemma TokStageOpen(halves: map<Id, SendHalf>, io: Ingress, home: map<Token, Place>, resolved: map<Token, Outcome>,
                     abandoned: set<Token>, bidi: bool, tok: Token)
    requires TokOk(halves, io, home, resolved, abandoned)
    requires tok !in home && tok !in resolved && tok !in abandoned && tok < io.nextTok && tok in io.opens
    ensures TokOk(halves, SetOpen(io, bidi, OpenQueue(io, bidi) + [tok]), home[tok := OpenPlace(bidi)], resolved,
                  abandoned)
  {
    OpenToksPush(OpenQueue(io, bidi), OpenPlace(bidi), home, tok);
    OtherToks(halves, io, home, bidi, tok);
    hide SendToks, CmdToks, OpenToks, CmdTok;
  }

  function NextTok(io: Ingress, c: Command): Token {
    if CmdTok(c).Some? then io.nextTok + 1 else io.nextTok
  }

  /** The ingress once `c` is in the channel; a new open reply is remembered as one. */
  function Enqueued(io: Ingress, c: Command): Ingress {
    io.(cmdRx := io.cmdRx + [c], nextTok := NextTok(io, c),
    opens := if IsOpen(c) then io.opens + TokSet(c) else io.opens)
  }

  /** Every completion channel ever created is still held somewhere, resolved, or given up by its poller. */
  ghost predicate AllKnown(n: Token, known: set<Token>) {
    forall tok: Token | tok < n :: tok in known
  }

  lemma KnownSubmit(io: Ingress, known: set<Token>, c: Command)
    requires AllKnown(io.nextTok, known) && (CmdTok(c).Some? ==> CmdTok(c).value == io.nextTok)
    ensures AllKnown(NextTok(io, c), known + TokSet(c))
  {
  }

  lemma KindsSubmit(io: Ingress, home: map<Token, Place>, abandoned: set<Token>, c: Command)
    requires Kinds(io, home, abandoned) && (CmdTok(c).Some? ==> CmdTok(c).value == io.nextTok)
    requires forall tok | tok in home :: tok < io.nextTok
    requires forall d | d in io.inbox + io.cmdRx && CmdTok(d).Some? :: CmdTok(d).value < io.nextTok
    ensures var home' := if CmdTok(c).Some? then home[CmdTok(c).value := InCmd] else home;
            Kinds(Enqueued(io, c), home', abandoned)
  {
    hide CmdTok;
    assert io.inbox + (io.cmdRx + [c]) == io.inbox + io.cmdRx + [c];
  }

  lemma SendToksApart(halves: map<Id, SendHalf>, home: map<Token, Place>, tok: Token)
    requires SendToks(halves, home) && tok !in home
    ensures SendToks(halves, home[tok := InCmd])
  {
  }

  lemma OpenToksApart(q: seq<Token>, place: Place, home: map<Token, Place>, tok: Token)
    requires OpenToks(q, place, home) && tok !in home && !place.InCmd?
    ensures OpenToks(q, place, home[tok := InCmd])
  {
  }

  /** A submitted command's token is new. */
  lemma TokSubmit(halves: map<Id, SendHalf>, io: Ingress, home: map<Token, Place>, resolved: map<Token, Outcome>,
                  abandoned: set<Token>, c: Command)
    requires TokOk(halves, io, home, resolved, abandoned)
    requires CmdTok(c).Some? ==> CmdTok(c).value == io.nextTok
    ensures var io' := Enqueued(io, c);
            var home' := if CmdTok(c).Some? then home[CmdTok(c).value := InCmd] else home;
            TokOk(halves, io', home', resolved, abandoned)
  {
    CmdToksPush(io.inbox + io.cmdRx, home, c);
    assert io.inbox + (io.cmdRx + [c]) == io.inbox + io.cmdRx + [c];
    KindsSubmit(io, home, abandoned, c);
    SendToksApart(halves, home, io.nextTok);
    OpenToksApart(io.openBidi, InOpenBidi, home, io.nextTok);
    OpenToksApart(io.openUni, InOpenUni, home, io.nextTok);
    hide CmdToks, CmdTok, SendToks, OpenToks, Kinds;
  }

  /** The shutdown calls that drop a peer stream before hand-over: read side, and write side if bidirectional. */
  function PeerShutdown(id: Id): seq<Shutdown> {
    [Shutdown(id, ReadSide, H3_NO_ERROR)] + if IsBidi(id) then [Shutdown(id, WriteSide, H3_NO_ERROR)] else []
  }

  function PeerShutdowns(ids: seq<Id>): seq<Shutdown> {
    if ids == [] then [] else PeerShutdown(ids[0]) + PeerShutdowns(ids[1..])
  }

  lemma PeerShutdownsHead(done: seq<Shutdown>, q: seq<Id>)
    requires q != []
    ensures done + PeerShutdown(q[0]) + PeerShutdowns(q[1..]) == done + PeerShutdowns(q)
  {
    hide PeerShutdown;
  }

  lemma PeerShutdownsNone(done: seq<Shutdown>)
    ensures done + PeerShutdowns([]) == done
  {
  }

  lemma {:induction false} PeerShutdownsAppend(a: seq<Id>, b: seq<Id>)
    ensures PeerShutdowns(a + b) == PeerShutdowns(a) + PeerShutdowns(b)
  {
    hide PeerShutdown;
    if a == [] {
      assert a + b == b;
    } else {
      assert (a + b)[1..] == a[1..] + b;
      PeerShutdownsAppend(a[1..], b);
    }
  }

  // ----- locally opened streams -----

  function LocalHanded(handed: Handed, id: Id, bidi: bool): Handed {
    Handed(handed.send + {id}, if bidi then handed.recv + {id} else handed.recv)
  }

  /** The next id of a class is local, of that class, and was never handed out. */
  lemma FreshLocal(nextBidi: Id, nextUni: Id, handed: Handed, isServer: bool, bidi: bool)
    requires IdsOk(nextBidi, nextUni, handed, isServer)
    ensures var id := if bidi then nextBidi else nextUni;
            IsLocal(id, isServer) && IsBidi(id) == bidi && !handed.Has(id)
  {
  }

  /** Advancing by four after a grant below the limit cannot wrap a 64-bit counter, and keeps every id fresh. */
  lemma IdsAdvance(nextBidi: Id, nextUni: Id, handed: Handed, isServer: bool, bidi: bool)
    requires IdsOk(nextBidi, nextUni, handed, isServer) && (if bidi then nextBidi else nextUni) < ID_LIMIT
    ensures var id := if bidi then nextBidi else nextUni;
            && Advance(id) == id + 4
            && IdsOk(if bidi then Advance(id) else nextBidi, if bidi then nextUni else Advance(id),
                     LocalHanded(handed, id, bidi), isServer)
  {
    FreshLocal(nextBidi, nextUni, handed, isServer, bidi);
    hide IsLocal, IsBidi;
  }

  /** 64-bit wrapping addition of four. */
  function Advance(id: Id): Id {
    (id + 4) % 0x1_0000_0000_0000_0000
  }

  lemma AdmitLocal(a: Admission, live: set<Id>, handed: Handed, isServer: bool, id: Id, bidi: bool)
    requires AdmitOk(a, live, handed, isServer) && IsLocal(id, isServer)
    ensures id !in a.pending && id !in a.admit
    ensures AdmitOk(a, live, LocalHanded(handed, id, bidi), isServer)
    ensures bidi ==> AdmitOk(a, live + {id}, LocalHanded(handed, id, bidi), isServer)
  {
    hide NoDup, IsBidi, IsLocal;
  }

  lemma RecvLocal(rx: RecvSide, sealed: map<Id, RecvHalf>, idle: Idle, handed: Handed, taken: map<Id, seq<Byte>>,
                  id: Id, bidi: bool)
    requires RecvOk(rx, sealed, idle, handed, taken, {}) && !handed.Has(id)
    ensures RecvOk(rx, sealed, idle, LocalHanded(handed, id, bidi), taken, {}) && id !in rx.halves
    ensures bidi ==>
              RecvOk(rx.(halves := rx.halves[id := RecvHalf([], None)]), sealed, idle.(dry := idle.dry + {id}),
                     LocalHanded(handed, id, bidi), taken, {})
  {
    hide QueueOk;
  }

  lemma EarlyLocal(a: Admission, e: Early, handed: Handed, hand: set<Id>, id: Id, bidi: bool)
    requires EarlyOk(a, e, handed, hand)
    ensures EarlyOk(a, e, LocalHanded(handed, id, bidi), hand)
  {
  }

  lemma DirLocal(shutdowns: seq<Shutdown>, handed: Handed, isServer: bool, id: Id, bidi: bool)
    requires DirOk(shutdowns, handed, isServer) && IsLocal(id, isServer) && (bidi ==> IsBidi(id))
    ensures DirOk(shutdowns, LocalHanded(handed, id, bidi), isServer)
  {
    hide IsBidi, IsLocal;
  }

  lemma CrossLocal(halves: map<Id, SendHalf>, led: map<Id, Ledger>, admit: map<Id, AdmitState>, handed: Handed,
                   past: Past, orphan: set<Id>, id: Id, bidi: bool, l: Ledger)
    requires CrossOk(halves, led, admit, handed, past, orphan) && !handed.Has(id) && id !in admit && !l.finSubmitted
    ensures id !in halves && CrossOk(halves, led, admit, LocalHanded(handed, id, bidi), past, orphan)
    ensures CrossOk(halves[id := FRESH], led[id := l], admit, LocalHanded(handed, id, bidi), past, orphan)
  {
  }

  function OpenRx(rx: RecvSide, id: Id, bidi: bool): RecvSide {
    if bidi then rx.(halves := rx.halves[id := RecvHalf([], None)]) else rx
  }

  function OpenIdle(idle: Idle, id: Id, bidi: bool): Idle {
    if bidi then idle.(dry := idle.dry + {id}) else idle
  }

  /** A granted local open, seen from admission, the receive side, ids and directions. */
  lemma RecvOpen(a: Admission, rx: RecvSide, sealed: map<Id, RecvHalf>, idle: Idle, e: Early, handed: Handed,
                 hand: set<Id>, taken: map<Id, seq<Byte>>, shutdowns: seq<Shutdown>, nextBidi: Id, nextUni: Id,
                 isServer: bool, bidi: bool)
    requires AdmitOk(a, rx.halves.Keys, handed, isServer) && RecvOk(rx, sealed, idle, handed, taken, {})
    requires EarlyOk(a, e, handed, hand) && DirOk(shutdowns, handed, isServer)
    requires IdsOk(nextBidi, nextUni, handed, isServer)
    requires (if bidi then nextBidi else nextUni) < ID_LIMIT
    ensures var id := if bidi then nextBidi else nextUni;
            var rx', handed' := OpenRx(rx, id, bidi), LocalHanded(handed, id, bidi);
            && !handed.Has(id) && IsLocal(id, isServer) && IsBidi(id) == bidi && id !in a.admit && id !in rx.halves
            && Advance(id) == id + 4
            && AdmitOk(a, rx'.halves.Keys, handed', isServer)
            && RecvOk(rx', sealed, OpenIdle(idle, id, bidi), handed', taken, {})
            && EarlyOk(a, e, handed', hand) && DirOk(shutdowns, handed', isServer)
            && IdsOk(if bidi then Advance(id) else nextBidi, if bidi then nextUni else Advance(id), handed', isServer)
  {
    hide AdmitOk, RecvOk, EarlyOk, DirOk, IdsOk, IsBidi, IsLocal, Advance, LocalHanded;
    var id := if bidi then nextBidi else nextUni;
    FreshLocal(nextBidi, nextUni, handed, isServer, bidi);
    IdsAdvance(nextBidi, nextUni, handed, isServer, bidi);
    AdmitLocal(a, rx.halves.Keys, handed, isServer, id, bidi);
    RecvLocal(rx, sealed, idle, handed, taken, id, bidi);
    EarlyLocal(a, e, handed, hand, id, bidi);
    DirLocal(shutdowns, handed, isServer, id, bidi);
    assert bidi ==> OpenRx(rx, id, bidi).halves.Keys == rx.halves.Keys + {id};
  }

  /** The same, seen from the send side. */
  lemma SendOpen(tx: SendSide, led: map<Id, Ledger>, p: Parking, wire: map<Id, Wire>, io: Ingress,
                 home: map<Token, Place>, resolved: map<Token, Outcome>, abandoned: set<Token>,
                 admit: map<Id, AdmitState>, handed: Handed, past: Past, id: Id, bidi: bool, birth: nat, from: nat)
    requires SendOk(tx, led, p, wire, {}) && TokOk(tx.halves, io, home, resolved, abandoned)
    requires CrossOk(tx.halves, led, admit, handed, past, p.orphan) && !handed.Has(id) && id !in admit
    requires Within(p, past, handed)
    ensures var tx', led' := PutHalf(tx, id, FRESH), led[id := Born(At(wire, id), birth, from)];
            && id !in tx.halves && SendOk(tx', led', p, wire, {}) && TokOk(tx'.halves, io, home, resolved, abandoned)
            && CrossOk(tx'.halves, led', admit, LocalHanded(handed, id, bidi), past, p.orphan)
            && Within(p, past, LocalHanded(handed, id, bidi))
  {
    hide SendOk, TokOk, CrossOk;
    CrossLocal(tx.halves, led, admit, handed, past, p.orphan, id, bidi, Born(At(wire, id), birth, from));
    BornKeeps(tx, led, p, wire, id, birth, from);
    TokBorn(tx.halves, io, home, resolved, abandoned, id);
  }

  /** Taking a staged open out of its place leaves the other places alone. */
  lemma RestToks(halves: map<Id, SendHalf>, io: Ingress, home: map<Token, Place>, bidi: bool, tok: Token)
    requires SendToks(halves, home) && CmdToks(io.inbox + io.cmdRx, home)
    requires tok in home && home[tok] == OpenPlace(bidi)
    ensures SendToks(halves, home - {tok}) && CmdToks(io.inbox + io.cmdRx, home - {tok})
  {
    hide NoDup, Toks, CmdTok;
  }

  lemma TokPopOpen(halves: map<Id, SendHalf>, io: Ingress, home: map<Token, Place>, resolved: map<Token, Outcome>,
                   abandoned: set<Token>, bidi: bool)
    requires TokOk(halves, io, home, resolved, abandoned) && OpenQueue(io, bidi) != []
    ensures var tok := OpenQueue(io, bidi)[0];
            && tok in home && home[tok] == OpenPlace(bidi) && tok !in resolved && tok !in abandoned && tok < io.nextTok
            && tok in io.opens
            && TokOk(halves, SetOpen(io, bidi, OpenQueue(io, bidi)[1..]), home - {tok}, resolved, abandoned)
  {
    OpenToksPop(OpenQueue(io, bidi), OpenPlace(bidi), home);
    RestToks(halves, io, home, bidi, OpenQueue(io, bidi)[0]);
    hide SendToks, CmdToks, CmdTok, NoDup;
  }

  lemma TokAbandon(halves: map<Id, SendHalf>, io: Ingress, home: map<Token, Place>, resolved: map<Token, Outcome>,
                   abandoned: set<Token>, tok: Token)
    requires TokOk(halves, io, home, resolved, abandoned) && tok !in home && tok !in resolved && tok in io.opens
    ensures TokOk(halves, io, home, resolved, abandoned + {tok})
  {
    hide NoDup, Toks, CmdTok;
  }

  function OpenQueue(io: Ingress, bidi: bool): seq<Token> {
    if bidi then io.openBidi else io.openUni
  }

  function SetOpen(io: Ingress, bidi: bool, q: seq<Token>): Ingress {
    if bidi then io.(openBidi := q) else io.(openUni := q)
  }

  function OpenPlace(bidi: bool): Place {
    if bidi then InOpenBidi else InOpenUni
  }

  lemma UnbornKeeps(tx: SendSide, led: map<Id, Ledger>, p: Parking, wire: map<Id, Wire>, id: Id)
    requires SendOk(tx, led, p, wire, {}) && id in tx.halves
    ensures SendOk(tx.(halves := tx.halves - {id}), led - {id}, p, wire, {})
  {
    hide HalfOk, QueueOk;
  }

  lemma CrossUnborn(halves: map<Id, SendHalf>, led: map<Id, Ledger>, admit: map<Id, AdmitState>, handed: Handed,
                    past: Past, orphan: set<Id>, id: Id, live: set<Id>, a: Admission, isServer: bool)
    requires CrossOk(halves, led, admit, handed, past, orphan)
    requires AdmitOk(a, live, handed, isServer) && a.admit == admit && IsLocal(id, isServer)
    ensures CrossOk(halves - {id}, led - {id}, admit, handed, past, orphan)
  {
    hide NoDup, IsBidi, IsLocal;
    assert id !in admit;
  }

  lemma AdmitUnborn(a: Admission, live: set<Id>, handed: Handed, isServer: bool, id: Id)
    requires AdmitOk(a, live, handed, isServer) && IsLocal(id, isServer)
    ensures AdmitOk(a, live - {id}, handed, isServer)
  {
    hide NoDup, IsBidi, IsLocal;
  }

  lemma RecvUnborn(rx: RecvSide, sealed: map<Id, RecvHalf>, idle: Idle, handed: Handed, taken: map<Id, seq<Byte>>,
                   id: Id)
    requires RecvOk(rx, sealed, idle, handed, taken, {}) && id !in rx.readableSet
    ensures RecvOk(rx.(halves := rx.halves - {id}), sealed, idle, handed, taken, {})
  {
    hide QueueOk;
  }

  /** Nothing queued names an id that was never handed out. */
  lemma NoCommandsYet(io: Ingress, handed: Handed, past: Past, id: Id)
    requires CmdsOk(io, handed, past)
    ensures id !in handed.send ==>
              && id !in past.ended
              && forall i :: 0 <= i < |io.inbox + io.cmdRx| ==> SendTarget((io.inbox + io.cmdRx)[i]) != Some(id)
  {
  }

  lemma RecvLive(rx: RecvSide, sealed: map<Id, RecvHalf>, idle: Idle, handed: Handed, taken: map<Id, seq<Byte>>)
    requires RecvOk(rx, sealed, idle, handed, taken, {})
    ensures rx.readableSet <= rx.halves.Keys <= handed.recv && rx.halves.Keys !! sealed.Keys
  {
  }

  // ----- close -----

  /**
   * The transport is closed at most once. The call carries the first Close ever applied; only when none was,
   * the last handle is gone so that none can follow, and no other terminal existed, does it carry H3_NO_ERROR.
   */
  predicate CloseOk(c: Closing, applied: seq<CloseFrame>, closes: seq<CloseFrame>, calm: bool, io: Ingress) {
    && (c.attempted <==> closes != []) && |closes| <= 1
    && (c.attempted ==> c.pending.None?)
    && (!c.attempted ==>
          && c.pending == (if applied == [] then None else Some(applied[0]))
          && c.local.None? && c.bug.None? && !c.issued)
    && (closes != [] ==>
          if applied == [] then c.lastHandle && calm && closes[0] == NO_ERROR_CLOSE else closes[0] == applied[0])
    && (c.local.Some? ==> closes == [c.local.value])
    && (c.lastHandle ==> io.inbox == [] && io.cmdRx == [])
  }

  /** First close wins: later ones, and any after the attempt, are no-ops. */
  function Staged(c: Closing, frame: CloseFrame): Closing {
    if c.pending.None? && !c.attempted then c.(pending := Some(frame)) else c
  }

  lemma CloseStaged(c: Closing, applied: seq<CloseFrame>, closes: seq<CloseFrame>, calm: bool, io: Ingress,
                    frame: CloseFrame, io': Ingress)
    requires CloseOk(c, applied, closes, calm, io) && !c.lastHandle
    ensures CloseOk(Staged(c, frame), applied + [frame], closes, calm, io')
  {
  }

  lemma CloseFrameKept(c: Closing, applied: seq<CloseFrame>, closes: seq<CloseFrame>, calm: bool, io: Ingress,
                       io': Ingress)
    requires CloseOk(c, applied, closes, calm, io)
    requires c.lastHandle ==> io'.inbox == [] && io'.cmdRx == []
    ensures CloseOk(c, applied, closes, calm, io')
  {
  }

  /** While the connection is open, what was asked is what was applied, then what is queued. */
  predicate JournalOk(closed: bool, asked: seq<Command>, cmds: seq<Command>, queued: seq<Command>) {
    !closed ==> asked == cmds + queued
  }

  lemma JournalPopped(closed: bool, asked: seq<Command>, cmds: seq<Command>, c: Command, queued: seq<Command>)
    requires JournalOk(closed, asked, cmds, [c] + queued)
    ensures !closed ==> cmds + [c] <= asked && JournalOk(closed, asked, cmds + [c], queued)
  {
    assert cmds + ([c] + queued) == (cmds + [c]) + queued;
  }

  lemma PrefixGrows(cmds: seq<Command>, queued: seq<Command>, n: nat)
    requires 0 < n <= |queued|
    ensures cmds + queued[..n - 1] + [queued[n - 1]] == cmds + queued[..n]
  {
  }

  /** Possible causes of the connection's end, most significant first. */
  function Causes(c: Closing, peer: Option<ConnError>, timedOut: bool,
                  localErr: Option<ConnError>): seq<Option<ConnTerminal>> {
    [ if c.bug.Some? then Some(Internal(c.bug.value)) else None,
      if peer.Some? then Some(FromError(Peer, peer.value)) else None,
      if timedOut then Some(Timeout) else None,
      if c.local.Some? then Some(AppClose(Local, c.local.value.code, c.local.value.reason)) else None,
      if localErr.Some? then Some(FromError(Local, localErr.value)) else None ]
  }

  /** `terminal` is the most significant cause present. */
  predicate Decides(causes: seq<Option<ConnTerminal>>, terminal: ConnTerminal) {
    || (exists k :: 0 <= k < |causes| && causes[k] == Some(terminal) && forall i :: 0 <= i < k ==> causes[i].None?)
    || ((forall i :: 0 <= i < |causes| ==> causes[i].None?)
        && terminal == Internal("connection closed without a recorded terminal"))
  }

  /** How a token still held at connection close is resolved, by where it was. */
  predicate ClosedAs(place: Place, terminal: ConnTerminal, out: Outcome) {
    match place
    case InSend(_) => out == Failed(SendConn(terminal))
    case InCmd => out == Failed(SendConn(terminal)) || out == Declined(terminal)
    case _ => out == Declined(terminal)
  }

  lemma TokParts(halves: map<Id, SendHalf>, io: Ingress, home: map<Token, Place>, resolved: map<Token, Outcome>,
                 abandoned: set<Token>)
    requires TokOk(halves, io, home, resolved, abandoned)
    ensures SendToks(halves, home) && home.Keys !! resolved.Keys
  {
  }

  lemma CloseDrained(c: Closing, applied: seq<CloseFrame>, closes: seq<CloseFrame>, calm: bool, io: Ingress)
    requires CloseOk(c, applied, closes, calm, io) && io.inbox + io.cmdRx != []
    ensures CloseOk(c, applied, closes, calm, PoppedIo(io))
  {
  }

  /**
   * From (home, resolved) to (home', resolved'): every token that left its place was resolved with the
   * connection's terminal, the others did not move, and no earlier completion changed.
   */
  predicate Drained(home: map<Token, Place>, resolved: map<Token, Outcome>, home': map<Token, Place>,
                    resolved': map<Token, Outcome>, terminal: ConnTerminal)
  {
    && (forall tok | tok in home' :: tok in home && home'[tok] == home[tok])
    && (forall tok | tok in home && tok !in home' :: tok in resolved' && ClosedAs(home[tok], terminal, resolved'[tok]))
    && Extends(resolved, resolved')
  }

  lemma DrainedNothing(home: map<Token, Place>, resolved: map<Token, Outcome>, terminal: ConnTerminal)
    ensures Drained(home, resolved, home, resolved, terminal)
  {
  }

  lemma DrainedOn(a: map<Token, Place>, ra: map<Token, Outcome>, b: map<Token, Place>, rb: map<Token, Outcome>,
                  c: map<Token, Place>, rc: map<Token, Outcome>, terminal: ConnTerminal)
    requires Drained(a, ra, b, rb, terminal) && Drained(b, rb, c, rc, terminal)
    ensures Drained(a, ra, c, rc, terminal)
  {
  }

  lemma DrainedOps(halves: map<Id, SendHalf>, home: map<Token, Place>, resolved: map<Token, Outcome>, id: Id,
                   terminal: ConnTerminal)
    requires SendToks(halves, home) && id in halves && home.Keys !! resolved.Keys
    ensures var ops := halves[id].ops;
            Drained(home, resolved, home - Toks(ops), resolved + FailAll(ops, SendConn(terminal)), terminal)
  {
    hide DistinctToks;
  }

  /** With every queue empty no token is left unresolved. */
  lemma NothingLeft(halves: map<Id, SendHalf>, io: Ingress, home: map<Token, Place>, resolved: map<Token, Outcome>,
                    abandoned: set<Token>)
    requires TokOk(halves, io, home, resolved, abandoned)
    requires forall id | id in halves :: halves[id].ops == []
    requires io.inbox == [] && io.cmdRx == [] && io.openBidi == [] && io.openUni == []
    ensures home == map[]
  {
    assert io.inbox + io.cmdRx == [];
    forall tok
      ensures tok !in home
    {
    }
  }

  lemma CmdsForget(io: Ingress, handed: Handed, past: Past, past': Past)
    requires CmdsOk(io, handed, past') && past.ended <= past'.ended
    ensures CmdsOk(io, handed, past)
  {
  }

  /** A half at connection close: its pending reset, if any, stays queued. */
  lemma CloseKeeps(tx: SendSide, led: map<Id, Ledger>, p: Parking, wire: map<Id, Wire>, id: Id, end: SendEnd)
    requires SendOk(tx, led, p, wire, {}) && id in tx.halves && !end.LocalReset?
    ensures SendOk(PutHalf(tx, id, Terminated(tx.halves[id], end)), led, p, wire, {})
    ensures var ops := tx.halves[id].ops;
            FailAll(ops, Terminated(tx.halves[id], end).terminal.value) == FailAll(ops, end)
  {
    hide HalfOk, QueueOk, Waits, Terminated, FailAll;
    var h := tx.halves[id];
    assert HalfOk(h, led[id], At(wire, id)) && Waits(h, id, tx.runSet, p);
    TerminatedOk(h, led[id], At(wire, id), end);
    ClosedFails(h, led[id], At(wire, id), end);
    ClosedWaits(h, id, tx.runSet, p, end);
    assert SendOk(tx, led, p, wire, {} + {id});
    SendReplace(tx, led, p, wire, {}, id, Terminated(h, end), wire);
  }

  lemma ClosedFails(h: SendHalf, l: Ledger, w: Wire, end: SendEnd)
    requires HalfOk(h, l, w)
    ensures FailAll(h.ops, Terminated(h, end).terminal.value) == FailAll(h.ops, end)
  {
  }

  lemma ClosedWaits(h: SendHalf, id: Id, run: set<Id>, p: Parking, end: SendEnd)
    requires Waits(h, id, run, p)
    ensures Waits(Terminated(h, end), id, run, p)
  {
  }

  lemma LastHandleKeeps(c: Closing, applied: seq<CloseFrame>, closes: seq<CloseFrame>, calm: bool, io: Ingress)
    requires CloseOk(c, applied, closes, calm, io) && io.inbox == [] && io.cmdRx == []
    ensures CloseOk(c.(lastHandle := true), applied, closes, calm, io)
  {
  }

  // ----- the start -----

  const NO_SENDS := SendSide(map[], [], {}, [])
  const NO_RECVS := RecvSide(map[], [], {}, [], {})
  const NO_PEERS := Admission(map[], map[], [], [], [], [])
  const NO_INPUT := Ingress([], [], [], [], 0, {})
  const NOBODY := Handed({}, {})

  lemma StartSend()
    ensures SendOk(NO_SENDS, map[], Parking({}, {}, {}), map[], {})
    ensures CrossOk(NO_SENDS.halves, map[], NO_PEERS.admit, NOBODY, Past({}, {}), {})
  {
    hide HalfOk, Waits;
  }

  lemma StartTokens()
    ensures TokOk(NO_SENDS.halves, NO_INPUT, map[], map[], {}) && CmdsOk(NO_INPUT, NOBODY, Past({}, {}))
  {
    hide CmdTok, Toks, SendTarget;
  }

  lemma StartRecv(isServer: bool)
    ensures AdmitOk(NO_PEERS, NO_RECVS.halves.Keys, NOBODY, isServer)
    ensures RecvOk(NO_RECVS, map[], Idle({}, {}, {}), NOBODY, map[], {})
    ensures EarlyOk(NO_PEERS, Early(map[], map[], map[]), NOBODY, {})
  {
    hide IsBidi, IsLocal, AllTerminal;
  }

  lemma StartIds(isServer: bool, bidi: Id, uni: Id)
    requires bidi == (if isServer then 1 else 0) && uni == (if isServer then 3 else 2)
    ensures DirOk([], NOBODY, isServer) && IdsOk(bidi, uni, NOBODY, isServer)
  {
    hide IsBidi, IsLocal;
  }
}
