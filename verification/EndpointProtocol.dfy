/**
 * The endpoint's admission fence: registration, guard drop, `close`, `wait_idle` and the acceptor's loop,
 * one critical section or notification per step, in every interleaving.
 */
module EndpointProtocol {
  import opened Base

  /** The mutex-guarded registry; `alive` are the workers whose command sender can still be upgraded. */
  datatype Registry = Registry(
    conns: set<nat>,
    live: nat,
    closing: bool,
    frame: Option<CloseFrame>,
    nextId: nat,
    guards: set<nat>,
    alive: set<nat>)

  /** A `close` call past its critical section. */
  datatype Closer = Closer(frame: CloseFrame, snapshot: set<nat>, todo: set<nat>, wakesAccept: bool)

  /** A `wait_idle` call: its waiter is enabled, or it sleeps; and whether it was notified since. */
  datatype Idler = Enabled(notified: bool) | Sleeping(notified: bool) | Resolved

  /** The accept loop: top, waiter enabled, selecting with a snapshot of `closing`, re-checking, registering, ended. */
  datatype AcceptPc = Top | Armed | Selecting(closing: bool) | Rechecking(closing: bool) | Registering | Ended

  datatype Acceptor = Acceptor(pc: AcceptPc, notified: bool, handshakes: nat, incomingDone: bool, yielded: nat)

  /** One registry, shared by the acceptors of all sockets. */
  datatype State = State(
    r: Registry,
    closers: seq<Closer>,
    received: map<nat, seq<CloseFrame>>,
    notifiers: nat,
    idlers: map<nat, Idler>,
    acceptors: seq<Acceptor>)

  /** What the acceptor's select picked. */
  datatype Arm = AcceptWake | HandshakeOk | HandshakeFailed | Incoming | IncomingEnd | IncomingError

  datatype Step =
    | DropGuard(id: nat)
    | NotifyIdle
    | SenderGone(id: nat)
    | Close(frame: CloseFrame)
    | WakeAccept(i: nat)
    | Broadcast(i: nat, id: nat)
    | WaitIdle(k: nat)
    | IdlerStep(k: nat)
    | AcceptStep(j: nat, arm: Arm)

  /** A new endpoint with one acceptor per socket. */
  function Init(sockets: nat): State {
    State(Registry({}, 0, false, None, 0, {}, {}), [], map[], 0, map[],
          seq(sockets, _ => Acceptor(Top, false, 0, false, 0)))
  }

  predicate CanSelect(max: nat, a: Acceptor, arm: Arm)
    requires a.pc.Selecting?
  {
    match arm
    case AcceptWake => !a.pc.closing && a.notified
    case HandshakeOk => a.handshakes > 0
    case HandshakeFailed => a.handshakes > 0
    case _ => !a.incomingDone && !a.pc.closing && a.handshakes < max
  }

  predicate CanStep(max: nat, s: State, st: Step) {
    match st
    case DropGuard(id) => id in s.r.guards
    case NotifyIdle => s.notifiers > 0
    case SenderGone(id) => true
    case Close(_) => true
    case WakeAccept(i) => i < |s.closers| && s.closers[i].wakesAccept
    case Broadcast(i, id) => i < |s.closers| && !s.closers[i].wakesAccept && id in s.closers[i].todo
    case WaitIdle(k) => k !in s.idlers || s.idlers[k].Resolved?
    case IdlerStep(k) => k in s.idlers && (s.idlers[k].Enabled? || (s.idlers[k].Sleeping? && s.idlers[k].notified))
    case AcceptStep(j, arm) =>
      && j < |s.acceptors| && !s.acceptors[j].pc.Ended?
      && (s.acceptors[j].pc.Selecting? ==> CanSelect(max, s.acceptors[j], arm))
  }

  /** Register under the lock, unless closing. */
  function Registered(r: Registry): Registry {
    if r.closing then r
    else r.(conns := r.conns + {r.nextId}, live := r.live + 1, nextId := r.nextId + 1,
           guards := r.guards + {r.nextId}, alive := r.alive + {r.nextId})
  }

  function Deregistered(r: Registry, id: nat): Registry {
    r.(conns := r.conns - {id}, live := if r.live > 0 then r.live - 1 else 0, guards := r.guards - {id})
  }

  /** First close wins, and the recipients are fixed under the same lock. */
  function Closed(r: Registry, frame: CloseFrame): Registry {
    r.(closing := true, frame := if r.frame.None? then Some(frame) else r.frame)
  }

  function Notified(idlers: map<nat, Idler>): map<nat, Idler> {
    map k | k in idlers :: if idlers[k].Resolved? then Resolved else idlers[k].(notified := true)
  }

  function At(received: map<nat, seq<CloseFrame>>, id: nat): seq<CloseFrame> {
    if id in received then received[id] else []
  }

  /** One step of the accept loop. */
  function AcceptNext(r: Registry, a: Acceptor, arm: Arm): Acceptor {
    match a.pc
    case Top => a.(pc := Armed, notified := false)
    case Armed =>
      a.(pc := if (a.incomingDone || r.closing) && a.handshakes == 0 then Ended else Selecting(r.closing))
    case Selecting(closing) =>
      (match arm
       case HandshakeOk => a.(pc := Rechecking(closing), handshakes := if a.handshakes > 0 then a.handshakes - 1 else 0)
       case HandshakeFailed => a.(pc := Top, handshakes := if a.handshakes > 0 then a.handshakes - 1 else 0)
       case Incoming => a.(pc := Registering)
       case IncomingEnd => a.(pc := Top, incomingDone := true)
       case _ => a.(pc := Top))
    case Rechecking(closing) => a.(pc := Top, yielded := if closing || r.closing then a.yielded else a.yielded + 1)
    case Registering => a.(pc := Top, handshakes := if r.closing then a.handshakes else a.handshakes + 1)
    case Ended => a
  }

  /** `notify_waiters` reaches every acceptor whose waiter is enabled. */
  function Woken(a: Acceptor): Acceptor {
    if a.pc.Armed? || a.pc.Selecting? then a.(notified := true) else a
  }

  function IdlerNext(s: State, k: nat): State
    requires k in s.idlers
  {
    match s.idlers[k]
    case Enabled(notified) => s.(idlers := s.idlers[k := if s.r.live == 0 then Resolved else Sleeping(notified)])
    case Sleeping(_) => s.(idlers := s.idlers[k := Enabled(false)])
    case Resolved => s
  }

  function Next(max: nat, s: State, st: Step): State
    requires CanStep(max, s, st)
  {
    match st
    case DropGuard(id) =>
      var r := Deregistered(s.r, id);
      s.(r := r, notifiers := if r.live == 0 then s.notifiers + 1 else s.notifiers)
    case NotifyIdle => s.(notifiers := s.notifiers - 1, idlers := Notified(s.idlers))
    case SenderGone(id) => s.(r := s.r.(alive := s.r.alive - {id}))
    case Close(frame) =>
      var r := Closed(s.r, frame);
      s.(r := r, closers := s.closers + [Closer(r.frame.value, r.conns * r.alive, r.conns * r.alive, true)])
    case WakeAccept(i) =>
      s.(closers := s.closers[i := s.closers[i].(wakesAccept := false)],
      acceptors := seq(|s.acceptors|, j requires 0 <= j < |s.acceptors| => Woken(s.acceptors[j])))
    case Broadcast(i, id) =>
      s.(closers := s.closers[i := s.closers[i].(todo := s.closers[i].todo - {id})],
      received := s.received[id := At(s.received, id) + [s.closers[i].frame]])
    case WaitIdle(k) => s.(idlers := s.idlers[k := Enabled(false)])
    case IdlerStep(k) => IdlerNext(s, k)
    case AcceptStep(j, arm) =>
      s.(r := if s.acceptors[j].pc.Registering? then Registered(s.r) else s.r,
      acceptors := s.acceptors[j := AcceptNext(s.r, s.acceptors[j], arm)])
  }

  // ----- the registry -----

  /** `live` counts the registry, which is exactly the outstanding guards; ids are never reused. */
  predicate Counted(r: Registry) {
    && r.conns == r.guards && r.live == |r.conns|
    && (forall id | id in r.conns :: id < r.nextId)
    && (r.closing <==> r.frame.Some?)
  }

  lemma RegisterCounts(r: Registry)
    requires Counted(r)
    ensures Counted(Registered(r))
  {
  }

  lemma DeregisterCounts(r: Registry, id: nat)
    requires Counted(r) && id in r.guards
    ensures Counted(Deregistered(r, id)) && r.live > 0
  {
    assert r.conns == (r.conns - {id}) + {id};
  }

  // ----- the broadcast -----

  /** Every broadcast carries the first frame, and has reached whoever is no longer on its list. */
  ghost predicate Broadcasts(s: State) {
    && (forall i :: 0 <= i < |s.closers| ==>
          s.r.frame == Some(s.closers[i].frame) && Reached(s.received, s.closers[i]))
    && (forall id | id in s.received :: forall f | f in s.received[id] :: s.r.frame == Some(f))
  }

  ghost predicate Reached(received: map<nat, seq<CloseFrame>>, c: Closer) {
    c.todo <= c.snapshot && forall id | id in c.snapshot && id !in c.todo :: c.frame in At(received, id)
  }

  lemma CloseKeepsBroadcasts(max: nat, s: State, frame: CloseFrame)
    requires Counted(s.r) && Broadcasts(s)
    ensures Broadcasts(Next(max, s, Close(frame)))
  {
    var s' := Next(max, s, Close(frame));
    assert forall i :: 0 <= i < |s.closers| ==> s'.closers[i] == s.closers[i];
  }

  lemma SendKeepsBroadcasts(max: nat, s: State, i: nat, id: nat)
    requires Broadcasts(s) && CanStep(max, s, Broadcast(i, id))
    ensures Broadcasts(Next(max, s, Broadcast(i, id)))
  {
    var s' := Next(max, s, Broadcast(i, id));
    forall j | 0 <= j < |s.closers|
      ensures Reached(s'.received, s'.closers[j])
    {
      assert Reached(s.received, s.closers[j]);
    }
  }

  lemma WakeKeepsBroadcasts(max: nat, s: State, i: nat)
    requires Broadcasts(s) && CanStep(max, s, WakeAccept(i))
    ensures Broadcasts(Next(max, s, WakeAccept(i)))
  {
    var s' := Next(max, s, WakeAccept(i));
    forall j | 0 <= j < |s.closers|
      ensures Reached(s'.received, s'.closers[j])
    {
      assert Reached(s.received, s.closers[j]);
    }
  }

  // ----- wakeups -----

  /** A sleeping `wait_idle` at zero live workers was notified, or a guard drop is about to notify it. */
  ghost predicate IdleWakes(s: State) {
    forall k | k in s.idlers && s.idlers[k].Sleeping? && s.r.live == 0 :: s.idlers[k].notified || s.notifiers > 0
  }

  /** An acceptor that missed the close in its snapshot was notified, or a close is about to notify it. */
  predicate AcceptWakes(s: State, a: Acceptor) {
    a.pc == Selecting(false) && s.r.closing ==>
      a.notified || exists i :: 0 <= i < |s.closers| && s.closers[i].wakesAccept
  }

  predicate AcceptBounded(max: nat, r: Registry, a: Acceptor) {
    && a.handshakes <= max
    && (a.pc.Registering? ==> a.handshakes < max)
    && (a.pc.Ended? ==> a.handshakes == 0 && (a.incomingDone || r.closing))
  }

  predicate AcceptOk(max: nat, s: State) {
    forall j :: 0 <= j < |s.acceptors| ==> AcceptWakes(s, s.acceptors[j]) && AcceptBounded(max, s.r, s.acceptors[j])
  }

  lemma AcceptKeeps(max: nat, s: State, j: nat, arm: Arm)
    requires AcceptOk(max, s) && CanStep(max, s, AcceptStep(j, arm))
    ensures AcceptOk(max, Next(max, s, AcceptStep(j, arm)))
  {
    var s' := Next(max, s, AcceptStep(j, arm));
    forall k | 0 <= k < |s.acceptors|
      ensures AcceptWakes(s', s'.acceptors[k]) && AcceptBounded(max, s'.r, s'.acceptors[k])
    {
      assert AcceptWakes(s, s.acceptors[k]) && AcceptBounded(max, s.r, s.acceptors[k]);
    }
  }

  lemma OthersKeepAccept(max: nat, s: State, st: Step)
    requires AcceptOk(max, s) && CanStep(max, s, st) && !st.AcceptStep?
    ensures AcceptOk(max, Next(max, s, st))
  {
    var s' := Next(max, s, st);
    if st.Close? { assert s'.closers[|s.closers|].wakesAccept; }
    assert forall i :: 0 <= i < |s.closers| && !st.WakeAccept? ==>
             s'.closers[i].wakesAccept == s.closers[i].wakesAccept;
    forall k | 0 <= k < |s.acceptors|
      ensures AcceptWakes(s', s'.acceptors[k]) && AcceptBounded(max, s'.r, s'.acceptors[k])
    {
      assert AcceptWakes(s, s.acceptors[k]) && AcceptBounded(max, s.r, s.acceptors[k]);
    }
  }

  lemma StepKeepsIdle(max: nat, s: State, st: Step)
    requires IdleWakes(s) && CanStep(max, s, st)
    ensures IdleWakes(Next(max, s, st))
  {
  }

  // ----- every run -----

  ghost predicate Inv(max: nat, s: State) {
    Counted(s.r) && Broadcasts(s) && IdleWakes(s) && AcceptOk(max, s)
  }

  lemma StepCounts(max: nat, s: State, st: Step)
    requires Counted(s.r) && CanStep(max, s, st)
    ensures Counted(Next(max, s, st).r)
  {
    hide Registered, Deregistered;
    RegisterCounts(s.r);
    if st.DropGuard? { DeregisterCounts(s.r, st.id); }
  }

  lemma StepKeepsBroadcasts(max: nat, s: State, st: Step)
    requires Counted(s.r) && Broadcasts(s) && CanStep(max, s, st)
    ensures Broadcasts(Next(max, s, st))
  {
    match st
    case Close(frame) => CloseKeepsBroadcasts(max, s, frame);
    case Broadcast(i, id) => SendKeepsBroadcasts(max, s, i, id);
    case WakeAccept(i) => WakeKeepsBroadcasts(max, s, i);
    case _ =>
  }

  lemma NextKeepsInv(max: nat, s: State, st: Step)
    requires Inv(max, s) && CanStep(max, s, st)
    ensures Inv(max, Next(max, s, st))
  {
    StepCounts(max, s, st);
    StepKeepsBroadcasts(max, s, st);
    StepKeepsIdle(max, s, st);
    if st.AcceptStep? { AcceptKeeps(max, s, st.j, st.arm); } else { OthersKeepAccept(max, s, st); }
    hide Counted, Broadcasts, IdleWakes, AcceptOk, AcceptNext, IdlerNext;
  }

  predicate Run(max: nat, s: State, steps: seq<Step>, s': State)
    decreases |steps|
  {
    if steps == [] then s' == s
    else CanStep(max, s, steps[0]) && Run(max, Next(max, s, steps[0]), steps[1..], s')
  }

  lemma {:induction false} RunKeepsInv(max: nat, s: State, steps: seq<Step>, s': State)
    requires Inv(max, s) && Run(max, s, steps, s')
    ensures Inv(max, s')
    decreases |steps|
  {
    hide Inv, Next, CanStep;
    if steps != [] {
      NextKeepsInv(max, s, steps[0]);
      RunKeepsInv(max, Next(max, s, steps[0]), steps[1..], s');
    }
  }

  /** `live` equals the registry size and the number of outstanding guards in every reachable state. */
  lemma LiveIsExact(max: nat, sockets: nat, steps: seq<Step>, s: State)
    requires Run(max, Init(sockets), steps, s)
    ensures s.r.live == |s.r.conns| == |s.r.guards| && s.r.conns == s.r.guards
  {
    RunKeepsInv(max, Init(sockets), steps, s);
  }

  /** A `close` call keeps the frame and the recipients it fixed. */
  lemma StepKeepsCloser(max: nat, s: State, st: Step, i: nat)
    requires CanStep(max, s, st) && i < |s.closers|
    ensures var s' := Next(max, s, st);
            && i < |s'.closers| && s'.closers[i].frame == s.closers[i].frame
            && s'.closers[i].snapshot == s.closers[i].snapshot
  {
  }

  lemma {:induction false} RunKeepsCloser(max: nat, s: State, steps: seq<Step>, s': State, i: nat)
    requires Run(max, s, steps, s') && i < |s.closers|
    ensures i < |s'.closers| && s'.closers[i].frame == s.closers[i].frame
    ensures s'.closers[i].snapshot == s.closers[i].snapshot
    decreases |steps|
  {
    hide Next, CanStep;
    if steps != [] {
      StepKeepsCloser(max, s, steps[0], i);
      RunKeepsCloser(max, Next(max, s, steps[0]), steps[1..], s', i);
    }
  }

  /**
   * A close reaches every worker that was registered before it and whose sender was alive: once that call has
   * sent to all its recipients, each of them got the frame of the first close ever made, and nobody got another.
   */
  lemma CloseReachesEveryWorker(max: nat, sockets: nat, steps: seq<Step>, s: State, frame: CloseFrame, more: seq<Step>,
                                s': State)
    requires Run(max, Init(sockets), steps, s) && Run(max, Next(max, s, Close(frame)), more, s')
    ensures var first, i := if s.r.frame.Some? then s.r.frame.value else frame, |s.closers|;
            && i < |s'.closers| && s'.r.frame == Some(first)
            && (s'.closers[i].todo == {} ==> forall id | id in s.r.conns * s.r.alive :: first in At(s'.received, id))
            && (forall id | id in s'.received :: forall f | f in s'.received[id] :: f == first)
  {
    hide Next;
    var mid, i := Next(max, s, Close(frame)), |s.closers|;
    RunKeepsInv(max, Init(sockets), steps, s);
    NextKeepsInv(max, s, Close(frame));
    RunKeepsInv(max, mid, more, s');
    CloseFixes(max, s, frame);
    RunKeepsCloser(max, mid, more, s', i);
    assert Reached(s'.received, s'.closers[i]);
  }

  /** A close fixes its recipients under the lock; the frame is the first one's. */
  lemma CloseFixes(max: nat, s: State, frame: CloseFrame)
    ensures var s', i := Next(max, s, Close(frame)), |s.closers|;
            && |s'.closers| == i + 1 && s'.closers[i].snapshot == s.r.conns * s.r.alive
            && s'.closers[i].frame == if s.r.frame.Some? then s.r.frame.value else frame
  {
  }

  /** No waiter sleeps forever: at zero live workers it was notified, or a guard drop is about to. */
  lemma IdleIsNeverMissed(max: nat, sockets: nat, steps: seq<Step>, s: State, k: nat)
    requires Run(max, Init(sockets), steps, s) && k in s.idlers && s.idlers[k].Sleeping? && s.r.live == 0
    ensures s.idlers[k].notified || s.notifiers > 0
  {
    RunKeepsInv(max, Init(sockets), steps, s);
  }

  /** No acceptor misses the close; each keeps its handshake bound, and ends only when drained. */
  lemma AcceptIsSafe(max: nat, sockets: nat, steps: seq<Step>, s: State, j: nat)
    requires Run(max, Init(sockets), steps, s) && j < |s.acceptors|
    ensures s.acceptors[j].handshakes <= max
    ensures s.acceptors[j].pc.Ended? ==> s.acceptors[j].handshakes == 0 && (s.acceptors[j].incomingDone || s.r.closing)
    ensures s.acceptors[j].pc == Selecting(false) && s.r.closing ==>
              s.acceptors[j].notified || exists i :: 0 <= i < |s.closers| && s.closers[i].wakesAccept
  {
    RunKeepsInv(max, Init(sockets), steps, s);
    assert AcceptWakes(s, s.acceptors[j]) && AcceptBounded(max, s.r, s.acceptors[j]);
  }

  predicate SameYields(a: seq<Acceptor>, b: seq<Acceptor>) {
    |a| == |b| && forall j :: 0 <= j < |a| ==> b[j].yielded == a[j].yielded
  }

  lemma ClosedStep(max: nat, s: State, st: Step)
    requires s.r.closing && CanStep(max, s, st)
    ensures var s' := Next(max, s, st);
            && s'.r.closing && s'.r.nextId == s.r.nextId && s'.r.conns <= s.r.conns
            && SameYields(s.acceptors, s'.acceptors)
            && (s.r.frame.Some? ==> s'.r.frame == s.r.frame)
  {
  }

  /** The fence: after the first close no worker is admitted, no acceptor yields, and the frame never changes. */
  lemma {:induction false} FenceHolds(max: nat, s: State, steps: seq<Step>, s': State)
    requires s.r.closing && s.r.frame.Some? && Run(max, s, steps, s')
    ensures s'.r.closing && s'.r.nextId == s.r.nextId && s'.r.conns <= s.r.conns
    ensures SameYields(s.acceptors, s'.acceptors) && s'.r.frame == s.r.frame
    decreases |steps|
  {
    hide Next, CanStep;
    if steps != [] {
      ClosedStep(max, s, steps[0]);
      FenceHolds(max, Next(max, s, steps[0]), steps[1..], s');
    }
  }
}
