/**
 * One stream's receive hand-over between the worker (`drain_stream`, `drain_resumed`) and its consumer
 * (`H3RecvStream::poll_data`), one atomic operation per step, in every interleaving.
 */
module RecvProtocol {
  import opened Base

  type Chunk = seq<Byte>

  /** Where the worker is with this stream. */
  datatype WorkerPc =
    | Away
    | ClearResume
    | ClearBlocked
    | Reserve
    | PublishBlocked
    | ReserveAgain
    | ClearPark
    | Read
    | AskMore
    | Abandon
    | Publish(end: RecvEnd)
    | SealOff
    | Gone

  /** Where the consumer is inside `poll_data`. */
  datatype ConsumerPc = Outside | SwapBlocked | SwapResume | SendResume | PollTerminal | Recheck | PollClosed

  /** The byte channel, its history on both sides, and the out-of-band end. */
  datatype Data = Data(
    chan: seq<Chunk>,
    pushed: seq<Chunk>,
    yielded: seq<Chunk>,
    terminal: Option<RecvEnd>,
    sealed: bool,
    stopped: bool,
    reported: Option<RecvEnd>,
    bugReported: bool,
    dropped: bool)

  /** The shared bits, resume commands in the channel and in the resume queue, and the worker's park. */
  datatype Flags = Flags(blocked: bool, resume: bool, inFlight: nat, queued: bool, parked: bool, connGone: bool)

  datatype State = State(d: Data, f: Flags, w: WorkerPc, c: ConsumerPc)

  /** What a reserved read returns; `Leave` ends a drain whose budget is spent or that has nothing more to read. */
  datatype Taken =
    | Bytes(chunk: Chunk, fin: bool)
    | Empty(fin: bool)
    | NoData
    | Ended(end: RecvEnd)
    | Lost
    | Leave

  /** A worker step is the one its position calls for, except between drains. */
  datatype Step =
    | ApplyResume
    | TakeResumed
    | TakeReadable
    | StopLocally
    | CloseConn(terminal: ConnTerminal)
    | WorkerStep(taken: Taken)
    | ConsumerStep
    | ConsumerDrops

  const INIT := State(
    Data([], [], [], None, false, false, None, false, false),
    Flags(false, false, 0, false, false, false), Away, Outside)

  predicate Enabled(s: State, st: Step) {
    match st
    case ApplyResume => s.w.Away? && s.f.inFlight > 0
    case TakeResumed => s.w.Away? && s.f.queued
    case TakeReadable => s.w.Away?
    case StopLocally => s.w.Away?
    case CloseConn(_) => s.w.Away?
    case WorkerStep(taken) => !s.w.Away? && !s.w.Gone? && (taken.Leave? ==> s.w.Reserve? || s.w.AskMore?)
    case ConsumerStep => !s.d.dropped
    case ConsumerDrops => s.c.Outside?
  }

  function SetTerminal(d: Data, end: RecvEnd): Data {
    if d.terminal.None? then d.(terminal := Some(end)) else d
  }

  function Push(d: Data, chunk: Chunk): Data {
    d.(chan := d.chan + [chunk], pushed := d.pushed + [chunk])
  }

  function Pop(d: Data): Data
    requires d.chan != []
  {
    d.(chan := d.chan[1..], yielded := d.yielded + [d.chan[0]])
  }

  /** Between drains: commands, the resume queue, the drain cursor, a local stop, connection close. */
  function WorkerPicks(s: State, st: Step): State
    requires Enabled(s, st) && !st.WorkerStep? && !st.ConsumerStep? && !st.ConsumerDrops?
  {
    match st
    case ApplyResume => s.(f := s.f.(inFlight := s.f.inFlight - 1, queued := true))
    case TakeResumed => s.(f := s.f.(queued := false, parked := false), w := ClearResume)
    case TakeReadable => s.(f := s.f.(parked := false), w := Reserve)
    case StopLocally => s.(d := s.d.(sealed := true, stopped := true), f := s.f.(queued := false), w := Gone)
    case CloseConn(terminal) => s.(d := SetTerminal(s.d, RecvConn(terminal)), f := s.f.(connGone := true), w := Gone)
  }

  /** Where a read leads: an end is published, a read without bytes ends the drain. */
  function After(taken: Taken): WorkerPc {
    match taken
    case Bytes(_, fin) => if fin then Publish(Fin) else AskMore
    case Empty(fin) => if fin then Publish(Fin) else Away
    case Ended(end) => Publish(end)
    case _ => Away
  }

  /** One step of a drain. */
  function WorkerNext(depth: nat, s: State, taken: Taken): State
    requires Enabled(s, WorkerStep(taken))
  {
    match s.w
    case ClearResume => s.(f := s.f.(resume := false), w := ClearBlocked)
    case ClearBlocked => s.(f := s.f.(blocked := false), w := Reserve)
    case Reserve =>
      if taken.Leave? then s.(w := Away)
      else if s.d.dropped then s.(w := Abandon)
      else s.(w := if |s.d.chan| < depth then Read else PublishBlocked)
    case PublishBlocked => s.(f := s.f.(blocked := true), w := ReserveAgain)
    case ReserveAgain =>
      if s.d.dropped then s.(w := Abandon)
      else if |s.d.chan| < depth then s.(w := ClearPark)
      else s.(f := s.f.(parked := true), w := Away)
    case ClearPark => s.(f := s.f.(blocked := false), w := Read)
    case Read =>
      (match taken
       case Bytes(chunk, _) => s.(d := Push(s.d, chunk), w := After(taken))
       case Lost => s.(f := s.f.(connGone := true, queued := false), w := After(taken))
       case _ => s.(w := After(taken)))
    case AskMore => s.(w := if taken.Leave? then Away else Reserve)
    case Abandon => s.(d := s.d.(sealed := true, stopped := true), f := s.f.(queued := false), w := Gone)
    case Publish(end) => s.(d := SetTerminal(s.d, end), w := SealOff)
    case SealOff => s.(d := s.d.(sealed := true), f := s.f.(queued := false), w := Gone)
  }

  /** One step of `poll_data`. */
  function ConsumerNext(s: State): State {
    match s.c
    case Outside =>
      if s.d.chan != [] then s.(d := Pop(s.d), c := SwapBlocked)
      else s.(c := if s.d.sealed then PollClosed else PollTerminal)
    case SwapBlocked => s.(f := s.f.(blocked := false), c := if s.f.blocked then SwapResume else Outside)
    case SwapResume => s.(f := s.f.(resume := true), c := if s.f.resume then Outside else SendResume)
    case SendResume => s.(f := s.f.(inFlight := s.f.inFlight + 1), c := Outside)
    case PollTerminal => s.(c := if s.d.terminal.Some? then Recheck else Outside)
    case Recheck =>
      if s.d.chan != [] then s.(d := Pop(s.d), c := SwapBlocked)
      else s.(d := s.d.(reported := s.d.terminal), c := Outside)
    case PollClosed =>
      s.(d := if s.d.terminal.Some? then s.d.(reported := s.d.terminal) else s.d.(bugReported := true), c := Outside)
  }

  function Next(depth: nat, s: State, st: Step): State
    requires Enabled(s, st)
  {
    if st.WorkerStep? then WorkerNext(depth, s, st.taken)
    else if st.ConsumerStep? then ConsumerNext(s)
    else if st.ConsumerDrops? then s.(d := s.d.(dropped := true))
    else WorkerPicks(s, st)
  }

  // ----- delivery -----

  /** The sealing edge: once an end is published the worker never pushes again. */
  predicate Sealing(s: State) {
    && (s.d.terminal.Some? ==> s.w.SealOff? || s.w.Gone?)
    && (s.d.sealed ==> s.w.Gone? && (s.d.terminal.Some? || s.d.stopped))
    && (s.w.SealOff? ==> s.d.terminal.Some?)
    && (s.c.Recheck? ==> s.d.terminal.Some?)
    && (s.c.PollClosed? ==> s.d.sealed && s.d.chan == [])
  }

  /** Nothing is lost, repeated or reordered, and a reported end comes after every byte. */
  predicate Delivery(d: Data) {
    && d.yielded + d.chan == d.pushed
    && (d.reported.Some? ==> d.reported == d.terminal && d.chan == [])
    && (d.bugReported ==> d.stopped)
  }

  lemma PopDelivers(d: Data)
    requires d.chan != [] && Delivery(d)
    ensures Delivery(Pop(d))
  {
    assert d.chan == [d.chan[0]] + d.chan[1..];
  }

  lemma PushDelivers(d: Data, chunk: Chunk)
    requires Delivery(d) && d.terminal.None?
    ensures Delivery(Push(d, chunk))
  {
    assert d.yielded + (d.chan + [chunk]) == d.yielded + d.chan + [chunk];
  }

  lemma PicksDeliver(s: State, st: Step)
    requires Sealing(s) && Delivery(s.d) && Enabled(s, st) && !st.WorkerStep? && !st.ConsumerStep? && !st.ConsumerDrops?
    ensures Sealing(WorkerPicks(s, st)) && Delivery(WorkerPicks(s, st).d)
  {
  }

  lemma WorkerDelivers(depth: nat, s: State, taken: Taken)
    requires Sealing(s) && Delivery(s.d) && Enabled(s, WorkerStep(taken))
    ensures Sealing(WorkerNext(depth, s, taken)) && Delivery(WorkerNext(depth, s, taken).d)
  {
    if s.w.Read? && taken.Bytes? { PushDelivers(s.d, taken.chunk); }
  }

  lemma ConsumerDelivers(s: State)
    requires Sealing(s) && Delivery(s.d)
    ensures Sealing(ConsumerNext(s)) && Delivery(ConsumerNext(s).d)
  {
    if s.d.chan != [] { PopDelivers(s.d); }
  }

  // ----- wakeups -----

  /** A resume command is being sent, is in the channel, or is in the resume queue. */
  predicate Signalled(s: State) {
    s.f.inFlight > 0 || s.f.queued || s.c.SendResume?
  }

  /**
   * The handshake. The resume bit stands for a command on its way; a parked worker is either still
   * advertised as blocked or its wakeup is on its way; and it stays advertised only while the channel
   * is full or the consumer that made room is about to look.
   */
  predicate Handshake(depth: nat, s: State) {
    && (s.f.resume ==> Signalled(s) || s.w.ClearResume?)
    && (s.w.ReserveAgain? || s.f.parked ==> s.f.blocked || s.c.SwapResume? || Signalled(s))
    && (s.f.parked ==> s.w.Away?)
    && (s.f.parked && s.f.blocked ==> |s.d.chan| >= depth || s.c.SwapBlocked?)
  }

  /** The handshake holds as long as the stream is the worker's and the connection is up. */
  predicate Awake(depth: nat, s: State) {
    s.f.connGone || s.w.Gone? || Handshake(depth, s)
  }

  lemma PicksKeepHandshake(depth: nat, s: State, st: Step)
    requires Awake(depth, s) && Enabled(s, st) && !st.WorkerStep? && !st.ConsumerStep? && !st.ConsumerDrops?
    ensures Awake(depth, WorkerPicks(s, st))
  {
  }

  lemma WorkerKeepsHandshake(depth: nat, s: State, taken: Taken)
    requires Awake(depth, s) && Enabled(s, WorkerStep(taken))
    ensures Awake(depth, WorkerNext(depth, s, taken))
  {
  }

  lemma ConsumerKeepsHandshake(depth: nat, s: State)
    requires Awake(depth, s)
    ensures Awake(depth, ConsumerNext(s))
  {
  }

  // ----- every run -----

  predicate Inv(depth: nat, s: State) {
    Sealing(s) && Delivery(s.d) && Awake(depth, s)
  }

  lemma DropKeepsInv(depth: nat, s: State)
    requires Inv(depth, s) && s.c.Outside?
    ensures Inv(depth, s.(d := s.d.(dropped := true)))
  {
  }

  lemma NextKeepsInv(depth: nat, s: State, st: Step)
    requires Inv(depth, s) && Enabled(s, st)
    ensures Inv(depth, Next(depth, s, st))
  {
    hide WorkerPicks, WorkerNext, ConsumerNext, Sealing, Delivery, Awake;
    match st
    case WorkerStep(taken) =>
      WorkerDelivers(depth, s, taken);
      WorkerKeepsHandshake(depth, s, taken);
    case ConsumerStep =>
      ConsumerDelivers(s);
      ConsumerKeepsHandshake(depth, s);
    case ConsumerDrops => DropKeepsInv(depth, s);
    case _ =>
      PicksDeliver(s, st);
      PicksKeepHandshake(depth, s, st);
  }

  predicate Run(depth: nat, s: State, steps: seq<Step>, s': State)
    decreases |steps|
  {
    if steps == [] then s' == s
    else Enabled(s, steps[0]) && Run(depth, Next(depth, s, steps[0]), steps[1..], s')
  }

  lemma {:induction false} RunKeepsInv(depth: nat, s: State, steps: seq<Step>, s': State)
    requires Inv(depth, s) && Run(depth, s, steps, s')
    ensures Inv(depth, s')
    decreases |steps|
  {
    hide Inv, Next, Enabled;
    if steps != [] {
      NextKeepsInv(depth, s, steps[0]);
      RunKeepsInv(depth, Next(depth, s, steps[0]), steps[1..], s');
    }
  }

  /**
   * No lost wakeup: whenever the worker is parked and the channel has room, a RecvResume is in flight
   * or queued, or the consumer is between freeing the slot and sending it.
   */
  lemma NoLostWakeup(depth: nat, steps: seq<Step>, s: State)
    requires Run(depth, INIT, steps, s) && s.f.parked && |s.d.chan| < depth && !s.f.connGone && !s.w.Gone?
    ensures Signalled(s) || s.c.SwapBlocked? || s.c.SwapResume?
    ensures s.c.Outside? ==> s.f.inFlight > 0 || s.f.queued
  {
    RunKeepsInv(depth, INIT, steps, s);
  }

  lemma NoPushAfterTheEnd(depth: nat, s: State, st: Step)
    requires Sealing(s) && s.d.terminal.Some? && Enabled(s, st)
    ensures Next(depth, s, st).d.terminal == s.d.terminal && Next(depth, s, st).d.pushed == s.d.pushed
  {
  }

  lemma {:induction false} NothingAfterTheEnd(depth: nat, s: State, steps: seq<Step>, s': State)
    requires Inv(depth, s) && s.d.terminal.Some? && Run(depth, s, steps, s')
    ensures s'.d.terminal == s.d.terminal && s'.d.pushed == s.d.pushed
    decreases |steps|
  {
    hide Sealing, Delivery, Awake, Next, Enabled;
    if steps != [] {
      NextKeepsInv(depth, s, steps[0]);
      NoPushAfterTheEnd(depth, s, steps[0]);
      NothingAfterTheEnd(depth, Next(depth, s, steps[0]), steps[1..], s');
    }
  }

  /**
   * Delivery is lossless and ordered up to the seal: when `poll_data` has reported an end, it has yielded,
   * in order, every chunk the worker took for this stream, now and at any later time; and it reports a
   * channel closed without an end only after a local stop.
   */
  lemma LosslessUpToTheSeal(depth: nat, steps: seq<Step>, s: State, more: seq<Step>, s': State)
    requires Run(depth, INIT, steps, s) && Run(depth, s, more, s')
    ensures s.d.yielded <= s.d.pushed
    ensures s.d.reported.Some? ==> s.d.reported == s'.d.terminal && s.d.yielded == s'.d.pushed
    ensures s.d.bugReported ==> s.d.stopped
  {
    RunKeepsInv(depth, INIT, steps, s);
    if s.d.reported.Some? { NothingAfterTheEnd(depth, s, more, s'); }
  }

  // ----- the worker's log -----

  /** What the worker does to one stream, one entry per atomic operation. */
  datatype Act =
    | Picked
    | PickedResumed
    | ResumeCleared
    | BlockedCleared
    | BlockedSet
    | Tried(answer: SlotAnswer)
    | Received(taken: Taken)
    | GoesOn
    | Left
    | Published(end: RecvEnd)
    | Sealed
    | GivenUp
    | ConnClosed(terminal: ConnTerminal)

  /** Where an operation leads, if the worker may do it there. */
  function Move(pc: WorkerPc, a: Act): Option<WorkerPc> {
    match (pc, a)
    case (Away, Picked) => Some(Reserve)
    case (Away, PickedResumed) => Some(ClearResume)
    case (ClearResume, ResumeCleared) => Some(ClearBlocked)
    case (ClearBlocked, BlockedCleared) => Some(Reserve)
    case (Reserve, Tried(answer)) =>
      Some(if answer.Permit? then Read else if answer.Full? then PublishBlocked else Abandon)
    case (PublishBlocked, BlockedSet) => Some(ReserveAgain)
    case (ReserveAgain, Tried(answer)) =>
      Some(if answer.Permit? then ClearPark else if answer.Full? then Away else Abandon)
    case (ClearPark, BlockedCleared) => Some(Read)
    case (Read, Received(taken)) => if taken.Leave? then None else Some(After(taken))
    case (AskMore, GoesOn) => Some(Reserve)
    case (AskMore, Left) => Some(Away)
    case (Reserve, Left) => Some(Away)
    case (Publish(end), Published(e)) => if e == end then Some(SealOff) else None
    case (SealOff, Sealed) => Some(Gone)
    case (Abandon, GivenUp) => Some(Gone)
    case (Away, GivenUp) => Some(Gone)
    case (Away, ConnClosed(_)) => Some(Gone)
    case _ => None
  }

  /** Where a log leads, if it is one the worker may have made. */
  function PcOf(log: seq<Act>): Option<WorkerPc> {
    if log == [] then Some(Away)
    else match PcOf(log[..|log| - 1])
         case None => None
         case Some(pc) => Move(pc, log[|log| - 1])
  }

  lemma StartsAway()
    ensures PcOf([]) == Some(Away)
  {
  }

  function ChunkOf(a: Act): seq<Byte> {
    if a.Received? && a.taken.Bytes? then a.taken.chunk else []
  }

  function BytesOf(log: seq<Act>): seq<Byte> {
    if log == [] then [] else BytesOf(log[..|log| - 1]) + ChunkOf(log[|log| - 1])
  }

  /** The end once `a` was done; the first one counts. */
  function EndAfter(end: Option<RecvEnd>, a: Act): Option<RecvEnd> {
    if end.Some? then end
    else match a
         case Published(e) => Some(e)
         case ConnClosed(terminal) => Some(RecvConn(terminal))
         case _ => None
  }

  /** The end a log published. */
  function EndOf(log: seq<Act>): Option<RecvEnd> {
    if log == [] then None else EndAfter(EndOf(log[..|log| - 1]), log[|log| - 1])
  }

  /** The log of a parked stream: full, then advertised as blocked, then full again. */
  predicate Parked(log: seq<Act>) {
    |log| >= 3 && log[|log| - 3..] == [Tried(Full), BlockedSet, Tried(Full)]
  }

  lemma Logged(log: seq<Act>, a: Act)
    ensures PcOf(log).Some? ==> PcOf(log + [a]) == Move(PcOf(log).value, a)
    ensures PcOf(log).None? ==> PcOf(log + [a]).None?
    ensures BytesOf(log + [a]) == BytesOf(log) + ChunkOf(a)
    ensures EndOf(log + [a]) == EndAfter(EndOf(log), a)
  {
    assert (log + [a])[..|log|] == log;
  }

  /** Stopped because nobody reads any more: the channel was found closed. */
  predicate Abandoned(log: seq<Act>) {
    |log| >= 2 && log[|log| - 2] == Tried(Closed) && log[|log| - 1] == GivenUp
  }

  /** A half the worker is done with has an end, or was given up. */
  lemma {:induction false} GoneHasEnd(log: seq<Act>)
    requires PcOf(log).Some?
    ensures EndOf(log).Some? ==> PcOf(log).value.SealOff? || PcOf(log).value.Gone?
    ensures PcOf(log).value.SealOff? ==> EndOf(log).Some?
    ensures PcOf(log).value.Gone? ==> EndOf(log).Some? || log[|log| - 1] == GivenUp
    ensures PcOf(log).value.Abandon? ==> log[|log| - 1] == Tried(Closed)
  {
    if log != [] {
      GoneHasEnd(log[..|log| - 1]);
    }
  }

  /** The step that performs an operation. */
  function StepOf(pc: WorkerPc, a: Act): Step {
    match a
    case Picked => TakeReadable
    case PickedResumed => TakeResumed
    case ConnClosed(terminal) => CloseConn(terminal)
    case GivenUp => if pc.Away? then StopLocally else WorkerStep(NoData)
    case Left => WorkerStep(Leave)
    case Received(taken) => WorkerStep(taken)
    case _ => WorkerStep(NoData)
  }

  /** The answers in a log are those the shared channel gives in `s`. */
  predicate Agrees(depth: nat, s: State, a: Act) {
    match a
    case Tried(answer) => answer == if s.d.dropped then Closed else if |s.d.chan| < depth then Permit else Full
    case PickedResumed => s.f.queued
    case _ => true
  }

  /** One entry of the worker's log, or a step that is not its drain: its consumer's, or a resume command. */
  datatype Event = Work(act: Act) | Other(st: Step)

  function Perform(depth: nat, s: State, e: Event): Option<State> {
    match e
    case Work(a) =>
      if Move(s.w, a).Some? && Agrees(depth, s, a) && Enabled(s, StepOf(s.w, a)) then
        Some(Next(depth, s, StepOf(s.w, a)))
      else None
    case Other(st) =>
      if (st.ConsumerStep? || st.ConsumerDrops? || st.ApplyResume?) && Enabled(s, st) then Some(Next(depth, s, st))
      else None
  }

  function Reached(depth: nat, events: seq<Event>): Option<State> {
    if events == [] then Some(INIT)
    else match Reached(depth, events[..|events| - 1])
         case None => None
         case Some(s) => Perform(depth, s, events[|events| - 1])
  }

  function LogOf(events: seq<Event>): seq<Act> {
    if events == [] then []
    else LogOf(events[..|events| - 1]) +
         match events[|events| - 1] case Work(a) => [a] case Other(_) => []
  }

  function Flat(chunks: seq<Chunk>): seq<Byte> {
    if chunks == [] then [] else Flat(chunks[..|chunks| - 1]) + chunks[|chunks| - 1]
  }

  lemma FlatPush(chunks: seq<Chunk>, chunk: Chunk)
    ensures Flat(chunks + [chunk]) == Flat(chunks) + chunk
  {
    assert (chunks + [chunk])[..|chunks|] == chunks;
  }

  /** A legal operation whose answers the channel gives is always possible, and does what the log says. */
  lemma ActIsStep(depth: nat, s: State, a: Act)
    requires Inv(depth, s) && Move(s.w, a).Some? && Agrees(depth, s, a)
    ensures Enabled(s, StepOf(s.w, a))
    ensures var s' := Next(depth, s, StepOf(s.w, a));
            && s'.w == Move(s.w, a).value && Flat(s'.d.pushed) == Flat(s.d.pushed) + ChunkOf(a)
            && s'.d.terminal == EndAfter(s.d.terminal, a)
  {
    if a.Received? && a.taken.Bytes? { FlatPush(s.d.pushed, a.taken.chunk); }
  }

  lemma {:induction false} RunOn(depth: nat, s: State, steps: seq<Step>, s': State, st: Step)
    requires Run(depth, s, steps, s') && Enabled(s', st)
    ensures Run(depth, s, steps + [st], Next(depth, s', st))
    decreases |steps|
  {
    hide Next, Enabled;
    if steps == [] {
      assert (steps + [st])[1..] == [];
    } else {
      assert (steps + [st])[1..] == steps[1..] + [st];
      RunOn(depth, Next(depth, s, steps[0]), steps[1..], s', st);
    }
  }

  /**
   * However the consumer interleaves with it, a worker's log is a run of the protocol: the stream is where
   * the log says, the bytes pushed and the end published are those in the log.
   */
  lemma {:induction false} LogsAreRuns(depth: nat, events: seq<Event>) returns (steps: seq<Step>)
    requires Reached(depth, events).Some?
    ensures var s := Reached(depth, events).value;
            && Run(depth, INIT, steps, s) && Inv(depth, s) && PcOf(LogOf(events)) == Some(s.w)
            && Flat(s.d.pushed) == BytesOf(LogOf(events)) && s.d.terminal == EndOf(LogOf(events))
  {
    hide Next, Enabled, Inv, Move, Agrees;
    if events == [] {
      steps := [];
      assert Inv(depth, INIT) by { StartsInOrder(depth); }
    } else {
      var before, e := events[..|events| - 1], events[|events| - 1];
      var s := Reached(depth, before).value;
      steps := LogsAreRuns(depth, before);
      match e
      case Work(a) =>
        ActIsStep(depth, s, a);
        Logged(LogOf(before), a);
        RunOn(depth, INIT, steps, s, StepOf(s.w, a));
        NextKeepsInv(depth, s, StepOf(s.w, a));
        steps := steps + [StepOf(s.w, a)];
      case Other(st) =>
        assert LogOf(events) == LogOf(before);
        OthersDoNotDrain(depth, s, st);
        RunOn(depth, INIT, steps, s, st);
        NextKeepsInv(depth, s, st);
        steps := steps + [st];
    }
  }

  lemma StartsInOrder(depth: nat)
    ensures Inv(depth, INIT)
  {
  }

  lemma OthersDoNotDrain(depth: nat, s: State, st: Step)
    requires Enabled(s, st) && (st.ConsumerStep? || st.ConsumerDrops? || st.ApplyResume?)
    ensures var s' := Next(depth, s, st);
            s'.w == s.w && s'.d.pushed == s.d.pushed && s'.d.terminal == s.d.terminal && s'.f.parked == s.f.parked
  {
  }

  lemma {:induction false} ParkedIsAdvertised(depth: nat, events: seq<Event>)
    requires Reached(depth, events).Some? && Parked(LogOf(events))
    ensures Reached(depth, events).value.f.parked
  {
    hide Next, Enabled, Inv, Run, Move, Agrees, BytesOf, EndOf, Flat, PcOf;
    var before, e := events[..|events| - 1], events[|events| - 1];
    var s, log := Reached(depth, before).value, LogOf(before);
    if e.Other? {
      assert LogOf(events) == log;
      ParkedIsAdvertised(depth, before);
      OthersDoNotDrain(depth, s, e.st);
    } else {
      var steps := LogsAreRuns(depth, before);
      EndsParked(log, e.act);
      SecondTryParks(depth, s);
    }
  }

  lemma EndsParked(log: seq<Act>, a: Act)
    requires Parked(log + [a]) && PcOf(log).Some?
    ensures a == Tried(Full) && PcOf(log) == Some(ReserveAgain)
  {
    var tail := (log + [a])[|log| - 2..];
    assert tail[1] == log[|log| - 1] == BlockedSet && tail[2] == a;
  }

  lemma SecondTryParks(depth: nat, s: State)
    requires s.w.ReserveAgain? && Perform(depth, s, Work(Tried(Full))).Some?
    ensures Perform(depth, s, Work(Tried(Full))).value.f.parked
  {
  }

  /** A drain whose log ends parked is woken: once its channel has room, a resume is on its way. */
  lemma ParkedDrainIsWoken(depth: nat, events: seq<Event>)
    requires Reached(depth, events).Some? && Parked(LogOf(events))
    ensures var s := Reached(depth, events).value;
            |s.d.chan| < depth && !s.f.connGone ==> Signalled(s) || s.c.SwapBlocked? || s.c.SwapResume?
  {
    hide Next, Enabled, Run, Reached, LogOf, BytesOf, EndOf, Flat, Sealing, Delivery;
    var steps := LogsAreRuns(depth, events);
    ParkedIsAdvertised(depth, events);
    NotGone(LogOf(events));
  }

  lemma NotGone(log: seq<Act>)
    requires Parked(log) && PcOf(log).Some?
    ensures PcOf(log) != Some(Gone)
  {
    assert log[|log| - 3..][2] == log[|log| - 1];
  }
}
