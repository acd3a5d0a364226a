/**
 * One class of the accept hand-over: the worker's admission, promotion and sleep check against the
 * consumer's `poll_accept_*`, one atomic operation per step, in every interleaving.
 */
module AcceptProtocol {
  import opened Base

  const PROMOTE_BUDGET: nat := 32

  /**
   * Where the worker is. Iterating covers every stage that does not touch this class; Clear and Try are
   * inside `promote_parked`; Checked is past the remainder check, on the way to the command channel.
   */
  datatype WorkerPc = Iterating | Clear | Try(budget: nat) | Check | Checked

  /** Where the consumer is after taking a stream: about to swap the bit, or about to send the command. */
  datatype ConsumerPc = Outside | Swap | Send

  datatype Streams = Streams(pending: seq<Id>, parked: seq<Id>, queue: seq<Id>, taken: seq<Id>)

  datatype State = State(t: Streams, bit: bool, cmds: nat, w: WorkerPc, c: ConsumerPc)

  datatype Step =
    | Discover(id: Id)
    | ApplyCommand
    | AdmitPending
    | Load
    | WorkerStep
    | EndIteration
    | Wake
    | ConsumerStep

  const INIT := State(Streams([], [], [], []), false, 0, Iterating, Outside)

  predicate Enabled(s: State, st: Step) {
    match st
    case Discover(_) => s.w.Iterating?
    case ApplyCommand => s.w.Iterating? && s.cmds > 0
    case AdmitPending => s.w.Iterating? && s.t.pending != []
    case Load => s.w.Iterating?
    case WorkerStep => s.w.Clear? || s.w.Try? || s.w.Check?
    case EndIteration => s.w.Iterating?
    case Wake => s.w.Checked?
    case ConsumerStep => s.c.Outside? ==> s.t.queue != []
  }

  /** A reserved slot takes the head pending stream; a full queue parks it. */
  function Admit(cap: nat, t: Streams): Streams
    requires t.pending != []
  {
    if |t.queue| < cap then t.(pending := t.pending[1..], queue := t.queue + [t.pending[0]])
    else t.(pending := t.pending[1..], parked := t.parked + [t.pending[0]])
  }

  function Promote(t: Streams): Streams
    requires t.parked != []
  {
    t.(parked := t.parked[1..], queue := t.queue + [t.parked[0]])
  }

  function WorkerNext(cap: nat, s: State): State
    requires s.w.Clear? || s.w.Try? || s.w.Check?
  {
    match s.w
    case Clear => s.(bit := false, w := Try(PROMOTE_BUDGET))
    case Try(budget) =>
      if budget == 0 || s.t.parked == [] || |s.t.queue| >= cap then s.(w := Iterating)
      else s.(t := Promote(s.t), w := Try(budget - 1))
    case Check =>
      if (s.t.pending != [] && (s.t.parked == [] || s.bit)) || (s.t.parked != [] && s.bit)
      then s.(w := Iterating) else s.(w := Checked)
  }

  function ConsumerNext(s: State): State
    requires s.c.Outside? ==> s.t.queue != []
  {
    match s.c
    case Outside => s.(t := s.t.(queue := s.t.queue[1..], taken := s.t.taken + [s.t.queue[0]]), c := Swap)
    case Swap => s.(bit := true, c := if s.bit then Outside else Send)
    case Send => s.(cmds := s.cmds + 1, c := Outside)
  }

  function Next(cap: nat, s: State, st: Step): State
    requires Enabled(s, st)
  {
    match st
    case Discover(id) => s.(t := s.t.(pending := s.t.pending + [id]))
    case ApplyCommand => s.(bit := true, cmds := s.cmds - 1)
    case AdmitPending => s.(t := Admit(cap, s.t))
    case Load => if s.bit then s.(w := Clear) else s
    case WorkerStep => WorkerNext(cap, s)
    case EndIteration => s.(w := Check)
    case Wake => s.(w := Iterating)
    case ConsumerStep => ConsumerNext(s)
  }

  /**
   * With the bit clear, a parked class has something for the consumer to take, or the consumer is about
   * to set the bit, or promotion has just cleared it and still has its first try to make.
   */
  predicate ClearMeansWaiting(cap: nat, s: State) {
    s.t.parked != [] && !s.bit ==>
      s.t.queue != [] || s.c.Swap? || s.w == Try(PROMOTE_BUDGET)
  }

  /** Past the sleep check, a set bit means the command that wakes the worker is on its way. */
  predicate SetMeansSignalled(s: State) {
    s.w.Checked? ==>
      && (s.t.pending != [] ==> s.t.parked != [])
      && (s.t.parked != [] && s.bit ==> s.cmds > 0 || s.c.Send?)
  }

  predicate Inv(cap: nat, s: State) {
    ClearMeansWaiting(cap, s) && SetMeansSignalled(s)
  }

  lemma WorkerKeepsInv(cap: nat, s: State)
    requires cap > 0 && Inv(cap, s) && (s.w.Clear? || s.w.Try? || s.w.Check?)
    ensures Inv(cap, WorkerNext(cap, s))
  {
  }

  lemma ConsumerKeepsInv(cap: nat, s: State)
    requires cap > 0 && Inv(cap, s) && (s.c.Outside? ==> s.t.queue != [])
    ensures Inv(cap, ConsumerNext(s))
  {
  }

  lemma NextKeepsInv(cap: nat, s: State, st: Step)
    requires cap > 0 && Inv(cap, s) && Enabled(s, st)
    ensures Inv(cap, Next(cap, s, st))
  {
    match st
    case WorkerStep => WorkerKeepsInv(cap, s);
    case ConsumerStep => ConsumerKeepsInv(cap, s);
    case _ =>
  }

  predicate Run(cap: nat, s: State, steps: seq<Step>, s': State)
    decreases |steps|
  {
    if steps == [] then s' == s
    else Enabled(s, steps[0]) && Run(cap, Next(cap, s, steps[0]), steps[1..], s')
  }

  lemma {:induction false} RunKeepsInv(cap: nat, s: State, steps: seq<Step>, s': State)
    requires cap > 0 && Inv(cap, s) && Run(cap, s, steps, s')
    ensures Inv(cap, s')
    decreases |steps|
  {
    hide Inv, Next, Enabled;
    if steps != [] {
      NextKeepsInv(cap, s, steps[0]);
      RunKeepsInv(cap, Next(cap, s, steps[0]), steps[1..], s');
    }
  }

  /**
   * Accept parking never strands a stream: when the worker is past its sleep check and the consumer is not
   * in the middle of taking one, a class with waiting streams has one ready to take or a resume in flight.
   */
  lemma NeverStranded(cap: nat, steps: seq<Step>, s: State)
    requires cap > 0 && Run(cap, INIT, steps, s) && s.w.Checked? && s.c.Outside?
    ensures s.t.parked != [] || s.t.pending != [] ==> s.t.queue != [] || s.cmds > 0
  {
    RunKeepsInv(cap, INIT, steps, s);
  }

  /** Every discovered stream of the class. */
  function Discovered(steps: seq<Step>): multiset<Id> {
    if steps == [] then multiset{}
    else (if steps[0].Discover? then multiset{steps[0].id} else multiset{}) + Discovered(steps[1..])
  }

  function All(t: Streams): multiset<Id> {
    multiset(t.pending) + multiset(t.parked) + multiset(t.queue) + multiset(t.taken)
  }

  lemma HeadTail(q: seq<Id>)
    requires q != []
    ensures multiset(q) == multiset{q[0]} + multiset(q[1..])
  {
    assert q == [q[0]] + q[1..];
  }

  lemma AdmitConserves(cap: nat, t: Streams)
    requires t.pending != []
    ensures All(Admit(cap, t)) == All(t)
  {
    HeadTail(t.pending);
  }

  lemma PromoteConserves(t: Streams)
    requires t.parked != []
    ensures All(Promote(t)) == All(t)
  {
    HeadTail(t.parked);
  }

  lemma TakeConserves(t: Streams)
    requires t.queue != []
    ensures All(t.(queue := t.queue[1..], taken := t.taken + [t.queue[0]])) == All(t)
  {
    HeadTail(t.queue);
  }

  lemma DiscoverGrows(t: Streams, id: Id)
    ensures All(t.(pending := t.pending + [id])) == All(t) + multiset{id}
  {
  }

  lemma StepConserves(cap: nat, s: State, st: Step)
    requires Enabled(s, st)
    ensures All(Next(cap, s, st).t) == All(s.t) + Discovered([st])
  {
    hide All, Admit, Promote;
    assert [st][1..] == [] && Discovered([]) == multiset{};
    match st
    case Discover(id) => DiscoverGrows(s.t, id);
    case AdmitPending => AdmitConserves(cap, s.t);
    case WorkerStep => if s.w.Try? && s.t.parked != [] { PromoteConserves(s.t); }
    case ConsumerStep => if s.c.Outside? { TakeConserves(s.t); }
    case _ =>
  }

  /** No stream is lost or duplicated between discovery and the consumer. */
  lemma {:induction false} StreamsConserved(cap: nat, s: State, steps: seq<Step>, s': State)
    requires Run(cap, s, steps, s')
    ensures All(s'.t) == All(s.t) + Discovered(steps)
    decreases |steps|
  {
    hide Next, Enabled, All;
    if steps != [] {
      assert [steps[0]][1..] == [] && [steps[0]][0] == steps[0];
      StepConserves(cap, s, steps[0]);
      StreamsConserved(cap, Next(cap, s, steps[0]), steps[1..], s');
    }
  }
}
