/**
 * The reusable write-completion cell (`WriteCompletion`, `WriteCompleter`) between the front end and any
 * number of completers, live or stale, one atomic operation per step.
 */
module CompletionProtocol {
  import opened Base

  /** A delivered result, or a carrier dropped without one. */
  datatype Verdict = Finished(ok: bool) | Cancelled

  /**
   * A completer: held by the worker, inside the lock past its generation check, past the store and
   * about to wake, or used up.
   */
  datatype CompleterPc = Held | Storing(v: Verdict) | Waking | Used

  datatype Completer = Completer(generation: nat, pc: CompleterPc)

  /**
   * The front end: idle; past the generation bump and about to clear the slot; about to poll; registered
   * and about to read the slot; or pending on its generation.
   */
  datatype FrontPc = Idle | Clearing | Polling | Registered | Pending

  /** One stored outcome, tagged with the generation it completes. */
  datatype Stored = Stored(generation: nat, v: Verdict)

  datatype Cell = Cell(generation: nat, slot: Option<Stored>, registered: bool, woken: bool)

  datatype State = State(
    cell: Cell,
    completers: seq<Completer>,
    front: FrontPc,
    delivered: seq<Stored>,
    answers: seq<Stored>)

  datatype Step =
    | FrontStep
    | GiveUp
    | CompleterStep(i: nat, v: Verdict)

  const INIT := State(Cell(0, None, false, false), [], Idle, [], [])

  /** The slot mutex is held exactly while a completer is between its check and its store. */
  predicate Locked(s: State) {
    exists i :: 0 <= i < |s.completers| && s.completers[i].pc.Storing?
  }

  predicate Enabled(s: State, st: Step) {
    match st
    case FrontStep => s.front.Clearing? || s.front.Registered? ==> !Locked(s)
    case GiveUp => !s.front.Clearing?
    case CompleterStep(i, _) =>
      && i < |s.completers| && !s.completers[i].pc.Used?
      && (s.completers[i].pc.Held? ==> !Locked(s))
  }

  /** `begin`, in two steps, hands out a completer; `poll` registers, then takes a matching slot. */
  function FrontNext(s: State): State {
    match s.front
    case Idle => s.(cell := s.cell.(generation := s.cell.generation + 1), front := Clearing)
    case Clearing =>
      s.(cell := s.cell.(slot := None), completers := s.completers + [Completer(s.cell.generation, Held)],
      front := Polling)
    case Polling => s.(cell := s.cell.(registered := true, woken := false), front := Registered)
    case Registered =>
      if s.cell.slot.Some? && s.cell.slot.value.generation == s.cell.generation
      then s.(cell := s.cell.(slot := None), answers := s.answers + [s.cell.slot.value], front := Idle)
      else s.(front := Pending)
    case Pending => s.(front := Polling)
  }

  /** `complete` or drop: check under the lock, store and unlock, then wake. */
  function CompleterNext(s: State, i: nat, v: Verdict): State
    requires i < |s.completers|
  {
    var a := s.completers[i];
    match a.pc
    case Held =>
      var pc := if s.cell.generation == a.generation && s.cell.slot.None? then Storing(v) else Used;
      s.(completers := s.completers[i := a.(pc := pc)])
    case Storing(out) =>
      var stored := Stored(a.generation, out);
      s.(cell := s.cell.(slot := Some(stored)), completers := s.completers[i := a.(pc := Waking)],
      delivered := s.delivered + [stored])
    case Waking =>
      s.(cell := s.cell.(registered := false, woken := s.cell.woken || s.cell.registered),
      completers := s.completers[i := a.(pc := Used)])
    case Used => s
  }

  function Next(s: State, st: Step): State
    requires Enabled(s, st)
  {
    match st
    case FrontStep => FrontNext(s)
    case GiveUp => s.(front := Idle)
    case CompleterStep(i, v) => CompleterNext(s, i, v)
  }

  // ----- invariant -----

  /** Completers carry distinct generations, none newer than the cell's. */
  predicate Stamps(s: State) {
    && (forall i :: 0 <= i < |s.completers| ==> s.completers[i].generation <= s.cell.generation)
    && (s.front.Clearing? ==> forall i :: 0 <= i < |s.completers| ==> s.completers[i].generation < s.cell.generation)
    && (forall i, j :: 0 <= i < j < |s.completers| ==> s.completers[i].generation < s.completers[j].generation)
    && (forall i, j :: 0 <= i < j < |s.completers| && s.completers[i].pc.Storing? ==> !s.completers[j].pc.Storing?)
  }

  /**
   * Outside `begin`'s window the slot and a completer inside the lock belong to the current generation,
   * and a stored outcome is in the log of what completers delivered.
   */
  predicate Slots(s: State) {
    && (s.cell.slot.Some? ==>
          && s.cell.slot.value in s.delivered
          && (if s.front.Clearing? then s.cell.slot.value.generation < s.cell.generation
              else s.cell.slot.value.generation == s.cell.generation))
    && (forall i :: 0 <= i < |s.completers| && s.completers[i].pc.Storing? ==>
          s.cell.slot.None? && (s.front.Clearing? || s.completers[i].generation == s.cell.generation))
  }

  /** Answers are outcomes a completer of that generation delivered, at most one per generation. */
  predicate Answers(s: State) {
    && (forall i :: 0 <= i < |s.answers| ==>
          s.answers[i] in s.delivered && s.answers[i].generation <= s.cell.generation)
    && (forall i, j :: 0 <= i < j < |s.answers| ==> s.answers[i].generation < s.answers[j].generation)
    && (!s.front.Idle? ==> forall i :: 0 <= i < |s.answers| ==> s.answers[i].generation < s.cell.generation)
  }

  /** The completer of this generation is past its store. */
  predicate PastStore(completers: seq<Completer>, generation: nat) {
    exists i :: 0 <= i < |completers| && completers[i].generation == generation
                && (completers[i].pc.Waking? || completers[i].pc.Used?)
  }

  /** An outcome delivered for a generation is the only one, and its completer is past its store. */
  predicate OneDelivery(s: State) {
    && (forall k :: 0 <= k < |s.delivered| ==> PastStore(s.completers, s.delivered[k].generation))
    && (forall k, l :: 0 <= k < l < |s.delivered| ==> s.delivered[k].generation != s.delivered[l].generation)
  }

  /** A pending front end whose outcome is stored was woken, or is about to be. */
  predicate Wakes(s: State) {
    && (s.front.Pending? ==> s.cell.registered || s.cell.woken)
    && (s.front.Pending? && s.cell.slot.Some? ==>
          s.cell.woken || (s.cell.registered && exists i :: 0 <= i < |s.completers| && s.completers[i].pc.Waking?))
    && (s.front.Registered? ==> s.cell.registered || s.cell.woken)
  }

  predicate Inv(s: State) {
    Stamps(s) && Slots(s) && Answers(s) && OneDelivery(s) && Wakes(s)
  }

  lemma FrontKeepsStamps(s: State)
    requires Stamps(s)
    ensures Stamps(FrontNext(s))
  {
  }

  lemma FrontKeepsSlots(s: State)
    requires Stamps(s) && Slots(s) && Enabled(s, FrontStep)
    ensures Slots(FrontNext(s))
  {
  }

  lemma FrontKeepsAnswers(s: State)
    requires Slots(s) && Answers(s)
    ensures Answers(FrontNext(s))
  {
  }

  lemma FrontKeepsDelivery(s: State)
    requires OneDelivery(s)
    ensures OneDelivery(FrontNext(s))
  {
    var s' := FrontNext(s);
    assert forall i :: 0 <= i < |s.completers| ==> s'.completers[i] == s.completers[i];
    forall k | 0 <= k < |s.delivered|
      ensures PastStore(s'.completers, s.delivered[k].generation)
    {
      assert PastStore(s.completers, s.delivered[k].generation);
    }
  }

  lemma FrontKeepsWakes(s: State)
    requires Slots(s) && Wakes(s)
    ensures Wakes(FrontNext(s))
  {
  }

  lemma CompleterKeepsStamps(s: State, i: nat, v: Verdict)
    requires Stamps(s) && Enabled(s, CompleterStep(i, v))
    ensures Stamps(CompleterNext(s, i, v))
  {
  }

  lemma CompleterKeepsSlots(s: State, i: nat, v: Verdict)
    requires Stamps(s) && Slots(s) && Enabled(s, CompleterStep(i, v))
    ensures Slots(CompleterNext(s, i, v))
  {
  }

  lemma CompleterKeepsAnswers(s: State, i: nat, v: Verdict)
    requires Answers(s) && Enabled(s, CompleterStep(i, v))
    ensures Answers(CompleterNext(s, i, v))
  {
  }

  /** A completer that stores is the first of its generation to do so. */
  lemma CompleterKeepsDelivery(s: State, i: nat, v: Verdict)
    requires Stamps(s) && OneDelivery(s) && Enabled(s, CompleterStep(i, v))
    ensures OneDelivery(CompleterNext(s, i, v))
  {
    var s' := CompleterNext(s, i, v);
    assert forall j :: 0 <= j < |s.completers| && j != i ==> s'.completers[j] == s.completers[j];
    assert s'.completers[i].generation == s.completers[i].generation;
    forall g: nat | PastStore(s.completers, g)
      ensures PastStore(s'.completers, g) && !(s.completers[i].pc.Storing? && s.completers[i].generation == g)
    {
      var j :| 0 <= j < |s.completers| && s.completers[j].generation == g
               && (s.completers[j].pc.Waking? || s.completers[j].pc.Used?);
      assert s'.completers[j].generation == g && (s'.completers[j].pc.Waking? || s'.completers[j].pc.Used?);
    }
    if s.completers[i].pc.Storing? {
      assert s'.completers[i].pc.Waking?;
      assert PastStore(s'.completers, s.completers[i].generation);
    }
  }

  lemma CompleterKeepsWakes(s: State, i: nat, v: Verdict)
    requires Wakes(s) && Enabled(s, CompleterStep(i, v))
    ensures Wakes(CompleterNext(s, i, v))
  {
    var s' := CompleterNext(s, i, v);
    assert s'.completers[i].pc.Waking? || !s.completers[i].pc.Storing?;
    assert forall j :: 0 <= j < |s.completers| && j != i ==> s'.completers[j] == s.completers[j];
  }

  lemma GiveUpKeepsInv(s: State)
    requires Inv(s) && !s.front.Clearing?
    ensures Inv(s.(front := Idle))
  {
  }

  lemma NextKeepsInv(s: State, st: Step)
    requires Inv(s) && Enabled(s, st)
    ensures Inv(Next(s, st))
  {
    hide Stamps, Slots, Answers, OneDelivery, Wakes, FrontNext, CompleterNext;
    match st
    case FrontStep =>
      FrontKeepsStamps(s); FrontKeepsSlots(s); FrontKeepsAnswers(s); FrontKeepsDelivery(s); FrontKeepsWakes(s);
    case CompleterStep(i, v) =>
      CompleterKeepsStamps(s, i, v); CompleterKeepsSlots(s, i, v); CompleterKeepsAnswers(s, i, v);
      CompleterKeepsDelivery(s, i, v); CompleterKeepsWakes(s, i, v);
    case GiveUp => GiveUpKeepsInv(s);
  }

  predicate Run(s: State, steps: seq<Step>, s': State)
    decreases |steps|
  {
    if steps == [] then s' == s
    else Enabled(s, steps[0]) && Run(Next(s, steps[0]), steps[1..], s')
  }

  lemma {:induction false} RunKeepsInv(s: State, steps: seq<Step>, s': State)
    requires Inv(s) && Run(s, steps, s')
    ensures Inv(s')
    decreases |steps|
  {
    hide Inv, Next, Enabled;
    if steps != [] {
      NextKeepsInv(s, steps[0]);
      RunKeepsInv(Next(s, steps[0]), steps[1..], s');
    }
  }

  /**
   * In every run, whatever stale completers do: a poll answers a generation at most once, with the one
   * outcome delivered for it, and answers come in generation order.
   */
  lemma AnswersAreExact(steps: seq<Step>, s: State)
    requires Run(INIT, steps, s)
    ensures forall i, j :: 0 <= i < j < |s.answers| ==> s.answers[i].generation < s.answers[j].generation
    ensures forall i :: 0 <= i < |s.answers| ==> s.answers[i] in s.delivered
    ensures forall k, l :: 0 <= k < l < |s.delivered| ==> s.delivered[k].generation != s.delivered[l].generation
  {
    RunKeepsInv(INIT, steps, s);
  }

  /** A stale completer never fills a newer slot: what the front end can see carries its own generation. */
  lemma SlotIsCurrent(steps: seq<Step>, s: State)
    requires Run(INIT, steps, s) && s.cell.slot.Some? && !s.front.Clearing?
    ensures s.cell.slot.value.generation == s.cell.generation
  {
    RunKeepsInv(INIT, steps, s);
  }

  /** A stored outcome never leaves its poller un-woken: it is registered, and a completer's next step wakes it. */
  lemma StoredIsAnnounced(steps: seq<Step>, s: State)
    requires Run(INIT, steps, s) && s.front.Pending? && s.cell.slot.Some?
    ensures s.cell.woken || (s.cell.registered && exists i :: 0 <= i < |s.completers| && s.completers[i].pc.Waking?)
    ensures forall i, v :: 0 <= i < |s.completers| && s.completers[i].pc.Waking? ==> CompleterNext(s, i, v).cell.woken
  {
    RunKeepsInv(INIT, steps, s);
  }
}
