/**
 * The sticky terminal cell (`TerminalCell`): any number of writers against one poller that looks, registers
 * its waker and looks again, one atomic operation per step, in every interleaving.
 */
module CellProtocol {
  import opened Base

  /** A writer about to store, about to wake after winning, or done with its verdict. */
  datatype Writer = Storing(value: nat) | Waking(value: nat) | Finished(value: nat, won: bool)

  /** The poller: outside `poll`; about to register; about to look again; or pending. */
  datatype PollerPc = Outside | Register | LookAgain | Pending

  datatype State = State(
    value: Option<nat>,
    writers: seq<Writer>,
    registered: bool,
    woken: bool,
    p: PollerPc,
    answers: seq<nat>)

  datatype Step = NewWriter(value: nat) | WriterStep(i: nat) | PollerStep

  const INIT := State(None, [], false, false, Outside, [])

  predicate Enabled(s: State, st: Step) {
    st.WriterStep? ==> st.i < |s.writers| && !s.writers[st.i].Finished?
  }

  /** `set`: store into an empty slot and then wake; a full slot is left alone and wakes nobody. */
  function WriterNext(s: State, i: nat): State
    requires i < |s.writers|
  {
    match s.writers[i]
    case Storing(v) =>
      if s.value.None? then s.(value := Some(v), writers := s.writers[i := Waking(v)])
      else s.(writers := s.writers[i := Finished(v, false)])
    case Waking(v) =>
      s.(registered := false, woken := s.woken || s.registered, writers := s.writers[i := Finished(v, true)])
    case Finished(_, _) => s
  }

  /** `poll`: look, register, look again; a stored value is answered by every later poll too. */
  function PollerNext(s: State): State {
    match s.p
    case Outside => if s.value.Some? then s.(answers := s.answers + [s.value.value]) else s.(p := Register)
    case Register => s.(registered := true, woken := false, p := LookAgain)
    case LookAgain =>
      if s.value.Some? then s.(answers := s.answers + [s.value.value], p := Outside) else s.(p := Pending)
    case Pending => s.(p := Outside)
  }

  function Next(s: State, st: Step): State
    requires Enabled(s, st)
  {
    match st
    case NewWriter(v) => s.(writers := s.writers + [Storing(v)])
    case WriterStep(i) => WriterNext(s, i)
    case PollerStep => PollerNext(s)
  }

  predicate Won(w: Writer) {
    w.Waking? || (w.Finished? && w.won)
  }

  /** Exactly one writer wins once there is a value, the value is its own, and the others know they lost. */
  predicate FirstWins(s: State) {
    && (s.value.None? ==> forall i :: 0 <= i < |s.writers| ==> s.writers[i].Storing?)
    && (s.value.Some? ==> exists i :: 0 <= i < |s.writers| && Won(s.writers[i]))
    && (forall i :: 0 <= i < |s.writers| && Won(s.writers[i]) ==> s.value == Some(s.writers[i].value))
    && (forall i, j :: 0 <= i < j < |s.writers| && Won(s.writers[i]) ==> !Won(s.writers[j]))
  }

  predicate Sticky(s: State) {
    forall k :: 0 <= k < |s.answers| ==> s.value == Some(s.answers[k])
  }

  /** A pending poller is registered or woken; with a value stored it was woken or its winner is about to wake it. */
  predicate Announced(s: State) {
    && (s.p.LookAgain? || s.p.Pending? ==> s.registered || s.woken)
    && (s.p.Pending? && s.value.Some? ==>
          s.woken || exists i :: 0 <= i < |s.writers| && s.writers[i].Waking?)
  }

  predicate Inv(s: State) {
    FirstWins(s) && Sticky(s) && Announced(s)
  }

  lemma WriterKeepsInv(s: State, i: nat)
    requires Inv(s) && i < |s.writers|
    ensures Inv(WriterNext(s, i))
  {
    var s' := WriterNext(s, i);
    assert forall j :: 0 <= j < |s.writers| && j != i ==> s'.writers[j] == s.writers[j];
    assert s'.value.Some? && s.value.None? ==> Won(s'.writers[i]) && s'.writers[i].Waking?;
    if s.value.Some? {
      var k :| 0 <= k < |s.writers| && Won(s.writers[k]);
      assert Won(s'.writers[k]);
    }
  }

  lemma NextKeepsInv(s: State, st: Step)
    requires Inv(s) && Enabled(s, st)
    ensures Inv(Next(s, st))
  {
    match st
    case WriterStep(i) => WriterKeepsInv(s, i);
    case NewWriter(v) =>
      var s' := Next(s, st);
      assert forall j :: 0 <= j < |s.writers| ==> s'.writers[j] == s.writers[j];
    case PollerStep =>
  }

  predicate Run(s: State, steps: seq<Step>, s': State)
    decreases |steps|
  {
    if steps == [] then s' == s
    else Enabled(s, steps[0]) && Run(Next(s, steps[0]), steps[1..], s')
  }

  lemma {:induction false} RunKeepsInv(s: State, steps: seq<Step>, s': State)
    requires Inv(s) && Run(s, steps, s')
    ensures Inv(s')
    ensures s.value.Some? ==> s'.value == s.value
    decreases |steps|
  {
    hide Inv, Enabled;
    if steps != [] {
      NextKeepsInv(s, steps[0]);
      RunKeepsInv(Next(s, steps[0]), steps[1..], s');
    }
  }

  /** First writer wins: one `set` succeeds, and every answer ever given is its value. */
  lemma OneWinner(steps: seq<Step>, s: State)
    requires Run(INIT, steps, s)
    ensures forall k :: 0 <= k < |s.answers| ==> s.value == Some(s.answers[k])
    ensures forall i, j :: 0 <= i < j < |s.writers| && Won(s.writers[i]) ==> !Won(s.writers[j])
    ensures forall i :: 0 <= i < |s.writers| && Won(s.writers[i]) ==> s.value == Some(s.writers[i].value)
  {
    RunKeepsInv(INIT, steps, s);
  }

  /** No pending poller misses the value: it was woken, or it is registered and the winner's next step wakes it. */
  lemma NeverMissed(steps: seq<Step>, s: State)
    requires Run(INIT, steps, s) && s.p.Pending? && s.value.Some?
    ensures s.woken || (s.registered && exists i :: 0 <= i < |s.writers| && s.writers[i].Waking?)
    ensures forall i :: 0 <= i < |s.writers| && s.writers[i].Waking? ==> WriterNext(s, i).woken
  {
    RunKeepsInv(INIT, steps, s);
  }
}
