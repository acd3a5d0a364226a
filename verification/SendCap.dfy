/**
 * The aggregate send-byte cap (`SendAccounting`, `SendBytesPermit`) shared by every sender of a
 * connection, one atomic operation per step, in every interleaving.
 */
module SendCap {
  import opened Base

  /**
   * A sender inside `poll_ready`: outside; about to try, to register its waker, to try again;
   * admitted and about to unregister; or parked.
   */
  datatype SenderPc =
    | Outside
    | TryFirst(bytes: nat)
    | Register(bytes: nat)
    | TryAgain(bytes: nat)
    | Unregister
    | Parked(bytes: nat)

  /** A dropped permit whose bytes are given back: about to drain the waiters, or about to wake those it took. */
  datatype Releaser = Draining | Waking(ids: set<Id>)

  datatype State = State(
    resident: nat,
    permits: seq<nat>,
    releasing: seq<Releaser>,
    waiters: set<Id>,
    woken: set<Id>,
    senders: map<Id, SenderPc>)

  datatype Step =
    | StartSend(id: Id, bytes: nat)
    | SenderStep(id: Id)
    | Repoll(id: Id)
    | DropSender(id: Id)
    | DropPermit(i: nat)
    | ReleaserStep(i: nat)

  const INIT := State(0, [], [], {}, {}, map[])

  function At(s: State, id: Id): SenderPc {
    if id in s.senders then s.senders[id] else Outside
  }

  function Sum(permits: seq<nat>): nat {
    if permits == [] then 0 else permits[0] + Sum(permits[1..])
  }

  function Remove<T>(q: seq<T>, i: nat): seq<T>
    requires i < |q|
  {
    q[..i] + q[i + 1..]
  }

  /** `try_reserve`: fits under the cap, or nothing is resident, or there is nothing to reserve. */
  predicate Admits(cap: Option<nat>, resident: nat, bytes: nat) {
    cap.None? || bytes == 0 || resident + bytes <= cap.value || resident == 0
  }

  predicate Enabled(s: State, st: Step) {
    match st
    case StartSend(id, _) => At(s, id).Outside?
    case SenderStep(id) => !At(s, id).Outside? && !At(s, id).Parked?
    case Repoll(id) => At(s, id).Parked?
    case DropSender(id) => At(s, id).Parked?
    case DropPermit(i) => i < |s.permits|
    case ReleaserStep(i) => i < |s.releasing|
  }

  function Move(s: State, id: Id, pc: SenderPc): State {
    s.(senders := s.senders[id := pc])
  }

  function TryReserve(cap: Option<nat>, s: State, id: Id, bytes: nat, otherwise: SenderPc): State {
    if Admits(cap, s.resident, bytes)
    then Move(s.(resident := s.resident + bytes, permits := s.permits + [bytes]), id, Unregister)
    else Move(s, id, otherwise)
  }

  function SenderNext(cap: Option<nat>, s: State, id: Id): State {
    match At(s, id)
    case TryFirst(n) => TryReserve(cap, s, id, n, Register(n))
    case Register(n) => Move(s.(waiters := s.waiters + {id}), id, TryAgain(n))
    case TryAgain(n) => TryReserve(cap, s, id, n, Parked(n))
    case Unregister => Move(s.(waiters := s.waiters - {id}), id, Outside)
    case _ => s
  }

  /** `release`: give the bytes back; then drain every waiter; then wake them. */
  function ReleaserNext(s: State, i: nat): State
    requires i < |s.releasing|
  {
    match s.releasing[i]
    case Draining => s.(waiters := {}, releasing := s.releasing[i := Waking(s.waiters)])
    case Waking(ids) => s.(woken := s.woken + ids, releasing := Remove(s.releasing, i))
  }

  function Next(cap: Option<nat>, s: State, st: Step): State
    requires Enabled(s, st)
  {
    match st
    case StartSend(id, bytes) => Move(s, id, TryFirst(bytes))
    case SenderStep(id) => SenderNext(cap, s, id)
    case Repoll(id) => Move(s.(woken := s.woken - {id}), id, TryFirst(At(s, id).bytes))
    case DropSender(id) => Move(s.(waiters := s.waiters - {id}), id, Outside)
    case DropPermit(i) =>
      s.(resident := if s.resident >= s.permits[i] then s.resident - s.permits[i] else 0,
      permits := Remove(s.permits, i), releasing := s.releasing + [Draining])
    case ReleaserStep(i) => ReleaserNext(s, i)
  }

  // ----- residency -----

  /** Residency is exactly what live permits hold, and at most the cap or one oversize unit. */
  predicate Residency(cap: Option<nat>, s: State) {
    && s.resident == Sum(s.permits)
    && (cap.Some? ==> s.resident <= cap.value || s.resident in s.permits)
  }

  lemma {:induction false} SumAppend(q: seq<nat>, n: nat)
    ensures Sum(q + [n]) == Sum(q) + n
  {
    if q == [] {
      assert q + [n] == [n] && [n][1..] == [];
    } else {
      assert (q + [n])[1..] == q[1..] + [n];
      SumAppend(q[1..], n);
    }
  }

  lemma {:induction false} SumRemove(q: seq<nat>, i: nat)
    requires i < |q|
    ensures Sum(q) == q[i] + Sum(Remove(q, i))
  {
    if i == 0 {
      assert Remove(q, 0) == q[1..];
    } else {
      assert Remove(q, i)[1..] == Remove(q[1..], i - 1);
      SumRemove(q[1..], i - 1);
    }
  }

  lemma {:induction false} MemberBelowSum(q: seq<nat>, i: nat)
    requires i < |q|
    ensures q[i] <= Sum(q)
  {
    SumRemove(q, i);
  }

  lemma ReserveKeepsResidency(cap: Option<nat>, s: State, id: Id, bytes: nat, otherwise: SenderPc)
    requires Residency(cap, s)
    ensures Residency(cap, TryReserve(cap, s, id, bytes, otherwise))
  {
    SumAppend(s.permits, bytes);
    if s.resident in s.permits { assert s.resident in s.permits + [bytes]; }
  }

  /** Dropping the oversize unit leaves nothing resident; dropping another permit leaves it alone. */
  lemma DropKeepsResidency(cap: Option<nat>, s: State, i: nat)
    requires Residency(cap, s) && i < |s.permits|
    ensures Residency(cap, Next(cap, s, DropPermit(i)))
  {
    SumRemove(s.permits, i);
    var rest := Remove(s.permits, i);
    if cap.Some? && s.resident > cap.value {
      var k :| 0 <= k < |s.permits| && s.permits[k] == s.resident;
      if k != i {
        var k' := if k < i then k else k - 1;
        assert rest[k'] == s.resident;
        MemberBelowSum(rest, k');
      }
    }
  }

  // ----- wakeups -----

  /** Someone will wake `id`: it is woken, taken by a releaser, or a waiter with a permit or a drain still to come. */
  predicate Covered(s: State, id: Id) {
    || id in s.woken
    || Took(s.releasing, id)
    || (id in s.waiters && (s.permits != [] || Drains(s.releasing)))
  }

  predicate Took(releasing: seq<Releaser>, id: Id) {
    exists i :: 0 <= i < |releasing| && releasing[i].Waking? && id in releasing[i].ids
  }

  predicate Drains(releasing: seq<Releaser>) {
    exists i :: 0 <= i < |releasing| && releasing[i].Draining?
  }

  /** Every parked sender is covered, and one about to park is registered or already taken up. */
  ghost predicate Wakeups(s: State) {
    && (forall id | id in s.senders && s.senders[id].Parked? :: Covered(s, id))
    && (forall id | id in s.senders && s.senders[id].TryAgain? ::
          id in s.waiters || id in s.woken || Took(s.releasing, id))
  }

  lemma SenderKeepsWakeups(cap: Option<nat>, s: State, id: Id)
    requires Residency(cap, s) && Wakeups(s)
    ensures Wakeups(SenderNext(cap, s, id))
  {
    hide Took, Drains;
    var s' := SenderNext(cap, s, id);
    if At(s, id).TryAgain? && !Admits(cap, s.resident, At(s, id).bytes) {
      assert s.permits != [];
    }
    assert s'.permits == s.permits || s'.permits != [];
  }

  lemma RepollKeepsWakeups(s: State, id: Id, bytes: nat)
    requires Wakeups(s)
    ensures Wakeups(Move(s.(woken := s.woken - {id}), id, TryFirst(bytes)))
  {
    hide Took, Drains;
  }

  lemma LeaveKeepsWakeups(s: State, id: Id)
    requires Wakeups(s)
    ensures Wakeups(Move(s.(waiters := s.waiters - {id}), id, Outside))
  {
    hide Took, Drains;
  }

  lemma DropKeepsWakeups(cap: Option<nat>, s: State, i: nat)
    requires Wakeups(s) && i < |s.permits|
    ensures Wakeups(Next(cap, s, DropPermit(i)))
  {
    var s' := Next(cap, s, DropPermit(i));
    assert s'.releasing[|s.releasing|].Draining?;
    assert forall j :: 0 <= j < |s.releasing| ==> s'.releasing[j] == s.releasing[j];
    TookGrows(s.releasing, s'.releasing);
  }

  lemma TookGrows(a: seq<Releaser>, b: seq<Releaser>)
    requires |a| <= |b| && forall j :: 0 <= j < |a| && a[j].Waking? ==> b[j] == a[j]
    ensures forall id | Took(a, id) :: Took(b, id)
  {
  }

  lemma ReleaserKeepsWakeups(s: State, i: nat)
    requires Wakeups(s) && i < |s.releasing|
    ensures Wakeups(ReleaserNext(s, i))
  {
    var s' := ReleaserNext(s, i);
    match s.releasing[i]
    case Draining =>
      TookGrows(s.releasing, s'.releasing);
      assert s'.releasing[i] == Waking(s.waiters);
    case Waking(ids) =>
      RemoveKeepsOthers(s.releasing, i);
  }

  lemma RemoveKeepsOthers(q: seq<Releaser>, i: nat)
    requires i < |q| && q[i].Waking?
    ensures forall id | Took(q, id) :: id in q[i].ids || Took(Remove(q, i), id)
    ensures Drains(q) ==> Drains(Remove(q, i))
  {
    var r := Remove(q, i);
    assert forall j :: 0 <= j < |q| && j != i ==> r[if j < i then j else j - 1] == q[j];
  }

  // ----- every run -----

  ghost predicate Inv(cap: Option<nat>, s: State) {
    Residency(cap, s) && Wakeups(s)
  }

  lemma SenderKeepsResidency(cap: Option<nat>, s: State, id: Id)
    requires Residency(cap, s)
    ensures Residency(cap, SenderNext(cap, s, id))
  {
    hide TryReserve;
    match At(s, id)
    case TryFirst(n) => ReserveKeepsResidency(cap, s, id, n, Register(n));
    case TryAgain(n) => ReserveKeepsResidency(cap, s, id, n, Parked(n));
    case _ =>
  }

  lemma NextKeepsInv(cap: Option<nat>, s: State, st: Step)
    requires Inv(cap, s) && Enabled(s, st)
    ensures Inv(cap, Next(cap, s, st))
  {
    hide Wakeups, Residency, SenderNext, ReleaserNext;
    match st
    case StartSend(id, bytes) =>
      StartKeepsInv(cap, s, id, bytes);
    case SenderStep(id) =>
      SenderKeepsResidency(cap, s, id);
      SenderKeepsWakeups(cap, s, id);
    case Repoll(id) =>
      RepollKeepsWakeups(s, id, At(s, id).bytes);
      SameResidency(cap, s, Next(cap, s, st));
    case DropSender(id) =>
      LeaveKeepsWakeups(s, id);
      SameResidency(cap, s, Next(cap, s, st));
    case DropPermit(i) =>
      DropKeepsResidency(cap, s, i);
      DropKeepsWakeups(cap, s, i);
    case ReleaserStep(i) =>
      ReleaserKeepsWakeups(s, i);
      ReleaserKeepsResidency(cap, s, i);
  }

  lemma StartKeepsInv(cap: Option<nat>, s: State, id: Id, bytes: nat)
    requires Inv(cap, s)
    ensures Inv(cap, Move(s, id, TryFirst(bytes)))
  {
    hide Took, Drains;
  }

  lemma SameResidency(cap: Option<nat>, s: State, s': State)
    requires Residency(cap, s) && s'.resident == s.resident && s'.permits == s.permits
    ensures Residency(cap, s')
  {
  }

  lemma ReleaserKeepsResidency(cap: Option<nat>, s: State, i: nat)
    requires Residency(cap, s) && i < |s.releasing|
    ensures Residency(cap, ReleaserNext(s, i))
  {
  }

  predicate Run(cap: Option<nat>, s: State, steps: seq<Step>, s': State)
    decreases |steps|
  {
    if steps == [] then s' == s
    else Enabled(s, steps[0]) && Run(cap, Next(cap, s, steps[0]), steps[1..], s')
  }

  lemma {:induction false} RunKeepsInv(cap: Option<nat>, s: State, steps: seq<Step>, s': State)
    requires Inv(cap, s) && Run(cap, s, steps, s')
    ensures Inv(cap, s')
    decreases |steps|
  {
    hide Inv, Next, Enabled;
    if steps != [] {
      NextKeepsInv(cap, s, steps[0]);
      RunKeepsInv(cap, Next(cap, s, steps[0]), steps[1..], s');
    }
  }

  /** Residency is what live permits hold, and never more than the cap or one oversize unit. */
  lemma CapHolds(cap: Option<nat>, steps: seq<Step>, s: State)
    requires Run(cap, INIT, steps, s)
    ensures s.resident == Sum(s.permits)
    ensures cap.Some? ==> s.resident <= cap.value || s.resident in s.permits
    ensures s.permits == [] ==> s.resident == 0
  {
    RunKeepsInv(cap, INIT, steps, s);
  }

  /**
   * Senders never deadlock: a parked sender that nobody woke is in the hands of a release in progress, or
   * is registered while some live permit, or a release not yet drained, is bound to wake it.
   */
  lemma ParkedIsCovered(cap: Option<nat>, steps: seq<Step>, s: State, id: Id)
    requires Run(cap, INIT, steps, s) && At(s, id).Parked? && id !in s.woken
    ensures Took(s.releasing, id) || (id in s.waiters && (s.permits != [] || Drains(s.releasing)))
  {
    RunKeepsInv(cap, INIT, steps, s);
  }

  /** An unlimited pool never parks anyone. */
  lemma {:induction false} UnlimitedNeverParks(s: State, steps: seq<Step>, s': State)
    requires Run(None, s, steps, s')
    requires forall id | id in s.senders ::
               !s.senders[id].Parked? && !s.senders[id].Register? && !s.senders[id].TryAgain?
    ensures forall id | id in s'.senders :: !s'.senders[id].Parked?
    decreases |steps|
  {
    if steps != [] {
      UnlimitedNeverParks(Next(None, s, steps[0]), steps[1..], s');
    }
  }
}
