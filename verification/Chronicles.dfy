/** What the laws say of any state of a run, and of any two states of it. */
module Chronicles {
  import opened Base
  import opened Buffers
  import opened Queues
  import opened Transport
  import opened SendHalves
  import opened Registry
  import opened Invariants
  import opened Laws
  import opened History
  import Drain = RecvProtocol

  // ----- what the laws say of one state -----

  predicate Delivers(resolved: map<Token, Outcome>, tok: Token) {
    tok in resolved && resolved[tok].Delivered?
  }

  /**
   * `bytes` is what an entry found on the wire when it was born, then every byte asked since; and that is every byte
   * ever asked of the stream, unless the transport refused the stream before.
   */
  predicate Accounts(s: Snap, id: Id, l: Ledger, bytes: seq<Byte>) {
    && l.from <= |s.cmds| && bytes == l.base.bytes + SendBytes(s.cmds[l.from..], id)
    && (Refused(s.answers, id) || bytes == SendBytes(s.cmds, id))
  }

  /**
   * Conservation of the send direction. While a half has no terminal, the wire and what is left to send make up
   * every byte asked of it. A delivered Finish put one FIN after exactly those bytes.
   */
  ghost predicate SendsExact(s: Snap) {
    && (forall id: Id :: At(s.wire, id).fins <= 1)
    && (forall id | id in s.tx.halves && s.tx.halves[id].terminal.None? ::
          id in s.led && Accounts(s, id, s.led[id], At(s.wire, id).bytes + Todo(s.tx.halves[id])))
    && (forall i :: 0 <= i < |s.cmds| && s.cmds[i].Finish? && Delivers(s.resolved, s.cmds[i].done) ==>
          var id := s.cmds[i].id;
          && id in s.marks.finals && Accounts(s, id, s.marks.finals[id], At(s.wire, id).bytes)
          && At(s.wire, id).fins == 1)
  }

  /**
   * Every applied reset of a stream somebody was given has been made, once and with its code, and no other reset of
   * that stream was; or it is still to be made; or the transport had refused the stream.
   */
  ghost predicate ResetsExact(s: Snap) {
    && s.marks.origin.Keys == s.handed.send
    && (forall i :: 0 <= i < |s.cmds| && s.cmds[i].Reset? && s.cmds[i].id !in s.marks.undone ==>
          var id, code := s.cmds[i].id, s.cmds[i].code;
          || Refused(s.answers, id)
          || (id in s.tx.halves && s.tx.halves[id].pendingReset == Some(code)
              && id in s.marks.origin && At(s.wire, id).resets == s.marks.origin[id])
          || (id in s.marks.origin && At(s.wire, id).resets == s.marks.origin[id] + [code]))
  }

  /** A handle whose peer stopped it before hand-over was given the first stop code the transport answered. */
  ghost predicate StopsExact(s: Snap) {
    && (forall id | id in s.early.given && s.early.given[id].Some? ::
          s.early.given[id] == FirstStop(s.answers, s.early, id))
    && (forall id: Id :: id in s.past.preset <==> id in s.early.given && s.early.given[id].Some?)
  }

  /** Every send terminal has its cause, and every receive half let go of its reason. */
  ghost predicate EndsExplained(s: Snap) {
    && (forall id | id in s.tx.halves && s.tx.halves[id].terminal.Some? ::
          Reason(s.cmds, id, s.tx.halves[id].terminal.value, s.answers, s.closed))
    && (forall id | id in s.handed.recv :: id in s.live || id in s.sealed || id in s.marks.undone)
    && (forall id | id in s.sealed :: LetGoLaw(id, s.sealed[id], LogAt(s.drains, id), s.cmds))
  }

  ghost predicate Exact(s: Snap) {
    SendsExact(s) && ResetsExact(s) && StopsExact(s) && EndsExplained(s)
  }

  lemma LawsConclude(s: Snap, p: Parking)
    requires Lawful(s) && s.tx.halves.Keys == s.led.Keys && SendOk(s.tx, s.led, p, s.wire, {})
    ensures Exact(s)
  {
    hide Lawful, SendOk;
    SendsConclude(s, p);
    ResetsConclude(s);
    assert StopsExact(s) && EndsExplained(s) by { EndsConclude(s); }
    hide SendsExact, ResetsExact, StopsExact, EndsExplained;
  }

  lemma EndsConclude(s: Snap)
    requires Lawful(s) && s.tx.halves.Keys == s.led.Keys
    ensures StopsExact(s) && EndsExplained(s)
  {
    hide WireLaw, CmdsLaw, AbsentLaw, FinalsLaw, ResetsLaw, UndoneLaw, LetGoLaw, Reason, SendBytes, HasFinish, Caused;
    hide FirstStop;
  }

  lemma ResetsConclude(s: Snap)
    requires Lawful(s)
    ensures ResetsExact(s)
  {
    hide WireLaw, CmdsLaw, EntriesLaw, AbsentLaw, FinalsLaw, RecvLaw, UndoneLaw, EarlyLaw, ResetsOf, Refused;
    forall i | 0 <= i < |s.cmds| && s.cmds[i].Reset? && s.cmds[i].id !in s.marks.undone
      ensures var id, code := s.cmds[i].id, s.cmds[i].code;
              || Refused(s.answers, id)
              || (id in s.tx.halves && s.tx.halves[id].pendingReset == Some(code)
                  && id in s.marks.origin && At(s.wire, id).resets == s.marks.origin[id])
              || (id in s.marks.origin && At(s.wire, id).resets == s.marks.origin[id] + [code])
    {
      assert ResetServedBy(s.cmds[i], s.tx.halves, s.wire, s.marks.origin, s.answers);
      assert s.cmds[i].id in s.handed.send by { TargetsAreHanded(s, i); }
    }
  }

  lemma TargetsAreHanded(s: Snap, i: nat)
    requires Lawful(s) && i < |s.cmds| && SendTarget(s.cmds[i]).Some?
    ensures SendTarget(s.cmds[i]).value in s.handed.send
  {
    hide WireLaw, EntriesLaw, AbsentLaw, FinalsLaw, ResetsLaw, RecvLaw, UndoneLaw, EarlyLaw;
  }

  lemma SendsConclude(s: Snap, p: Parking)
    requires Lawful(s) && s.tx.halves.Keys == s.led.Keys && SendOk(s.tx, s.led, p, s.wire, {})
    ensures SendsExact(s)
  {
    hide SendBytes, HasFinish, Caused, Refused, Todo, Accounts;
    assert forall id: Id :: WireOf(At(s.wire, id), id in s.handed.send, id in s.past.ended) by {
      hide CmdsLaw, EntriesLaw, AbsentLaw, FinalsLaw, ResetsLaw, RecvLaw, UndoneLaw, EarlyLaw, WireOf;
    }
    forall id | id in s.tx.halves && s.tx.halves[id].terminal.None?
      ensures Accounts(s, id, s.led[id], At(s.wire, id).bytes + Todo(s.tx.halves[id]))
    {
      hide Lawful;
      LiveIsExact(s, p, id);
    }
    forall i | 0 <= i < |s.cmds| && s.cmds[i].Finish? && Delivers(s.resolved, s.cmds[i].done)
      ensures var id := s.cmds[i].id;
              && id in s.marks.finals && Accounts(s, id, s.marks.finals[id], At(s.wire, id).bytes)
              && At(s.wire, id).fins == 1
    {
      hide Lawful;
      FinishIsExact(s, i);
    }
    hide Lawful, SendOk, WireOf;
  }

  lemma LiveIsExact(s: Snap, p: Parking, id: Id)
    requires Lawful(s) && s.tx.halves.Keys == s.led.Keys && SendOk(s.tx, s.led, p, s.wire, {})
    requires id in s.tx.halves && s.tx.halves[id].terminal.None?
    ensures Accounts(s, id, s.led[id], At(s.wire, id).bytes + Todo(s.tx.halves[id]))
  {
    hide Lawful, SendBytes, HasFinish, Caused, Refused, Todo, SafeFlow, Shape;
    var l := s.led[id];
    LawOf(s, id);
    assert HalfOk(s.tx.halves[id], l, At(s.wire, id)) by { hide HalfOk, QueueOk, Waits; }
    hide SendOk;
    AccountsFor(s, id, l, l.base.bytes + l.submitted);
  }

  lemma AccountsFor(s: Snap, id: Id, l: Ledger, bytes: seq<Byte>)
    requires l.from <= |s.cmds| && bytes == l.base.bytes + SendBytes(s.cmds[l.from..], id)
    requires !Refused(s.answers, id) ==> l.base.bytes == [] && SendBytes(s.cmds[..l.from], id) == []
    ensures Accounts(s, id, l, bytes)
  {
    hide SendBytes, Refused;
    assert s.cmds == s.cmds[..l.from] + s.cmds[l.from..];
    SendBytesSplit(s.cmds[..l.from], s.cmds[l.from..], id);
  }

  lemma FinishIsExact(s: Snap, i: nat)
    requires Lawful(s) && i < |s.cmds| && s.cmds[i].Finish? && Delivers(s.resolved, s.cmds[i].done)
    ensures var id := s.cmds[i].id;
            && id in s.marks.finals && Accounts(s, id, s.marks.finals[id], At(s.wire, id).bytes)
            && At(s.wire, id).fins == 1
  {
    hide SendBytes, Refused;
    var id := s.cmds[i].id;
    assert id in s.marks.finals && FinalLaw(s.cmds, id, At(s.wire, id), s.marks.finals[id], s.answers) by {
      hide WireLaw, CmdsLaw, EntriesLaw, AbsentLaw, ResetsLaw, RecvLaw, UndoneLaw, EarlyLaw, FinalLaw;
    }
    hide Lawful;
    var l := s.marks.finals[id];
    AccountsFor(s, id, l, At(s.wire, id).bytes);
  }

  // ----- whole runs -----

  /** The states a run passed through, in order: each is an extension of every earlier one, and in order itself. */
  ghost predicate Chronicle(trace: seq<Snap>) {
    && (forall i, j :: 0 <= i <= j < |trace| ==> Grows(trace[i], trace[j]))
    && (forall i :: 0 <= i < |trace| ==>
          Lawful(trace[i]) && Exact(trace[i]) && QueueOk(trace[i].tx.run, trace[i].tx.runSet) && |trace[i].closes| <= 1)
  }

  lemma ChronicleOn(trace: seq<Snap>, s: Snap)
    requires Chronicle(trace) && trace != [] && Grows(trace[|trace| - 1], s) && Grows(s, s)
    requires Lawful(s) && Exact(s) && QueueOk(s.tx.run, s.tx.runSet) && |s.closes| <= 1
    ensures Chronicle(trace + [s])
  {
    hide Grows, QueueOk, Lawful, Exact;
    forall i | 0 <= i < |trace|
      ensures Grows(trace[i], s)
    {
      GrowsTrans(trace[i], trace[|trace| - 1], s);
    }
  }

  /**
   * An entry found in two states of a run, in the second as old as the first, was there all the time in between, and
   * a terminal it had in the first it kept in every state.
   */
  lemma TerminalIsSticky(trace: seq<Snap>, i: nat, k: nat, j: nat, id: Id)
    requires Chronicle(trace) && i <= k <= j < |trace|
    requires id in trace[j].tx.halves && id in trace[j].led && trace[j].led[id].birth < trace[i].births
    ensures id in trace[i].tx.halves && id in trace[k].tx.halves
    ensures trace[i].tx.halves[id].terminal.Some? ==>
              trace[k].tx.halves[id].terminal == trace[j].tx.halves[id].terminal == trace[i].tx.halves[id].terminal
  {
    hide Lawful, Exact, QueueOk, WireGrows, AnswersGrow, TokensGrow, QueueGrows, ResetsGrow, ReadsGrow, EarlyGrows;
    hide MarksGrow, Extends;
    assert Grows(trace[i], trace[k]) && Grows(trace[k], trace[j]) && Grows(trace[i], trace[j]);
    hide Chronicle;
  }

  /** Bounded waiting over any stretch of a run. */
  lemma WaitingIsBounded(trace: seq<Snap>, i: nat, j: nat, p: nat) returns (k: nat)
    requires Chronicle(trace) && i <= j < |trace| && p < |trace[i].tx.run|
    requires trace[i].tx.steps <= trace[j].tx.steps && Pops(trace[j].tx.steps[|trace[i].tx.steps|..]) > p
    ensures var since := trace[j].tx.steps[|trace[i].tx.steps|..];
            k < |since| && since[k].id == trace[i].tx.run[p] && !since[k].Marked? && Pops(since[..k]) <= p
  {
    hide Lawful, Exact, WireGrows, AnswersGrow, TokensGrow, HalvesGrow, ResetsGrow, ReadsGrow, EarlyGrows, MarksGrow;
    assert Grows(trace[i], trace[j]);
    k := BoundedWaiting(trace[i].tx, trace[j].tx.steps[|trace[i].tx.steps|..], p);
  }

  /** A reset pending in one state of a run is pending in every later one, or was made, and made once. */
  lemma ResetIsMadeOnce(trace: seq<Snap>, i: nat, j: nat, id: Id)
    requires Chronicle(trace) && i <= j < |trace| && id in trace[i].tx.halves
    requires trace[i].tx.halves[id].pendingReset.Some? && id in trace[i].handed.send && id !in trace[j].marks.undone
    ensures var code, a, b := trace[i].tx.halves[id].pendingReset.value, trace[i], trace[j];
            || (id in b.tx.halves && b.tx.halves[id].pendingReset == Some(code)
                && At(b.wire, id).resets == At(a.wire, id).resets)
            || At(b.wire, id).resets == At(a.wire, id).resets + [code]
  {
    hide QueueOk, Exact, Grows, Lawful;
    var a, b := trace[i], trace[j];
    assert Grows(a, b) && Lawful(a) && Lawful(b);
    hide Chronicle;
    UndoneStays(a, b, id);
    ResetsSoFar(a, id);
    ResetsSoFar(b, id);
    OriginStays(a, b, id);
    PendingStays(a, b, id);
  }

  lemma PendingStays(a: Snap, b: Snap, id: Id)
    requires Grows(a, b) && id in a.tx.halves && a.tx.halves[id].pendingReset.Some?
    ensures || (&& id in b.tx.halves && b.tx.halves[id].pendingReset == a.tx.halves[id].pendingReset
                && At(b.wire, id).resets == At(a.wire, id).resets)
            || At(a.wire, id).resets + [a.tx.halves[id].pendingReset.value] <= At(b.wire, id).resets
  {
    hide WireGrows, AnswersGrow, TokensGrow, HalvesGrow, ReadsGrow, EarlyGrows, MarksGrow, Extends, QueueGrows;
  }

  lemma OriginStays(a: Snap, b: Snap, id: Id)
    requires Grows(a, b) && id in a.marks.origin
    ensures id in b.marks.origin && b.marks.origin[id] == a.marks.origin[id]
  {
    hide WireGrows, AnswersGrow, TokensGrow, HalvesGrow, ResetsGrow, ReadsGrow, EarlyGrows, Extends, QueueGrows;
  }

  /** Since hand-over a wire carries no reset or exactly one; none while one is pending. */
  lemma ResetsSoFar(s: Snap, id: Id)
    requires Lawful(s) && id in s.handed.send && id !in s.marks.undone
    ensures id in s.marks.origin
    ensures id in s.tx.halves && s.tx.halves[id].pendingReset.Some? ==> At(s.wire, id).resets == s.marks.origin[id]
    ensures s.marks.origin[id] <= At(s.wire, id).resets && |At(s.wire, id).resets| <= |s.marks.origin[id]| + 1
  {
    hide WireLaw, CmdsLaw, EntriesLaw, AbsentLaw, FinalsLaw, RecvLaw, UndoneLaw, EarlyLaw, ResetServedBy;
    assert ResetsOf(s.cmds, id, At(s.wire, id).resets, s.marks.origin[id]);
  }

  lemma UndoneStays(a: Snap, b: Snap, id: Id)
    requires Grows(a, b) && id !in b.marks.undone
    ensures id !in a.marks.undone && a.handed.send <= b.handed.send
  {
    hide WireGrows, AnswersGrow, TokensGrow, HalvesGrow, ResetsGrow, ReadsGrow, EarlyGrows, Extends, QueueGrows;
  }

  /**
   * A stop code seen in one state of a run, for a stream nobody had yet, is what its handle is given if it is handed
   * over by a later one, unless the stream was shut down in between.
   */
  lemma EarlyStopIsGiven(trace: seq<Snap>, i: nat, j: nat, id: Id)
    requires Chronicle(trace) && i <= j < |trace| && id in trace[i].early.seen
    ensures || (id in trace[j].early.given ==> trace[j].early.given[id] == Some(Stopped(trace[i].early.seen[id])))
            || TornSince(trace[i].shutdowns, trace[j].shutdowns, id)
  {
    hide QueueOk, Exact;
    var a, b := trace[i], trace[j];
    assert Grows(a, b) && Lawful(b) by { hide Grows, Lawful; }
    hide Chronicle;
    assert id in b.early.given ==> b.early.given[id] == SeenEnd(b.early.seen, id) by {
      hide Grows, WireLaw, CmdsLaw, EntriesLaw, AbsentLaw, FinalsLaw, ResetsLaw, RecvLaw, UndoneLaw;
    }
    hide Lawful, WireGrows, AnswersGrow, TokensGrow, HalvesGrow, ResetsGrow, ReadsGrow, MarksGrow, Extends, QueueGrows;
  }
}
