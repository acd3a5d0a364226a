/** The connection worker (quiche-h3/src/driver.rs, `QuicheDriver`). */
module Worker {
  import opened Base
  import opened Queues
  import opened Buffers
  import opened Transport
  import opened SendHalves
  import opened Registry
  import Drain = RecvProtocol
  import opened Invariants
  import opened Laws
  import opened History
  import opened Chronicles

  const READ_BUDGET: nat := 32
  const DISCOVERY_BUDGET: nat := 32
  const RECV_RESUME_BUDGET: nat := 16
  const READABLE_BUDGET: nat := 32
  const ADMIT_BUDGET: nat := 32
  const PROMOTE_BUDGET: nat := 32
  const CHUNK_BUDGET: nat := 16
  const CMD_BUDGET: nat := 64
  const WRITABLE_BUDGET: nat := 32
  const WRITE_BUDGET: nat := 32
  const OPEN_BUDGET: nat := 32

  datatype TurnOutcome = Requeue | Park | Drop
  datatype HeldFlush = Complete | More | Blocked | Terminal

  datatype AdmitResult = Admitted | NoRoom | TornDown

  /** How a wait for data ended. */
  datatype Wake = Draining | Yielded | GotCommand | Flushing | LastHandle | Asleep

  class Driver {
    const isServer: bool

    var tx: SendSide
    var rx: RecvSide
    var adm: Admission
    var io: Ingress
    var handed: Handed
    /** Streams admitted with a retained stop, and send halves whose end was applied; kept for the proof only. */
    var past: Past
    /** Completion channels resolved so far, with their outcome. */
    var resolved: map<Token, Outcome>

    var connTerminal: Option<ConnTerminal>
    var needsIteration: bool
    var readBudget: nat
    var acceptBidiResume: bool
    var acceptUniResume: bool
    var nextBidi: Id
    var nextUni: Id
    var closing: Closing
    /** The process_reads half of this iteration already ran the pump. */
    var readsRan: bool
    /** Open replies whose poller is gone. */
    var cancelled: set<Token>
    /** The command channel was closed at connection close. */
    var ingressClosed: bool
    var acceptTerminalBidi: Option<ConnTerminal>
    var acceptTerminalUni: Option<ConnTerminal>

    /** Per retained send entry: what was submitted on it. */
    ghost var led: map<Id, Ledger>
    /** Send entries created so far, and the state a run is measured against. */
    ghost var births: nat
    ghost var base: Snap
    ghost var parking: Parking
    /** Receive halves the worker has let go of. */
    ghost var sealed: map<Id, RecvHalf>
    ghost var idle: Idle
    ghost var early: Early
    /** Where each unresolved token is; tokens dropped because nobody awaits them. */
    ghost var home: map<Token, Place>
    ghost var abandoned: set<Token>
    /** Close frames in the order their commands were applied. */
    ghost var applied: seq<CloseFrame>
    /** Answers of the accept channels, in order, and what was done to each receive half. */
    ghost var reserves: seq<SlotAnswer>
    ghost var drains: map<Id, seq<Drain.Act>>
    /** Commands submitted, and those applied. */
    ghost var asked: seq<Command>
    ghost var cmds: seq<Command>
    ghost var marks: Marks
    /** Waiting streams taken out of their place right now. */
    ghost var hand: set<Id>

    constructor (t: QuicConn, server: bool)
      requires t.wire == map[] && t.taken == map[] && t.shutdowns == [] && t.closes == [] && t.surfaced == {}
      requires t.answers == Answers(map[], {}, map[], [])
      ensures Valid(t) && isServer == server && !needsIteration && !readsRan && Settled(t)
      ensures io.nextTok == 0 && handed == Handed({}, {}) && !ingressClosed && !closing.lastHandle
      ensures connTerminal.None? && acceptTerminalBidi.None? && acceptTerminalUni.None?
    {
      hide SendOk, Runs, TokOk, CrossOk, AdmitOk, RecvOk, DrainsOk, EarlyOk, DirOk, IdsOk, CmdsOk;
      isServer := server;
      tx, rx, adm, io, handed := NO_SENDS, NO_RECVS, NO_PEERS, NO_INPUT, NOBODY;
      resolved, cancelled, ingressClosed := map[], {}, false;
      connTerminal, acceptTerminalBidi, acceptTerminalUni := None, None, None;
      needsIteration, readBudget, readsRan := false, 0, false;
      acceptBidiResume, acceptUniResume := false, false;
      nextBidi, nextUni := if server then 1 else 0, if server then 3 else 2;
      closing := Closing(None, false, None, None, false, false);
      led, births, parking, past := map[], 0, Parking({}, {}, {}), Past({}, {});
      sealed, idle, early := map[], Idle({}, {}, {}), NO_STOPS;
      asked, cmds, marks, hand := [], [], NO_MARKS, {};
      home, abandoned, applied := map[], {}, [];
      reserves, drains := [], map[];
      base := Start(t.closes, t.sent);
      assert NO_INPUT.inbox + NO_INPUT.cmdRx == [] && NO_RECVS.halves.Keys == {};
      StartRuns(t.closes, t.sent);
      StartSend();
      StartTokens();
      StartRecv(server);
      StartDrains();
      StartIds(server, if server then 1 else 0, if server then 3 else 2);
    }

    /** The receive side, admission and every shutdown made so far are in order. */
    ghost predicate Rest(t: QuicConn, rexc: set<Id>)
      reads `rx, `adm, `handed, `sealed, `idle, `drains, `early, `hand, `nextBidi, `nextUni, `connTerminal
      reads t`taken, t`shutdowns
    {
      && AdmitOk(adm, rx.halves.Keys, handed, isServer)
      && RecvOk(rx, sealed, idle, handed, t.taken, rexc)
      && DrainsOk(drains, rx.halves, sealed, idle.full, handed.recv, rexc, connTerminal.Some?)
      && EarlyOk(adm, early, handed, hand)
      && DirOk(t.shutdowns, handed, isServer)
      && IdsOk(nextBidi, nextUni, handed, isServer)
    }

    /** The worker's invariant; `exc` and `rexc` are the send and receive halves being served right now. */
    ghost predicate Inv(t: QuicConn, exc: set<Id>, rexc: set<Id>)
      reads `tx, `rx, `adm, `io, `handed, `resolved, `led, `parking, `past, `sealed, `idle, `early, `home, `abandoned
      reads `nextBidi, `nextUni, `applied, `births, `base, `drains, `asked, `cmds, `marks, `hand, `connTerminal
      reads t`wire, t`taken, t`shutdowns, t`told, t`surfaced, t`closes, t`sent, t`answers
    {
      && SendOk(tx, led, parking, t.wire, exc)
      && TokOk(tx.halves, io, home, resolved, abandoned)
      && CrossOk(tx.halves, led, adm.admit, handed, past, parking.orphan)
      && ToldOk(parking, idle, t.told, t.surfaced)
      && Within(parking, past, handed)
      && Running(t)
      && Rest(t, rexc)
    }

    /** Where a run stands: everything that may only be added to. */
    ghost function Now(t: QuicConn): Snap
      reads `applied, `io, `resolved, `handed, `past, `tx, `led, `births, `sealed, `asked, `cmds, `early, `marks, `rx
      reads `drains, `connTerminal, t`closes, t`shutdowns, t`sent, t`wire, t`taken, t`answers
    {
      Snap(t.closes, applied, t.shutdowns, t.sent, asked, cmds, t.wire, t.answers, io.nextTok, io.opens, resolved,
           handed, past, early, marks, tx, led, births, t.taken, sealed, rx.halves.Keys, drains, connTerminal.Some?)
    }

    /** The run measured from `base` stands here, lawfully. */
    ghost predicate Running(t: QuicConn)
      reads `applied, `io, `resolved, `handed, `past, `tx, `led, `births, `sealed, `asked, `cmds, `early, `marks, `rx
      reads `drains, `connTerminal, `base, t`closes, t`shutdowns, t`sent, t`wire, t`taken, t`answers
    {
      Runs(base, Now(t))
    }

    /** A run only ever adds: logs, wires, tokens, handles, ends, completions and sticky terminals. */
    twostate predicate History(t: QuicConn)
      reads `applied, `io, `resolved, `handed, `past, `tx, `led, `births, `sealed, `asked, `cmds, `early, `marks, `rx
      reads `drains, `connTerminal, t`closes, t`shutdowns, t`sent, t`wire, t`taken, t`answers
    {
      Grows(old(Now(t)), Now(t))
    }

    lemma Still(t: QuicConn)
      requires Inv(t, {}, {})
      ensures Grows(Now(t), Now(t))
    {
      hide SendOk, TokOk, CrossOk, Rest, Grows, Lawful;
      CrossHanded(tx.halves, led, adm.admit, handed, past, parking.orphan);
      GrowsSelf(base, Now(t));
    }

    /** Measure from here on; `saved` is where the run was measured from. */
    ghost method Mark(t: QuicConn) returns (saved: Snap)
      requires Inv(t, {}, {})
      modifies `base
      ensures Inv(t, {}, {}) && base == Now(t) && saved == old(base) && Grows(saved, base)
    {
      hide SendOk, TokOk, CrossOk, Rest, ToldOk, Grows, Lawful;
      CrossHanded(tx.halves, led, adm.admit, handed, past, parking.orphan);
      GrowsSelf(base, Now(t));
      saved := base;
      base := Now(t);
    }

    /** Back to the earlier measure. */
    ghost method Unmark(t: QuicConn, saved: Snap)
      requires Inv(t, {}, {}) && Grows(saved, base)
      modifies `base
      ensures Inv(t, {}, {}) && base == saved && Grows(old(base), Now(t))
    {
      hide SendOk, TokOk, CrossOk, Rest, ToldOk, Grows, Lawful;
      GrowsTrans(saved, base, Now(t));
      base := saved;
    }

    /** Every completion token the worker was ever given. */
    ghost function Known(): set<Token>
      reads `home, `resolved, `abandoned
    {
      KnownIn(home, resolved, abandoned)
    }

    /** `id` was popped for its turn, has no terminal, and everything else is in order. */
    ghost predicate Turning(t: QuicConn, id: Id)
      reads this, t`wire, t`taken, t`shutdowns, t`told, t`surfaced, t`closes, t`sent, t`answers
    {
      && Inv(t, {id}, {}) && id !in tx.runSet
      && id in tx.halves && tx.halves[id].terminal.None? && tx.halves[id].pendingReset.None?
    }

    /** A turn touches no other stream, adds no work to its own, loses no token and leaves receive halves alone. */
    twostate predicate TurnFrame(id: Id)
      reads this
    {
      && tx.run == old(tx.run) && tx.runSet == old(tx.runSet)
      && tx.halves - {id} == old(tx.halves) - {id}
      && (id in tx.halves ==> old(id in tx.halves) && NoGrowth(old(tx.halves[id]), tx.halves[id]))
      && Settles()
      && rx.halves == old(rx.halves)
    }

    /** Streams are only ever handed out, and no send half is ended. */
    twostate predicate Grown()
      reads this
    {
      && old(handed.send) <= handed.send && old(handed.recv) <= handed.recv
      && past.ended == old(past.ended)
    }

    /** No token is lost, and no completion that was already made changes. */
    twostate predicate Settles()
      reads this
    {
      Known() == old(Known()) && Extends(old(resolved), resolved)
    }

    /** Whatever was resolved since was failed, not delivered. */
    twostate predicate OnlyFails()
      reads `resolved
    {
      forall tok | tok in resolved && tok !in old(resolved) :: resolved[tok].Failed?
    }

    // ----- primitives -----

    method MarkSendRunnable(id: Id)
      modifies `tx
      ensures tx == PushRun(old(tx), id)
    {
      if id !in tx.runSet {
        tx := tx.(run := tx.run + [id], runSet := tx.runSet + {id}, steps := tx.steps + [Marked(id)]);
      }
    }

    /** The same, as a step of the run. */
    method MarkRun(ghost t: QuicConn, id: Id)
      requires Running(t)
      modifies `tx
      ensures Running(t) && tx == PushRun(old(tx), id)
    {
      hide Runs, PushRun;
      MoveStep(base, Now(t), Marked(id));
      MarkSendRunnable(id);
    }

    method DropSendMembership(id: Id)
      modifies `tx
      ensures tx == DropRun(old(tx), id)
    {
      if id in tx.runSet {
        tx := tx.(run := Without(tx.run, id), runSet := tx.runSet - {id}, steps := tx.steps + [Evicted(id)]);
      }
    }

    method DropRecvMemberships(id: Id)
      modifies `rx
      ensures rx == DropCursors(old(rx), id)
    {
      if id in rx.readableSet {
        rx := rx.(readable := Without(rx.readable, id), readableSet := rx.readableSet - {id});
      }
      if id in rx.resumeSet {
        rx := rx.(resume := Without(rx.resume, id), resumeSet := rx.resumeSet - {id});
      }
    }

    /** The same, as a step of the run. */
    method LeaveCursors(ghost t: QuicConn, id: Id)
      modifies `rx
      ensures rx == DropCursors(old(rx), id) && (old(Running(t)) ==> Running(t))
    {
      hide Runs, Without;
      DropRecvMemberships(id);
    }

    /** The cursors change, and no half does. */
    method SetCursors(ghost t: QuicConn, rx': RecvSide)
      requires rx'.halves == rx.halves
      modifies `rx
      ensures rx == rx' && (old(Running(t)) ==> Running(t))
    {
      hide Runs;
      rx := rx';
    }

    /** Contract A: a stream whose directions are all done leaves admission and every cursor at once. */
    method TerminalTransition(id: Id)
      modifies `adm, `rx, `tx
      ensures AllTerminal(old(adm).admit, id) ==>
                && adm == old(adm).(admit := old(adm).admit - {id})
                && rx == DropCursors(old(rx).(halves := old(rx).halves - {id}), id)
                && tx == DropRun(old(tx), id)
      ensures !AllTerminal(old(adm).admit, id) ==> adm == old(adm) && rx == old(rx) && tx == old(tx)
    {
      hide AllTerminal;
      if AllTerminal(adm.admit, id) {
        adm := adm.(admit := adm.admit - {id});
        rx := rx.(halves := rx.halves - {id});
        DropRecvMemberships(id);
        DropSendMembership(id);
      }
    }

    /** The single completion chokepoint: an unresolved token gets its one outcome and leaves its place. */
    method Resolve(tok: Token, out: Outcome)
      requires tok !in resolved
      modifies `resolved, `home
      ensures resolved == old(resolved)[tok := out] && home == old(home) - {tok}
    {
      resolved := resolved[tok := out];
      home := home - {tok};
    }

    method CompleteAll(ops: seq<Op>, end: SendEnd)
      requires DistinctToks(ops) && Toks(ops) <= home.Keys && home.Keys !! resolved.Keys
      modifies `resolved, `home
      ensures resolved == old(resolved) + FailAll(ops, end)
      ensures home == old(home) - Toks(ops)
    {
      hide Toks, FailAll, DistinctToks;
      assert FailAll(ops[..0], end) == map[] && Toks(ops[..0]) == {} by { NothingFails(ops, end); }
      for i := 0 to |ops|
        invariant resolved == old(resolved) + FailAll(ops[..i], end)
        invariant home == old(home) - Toks(ops[..i])
        invariant FailAll(ops[..i], end).Keys == Toks(ops[..i])
      {
        FailAllStep(ops, i, end);
        Resolve(ops[i].done, Failed(end));
      }
      assert ops[..|ops|] == ops;
    }

    // ----- send terminals -----

    /** Flag the half finished, leave the run queue, set `sendDone` and drop a fully done stream. */
    method MarkSendDone(ghost t: QuicConn, id: Id)
      requires id in tx.halves && AdmitOk(adm, rx.halves.Keys, handed, isServer)
      requires RecvOk(rx, sealed, idle, handed, t.taken, {}) && EarlyOk(adm, early, handed, hand)
      modifies `tx, `adm, `rx
      ensures tx == DropRun(PutHalf(old(tx), id, old(tx).halves[id].(finished := true)), id)
      ensures adm == old(adm).(admit := SendDoneIn(old(adm).admit, id)) && rx.halves == old(rx).halves
      ensures AdmitOk(adm, rx.halves.Keys, handed, isServer)
      ensures RecvOk(rx, sealed, idle, handed, t.taken, {}) && EarlyOk(adm, early, handed, hand)
    {
      hide AdmitOk, RecvOk, DrainsOk, Without, IsBidi, EarlyOk;
      AdmitSendDone(adm, rx.halves.Keys, handed, isServer, id);
      RecvDropCursors(rx, sealed, idle, handed, t.taken, {}, id);
      EarlyDone(adm, early, handed, hand, id);
      tx := PutHalf(tx, id, tx.halves[id].(finished := true));
      DropSendMembership(id);
      if id in adm.admit && adm.admit[id].Registered? {
        adm := adm.(admit := adm.admit[id := adm.admit[id].(sendDone := true)]);
      }
      TerminalTransition(id);
      assert rx.halves == old(rx).halves;
    }

    /** Terminate a half, fail what is queued on it, and mark its direction done. */
    method DrainHalf(ghost t: QuicConn, id: Id, end: SendEnd)
      requires Running(t) && id in tx.halves && id in led && !end.LocalReset?
      requires Reason(cmds, id, end, t.answers, false)
      requires Extends(resolved, resolved + FailAll(tx.halves[id].ops, Terminated(tx.halves[id], end).terminal.value))
      requires AdmitOk(adm, rx.halves.Keys, handed, isServer)
      requires RecvOk(rx, sealed, idle, handed, t.taken, {}) && EarlyOk(adm, early, handed, hand)
      requires var ops := tx.halves[id].ops; DistinctToks(ops) && Toks(ops) <= home.Keys && home.Keys !! resolved.Keys
      modifies `tx, `resolved, `home, `adm, `rx
      ensures var h := old(tx).halves[id];
              var h' := Terminated(h, end).(finished := true);
              && Running(t)
              && tx == DropRun(PutHalf(old(tx), id, h'), id) && tx.halves == old(tx).halves[id := h']
              && resolved == old(resolved) + FailAll(h.ops, h'.terminal.value) && home == old(home) - Toks(h.ops)
      ensures adm == old(adm).(admit := SendDoneIn(old(adm).admit, id)) && rx.halves == old(rx).halves
      ensures AdmitOk(adm, rx.halves.Keys, handed, isServer)
      ensures RecvOk(rx, sealed, idle, handed, t.taken, {}) && EarlyOk(adm, early, handed, hand)
    {
      hide AdmitOk, RecvOk, EarlyOk, Toks, FailAll, SendDoneIn, DistinctToks, Runs, Reason, Extends, PutHalf, DropRun;
      hide Terminated;
      TerminateStep(base, Now(t), id, end);
      FailHalf(t, id, end);
    }

    /** The half is done, and everything queued on it fails. */
    method FailHalf(ghost t: QuicConn, id: Id, end: SendEnd)
      requires id in tx.halves && AdmitOk(adm, rx.halves.Keys, handed, isServer)
      requires RecvOk(rx, sealed, idle, handed, t.taken, {}) && EarlyOk(adm, early, handed, hand)
      requires var ops := tx.halves[id].ops; DistinctToks(ops) && Toks(ops) <= home.Keys && home.Keys !! resolved.Keys
      modifies `tx, `resolved, `home, `adm, `rx
      ensures var h := old(tx).halves[id];
              var h' := Terminated(h, end).(finished := true);
              && tx == DropRun(PutHalf(old(tx), id, h'), id) && tx.halves == old(tx).halves[id := h']
              && resolved == old(resolved) + FailAll(h.ops, h'.terminal.value) && home == old(home) - Toks(h.ops)
      ensures adm == old(adm).(admit := SendDoneIn(old(adm).admit, id)) && rx.halves == old(rx).halves
      ensures AdmitOk(adm, rx.halves.Keys, handed, isServer)
      ensures RecvOk(rx, sealed, idle, handed, t.taken, {}) && EarlyOk(adm, early, handed, hand)
    {
      hide AdmitOk, RecvOk, EarlyOk, Toks, FailAll, SendDoneIn, Without, DistinctToks;
      var h := tx.halves[id];
      tx := PutHalf(tx, id, Terminated(h, end));
      CompleteAll(h.ops, tx.halves[id].terminal.value);
      MarkSendDone(t, id);
      assert tx.halves == old(tx).halves[id := Terminated(h, end).(finished := true)];
    }

    /**
     * Publish a send terminal first-writer-wins, fail every queued operation with it once,
     * then mark the direction done.
     */
    method SendTerminalTransition(ghost t: QuicConn, id: Id, end: SendEnd)
      requires Inv(t, {id}, {})
      requires id in tx.halves && tx.halves[id].pendingReset.None? && !end.LocalReset?
      requires Reason(cmds, id, end, t.answers, false)
      modifies `tx, `resolved, `home, `adm, `rx
      ensures Inv(t, {}, {})
      ensures tx == DropRun(PutHalf(old(tx), id, Terminated(old(tx).halves[id], end).(finished := true)), id)
      ensures resolved == old(resolved) + FailAll(old(tx).halves[id].ops, tx.halves[id].terminal.value)
      ensures rx.halves == old(rx).halves && Settles()
      ensures OnlyFails()
      ensures adm == old(adm).(admit := SendDoneIn(old(adm).admit, id))
    {
      hide AdmitOk, SendOk, Running, Runs, Now, TokOk, RecvOk, DrainsOk, CrossOk, DirOk, EarlyOk, IdsOk, Toks;
      hide FailAll, SendDoneIn;
      hide Without, Reason, Extends;
      ghost var h := tx.halves[id];
      ghost var h' := Terminated(h, end).(finished := true);
      TerminateKeeps(tx, led, parking, t.wire, id, end);
      TokDrain(tx.halves, io, home, resolved, abandoned, id, h', h'.terminal.value);
      DrainConserves(h.ops, h'.terminal.value, home, resolved);
      CrossSendDone(tx.halves, led, adm.admit, handed, past, parking.orphan, id, h');
      CrossHanded(tx.halves, led, adm.admit, handed, past, parking.orphan);
      DrainHalf(t, id, end);
    }

    /** Forget a finished half once its receive side is gone too. */
    method ReclaimFinishedSend(ghost t: QuicConn, id: Id, ghost exc: set<Id>)
      requires Inv(t, exc, {})
      modifies `tx, `adm, `led
      ensures Inv(t, exc, {})
      ensures tx.run == old(tx).run && tx.runSet == old(tx).runSet
      ensures (tx == old(tx) && led == old(led)) || tx.halves == old(tx).halves - {id}
      ensures old(id in tx.halves && !tx.halves[id].finished) ==> tx == old(tx)
      ensures id in tx.halves && tx.halves[id].finished ==> id in rx.halves
      ensures adm == old(adm).(admit := adm.admit)
    {
      hide AdmitOk, SendOk, Running, Runs, Now, TokOk, RecvOk, DrainsOk, CrossOk, DirOk, EarlyOk, IdsOk, ToldOk;
      if id in tx.halves && tx.halves[id].finished && id !in rx.halves {
        ReclaimKeeps(tx, led, parking, t.wire, exc, id);
        TokForget(tx.halves, io, home, resolved, abandoned, id);
        CrossHanded(tx.halves, led, adm.admit, handed, past, parking.orphan);
        AdmitForget(adm, rx.halves.Keys, handed, isServer, id);
        EarlyForget(adm, early, handed, hand, id);
        CrossForget(tx.halves, led, adm.admit, handed, past, parking.orphan, id);
        PendingHasTerminal(tx, led, parking, t.wire, exc, id);
        Forget(t, id);
      }
    }

    /** The retained entry goes, and its admission with it. */
    method Forget(ghost t: QuicConn, id: Id)
      requires Running(t) && id in tx.halves && id in led
      requires tx.halves[id].finished && tx.halves[id].pendingReset.None?
      modifies `tx, `adm, `led
      ensures Running(t) && tx == old(tx).(halves := old(tx).halves - {id}) && led == old(led) - {id}
      ensures adm == old(adm).(admit := old(adm).admit - {id})
    {
      hide Runs;
      ReclaimStep(base, Now(t), id);
      tx := tx.(halves := tx.halves - {id});
      led := led - {id};
      adm := adm.(admit := adm.admit - {id});
    }

    // ----- commands that reach a send half -----

    /** The registry entry for `id`, created on first use. */
    method EnsureHalf(ghost t: QuicConn, id: Id)
      requires Inv(t, {}, {}) && id in handed.send && id !in past.ended
      modifies `tx, `led, `births
      ensures Inv(t, {}, {}) && id in tx.halves
      ensures old(id in tx.halves) ==> tx == old(tx) && led == old(led)
      ensures old(id !in tx.halves) ==>
                && tx == PutHalf(old(tx), id, FRESH) && led == old(led)[id := Born(At(t.wire, id), old(births), |cmds|)]
                && births == old(births) + 1
    {
      hide SendOk, Running, Runs, Now, TokOk, CrossOk, Rest, ToldOk, At;
      if id !in tx.halves {
        BornKeeps(tx, led, parking, t.wire, id, births, |cmds|);
        TokBorn(tx.halves, io, home, resolved, abandoned, id);
        CrossBorn(tx.halves, led, adm.admit, handed, past, parking.orphan, id, Born(At(t.wire, id), births, |cmds|));
        InsertSend(t, id);
      }
    }

    method InsertSend(ghost t: QuicConn, id: Id)
      requires Running(t) && id !in tx.halves && id !in past.ended
      modifies `tx, `led, `births
      ensures Running(t) && tx == PutHalf(old(tx), id, FRESH) && tx.halves == old(tx).halves[id := FRESH]
      ensures led == old(led)[id := Born(At(t.wire, id), old(births), |cmds|)] && births == old(births) + 1
    {
      hide Runs, At, Born;
      BornStep(base, Now(t), id);
      tx := PutHalf(tx, id, FRESH);
      led := led[id := Born(At(t.wire, id), births, |cmds|)];
      births := births + 1;
    }

    /** Queue an operation on a half without terminal and make the id runnable. */
    method PushOp(ghost t: QuicConn, id: Id, op: Op)
      requires Inv(t, {}, {}) && id in tx.halves && tx.halves[id].terminal.None? && id !in past.ended
      requires op.done !in home && op.done !in resolved && op.done !in abandoned && op.done < io.nextTok
      requires op.done !in io.opens && cmds + [CmdOf(id, op)] <= asked
      modifies `tx, `led, `home, `past, `cmds
      ensures Inv(t, {}, {}) && cmds == old(cmds) + [CmdOf(id, op)]
      ensures past == old(past).(ended := old(past).ended + if op.FinishOp? then {id} else {})
      ensures home == old(home)[op.done := InSend(id)] && Known() == old(Known()) + {op.done}
      ensures tx.halves == old(tx).halves[id := old(tx).halves[id].(ops := old(tx).halves[id].ops + [op])]
      ensures id in tx.runSet
      ensures tx == PushRun(PutHalf(old(tx), id, old(tx).halves[id].(ops := old(tx).halves[id].ops + [op])), id)
    {
      hide SendOk, Running, Runs, Now, TokOk, CrossOk, Rest, OpBytes, PushRun, ToldOk, KnownIn;
      CrossHanded(tx.halves, led, adm.admit, handed, past, parking.orphan);
      var h := tx.halves[id];
      var h' := h.(ops := h.ops + [op]);
      ghost var l := Asked(led[id], op);
      var ended := past.ended + if op.FinishOp? then {id} else {};
      NotEnded(tx, led, parking, t.wire, {}, adm.admit, handed, past, id);
      EnqueueKeeps(tx, led, parking, t.wire, id, op);
      TokPush(tx.halves, io, home, resolved, abandoned, id, op);
      CrossEnqueue(tx.halves, led, adm.admit, handed, past, parking.orphan, id, h', l, ended);
      PushRunKeepsHalves(PutHalf(tx, id, h'), id);
      Append(t, id, op);
      KnownPut(old(home), resolved, abandoned, op.done, InSend(id));
    }

    /** Append an operation to a half's queue and make the id runnable. */
    method Append(ghost t: QuicConn, id: Id, op: Op)
      requires Running(t) && cmds + [CmdOf(id, op)] <= asked && id in handed.send && op.done !in resolved
      requires id in tx.halves && id in led && id !in past.ended
      requires tx.halves[id].terminal.None? && !led[id].finSubmitted && !tx.halves[id].finished
      modifies `tx, `led, `home, `past, `cmds
      ensures Running(t)
      ensures tx == PushRun(PutHalf(old(tx), id, old(tx).halves[id].(ops := old(tx).halves[id].ops + [op])), id)
      ensures led == old(led)[id := Asked(old(led)[id], op)] && home == old(home)[op.done := InSend(id)]
      ensures past == old(past).(ended := old(past).ended + if op.FinishOp? then {id} else {})
      ensures cmds == old(cmds) + [CmdOf(id, op)]
    {
      hide Running, Runs, Now, CmdOf, Asked, PutHalf, PushRun;
      QueueOp(t, id, op);
      MarkRun(t, id);
    }

    method QueueOp(ghost t: QuicConn, id: Id, op: Op)
      requires Running(t) && cmds + [CmdOf(id, op)] <= asked && id in handed.send && op.done !in resolved
      requires id in tx.halves && id in led && id !in past.ended
      requires tx.halves[id].terminal.None? && !led[id].finSubmitted && !tx.halves[id].finished
      modifies `tx, `led, `home, `past, `cmds
      ensures Running(t)
      ensures tx == PutHalf(old(tx), id, old(tx).halves[id].(ops := old(tx).halves[id].ops + [op]))
      ensures led == old(led)[id := Asked(old(led)[id], op)] && home == old(home)[op.done := InSend(id)]
      ensures past == old(past).(ended := old(past).ended + if op.FinishOp? then {id} else {})
      ensures cmds == old(cmds) + [CmdOf(id, op)]
    {
      hide Runs, CmdOf, Asked, PutHalf;
      AskStep(base, Now(t), id, op);
      WriteOpDown(id, op);
    }

    method WriteOpDown(id: Id, op: Op)
      requires id in tx.halves && id in led
      modifies `tx, `led, `home, `past, `cmds
      ensures tx == PutHalf(old(tx), id, old(tx).halves[id].(ops := old(tx).halves[id].ops + [op]))
      ensures led == old(led)[id := Asked(old(led)[id], op)] && home == old(home)[op.done := InSend(id)]
      ensures past == old(past).(ended := old(past).ended + if op.FinishOp? then {id} else {})
      ensures cmds == old(cmds) + [CmdOf(id, op)]
    {
      hide CmdOf, Asked, PutHalf;
      var h := tx.halves[id];
      tx := PutHalf(tx, id, h.(ops := h.ops + [op]));
      led := led[id := Asked(led[id], op)];
      home := home[op.done := InSend(id)];
      past := past.(ended := past.ended + if op.FinishOp? then {id} else {});
      cmds := cmds + [CmdOf(id, op)];
    }

    /** Append an operation and make the id runnable, or complete it at once with the sticky terminal. */
    method EnqueueSendOp(ghost t: QuicConn, id: Id, op: Op)
      requires Inv(t, {}, {}) && id in handed.send && id !in past.ended
      requires op.done !in home && op.done !in resolved && op.done !in abandoned && op.done < io.nextTok
      requires op.done !in io.opens && cmds + [CmdOf(id, op)] <= asked
      modifies `tx, `led, `births, `resolved, `home, `past, `cmds
      ensures Inv(t, {}, {}) && id in tx.halves && cmds == old(cmds) + [CmdOf(id, op)]
      ensures past == old(past).(ended := old(past).ended + if op.FinishOp? then {id} else {})
      ensures Known() == old(Known()) + {op.done} && Extends(old(resolved), resolved)
      ensures OpApplied(id, op)
    {
      hide Inv, Known, PushRun;
      EnsureHalf(t, id);
      if tx.halves[id].terminal.Some? {
        FailAtOnce(t, id, op);
      } else {
        PushOp(t, id, op);
      }
    }

    /** A half with a terminal fails a new operation with it at once. */
    method FailAtOnce(ghost t: QuicConn, id: Id, op: Op)
      requires Inv(t, {}, {}) && id in tx.halves && tx.halves[id].terminal.Some? && id !in past.ended
      requires cmds + [CmdOf(id, op)] <= asked
      requires op.done !in home && op.done !in resolved && op.done !in abandoned && op.done < io.nextTok
      modifies `resolved, `home, `past, `cmds
      ensures Inv(t, {}, {}) && resolved == old(resolved)[op.done := Failed(tx.halves[id].terminal.value)]
      ensures cmds == old(cmds) + [CmdOf(id, op)]
      ensures past == old(past).(ended := old(past).ended + if op.FinishOp? then {id} else {})
      ensures Known() == old(Known()) + {op.done} && Extends(old(resolved), resolved)
    {
      hide SendOk, Running, Runs, Now, TokOk, CrossOk, Rest, ToldOk, KnownIn;
      var end := tx.halves[id].terminal.value;
      var ended := past.ended + if op.FinishOp? then {id} else {};
      TokResolve(tx.halves, io, home, resolved, abandoned, op.done, Failed(end));
      CrossEnded(tx.halves, led, adm.admit, handed, past, parking.orphan, ended);
      CrossHanded(tx.halves, led, adm.admit, handed, past, parking.orphan);
      FailNow(t, id, op, end);
      KnownAnswered(old(home), old(resolved), abandoned, op.done, Failed(end));
    }

    method FailNow(ghost t: QuicConn, id: Id, op: Op, end: SendEnd)
      requires Running(t) && cmds + [CmdOf(id, op)] <= asked && id in handed.send && op.done !in resolved
      requires id in tx.halves && id in led && id !in past.ended && tx.halves[id].terminal.Some?
      modifies `resolved, `home, `past, `cmds
      ensures Running(t)
      ensures resolved == old(resolved)[op.done := Failed(end)] && home == old(home) - {op.done}
      ensures past == old(past).(ended := old(past).ended + if op.FinishOp? then {id} else {})
      ensures cmds == old(cmds) + [CmdOf(id, op)]
    {
      hide Runs, CmdOf;
      RefuseStep(base, Now(t), id, op, end);
      Resolve(op.done, Failed(end));
      past := past.(ended := past.ended + if op.FinishOp? then {id} else {});
      cmds := cmds + [CmdOf(id, op)];
    }

    /** Install the first effective reset on a half without terminal. */
    method StartReset(ghost t: QuicConn, id: Id, code: nat)
      requires Inv(t, {}, {}) && id in tx.halves && tx.halves[id].terminal.None? && !tx.halves[id].finished
      requires id !in past.ended && cmds + [Reset(id, code)] <= asked
      modifies `tx, `resolved, `home, `past, `cmds
      ensures Inv(t, {}, {}) && Settles()
      ensures tx == PushRun(PutHalf(old(tx), id,
                                    Terminated(old(tx).halves[id], LocalReset(code)).(pendingReset := Some(code))), id)
      ensures resolved == old(resolved) + FailAll(old(tx).halves[id].ops, LocalReset(code))
      ensures past == old(past).(ended := old(past).ended + {id}) && cmds == old(cmds) + [Reset(id, code)]
    {
      hide SendOk, Running, Runs, Now, TokOk, CrossOk, Rest, Toks, FailAll, PushRun, Extends, ToldOk;
      var h := tx.halves[id];
      var h' := Terminated(h, LocalReset(code)).(pendingReset := Some(code));
      CrossHanded(tx.halves, led, adm.admit, handed, past, parking.orphan);
      PendingHasTerminal(tx, led, parking, t.wire, {}, id);
      ResetKeeps(tx, led, parking, t.wire, id, code);
      TokDrain(tx.halves, io, home, resolved, abandoned, id, h', LocalReset(code));
      DrainConserves(h.ops, LocalReset(code), home, resolved);
      CrossPut(tx.halves, led, adm.admit, handed, past, parking.orphan, id, h');
      CrossEnded(tx.halves[id := h'], led, adm.admit, handed, past, parking.orphan, past.ended + {id});
      PushRunKeepsHalves(PutHalf(tx, id, h'), id);
      InstallReset(t, id, code);
    }

    /** Publish the reset, fail what is queued, and make the id runnable. */
    method InstallReset(ghost t: QuicConn, id: Id, code: nat)
      requires Running(t) && cmds + [Reset(id, code)] <= asked && id in handed.send
      requires id in tx.halves && id in led && id !in past.ended
      requires tx.halves[id].terminal.None? && !tx.halves[id].finished && tx.halves[id].pendingReset.None?
      requires Extends(resolved, resolved + FailAll(tx.halves[id].ops, LocalReset(code)))
      requires var ops := tx.halves[id].ops; DistinctToks(ops) && Toks(ops) <= home.Keys && home.Keys !! resolved.Keys
      modifies `tx, `resolved, `home, `past, `cmds
      ensures tx == PushRun(PutHalf(old(tx), id,
                                    Terminated(old(tx).halves[id], LocalReset(code)).(pendingReset := Some(code))), id)
      ensures resolved == old(resolved) + FailAll(old(tx).halves[id].ops, LocalReset(code))
      ensures Running(t)
      ensures home == old(home) - Toks(old(tx).halves[id].ops)
      ensures past == old(past).(ended := old(past).ended + {id}) && cmds == old(cmds) + [Reset(id, code)]
    {
      hide Running, Runs, Now, Toks, FailAll, DistinctToks, Extends, PutHalf, PushRun, Terminated;
      EnterReset(t, id, code);
      MarkRun(t, id);
    }

    method EnterReset(ghost t: QuicConn, id: Id, code: nat)
      requires Running(t) && cmds + [Reset(id, code)] <= asked && id in handed.send
      requires id in tx.halves && id in led && id !in past.ended
      requires tx.halves[id].terminal.None? && !tx.halves[id].finished && tx.halves[id].pendingReset.None?
      requires Extends(resolved, resolved + FailAll(tx.halves[id].ops, LocalReset(code)))
      requires var ops := tx.halves[id].ops; DistinctToks(ops) && Toks(ops) <= home.Keys && home.Keys !! resolved.Keys
      modifies `tx, `resolved, `home, `past, `cmds
      ensures tx == PutHalf(old(tx), id, Terminated(old(tx).halves[id], LocalReset(code)).(pendingReset := Some(code)))
      ensures resolved == old(resolved) + FailAll(old(tx).halves[id].ops, LocalReset(code))
      ensures Running(t)
      ensures home == old(home) - Toks(old(tx).halves[id].ops)
      ensures past == old(past).(ended := old(past).ended + {id}) && cmds == old(cmds) + [Reset(id, code)]
    {
      hide Toks, FailAll, DistinctToks, Runs, Extends, PutHalf, Terminated;
      ResetAskStep(base, Now(t), id, code);
      WriteReset(id, code);
    }

    method WriteReset(id: Id, code: nat)
      requires id in tx.halves
      requires var ops := tx.halves[id].ops; DistinctToks(ops) && Toks(ops) <= home.Keys && home.Keys !! resolved.Keys
      modifies `tx, `resolved, `home, `past, `cmds
      ensures tx == PutHalf(old(tx), id, Terminated(old(tx).halves[id], LocalReset(code)).(pendingReset := Some(code)))
      ensures resolved == old(resolved) + FailAll(old(tx).halves[id].ops, LocalReset(code))
      ensures home == old(home) - Toks(old(tx).halves[id].ops)
      ensures past == old(past).(ended := old(past).ended + {id}) && cmds == old(cmds) + [Reset(id, code)]
    {
      hide Toks, FailAll, DistinctToks, PutHalf, Terminated;
      var h := tx.halves[id];
      tx := PutHalf(tx, id, Terminated(h, LocalReset(code)).(pendingReset := Some(code)));
      CompleteAll(h.ops, LocalReset(code));
      past := past.(ended := past.ended + {id});
      cmds := cmds + [Reset(id, code)];
    }

    /**
     * The first effective reset publishes its code, fails the queued operations and becomes runnable; later ones are
     * no-ops.
     */
    method ApplyReset(ghost t: QuicConn, id: Id, code: nat)
      requires Inv(t, {}, {}) && id in handed.send && id !in past.ended && connTerminal.None?
      requires cmds + [Reset(id, code)] <= asked
      modifies `tx, `led, `births, `resolved, `home, `past, `cmds
      ensures Inv(t, {}, {}) && Settles() && cmds == old(cmds) + [Reset(id, code)]
      ensures past == old(past).(ended := old(past).ended + {id}) && id in tx.halves
      ensures ResetApplied(id, code)
    {
      hide Inv, FailAll, Known, Extends;
      ExtendsSelf(resolved);
      EnsureHalf(t, id);
      ResetIsFirst(t, id);
      if tx.halves[id].pendingReset.None? && tx.halves[id].terminal.None? {
        StartReset(t, id, code);
      } else {
        ResetLate(t, id, code);
      }
    }

    lemma ResetIsFirst(t: QuicConn, id: Id)
      requires Inv(t, {}, {}) && id in tx.halves && id !in past.ended
      ensures tx.halves[id].pendingReset.Some? ==> tx.halves[id].terminal.Some?
      ensures tx.halves[id].terminal.None? ==> !tx.halves[id].finished
    {
      hide SendOk, Running, Runs, Now, TokOk, CrossOk, Rest;
      PendingHasTerminal(tx, led, parking, t.wire, {}, id);
      if tx.halves[id].terminal.None? {
        NotEnded(tx, led, parking, t.wire, {}, adm.admit, handed, past, id);
      }
    }

    /** A reset that comes after a terminal changes nothing but the record of what was asked. */
    method ResetLate(ghost t: QuicConn, id: Id, ghost code: nat)
      requires Inv(t, {}, {}) && id in tx.halves && tx.halves[id].terminal.Some? && id !in past.ended
      requires cmds + [Reset(id, code)] <= asked && connTerminal.None?
      modifies `past, `cmds
      ensures Inv(t, {}, {}) && past == old(past).(ended := old(past).ended + {id})
      ensures cmds == old(cmds) + [Reset(id, code)]
    {
      hide SendOk, Runs, TokOk, CrossOk, Rest;
      CrossHanded(tx.halves, led, adm.admit, handed, past, parking.orphan);
      CrossEnded(tx.halves, led, adm.admit, handed, past, parking.orphan, past.ended + {id});
      ResetLateStep(base, Now(t), id, code);
      past := past.(ended := past.ended + {id});
      cmds := cmds + [Reset(id, code)];
    }

    // ----- one round-robin turn -----

    /** One `stream_send` on the half whose turn it is: either nothing happened, or a prefix left. */
    method SendOut(t: QuicConn, id: Id, buf: seq<Byte>, fin: bool) returns (r: Result<nat, QuicError>)
      requires id in tx.halves && Turning(t, id) && (tx.halves[id].ops != [] || tx.halves[id].held.Some?)
      requires fin ==> tx.halves[id].ops != [] && tx.halves[id].ops[0].FinishOp?
      modifies t`wire, t`sent, t`told, t`answers
      ensures r.Err? ==>
                Turning(t, id) && t.wire == old(t.wire) && (ClassifySend(r.error).ClassSendGone? ==> id in t.told.dead)
      ensures r.Err? ==> Blames(t.answers, id, r.error)
      ensures r.Ok? ==>
                && r.value <= |buf| && Sending(t, id, old(t.wire))
                && var last := fin && r.value == |buf|;
                && t.wire == Accepted(old(t.wire), id, buf, r.value, last)
                && t.sent == old(t.sent) + [SendCall(id, buf[..r.value], last)]
    {
      hide SendOk, Runs, TokOk, CrossOk, Rest, ClassifySend, Heard;
      FinIsAhead(t, id);
      ghost var was := Now(t);
      r := t.StreamSend(id, buf, fin);
      if r.Ok? {
        SentStep(base, was, id, buf[..r.value], fin && r.value == |buf|);
      } else {
        HeardGrows(was.answers, id, r.error);
        AnswerStep(base, was, t.answers);
      }
    }

    lemma FinIsAhead(t: QuicConn, id: Id)
      requires id in tx.halves && Turning(t, id) && (tx.halves[id].ops != [] || tx.halves[id].held.Some?)
      ensures id in handed.send && At(t.wire, id).fins == 0
      ensures FinishNext(tx.halves[id]) ==> id in past.ended
    {
      hide SendOk, Grows, Lawful, TokOk, CrossOk, Rest, EntryLaw;
      FinAhead(tx, led, parking, t.wire, {id}, adm.admit, handed, past, id);
      BaseHasNoFin(Now(t), id);
    }

    /** The transport's answers are the reason for what this error does to the half. */
    ghost predicate Blames(answers: Answers, id: Id, e: QuicError) {
      match ClassifySend(e)
      case ClassStopped(code) => code in StopsAt(answers, id)
      case ClassBlocked => true
      case _ => id in answers.broken
    }

    /** Ask to be told when the stream is writable again. */
    method AskWritable(t: QuicConn, id: Id) returns (r: Result<bool, QuicError>)
      requires Turning(t, id)
      modifies t`told, t`answers
      ensures Turning(t, id) && (r.Ok? ==> id in t.told.armed)
      ensures r.Err? && r.error.StreamStopped? ==> r.error.code in StopsAt(t.answers, id)
      ensures r.Err? && !r.error.StreamStopped? ==> id in t.told.dead
    {
      hide SendOk, Runs, TokOk, CrossOk, Rest;
      CrossHanded(tx.halves, led, adm.admit, handed, past, parking.orphan);
      ghost var was := Now(t);
      r := t.StreamWritable(id, 1);
      if r.Err? && r.error.StreamStopped? {
        HeardGrows(was.answers, id, r.error);
        AnswerStep(base, was, t.answers);
      }
    }

    /** Low-water re-arm of a blocked half: park it, unless the peer stopped the stream. */
    method RearmSend(t: QuicConn, id: Id) returns (out: TurnOutcome)
      requires Turning(t, id)
      modifies `tx, `resolved, `home, `adm, `rx, `parking, t`told, t`answers
      ensures Inv(t, {}, {}) && TurnFrame(id) && !out.Requeue?
      ensures out.Park? ==> tx == old(tx)
      ensures out.Drop? ==> id in tx.halves && tx.halves[id].terminal.Some? && tx.halves[id].held.None?
      ensures OnlyFails()
    {
      hide SendOk, Running, Runs, Now, TokOk, CrossOk, Rest, FailAll, Known, IsBidi;
      var r := AskWritable(t, id);
      if r.Err? && r.error.StreamStopped? {
        SendTerminalTransition(t, id, Stopped(r.error.code));
        return Drop;
      }
      CrossHanded(tx.halves, led, adm.admit, handed, past, parking.orphan);
      ParkKeeps(tx, led, parking, t.wire, id, r.Ok?);
      if r.Ok? {
        parking := parking.(armed := parking.armed + {id});
      } else {
        parking := parking.(gone := parking.gone + {id});
      }
      out := Park;
    }

    /** A stop, a block, a closing connection or a bug: the operation never spins and is never dropped. */
    method ClassifySendErr(t: QuicConn, id: Id, err: QuicError) returns (out: TurnOutcome)
      requires Turning(t, id) && (ClassifySend(err).ClassSendGone? ==> id in t.told.dead)
      requires Blames(t.answers, id, err)
      modifies `tx, `resolved, `home, `adm, `rx, `parking, t`told, t`answers
      ensures Inv(t, {}, {}) && TurnFrame(id) && !out.Requeue?
      ensures tx == old(tx) || (id in tx.halves && tx.halves[id].terminal.Some? && tx.halves[id].held.None?)
      ensures OnlyFails()
    {
      hide Inv, FailAll, Known, ClassifySend;
      match ClassifySend(err) {
        case ClassStopped(code) =>
          SendTerminalTransition(t, id, Stopped(code));
          out := Drop;
        case ClassBlocked =>
          out := RearmSend(t, id);
        case ClassSendGone =>
          if connTerminal.Some? {
            SendTerminalTransition(t, id, SendConn(connTerminal.value));
          } else {
            LeaveForClose(t, id);
          }
          out := Drop;
        case _ =>
          SendTerminalTransition(t, id, SendConn(Internal("unexpected stream_send error")));
          out := Drop;
      }
    }

    /** The connection is going away without a terminal yet: the queued work waits for connection close. */
    method LeaveForClose(ghost t: QuicConn, id: Id)
      requires Turning(t, id) && id in t.told.dead
      modifies `tx, `parking
      ensures Inv(t, {}, {}) && tx == old(tx) && parking == old(parking).(gone := old(parking).gone + {id})
    {
      hide SendOk, Running, Runs, Now, TokOk, CrossOk, Rest;
      CrossHanded(tx.halves, led, adm.admit, handed, past, parking.orphan);
      ParkKeeps(tx, led, parking, t.wire, id, false);
      DropSendMembership(id);
      parking := parking.(gone := parking.gone + {id});
    }

    /** The transport accepted the next n unsent bytes of `id`, with FIN if `fin`, and nothing else. */
    twostate predicate WireStep(t: QuicConn, id: Id, n: nat, fin: bool)
      requires old(id in tx.halves)
      reads this, t`wire
    {
      && n <= |Todo(old(tx.halves[id]))|
      && At(t.wire, id) == Sent(old(tx.halves[id]), At(old(t.wire), id), n, fin)
      && (forall x | x != id :: At(t.wire, x) == At(old(t.wire), x))
    }

    /** The FIN has left: completing the head Finish yields a coherent, finished half. */
    ghost predicate FinLeft(t: QuicConn, id: Id)
      reads this, t`wire, t`taken, t`shutdowns, t`told, t`surfaced, t`closes, t`sent, t`answers
    {
      && id in tx.halves && id !in tx.runSet
      && var h := tx.halves[id];
      && h.ops != [] && h.ops[0].FinishOp? && |h.ops| == 1 && h.held.None? && h.terminal.None?
      && h.pendingReset.None? && id in led && id !in marks.finals
      && At(t.wire, id).fins == led[id].base.fins + 1 && At(t.wire, id).bytes == led[id].base.bytes + led[id].submitted
      && SendOk(PutHalf(tx, id, h.(ops := [], finished := true)), led, parking, t.wire, {})
      && TokOk(tx.halves, io, home, resolved, abandoned)
      && CrossOk(tx.halves, led, adm.admit, handed, past, parking.orphan)
      && ToldOk(parking, idle, t.told, t.surfaced)
      && Within(parking, past, handed)
      && Running(t)
      && Rest(t, {})
    }

    /** The transport took part of what `id` has left, and its half does not know yet. */
    ghost predicate Sending(t: QuicConn, id: Id, wire: map<Id, Wire>)
      reads this, t`wire, t`taken, t`shutdowns, t`told, t`surfaced, t`closes, t`sent, t`answers
    {
      && SendOk(tx, led, parking, wire, {id}) && TokOk(tx.halves, io, home, resolved, abandoned)
      && CrossOk(tx.halves, led, adm.admit, handed, past, parking.orphan)
      && ToldOk(parking, idle, t.told, t.surfaced) && Within(parking, past, handed) && Rest(t, {})
      && Running(t)
      && id !in tx.runSet && id in tx.halves && tx.halves[id].terminal.None? && tx.halves[id].pendingReset.None?
      && id !in marks.finals
    }

    /** Drop the accepted bytes from the held write. */
    method TakeFlushed(t: QuicConn, id: Id, took: nat, ghost wire: map<Id, Wire>)
      requires Sending(t, id, wire) && tx.halves[id].held.Some? && took <= |Offer(tx.halves[id].held.value)|
      requires t.wire == Accepted(wire, id, Offer(tx.halves[id].held.value), took, false)
      modifies `tx
      ensures Turning(t, id) && tx == PutHalf(old(tx), id, Flushed(old(tx).halves[id], took)) && TurnFrame(id)
      ensures took <= |Todo(old(tx).halves[id])| && Todo(tx.halves[id]) == Todo(old(tx).halves[id])[took..]
      ensures At(t.wire, id) == Sent(old(tx).halves[id], At(wire, id), took, false)
      ensures took > 0 ==> Shrinks(old(tx).halves[id], tx.halves[id])
    {
      hide SendOk, Runs, TokOk, CrossOk, Rest, Offer, Todo, Shrinks, NoGrowth, ToldOk, Known;
      var h := tx.halves[id];
      OfferIsPrefix(h.held.value);
      FlushKeeps(tx, led, parking, wire, id, took);
      OthersKept(tx.halves, id, Flushed(h, took));
      TokSame(tx.halves, io, home, resolved, abandoned, id, Flushed(h, took));
      CrossPut(tx.halves, led, adm.admit, handed, past, parking.orphan, id, Flushed(h, took));
      CrossHanded(tx.halves, led, adm.admit, handed, past, parking.orphan);
      ShrinkStep(base, Now(t), id, Flushed(h, took));
      tx := PutHalf(tx, id, Flushed(h, took));
    }

    /** The held write left whole, with the FIN. */
    method TakeLast(t: QuicConn, id: Id, ghost wire: map<Id, Wire>)
      requires Sending(t, id, wire) && tx.halves[id].held.Some?
      requires tx.halves[id].ops != [] && tx.halves[id].ops[0].FinishOp?
      requires |Offer(tx.halves[id].held.value)| == tx.halves[id].held.value.Remaining()
      requires t.wire == Accepted(wire, id, Offer(tx.halves[id].held.value), |Offer(tx.halves[id].held.value)|, true)
      modifies `tx
      ensures FinLeft(t, id) && tx == PutHalf(old(tx), id, old(tx).halves[id].(held := None)) && TurnFrame(id)
      ensures At(t.wire, id).bytes == led[id].base.bytes + led[id].submitted
      ensures At(t.wire, id).fins == led[id].base.fins + 1
      ensures |Todo(old(tx).halves[id])| == |Offer(old(tx).halves[id].held.value)|
      ensures At(t.wire, id) == Sent(old(tx).halves[id], At(wire, id), |Todo(old(tx).halves[id])|, true)
    {
      hide SendOk, Runs, TokOk, CrossOk, Rest, Offer, Todo, NoGrowth, ToldOk, Known;
      var h := tx.halves[id];
      FinFlushed(tx, led, parking, wire, id);
      UnholdingWeighsLess(h);
      OthersKept(tx.halves, id, h.(held := None));
      TokSame(tx.halves, io, home, resolved, abandoned, id, h.(held := None));
      CrossPut(tx.halves, led, adm.admit, handed, past, parking.orphan, id, h.(held := None));
      CrossHanded(tx.halves, led, adm.admit, handed, past, parking.orphan);
      ShrinkStep(base, Now(t), id, h.(held := None));
      tx := PutHalf(tx, id, h.(held := None));
      assert PutHalf(tx, id, tx.halves[id].(ops := [], finished := true)) ==
             PutHalf(old(tx), id, h.(ops := [], held := None, finished := true));
    }

    lemma HeldIsNotEmpty(t: QuicConn, id: Id)
      requires Turning(t, id) && tx.halves[id].held.Some?
      ensures tx.halves[id].held.value.Remaining() > 0
    {
      hide SendOk, Running, Runs, Now, TokOk, CrossOk, Rest;
      HeldNotEmpty(tx, led, parking, t.wire, {id}, id);
    }

    /** One `stream_send` of the held write. FIN rides only the chunk that empties it. */
    method FlushHeldOnce(t: QuicConn, id: Id, fin: bool) returns (out: HeldFlush, ghost n: nat)
      requires id in tx.halves && Turning(t, id) && tx.halves[id].held.Some?
      requires fin ==> FinishNext(tx.halves[id])
      modifies `tx, `resolved, `home, `adm, `rx, `parking, t`wire, t`sent, t`told, t`answers
      ensures TurnFrame(id) && WireStep(t, id, n, fin && out.Complete?)
      ensures out.Complete? && fin ==>
                && FinLeft(t, id) && tx == PutHalf(old(tx), id, old(tx).halves[id].(held := None))
                && At(t.wire, id).bytes == led[id].base.bytes + led[id].submitted
                && At(t.wire, id).fins == led[id].base.fins + 1
                && resolved == old(resolved)
                && t.sent != [] && t.sent[|t.sent| - 1].id == id
                && t.sent[|t.sent| - 1].fin && t.sent[|t.sent| - 1].bytes != []
      ensures out.More? || (out.Complete? && !fin) ==>
                && Turning(t, id) && tx == PutHalf(old(tx), id, tx.halves[id])
                && Shrinks(old(tx).halves[id], tx.halves[id])
                && tx.halves[id].ops == old(tx).halves[id].ops
                && Todo(tx.halves[id]) == Todo(old(tx).halves[id])[n..]
      ensures out.Complete? ==> tx.halves[id].held.None?
      ensures out.Blocked? || out.Terminal? ==> Inv(t, {}, {})
      ensures OnlyFails()
    {
      hide Inv, Sending, FinLeft, Offer, Todo, Shrinks, Known;
      var h := tx.halves[id];
      var buf := h.held.value;
      OfferIsPrefix(buf);
      HeldIsNotEmpty(t, id);
      var offer := Offer(buf);
      var last := fin && |offer| == buf.Remaining();
      var r := SendOut(t, id, offer, last);
      if r.Err? {
        n := 0;
        SentNothing(h, At(t.wire, id));
        var o := ClassifySendErr(t, id, r.error);
        out := if o.Park? then Blocked else Terminal;
        return;
      }
      var took := r.value;
      n := took;
      AdvanceConsumes(buf, took);
      var rest := buf.Advance(took);
      if fin && rest.Remaining() == 0 {
        TakeLast(t, id, old(t.wire));
        out := Complete;
        return;
      }
      TakeFlushed(t, id, took, old(t.wire));
      if rest.Remaining() == 0 {
        out := Complete;
      } else if took == |offer| {
        out := More;
      } else {
        var o := RearmSend(t, id);
        out := if o.Drop? then Terminal else Blocked;
      }
    }

    /** Pop and complete the head Finish, retire the half, and forget it if its receive side is gone. */
    method CompleteFinishOp(t: QuicConn, id: Id)
      requires FinLeft(t, id)
      modifies `tx, `resolved, `home, `adm, `rx, `led, `marks
      ensures Inv(t, {}, {}) && TurnFrame(id)
      ensures resolved == old(resolved)[old(tx).halves[id].ops[0].done := Delivered]
      ensures id in tx.halves ==> tx.halves[id].finished && tx.halves[id].terminal.None? && led == old(led)
    {
      hide Inv, FinLeft, NoGrowth, Extends, Known;
      RetireFinished(t, id);
      ghost var halves := tx.halves;
      OthersKept(halves, id, halves[id]);
      ReclaimFinishedSend(t, id, {});
    }

    /** Complete the head operation, and mark the direction done. */
    method FinishHead(ghost t: QuicConn, id: Id)
      requires id in tx.halves && tx.halves[id].ops != [] && tx.halves[id].ops[0].done !in resolved
      requires Running(t) && id in led && id !in tx.runSet && id !in marks.finals
      requires tx.halves[id].ops == [FinishOp(tx.halves[id].ops[0].done)] && tx.halves[id].terminal.None?
      requires tx.halves[id].pendingReset.None? && At(t.wire, id).fins == led[id].base.fins + 1
      requires At(t.wire, id).bytes == led[id].base.bytes + led[id].submitted
      requires AdmitOk(adm, rx.halves.Keys, handed, isServer)
      requires RecvOk(rx, sealed, idle, handed, t.taken, {}) && EarlyOk(adm, early, handed, hand)
      modifies `tx, `resolved, `home, `adm, `rx, `marks
      ensures var h := old(tx).halves[id];
              && tx == PutHalf(old(tx), id, h.(ops := [], finished := true)) && Running(t)
              && resolved == old(resolved)[h.ops[0].done := Delivered] && home == old(home) - {h.ops[0].done}
      ensures marks == old(marks).(finals := old(marks).finals[id := led[id]])
      ensures adm == old(adm).(admit := SendDoneIn(old(adm).admit, id)) && rx.halves == old(rx).halves
      ensures AdmitOk(adm, rx.halves.Keys, handed, isServer)
      ensures RecvOk(rx, sealed, idle, handed, t.taken, {}) && EarlyOk(adm, early, handed, hand)
    {
      hide AdmitOk, RecvOk, EarlyOk, SendDoneIn, Runs, At, PutHalf, DropRun;
      var h := tx.halves[id];
      assert h.ops[1..] == [];
      FinishStep(base, Now(t), id, h.ops[0].done);
      PutAside(tx, id, h.(ops := [], finished := true));
      RetireHead(t, id);
    }

    /** The head leaves the queue, delivered, and the half is done. */
    method RetireHead(ghost t: QuicConn, id: Id)
      requires id in tx.halves && tx.halves[id].ops != [] && tx.halves[id].ops[0].done !in resolved
      requires id in led
      requires AdmitOk(adm, rx.halves.Keys, handed, isServer)
      requires RecvOk(rx, sealed, idle, handed, t.taken, {}) && EarlyOk(adm, early, handed, hand)
      modifies `tx, `resolved, `home, `adm, `rx, `marks
      ensures var h := old(tx).halves[id];
              && tx == DropRun(PutHalf(old(tx), id, h.(ops := h.ops[1..], finished := true)), id)
              && resolved == old(resolved)[h.ops[0].done := Delivered] && home == old(home) - {h.ops[0].done}
      ensures marks == old(marks).(finals := old(marks).finals[id := led[id]])
      ensures adm == old(adm).(admit := SendDoneIn(old(adm).admit, id)) && rx.halves == old(rx).halves
      ensures AdmitOk(adm, rx.halves.Keys, handed, isServer)
      ensures RecvOk(rx, sealed, idle, handed, t.taken, {}) && EarlyOk(adm, early, handed, hand)
    {
      hide AdmitOk, RecvOk, EarlyOk, SendDoneIn, Without;
      var h := tx.halves[id];
      Resolve(h.ops[0].done, Delivered);
      tx := PutHalf(tx, id, h.(ops := h.ops[1..]));
      marks := marks.(finals := marks.finals[id := led[id]]);
      MarkSendDone(t, id);
      assert old(tx).halves[id := h.(ops := h.ops[1..])][id := h.(ops := h.ops[1..], finished := true)]
             == old(tx).halves[id := h.(ops := h.ops[1..], finished := true)];
    }

    /** Pop and complete the head Finish and mark the direction done. */
    method RetireFinished(t: QuicConn, id: Id)
      requires FinLeft(t, id)
      modifies `tx, `resolved, `home, `adm, `rx, `marks
      ensures Inv(t, {}, {}) && TurnFrame(id) && id in tx.halves
      ensures resolved == old(resolved)[old(tx).halves[id].ops[0].done := Delivered]
      ensures tx.halves[id].finished && tx.halves[id].terminal.None?
    {
      hide AdmitOk, SendOk, Running, Runs, Now, TokOk, RecvOk, DrainsOk, CrossOk, DirOk, EarlyOk, IdsOk, SendDoneIn;
      hide PutHalf, ToldOk, At;
      hide DropRun;
      var h := tx.halves[id];
      assert h.ops[1..] == [];
      ghost var h' := h.(ops := [], finished := true);
      TokPop(tx.halves, io, home, resolved, abandoned, id, h', Delivered);
      CrossSendDone(tx.halves, led, adm.admit, handed, past, parking.orphan, id, h');
      EndedWeighsNothing(h, h');
      OthersKept(tx.halves, id, h');
      PutAside(tx, id, h');
      assert h.ops == [FinishOp(h.ops[0].done)];
      FinishHead(t, id);
    }

    /** The FIN leaves with the held bytes if there are any, else alone. */
    method ServiceFinishTurn(t: QuicConn, id: Id) returns (out: TurnOutcome, ghost n: nat, ghost fin: bool)
      requires Turning(t, id) && tx.halves[id].ops != [] && tx.halves[id].ops[0].FinishOp?
      modifies `tx, `resolved, `home, `adm, `rx, `parking, `led, `marks, t`wire, t`sent, t`told, t`answers
      ensures TurnFrame(id) && WireStep(t, id, n, fin)
      ensures id in tx.halves ==> led == old(led)
      ensures out.Requeue? ==> Turning(t, id) && Shrinks(old(tx).halves[id], tx.halves[id])
      ensures !out.Requeue? ==> Inv(t, {}, {})
      ensures fin ==>
                && resolved == old(resolved)[old(tx).halves[id].ops[0].done := Delivered]
                && At(t.wire, id).bytes == old(led)[id].base.bytes + old(led)[id].submitted
                && At(t.wire, id).fins == old(led)[id].base.fins + 1
                && t.sent != [] && t.sent[|t.sent| - 1].id == id && t.sent[|t.sent| - 1].fin
                && (old(tx).halves[id].held.Some? ==> t.sent[|t.sent| - 1].bytes != [])
      ensures !fin ==> OnlyFails()
    {
      hide Inv, Todo, Shrinks, Known, FinLeft;
      n, fin := 0, false;
      if tx.halves[id].held.Some? {
        var f;
        f, n := FlushHeldOnce(t, id, true);
        match f {
          case Complete =>
            fin := true;
            CompleteFinishOp(t, id);
            out := Drop;
          case More => out := Requeue;
          case Blocked => out := Park;
          case Terminal => out := Drop;
        }
      } else {
        out, n, fin := SendBareFin(t, id);
      }
    }

    lemma BareFinLeft(t: QuicConn, id: Id, wire: map<Id, Wire>)
      requires id in tx.halves && Sending(t, id, wire) && t.wire == Accepted(wire, id, [], 0, true)
      requires tx.halves[id].ops != [] && tx.halves[id].ops[0].FinishOp? && tx.halves[id].held.None?
      ensures FinLeft(t, id) && id in led
      ensures At(t.wire, id) == Sent(tx.halves[id], At(wire, id), 0, true)
      ensures At(t.wire, id).bytes == led[id].base.bytes + led[id].submitted
      ensures At(t.wire, id).fins == led[id].base.fins + 1
    {
      hide SendOk, Running, Runs, Now, TokOk, CrossOk, Rest, Todo;
      FinishLast(tx, led, parking, wire, {id}, id);
      FinKeeps(tx, led, parking, wire, id, t.wire);
      assert PutHalf(tx, id, tx.halves[id].(ops := [], finished := true)) ==
             PutHalf(tx, id, tx.halves[id].(ops := [], held := None, finished := true));
    }

    /** With nothing held, the FIN goes out alone. */
    method SendBareFin(t: QuicConn, id: Id) returns (out: TurnOutcome, ghost n: nat, ghost fin: bool)
      requires Turning(t, id) && tx.halves[id].ops != [] && tx.halves[id].ops[0].FinishOp? && tx.halves[id].held.None?
      modifies `tx, `resolved, `home, `adm, `rx, `parking, `led, `marks, t`wire, t`sent, t`told, t`answers
      ensures TurnFrame(id) && WireStep(t, id, n, fin) && Inv(t, {}, {}) && !out.Requeue?
      ensures id in tx.halves ==> led == old(led)
      ensures fin ==>
                && resolved == old(resolved)[old(tx).halves[id].ops[0].done := Delivered]
                && At(t.wire, id).bytes == old(led)[id].base.bytes + old(led)[id].submitted
                && At(t.wire, id).fins == old(led)[id].base.fins + 1
                && t.sent != [] && t.sent[|t.sent| - 1].id == id && t.sent[|t.sent| - 1].fin
      ensures !fin ==> OnlyFails()
    {
      hide Inv, Sending, FinLeft, Todo, Shrinks, Known;
      n, fin := 0, false;
      SentNothing(tx.halves[id], At(t.wire, id));
      var r := SendOut(t, id, [], true);
      if r.Ok? {
        fin := true;
        BareFinLeft(t, id, old(t.wire));
        CompleteFinishOp(t, id);
        out := Drop;
      } else {
        out := ClassifySendErr(t, id, r.error);
      }
    }

    /** After a completed operation left the queue: runnable iff more remain. */
    method RunnableAfterPop(ghost t: QuicConn, id: Id) returns (out: TurnOutcome)
      requires Turning(t, id)
      ensures out == if tx.halves[id].ops != [] then Requeue else Drop
      ensures out.Drop? ==> Inv(t, {}, {})
    {
      hide AdmitOk, TokOk, RecvOk, DrainsOk, CrossOk, DirOk, EarlyOk, IdsOk, HalfOk, QueueOk, Now, Extends;
      out := if tx.halves[id].terminal.None? && tx.halves[id].ops != [] then Requeue else Drop;
    }

    /** Ask for the send capacity of a stream that was handed out. */
    method HearCapacity(t: QuicConn, id: Id, ghost exc: set<Id>) returns (cap: Result<nat, QuicError>)
      requires Inv(t, exc, {}) && id in handed.send
      modifies t`told, t`answers
      ensures Inv(t, exc, {}) && t.told == old(t.told).(capacity := cap, dead := t.told.dead)
      ensures cap.Err? ==> Blames(t.answers, id, cap.error)
      ensures cap.Err? && ClassifySend(cap.error).ClassSendGone? ==> id in t.told.dead
      ensures AnswersGrow(old(t.answers), t.answers) && t.answers.shown == old(t.answers).shown
    {
      hide SendOk, Runs, TokOk, CrossOk, Rest, Probed, ClassifySend;
      ghost var was := Now(t);
      cap := t.StreamCapacity(id);
      ProbedGrows(was.answers, id, cap);
      ProbedShows(was.answers, id, cap);
      AnswerStep(base, was, t.answers);
    }

    /** Ask for the send capacity of the half whose turn it is. */
    method AskCapacity(t: QuicConn, id: Id) returns (cap: Result<nat, QuicError>)
      requires Turning(t, id)
      modifies t`told, t`answers
      ensures Turning(t, id) && t.told.capacity == cap
      ensures cap.Err? ==> Blames(t.answers, id, cap.error)
      ensures cap.Err? && ClassifySend(cap.error).ClassSendGone? ==> id in t.told.dead
    {
      hide Inv, ClassifySend;
      HalvesAreHanded(t, {id});
      cap := HearCapacity(t, id, {id});
    }

    lemma HalvesAreHanded(t: QuicConn, exc: set<Id>)
      requires Inv(t, exc, {})
      ensures tx.halves.Keys <= handed.send && tx.halves.Keys == led.Keys
    {
      hide SendOk, Running, Runs, Now, TokOk, CrossOk, Rest;
      CrossHanded(tx.halves, led, adm.admit, handed, past, parking.orphan);
    }

    /** Hold a write that fits the send capacity, else make one bounded partial write. */
    method ServiceHeadWrite(t: QuicConn, id: Id) returns (out: TurnOutcome, ghost n: nat)
      requires Turning(t, id) && tx.halves[id].held.None?
      requires tx.halves[id].ops != [] && tx.halves[id].ops[0].WriteOp?
      modifies `tx, `resolved, `home, `adm, `rx, `parking, t`wire, t`sent, t`told, t`answers
      ensures TurnFrame(id) && WireStep(t, id, n, false)
      ensures out.Requeue? ==> Turning(t, id) && Shrinks(old(tx).halves[id], tx.halves[id])
      ensures id in tx.halves && tx.halves[id].held.Some? ==>
                t.told.capacity.Ok? && old(tx).halves[id].ops[0].buf.Remaining() <= t.told.capacity.value
      ensures !out.Requeue? ==> Inv(t, {}, {})
    {
      hide Inv, Offer, Todo, Shrinks, OpsBytes, Known;
      n := 0;
      var h := tx.halves[id];
      var buf := h.ops[0].buf;
      var cap := AskCapacity(t, id);
      SentNothing(h, At(t.wire, id));
      if cap.Err? {
        out := ClassifySendErr(t, id, cap.error);
      } else if buf.Remaining() > 0 && cap.value >= buf.Remaining() {
        out := HoldHead(t, id);
      } else if buf.Remaining() == 0 {
        out := PopWritten(t, id);
      } else {
        out, n := PartialWrite(t, id);
      }
    }

    /** Complete the head operation; `h'` is the half without it. */
    method CompleteHead(ghost t: QuicConn, id: Id, h': SendHalf)
      requires Turning(t, id) && tx.halves[id].ops != [] && tx.halves[id].ops[0].WriteOp?
      requires SendOk(PutHalf(tx, id, h'), led, parking, t.wire, {id})
      requires h' == tx.halves[id].(ops := tx.halves[id].ops[1..], held := h'.held)
      modifies `tx, `resolved, `home
      ensures Turning(t, id) && tx == PutHalf(old(tx), id, h') && Settles()
      ensures resolved == old(resolved)[old(tx).halves[id].ops[0].done := Delivered]
    {
      hide SendOk, Running, Runs, Now, TokOk, CrossOk, Rest, ToldOk;
      var h := tx.halves[id];
      TokPop(tx.halves, io, home, resolved, abandoned, id, h', Delivered);
      CrossPut(tx.halves, led, adm.admit, handed, past, parking.orphan, id, h');
      CrossHanded(tx.halves, led, adm.admit, handed, past, parking.orphan);
      DeliverHead(t, id, h');
    }

    /** The head write leaves the queue, delivered. */
    method DeliverHead(ghost t: QuicConn, id: Id, h': SendHalf)
      requires Running(t) && id in tx.halves && id in led
      requires tx.halves[id].ops != [] && tx.halves[id].ops[0].WriteOp? && tx.halves[id].ops[0].done !in resolved
      requires h' == tx.halves[id].(ops := tx.halves[id].ops[1..], held := h'.held)
      modifies `tx, `resolved, `home
      ensures Running(t) && tx == PutHalf(old(tx), id, h')
      ensures var tok := old(tx).halves[id].ops[0].done;
              resolved == old(resolved)[tok := Delivered] && home == old(home) - {tok}
    {
      hide Runs, PutHalf;
      CompleteStep(base, Now(t), id, h');
      Resolve(tx.halves[id].ops[0].done, Delivered);
      tx := PutHalf(tx, id, h');
    }

    /** Complete the head write and keep its bytes back, so that a following FIN can ride with them. */
    method HoldHead(ghost t: QuicConn, id: Id) returns (out: TurnOutcome)
      requires Turning(t, id) && tx.halves[id].held.None?
      requires tx.halves[id].ops != [] && tx.halves[id].ops[0].WriteOp? && tx.halves[id].ops[0].buf.Remaining() > 0
      modifies `tx, `resolved, `home
      ensures TurnFrame(id) && id in tx.halves && Shrinks(old(tx).halves[id], tx.halves[id])
      ensures tx == PutHalf(old(tx), id, Holding(old(tx).halves[id]))
      ensures resolved == old(resolved)[old(tx).halves[id].ops[0].done := Delivered]
      ensures out.Requeue? ==> Turning(t, id)
      ensures !out.Requeue? ==> Inv(t, {}, {})
    {
      hide SendOk, Running, Runs, Now, TokOk, CrossOk, Rest, Todo, Shrinks, NoGrowth, ToldOk;
      var h := tx.halves[id];
      HoldKeeps(tx, led, parking, t.wire, id);
      ShrinksWeighs(h, Holding(h));
      OthersKept(tx.halves, id, Holding(h));
      CompleteHead(t, id, Holding(h));
      out := RunnableAfterPop(t, id);
    }

    /** Pop the fully accepted head write and complete it. */
    method PopWritten(ghost t: QuicConn, id: Id) returns (out: TurnOutcome)
      requires Turning(t, id)
      requires tx.halves[id].ops != [] && tx.halves[id].ops[0].WriteOp? && tx.halves[id].ops[0].buf.Remaining() == 0
      modifies `tx, `resolved, `home
      ensures id in tx.halves && tx.halves[id].held == old(tx).halves[id].held
      ensures TurnFrame(id) && id in tx.halves && Shrinks(old(tx).halves[id], tx.halves[id])
      ensures resolved == old(resolved)[old(tx).halves[id].ops[0].done := Delivered]
      ensures out.Requeue? ==> Turning(t, id)
      ensures !out.Requeue? ==> Inv(t, {}, {})
    {
      hide SendOk, Running, Runs, Now, TokOk, CrossOk, Rest, Todo, Shrinks;
      var h := tx.halves[id];
      var h' := h.(ops := h.ops[1..]);
      PopKeeps(tx, led, parking, t.wire, id);
      ShrinksWeighs(h, h');
      OthersKept(tx.halves, id, h');
      CompleteHead(t, id, h');
      out := RunnableAfterPop(t, id);
    }

    /** One bounded `stream_send` of the head write. */
    method PartialWrite(t: QuicConn, id: Id) returns (out: TurnOutcome, ghost n: nat)
      requires Turning(t, id) && tx.halves[id].held.None?
      requires tx.halves[id].ops != [] && tx.halves[id].ops[0].WriteOp? && tx.halves[id].ops[0].buf.Remaining() > 0
      modifies `tx, `resolved, `home, `adm, `rx, `parking, t`wire, t`sent, t`told, t`answers
      ensures TurnFrame(id) && WireStep(t, id, n, false)
      ensures out.Requeue? ==> Turning(t, id) && Shrinks(old(tx).halves[id], tx.halves[id])
      ensures id in tx.halves && tx.halves[id].held.None?
      ensures !out.Requeue? ==> Inv(t, {}, {})
    {
      hide Inv, Sending, Offer, Todo, Shrinks, Known;
      var h := tx.halves[id];
      var buf := h.ops[0].buf;
      OfferIsPrefix(buf);
      SentNothing(h, At(t.wire, id));
      var r := SendOut(t, id, Offer(buf), false);
      if r.Err? {
        n := 0;
        out := ClassifySendErr(t, id, r.error);
        return;
      }
      var took := r.value;
      n := took;
      AdvanceConsumes(buf, took);
      TakeWritten(t, id, took, old(t.wire));
      if tx.halves[id].ops[0].buf.Remaining() == 0 {
        ghost var mid := tx.halves[id];
        out := PopWritten(t, id);
        ShrinksTrans(h, mid, tx.halves[id]);
      } else if took == |Offer(buf)| {
        out := Requeue;
      } else {
        out := RearmSend(t, id);
      }
    }

    /** Drop the accepted bytes from the head write. */
    method TakeWritten(t: QuicConn, id: Id, took: nat, ghost wire: map<Id, Wire>)
      requires Sending(t, id, wire) && tx.halves[id].held.None?
      requires tx.halves[id].ops != [] && tx.halves[id].ops[0].WriteOp?
      requires took <= |Offer(tx.halves[id].ops[0].buf)|
      requires t.wire == Accepted(wire, id, Offer(tx.halves[id].ops[0].buf), took, false)
      modifies `tx
      ensures Turning(t, id) && took <= |old(tx).halves[id].ops[0].buf.Chunk()|
      ensures tx == PutHalf(old(tx), id, Written(old(tx).halves[id], took)) && TurnFrame(id)
      ensures took <= |Todo(old(tx).halves[id])|
      ensures At(t.wire, id) == Sent(old(tx).halves[id], At(wire, id), took, false)
      ensures took > 0 ==> Shrinks(old(tx).halves[id], tx.halves[id])
    {
      hide SendOk, Runs, TokOk, CrossOk, Rest, Offer, Todo, Shrinks, NoGrowth, ToldOk, Known;
      var h := tx.halves[id];
      OfferIsPrefix(h.ops[0].buf);
      WriteKeeps(tx, led, parking, wire, id, took);
      OthersKept(tx.halves, id, Written(h, took));
      TokSame(tx.halves, io, home, resolved, abandoned, id, Written(h, took));
      CrossPut(tx.halves, led, adm.admit, handed, past, parking.orphan, id, Written(h, took));
      CrossHanded(tx.halves, led, adm.admit, handed, past, parking.orphan);
      ShrinkStep(base, Now(t), id, Written(h, took));
      tx := PutHalf(tx, id, Written(h, took));
    }

    /** Flush any held write first, so bytes leave in order, then serve the head write. */
    method ServiceWriteTurn(t: QuicConn, id: Id) returns (out: TurnOutcome, ghost n: nat)
      requires Turning(t, id) && tx.halves[id].ops != [] && tx.halves[id].ops[0].WriteOp?
      modifies `tx, `resolved, `home, `adm, `rx, `parking, t`wire, t`sent, t`told, t`answers
      ensures TurnFrame(id) && WireStep(t, id, n, false)
      ensures out.Requeue? ==> Turning(t, id) && Shrinks(old(tx).halves[id], tx.halves[id])
      ensures !out.Requeue? ==> Inv(t, {}, {})
    {
      hide Inv, Todo, Shrinks, Sent;
      n := 0;
      ghost var h := tx.halves[id];
      if tx.halves[id].held.Some? {
        var f;
        f, n := FlushHeldOnce(t, id, false);
        match f {
          case More => return Requeue, n;
          case Blocked => return Park, n;
          case Terminal => return Drop, n;
          case Complete =>
        }
        ghost var mid, k := tx.halves[id], 0;
        out, k := ServiceHeadWrite(t, id);
        SentTwice(h, At(old(t.wire), id), n, mid, k, false);
        if out.Requeue? { ShrinksTrans(h, mid, tx.halves[id]); }
        n := n + k;
      } else {
        out, n := ServiceHeadWrite(t, id);
      }
    }

    /** The one RESET_STREAM of a half, which then has its direction done. */
    method MakeReset(t: QuicConn, id: Id, code: nat)
      requires Running(t) && id in tx.halves && id in led && id in handed.send && id !in tx.runSet
      requires tx.halves[id].pendingReset == Some(code) && tx.halves[id].terminal == Some(LocalReset(code))
      requires AdmitOk(adm, rx.halves.Keys, handed, isServer)
      requires RecvOk(rx, sealed, idle, handed, t.taken, {}) && EarlyOk(adm, early, handed, hand)
      modifies `tx, `adm, `rx, t`wire, t`shutdowns
      ensures var h' := old(tx).halves[id].(pendingReset := None, finished := true);
              tx == PutHalf(old(tx), id, h')
      ensures Running(t)
      ensures adm == old(adm).(admit := SendDoneIn(old(adm).admit, id)) && rx.halves == old(rx).halves
      ensures AdmitOk(adm, rx.halves.Keys, handed, isServer)
      ensures RecvOk(rx, sealed, idle, handed, t.taken, {}) && EarlyOk(adm, early, handed, hand)
      ensures t.shutdowns == old(t.shutdowns) + [Shutdown(id, WriteSide, code)]
      ensures var w := At(old(t.wire), id); t.wire == old(t.wire)[id := w.(resets := w.resets + [code])]
    {
      hide AdmitOk, RecvOk, EarlyOk, SendDoneIn, Runs, At, PutHalf, DropRun;
      ResetStep(base, Now(t), id, code);
      PutAside(tx, id, tx.halves[id].(pendingReset := None, finished := true));
      CallReset(t, id, code);
    }

    /** The call itself; the half is done. */
    method CallReset(t: QuicConn, id: Id, code: nat)
      requires id in tx.halves && AdmitOk(adm, rx.halves.Keys, handed, isServer)
      requires RecvOk(rx, sealed, idle, handed, t.taken, {}) && EarlyOk(adm, early, handed, hand)
      modifies `tx, `adm, `rx, t`wire, t`shutdowns
      ensures var h' := old(tx).halves[id].(pendingReset := None, finished := true);
              tx == DropRun(PutHalf(old(tx), id, h'), id) && tx.halves == old(tx).halves[id := h']
      ensures adm == old(adm).(admit := SendDoneIn(old(adm).admit, id)) && rx.halves == old(rx).halves
      ensures AdmitOk(adm, rx.halves.Keys, handed, isServer)
      ensures RecvOk(rx, sealed, idle, handed, t.taken, {}) && EarlyOk(adm, early, handed, hand)
      ensures t.shutdowns == old(t.shutdowns) + [Shutdown(id, WriteSide, code)]
      ensures var w := At(old(t.wire), id); t.wire == old(t.wire)[id := w.(resets := w.resets + [code])]
    {
      hide AdmitOk, RecvOk, EarlyOk, SendDoneIn, Without;
      var h := tx.halves[id];
      tx := PutHalf(tx, id, h.(pendingReset := None));
      t.StreamShutdown(id, WriteSide, code);
      MarkSendDone(t, id);
      assert tx.halves == old(tx).halves[id := h.(pendingReset := None, finished := true)];
    }

    /** RESET_STREAM goes out before any other check, at any capacity. */
    method ServiceReset(t: QuicConn, id: Id)
      requires Inv(t, {id}, {}) && id !in tx.runSet && id in tx.halves && tx.halves[id].pendingReset.Some?
      modifies `tx, `adm, `rx, t`wire, t`shutdowns
      ensures Inv(t, {}, {}) && TurnFrame(id)
      ensures id in tx.halves && tx.halves[id] == old(tx).halves[id].(pendingReset := None, finished := true)
      ensures var code := old(tx).halves[id].pendingReset.value;
              && t.shutdowns == old(t.shutdowns) + [Shutdown(id, WriteSide, code)]
              && At(t.wire, id).resets == At(old(t.wire), id).resets + [code]
    {
      hide Inv, Known, NoGrowth, Extends, PutHalf;
      var h := tx.halves[id];
      ghost var h' := h.(pendingReset := None, finished := true);
      PutAside(tx, id, h');
      OthersKept(tx.halves, id, h');
      SameWorkWeighsTheSame(h, h');
      ExtendsSelf(resolved);
      SendReset(t, id);
    }

    /** Make the pending RESET_STREAM and mark the direction done. */
    method SendReset(t: QuicConn, id: Id)
      requires Inv(t, {id}, {}) && id !in tx.runSet && id in tx.halves && tx.halves[id].pendingReset.Some?
      modifies `tx, `adm, `rx, t`wire, t`shutdowns
      ensures Inv(t, {}, {}) && rx.halves == old(rx).halves
      ensures tx == PutHalf(old(tx), id, old(tx).halves[id].(pendingReset := None, finished := true))
      ensures var code, w := old(tx).halves[id].pendingReset.value, At(old(t.wire), id);
              && t.shutdowns == old(t.shutdowns) + [Shutdown(id, WriteSide, code)]
              && t.wire == old(t.wire)[id := w.(resets := w.resets + [code])]
    {
      hide AdmitOk, SendOk, Running, Runs, Now, TokOk, RecvOk, DrainsOk, CrossOk, DirOk, EarlyOk, IdsOk, SendDoneIn;
      hide PutHalf;
      hide DropRun;
      hide ToldOk, Within, At;
      var code := tx.halves[id].pendingReset.value;
      ResetServed(tx, led, parking, t.wire, io, home, resolved, abandoned, adm.admit, handed, past, t.shutdowns,
                  isServer, id);
      CrossHanded(tx.halves, led, adm.admit, handed, past, parking.orphan);
      PendingHasTerminal(tx, led, parking, t.wire, {id}, id);
      MakeReset(t, id, code);
    }

    /** Was `id` a live half with work to offer when its turn came? */
    predicate HasWork(id: Id)
      reads `tx
    {
      && id in tx.halves && tx.halves[id].terminal.None?
      && (tx.halves[id].ops != [] || tx.halves[id].held.Some?)
    }

    /** The head Finish was delivered with its FIN, after every byte submitted; a held write carried it. */
    twostate predicate FinServed(t: QuicConn, id: Id)
      reads this, t`wire, t`sent
    {
      && id in old(tx).halves && id in old(led)
      && old(tx).halves[id].ops != [] && old(tx).halves[id].ops[0].FinishOp?
      && resolved == old(resolved)[old(tx).halves[id].ops[0].done := Delivered]
      && At(t.wire, id).bytes == old(led)[id].base.bytes + old(led)[id].submitted
      && At(t.wire, id).fins == old(led)[id].base.fins + 1
      && t.sent != [] && t.sent[|t.sent| - 1].id == id && t.sent[|t.sent| - 1].fin
      && (old(tx).halves[id].held.Some? ==> t.sent[|t.sent| - 1].bytes != [])
    }

    /**
     * One turn. A pending reset is served first; a stale id is evicted; otherwise the half makes
     * one step of the plain sender, and asks for another turn only if it strictly shrank.
     */
    method ServiceSendTurn(t: QuicConn, id: Id) returns (out: TurnOutcome, ghost n: nat, ghost fin: bool)
      requires Inv(t, {id}, {}) && id !in tx.runSet
      modifies `tx, `resolved, `home, `adm, `rx, `parking, `led, `marks, t`wire, t`sent, t`shutdowns, t`told, t`answers
      ensures TurnFrame(id)
      ensures out.Requeue? ==>
                old(id in tx.halves) && id in tx.halves && Shrinks(old(tx).halves[id], tx.halves[id]) && Turning(t, id)
      ensures !out.Requeue? ==> Inv(t, {}, {})
      ensures old(HasWork(id)) ==> WireStep(t, id, n, fin) && (id in tx.halves ==> led == old(led))
      ensures old(HasWork(id)) && id in tx.halves && tx.halves[id].terminal.None? && id in led ==>
                PlainStep(View(old(tx).halves[id], led[id], At(old(t.wire), id)),
                          View(tx.halves[id], led[id], At(t.wire, id)), n, fin)
      ensures old(HasWork(id)) && fin ==> FinServed(t, id)
      ensures old(id in tx.halves && tx.halves[id].pendingReset.Some?) ==>
                && id in tx.halves && tx.halves[id].pendingReset.None?
                && t.shutdowns == old(t.shutdowns) + [Shutdown(id, WriteSide, old(tx).halves[id].pendingReset.value)]
      ensures old(!(id in tx.halves && tx.halves[id].pendingReset.Some?)) ==> t.shutdowns == old(t.shutdowns)
      ensures old(HasWork(id) && FinishNext(tx.halves[id])) && !fin ==> OnlyFails()
    {
      hide Inv, Todo, Shrinks, Sent, Known, PutHalf, PlainStep, Extends;
      n, fin := 0, false;
      ExtendsSelf(resolved);
      if id in tx.halves && tx.halves[id].pendingReset.Some? {
        PendingIsTerminal(t, id);
        ServiceReset(t, id);
        out := Drop;
      } else if !HasWork(id) {
        NothingLeftToDo(t, id);
        out := Drop;
      } else {
        out, n, fin := ServeWork(t, id);
      }
    }

    lemma PendingIsTerminal(t: QuicConn, id: Id)
      requires Inv(t, {id}, {}) && id in tx.halves && tx.halves[id].pendingReset.Some?
      ensures tx.halves[id].terminal.Some?
    {
      hide SendOk, Running, Runs, Now, TokOk, CrossOk, Rest;
      PendingHasTerminal(tx, led, parking, t.wire, {id}, id);
    }

    /** A half without work waits for nobody. */
    lemma NothingLeftToDo(t: QuicConn, id: Id)
      requires Inv(t, {id}, {}) && (id in tx.halves ==> tx.halves[id].pendingReset.None?)
      requires id in tx.halves ==> tx.halves[id].terminal.Some? || tx.halves[id].ops == []
      ensures Inv(t, {}, {})
    {
      hide SendOk, Running, Runs, Now, TokOk, CrossOk, Rest;
      NothingWaits(tx, led, parking, t.wire, id);
    }

    /** One step of the plain sender: the held write first, then the head of the queue. */
    method ServeWork(t: QuicConn, id: Id) returns (out: TurnOutcome, ghost n: nat, ghost fin: bool)
      requires id in tx.halves && tx.halves[id].pendingReset.None? && HasWork(id)
      requires Inv(t, {id}, {}) && id !in tx.runSet
      modifies `tx, `resolved, `home, `adm, `rx, `parking, `led, `marks, t`wire, t`sent, t`shutdowns, t`told, t`answers
      ensures TurnFrame(id) && t.shutdowns == old(t.shutdowns)
      ensures out.Requeue? ==> id in tx.halves && Shrinks(old(tx).halves[id], tx.halves[id]) && Turning(t, id)
      ensures !out.Requeue? ==> Inv(t, {}, {})
      ensures WireStep(t, id, n, fin) && (id in tx.halves ==> led == old(led))
      ensures id in tx.halves && tx.halves[id].terminal.None? && id in led ==>
                PlainStep(View(old(tx).halves[id], led[id], At(old(t.wire), id)),
                          View(tx.halves[id], led[id], At(t.wire, id)), n, fin)
      ensures fin ==> FinServed(t, id)
      ensures FinishNext(old(tx).halves[id]) && !fin ==> OnlyFails()
    {
      hide SendOk, Running, Runs, Now, TokOk, CrossOk, Rest, ToldOk, Todo, Shrinks, Sent, Known, PutHalf, PlainStep;
      hide Within, Extends;
      HalvesAreHanded(t, {id});
      fin := false;
      if tx.halves[id].ops == [] {
        var f;
        f, n := FlushHeldOnce(t, id, false);
        out := match f case More => Requeue case Blocked => Park case _ => Drop;
        if f.Complete? { NothingWaits(tx, led, parking, t.wire, id); }
      } else if tx.halves[id].ops[0].WriteOp? {
        out, n := ServiceWriteTurn(t, id);
      } else {
        out, n, fin := ServiceFinishTurn(t, id);
      }
      if id in tx.halves && tx.halves[id].terminal.None? {
        TurnIsPlain(old(tx), led, old(parking), old(t.wire), {id}, tx, parking, t.wire,
                    if out.Requeue? then {id} else {}, id, n, fin);
      }
    }

    /** Pop the head of the run queue for its turn. */
    method PopRunnable(ghost t: QuicConn) returns (id: Id)
      requires Inv(t, {}, {}) && tx.run != []
      modifies `tx, `parking
      ensures Inv(t, {id}, {}) && id == old(tx).run[0] && NoDup(old(tx).run)
      ensures tx == PopRun(old(tx)) && id !in tx.runSet
    {
      hide SendOk, Runs, TokOk, CrossOk, Rest;
      id := tx.run[0];
      SendPop(tx, led, parking, t.wire);
      MoveStep(base, Now(t), Served(id));
      tx := tx.(run := tx.run[1..], runSet := tx.runSet - {id}, steps := tx.steps + [Served(id)]);
      parking := parking.(armed := parking.armed - {id}, gone := parking.gone - {id});
    }

    /** A still-runnable id goes to the tail. */
    method RequeueTurn(ghost t: QuicConn, id: Id)
      requires Inv(t, {id}, {}) && id in tx.halves
      modifies `tx, `needsIteration
      ensures Inv(t, {}, {}) && tx == PushRun(old(tx), id) && needsIteration
    {
      hide SendOk, Runs, TokOk, CrossOk, Rest, PushRun;
      assert {} + {id} == {id};
      SendPushRun(tx, led, parking, t.wire, {}, id);
      PushRunKeepsHalves(tx, id);
      MoveStep(base, Now(t), Marked(id));
      MarkSendRunnable(id);
      needsIteration := true;
    }

    /** Pop the head of the run queue, give it one turn, and return it to the tail if still runnable. */
    method ServeNext(t: QuicConn) returns (id: Id)
      requires Inv(t, {}, {}) && tx.run != []
      modifies `tx, `resolved, `home, `adm, `rx, `parking, `led, `marks, `needsIteration, t`wire, t`sent, t`shutdowns
      modifies t`told, t`answers
      ensures Inv(t, {}, {}) && Settles() && rx.halves == old(rx.halves)
      ensures id == old(tx).run[0] && (tx.run == old(tx).run[1..] || tx.run == old(tx).run[1..] + [id])
      ensures RunWeight(tx.run, tx.halves) < RunWeight(old(tx).run, old(tx).halves)
      ensures old(needsIteration) ==> needsIteration
    {
      hide SendOk, Running, Runs, Now, TokOk, CrossOk, Rest, PlainStep, View, Todo, Shrinks, HasWork, Known, RunWeight;
      id := PopRunnable(t);
      ghost var before := tx.halves;
      var out, n, fin := ServiceSendTurn(t, id);
      if out.Requeue? { ShrinksWeighs(before[id], tx.halves[id]); }
      TurnLightens(old(tx).run, before, tx.halves, out.Requeue?);
      if out.Requeue? {
        RequeueTurn(t, id);
      }
    }

    /**
     * The round-robin stage: at most WRITE_BUDGET pops, in queue order, each still-runnable id
     * going to the tail. `turns` lists the ids served.
     */
    method StageSend(t: QuicConn) returns (ghost turns: seq<Id>)
      requires Inv(t, {}, {})
      modifies `tx, `resolved, `home, `adm, `rx, `parking, `led, `marks, `needsIteration, t`wire, t`sent, t`shutdowns
      modifies t`told, t`answers
      modifies `base
      ensures Inv(t, {}, {}) && Settles() && rx.halves == old(rx.halves)
      ensures tx.run != [] || old(needsIteration) ==> needsIteration
      ensures |turns| == WRITE_BUDGET || tx.run == []
      ensures RoundRobin(old(tx.run), turns, tx.run)
      ensures old(tx.run) != [] ==> RunWeight(tx.run, tx.halves) < RunWeight(old(tx).run, old(tx).halves)
      ensures History(t) && base == old(base)
    {
      hide Inv, RoundRobin, RunWeight, Grows, Now, Known;
      ghost var saved := Mark(t);
      turns := [];
      var left: nat := WRITE_BUDGET;
      RoundRobinStart(tx.run);
      while left > 0 && tx.run != []
        invariant left + |turns| == WRITE_BUDGET && base == old(Now(t))
        invariant Inv(t, {}, {}) && Settles() && rx.halves == old(rx.halves)
        invariant old(needsIteration) ==> needsIteration
        invariant RoundRobin(old(tx.run), turns, tx.run)
        invariant if turns == [] then tx == old(tx)
                  else RunWeight(tx.run, tx.halves) < RunWeight(old(tx).run, old(tx).halves)
      {
        left := left - 1;
        ghost var before := tx.run;
        var id := ServeNext(t);
        RoundRobinTurn(old(tx.run), turns, before, tx.run);
        turns := turns + [id];
      }
      if tx.run != [] {
        needsIteration := true;
      }
      Unmark(t, saved);
    }

    /** With no new commands or discoveries, finitely many send stages leave nothing runnable. */
    method StageSendUntilIdle(t: QuicConn) returns (ghost turns: seq<Id>)
      requires Inv(t, {}, {})
      modifies `tx, `resolved, `home, `adm, `rx, `parking, `led, `marks, `needsIteration, t`wire, t`sent, t`shutdowns
      modifies t`told, t`answers
      modifies `base
      ensures Inv(t, {}, {}) && Settles() && tx.run == []
      ensures RoundRobin(old(tx.run), turns, []) && old(tx.run) <= turns
      ensures forall id | id in tx.halves && tx.halves[id].terminal.None? && tx.halves[id].ops != [] ::
                id in t.told.armed + t.surfaced || id in t.told.dead || GivenStopped(id)
      ensures forall id | id in old(tx).halves && old(tx).halves[id].pendingReset.Some? && !GivenStopped(id) ::
                At(old(t.wire), id).resets + [old(tx).halves[id].pendingReset.value] <= At(t.wire, id).resets
      ensures History(t) && base == old(base)
    {
      hide Inv, RunWeight, RoundRobin, Extends, Grows;
      ExtendsSelf(resolved);
      Still(t);
      turns := [];
      RoundRobinStart(tx.run);
      while tx.run != []
        invariant Inv(t, {}, {}) && Settles() && History(t) && base == old(base)
        invariant RoundRobin(old(tx.run), turns, tx.run)
        decreases RunWeight(tx.run, tx.halves)
      {
        ghost var resolved1, mid, before := resolved, Now(t), tx.run;
        ghost var more := StageSend(t);
        RoundRobinOn(old(tx.run), turns, before, more, tx.run);
        turns := turns + more;
        ExtendsTrans(old(resolved), resolved1, resolved);
        GrowsTrans(old(Now(t)), mid, Now(t));
      }
      RoundRobinDone(old(tx.run), turns);
      NobodyForgotten(t);
      ResetsWereMade(t, old(Now(t)));
    }

    /** The handle of `id` was handed over with a stop already in its status cell. */
    ghost predicate GivenStopped(id: Id)
      reads `early
    {
      id in early.given && early.given[id].Some?
    }

    /** Once the run queue is empty, every queued operation waits for the transport or for connection close. */
    lemma NobodyForgotten(t: QuicConn)
      requires Inv(t, {}, {}) && tx.run == []
      ensures forall id | id in tx.halves && tx.halves[id].terminal.None? && tx.halves[id].ops != [] ::
                id in t.told.armed + t.surfaced || id in t.told.dead || GivenStopped(id)
      ensures forall id | id in tx.halves && tx.halves[id].pendingReset.Some? :: GivenStopped(id)
    {
      hide TokOk, Rest, HalfOk, Running, Runs, Now;
      RunIsExact(tx, led, parking, t.wire);
      PresetIsGiven(t);
    }

    lemma PresetIsGiven(t: QuicConn)
      requires Inv(t, {}, {})
      ensures forall id :: id in past.preset <==> GivenStopped(id)
    {
      hide SendOk, TokOk, CrossOk, Rest, Grows, WireLaw, CmdsLaw, EntriesLaw, AbsentLaw, FinalsLaw, ResetsLaw, RecvLaw;
      hide UndoneLaw, FirstStop, SeenEnd;
    }

    /** A reset that was pending and is no longer has been made. */
    lemma ResetsWereMade(t: QuicConn, was: Snap)
      requires Grows(was, Now(t))
      requires forall id | id in tx.halves && tx.halves[id].pendingReset.Some? :: GivenStopped(id)
      ensures forall id | id in was.tx.halves && was.tx.halves[id].pendingReset.Some? && !GivenStopped(id) ::
                At(was.wire, id).resets + [was.tx.halves[id].pendingReset.value] <= At(t.wire, id).resets
    {
      hide WireGrows, AnswersGrow, TokensGrow, HalvesGrow, QueueGrows, ReadsGrow, EarlyGrows, MarksGrow, Extends;
    }

    // ----- receive side -----

    /** A cursor `id` is not queued in does not move. */
    twostate predicate CursorsKept(id: Id)
      reads `rx
    {
      && (old(id !in rx.readableSet) ==> rx.readable == old(rx).readable && rx.readableSet == old(rx).readableSet)
      && (old(id !in rx.resumeSet) ==> rx.resume == old(rx).resume && rx.resumeSet == old(rx).resumeSet)
    }

    /** A stream that is now fully done loses its run-queue place, and work still queued on it is orphaned. */
    twostate predicate PlaceDropped(id: Id)
      reads `tx, `parking, `adm
    {
      if Retires(old(adm).admit, id) then tx == DropRun(old(tx), id) && parking == Orphaned(old(tx), old(parking), id)
      else tx == old(tx) && parking == old(parking)
    }

    /** Set `recvDone`, and drop a stream that is now fully done with its run-queue place. */
    method RetireRecv(ghost t: QuicConn, id: Id)
      requires SendOk(tx, led, parking, t.wire, {}) && CrossOk(tx.halves, led, adm.admit, handed, past, parking.orphan)
      requires Running(t)
      requires id !in rx.halves && id !in rx.readableSet && id !in rx.resumeSet
      requires id in adm.admit && adm.admit[id].Registered? && !IsBidi(id) ==> adm.admit[id].sendDone
      modifies `adm, `tx, `parking, `rx
      ensures SendOk(tx, led, parking, t.wire, {}) && CrossOk(tx.halves, led, adm.admit, handed, past, parking.orphan)
      ensures Running(t)
      ensures adm == old(adm).(admit := RecvDoneIn(old(adm).admit, id)) && rx == old(rx)
      ensures tx.halves == old(tx).halves && parking == old(parking).(orphan := parking.orphan)
      ensures parking == old(parking) || id in past.preset
      ensures PlaceDropped(id)
    {
      hide SendOk, Running, Runs, Now, CrossOk, Without, IsBidi;
      if id in adm.admit && adm.admit[id].Registered? {
        CrossRecvDone(tx.halves, led, adm.admit, handed, past, parking.orphan, id);
        adm := adm.(admit := adm.admit[id := adm.admit[id].(recvDone := true)]);
      }
      if AllTerminal(adm.admit, id) {
        OrphanKeeps(tx, led, parking, t.wire, id);
        OrphanOnlyPreset(tx, led, parking, t.wire, adm.admit, handed, past, id);
        parking := Orphaned(tx, parking, id);
        LeaveQueue(t, id);
      }
    }

    /** Contract A for a stream whose receive half is gone already. */
    method LeaveQueue(ghost t: QuicConn, id: Id)
      requires Running(t) && AllTerminal(adm.admit, id)
      requires id !in rx.halves && id !in rx.readableSet && id !in rx.resumeSet
      modifies `adm, `tx, `rx
      ensures Running(t) && adm == old(adm).(admit := old(adm).admit - {id})
      ensures tx == DropRun(old(tx), id) && rx == old(rx)
    {
      hide Runs, AllTerminal, DropRun, Without;
      MoveStep(base, Now(t), Evicted(id));
      TerminalTransition(id);
      assert rx.halves == old(rx).halves;
    }

    /** The sealing edge: release the receive half, leave both cursors, and retire the direction. */
    method MarkRecvDone(ghost t: QuicConn, id: Id)
      requires Inv(t, {}, {id})
      requires id in rx.halves ==> LetGoLaw(id, rx.halves[id], LogAt(drains, id), cmds) && Pc(id) == Some(Drain.Gone)
      modifies `rx, `adm, `tx, `led, `parking, `sealed
      ensures Inv(t, {}, {})
      ensures rx == Seal(old(rx), id) && sealed == SealIn(old(sealed), old(rx), id)
      ensures adm == old(adm).(admit := adm.admit)
      ensures parking == old(parking) || id in past.preset
      ensures old(id in tx.halves && !tx.halves[id].finished) ==> PlaceDropped(id)
    {
      hide Inv, Seal, SealIn, Orphaned, LetGoLaw;
      SealRecv(t, id);
      ReclaimFinishedSend(t, id, {});
    }

    /** Release the receive half, leave both cursors, and retire the direction. */
    method SealRecv(ghost t: QuicConn, id: Id)
      requires Inv(t, {}, {id})
      requires id in rx.halves ==> LetGoLaw(id, rx.halves[id], LogAt(drains, id), cmds) && Pc(id) == Some(Drain.Gone)
      modifies `rx, `adm, `tx, `parking, `sealed
      ensures Inv(t, {}, {})
      ensures rx == Seal(old(rx), id) && sealed == SealIn(old(sealed), old(rx), id)
      ensures adm == old(adm).(admit := RecvDoneIn(old(adm).admit, id)) && tx.halves == old(tx).halves
      ensures parking == old(parking) || id in past.preset
      ensures PlaceDropped(id)
    {
      hide SendOk, Running, Runs, Now, TokOk, CrossOk, AdmitOk, RecvOk, DrainsOk, EarlyOk, DirOk, IdsOk, RecvDoneIn;
      hide IsBidi;
      hide SealIn, Seal, LogAt, Drain.PcOf, LetGoLaw;
      SealKeeps(adm, rx, sealed, idle, early, handed, hand, t.taken, drains, connTerminal.Some?, isServer, id);
      ReleaseHalf(t, id);
      RetireRecv(t, id);
    }

    /** Drop a receive half's entry, its byte sender and its cursor places. */
    method ReleaseHalf(ghost t: QuicConn, id: Id)
      requires Running(t)
      requires id in rx.halves ==> id !in sealed && LetGoLaw(id, rx.halves[id], LogAt(drains, id), cmds)
      modifies `rx, `sealed
      ensures rx == Seal(old(rx), id) && sealed == SealIn(old(sealed), old(rx), id)
      ensures Running(t)
      ensures rx.halves.Keys == old(rx).halves.Keys - {id}
      ensures id !in rx.halves && id !in rx.readableSet && id !in rx.resumeSet
    {
      hide Without, Runs, SealIn, LetGoLaw, LogAt;
      SealStep(base, Now(t), rx, id);
      sealed := SealIn(sealed, rx, id);
      rx := rx.(halves := rx.halves - {id});
      DropRecvMemberships(id);
      assert rx.halves.Keys == old(rx).halves.Keys - {id};
    }

    /** Where the worker is with a receive half. */
    ghost function Pc(id: Id): Option<Drain.WorkerPc>
      reads `drains
    {
      Drain.PcOf(LogAt(drains, id))
    }

    /** Take a half up: it waits for nothing until the drain decides. */
    ghost method TakeUp(t: QuicConn, id: Id)
      requires Inv(t, {}, {})
      modifies `idle
      ensures Inv(t, {}, {id}) && idle == Awake(old(idle), id)
      ensures id in rx.halves ==> Resting(LogAt(drains, id), connTerminal.Some?)
      ensures id in rx.halves && connTerminal.None? ==> Pc(id) == Some(Drain.Away)
    {
      hide SendOk, Running, Runs, Now, TokOk, CrossOk, AdmitOk, RecvOk, DrainsOk, EarlyOk, DirOk, IdsOk, LogAt;
      hide Drain.PcOf;
      RecvWake(rx, sealed, idle, handed, t.taken, {}, id);
      DrainWoken(drains, rx.halves, sealed, idle.full, handed.recv, connTerminal.Some?, id);
      idle := Awake(idle, id);
    }

    /** An operation on a live receive half, as a step of the run. */
    ghost method Log(t: QuicConn, id: Id, a: Drain.Act)
      requires Running(t) && id !in sealed
      modifies `drains
      ensures Running(t) && drains == Noted(old(drains), id, a)
    {
      hide Runs, Noted;
      DrainStep(base, Now(t), id, a);
      drains := Noted(drains, id, a);
    }

    /** A live receive half changes in place. */
    method PutRecv(ghost t: QuicConn, id: Id, h: RecvHalf)
      requires id in rx.halves
      modifies `rx
      ensures (old(Running(t)) ==> Running(t)) && rx.halves.Keys == old(rx).halves.Keys
      ensures rx == old(rx).(halves := old(rx).halves[id := h])
    {
      rx := rx.(halves := rx.halves[id := h]);
      assert rx.halves.Keys == old(rx).halves.Keys;
    }

    /** Note an operation on the half being served that pushes nothing. */
    ghost method Note(t: QuicConn, id: Id, a: Drain.Act)
      requires Inv(t, {}, {id}) && id in rx.halves && Drain.ChunkOf(a) == [] && !a.Published? && !a.ConnClosed?
      requires Pc(id).Some? && Drain.Move(Pc(id).value, a).Some?
      modifies `drains
      ensures Inv(t, {}, {id}) && drains == Noted(old(drains), id, a)
      ensures Pc(id) == Drain.Move(old(Pc(id)).value, a)
    {
      hide SendOk, Running, Runs, Now, TokOk, CrossOk, AdmitOk, RecvOk, DrainsOk, EarlyOk, DirOk, IdsOk, Noted;
      RecvServed(rx, sealed, idle, handed, t.taken, id);
      DrainNoted(drains, rx.halves, sealed, idle.full, handed.recv, connTerminal.Some?, id, a, rx.halves[id]);
      assert rx.halves[id := rx.halves[id]] == rx.halves;
      Log(t, id, a);
    }

    method PublishRecvTerminal(ghost t: QuicConn, id: Id, end: RecvEnd)
      requires Inv(t, {}, {id}) && id in rx.halves && Pc(id) == Some(Drain.Publish(end))
      modifies `rx, `drains
      ensures Inv(t, {}, {id}) && id in rx.halves && rx.halves[id].end.Some? && Pc(id) == Some(Drain.SealOff)
      ensures rx == old(rx).(halves := old(rx).halves[id := Published(old(rx).halves[id], end)])
    {
      hide SendOk, Running, Runs, Now, TokOk, CrossOk, AdmitOk, RecvOk, DrainsOk, EarlyOk, DirOk, IdsOk, Noted, LogAt;
      hide Drain.PcOf;
      ghost var a := Drain.Published(end);
      RecvServed(rx, sealed, idle, handed, t.taken, id);
      RecvPublish(rx, sealed, idle, handed, t.taken, {id}, id, end);
      assert rx.halves[id].pushed + [] == rx.halves[id].pushed;
      DrainNoted(drains, rx.halves, sealed, idle.full, handed.recv, connTerminal.Some?, id, a,
                 Published(rx.halves[id], end));
      Log(t, id, a);
      PutRecv(t, id, Published(rx.halves[id], end));
    }

    /** A dropped consumer: STOP_SENDING with H3_NO_ERROR, then let the half go. */
    method AbandonRecv(t: QuicConn, id: Id)
      requires Inv(t, {}, {id}) && id in rx.halves
      requires Pc(id) == Some(Drain.Abandon)
      modifies `rx, `adm, `tx, `led, `parking, `sealed, t`shutdowns, t`wire, `drains
      ensures Inv(t, {}, {}) && id !in rx.halves
      ensures t.shutdowns == old(t.shutdowns) + [Shutdown(id, ReadSide, H3_NO_ERROR)]
      ensures adm == old(adm).(admit := adm.admit)
      ensures CursorsKept(id)
    {
      StopRecv(t, id, H3_NO_ERROR);
    }

    /** STOP_SENDING on a handed-out receive half, then let it go without a terminal. */
    method StopRecv(t: QuicConn, id: Id, code: nat)
      requires Inv(t, {}, {id}) && id in handed.recv
      requires id in rx.halves ==>
                 (Pc(id) == Some(Drain.Away) && StopAsked(cmds, id)) || Pc(id) == Some(Drain.Abandon)
      modifies `rx, `adm, `tx, `led, `parking, `sealed, t`shutdowns, t`wire, `drains
      ensures Inv(t, {}, {}) && id !in rx.halves
      ensures t.shutdowns == old(t.shutdowns) + [Shutdown(id, ReadSide, code)]
      ensures adm == old(adm).(admit := adm.admit)
      ensures sealed == SealIn(old(sealed), old(rx), id)
      ensures CursorsKept(id)
      ensures old(id in tx.halves && !tx.halves[id].finished) ==> PlaceDropped(id)
    {
      hide Inv, Retires, Orphaned, StopAsked, Drain.PcOf, Drain.Abandoned;
      SayStop(t, id, code);
      if id in rx.halves {
        GivenUpLawfully(id);
        Note(t, id, Drain.GivenUp);
      }
      MarkRecvDone(t, id);
    }

    lemma GivenUpLawfully(id: Id)
      requires id in rx.halves
      requires (Pc(id) == Some(Drain.Away) && StopAsked(cmds, id)) || Pc(id) == Some(Drain.Abandon)
      ensures LetGoLaw(id, rx.halves[id], LogAt(Noted(drains, id, Drain.GivenUp), id), cmds)
      ensures Drain.Move(Pc(id).value, Drain.GivenUp) == Some(Drain.Gone)
    {
      hide StopAsked, Drain.PcOf;
      Drain.GoneHasEnd(LogAt(drains, id));
      Drain.StartsAway();
    }

    /** Send STOP_SENDING. */
    method SayStop(t: QuicConn, id: Id, code: nat)
      requires Inv(t, {}, {id}) && id in handed.recv
      modifies t`shutdowns, t`wire
      ensures Inv(t, {}, {id}) && t.shutdowns == old(t.shutdowns) + [Shutdown(id, ReadSide, code)]
    {
      hide SendOk, Runs, TokOk, CrossOk, AdmitOk, RecvOk, DrainsOk, EarlyOk, DirOk, IdsOk;
      DirRead(t.shutdowns, handed, isServer, id, code);
      StopStep(base, Now(t), id, code);
      t.StreamShutdown(id, ReadSide, code);
    }

    /** A connection-gone read: seal with the published terminal, or leave the half for connection close. */
    method ResolveRecvViaConn(t: QuicConn, id: Id)
      requires Inv(t, {}, {id}) && id in rx.halves && id in t.told.dead
      requires Pc(id) == Some(if connTerminal.Some? then Drain.Publish(RecvConn(connTerminal.value)) else Drain.Away)
      modifies `rx, `adm, `tx, `led, `parking, `sealed, `idle, `drains
      ensures Inv(t, {}, {}) && adm == old(adm).(admit := adm.admit)
      ensures connTerminal.Some? <==> id !in rx.halves
      ensures CursorsKept(id)
      ensures connTerminal.Some? ==>
                sealed == old(sealed)[id := Published(old(rx).halves[id], RecvConn(connTerminal.value))]
    {
      hide SendOk, Running, Runs, Now, TokOk, CrossOk, AdmitOk, RecvOk, DrainsOk, EarlyOk, DirOk, IdsOk, Without;
      if connTerminal.Some? {
        FinishRecv(t, id, RecvConn(connTerminal.value));
      } else {
        RecvDropCursors(rx, sealed, idle, handed, t.taken, {id}, id);
        LeaveCursors(t, id);
        RecvIdle(rx, sealed, idle, handed, t.taken, id, idle.(gone := idle.gone + {id}));
        DrainOver(drains, rx.halves, sealed, idle.full, handed.recv, connTerminal.Some?, id);
        idle := idle.(gone := idle.gone + {id});
      }
    }

    /** A bounded channel shared with the front end: any answer is possible at any time. */
    method TryReserveAccept() returns (r: SlotAnswer)
      modifies `reserves
      ensures reserves == old(reserves) + [r]
    {
      r := *;
      reserves := reserves + [r];
    }

    /** `try_reserve` on a half's byte channel. */
    method TryReserve(ghost t: QuicConn, id: Id) returns (r: SlotAnswer)
      requires Inv(t, {}, {id}) && id in rx.halves
      requires Pc(id) == Some(Drain.Reserve) || Pc(id) == Some(Drain.ReserveAgain)
      modifies `drains
      ensures Inv(t, {}, {id}) && drains == Noted(old(drains), id, Drain.Tried(r))
      ensures Pc(id) == Drain.Move(old(Pc(id)).value, Drain.Tried(r))
    {
      hide Inv;
      r := *;
      Note(t, id, Drain.Tried(r));
    }

    method RequeueReadable(ghost t: QuicConn, id: Id)
      modifies `rx
      ensures old(Running(t)) ==> Running(t)
      ensures rx == PushReadable(old(rx), id)
    {
      hide Runs;
      if id !in rx.readableSet {
        rx := rx.(readable := rx.readable + [id], readableSet := rx.readableSet + {id});
      }
    }

    /** A half the worker is away from goes to the drain cursor. */
    method QueueReadable(ghost t: QuicConn, id: Id)
      requires Inv(t, {}, {id}) && id in rx.halves && Resting(LogAt(drains, id), connTerminal.Some?)
      modifies `rx
      ensures Inv(t, {}, {}) && rx == PushReadable(old(rx), id)
    {
      hide SendOk, Running, Runs, Now, TokOk, CrossOk, AdmitOk, RecvOk, DrainsOk, EarlyOk, DirOk, IdsOk, Resting;
      RecvRequeue(rx, sealed, idle, handed, t.taken, id);
      DrainOver(drains, rx.halves, sealed, idle.full, handed.recv, connTerminal.Some?, id);
      RequeueReadable(t, id);
    }

    /** Leave a half to the cursor, with the remainder for the next pump. */
    method Defer(ghost t: QuicConn, id: Id)
      requires Inv(t, {}, {id}) && id in rx.halves
      requires Pc(id) == Some(Drain.Away)
      modifies `rx, `needsIteration
      ensures Inv(t, {}, {}) && needsIteration && rx == PushReadable(old(rx), id)
    {
      hide Inv;
      QueueReadable(t, id);
      needsIteration := true;
    }

    /** The transport has nothing more to read: it will surface the id again. */
    ghost method RunDry(t: QuicConn, id: Id)
      requires Inv(t, {}, {id}) && id in rx.halves && id in t.told.quiet
      requires Pc(id) == Some(Drain.Away)
      modifies `idle
      ensures Inv(t, {}, {})
    {
      hide SendOk, Running, Runs, Now, TokOk, CrossOk, AdmitOk, RecvOk, DrainsOk, EarlyOk, DirOk, IdsOk;
      RecvIdle(rx, sealed, idle, handed, t.taken, id, idle.(dry := idle.dry + {id}));
      DrainOver(drains, rx.halves, sealed, idle.full, handed.recv, connTerminal.Some?, id);
      idle := idle.(dry := idle.dry + {id});
    }

    /**
     * Reserve a channel slot before reading. Full twice, with `blocked` published between, parks
     * the half; a closed channel abandons it.
     */
    method ReserveSlot(t: QuicConn, id: Id) returns (got: bool)
      requires Inv(t, {}, {id}) && id in rx.halves && Pc(id) == Some(Drain.Reserve)
      modifies `rx, `adm, `tx, `led, `parking, `sealed, `idle, `drains, t`shutdowns, t`wire
      ensures adm == old(adm).(admit := adm.admit)
      ensures got ==> Inv(t, {}, {id}) && rx == old(rx) && Pc(id) == Some(Drain.Read)
      ensures !got ==> Inv(t, {}, {})
      ensures !got && id in rx.halves ==> id in idle.full && Drain.Parked(LogAt(drains, id)) && rx == old(rx)
      ensures id !in rx.halves ==> t.shutdowns == old(t.shutdowns) + [Shutdown(id, ReadSide, H3_NO_ERROR)]
      ensures CursorsKept(id)
    {
      hide Inv, Noted, ToldOk;
      var r := ReserveTwice(t, id);
      got := r.Permit?;
      if r.Full? {
        ParkFull(t, id);
      } else if r.Closed? {
        AbandonRecv(t, id);
      }
    }

    method ReserveTwice(ghost t: QuicConn, id: Id) returns (r: SlotAnswer)
      requires Inv(t, {}, {id}) && id in rx.halves && Pc(id) == Some(Drain.Reserve)
      modifies `drains
      ensures Inv(t, {}, {id}) && (r.Full? ==> Drain.Parked(LogAt(drains, id)))
      ensures Pc(id) == Some(if r.Permit? then Drain.Read else if r.Full? then Drain.Away else Drain.Abandon)
    {
      hide Inv, Noted;
      r := TryReserve(t, id);
      if r.Full? {
        r := ReserveAgain(t, id, old(drains));
      }
    }

    /** Publish `blocked`, try once more, and take it back if there is room after all. */
    method ReserveAgain(ghost t: QuicConn, id: Id, ghost from: map<Id, seq<Drain.Act>>) returns (r: SlotAnswer)
      requires Inv(t, {}, {id}) && id in rx.halves && Pc(id) == Some(Drain.PublishBlocked)
      requires drains == Noted(from, id, Drain.Tried(Full))
      modifies `drains
      ensures Inv(t, {}, {id})
      ensures Pc(id) == Some(if r.Permit? then Drain.Read else if r.Full? then Drain.Away else Drain.Abandon)
      ensures r.Full? ==> Drain.Parked(LogAt(drains, id))
    {
      hide Inv, Noted;
      Note(t, id, Drain.BlockedSet);
      r := TryReserve(t, id);
      if r.Permit? {
        Note(t, id, Drain.BlockedCleared);
      } else if r.Full? {
        TwiceFull(from, id);
      }
    }

    /** Leave a half whose channel was full twice to its consumer. */
    ghost method ParkFull(t: QuicConn, id: Id)
      requires Inv(t, {}, {id}) && id in rx.halves && Pc(id) == Some(Drain.Away) && Drain.Parked(LogAt(drains, id))
      modifies `idle
      ensures Inv(t, {}, {}) && id in idle.full
    {
      hide SendOk, Running, Runs, Now, TokOk, CrossOk, AdmitOk, RecvOk, DrainsOk, EarlyOk, DirOk, IdsOk;
      RecvServed(rx, sealed, idle, handed, t.taken, id);
      RecvIdle(rx, sealed, idle, handed, t.taken, id, idle.(full := idle.full + {id}));
      DrainOver(drains, rx.halves, sealed, idle.full, handed.recv, connTerminal.Some?, id);
      idle := idle.(full := idle.full + {id});
    }

    /** The sealing edge of a drain: publish the end, then let the half go. */
    method FinishRecv(t: QuicConn, id: Id, end: RecvEnd)
      requires Inv(t, {}, {id}) && id in rx.halves
      requires Pc(id) == Some(Drain.Publish(end))
      modifies `rx, `adm, `tx, `led, `parking, `sealed, `drains
      ensures Inv(t, {}, {}) && id !in rx.halves && CursorsKept(id) && adm == old(adm).(admit := adm.admit)
      ensures sealed == old(sealed)[id := Published(old(rx).halves[id], end)]
      ensures old(id in tx.halves && !tx.halves[id].finished) ==> PlaceDropped(id)
    {
      hide Inv;
      PublishRecvTerminal(t, id, end);
      Note(t, id, Drain.Sealed);
      MarkRecvDone(t, id);
    }

    /** What a read is in the drain protocol: a lost connection ends the half once its terminal is known. */
    static function TakenFrom(r: Result<(seq<Byte>, bool), QuicError>,
                              connTerminal: Option<ConnTerminal>): Drain.Taken {
      match r
      case Ok((data, fin)) => if data == [] then Drain.Empty(fin) else Drain.Bytes(data, fin)
      case Err(e) =>
        match ClassifyRecv(e)
        case ClassDone => Drain.NoData
        case ClassReset(code) => Drain.Ended(PeerReset(code))
        case ClassRecvGone => if connTerminal.Some? then Drain.Ended(RecvConn(connTerminal.value)) else Drain.Lost
        case ClassRecvBug => Drain.Ended(RecvConn(Internal("unexpected stream_recv error")))
    }

    /** One reserved read: push what was taken, publish the end only after the final byte. */
    method ReadChunk(t: QuicConn, id: Id) returns (more: bool, ghost taken: Drain.Taken)
      requires Inv(t, {}, {id}) && id in rx.halves && readBudget > 0 && Pc(id) == Some(Drain.Read)
      modifies `rx, `adm, `tx, `led, `parking, `sealed, `idle, `drains, `readBudget, t`taken, t`told
      ensures adm == old(adm).(admit := adm.admit)
      ensures more ==> Inv(t, {}, {id}) && id in rx.halves && Pc(id) == Some(Drain.Reserve)
      ensures more ==> readBudget == old(readBudget) - 1
      ensures more ==>
                taken.Bytes? && rx.halves[id] == old(rx).halves[id].(pushed := old(rx).halves[id].pushed + taken.chunk)
      ensures !more ==> Inv(t, {}, {})
      ensures TakenAt(t.taken, id) == TakenAt(old(t.taken), id) + if taken.Bytes? then taken.chunk else []
      ensures Drain.After(taken).Publish? <==> id !in rx.halves
      ensures Drain.After(taken).Publish? ==>
                sealed ==
                  old(sealed)[id := Published(RecvHalf(TakenAt(t.taken, id), old(rx).halves[id].end),
                                                                  Drain.After(taken).end)]
      ensures CursorsKept(id)
    {
      hide Inv, ClassifyRecv, IsBidi;
      more := false;
      var r := Receive(t, id);
      taken := TakenFrom(r, connTerminal);
      match r {
        case Ok((data, fin)) =>
          if fin {
            FinishRecv(t, id, Fin);
          } else if data == [] {
            RunDry(t, id);
          } else {
            more := GoOn(t, id);
          }
        case Err(e) =>
          match ClassifyRecv(e) {
            case ClassDone => RunDry(t, id);
            case ClassReset(code) => FinishRecv(t, id, PeerReset(code));
            case ClassRecvGone => ResolveRecvViaConn(t, id);
            case ClassRecvBug => FinishRecv(t, id, RecvConn(Internal("unexpected stream_recv error")));
          }
      }
    }

    /** Push what was read; only bytes spend the budget. */
    method PushChunk(ghost t: QuicConn, id: Id, data: seq<Byte>, ghost a: Drain.Act)
      requires Running(t) && id in rx.halves && id !in sealed && readBudget > 0
      modifies `rx, `readBudget, `drains
      ensures Running(t)
      ensures var h := old(rx).halves[id];
              rx == old(rx).(halves := old(rx).halves[id := h.(pushed := h.pushed + data)])
      ensures rx.halves.Keys == old(rx).halves.Keys && drains == Noted(old(drains), id, a)
      ensures readBudget == old(readBudget) - if data == [] then 0 else 1
    {
      hide Running, Runs, Now, Noted;
      Log(t, id, a);
      if data != [] {
        readBudget := readBudget - 1;
      }
      PutRecv(t, id, rx.halves[id].(pushed := rx.halves[id].pushed + data));
    }

    /** Read from the transport, as a step of the run. */
    method HearRead(t: QuicConn, id: Id) returns (r: Result<(seq<Byte>, bool), QuicError>)
      requires Running(t)
      modifies t`taken, t`told
      ensures Running(t) && t.told == Read(old(t.told), id, r)
      ensures r.Err? ==> t.taken == old(t.taken)
      ensures r.Ok? ==> t.taken == old(t.taken)[id := TakenAt(old(t.taken), id) + r.value.0]
    {
      hide Runs, Read, TakenAt;
      ghost var was := Now(t);
      r := t.StreamRecv(id);
      if r.Ok? {
        ReadStep(base, was, id, r.value.0);
      }
    }

    /** Read under the reserved slot, and push what was taken; only a read that took bytes spends the budget. */
    method Receive(t: QuicConn, id: Id) returns (r: Result<(seq<Byte>, bool), QuicError>)
      requires Inv(t, {}, {id}) && id in rx.halves && readBudget > 0 && Pc(id) == Some(Drain.Read)
      modifies `rx, `drains, `readBudget, t`taken, t`told
      ensures Inv(t, {}, {id}) && id in rx.halves && t.told == Read(old(t.told), id, r)
      ensures Pc(id) == Some(Drain.After(TakenFrom(r, connTerminal)))
      ensures r.Err? ==> rx == old(rx) && readBudget == old(readBudget) && t.taken == old(t.taken)
      ensures r.Ok? ==>
                && var h := old(rx).halves[id];
                rx == old(rx).(halves := old(rx).halves[id := h.(pushed := h.pushed + r.value.0)])
                && readBudget == old(readBudget) - (if r.value.0 == [] then 0 else 1)
                && TakenAt(t.taken, id) == TakenAt(old(t.taken), id) + r.value.0
      ensures rx.halves[id].pushed == TakenAt(t.taken, id)
    {
      hide SendOk, Running, Runs, Now, TokOk, CrossOk, AdmitOk, RecvOk, DrainsOk, EarlyOk, DirOk, IdsOk, Noted, LogAt;
      hide TakenFrom;
      hide Drain.PcOf, Drain.After, TakenAt, Published;
      RecvServed(rx, sealed, idle, handed, t.taken, id);
      r := TakeAndPush(t, id);
    }

    /** The read and the push, before anything else is looked at. */
    method TakeAndPush(t: QuicConn, id: Id) returns (r: Result<(seq<Byte>, bool), QuicError>)
      requires Running(t) && id in rx.halves && id in handed.recv && id !in sealed && readBudget > 0
      requires RecvOk(rx, sealed, idle, handed, t.taken, {id}) && Pc(id) == Some(Drain.Read)
      requires DrainsOk(drains, rx.halves, sealed, idle.full, handed.recv, {id}, connTerminal.Some?)
      modifies `rx, `drains, `readBudget, t`taken, t`told
      ensures Running(t) && RecvOk(rx, sealed, idle, handed, t.taken, {id})
      ensures DrainsOk(drains, rx.halves, sealed, idle.full, handed.recv, {id}, connTerminal.Some?)
      ensures id in rx.halves && rx.halves.Keys == old(rx).halves.Keys && t.told == Read(old(t.told), id, r)
      ensures Pc(id) == Some(Drain.After(TakenFrom(r, connTerminal)))
      ensures r.Err? ==> rx == old(rx) && readBudget == old(readBudget) && t.taken == old(t.taken)
      ensures r.Ok? ==>
                && var h := old(rx).halves[id];
                rx == old(rx).(halves := old(rx).halves[id := h.(pushed := h.pushed + r.value.0)])
                && readBudget == old(readBudget) - (if r.value.0 == [] then 0 else 1)
                && TakenAt(t.taken, id) == TakenAt(old(t.taken), id) + r.value.0
      ensures rx.halves[id].pushed == TakenAt(t.taken, id)
    {
      hide SendOk, Running, Runs, Now, TokOk, CrossOk, AdmitOk, RecvOk, DrainsOk, EarlyOk, DirOk, IdsOk, Noted, LogAt;
      hide TakenFrom;
      hide Drain.PcOf, Drain.After;
      r := HearRead(t, id);
      ReadIsNoted(drains, rx.halves, sealed, idle.full, handed.recv, connTerminal.Some?, id, r, connTerminal);
      ghost var a := Drain.Received(TakenFrom(r, connTerminal));
      if r.Ok? {
        RecvPush(rx, sealed, idle, handed, old(t.taken), {id}, id, r.value.0);
        PushChunk(t, id, r.value.0, a);
      } else {
        Log(t, id, a);
      }
      RecvServed(rx, sealed, idle, handed, t.taken, id);
    }

    /** The read a drain makes, as its protocol sees it. */
    static lemma ReadIsNoted(drains: map<Id, seq<Drain.Act>>, halves: map<Id, RecvHalf>, sealed: map<Id, RecvHalf>,
                             full: set<Id>, recv: set<Id>, closed: bool, id: Id,
                             r: Result<(seq<Byte>, bool), QuicError>, connTerminal: Option<ConnTerminal>)
      requires DrainsOk(drains, halves, sealed, full, recv, {id}, closed) && id in halves && id in recv && id !in sealed
      requires Drain.PcOf(LogAt(drains, id)) == Some(Drain.Read)
      ensures var drains' := Noted(drains, id, Drain.Received(TakenFrom(r, connTerminal)));
              var h := halves[id];
              && Drain.PcOf(LogAt(drains', id)) == Some(Drain.After(TakenFrom(r, connTerminal)))
              && (r.Ok? ==>
                    DrainsOk(drains', halves[id := h.(pushed := h.pushed + r.value.0)], sealed, full, recv, {id},
                             closed))
              && (r.Err? ==> DrainsOk(drains', halves, sealed, full, recv, {id}, closed))
    {
      hide DrainsOk, Drain.PcOf, Drain.After, LogAt, Noted, ClassifyRecv;
      var a, h := Drain.Received(TakenFrom(r, connTerminal)), halves[id];
      assert Drain.ChunkOf(a) == if r.Ok? then r.value.0 else [];
      assert h.(pushed := h.pushed + []) == h && halves[id := h] == halves;
      DrainNoted(drains, halves, sealed, full, recv, closed, id, a, h.(pushed := h.pushed + Drain.ChunkOf(a)));
    }

    method MoreToRead(t: QuicConn, id: Id) returns (again: bool)
      requires Inv(t, {}, {id})
      modifies t`told
      ensures Inv(t, {}, {id}) && (!again ==> id in t.told.quiet)
    {
      hide SendOk, Running, Runs, Now, TokOk, CrossOk, Rest;
      again := t.StreamReadable(id);
    }

    /** Bytes were read: go on if there is more, or leave the half dry. */
    method GoOn(t: QuicConn, id: Id) returns (more: bool)
      requires Inv(t, {}, {id}) && id in rx.halves && Pc(id) == Some(Drain.AskMore)
      modifies `drains, `idle, t`told
      ensures more ==> Inv(t, {}, {id}) && Pc(id) == Some(Drain.Reserve)
      ensures !more ==> Inv(t, {}, {})
    {
      hide Inv, Noted;
      more := MoreToRead(t, id);
      if more {
        Note(t, id, Drain.GoesOn);
      } else {
        Note(t, id, Drain.Left);
        RunDry(t, id);
      }
    }

    /** Drain one receive half, at most CHUNK_BUDGET chunks within the shared read budget. */
    method DrainStream(t: QuicConn, id: Id)
      requires Inv(t, {}, {id})
      requires id in rx.halves ==> Pc(id) == Some(Drain.Reserve)
      modifies `rx, `adm, `tx, `led, `parking, `sealed, `drains, `idle, `readBudget, `needsIteration, t`told
      modifies t`taken, t`shutdowns, t`wire
      ensures Inv(t, {}, {}) && adm == old(adm).(admit := adm.admit)
      ensures old(needsIteration) ==> needsIteration
      ensures old(id !in rx.resumeSet) ==> rx.resume == old(rx).resume && rx.resumeSet == old(rx).resumeSet
      ensures old(id !in rx.readableSet) ==> rx.readable == old(rx).readable || rx.readable == old(rx).readable + [id]
    {
      hide Inv, Rest;
      if id !in rx.halves {
        NotLive(t, id);
        return;
      }
      for i := 0 to CHUNK_BUDGET
        invariant Inv(t, {}, {id}) && id in rx.halves && Pc(id) == Some(Drain.Reserve)
        invariant adm == old(adm).(admit := adm.admit)
        invariant CursorsKept(id)
        invariant old(needsIteration) ==> needsIteration
      {
        if readBudget == 0 {
          Note(t, id, Drain.Left);
          Defer(t, id);
          return;
        }
        var got := ReserveSlot(t, id);
        if !got {
          return;
        }
        var more, taken := ReadChunk(t, id);
        if !more {
          return;
        }
      }
      var again := MoreToRead(t, id);
      Note(t, id, Drain.Left);
      if again {
        Defer(t, id);
      } else {
        RunDry(t, id);
      }
    }

    /** A half that is not live needs no reason to be idle. */
    lemma NotLive(t: QuicConn, id: Id)
      requires Inv(t, {}, {id}) && id !in rx.halves
      ensures Inv(t, {}, {})
    {
      hide SendOk, Running, Runs, Now, TokOk, CrossOk, AdmitOk, EarlyOk, DirOk, IdsOk, QueueOk;
    }

    // ----- admission -----

    /** Shut down the directions a peer stream has: both for bidi, the read side for uni. */
    method ShutdownPeerDirections(t: QuicConn, id: Id)
      requires DirOk(t.shutdowns, handed, isServer) && !IsLocal(id, isServer)
      modifies t`shutdowns, t`wire
      ensures DirOk(t.shutdowns, handed, isServer)
      ensures var w := At(old(t.wire), id);
              t.wire == if IsBidi(id) then old(t.wire)[id := w.(resets := w.resets + [H3_NO_ERROR])] else old(t.wire)
      ensures t.shutdowns == old(t.shutdowns) + PeerShutdown(id)
    {
      hide DirOk, IsBidi, IsLocal;
      DirRead(t.shutdowns, handed, isServer, id, H3_NO_ERROR);
      t.StreamShutdown(id, ReadSide, H3_NO_ERROR);
      if IsBidi(id) {
        DirWrite(t.shutdowns, handed, isServer, id, H3_NO_ERROR);
        t.StreamShutdown(id, WriteSide, H3_NO_ERROR);
      }
    }

    /** Drop an owned stream that can no longer be handed over, with the stop code it may carry. */
    method TearDown(t: QuicConn, peer: PeerStream)
      requires Inv(t, {}, {}) && Owned(adm, early, handed, isServer, peer)
      modifies `early, `hand, t`shutdowns, t`wire
      ensures Inv(t, {}, {}) && early == Torn(old(early), peer.id, |StopsAt(t.answers, peer.id)|)
      ensures t.shutdowns == old(t.shutdowns) + PeerShutdown(peer.id) && hand == old(hand) - {peer.id}
    {
      hide SendOk, Running, Runs, Now, TokOk, CrossOk, AdmitOk, RecvOk, DrainsOk, EarlyOk, DirOk, IdsOk, IsBidi;
      hide IsLocal, Torn, ToldOk, StopsAt;
      EarlyTornDown(adm, early, handed, hand, isServer, peer, |StopsAt(t.answers, peer.id)|);
      CrossHanded(tx.halves, led, adm.admit, handed, past, parking.orphan);
      ghost var wire := t.wire;
      ShutdownPeer(t, peer.id);
      SendOtherWire(tx, led, parking, wire, t.wire, {}, peer.id);
      hand := hand - {peer.id};
    }

    /** Shut a stream nobody was given down; the stop code seen for it goes with it. */
    method ShutdownPeer(t: QuicConn, id: Id)
      requires Running(t) && DirOk(t.shutdowns, handed, isServer) && !IsLocal(id, isServer)
      requires !handed.Has(id) && id !in tx.halves
      modifies `early, t`shutdowns, t`wire
      ensures Running(t) && DirOk(t.shutdowns, handed, isServer)
      ensures early == Torn(old(early), id, |StopsAt(t.answers, id)|)
      ensures t.shutdowns == old(t.shutdowns) + PeerShutdown(id)
      ensures forall x | x != id :: At(t.wire, x) == At(old(t.wire), x)
    {
      hide Runs, DirOk, IsLocal, IsBidi, Torn, StopsAt, PeerShutdown;
      TearStep(base, Now(t), id);
      ShutdownPeerDirections(t, id);
      early := Torn(early, id, |StopsAt(t.answers, id)|);
    }

    lemma NeverEnded(t: QuicConn, id: Id)
      requires Inv(t, {}, {}) && !handed.Has(id)
      ensures id !in past.ended && id !in tx.halves
    {
      hide SendOk, Running, Runs, Now, TokOk, Rest;
    }

    /** Build and register both halves' state, and hand the stream over with the stop code it carries. */
    method Register(ghost t: QuicConn, peer: PeerStream)
      requires Inv(t, {}, {}) && Owned(adm, early, handed, isServer, peer)
      modifies `rx, `tx, `led, `births, `marks, `adm, `handed, `past, `early, `hand
      ensures Inv(t, {}, {peer.id}) && peer.id in rx.halves && handed == HandOver(old(handed), peer.id)
      ensures IsBidi(peer.id) ==> peer.id in early.given && early.given[peer.id] == peer.sendEnd
      ensures var st := Registered(!IsBidi(peer.id) || peer.sendEnd.Some?, false);
              adm == old(adm).(admit := old(adm).admit[peer.id := st])
      ensures early.seen == old(early).seen && hand == old(hand) - {peer.id}
      ensures past == if IsBidi(peer.id) && peer.sendEnd.Some? then old(past).(preset := old(past).preset + {peer.id})
                      else old(past)
      ensures peer.id !in old(tx).halves
      ensures tx == if IsBidi(peer.id) && peer.sendEnd.None? then PutHalf(old(tx), peer.id, FRESH) else old(tx)
      ensures Pc(peer.id) == Some(Drain.Away)
    {
      hide Inv, IsBidi, IsLocal, Owned, HandOver, PutHalf, At, Born, LogAt, Drain.PcOf;
      EnterRegistry(t, peer, IsBidi(peer.id) && peer.sendEnd.None?);
    }

    method EnterRegistry(ghost t: QuicConn, peer: PeerStream, live: bool)
      requires Inv(t, {}, {}) && Owned(adm, early, handed, isServer, peer)
      requires live == (IsBidi(peer.id) && peer.sendEnd.None?)
      modifies `rx, `tx, `led, `births, `marks, `adm, `handed, `past, `early, `hand
      ensures Inv(t, {}, {peer.id}) && peer.id !in old(tx).halves && Pc(peer.id) == Some(Drain.Away)
      ensures rx == old(rx).(halves := old(rx).halves[peer.id := RecvHalf([], None)])
      ensures adm == old(adm).(admit := old(adm).admit[peer.id := Registered(!live, false)])
      ensures handed == HandOver(old(handed), peer.id) && early == Given(old(early), peer)
      ensures rx.halves.Keys == old(rx).halves.Keys + {peer.id} && hand == old(hand) - {peer.id}
      ensures tx == BornTx(old(tx), peer.id, live) && past == PresetPast(old(past), peer.id, IsBidi(peer.id) && !live)
      ensures led == BornLed(old(led), peer.id, live, Born(At(t.wire, peer.id), old(births), |cmds|))
    {
      hide SendOk, Running, Runs, Now, TokOk, CrossOk, AdmitOk, RecvOk, DrainsOk, EarlyOk, DirOk, IdsOk, IsBidi;
      hide IsLocal, ToldOk;
      hide SeenEnd, Given, Born, BornTx, BornLed, PresetPast, HandOver, Within, PutHalf, At, LogAt, Drain.PcOf;
      RecvAdmit(adm, rx, sealed, idle, early, handed, hand, t.taken, drains, connTerminal.Some?, t.shutdowns,
                nextBidi, nextUni, isServer, peer);
      EnterSendSide(t, peer, live);
    }

    method EnterSendSide(ghost t: QuicConn, peer: PeerStream, live: bool)
      requires Inv(t, {}, {}) && Owned(adm, early, handed, isServer, peer)
      requires live == (IsBidi(peer.id) && peer.sendEnd.None?)
      modifies `rx, `tx, `led, `births, `marks, `adm, `handed, `past, `early, `hand
      ensures SendOk(tx, led, parking, t.wire, {}) && TokOk(tx.halves, io, home, resolved, abandoned)
      ensures CrossOk(tx.halves, led, adm.admit, handed, past, parking.orphan)
      ensures ToldOk(parking, idle, t.told, t.surfaced) && Within(parking, past, handed) && Running(t)
      ensures peer.id !in old(tx).halves
      ensures rx == old(rx).(halves := old(rx).halves[peer.id := RecvHalf([], None)])
      ensures adm == old(adm).(admit := old(adm).admit[peer.id := Registered(!live, false)])
      ensures handed == HandOver(old(handed), peer.id) && early == Given(old(early), peer)
      ensures rx.halves.Keys == old(rx).halves.Keys + {peer.id} && hand == old(hand) - {peer.id}
      ensures tx == BornTx(old(tx), peer.id, live) && past == PresetPast(old(past), peer.id, IsBidi(peer.id) && !live)
      ensures led == BornLed(old(led), peer.id, live, Born(At(t.wire, peer.id), old(births), |cmds|))
    {
      hide SendOk, Running, Runs, Now, TokOk, CrossOk, AdmitOk, RecvOk, DrainsOk, EarlyOk, DirOk, IdsOk, IsBidi;
      hide IsLocal, ToldOk;
      hide SeenEnd, Given, Born, BornTx, BornLed, PresetPast, HandOver, Within, PutHalf, At;
      var id := peer.id;
      SendAdmit(tx, led, parking, t.wire, io, home, resolved, abandoned, adm.admit, handed, past, id, live, IsBidi(id),
                births, |cmds|);
      NeverEnded(t, id);
      InsertPeer(t, peer, live);
    }

    /** The registry entries of an admitted peer stream. */
    method InsertPeer(ghost t: QuicConn, peer: PeerStream, live: bool)
      requires Running(t) && live == (IsBidi(peer.id) && peer.sendEnd.None?)
      requires !handed.Has(peer.id) && peer.id !in tx.halves && peer.id !in past.ended
      requires peer.sendEnd == SeenEnd(early.seen, peer.id)
      modifies `rx, `tx, `led, `births, `marks, `adm, `handed, `past, `early, `hand
      ensures Running(t)
      ensures rx == old(rx).(halves := old(rx).halves[peer.id := RecvHalf([], None)])
      ensures adm == old(adm).(admit := old(adm).admit[peer.id := Registered(!live, false)])
      ensures handed == HandOver(old(handed), peer.id) && early == Given(old(early), peer)
      ensures rx.halves.Keys == old(rx).halves.Keys + {peer.id} && hand == old(hand) - {peer.id}
      ensures tx == BornTx(old(tx), peer.id, live) && past == PresetPast(old(past), peer.id, IsBidi(peer.id) && !live)
      ensures led == BornLed(old(led), peer.id, live, Born(At(t.wire, peer.id), old(births), |cmds|))
    {
      hide Runs, IsBidi, HandOver, Given, SeenEnd, At, Born, PutHalf;
      AdmitStep(base, Now(t), peer);
      EnterPeer(peer, live, Born(At(t.wire, peer.id), births, |cmds|), At(t.wire, peer.id).resets);
    }

    /** The registry entries of a peer stream. */
    method EnterPeer(peer: PeerStream, live: bool, ghost l: Ledger, ghost resets: seq<nat>)
      modifies `rx, `tx, `led, `births, `marks, `adm, `handed, `past, `early, `hand
      ensures rx == old(rx).(halves := old(rx).halves[peer.id := RecvHalf([], None)])
      ensures adm == old(adm).(admit := old(adm).admit[peer.id := Registered(!live, false)])
      ensures handed == HandOver(old(handed), peer.id) && early == Given(old(early), peer)
      ensures rx.halves.Keys == old(rx).halves.Keys + {peer.id} && hand == old(hand) - {peer.id}
      ensures marks ==
              if IsBidi(peer.id) then old(marks).(origin := old(marks).origin[peer.id := resets]) else old(marks)
      ensures tx == BornTx(old(tx), peer.id, live) && past == PresetPast(old(past), peer.id, IsBidi(peer.id) && !live)
      ensures led == BornLed(old(led), peer.id, live, l) && births == if live then old(births) + 1 else old(births)
    {
      hide IsBidi, HandOver, Given, PutHalf;
      rx := rx.(halves := rx.halves[peer.id := RecvHalf([], None)]);
      adm := adm.(admit := adm.admit[peer.id := Registered(!live, false)]);
      handed := HandOver(handed, peer.id);
      early := Given(early, peer);
      hand := hand - {peer.id};
      if IsBidi(peer.id) {
        marks := marks.(origin := marks.origin[peer.id := resets]);
      }
      if live {
        tx := PutHalf(tx, peer.id, FRESH);
        led, births := led[peer.id := l], births + 1;
      } else if IsBidi(peer.id) {
        past := past.(preset := past.preset + {peer.id});
      }
    }

    /** Register an owned stream, hand it over, and drain what it already holds. */
    method Transfer(t: QuicConn, peer: PeerStream)
      requires Inv(t, {}, {}) && Owned(adm, early, handed, isServer, peer)
      modifies `rx, `tx, `led, `births, `marks, `adm, `handed, `past, `early, `hand, `parking, `sealed, `drains, `idle
      modifies `readBudget
      modifies `needsIteration, t`told, t`taken, t`shutdowns, t`wire
      ensures Inv(t, {}, {}) && (old(needsIteration) ==> needsIteration) && Grown()
      ensures adm == old(adm).(admit := adm.admit)
      ensures handed == HandOver(old(handed), peer.id) && early.seen == old(early).seen && hand == old(hand) - {peer.id}
      ensures IsBidi(peer.id) ==> peer.id in early.given && early.given[peer.id] == peer.sendEnd
    {
      hide Inv, Owned, IsBidi, HandOver;
      BeginTransfer(t, peer);
      DrainStream(t, peer.id);
    }

    /** Register the stream and take its new receive half up. */
    method BeginTransfer(ghost t: QuicConn, peer: PeerStream)
      requires Inv(t, {}, {}) && Owned(adm, early, handed, isServer, peer)
      modifies `rx, `tx, `led, `births, `marks, `adm, `handed, `past, `early, `hand, `drains
      ensures Inv(t, {}, {peer.id}) && peer.id in rx.halves && Pc(peer.id) == Some(Drain.Reserve) && Grown()
      ensures adm == old(adm).(admit := adm.admit)
      ensures handed == HandOver(old(handed), peer.id) && early.seen == old(early).seen && hand == old(hand) - {peer.id}
      ensures IsBidi(peer.id) ==> peer.id in early.given && early.given[peer.id] == peer.sendEnd
    {
      hide Inv, Owned, IsBidi, Noted;
      Register(t, peer);
      Note(t, peer.id, Drain.Picked);
    }

    /** The atomic transfer: reserve the accept channel, upgrade the sender, register, hand over, drain. */
    method AdmitOne(t: QuicConn, peer: PeerStream) returns (r: AdmitResult)
      requires Inv(t, {}, {}) && Owned(adm, early, handed, isServer, peer)
      modifies `rx, `tx, `led, `births, `marks, `adm, `handed, `past, `early, `hand, `parking, `sealed, `drains, `idle
      modifies `readBudget
      modifies `needsIteration, t`told, `reserves
      modifies t`taken, t`shutdowns, t`wire
      ensures Inv(t, {}, {}) && (old(needsIteration) ==> needsIteration) && Grown()
      ensures adm == old(adm).(admit := adm.admit)
      ensures r.Admitted? ==>
                && handed == HandOver(old(handed), peer.id) && early.seen == old(early).seen
                && (IsBidi(peer.id) ==> peer.id in early.given && early.given[peer.id] == peer.sendEnd)
      ensures r.NoRoom? ==>
                adm == old(adm) && handed == old(handed) && early == old(early) && rx == old(rx) && tx == old(tx)
      ensures hand == if r.NoRoom? then old(hand) else old(hand) - {peer.id}
      ensures r.NoRoom? ==> reserves == old(reserves) + [Full]
      ensures r.TornDown? ==>
                && adm == old(adm) && handed == old(handed)
                && t.shutdowns == old(t.shutdowns) + PeerShutdown(peer.id)
    {
      hide Inv, Rest, Owned, IsBidi;
      var slot := TryReserveAccept();
      if slot.Full? {
        return NoRoom;
      }
      var alive: bool := *;
      if slot.Closed? || !alive {
        TearDown(t, peer);
        return TornDown;
      }
      Transfer(t, peer);
      r := Admitted;
    }

    /** One id from readable discovery goes to exactly one bridge-owned slot. */
    method RouteReadable(ghost t: QuicConn, id: Id)
      requires Inv(t, {}, {}) && hand == {}
      requires id in rx.halves || id in adm.admit || id in adm.pending || (!IsLocal(id, isServer) && !handed.Has(id))
      modifies `rx, `adm, `idle
      ensures Inv(t, {}, {}) && idle == Awake(old(idle), id)
      ensures id in rx.halves ==> id in rx.readableSet && adm == old(adm)
      ensures id !in rx.halves ==> rx == old(rx) && (id in adm.admit || id in adm.pending)
      ensures old(rx).readable <= rx.readable && old(adm).pendBidi <= adm.pendBidi && old(adm).pendUni <= adm.pendUni
    {
      hide Inv, IsBidi, IsLocal, Resting;
      TakeUp(t, id);
      if id in rx.halves {
        QueueReadable(t, id);
      } else {
        NotLive(t, id);
        if id !in adm.admit && id !in adm.pending {
          Pend(t, id);
        }
      }
    }

    /** Take one readable id from the transport and route it. */
    method SurfaceReadable(t: QuicConn) returns (more: bool)
      requires Inv(t, {}, {}) && t.surfaced == {} && hand == {}
      modifies `rx, `adm, `idle, t`told, t`surfaced
      ensures Inv(t, {}, {}) && t.surfaced == {}
      ensures old(rx).readable <= rx.readable && old(adm).pendBidi <= adm.pendBidi && old(adm).pendUni <= adm.pendUni
    {
      hide SendOk, Running, Runs, Now, TokOk, CrossOk, Rest, IsLocal;
      var next := t.NextReadable(rx.halves.Keys + adm.admit.Keys + adm.pending.Keys, handed.send + handed.recv,
                                 isServer);
      if next.None? {
        return false;
      }
      RouteReadable(t, next.value);
      t.Handled();
      more := true;
    }

    /** Bounded destructive readable intake. */
    method IntakeReadable(t: QuicConn)
      requires Inv(t, {}, {}) && t.surfaced == {} && hand == {}
      modifies `rx, `adm, `idle, `needsIteration, t`told, t`surfaced
      ensures Inv(t, {}, {}) && t.surfaced == {} && (old(needsIteration) ==> needsIteration)
      ensures old(rx).readable <= rx.readable && old(adm).pendBidi <= adm.pendBidi && old(adm).pendUni <= adm.pendUni
    {
      hide Inv;
      var n := 0;
      while n < DISCOVERY_BUDGET
        invariant old(rx).readable <= rx.readable
        invariant old(adm).pendBidi <= adm.pendBidi && old(adm).pendUni <= adm.pendUni
        invariant Inv(t, {}, {}) && t.surfaced == {} && needsIteration == old(needsIteration)
      {
        var more := SurfaceReadable(t);
        if !more {
          break;
        }
        n := n + 1;
      }
      if n == DISCOVERY_BUDGET {
        needsIteration := true;
      }
    }

    /** Retry up to RECV_RESUME_BUDGET halves whose consumer freed a slot. */
    method DrainResumed(t: QuicConn) returns (n: nat)
      requires Inv(t, {}, {}) && connTerminal.None?
      modifies `rx, `adm, `tx, `led, `parking, `sealed, `drains, `idle, `readBudget, `needsIteration, t`told
      modifies t`taken, t`shutdowns, t`wire
      ensures Inv(t, {}, {}) && (old(needsIteration) ==> needsIteration)
      ensures n <= RECV_RESUME_BUDGET && n <= |old(rx).resume| && rx.resume == old(rx).resume[n..]
      ensures n == RECV_RESUME_BUDGET || rx.resume == []
    {
      hide Inv;
      n := 0;
      while n < RECV_RESUME_BUDGET && rx.resume != []
        invariant Inv(t, {}, {}) && (old(needsIteration) ==> needsIteration)
        invariant n <= RECV_RESUME_BUDGET && n <= |old(rx).resume| && rx.resume == old(rx).resume[n..]
      {
        n := n + 1;
        var id := PopResumed(t);
        DrainStream(t, id);
      }
    }

    /** Take the oldest resumed half up for draining. */
    method PopResumed(ghost t: QuicConn) returns (id: Id)
      requires Inv(t, {}, {}) && rx.resume != [] && connTerminal.None?
      modifies `rx, `idle, `drains
      ensures Inv(t, {}, {id}) && id == old(rx).resume[0] && idle == Awake(old(idle), id)
      ensures rx == old(rx).(resume := old(rx).resume[1..], resumeSet := old(rx).resumeSet - {id})
      ensures id in rx.halves ==> Pc(id) == Some(Drain.Reserve)
    {
      hide SendOk, Running, Runs, Now, TokOk, CrossOk, AdmitOk, RecvOk, DrainsOk, EarlyOk, DirOk, IdsOk, ToldOk;
      id := rx.resume[0];
      RecvPopResume(rx, sealed, idle, handed, t.taken);
      SetCursors(t, rx.(resume := rx.resume[1..], resumeSet := rx.resumeSet - {id}));
      TakeUp(t, id);
      if id in rx.halves {
        NoteResumed(t, id);
      }
    }

    /** The resume bit is cleared, then the blocked bit, before the retry. */
    ghost method NoteResumed(t: QuicConn, id: Id)
      requires Inv(t, {}, {id}) && id in rx.halves && Pc(id) == Some(Drain.Away)
      modifies `drains
      ensures Inv(t, {}, {id}) && Pc(id) == Some(Drain.Reserve)
    {
      hide Inv, Noted;
      Note(t, id, Drain.PickedResumed);
      Note(t, id, Drain.ResumeCleared);
      Note(t, id, Drain.BlockedCleared);
    }

    /** Take the head of the drain cursor up for draining. */
    method PopReadable(ghost t: QuicConn) returns (id: Id)
      requires Inv(t, {}, {}) && rx.readable != [] && connTerminal.None?
      modifies `rx, `idle, `drains
      ensures Inv(t, {}, {id}) && id == old(rx).readable[0] && id in rx.halves && idle == Awake(old(idle), id)
      ensures rx == old(rx).(readable := old(rx).readable[1..], readableSet := old(rx).readableSet - {id})
      ensures Pc(id) == Some(Drain.Reserve)
    {
      hide SendOk, Running, Runs, Now, TokOk, CrossOk, AdmitOk, RecvOk, DrainsOk, EarlyOk, DirOk, IdsOk;
      id := rx.readable[0];
      RecvPopReadable(rx, sealed, idle, handed, t.taken);
      SetCursors(t, rx.(readable := rx.readable[1..], readableSet := rx.readableSet - {id}));
      DrainWoken(drains, rx.halves, sealed, idle.full, handed.recv, connTerminal.Some?, id);
      idle := Awake(idle, id);
      Note(t, id, Drain.Picked);
    }

    /** Drain up to READABLE_BUDGET known streams before any new one is admitted. */
    method Phase1RegisteredDrain(t: QuicConn) returns (ghost served: seq<Id>)
      requires Inv(t, {}, {}) && connTerminal.None?
      modifies `rx, `adm, `tx, `led, `parking, `sealed, `drains, `idle, `readBudget, `needsIteration, t`told
      modifies t`taken, t`shutdowns, t`wire
      ensures Inv(t, {}, {}) && (old(needsIteration) ==> needsIteration)
      ensures |served| <= READABLE_BUDGET && RoundRobin(old(rx).readable, served, rx.readable)
      ensures |served| == READABLE_BUDGET || rx.readable == [] || (readBudget == 0 && needsIteration)
    {
      hide Inv, RoundRobin;
      var attempts: nat := READABLE_BUDGET;
      served := [];
      RoundRobinStart(rx.readable);
      while attempts > 0
        invariant Inv(t, {}, {}) && (old(needsIteration) ==> needsIteration) && |served| + attempts == READABLE_BUDGET
        invariant RoundRobin(old(rx).readable, served, rx.readable)
      {
        if readBudget == 0 {
          if rx.readable != [] {
            needsIteration := true;
          }
          break;
        }
        if rx.readable == [] {
          break;
        }
        attempts := attempts - 1;
        ghost var before := rx.readable;
        var id := PopReadable(t);
        DrainStream(t, id);
        RoundRobinTurn(old(rx).readable, served, before, rx.readable);
        served := served + [id];
      }
    }

    /** Take the head pending id of a class. */
    method TakePend(ghost t: QuicConn, bidi: bool) returns (peer: PeerStream)
      requires Inv(t, {}, {}) && hand == {} && (if bidi then adm.pendBidi != [] else adm.pendUni != [])
      modifies `adm, `hand
      ensures Inv(t, {}, {}) && hand == {peer.id} && adm == TakePending(old(adm), bidi)
      ensures peer.id == (if bidi then old(adm).pendBidi[0] else old(adm).pendUni[0]) && peer.id in old(adm).pending
      ensures peer == old(adm).pending[peer.id] && IsBidi(peer.id) == bidi
      ensures Owned(adm, early, handed, isServer, peer)
    {
      hide SendOk, Running, Runs, Now, TokOk, CrossOk, AdmitOk, RecvOk, DrainsOk, EarlyOk, DirOk, IdsOk, IsBidi;
      hide IsLocal, ToldOk;
      AdmitTakePending(adm, rx.halves.Keys, handed, isServer, bidi);
      EarlyTake(adm, early, handed, hand, bidi);
      PendingOwned(adm, early, handed, hand);
      peer := adm.pending[if bidi then adm.pendBidi[0] else adm.pendUni[0]];
      adm := TakePending(adm, bidi);
      assert hand + {peer.id} == {peer.id};
      hand := {peer.id};
    }

    /** Take the head parked id of a class. */
    method TakePark(ghost t: QuicConn, bidi: bool) returns (peer: PeerStream)
      requires Inv(t, {}, {}) && hand == {} && ParkQueue(adm, bidi) != []
      modifies `adm, `hand
      ensures Inv(t, {}, {}) && hand == {peer.id} && adm == TakeParked(old(adm), bidi)
      ensures peer.id == ParkQueue(old(adm), bidi)[0] && IsBidi(peer.id) == bidi
      ensures Owned(adm, early, handed, isServer, peer)
    {
      hide SendOk, Running, Runs, Now, TokOk, CrossOk, AdmitOk, RecvOk, DrainsOk, EarlyOk, DirOk, IdsOk, IsBidi;
      hide IsLocal, ToldOk;
      AdmitTakeParked(adm, rx.halves.Keys, handed, isServer, bidi);
      EarlyTake(adm, early, handed, hand, bidi);
      ParkedOwned(adm, early, handed, hand);
      var id := ParkQueue(adm, bidi)[0];
      CrossUnpark(tx.halves, led, adm.admit, handed, past, parking.orphan, id);
      peer := adm.admit[id].peer;
      adm := TakeParked(adm, bidi);
      assert hand + {peer.id} == {peer.id};
      hand := {peer.id};
    }

    /** A stream in hand goes to the tail of its parked class, or back to the head. */
    method PutDown(ghost t: QuicConn, peer: PeerStream, front: bool)
      requires Inv(t, {}, {}) && hand == {peer.id} && Owned(adm, early, handed, isServer, peer)
      modifies `adm, `hand
      ensures Inv(t, {}, {}) && hand == {}
      ensures adm == if front then PutBack(old(adm), peer) else PutParked(old(adm), peer)
    {
      hide SendOk, Running, Runs, Now, TokOk, CrossOk, AdmitOk, RecvOk, DrainsOk, EarlyOk, DirOk, IdsOk, IsBidi;
      hide IsLocal, ToldOk;
      AdmitPark(adm, rx.halves.Keys, handed, isServer, peer);
      AdmitPutBack(adm, rx.halves.Keys, handed, isServer, peer);
      EarlyPut(adm, early, handed, hand, peer);
      CrossParked(tx.halves, led, adm.admit, handed, past, parking.orphan, peer);
      assert hand - {peer.id} == {};
      hand := {};
      adm := if front then PutBack(adm, peer) else PutParked(adm, peer);
    }

    /** Take the head of a pending class and try to admit it; a full accept queue parks it. */
    method AdmitNext(t: QuicConn, bidi: bool) returns (blocked: bool)
      requires Inv(t, {}, {}) && hand == {} && (if bidi then adm.pendBidi != [] else adm.pendUni != [])
      modifies `rx, `tx, `led, `births, `marks, `adm, `handed, `past, `early, `hand, `parking, `sealed, `drains, `idle
      modifies `readBudget
      modifies `needsIteration, t`told, `reserves
      modifies t`taken, t`shutdowns, t`wire
      ensures Inv(t, {}, {}) && hand == {} && (old(needsIteration) ==> needsIteration) && Grown()
      ensures adm.pendBidi == (if bidi then old(adm).pendBidi[1..] else old(adm).pendBidi)
      ensures adm.pendUni == (if bidi then old(adm).pendUni else old(adm).pendUni[1..])
      ensures ParkQueue(adm, !bidi) == ParkQueue(old(adm), !bidi)
      ensures if blocked then |ParkQueue(adm, bidi)| <= |ParkQueue(old(adm), bidi)| + 1
              else ParkQueue(adm, bidi) == ParkQueue(old(adm), bidi)
    {
      hide Inv, Rest, IsBidi, IsLocal, Owned;
      var peer := TakePend(t, bidi);
      var r := AdmitOne(t, peer);
      blocked := !r.Admitted?;
      if r.NoRoom? {
        PutDown(t, peer, false);
      }
    }

    /**
     * Admit up to ADMIT_BUDGET ids, alternating classes. A class that parks is not served again, so
     * the pass examines at most ADMIT_BUDGET ids however long the backlog.
     */
    method Phase2Admission(t: QuicConn) returns (pops: nat)
      requires Inv(t, {}, {}) && hand == {}
      modifies `rx, `tx, `led, `births, `marks, `adm, `handed, `past, `early, `hand, `parking, `sealed, `drains, `idle
      modifies `readBudget
      modifies `needsIteration, `base, t`told, `reserves
      modifies t`taken, t`shutdowns, t`wire
      ensures Inv(t, {}, {}) && hand == {} && (old(needsIteration) ==> needsIteration) && Grown()
      ensures pops <= ADMIT_BUDGET
      ensures |adm.pendBidi| + |adm.pendUni| + pops == |old(adm).pendBidi| + |old(adm).pendUni|
      ensures exists n :: 0 <= n <= |old(adm).pendBidi| && adm.pendBidi == old(adm).pendBidi[n..]
      ensures exists n :: 0 <= n <= |old(adm).pendUni| && adm.pendUni == old(adm).pendUni[n..]
      ensures |adm.parkBidi| <= |old(adm).parkBidi| + 1 && |adm.parkUni| <= |old(adm).parkUni| + 1
      ensures History(t) && base == old(base)
    {
      hide Inv, Rest, Grows, Now;
      ghost var saved := Mark(t);
      var budget := ADMIT_BUDGET;
      var bidiBlocked, uniBlocked, preferBidi := false, false, true;
      pops := 0;
      ghost var nb, nu := 0, 0;
      while budget > 0
        invariant pops + budget == ADMIT_BUDGET && budget >= 0 && pops == nb + nu
        invariant Inv(t, {}, {}) && hand == {} && base == old(Now(t)) && (old(needsIteration) ==> needsIteration)
                  && Grown()
        invariant |adm.parkBidi| <= |old(adm).parkBidi| + if bidiBlocked then 1 else 0
        invariant |adm.parkUni| <= |old(adm).parkUni| + if uniBlocked then 1 else 0
        invariant 0 <= nb <= |old(adm).pendBidi| && adm.pendBidi == old(adm).pendBidi[nb..]
        invariant 0 <= nu <= |old(adm).pendUni| && adm.pendUni == old(adm).pendUni[nu..]
      {
        var bidiReady := !bidiBlocked && adm.pendBidi != [];
        var uniReady := !uniBlocked && adm.pendUni != [];
        if !bidiReady && !uniReady {
          break;
        }
        var bidi := if bidiReady && uniReady then preferBidi else bidiReady;
        preferBidi := !bidi;
        pops, budget := pops + 1, budget - 1;
        var blocked := AdmitNext(t, bidi);
        if bidi {
          nb := nb + 1;
          bidiBlocked := blocked;
        } else {
          nu := nu + 1;
          uniBlocked := blocked;
        }
      }
      Unmark(t, saved);
    }

    /** Load a class's accept-resume bit and clear it if set. */
    method TakeResumeBit(bidi: bool) returns (armed: bool)
      modifies `acceptBidiResume, `acceptUniResume
      ensures armed == if bidi then old(acceptBidiResume) else old(acceptUniResume)
      ensures acceptBidiResume == (old(acceptBidiResume) && !bidi) && acceptUniResume == (old(acceptUniResume) && bidi)
    {
      armed := if bidi then acceptBidiResume else acceptUniResume;
      if bidi {
        acceptBidiResume := false;
      } else {
        acceptUniResume := false;
      }
    }

    /** Promote up to PROMOTE_BUDGET parked ids of one class; the resume bit is cleared before the first try. */
    method PromoteParked(t: QuicConn, bidi: bool) returns (n: nat)
      requires Inv(t, {}, {}) && hand == {}
      modifies `rx, `tx, `led, `births, `marks, `adm, `handed, `past, `early, `hand, `parking, `sealed, `drains, `idle
      modifies `readBudget
      modifies `needsIteration, `base, t`told, `reserves
      modifies `acceptBidiResume, `acceptUniResume, t`taken, t`shutdowns, t`wire
      ensures Inv(t, {}, {}) && hand == {} && (old(needsIteration) ==> needsIteration) && Grown()
      ensures n <= PROMOTE_BUDGET && n <= |ParkQueue(old(adm), bidi)|
      ensures ParkQueue(adm, bidi) == ParkQueue(old(adm), bidi)[n..]
      ensures ParkQueue(adm, !bidi) == ParkQueue(old(adm), !bidi)
      ensures n > 0 ==>
                if bidi then old(acceptBidiResume) && !acceptBidiResume else old(acceptUniResume) && !acceptUniResume
      ensures History(t) && base == old(base)
    {
      hide Inv, Grows, Now;
      n := 0;
      var armed := TakeResumeBit(bidi);
      if armed {
        ghost var saved := Mark(t);
        n := PromoteOldest(t, bidi);
        Unmark(t, saved);
      } else {
        Still(t);
      }
    }

    method PromoteOldest(t: QuicConn, bidi: bool) returns (n: nat)
      requires Inv(t, {}, {}) && hand == {}
      modifies `rx, `tx, `led, `births, `marks, `adm, `handed, `past, `early, `hand, `parking, `sealed, `drains, `idle
      modifies `readBudget
      modifies `needsIteration, t`told, `reserves
      modifies t`taken, t`shutdowns, t`wire
      ensures Inv(t, {}, {}) && hand == {} && (old(needsIteration) ==> needsIteration) && Grown()
      ensures n <= PROMOTE_BUDGET && n <= |ParkQueue(old(adm), bidi)|
      ensures ParkQueue(adm, bidi) == ParkQueue(old(adm), bidi)[n..]
      ensures ParkQueue(adm, !bidi) == ParkQueue(old(adm), !bidi)
    {
      hide Inv, ParkQueue;
      n := 0;
      var budget: nat := PROMOTE_BUDGET;
      while budget > 0 && ParkQueue(adm, bidi) != []
        invariant Inv(t, {}, {}) && hand == {} && (old(needsIteration) ==> needsIteration) && Grown()
        invariant n + budget == PROMOTE_BUDGET && n <= |ParkQueue(old(adm), bidi)|
        invariant ParkQueue(adm, bidi) == ParkQueue(old(adm), bidi)[n..]
        invariant ParkQueue(adm, !bidi) == ParkQueue(old(adm), !bidi)
      {
        budget := budget - 1;
        var r := PromoteNext(t, bidi);
        if !r.NoRoom? {
          n := n + 1;
        }
        if !r.Admitted? {
          break;
        }
      }
    }

    /** Take the head parked id of a class and try again; a still full accept queue puts it back in front. */
    method PromoteNext(t: QuicConn, bidi: bool) returns (r: AdmitResult)
      requires Inv(t, {}, {}) && hand == {} && ParkQueue(adm, bidi) != []
      modifies `rx, `tx, `led, `births, `marks, `adm, `handed, `past, `early, `hand, `parking, `sealed, `drains, `idle
      modifies `readBudget
      modifies `needsIteration, t`told, `reserves
      modifies t`taken, t`shutdowns, t`wire
      ensures Inv(t, {}, {}) && hand == {} && (old(needsIteration) ==> needsIteration) && Grown()
      ensures ParkQueue(adm, !bidi) == ParkQueue(old(adm), !bidi)
      ensures ParkQueue(adm, bidi) == if r.NoRoom? then ParkQueue(old(adm), bidi) else ParkQueue(old(adm), bidi)[1..]
    {
      hide Inv, Rest, IsBidi, IsLocal, Owned;
      var peer := TakePark(t, bidi);
      r := AdmitOne(t, peer);
      if r.NoRoom? {
        PutDown(t, peer, true);
      }
    }

    // ----- writable discovery -----

    /** A surfaced half is no longer armed; its turn to be looked at. */
    ghost method Surface(t: QuicConn, id: Id)
      requires Inv(t, {}, {}) && id in tx.halves
      modifies `parking
      ensures Inv(t, {id}, {}) && parking == old(parking).(armed := old(parking).armed - {id}) && id in handed.send
      ensures tx.halves[id].pendingReset.Some? ==> tx.halves[id].terminal.Some?
      ensures !HasQueued(tx.halves[id]) ==> Inv(t, {}, {})
    {
      hide SendOk, Running, Runs, Now, TokOk, CrossOk, Rest;
      SendDisarm(tx, led, parking, t.wire, id);
      parking := parking.(armed := parking.armed - {id});
      PendingHasTerminal(tx, led, parking, t.wire, {id}, id);
      HalvesAreHanded(t, {id});
    }

    /** Its work is runnable. */
    method Rerun(ghost t: QuicConn, id: Id, ghost exc: set<Id>)
      requires Inv(t, exc, {}) && id in tx.halves && exc <= {id}
      modifies `tx
      ensures Inv(t, {}, {}) && tx == PushRun(old(tx), id) && tx.halves == old(tx).halves
      ensures tx.runSet == old(tx).runSet + {id}
    {
      hide SendOk, Running, Runs, Now, TokOk, CrossOk, Rest, ToldOk;
      SendServed(tx, led, parking, t.wire, exc, id);
      SendPushRun(tx, led, parking, t.wire, {}, id);
      PushRunKeepsHalves(tx, id);
      MarkRun(t, id);
    }

    /** A surfaced half is stopped by its peer. */
    method StopSend(ghost t: QuicConn, id: Id, code: nat, ghost exc: set<Id>)
      requires Inv(t, exc, {}) && exc <= {id} && id in tx.halves
      requires tx.halves[id].terminal.None? && tx.halves[id].pendingReset.None? && code in StopsAt(t.answers, id)
      modifies `tx, `resolved, `home, `adm, `rx
      ensures Inv(t, {}, {}) && Settles() && rx.halves == old(rx).halves
      ensures tx.halves == old(tx).halves[id := tx.halves[id]] && tx.runSet == old(tx).runSet - {id}
      ensures tx.halves[id].terminal == Some(Stopped(code))
      ensures adm == old(adm).(admit := SendDoneIn(old(adm).admit, id))
    {
      hide SendOk, Running, Runs, Now, TokOk, CrossOk, Rest, FailAll, Known, ToldOk, SendDoneIn, StopsAt, Extends;
      SendServed(tx, led, parking, t.wire, exc, id);
      SendTerminalTransition(t, id, Stopped(code));
    }

    /** A surfaced send half: a stop is terminal, anything else makes queued work runnable. */
    method RouteSendWritable(t: QuicConn, id: Id)
      requires Inv(t, {}, {}) && id in tx.halves
      modifies `tx, `resolved, `home, `adm, `rx, `parking, t`told, t`answers
      ensures Inv(t, {}, {}) && Settles()
      ensures t.told == old(t.told).(capacity := t.told.capacity, dead := t.told.dead)
      ensures parking == old(parking).(armed := old(parking).armed - {id})
      ensures id in tx.halves && (HasQueued(tx.halves[id]) ==> id in tx.runSet)
      ensures tx.halves == old(tx).halves[id := tx.halves[id]] && tx.runSet - {id} == old(tx).runSet - {id}
      ensures StopOf(t.told.capacity).Some? && old(tx).halves[id].terminal.None? ==>
                tx.halves[id].terminal == StopOf(t.told.capacity)
      ensures adm == old(adm) || adm == old(adm).(admit := SendDoneIn(old(adm).admit, id))
      ensures AnswersGrow(old(t.answers), t.answers) && t.answers.shown == old(t.answers).shown
    {
      hide Inv, FailAll, Known, SendDoneIn, AnswersGrow, Reason, Terminated;
      Surface(t, id);
      var h := tx.halves[id];
      ghost var exc := if HasQueued(h) then {id} else {};
      var cap := HearCapacity(t, id, exc);
      if cap.Err? && cap.error.StreamStopped? && h.pendingReset.None? && h.terminal.None? {
        StopSend(t, id, cap.error.code, exc);
      } else if !(cap.Err? && cap.error.StreamStopped?) && (h.ops != [] || h.pendingReset.Some?) {
        Rerun(t, id, exc);
      }
    }

    predicate HasQueued(h: SendHalf) {
      h.ops != [] && h.terminal.None?
    }

    /** A waiting stream is probed, and keeps the first stop code seen. */
    method MergeCapture(t: QuicConn, id: Id)
      requires Inv(t, {}, {}) && IsBidi(id) && Waiting(adm, id)
      modifies `adm, `early, t`told, t`answers
      ensures Inv(t, {}, {}) && t.told == old(t.told).(capacity := t.told.capacity, dead := t.told.dead)
      ensures early == See(old(early), id, StopOf(t.told.capacity))
      ensures adm == MergeStop(old(adm), id, StopOf(t.told.capacity))
      ensures t.answers == Probed(old(t.answers), id, t.told.capacity)
    {
      hide SendOk, Running, Runs, Now, TokOk, CrossOk, AdmitOk, RecvOk, DrainsOk, EarlyOk, DirOk, IdsOk, IsBidi;
      hide IsLocal, See, Probed;
      hide MergeStop;
      WaitingIsUnhanded(adm, rx.halves.Keys, handed, isServer, id);
      var cap := ProbeStop(t, id);
      var stopped := StopOf(cap);
      AdmitMerge(adm, rx.halves.Keys, handed, isServer, id, stopped);
      EarlyMerge(adm, old(early), handed, hand, id, stopped);
      CrossMerge(tx.halves, led, adm, handed, past, parking.orphan, id, stopped);
      adm := MergeStop(adm, id, stopped);
    }

    /** Probe a stream nobody was given: a stop is seen, the first one counts. */
    method ProbeStop(t: QuicConn, id: Id) returns (cap: Result<nat, QuicError>)
      requires Running(t) && id !in handed.send
      modifies `early, t`told, t`answers
      ensures Running(t) && early == See(old(early), id, StopOf(cap)) && t.told.capacity == cap
      ensures t.answers == Probed(old(t.answers), id, cap)
      ensures t.told == old(t.told).(capacity := t.told.capacity, dead := t.told.dead)
      ensures old(t.told).dead <= t.told.dead
    {
      hide Runs, See, Probed, StopOf, ClassifySend;
      ghost var was := Now(t);
      cap := t.StreamCapacity(id);
      ProbeStep(base, was, id, cap);
      early := See(early, id, StopOf(cap));
    }

    /** A newly seen stream is probed, and waits for admission with its stop code. */
    method PendCapture(t: QuicConn, id: Id)
      requires Inv(t, {}, {}) && id !in adm.admit && id !in adm.pending && hand == {}
      requires !IsLocal(id, isServer) && !handed.Has(id) && IsBidi(id)
      modifies `adm, `early, t`told, t`answers
      ensures Inv(t, {}, {}) && t.told == old(t.told).(capacity := t.told.capacity, dead := t.told.dead)
      ensures early == See(old(early), id, StopOf(t.told.capacity)) && id !in old(early).seen
      ensures adm == PutPending(old(adm), PeerStream(id, StopOf(t.told.capacity)))
      ensures t.answers == Probed(old(t.answers), id, t.told.capacity)
    {
      hide SendOk, Running, Runs, Now, TokOk, CrossOk, AdmitOk, RecvOk, DrainsOk, EarlyOk, DirOk, IdsOk, IsBidi;
      hide IsLocal, See, Probed;
      var cap := ProbeStop(t, id);
      var peer := PeerStream(id, StopOf(cap));
      EarlySee(adm, old(early), handed, hand, id, peer.sendEnd);
      AdmitPend(adm, rx.halves.Keys, handed, isServer, peer);
      EarlyPut(adm, early, handed, {} + {id}, peer);
      assert {} + {id} - {id} == hand;
      adm := PutPending(adm, peer);
    }

    /** A newly seen stream waits for admission. */
    method Pend(ghost t: QuicConn, id: Id)
      requires Inv(t, {}, {}) && id !in adm.admit && id !in adm.pending && hand == {}
      requires !IsLocal(id, isServer) && !handed.Has(id)
      modifies `adm
      ensures Inv(t, {}, {}) && adm == PutPending(old(adm), PeerStream(id, None))
    {
      hide SendOk, Running, Runs, Now, TokOk, CrossOk, AdmitOk, RecvOk, DrainsOk, EarlyOk, DirOk, IdsOk, IsBidi;
      hide IsLocal;
      var peer := PeerStream(id, None);
      EarlySee(adm, early, handed, hand, id, None);
      AdmitPend(adm, rx.halves.Keys, handed, isServer, peer);
      EarlyPut(adm, early, handed, {} + {id}, peer);
      assert {} + {id} - {id} == hand;
      adm := PutPending(adm, peer);
    }

    /** A peer bidi stream not handed over yet: own it, with the first stop code the capacity probe reports. */
    method CaptureStop(t: QuicConn, id: Id)
      requires Inv(t, {}, {}) && IsBidi(id) && id !in tx.halves && hand == {}
      requires id in adm.admit ==> adm.admit[id].Parked?
      requires id in adm.admit || id in adm.pending || (!IsLocal(id, isServer) && !handed.Has(id))
      modifies `adm, `early, `needsIteration, t`told, t`answers
      ensures Inv(t, {}, {}) && Waiting(adm, id) && WaitingKept()
      ensures t.told == old(t.told).(capacity := t.told.capacity, dead := t.told.dead)
      ensures early == See(old(early), id, StopOf(t.told.capacity))
      ensures t.answers == Probed(old(t.answers), id, t.told.capacity)
      ensures !old(Waiting(adm, id)) ==> id !in old(early).seen
      ensures old(needsIteration) ==> needsIteration
    {
      hide Inv, IsBidi, IsLocal, See, Probed, MergeStop, PutPending;
      ghost var was := adm;
      if id in adm.pending || id in adm.admit {
        MergeCapture(t, id);
      } else {
        PendCapture(t, id);
        needsIteration := true;
      }
      WaitingAfter(was, id, StopOf(t.told.capacity));
    }

    /** Whoever was waiting for admission still is. */
    twostate predicate WaitingKept()
      reads `adm
    {
      forall x | Waiting(old(adm), x) :: Waiting(adm, x)
    }

    lemma WaitingAfter(was: Admission, id: Id, end: Option<SendEnd>)
      ensures var peer := PeerStream(id, end);
              && (forall x | Waiting(was, x) ::
                    Waiting(MergeStop(was, id, end), x) && Waiting(PutPending(was, peer), x))
              && Waiting(PutPending(was, peer), id)
    {
      forall x | Waiting(was, x)
        ensures Waiting(MergeStop(was, id, end), x) && Waiting(PutPending(was, PeerStream(id, end)), x)
      {
        StillWaiting(was, id, x, end, PeerStream(id, end));
      }
      hide IsBidi;
    }

    /** An id without a send half is armed for nobody. */
    ghost method Disarm(t: QuicConn, id: Id)
      requires Inv(t, {}, {}) && id !in tx.halves
      modifies `parking
      ensures Inv(t, {}, {}) && parking == old(parking).(armed := old(parking).armed - {id})
    {
      hide SendOk, Running, Runs, Now, TokOk, CrossOk, Rest;
      SendDisarm(tx, led, parking, t.wire, id);
      parking := parking.(armed := parking.armed - {id});
    }

    /** If `id` has operations queued, it is in the run queue. */
    ghost predicate Runnable(id: Id)
      reads `tx
    {
      id in tx.halves && HasQueued(tx.halves[id]) ==> id in tx.runSet
    }

    /** Nobody but `id` changed, and nobody but `id` entered or left the run queue. */
    twostate predicate OthersRun(id: Id)
      reads `tx
    {
      tx.halves - {id} == old(tx.halves) - {id} && tx.runSet - {id} == old(tx.runSet) - {id}
    }

    lemma StillRunnable(seen: seq<Id>, was: SendSide, id: Id)
      requires forall x | x in seen && x in was.halves && HasQueued(was.halves[x]) :: x in was.runSet
      requires tx.halves - {id} == was.halves - {id} && tx.runSet - {id} == was.runSet - {id} && Runnable(id)
      ensures forall x | x in seen + [id] :: Runnable(x)
    {
      forall x | x in seen + [id]
        ensures Runnable(x)
      {
        if x != id && x in tx.halves {
          assert x in tx.halves - {id} && (tx.halves - {id})[x] == (was.halves - {id})[x];
          assert x in was.runSet ==> x in was.runSet - {id};
        }
      }
    }

    /** Ask the transport for one writable id. */
    method DiscoverWritable(t: QuicConn) returns (next: Option<Id>)
      requires Inv(t, {}, {}) && t.surfaced == {}
      modifies t`told, t`surfaced, t`answers
      ensures Inv(t, {}, {}) && idle.dry <= t.told.quiet && (next.None? ==> t.surfaced == {})
      ensures next.None? ==> t.answers == old(t.answers)
      ensures next.Some? ==> t.answers == old(t.answers).(shown := old(t.answers).shown + [next.value])
      ensures next.Some? ==>
                && var id := next.value;
                && t.surfaced == {id}
                && (id in tx.halves || id in adm.admit || id in adm.pending
                    || (!IsLocal(id, isServer) && !handed.Has(id)))
    {
      hide SendOk, Running, Runs, Now, TokOk, CrossOk, Rest, IsLocal, Within;
      next := HearWritable(t);
    }

    method HearWritable(t: QuicConn) returns (next: Option<Id>)
      requires Running(t)
      modifies t`told, t`surfaced, t`answers
      ensures Running(t)
      ensures next.Some? ==>
                || next.value in tx.halves.Keys + adm.admit.Keys + adm.pending.Keys
                || (!IsLocal(next.value, isServer) && next.value !in handed.send + handed.recv)
      ensures next.None? ==> t.told == old(t.told) && t.surfaced == old(t.surfaced) && t.answers == old(t.answers)
      ensures next.Some? ==>
                && t.told == old(t.told).(armed := old(t.told).armed - {next.value})
                && t.surfaced == old(t.surfaced) + {next.value}
                && t.answers == old(t.answers).(shown := old(t.answers).shown + [next.value])
    {
      hide Runs, IsLocal;
      ghost var was := Now(t);
      next := t.NextWritable(tx.halves.Keys + adm.admit.Keys + adm.pending.Keys, handed.send + handed.recv, isServer);
      AnswerStep(base, was, t.answers);
    }

    /** The surfaced id was looked at: it waits for the transport no more. */
    ghost method LookedAt(t: QuicConn)
      requires Inv(t, {}, {}) && idle.dry <= t.told.quiet && parking.armed !! t.surfaced
      modifies t`surfaced
      ensures Inv(t, {}, {}) && t.surfaced == {}
    {
      hide SendOk, Running, Runs, Now, TokOk, CrossOk, Rest;
      t.Handled();
    }

    /** Take one writable id from the transport and route it. */
    method SurfaceWritable(t: QuicConn) returns (next: Option<Id>)
      requires Inv(t, {}, {}) && t.surfaced == {} && hand == {}
      modifies `tx, `resolved, `home, `adm, `rx, `parking, `early, `needsIteration, t`told, t`surfaced, t`answers
      ensures next.None? ==> tx == old(tx) && t.answers == old(t.answers)
      ensures WaitingKept() && AnswersGrow(old(t.answers), t.answers)
      ensures next.Some? ==> t.answers.shown == old(t.answers).shown + [next.value]
      ensures next.Some? && IsBidi(next.value) && !handed.Has(next.value) ==>
                Waiting(adm, next.value) && ProbesAt(t.answers, next.value) > ProbesAt(old(t.answers), next.value)
      ensures next.Some? ==> Runnable(next.value) && OthersRun(next.value)
      ensures Inv(t, {}, {}) && t.surfaced == {} && Settles() && (old(needsIteration) ==> needsIteration)
    {
      hide Inv, IsLocal, IsBidi, Extends, Known, Waiting, AnswersGrow, ProbesAt, Probed, See, SendDoneIn;
      ExtendsSelf(resolved);
      next := DiscoverWritable(t);
      ShownGrows(old(t.answers), t.answers);
      if next.None? {
        return;
      }
      var id := next.value;
      ghost var shown := t.answers;
      if id in tx.halves {
        HalvesAreHanded(t, {});
        ghost var was := adm;
        RouteSendWritable(t, id);
        DoneKeepsWaiting(was, id);
      } else {
        Disarm(t, id);
        if IsBidi(id) && !(id in adm.admit && adm.admit[id].Registered?) {
          CaptureStop(t, id);
          ProbedGrows(shown, id, t.told.capacity);
          ProbedShows(shown, id, t.told.capacity);
        } else {
          RegisteredIsHanded(t, id);
          ShownGrows(shown, shown);
        }
      }
      AnswersGrowTrans(old(t.answers), shown, t.answers);
      ShownProbes(old(t.answers), shown, id);
      LookedAt(t);
    }

    lemma RegisteredIsHanded(t: QuicConn, id: Id)
      requires Inv(t, {}, {})
      ensures id in adm.admit && adm.admit[id].Registered? ==> handed.Has(id)
    {
      hide SendOk, Running, Runs, Now, TokOk, CrossOk, RecvOk, DrainsOk, EarlyOk, DirOk, IdsOk, IsBidi, IsLocal;
      hide AllTerminal;
    }

    lemma DoneKeepsWaiting(was: Admission, id: Id)
      ensures forall x | Waiting(was, x) :: Waiting(was.(admit := SendDoneIn(was.admit, id)), x)
    {
      forall x | Waiting(was, x)
        ensures Waiting(was.(admit := SendDoneIn(was.admit, id)), x)
      {
        StillWaiting(was, id, x, None, PeerStream(id, None));
      }
    }

    /** The single destructive writable scan. */
    method StageWritable(t: QuicConn) returns (ghost seen: seq<Id>)
      requires Inv(t, {}, {}) && t.surfaced == {} && hand == {}
      modifies `tx, `resolved, `home, `adm, `rx, `parking, `early, `needsIteration, `base
      modifies t`told, t`surfaced, t`answers
      ensures Inv(t, {}, {}) && t.surfaced == {} && Settles() && (old(needsIteration) ==> needsIteration)
      ensures |seen| <= WRITABLE_BUDGET && t.answers.shown == old(t.answers).shown + seen
      ensures forall id | id in seen :: Runnable(id)
      ensures forall id | id in seen && IsBidi(id) && !handed.Has(id) ::
                && ProbesAt(t.answers, id) > ProbesAt(old(t.answers), id)
                && Waiting(adm, id) && OwnedEnd(adm, id) == FirstStop(t.answers, early, id)
      ensures |seen| == WRITABLE_BUDGET ==> needsIteration
      ensures History(t) && base == old(base)
    {
      hide Inv, Extends, Grows, Now, Waiting, OwnedEnd, FirstStop, IsBidi, ProbesAt, AnswersGrow, Known, Runnable;
      ghost var saved := Mark(t);
      var n;
      n, seen := SurfaceSome(t);
      if n == WRITABLE_BUDGET {
        needsIteration := true;
      }
      WaitingOwnTheFirstStop(t);
      Unmark(t, saved);
    }

    method SurfaceSome(t: QuicConn) returns (n: nat, ghost seen: seq<Id>)
      requires Inv(t, {}, {}) && t.surfaced == {} && hand == {}
      modifies `tx, `resolved, `home, `adm, `rx, `parking, `early
      modifies t`told, t`surfaced, t`answers, `needsIteration
      ensures Inv(t, {}, {}) && t.surfaced == {} && Settles() && (old(needsIteration) ==> needsIteration)
      ensures |seen| == n <= WRITABLE_BUDGET && t.answers.shown == old(t.answers).shown + seen
      ensures forall id | id in seen :: Runnable(id)
      ensures forall id | id in seen && IsBidi(id) && !handed.Has(id) ::
                ProbesAt(t.answers, id) > ProbesAt(old(t.answers), id) && Waiting(adm, id)
    {
      hide Inv, Extends, Waiting, IsBidi, ProbesAt, AnswersGrow, Known;
      ExtendsSelf(resolved);
      ShownGrows(t.answers, t.answers);
      n := 0;
      seen := [];
      while n < WRITABLE_BUDGET
        invariant |seen| == n <= WRITABLE_BUDGET && forall id | id in seen :: Runnable(id)
        invariant t.answers.shown == old(t.answers).shown + seen && AnswersGrow(old(t.answers), t.answers)
        invariant forall id | id in seen && IsBidi(id) && !handed.Has(id) ::
                    ProbesAt(t.answers, id) > ProbesAt(old(t.answers), id) && Waiting(adm, id)
        invariant Inv(t, {}, {}) && t.surfaced == {} && Settles() && (old(needsIteration) ==> needsIteration)
      {
        ghost var resolved1, was, answers := resolved, tx, t.answers;
        var next := SurfaceWritable(t);
        ExtendsTrans(old(resolved), resolved1, resolved);
        if next.None? {
          break;
        }
        StillRunnable(seen, was, next.value);
        MoreProbes(old(t.answers), answers, t.answers);
        AnswersGrowTrans(old(t.answers), answers, t.answers);
        seen := seen + [next.value];
        n := n + 1;
      }
    }

    /** Every waiting stream owns the first stop the transport answered for it. */
    lemma WaitingOwnTheFirstStop(t: QuicConn)
      requires Inv(t, {}, {})
      ensures forall id | Waiting(adm, id) :: OwnedEnd(adm, id) == FirstStop(t.answers, early, id)
    {
      hide SendOk, TokOk, CrossOk, RecvOk, DrainsOk, DirOk, IdsOk, IsBidi, IsLocal, AllTerminal, Grows, NoDup;
      hide WireLaw, CmdsLaw, EntriesLaw, AbsentLaw, FinalsLaw, ResetsLaw, RecvLaw, UndoneLaw, FirstStop, SeenEnd;
    }

    // ----- command ingress -----

    /** The invariant between the worker's steps. */
    ghost predicate Valid(t: QuicConn)
      reads `tx, `rx, `adm, `io, `handed, `resolved, `led, `parking, `past, `sealed, `idle, `early, `home, `abandoned
      reads `nextBidi, `nextUni, `closing, `applied, `cancelled, `births, `base, `drains, `asked, `cmds, `marks, `hand
      reads `connTerminal, `ingressClosed
      reads t`wire, t`taken, t`shutdowns, t`closes, t`told, t`surfaced, t`sent, t`answers, t`calm
    {
      && Inv(t, {}, {}) && t.surfaced == {} && hand == {} && (ingressClosed <==> connTerminal.Some?)
      && CmdsOk(io, handed, past)
      && JournalOk(connTerminal.Some?, asked, cmds, io.inbox + io.cmdRx)
      && CloseOk(closing, applied, t.closes, t.calm, io)
      && abandoned <= cancelled <= io.opens
      && AllKnown(io.nextTok, Known())
    }

    lemma StillValid(t: QuicConn)
      requires Valid(t)
      ensures Grows(Now(t), Now(t))
    {
      hide Inv;
      Still(t);
    }

    ghost method MarkValid(t: QuicConn) returns (saved: Snap)
      requires Valid(t)
      modifies `base
      ensures Valid(t) && base == Now(t) && saved == old(base) && Grows(saved, base)
    {
      hide Inv, CmdsOk, CloseOk, AllKnown, Grows;
      saved := Mark(t);
    }

    ghost method UnmarkValid(t: QuicConn, saved: Snap)
      requires Valid(t) && Grows(saved, base)
      modifies `base
      ensures Valid(t) && base == saved && Grows(old(base), Now(t))
    {
      hide Inv, CmdsOk, CloseOk, AllKnown, Grows;
      Unmark(t, saved);
    }

    /** A front-end handle enqueues a command. A new completion channel gets the next token. */
    method Submit(ghost t: QuicConn, c: Command)
      requires Valid(t) && !ingressClosed && !closing.lastHandle
      requires CmdTok(c).Some? ==> CmdTok(c).value == io.nextTok
      requires CmdsWf(io.inbox + io.cmdRx + [c], handed.send, handed.recv, past.ended)
      modifies `io, `home, `asked
      ensures Valid(t) && (old(Settled(t)) ==> Settled(t))
      ensures io == Enqueued(old(io), c) && asked == old(asked) + [c]
      ensures Known() == old(Known()) + TokSet(c)
      ensures History(t)
    {
      hide Inv, CmdTok, CmdsWf, AllKnown, KnownIn, Grows, Now;
      KnownSubmit(io, Known(), c);
      assert io.inbox + io.cmdRx + [c] == io.inbox + (io.cmdRx + [c]);
      if CmdTok(c).Some? {
        KnownPut(home, resolved, abandoned, CmdTok(c).value, InCmd);
      }
      SubmitOne(t, c);
      assert io.inbox + io.cmdRx == old(io.inbox + io.cmdRx) + [c];
    }

    method SubmitOne(ghost t: QuicConn, c: Command)
      requires Inv(t, {}, {}) && AllKnown(io.nextTok, Known())
      requires CmdTok(c).Some? ==> CmdTok(c).value == io.nextTok
      modifies `io, `home, `asked
      ensures Inv(t, {}, {}) && History(t) && io == Enqueued(old(io), c) && asked == old(asked) + [c]
      ensures home == if CmdTok(c).Some? then old(home)[CmdTok(c).value := InCmd] else old(home)
    {
      hide SendOk, Running, Runs, Now, TokOk, CrossOk, Rest, CmdTok, AllKnown, ToldOk, KnownIn, Enqueued;
      TokSubmit(tx.halves, io, home, resolved, abandoned, c);
      CrossHanded(tx.halves, led, adm.admit, handed, past, parking.orphan);
      Enqueue(t, c);
    }

    /** The command joins the channel, with its token if it has one. */
    method Enqueue(ghost t: QuicConn, c: Command)
      requires Running(t) && tx.halves.Keys == led.Keys
      requires CmdTok(c).Some? ==> CmdTok(c).value == io.nextTok
      modifies `io, `home, `asked
      ensures Running(t) && History(t) && io == Enqueued(old(io), c) && asked == old(asked) + [c]
      ensures home == if CmdTok(c).Some? then old(home)[CmdTok(c).value := InCmd] else old(home)
    {
      hide CmdTok, Enqueued, Grows, Lawful;
      GrowsSelf(base, Now(t));
      SubmitStep(Now(t), Now(t), io, c);
      SubmitStep(base, Now(t), io, c);
      io := Enqueued(io, c);
      asked := asked + [c];
      if CmdTok(c).Some? {
        home := home[CmdTok(c).value := InCmd];
      }
    }

    /** The queues change, and no token is made. */
    method SetIo(ghost t: QuicConn, io': Ingress)
      requires io'.nextTok == io.nextTok && io'.opens == io.opens
      modifies `io
      ensures io == io' && (old(Running(t)) ==> Running(t))
    {
      io := io';
    }

    /** A poller gives up on an open reply. */
    method Cancel(ghost t: QuicConn, tok: Token)
      requires Valid(t)
      requires tok in io.opens
      modifies `cancelled
      ensures Valid(t) && cancelled == old(cancelled) + {tok}
      ensures History(t)
    {
      hide Inv, CmdsOk, Grows;
      Still(t);
      cancelled := cancelled + {tok};
    }

    method EnqueueResume(ghost t: QuicConn, id: Id)
      modifies `rx
      ensures old(Running(t)) ==> Running(t)
      ensures rx == PushResume(old(rx), id)
    {
      hide Runs;
      if id !in rx.resumeSet {
        rx := rx.(resume := rx.resume + [id], resumeSet := rx.resumeSet + {id});
      }
    }

    /** Shut down and forget every stream that waits for hand-over, parked ones first. */
    method CleanUndelivered(t: QuicConn)
      requires Inv(t, {}, {}) && hand == {}
      modifies `adm, `early, `hand, t`shutdowns, t`wire
      ensures Inv(t, {}, {}) && hand == {}
      ensures adm.parkBidi == [] && adm.parkUni == [] && adm.pendBidi == [] && adm.pendUni == []
      ensures t.shutdowns == old(t.shutdowns) + PeerShutdowns(old(adm).parkBidi + old(adm).parkUni
                                                              + old(adm).pendBidi + old(adm).pendUni)
    {
      hide Inv, PeerShutdowns;
      CleanParked(t, true);
      CleanParked(t, false);
      CleanPending(t, true);
      CleanPending(t, false);
      PeerShutdownsAppend(old(adm).parkBidi, old(adm).parkUni);
      PeerShutdownsAppend(old(adm).parkBidi + old(adm).parkUni, old(adm).pendBidi);
      PeerShutdownsAppend(old(adm).parkBidi + old(adm).parkUni + old(adm).pendBidi, old(adm).pendUni);
    }

    method DropParked(t: QuicConn, bidi: bool) returns (id: Id)
      requires Inv(t, {}, {}) && hand == {} && (if bidi then adm.parkBidi != [] else adm.parkUni != [])
      modifies `adm, `early, `hand, t`shutdowns, t`wire
      ensures Inv(t, {}, {}) && hand == {} && adm == TakeParked(old(adm), bidi)
      ensures id == if bidi then old(adm).parkBidi[0] else old(adm).parkUni[0]
      ensures t.shutdowns == old(t.shutdowns) + PeerShutdown(id)
    {
      hide Inv, IsBidi, IsLocal, Owned, TakeParked;
      var peer := TakePark(t, bidi);
      id := peer.id;
      TearDown(t, peer);
    }

    method DropPending(t: QuicConn, bidi: bool) returns (id: Id)
      requires Inv(t, {}, {}) && hand == {} && (if bidi then adm.pendBidi != [] else adm.pendUni != [])
      modifies `adm, `early, `hand, t`shutdowns, t`wire
      ensures Inv(t, {}, {}) && hand == {} && adm == TakePending(old(adm), bidi)
      ensures id == if bidi then old(adm).pendBidi[0] else old(adm).pendUni[0]
      ensures t.shutdowns == old(t.shutdowns) + PeerShutdown(id)
    {
      hide Inv, IsBidi, IsLocal, Owned, TakePending;
      var peer := TakePend(t, bidi);
      id := peer.id;
      TearDown(t, peer);
    }

    method CleanParked(t: QuicConn, bidi: bool)
      requires Inv(t, {}, {}) && hand == {}
      modifies `adm, `early, `hand, t`shutdowns, t`wire
      ensures Inv(t, {}, {}) && hand == {}
      ensures adm.pendBidi == old(adm).pendBidi && adm.pendUni == old(adm).pendUni
      ensures adm.parkBidi == (if bidi then [] else old(adm).parkBidi)
      ensures adm.parkUni == (if bidi then old(adm).parkUni else [])
      ensures t.shutdowns == old(t.shutdowns) + PeerShutdowns(if bidi then old(adm).parkBidi else old(adm).parkUni)
    {
      hide Inv, PeerShutdowns, PeerShutdown, IsBidi;
      while (if bidi then adm.parkBidi else adm.parkUni) != []
        invariant Inv(t, {}, {}) && hand == {}
        invariant adm.pendBidi == old(adm).pendBidi && adm.pendUni == old(adm).pendUni
        invariant if bidi then adm.parkUni == old(adm).parkUni else adm.parkBidi == old(adm).parkBidi
        invariant t.shutdowns + PeerShutdowns(if bidi then adm.parkBidi else adm.parkUni) ==
                  old(t.shutdowns) + PeerShutdowns(if bidi then old(adm).parkBidi else old(adm).parkUni)
        decreases if bidi then |adm.parkBidi| else |adm.parkUni|
      {
        ghost var q, done := if bidi then adm.parkBidi else adm.parkUni, t.shutdowns;
        PeerShutdownsHead(done, q);
        var id := DropParked(t, bidi);
      }
      PeerShutdownsNone(t.shutdowns);
    }

    method CleanPending(t: QuicConn, bidi: bool)
      requires Inv(t, {}, {}) && hand == {}
      modifies `adm, `early, `hand, t`shutdowns, t`wire
      ensures Inv(t, {}, {}) && hand == {}
      ensures adm.parkBidi == old(adm).parkBidi && adm.parkUni == old(adm).parkUni
      ensures adm.pendBidi == (if bidi then [] else old(adm).pendBidi)
      ensures adm.pendUni == (if bidi then old(adm).pendUni else [])
      ensures t.shutdowns == old(t.shutdowns) + PeerShutdowns(if bidi then old(adm).pendBidi else old(adm).pendUni)
    {
      hide Inv, PeerShutdowns, PeerShutdown, IsBidi;
      while (if bidi then adm.pendBidi else adm.pendUni) != []
        invariant Inv(t, {}, {}) && hand == {}
        invariant adm.parkBidi == old(adm).parkBidi && adm.parkUni == old(adm).parkUni
        invariant if bidi then adm.pendUni == old(adm).pendUni else adm.pendBidi == old(adm).pendBidi
        invariant t.shutdowns + PeerShutdowns(if bidi then adm.pendBidi else adm.pendUni) ==
                  old(t.shutdowns) + PeerShutdowns(if bidi then old(adm).pendBidi else old(adm).pendUni)
        decreases if bidi then |adm.pendBidi| else |adm.pendUni|
      {
        ghost var q, done := if bidi then adm.pendBidi else adm.pendUni, t.shutdowns;
        PeerShutdownsHead(done, q);
        var id := DropPending(t, bidi);
      }
      PeerShutdownsNone(t.shutdowns);
    }

    /** `c` comes from live handles, and does not follow the end of its send half. */
    ghost predicate Targets(c: Command)
      reads `handed, `past
    {
      && (SendTarget(c).Some? ==> SendTarget(c).value in handed.send && SendTarget(c).value !in past.ended)
      && (c.StopSending? ==> c.id in handed.recv)
    }

    /** Take the oldest command; its token is in hand until it is applied. */
    method PopCommand(ghost t: QuicConn) returns (c: Command)
      requires Valid(t) && io.inbox + io.cmdRx != []
      modifies `io, `home
      ensures JournalOk(connTerminal.Some?, asked, cmds, [c] + (io.inbox + io.cmdRx))
      ensures io == PoppedIo(old(io)) && c == old(io.inbox + io.cmdRx)[0] && !closing.lastHandle
      ensures Inv(t, {}, {}) && InHand(c, io, home, resolved, abandoned) && Targets(c)
      ensures CmdsOk(io, handed, past.(ended := EndedBy(c, past.ended)))
      ensures home == old(home) - TokSet(c) && Known() + TokSet(c) == old(Known())
    {
      hide SendOk, Running, Runs, Now, TokOk, CrossOk, Rest, CmdsOk, AllKnown, CmdTok, SendTarget, ToldOk, Within;
      hide KnownIn;
      PopKeepsOrder(io);
      TokPopCmd(tx.halves, io, home, resolved, abandoned);
      CmdsPop(io, handed, past);
      if io.inbox != [] {
        c := io.inbox[0];
      } else {
        c := io.cmdRx[0];
      }
      SetIo(t, PoppedIo(io));
      KnownTook(home, resolved, abandoned, TokSet(c));
      home := home - TokSet(c);
    }

    /** The send half `id` has its terminal. */
    ghost predicate HasTerminal(id: Id)
      reads `tx
    {
      id in tx.halves && tx.halves[id].terminal.Some?
    }

    /** The operation was failed with the terminal already there, or it is queued last, as it came, and runnable. */
    twostate predicate OpApplied(id: Id, op: Op)
      reads `tx, `resolved
    {
      if old(HasTerminal(id)) then
        tx == old(tx) && resolved == old(resolved)[op.done := Failed(old(tx).halves[id].terminal.value)]
      else
        && id in tx.halves && tx.halves[id].terminal.None? && id in tx.runSet && resolved == old(resolved)
        && tx.halves[id].ops == (if old(id in tx.halves) then old(tx).halves[id].ops else []) + [op]
        && tx.halves[id].finished == old(id in tx.halves && tx.halves[id].finished)
    }

    /** A terminal already there stays; otherwise the reset is the terminal, pending with its code, and runnable. */
    twostate predicate ResetApplied(id: Id, code: nat)
      reads `tx, `resolved
    {
      if old(HasTerminal(id)) then tx == old(tx) && resolved == old(resolved)
      else
        && id in tx.halves && id in tx.runSet && !tx.halves[id].finished
        && tx.halves[id].terminal == Some(LocalReset(code)) && tx.halves[id].pendingReset == Some(code)
        && var ops := if old(id in tx.halves) then old(tx).halves[id].ops else [];
           resolved == old(resolved) + FailAll(ops, LocalReset(code))
    }

    /** What a command does to the send half it is for. */
    twostate predicate SendApplied(c: Command)
      reads `tx, `resolved
    {
      match c
      case Send(id, buf, done) => OpApplied(id, WriteOp(buf, done))
      case Finish(id, done) => OpApplied(id, FinishOp(done))
      case Reset(id, code) => ResetApplied(id, code)
      case _ => true
    }

    /** A command for no send half is entered in the journal. */
    ghost method Journal(t: QuicConn, c: Command)
      requires Inv(t, {}, {}) && cmds + [c] <= asked && SendTarget(c).None?
      modifies `cmds
      ensures Inv(t, {}, {}) && cmds == old(cmds) + [c]
    {
      hide SendOk, Runs, TokOk, CrossOk, Rest, SendTarget;
      CmdStep(base, Now(t), c);
      cmds := cmds + [c];
    }

    /** A stream's own commands: operations, reset, stop and receive resume. */
    method ApplyStreamCommand(t: QuicConn, c: Command)
      requires Inv(t, {}, {}) && InHand(c, io, home, resolved, abandoned) && Targets(c)
      requires c.Send? || c.Finish? || c.Reset? || c.StopSending? || c.RecvResume?
      requires connTerminal.None? && cmds + [c] <= asked
      modifies `tx, `led, `births, `marks, `resolved, `home, `past, `cmds, `rx, `adm, `parking, `sealed, `drains, `idle
      modifies t`shutdowns, t`wire
      ensures Inv(t, {}, {}) && Known() == old(Known()) + TokSet(c) && Extends(old(resolved), resolved)
      ensures past == old(past).(ended := EndedBy(c, old(past).ended)) && cmds == old(cmds) + [c]
      ensures SendApplied(c)
      ensures SendTarget(c).Some? ==> rx == old(rx) && adm == old(adm) && parking == old(parking)
      ensures c.StopSending? ==>
                c.id !in rx.halves && t.shutdowns == old(t.shutdowns) + [Shutdown(c.id, ReadSide, c.code)]
      ensures c.StopSending? && old(c.id in tx.halves && !tx.halves[c.id].finished) ==>
                PlaceDropped(c.id)
      ensures c.RecvResume? ==> c.id in rx.resumeSet && tx == old(tx)
    {
      hide Inv, Known, FailAll;
      match c {
        case Send(id, buf, done) =>
          EnqueueSendOp(t, id, WriteOp(buf, done));
          assert old(past).ended + {} == old(past).ended;
        case Finish(id, done) => EnqueueSendOp(t, id, FinishOp(done));
        case Reset(id, code) => ApplyReset(t, id, code);
        case StopSending(id, code) =>
          Journal(t, c);
          assert cmds[|cmds| - 1] == c;
          ApplyStop(t, id, code);
        case RecvResume(id) =>
          Journal(t, c);
          ApplyResume(t, id);
      }
    }

    method ApplyStop(t: QuicConn, id: Id, code: nat)
      requires Inv(t, {}, {}) && id in handed.recv && connTerminal.None? && StopAsked(cmds, id)
      modifies `rx, `adm, `tx, `led, `parking, `sealed, `drains, `idle, t`shutdowns, t`wire
      ensures Inv(t, {}, {}) && id !in rx.halves && t.shutdowns == old(t.shutdowns) + [Shutdown(id, ReadSide, code)]
      ensures old(id in tx.halves && !tx.halves[id].finished) ==> PlaceDropped(id)
    {
      hide Inv, StopAsked;
      TakeUp(t, id);
      StopRecv(t, id, code);
    }

    method ApplyResume(ghost t: QuicConn, id: Id)
      requires Inv(t, {}, {})
      modifies `rx
      ensures Inv(t, {}, {}) && id in rx.resumeSet
    {
      hide SendOk, Running, Runs, Now, TokOk, CrossOk, AdmitOk, RecvOk, DrainsOk, EarlyOk, DirOk, IdsOk;
      RecvResumed(rx, sealed, idle, handed, t.taken, {}, id);
      EnqueueResume(t, id);
    }

    /** Connection-wide commands. */
    method ApplyConnCommand(t: QuicConn, c: Command)
      requires Inv(t, {}, {}) && InHand(c, io, home, resolved, abandoned) && hand == {} && cmds + [c] <= asked
      requires !(c.Send? || c.Finish? || c.Reset? || c.StopSending? || c.RecvResume?)
      modifies `io, `home, `adm, `early, `hand, `cmds, `closing, `applied, `acceptBidiResume, `acceptUniResume
      modifies t`shutdowns, t`wire
      ensures Inv(t, {}, {}) && Known() == old(Known()) + TokSet(c) && hand == {} && cmds == old(cmds) + [c]
      ensures io == match c
                    case OpenBidi(reply) => old(io).(openBidi := old(io).openBidi + [reply])
                    case OpenUni(reply) => old(io).(openUni := old(io).openUni + [reply])
                    case _ => old(io)
      ensures c.Close? ==> closing == Staged(old(closing), c.frame) && applied == old(applied) + [c.frame]
      ensures !c.Close? ==> closing == old(closing) && applied == old(applied)
      ensures acceptBidiResume == (old(acceptBidiResume) || c.AcceptBidiResume?)
      ensures acceptUniResume == (old(acceptUniResume) || c.AcceptUniResume?)
      ensures c.ConnectionDropped? ==>
                adm.parkBidi == [] && adm.parkUni == [] && adm.pendBidi == [] && adm.pendUni == []
    {
      hide Inv, Known;
      Journal(t, c);
      match c {
        case OpenBidi(reply) => StageReply(t, reply, true);
        case OpenUni(reply) => StageReply(t, reply, false);
        case AcceptBidiResume => SetResumeBit(true);
        case AcceptUniResume => SetResumeBit(false);
        case ConnectionDropped => CleanUndelivered(t);
        case Close(frame) => StageClose(t, frame);
      }
    }

    /** Queue an open request for its stage. */
    method StageReply(ghost t: QuicConn, reply: Token, bidi: bool)
      requires Inv(t, {}, {}) && reply !in home && reply !in resolved && reply !in abandoned && reply < io.nextTok
      requires reply in io.opens
      modifies `io, `home
      ensures Inv(t, {}, {}) && io == SetOpen(old(io), bidi, OpenQueue(old(io), bidi) + [reply])
      ensures Known() == old(Known()) + {reply}
    {
      hide SendOk, Running, Runs, Now, TokOk, CrossOk, Rest, KnownIn;
      TokStageOpen(tx.halves, io, home, resolved, abandoned, bidi, reply);
      SetIo(t, SetOpen(io, bidi, OpenQueue(io, bidi) + [reply]));
      KnownPut(home, resolved, abandoned, reply, OpenPlace(bidi));
      home := home[reply := OpenPlace(bidi)];
    }

    method SetResumeBit(bidi: bool)
      modifies `acceptBidiResume, `acceptUniResume
      ensures acceptBidiResume == (old(acceptBidiResume) || bidi) && acceptUniResume == (old(acceptUniResume) || !bidi)
    {
      if bidi {
        acceptBidiResume := true;
      } else {
        acceptUniResume := true;
      }
    }

    /** Stage only the first effective close. */
    method StageClose(ghost t: QuicConn, frame: CloseFrame)
      requires Inv(t, {}, {})
      modifies `closing, `applied
      ensures Inv(t, {}, {}) && closing == Staged(old(closing), frame) && applied == old(applied) + [frame]
    {
      hide SendOk, Runs, TokOk, CrossOk, Rest;
      CloseStep(base, Now(t), t.closes, applied + [frame]);
      applied := applied + [frame];
      if closing.pending.None? && !closing.attempted {
        closing := closing.(pending := Some(frame));
      }
    }

    /** `c` is in hand, about to be applied; everything else is in order. */
    ghost predicate Popped(t: QuicConn, c: Command)
      reads this, t
    {
      && Inv(t, {}, {}) && t.surfaced == {} && hand == {} && connTerminal.None? && !ingressClosed
      && InHand(c, io, home, resolved, abandoned) && Targets(c) && cmds + [c] <= asked
      && CmdsOk(io, handed, past.(ended := EndedBy(c, past.ended)))
      && JournalOk(false, asked, cmds + [c], io.inbox + io.cmdRx)
      && CloseOk(closing, applied, t.closes, t.calm, io) && !closing.lastHandle
      && abandoned <= cancelled <= io.opens
      && AllKnown(io.nextTok, Known() + TokSet(c))
    }

    /** Pop a command of an open connection. */
    method TakeCommand(ghost t: QuicConn) returns (c: Command)
      requires Valid(t) && io.inbox + io.cmdRx != [] && !ingressClosed
      modifies `io, `home
      ensures Popped(t, c) && io == PoppedIo(old(io)) && c == old(io.inbox + io.cmdRx)[0]
      ensures Known() + TokSet(c) == old(Known())
    {
      hide Inv, CmdsOk, CloseOk, AllKnown, Targets, InHand, JournalOk, TokSet, EndedBy, Known;
      CloseDrained(closing, applied, t.closes, t.calm, io);
      c := PopCommand(t);
      JournalPopped(connTerminal.Some?, asked, cmds, c, io.inbox + io.cmdRx);
    }

    /** Apply a stream's own command. */
    method ApplyOwn(t: QuicConn, c: Command)
      requires Popped(t, c)
      requires c.Send? || c.Finish? || c.Reset? || c.StopSending? || c.RecvResume?
      modifies `tx, `led, `births, `marks, `resolved, `home, `past, `cmds, `rx, `adm, `parking, `sealed, `drains, `idle
      modifies t`shutdowns, t`wire
      ensures Valid(t) && Known() == old(Known()) + TokSet(c) && Extends(old(resolved), resolved)
      ensures cmds == old(cmds) + [c] && SendApplied(c)
      ensures SendTarget(c).Some? ==> rx == old(rx) && adm == old(adm) && parking == old(parking)
      ensures c.StopSending? ==>
                c.id !in rx.halves && t.shutdowns == old(t.shutdowns) + [Shutdown(c.id, ReadSide, c.code)]
      ensures c.StopSending? && old(c.id in tx.halves && !tx.halves[c.id].finished) ==>
                PlaceDropped(c.id)
    {
      hide Inv, CmdsOk, CloseOk, AllKnown, Targets, InHand, JournalOk, TokSet, Known, Extends, FailAll, SendTarget;
      hide SendApplied;
      ApplyStreamCommand(t, c);
    }

    /** Apply a connection-wide command. */
    method ApplyWide(t: QuicConn, c: Command)
      requires Popped(t, c)
      requires !(c.Send? || c.Finish? || c.Reset? || c.StopSending? || c.RecvResume?)
      modifies `io, `home, `adm, `early, `hand, `cmds, `closing, `applied, `acceptBidiResume, `acceptUniResume
      modifies t`shutdowns, t`wire
      ensures Valid(t) && Known() == old(Known()) + TokSet(c) && cmds == old(cmds) + [c]
      ensures io.inbox == old(io).inbox && io.cmdRx == old(io).cmdRx && io.nextTok == old(io).nextTok
    {
      hide Inv, CmdsOk, CloseOk, AllKnown, Targets, InHand, JournalOk, TokSet, Known;
      ghost var io1, closing1, applied1 := io, closing, applied;
      ApplyConnCommand(t, c);
      CmdsSame(io1, io, handed, past);
      if c.Close? {
        CloseStaged(closing1, applied1, t.closes, t.calm, io1, c.frame, io);
      } else {
        CloseFrameKept(closing1, applied1, t.closes, t.calm, io1, io);
      }
    }

    /** Pop and apply one command. */
    method ApplyNext(t: QuicConn)
      requires Valid(t) && io.inbox + io.cmdRx != [] && !ingressClosed
      modifies `io, `home, `tx, `led, `births, `marks, `resolved, `past, `rx, `adm, `parking, `sealed, `drains, `idle
      modifies `early, `hand, `cmds, `closing, `applied
      modifies `acceptBidiResume, `acceptUniResume, t`shutdowns, t`wire
      ensures Valid(t) && Settles() && cmds == old(cmds) + [old(io.inbox + io.cmdRx)[0]]
      ensures io.inbox == PoppedIo(old(io)).inbox && io.cmdRx == PoppedIo(old(io)).cmdRx
      ensures io.nextTok == old(io).nextTok
      ensures var c := old(io.inbox + io.cmdRx)[0];
              && SendApplied(c) && (SendTarget(c).Some? || c.StopSending? ==> early == old(early))
              && (SendTarget(c).Some? ==> rx == old(rx) && adm == old(adm) && parking == old(parking))
              && (c.StopSending? ==>
                    c.id !in rx.halves && t.shutdowns == old(t.shutdowns) + [Shutdown(c.id, ReadSide, c.code)])
      ensures var c := old(io.inbox + io.cmdRx)[0];
              c.StopSending? && old(c.id in tx.halves && !tx.halves[c.id].finished) ==>
                if Retires(old(adm).admit, c.id)
                then tx == DropRun(old(tx), c.id) && parking == Orphaned(old(tx), old(parking), c.id)
                else tx == old(tx) && parking == old(parking)
    {
      hide Valid, Popped, Known, Extends, FailAll, TokSet, DropRun, Orphaned;
      PopKeepsOrder(io);
      var c := TakeCommand(t);
      if c.Send? || c.Finish? || c.Reset? || c.StopSending? || c.RecvResume? {
        ApplyOwn(t, c);
      } else {
        ExtendsSelf(resolved);
        ApplyWide(t, c);
      }
    }

    /** The oldest queued commands were applied, in order, as many as the budget allows. */
    twostate predicate AppliedInOrder()
      reads `cmds
    {
      var queued := old(io.inbox + io.cmdRx);
      var n := if |queued| < CMD_BUDGET then |queued| else CMD_BUDGET;
      cmds == old(cmds) + queued[..n]
    }

    /** Apply at most CMD_BUDGET commands in order; what stays in the inbox forces another iteration. */
    method ApplyInbox(t: QuicConn) returns (n: nat)
      requires Valid(t) && !ingressClosed
      modifies `io, `home, `tx, `led, `births, `marks, `resolved, `past, `rx, `adm, `parking, `sealed, `drains, `idle
      modifies `early
      modifies `hand, `cmds, `closing, `applied, `base
      modifies `acceptBidiResume, `acceptUniResume, `needsIteration, t`shutdowns, t`wire
      ensures Valid(t) && Settles()
      ensures io.inbox != [] || old(needsIteration) ==> needsIteration
      ensures n <= CMD_BUDGET && n <= |old(io.inbox + io.cmdRx)|
      ensures io.inbox + io.cmdRx == old(io.inbox + io.cmdRx)[n..]
      ensures cmds == old(cmds) + old(io.inbox + io.cmdRx)[..n] && AppliedInOrder()
      ensures n == CMD_BUDGET || io.inbox + io.cmdRx == []
      ensures History(t) && base == old(base)
    {
      hide Valid, Grows, Now, Known, Extends;
      ghost var saved := MarkValid(t);
      n := ApplyOldest(t);
      if io.inbox != [] {
        needsIteration := true;
      }
      UnmarkValid(t, saved);
    }

    method ApplyOldest(t: QuicConn) returns (n: nat)
      requires Valid(t) && !ingressClosed
      modifies `io, `home, `tx, `led, `births, `marks, `resolved, `past, `rx, `adm, `parking, `sealed, `drains, `idle
      modifies `early
      modifies `hand, `cmds, `closing, `applied
      modifies `acceptBidiResume, `acceptUniResume, t`shutdowns, t`wire
      ensures Valid(t) && Settles()
      ensures n <= CMD_BUDGET && n <= |old(io.inbox + io.cmdRx)|
      ensures io.inbox + io.cmdRx == old(io.inbox + io.cmdRx)[n..]
      ensures cmds == old(cmds) + old(io.inbox + io.cmdRx)[..n]
      ensures n == CMD_BUDGET || io.inbox + io.cmdRx == []
    {
      hide Valid, PoppedIo, Known, Extends, SendApplied;
      var budget := CMD_BUDGET;
      n := 0;
      ExtendsSelf(resolved);
      while budget > 0 && io.inbox + io.cmdRx != []
        invariant Valid(t) && Settles() && n + budget == CMD_BUDGET && n <= |old(io.inbox + io.cmdRx)|
        invariant io.inbox + io.cmdRx == old(io.inbox + io.cmdRx)[n..]
        invariant cmds == old(cmds) + old(io.inbox + io.cmdRx)[..n]
      {
        PopKeepsOrder(io);
        budget := budget - 1;
        n := n + 1;
        ghost var resolved1 := resolved;
        PrefixGrows(old(cmds), old(io.inbox + io.cmdRx), n);
        ApplyNext(t);
        ExtendsTrans(old(resolved), resolved1, resolved);
      }
    }

    /**
     * Where nobody is bound to serve queued work. A bidi stream admitted with a retained STOP_SENDING has its send
     * direction done from the start. A reset of its handle still makes a new entry, whose one RESET_STREAM is
     * runnable; the end of the receive direction then drops the run-queue place with the reset still pending.
     */
    method StrandedReset(t: QuicConn, code: nat) returns (id: Id)
      requires Valid(t) && adm.pendBidi != [] && StoppedNext(adm)
      requires io.inbox == [] && io.cmdRx == [] && !ingressClosed && !closing.lastHandle
      modifies this, t
      ensures Valid(t) && io.inbox == [] && io.cmdRx == [] && id == old(adm).pendBidi[0]
      ensures id in tx.halves && tx.halves[id].pendingReset == Some(code) && id !in tx.runSet && id in parking.orphan
      ensures cmds == old(cmds) + [Reset(id, code)] && GivenStopped(id)
    {
      hide Inv, Valid, Without, Known;
      id := AdmitStopped(t);
      HandleResets(t, id, code);
      ApplyNext(t);
      EndsReading(t, id, Fin);
    }

    /** The handle of a stream that was just handed out asks for a reset. */
    method HandleResets(ghost t: QuicConn, id: Id, code: nat)
      requires Valid(t) && io.inbox == [] && io.cmdRx == [] && !ingressClosed && !closing.lastHandle
      requires id in handed.send && id !in past.ended
      modifies `io, `home, `asked
      ensures Valid(t) && io.inbox == [] && io.cmdRx == [Reset(id, code)]
    {
      hide Inv, CloseOk, AllKnown, CmdsWf, JournalOk;
      CmdsWfPush(io.inbox + io.cmdRx, handed.send, handed.recv, past.ended, Reset(id, code));
      Submit(t, Reset(id, code));
    }

    /** The oldest waiting bidi stream was stopped by its peer. */
    predicate StoppedNext(a: Admission)
      requires a.pendBidi != []
    {
      a.pendBidi[0] in a.pending && a.pending[a.pendBidi[0]].sendEnd.Some?
    }

    /** A stream never handed out was never re-armed, lost, preset, orphaned or ended. */
    lemma NeverHanded(t: QuicConn, peer: PeerStream)
      requires Inv(t, {}, {}) && Owned(adm, early, handed, isServer, peer)
      ensures peer.id !in parking.armed && peer.id !in parking.gone && peer.id !in parking.orphan
      ensures peer.id !in past.ended && peer.id !in past.preset && peer.id !in handed.send && peer.id !in handed.recv
    {
      hide SendOk, Running, Runs, Now, TokOk, Rest;
    }

    /**
     * The same with a Finish. Its handle, whose status cell is already set, never enqueues one; but a handoff that
     * is dropped unconverted does, followed by the stop of its receive half, which takes the Finish's place away.
     */
    method StrandedFinish(t: QuicConn) returns (id: Id)
      requires Valid(t) && adm.pendBidi != [] && StoppedNext(adm)
      requires io.inbox == [] && io.cmdRx == [] && !ingressClosed && !closing.lastHandle
      modifies this, t
      ensures Valid(t) && io.inbox == [] && io.cmdRx == [] && id == old(adm).pendBidi[0]
      ensures id in tx.halves && tx.halves[id].ops == [FinishOp(old(io).nextTok)]
      ensures tx.halves[id].terminal.None? && id !in tx.runSet
      ensures id !in parking.armed && id !in parking.gone && id in parking.orphan
      ensures cmds == old(cmds) + [Finish(id, old(io).nextTok), StopSending(id, 0)] && GivenStopped(id)
    {
      hide Inv, Valid, Without, Known;
      id := AdmitStopped(t);
      HandoffCleanup(t, id, true);
      ApplyNext(t);
      ApplyNext(t);
    }

    /** Hand a stopped stream over, with its first drain deferred. */
    method AdmitStopped(t: QuicConn) returns (id: Id)
      requires Valid(t) && adm.pendBidi != [] && StoppedNext(adm)
      modifies `rx, `tx, `led, `births, `marks, `adm, `handed, `past, `early, `hand, `needsIteration
      ensures Valid(t) && id == old(adm).pendBidi[0] && handed == HandOver(old(handed), id) && IsBidi(id)
      ensures id !in tx.halves && tx == old(tx) && id in rx.halves && GivenStopped(id)
      ensures Retires(adm.admit, id) && id !in past.ended
      ensures id !in parking.armed && id !in parking.gone && id !in parking.orphan
    {
      hide Inv, IsBidi, IsLocal, Known, CmdsOk, CloseOk, AllKnown, JournalOk;
      id := HandStopped(t);
      CmdsGrow(io, old(handed), old(past), handed, past);
    }

    method HandStopped(t: QuicConn) returns (id: Id)
      requires Inv(t, {}, {}) && hand == {} && adm.pendBidi != [] && StoppedNext(adm)
      modifies `rx, `tx, `led, `births, `marks, `adm, `handed, `past, `early, `hand, `needsIteration
      ensures Inv(t, {}, {}) && hand == {} && id == old(adm).pendBidi[0] && IsBidi(id)
      ensures handed == HandOver(old(handed), id) && past == old(past).(preset := past.preset)
      ensures id !in tx.halves && tx == old(tx) && id in rx.halves && GivenStopped(id)
      ensures Retires(adm.admit, id) && id !in past.ended
      ensures id !in parking.armed && id !in parking.gone && id !in parking.orphan
    {
      hide Inv, IsBidi, IsLocal, Owned, Without;
      var peer := TakePend(t, true);
      id := peer.id;
      NeverHanded(t, peer);
      Register(t, peer);
      Defer(t, id);
    }

    /** The same end of a receive half, between the worker's steps. */
    method EndsReading(t: QuicConn, id: Id, end: RecvEnd)
      requires Valid(t) && id in rx.halves && !ingressClosed
      modifies `rx, `adm, `tx, `led, `parking, `sealed, `drains, `idle
      ensures Valid(t) && id !in rx.halves
      ensures old(id in tx.halves && !tx.halves[id].finished) ==> PlaceDropped(id)
    {
      hide Inv, CmdsOk, CloseOk, AllKnown, JournalOk;
      EndReceive(t, id, end);
    }

    /** A live receive half is taken up and reaches its end. */
    method EndReceive(t: QuicConn, id: Id, end: RecvEnd)
      requires Inv(t, {}, {}) && id in rx.halves && connTerminal.None?
      modifies `rx, `adm, `tx, `led, `parking, `sealed, `drains, `idle
      ensures Inv(t, {}, {}) && id !in rx.halves
      ensures old(id in tx.halves && !tx.halves[id].finished) ==> PlaceDropped(id)
    {
      hide Inv, Noted;
      TakeUp(t, id);
      Note(t, id, Drain.Picked);
      Note(t, id, Drain.Tried(Permit));
      Note(t, id, Drain.Received(Drain.Ended(end)));
      FinishRecv(t, id, end);
    }

    // ----- opening local streams -----

    function OpenTerminal(): ConnTerminal
      reads `connTerminal
    {
      if connTerminal.Some? then connTerminal.value else Internal("open declined without a terminal")
    }

    /** The poller of an open reply may go away at any time. */
    method PollerMayLeave(ghost t: QuicConn, tok: Token)
      requires Holds(t, tok) && tok in io.opens
      modifies `cancelled
      ensures Holds(t, tok) && tok !in resolved && (cancelled == old(cancelled) || cancelled == old(cancelled) + {tok})
    {
      hide Inv, CmdsOk, CloseOk, AllKnown, JournalOk, Known;
      if * {
        cancelled := cancelled + {tok};
      }
    }

    /** Advance a class's counter past a granted id, as 64-bit wrapping addition does. */
    method BurnId(id: Id, bidi: bool)
      modifies `nextBidi, `nextUni
      ensures nextBidi == (if bidi then Advance(id) else old(nextBidi))
      ensures nextUni == (if bidi then old(nextUni) else Advance(id))
    {
      if bidi {
        nextBidi := Advance(id);
      } else {
        nextUni := Advance(id);
      }
    }

    /** Register a granted local stream and hand over its halves. */
    method Materialize(ghost t: QuicConn, id: Id, bidi: bool)
      requires Inv(t, {}, {}) && id == (if bidi then nextBidi else nextUni) && id < ID_LIMIT && id in t.told.quiet
      modifies `tx, `led, `births, `marks, `rx, `idle, `handed, `nextBidi, `nextUni
      ensures Inv(t, {}, {}) && handed == LocalHanded(old(handed), id, bidi)
      ensures nextBidi == (if bidi then id + 4 else old(nextBidi)) && nextUni == (if bidi then old(nextUni) else id + 4)
      ensures !old(handed).Has(id) && IsLocal(id, isServer) && IsBidi(id) == bidi
      ensures tx == PutHalf(old(tx), id, FRESH) && id !in old(tx).halves
      ensures rx == OpenRx(old(rx), id, bidi) && id !in old(rx).halves
      ensures marks == old(marks).(origin := marks.origin)
      ensures id in led && led[id].submitted == [] && led[id].base == At(t.wire, id)
    {
      hide Inv, IsBidi, IsLocal, LocalHanded, OpenRx, PutHalf, At, OpenIdle;
      EnterLocal(t, id, bidi);
    }

    method EnterLocal(ghost t: QuicConn, id: Id, bidi: bool)
      requires Inv(t, {}, {}) && id == (if bidi then nextBidi else nextUni) && id < ID_LIMIT && id in t.told.quiet
      modifies `tx, `led, `births, `marks, `rx, `idle, `handed, `nextBidi, `nextUni
      ensures Inv(t, {}, {}) && !old(handed).Has(id) && IsLocal(id, isServer) && IsBidi(id) == bidi
      ensures id !in old(tx).halves && id !in old(rx).halves && Advance(id) == id + 4
      ensures tx == PutHalf(old(tx), id, FRESH)
      ensures led == old(led)[id := Born(At(t.wire, id), old(births), |cmds|)] && births == old(births) + 1
      ensures marks == old(marks).(origin := old(marks).origin[id := At(t.wire, id).resets])
      ensures rx == OpenRx(old(rx), id, bidi) && idle == OpenIdle(old(idle), id, bidi)
      ensures handed == LocalHanded(old(handed), id, bidi)
      ensures nextBidi == (if bidi then Advance(id) else old(nextBidi))
      ensures nextUni == (if bidi then old(nextUni) else Advance(id))
    {
      hide SendOk, Running, Runs, Now, TokOk, CrossOk, AdmitOk, RecvOk, DrainsOk, EarlyOk, DirOk, IdsOk, IsBidi;
      hide IsLocal, ToldOk;
      hide Advance, At, Born, LocalHanded, OpenRx, OpenIdle, PutHalf, Within;
      RecvOpen(adm, rx, sealed, idle, early, handed, hand, t.taken, t.shutdowns, nextBidi, nextUni, isServer, bidi);
      DrainOpen(drains, rx, sealed, idle, handed, connTerminal.Some?, id, bidi);
      EnterLocalSend(t, id, bidi);
    }

    method EnterLocalSend(ghost t: QuicConn, id: Id, bidi: bool)
      requires Inv(t, {}, {}) && !handed.Has(id) && id !in adm.admit && id == (if bidi then nextBidi else nextUni)
      requires id < ID_LIMIT && id in t.told.quiet
      modifies `tx, `led, `births, `marks, `rx, `idle, `handed, `nextBidi, `nextUni
      ensures SendOk(tx, led, parking, t.wire, {}) && TokOk(tx.halves, io, home, resolved, abandoned)
      ensures CrossOk(tx.halves, led, adm.admit, handed, past, parking.orphan)
      ensures ToldOk(parking, idle, t.told, t.surfaced) && Within(parking, past, handed) && Running(t)
      ensures id !in old(tx).halves
      ensures tx == PutHalf(old(tx), id, FRESH)
      ensures led == old(led)[id := Born(At(t.wire, id), old(births), |cmds|)] && births == old(births) + 1
      ensures marks == old(marks).(origin := old(marks).origin[id := At(t.wire, id).resets])
      ensures rx == OpenRx(old(rx), id, bidi) && idle == OpenIdle(old(idle), id, bidi)
      ensures handed == LocalHanded(old(handed), id, bidi)
      ensures nextBidi == (if bidi then Advance(id) else old(nextBidi))
      ensures nextUni == (if bidi then old(nextUni) else Advance(id))
    {
      hide SendOk, Running, Runs, Now, TokOk, CrossOk, AdmitOk, RecvOk, DrainsOk, EarlyOk, DirOk, IdsOk, IsBidi;
      hide IsLocal;
      hide Advance, At, Born, LocalHanded, OpenRx, PutHalf;
      SendOpen(tx, led, parking, t.wire, io, home, resolved, abandoned, adm.admit, handed, past, id, bidi, births,
               |cmds|);
      InsertLocal(t, id, bidi);
    }

    static lemma OpenKeys(rx: RecvSide, id: Id, bidi: bool)
      ensures OpenRx(rx, id, bidi).halves.Keys == if bidi then rx.halves.Keys + {id} else rx.halves.Keys
    {
    }

    /** Burn the id and enter the new local stream. */
    method InsertLocal(ghost t: QuicConn, id: Id, bidi: bool)
      requires id == if bidi then nextBidi else nextUni
      requires Running(t) && !handed.Has(id) && id !in tx.halves && id !in past.ended
      modifies `tx, `led, `births, `marks, `rx, `idle, `handed, `nextBidi, `nextUni
      ensures tx == PutHalf(old(tx), id, FRESH)
      ensures Running(t)
      ensures led == old(led)[id := Born(At(t.wire, id), old(births), |cmds|)] && births == old(births) + 1
      ensures marks == old(marks).(origin := old(marks).origin[id := At(t.wire, id).resets])
      ensures rx == OpenRx(old(rx), id, bidi) && idle == OpenIdle(old(idle), id, bidi)
      ensures handed == LocalHanded(old(handed), id, bidi)
      ensures nextBidi == (if bidi then Advance(id) else old(nextBidi))
      ensures nextUni == (if bidi then old(nextUni) else Advance(id))
    {
      hide Advance, LocalHanded, OpenRx, OpenIdle, PutHalf, Running, Runs, Now, At, Born;
      BurnId(id, bidi);
      InsertHalves(t, id, bidi);
    }

    /** The registry entries of a new local stream: a send half, and a receive half if bidirectional. */
    method InsertHalves(ghost t: QuicConn, id: Id, bidi: bool)
      requires Running(t) && !handed.Has(id) && id !in tx.halves && id !in past.ended
      modifies `tx, `led, `births, `marks, `rx, `idle, `handed
      ensures tx == PutHalf(old(tx), id, FRESH)
      ensures Running(t)
      ensures led == old(led)[id := Born(At(t.wire, id), old(births), |cmds|)] && births == old(births) + 1
      ensures marks == old(marks).(origin := old(marks).origin[id := At(t.wire, id).resets])
      ensures rx == OpenRx(old(rx), id, bidi) && idle == OpenIdle(old(idle), id, bidi)
      ensures handed == LocalHanded(old(handed), id, bidi)
    {
      hide Runs, At, Born, LocalHanded, OpenRx, OpenIdle, PutHalf;
      OpenStep(base, Now(t), id, bidi);
      OpenKeys(rx, id, bidi);
      EnterHalves(id, bidi, At(t.wire, id));
    }

    /** Enter them. */
    method EnterHalves(id: Id, bidi: bool, ghost wire: Wire)
      modifies `tx, `led, `births, `marks, `rx, `idle, `handed
      ensures tx == PutHalf(old(tx), id, FRESH) && tx.halves == old(tx).halves[id := FRESH]
      ensures led == old(led)[id := Born(wire, old(births), |cmds|)] && births == old(births) + 1
      ensures marks == old(marks).(origin := old(marks).origin[id := wire.resets])
      ensures rx == OpenRx(old(rx), id, bidi) && idle == OpenIdle(old(idle), id, bidi)
      ensures handed == LocalHanded(old(handed), id, bidi)
    {
      if bidi {
        rx := rx.(halves := rx.halves[id := RecvHalf([], None)]);
        idle := idle.(dry := idle.dry + {id});
      }
      tx := PutHalf(tx, id, FRESH);
      led := led[id := Born(wire, births, |cmds|)];
      marks := marks.(origin := marks.origin[id := wire.resets]);
      births := births + 1;
      handed := LocalHanded(handed, id, bidi);
    }

    /** A local stream that was registered and never used by anybody. */
    ghost predicate Untaken(t: QuicConn, id: Id)
      reads `handed, `tx, `led, `early, `resolved, `rx, t`wire
    {
      && IsLocal(id, isServer) && id in handed.send && id !in rx.readableSet && id !in early.given
      && id in tx.halves && tx.halves[id] == FRESH
      && id in led && led[id].submitted == [] && led[id].base == At(t.wire, id)
      && (forall tok | tok in resolved :: resolved[tok] != Opened(id))
    }

    /** Undo the registration of a stream nobody will receive, and reclaim its credit. */
    method CleanupUndeliverableOpen(t: QuicConn, id: Id, bidi: bool)
      requires Inv(t, {}, {}) && Untaken(t, id) && IsBidi(id) == bidi
      modifies `tx, `led, `rx, `marks, t`wire, t`shutdowns
      ensures Inv(t, {}, {}) && tx == old(tx).(halves := old(tx).halves - {id})
      ensures rx == if bidi then old(rx).(halves := old(rx).halves - {id}) else old(rx)
      ensures t.shutdowns == old(t.shutdowns) + [Shutdown(id, WriteSide, H3_REQUEST_CANCELLED)]
                             + if bidi then [Shutdown(id, ReadSide, H3_REQUEST_CANCELLED)] else []
      ensures marks == old(marks).(undone := old(marks).undone + {id})
    {
      hide Inv, IsBidi, IsLocal;
      RemoveOwnSend(t, id);
      CancelOwnSend(t, id);
      if bidi {
        RemoveOwnRecv(t, id);
        CancelOwnRecv(t, id);
      }
    }

    /** Forget the send entry of a local stream that was never used. */
    method RemoveOwnSend(ghost t: QuicConn, id: Id)
      requires Inv(t, {}, {}) && Untaken(t, id)
      modifies `tx, `led
      ensures Inv(t, {}, {}) && tx == old(tx).(halves := old(tx).halves - {id})
    {
      hide SendOk, Runs, TokOk, CrossOk, AdmitOk, RecvOk, DrainsOk, EarlyOk, DirOk, IdsOk, IsBidi, IsLocal;
      UnbornKeeps(tx, led, parking, t.wire, id);
      TokForget(tx.halves, io, home, resolved, abandoned, id);
      CrossUnborn(tx.halves, led, adm.admit, handed, past, parking.orphan, id, rx.halves.Keys, adm, isServer);
      UnbornStep(base, Now(t), id);
      tx := tx.(halves := tx.halves - {id});
      led := led - {id};
    }

    /** Reset the send direction of a stream whose open is undone. */
    method CancelOwnSend(t: QuicConn, id: Id)
      requires Inv(t, {}, {}) && id in handed.send && id !in tx.halves && id !in early.given
      requires forall tok | tok in resolved :: resolved[tok] != Opened(id)
      modifies `marks, t`wire, t`shutdowns
      ensures Inv(t, {}, {}) && t.shutdowns == old(t.shutdowns) + [Shutdown(id, WriteSide, H3_REQUEST_CANCELLED)]
      ensures marks == old(marks).(undone := old(marks).undone + {id})
    {
      hide SendOk, Runs, TokOk, CrossOk, AdmitOk, RecvOk, DrainsOk, EarlyOk, DirOk, IdsOk, IsBidi, IsLocal;
      ghost var was := Now(t);
      DirWrite(t.shutdowns, handed, isServer, id, H3_REQUEST_CANCELLED);
      UndoStep(base, was, id);
      t.StreamShutdown(id, WriteSide, H3_REQUEST_CANCELLED);
      marks := marks.(undone := marks.undone + {id});
      SendOtherWire(tx, led, parking, was.wire, t.wire, {}, id);
    }

    /** Forget the receive half of a stream whose open is undone. */
    method RemoveOwnRecv(ghost t: QuicConn, id: Id)
      requires Inv(t, {}, {}) && IsLocal(id, isServer) && id in marks.undone && id !in rx.readableSet
      modifies `rx
      ensures Inv(t, {}, {}) && rx == old(rx).(halves := old(rx).halves - {id})
    {
      hide SendOk, Runs, TokOk, CrossOk, AdmitOk, RecvOk, DrainsOk, EarlyOk, DirOk, IdsOk, IsBidi, IsLocal;
      AdmitUnborn(adm, rx.halves.Keys, handed, isServer, id);
      RecvUnborn(rx, sealed, idle, handed, t.taken, id);
      DropUndoneStep(base, Now(t), id);
      DrainForgotten(drains, rx.halves, sealed, idle.full, handed.recv, connTerminal.Some?, id);
      rx := rx.(halves := rx.halves - {id});
      assert rx.halves.Keys == old(rx).halves.Keys - {id};
    }

    /** Stop the receive direction of a stream whose open is undone. */
    method CancelOwnRecv(t: QuicConn, id: Id)
      requires Inv(t, {}, {}) && IsBidi(id)
      modifies t`shutdowns, t`wire
      ensures Inv(t, {}, {}) && t.shutdowns == old(t.shutdowns) + [Shutdown(id, ReadSide, H3_REQUEST_CANCELLED)]
    {
      hide SendOk, Runs, TokOk, CrossOk, AdmitOk, RecvOk, DrainsOk, EarlyOk, DirOk, IdsOk, IsBidi, IsLocal;
      DirRead(t.shutdowns, handed, isServer, id, H3_REQUEST_CANCELLED);
      StopStep(base, Now(t), id, H3_REQUEST_CANCELLED);
      t.StreamShutdown(id, ReadSide, H3_REQUEST_CANCELLED);
    }

    /** Dropping an undelivered handoff enqueues its own cleanup: a graceful Finish, and a stop for bidi. */
    method HandoffCleanup(ghost t: QuicConn, id: Id, bidi: bool)
      requires Valid(t) && !ingressClosed && !closing.lastHandle
      requires id in handed.send && id !in past.ended && (bidi ==> id in handed.recv)
      requires forall i :: 0 <= i < |io.inbox + io.cmdRx| ==> SendTarget((io.inbox + io.cmdRx)[i]) != Some(id)
      modifies `io, `home, `asked
      ensures Valid(t) && io.openBidi == old(io).openBidi && io.openUni == old(io).openUni
      ensures io.inbox == old(io).inbox
      ensures io.cmdRx == old(io).cmdRx + [Finish(id, old(io).nextTok)] + if bidi then [StopSending(id, 0)] else []
    {
      hide Inv, CloseOk, AllKnown, CmdsWf, JournalOk;
      CmdsWfPush(io.inbox + io.cmdRx, handed.send, handed.recv, past.ended, Finish(id, io.nextTok));
      Submit(t, Finish(id, io.nextTok));
      if bidi {
        CmdsWfPush(io.inbox + io.cmdRx, handed.send, handed.recv, past.ended, StopSending(id, 0));
        Submit(t, StopSending(id, 0));
      }
    }

    /** `tok` was taken out of its queue and not dealt with yet; everything else is in order. */
    ghost predicate Holds(t: QuicConn, tok: Token)
      reads `tx, `rx, `adm, `io, `handed, `resolved, `led, `parking, `past, `sealed, `idle, `early, `home, `abandoned
      reads `nextBidi, `nextUni, `closing, `applied, `cancelled, `births, `base, `drains, `asked, `cmds, `marks, `hand
      reads `connTerminal, `ingressClosed
      reads t`wire, t`taken, t`shutdowns, t`closes, t`told, t`surfaced, t`sent, t`answers, t`calm
    {
      && Inv(t, {}, {}) && t.surfaced == {} && hand == {} && (ingressClosed <==> connTerminal.Some?)
      && CmdsOk(io, handed, past)
      && JournalOk(connTerminal.Some?, asked, cmds, io.inbox + io.cmdRx)
      && CloseOk(closing, applied, t.closes, t.calm, io)
      && abandoned <= cancelled <= io.opens
      && AllKnown(io.nextTok, Known() + {tok})
      && tok !in home && tok !in resolved && tok !in abandoned && tok < io.nextTok
    }

    /** Take the oldest staged open of a class. */
    method PopOpen(ghost t: QuicConn, bidi: bool) returns (reply: Token)
      requires Valid(t) && OpenQueue(io, bidi) != []
      modifies `io, `home
      ensures Holds(t, reply) && reply == OpenQueue(old(io), bidi)[0]
      ensures io == SetOpen(old(io), bidi, OpenQueue(old(io), bidi)[1..])
      ensures reply in old(home) && old(home)[reply] == OpenPlace(bidi) && home == old(home) - {reply}
      ensures Known() + {reply} == old(Known())
      ensures reply in io.opens && reply !in resolved
    {
      hide SendOk, Running, Runs, Now, TokOk, CrossOk, Rest, CmdsWf, AllKnown, JournalOk, ToldOk, KnownIn;
      TokPopOpen(tx.halves, io, home, resolved, abandoned, bidi);
      reply := OpenQueue(io, bidi)[0];
      SetIo(t, SetOpen(io, bidi, OpenQueue(io, bidi)[1..]));
      KnownTook(home, resolved, abandoned, {reply});
      home := home - {reply};
    }

    /** No stream credit: the reply goes back to the head of its queue. */
    method PushFrontOpen(ghost t: QuicConn, reply: Token, bidi: bool, ghost io0: Ingress,
                         ghost home0: map<Token, Place>)
      requires Holds(t, reply) && OpenQueue(io0, bidi) != [] && OpenQueue(io0, bidi)[0] == reply
      requires io == SetOpen(io0, bidi, OpenQueue(io0, bidi)[1..])
      requires home == home0 - {reply} && reply in home0 && home0[reply] == OpenPlace(bidi)
      requires TokOk(tx.halves, io0, home0, resolved, abandoned)
      modifies `io, `home
      ensures Valid(t) && io == io0 && home == home0
    {
      hide SendOk, Running, Runs, Now, TokOk, CrossOk, Rest, CmdsWf, AllKnown, JournalOk, ToldOk, Within, KnownIn;
      assert OpenQueue(io0, bidi) == [reply] + OpenQueue(io0, bidi)[1..];
      SetIo(t, SetOpen(io, bidi, [reply] + OpenQueue(io, bidi)));
      KnownPut(home, resolved, abandoned, reply, OpenPlace(bidi));
      home := home[reply := OpenPlace(bidi)];
      assert io == io0 && home == home0;
    }

    /** A reply nobody awaits any more is dropped without burning an id. */
    ghost method Abandon(t: QuicConn, tok: Token)
      requires Holds(t, tok) && tok in cancelled && tok in io.opens
      modifies `abandoned
      ensures Valid(t) && abandoned == old(abandoned) + {tok}
    {
      hide SendOk, Running, Runs, Now, TokOk, CrossOk, Rest, CmdsOk, CloseOk, AllKnown, JournalOk, KnownIn;
      TokAbandon(tx.halves, io, home, resolved, abandoned, tok);
      KnownDropped(home, resolved, abandoned, tok);
      abandoned := abandoned + {tok};
    }

    /** Resolve a token in hand. */
    method Answer(ghost t: QuicConn, tok: Token, out: Outcome)
      requires Holds(t, tok) && !out.Delivered?
      requires out.Opened? ==> out.id in handed.send && out.id !in marks.undone
      modifies `resolved, `home
      ensures Valid(t) && resolved == old(resolved)[tok := out] && home == old(home)
      ensures Known() == old(Known()) + {tok} && Extends(old(resolved), resolved)
    {
      hide SendOk, Runs, TokOk, CrossOk, Rest, CmdsOk, CloseOk, AllKnown, JournalOk, ToldOk, Within, KnownIn;
      TokResolve(tx.halves, io, home, resolved, abandoned, tok, out);
      KnownAnswered(home, resolved, abandoned, tok, out);
      SettleStep(base, Now(t), tok, out);
      Resolve(tok, out);
    }

    /** The next id of a class was never given to anybody. */
    lemma NotYetGiven(t: QuicConn, id: Id, bidi: bool)
      requires Inv(t, {}, {}) && id == (if bidi then nextBidi else nextUni)
      ensures !handed.Has(id) && id !in early.given && id !in marks.undone
      ensures forall tok | tok in resolved :: resolved[tok] != Opened(id)
    {
      hide SendOk, TokOk, CrossOk, AdmitOk, RecvOk, DrainsOk, EarlyOk, DirOk, Grows;
      assert !handed.Has(id);
      assert id !in marks.undone by {
        hide WireLaw, CmdsLaw, EntriesLaw, AbsentLaw, FinalsLaw, ResetsLaw, RecvLaw, EarlyLaw;
      }
      hide Lawful, IdsOk;
      NotHandedYet(Now(t), id);
    }

    lemma LiveCursors(t: QuicConn)
      requires Inv(t, {}, {})
      ensures rx.readableSet <= rx.halves.Keys <= handed.recv
    {
      hide SendOk, Running, Runs, Now, TokOk, CrossOk, AdmitOk, RecvOk, DrainsOk, EarlyOk, DirOk, IdsOk;
      RecvLive(rx, sealed, idle, handed, t.taken);
    }

    /** Register a granted stream while its reply is in hand: nothing queued names its id yet. */
    method MaterializeFor(ghost t: QuicConn, reply: Token, id: Id, bidi: bool)
      requires Holds(t, reply) && id == (if bidi then nextBidi else nextUni) && id < ID_LIMIT && id in t.told.quiet
      modifies `tx, `led, `births, `marks, `rx, `idle, `handed, `nextBidi, `nextUni
      ensures Holds(t, reply) && handed == LocalHanded(old(handed), id, bidi)
      ensures IsLocal(id, isServer) && IsBidi(id) == bidi
      ensures nextBidi == (if bidi then id + 4 else old(nextBidi)) && nextUni == (if bidi then old(nextUni) else id + 4)
      ensures id !in past.ended && Untaken(t, id) && id !in marks.undone
      ensures forall i :: 0 <= i < |io.inbox + io.cmdRx| ==> SendTarget((io.inbox + io.cmdRx)[i]) != Some(id)
      ensures (bidi || id !in rx.halves) && !old(handed).Has(id)
    {
      hide Inv, IsBidi, IsLocal, CmdsOk, CloseOk, AllKnown, JournalOk, Known, SendTarget, Untaken;
      NotYetGiven(t, id, bidi);
      NoCommandsYet(io, handed, past, id);
      CmdsGrow(io, handed, past, LocalHanded(handed, id, bidi), past);
      MaterializeNew(t, id, bidi);
    }

    /** The stream is registered, and nobody has it yet. */
    method MaterializeNew(ghost t: QuicConn, id: Id, bidi: bool)
      requires Inv(t, {}, {}) && id == (if bidi then nextBidi else nextUni) && id < ID_LIMIT && id in t.told.quiet
      modifies `tx, `led, `births, `marks, `rx, `idle, `handed, `nextBidi, `nextUni
      ensures Inv(t, {}, {}) && handed == LocalHanded(old(handed), id, bidi) && Untaken(t, id) && id !in marks.undone
      ensures nextBidi == (if bidi then id + 4 else old(nextBidi)) && nextUni == (if bidi then old(nextUni) else id + 4)
      ensures IsLocal(id, isServer) && IsBidi(id) == bidi && (bidi || id !in rx.halves) && !old(handed).Has(id)
    {
      hide Inv, IsBidi, IsLocal, At;
      NotYetGiven(t, id, bidi);
      LiveCursors(t);
      Materialize(t, id, bidi);
    }

    /** The poller left between the check and the reply: enqueue the handoff's cleanup and undo the stream. */
    method UndoOpen(t: QuicConn, reply: Token, id: Id, bidi: bool)
      requires Holds(t, reply) && reply in cancelled && !ingressClosed && !closing.lastHandle
      requires Untaken(t, id) && IsBidi(id) == bidi && (bidi ==> id in handed.recv)
      requires id !in past.ended && (bidi || id !in rx.halves)
      requires forall i :: 0 <= i < |io.inbox + io.cmdRx| ==> SendTarget((io.inbox + io.cmdRx)[i]) != Some(id)
      requires reply in io.opens
      modifies `tx, `led, `rx, `marks, `abandoned, `home, `io, `asked, t`wire, t`shutdowns
      ensures Valid(t) && abandoned == old(abandoned) + {reply} && id !in tx.halves && id !in rx.halves
      ensures io.openBidi == old(io).openBidi && io.openUni == old(io).openUni && io.inbox == old(io).inbox
      ensures t.shutdowns == old(t.shutdowns) + [Shutdown(id, WriteSide, H3_REQUEST_CANCELLED)]
                             + if bidi then [Shutdown(id, ReadSide, H3_REQUEST_CANCELLED)] else []
    {
      hide Valid, IsBidi, IsLocal, SendTarget, Known, Holds;
      Abandon(t, reply);
      HandoffCleanup(t, id, bidi);
      UndoLocal(t, id, bidi);
    }

    /** The stream goes, between the worker's steps. */
    method UndoLocal(t: QuicConn, id: Id, bidi: bool)
      requires Valid(t) && Untaken(t, id) && IsBidi(id) == bidi
      modifies `tx, `led, `rx, `marks, t`wire, t`shutdowns
      ensures Valid(t) && tx == old(tx).(halves := old(tx).halves - {id})
      ensures rx == if bidi then old(rx).(halves := old(rx).halves - {id}) else old(rx)
      ensures t.shutdowns == old(t.shutdowns) + [Shutdown(id, WriteSide, H3_REQUEST_CANCELLED)]
                             + if bidi then [Shutdown(id, ReadSide, H3_REQUEST_CANCELLED)] else []
    {
      hide Inv, IsBidi, IsLocal, CmdsOk, CloseOk, AllKnown, Known, JournalOk, Untaken;
      CleanupUndeliverableOpen(t, id, bidi);
    }

    /** Materialize a granted open and deliver it, or undo it if the poller left in the window. */
    method Deliver(t: QuicConn, reply: Token, id: Id, bidi: bool)
      requires Holds(t, reply) && !ingressClosed && !closing.lastHandle
      requires id == (if bidi then nextBidi else nextUni) && id < ID_LIMIT && id in t.told.quiet
      requires reply in io.opens
      modifies `tx, `led, `births, `marks, `rx, `idle, `handed, `nextBidi, `nextUni, `cancelled, `abandoned, `resolved
      modifies `home
      modifies `io, `asked
      modifies t`wire, t`shutdowns
      ensures Valid(t) && Extends(old(resolved), resolved)
      ensures handed == LocalHanded(old(handed), id, bidi) && !old(handed).Has(id)
      ensures io.openBidi == old(io).openBidi && io.openUni == old(io).openUni && io.inbox == old(io).inbox
      ensures nextBidi == (if bidi then id + 4 else old(nextBidi)) && nextUni == (if bidi then old(nextUni) else id + 4)
      ensures reply in resolved ==> resolved[reply] == Opened(id) && t.shutdowns == old(t.shutdowns)
      ensures reply !in resolved ==>
                && reply in cancelled && reply in abandoned && id !in tx.halves && id !in rx.halves
                && t.shutdowns == old(t.shutdowns) + [Shutdown(id, WriteSide, H3_REQUEST_CANCELLED)]
                                  + if bidi then [Shutdown(id, ReadSide, H3_REQUEST_CANCELLED)] else []
      ensures cancelled == old(cancelled) || (cancelled == old(cancelled) + {reply} && reply in abandoned)
      ensures old(abandoned) <= abandoned
    {
      hide Valid, Holds, IsBidi, IsLocal, SendTarget, Known, Extends, Untaken;
      ExtendsSelf(resolved);
      MaterializeFor(t, reply, id, bidi);
      PollerMayLeave(t, reply);
      if reply in cancelled {
        UndoOpen(t, reply, id, bidi);
      } else {
        Answer(t, reply, Opened(id));
      }
    }

    /** Ask for stream credit and, if there is some, for the next id of the class. */
    method AskForStream(t: QuicConn, ghost reply: Token, id: Id, bidi: bool) returns (credit: bool, granted: bool)
      requires Holds(t, reply)
      modifies t`told, t`credit
      ensures Holds(t, reply) && (credit <==> CreditOf(t.credit, bidi) > 0)
      ensures CreditOf(t.credit, !bidi) == CreditOf(old(t.credit), !bidi)
      ensures granted ==> credit && id < ID_LIMIT && id in t.told.quiet && !closing.lastHandle
    {
      hide SendOk, Running, Runs, Now, TokOk, CrossOk, Rest, CmdsOk, CloseOk, AllKnown, Known, JournalOk;
      var left := t.StreamsLeft(bidi);
      credit, granted := left > 0, false;
      var alive: bool := *;
      if credit && alive && !closing.lastHandle {
        granted := t.StreamPriority(id);
      }
    }

    /** The id counter of a class advances by four exactly when a stream was handed out. */
    twostate predicate Advanced(bidi: bool)
      reads this
    {
      && (if bidi then nextUni == old(nextUni) else nextBidi == old(nextBidi))
      && (if handed == old(handed) then nextBidi == old(nextBidi) && nextUni == old(nextUni)
          else if bidi then nextBidi == old(nextBidi) + 4 else nextUni == old(nextUni) + 4)
    }

    /** Serve the head open request of a class. `starved` means there is no stream credit. */
    method OpenNext(t: QuicConn, bidi: bool) returns (starved: bool)
      requires Valid(t) && OpenQueue(io, bidi) != [] && !ingressClosed
      modifies `tx, `led, `births, `marks, `rx, `idle, `handed, `nextBidi, `nextUni, `cancelled, `abandoned, `resolved
      modifies `home
      modifies `io, `asked, t`told, t`credit
      modifies t`wire, t`shutdowns
      ensures Valid(t) && Extends(old(resolved), resolved) && Grown() && Advanced(bidi)
      ensures OpenQueue(io, !bidi) == OpenQueue(old(io), !bidi) && io.inbox == old(io).inbox
      ensures starved ==> OpenQueue(io, bidi) == OpenQueue(old(io), bidi) && CreditOf(t.credit, bidi) == 0
      ensures CreditOf(t.credit, !bidi) == CreditOf(old(t.credit), !bidi)
      ensures !starved ==> OpenQueue(io, bidi) == OpenQueue(old(io), bidi)[1..]
      ensures var reply := OpenQueue(old(io), bidi)[0];
              && (!starved ==> reply in resolved || reply in cancelled)
              && (reply in resolved && resolved[reply].Opened? && reply !in old(resolved) ==>
                    resolved[reply].id == (if bidi then old(nextBidi) else old(nextUni)) && handed != old(handed))
      ensures starved ==> cancelled == old(cancelled)
      ensures old(abandoned) <= abandoned
      ensures var reply := OpenQueue(old(io), bidi)[0];
              cancelled == old(cancelled) || (cancelled == old(cancelled) + {reply} && reply in abandoned)
    {
      hide Valid, Holds, Known, Extends, TokOk;
      starved := false;
      ExtendsSelf(resolved);
      QueuesKnown(t);
      var reply := PopOpen(t, bidi);
      if reply in cancelled {
        Abandon(t, reply);
      } else {
        starved := OpenPopped(t, bidi, reply, old(io), old(home));
      }
    }

    /** Serve an open request in hand, taken from the head of its queue. */
    method OpenPopped(t: QuicConn, bidi: bool, reply: Token, ghost io0: Ingress, ghost home0: map<Token, Place>)
      returns (starved: bool)
      requires Holds(t, reply) && !ingressClosed && reply in io.opens && reply !in cancelled && reply !in resolved
      requires OpenQueue(io0, bidi) != [] && OpenQueue(io0, bidi)[0] == reply
      requires io == SetOpen(io0, bidi, OpenQueue(io0, bidi)[1..])
      requires home == home0 - {reply} && reply in home0 && home0[reply] == OpenPlace(bidi)
      requires TokOk(tx.halves, io0, home0, resolved, abandoned)
      modifies `tx, `led, `births, `marks, `rx, `idle, `handed, `nextBidi, `nextUni, `cancelled, `abandoned, `resolved
      modifies `home
      modifies `io, `asked, t`told, t`credit
      modifies t`wire, t`shutdowns
      ensures Valid(t) && Extends(old(resolved), resolved) && Grown() && Advanced(bidi)
      ensures io.inbox == old(io).inbox
      ensures if starved then io == io0 && CreditOf(t.credit, bidi) == 0 && cancelled == old(cancelled)
              else io.openBidi == old(io).openBidi && io.openUni == old(io).openUni
      ensures CreditOf(t.credit, !bidi) == CreditOf(old(t.credit), !bidi)
      ensures !starved ==> reply in resolved || reply in cancelled
      ensures reply in resolved && resolved[reply].Opened? ==>
                resolved[reply].id == (if bidi then old(nextBidi) else old(nextUni)) && handed != old(handed)
      ensures old(abandoned) <= abandoned
      ensures cancelled == old(cancelled) || (cancelled == old(cancelled) + {reply} && reply in abandoned)
    {
      hide Valid, Holds, Known, Extends, TokOk;
      starved := false;
      ExtendsSelf(resolved);
      var id := if bidi then nextBidi else nextUni;
      var credit, granted := AskForStream(t, reply, id, bidi);
      if !credit {
        PushFrontOpen(t, reply, bidi, io0, home0);
        starved := true;
      } else if granted {
        Deliver(t, reply, id, bidi);
      } else {
        Answer(t, reply, Declined(OpenTerminal()));
      }
    }

    lemma QueuesKnown(t: QuicConn)
      requires Valid(t)
      ensures TokOk(tx.halves, io, home, resolved, abandoned)
    {
    }

    /** Serve at most OPEN_BUDGET opens of a class; a backlog not starved of credit forces another iteration. */
    method StageOpen(t: QuicConn, bidi: bool) returns (ghost n: nat)
      requires Valid(t) && !ingressClosed
      modifies `tx, `led, `births, `marks, `rx, `idle, `handed, `nextBidi, `nextUni, `cancelled, `abandoned, `resolved
      modifies `home, `io, `asked, t`told, `base
      modifies `needsIteration, t`credit, t`wire, t`shutdowns
      ensures Valid(t) && Extends(old(resolved), resolved) && Grown()
      ensures OpenQueue(io, !bidi) == OpenQueue(old(io), !bidi) && io.inbox == old(io).inbox
      ensures n <= OPEN_BUDGET && n <= |OpenQueue(old(io), bidi)|
      ensures OpenQueue(io, bidi) == OpenQueue(old(io), bidi)[n..]
      ensures Answered(OpenQueue(old(io), bidi)[..n])
      ensures old(cancelled) <= cancelled && old(abandoned) <= abandoned
      ensures DroppedFrom(OpenQueue(old(io), bidi)[..n])
      ensures old(needsIteration) ==> needsIteration
      ensures OpenQueue(io, bidi) != [] ==> needsIteration || CreditOf(t.credit, bidi) == 0
      ensures CreditOf(t.credit, !bidi) == CreditOf(old(t.credit), !bidi)
      ensures History(t) && base == old(base)
    {
      hide Valid, Grows, Now, Known, Extends, CreditOf, OpenQueue, Answered;
      ghost var saved := MarkValid(t);
      var starved;
      n, starved := OpenOldest(t, bidi);
      if OpenQueue(io, bidi) != [] && !starved {
        needsIteration := true;
      }
      UnmarkValid(t, saved);
    }

    method OpenOldest(t: QuicConn, bidi: bool) returns (ghost n: nat, starved: bool)
      requires Valid(t) && !ingressClosed
      modifies `tx, `led, `births, `marks, `rx, `idle, `handed, `nextBidi, `nextUni, `cancelled, `abandoned, `resolved
      modifies `home, `io, `asked, t`told
      modifies t`credit, t`wire, t`shutdowns
      ensures Valid(t) && Extends(old(resolved), resolved) && Grown()
      ensures OpenQueue(io, !bidi) == OpenQueue(old(io), !bidi) && io.inbox == old(io).inbox
      ensures n <= OPEN_BUDGET && n <= |OpenQueue(old(io), bidi)|
      ensures OpenQueue(io, bidi) == OpenQueue(old(io), bidi)[n..] && Answered(OpenQueue(old(io), bidi)[..n])
      ensures old(cancelled) <= cancelled && old(abandoned) <= abandoned
      ensures DroppedFrom(OpenQueue(old(io), bidi)[..n])
      ensures starved ==> CreditOf(t.credit, bidi) == 0
      ensures CreditOf(t.credit, !bidi) == CreditOf(old(t.credit), !bidi)
    {
      hide Valid, LocalHanded, Known, Extends, CreditOf, OpenQueue, Advanced;
      var budget := OPEN_BUDGET;
      n, starved := 0, false;
      ghost var q := OpenQueue(io, bidi);
      ExtendsSelf(resolved);
      while budget > 0 && OpenQueue(io, bidi) != []
        invariant Valid(t) && Extends(old(resolved), resolved) && Grown() && n + budget == OPEN_BUDGET && !starved
        invariant n <= |q| && OpenQueue(io, bidi) == q[n..] && Answered(q[..n])
        invariant old(cancelled) <= cancelled && old(abandoned) <= abandoned
        invariant DroppedFrom(q[..n])
        invariant OpenQueue(io, !bidi) == OpenQueue(old(io), !bidi) && io.inbox == old(io).inbox
        invariant CreditOf(t.credit, !bidi) == CreditOf(old(t.credit), !bidi)
      {
        budget := budget - 1;
        ghost var resolved1 := resolved;
        starved := OpenNext(t, bidi);
        ExtendsTrans(old(resolved), resolved1, resolved);
        ExtendsKeys(resolved1, resolved);
        if starved {
          break;
        }
        assert q[..n + 1] == q[..n] + [q[n]];
        n := n + 1;
      }
    }

    /** A poller that left meanwhile awaited one of these replies, and it was dropped. */
    twostate predicate DroppedFrom(toks: seq<Token>)
      reads `cancelled, `abandoned
    {
      forall tok | tok in cancelled && tok !in old(cancelled) :: tok in toks && tok in abandoned
    }

    /** Each of these replies was answered, or its poller has given up. */
    ghost predicate Answered(toks: seq<Token>)
      reads `resolved, `cancelled
    {
      forall tok | tok in toks :: tok in resolved || tok in cancelled
    }

    // ----- close -----

    /** Call the transport's close and record how it went. */
    method CloseTransport(t: QuicConn, frame: CloseFrame, bug: string) returns (r: Result<(), string>)
      requires Inv(t, {}, {})
      modifies `closing, t`closes, t`calm
      ensures History(t)
      ensures Inv(t, {}, {}) && t.closes == old(t.closes) + [frame]
      ensures t.calm == (t.peerError.None? && t.localError.None? && !t.timedOut)
      ensures var c := old(closing).(pending := None, attempted := true);
              || (r.Ok? && closing == c.(local := Some(frame), issued := true))
              || (r.Ok? && closing == c.(issued := true))
              || (r == Err(bug) && closing == c.(bug := Some(bug)))
    {
      hide SendOk, Running, Runs, Now, Grows, TokOk, CrossOk, Rest, ToldOk, Within;
      CrossHanded(tx.halves, led, adm.admit, handed, past, parking.orphan);
      closing := closing.(pending := None, attempted := true);
      var answer := CallClose(t, frame);
      if answer.Ok? {
        closing := closing.(local := Some(frame), issued := true);
        r := Ok(());
      } else if answer.error.Done? {
        closing := closing.(issued := true);
        r := Ok(());
      } else {
        closing := closing.(bug := Some(bug));
        r := Err(bug);
      }
    }

    method CallClose(t: QuicConn, frame: CloseFrame) returns (answer: Result<(), QuicError>)
      requires Running(t) && tx.halves.Keys == led.Keys
      modifies t`closes, t`calm
      ensures Running(t) && History(t) && t.closes == old(t.closes) + [frame]
      ensures t.calm == (t.peerError.None? && t.localError.None? && !t.timedOut)
    {
      hide Lawful, Grows;
      GrowsSelf(base, Now(t));
      CloseStep(Now(t), Now(t), t.closes + [frame], applied);
      CloseStep(base, Now(t), t.closes + [frame], applied);
      answer := t.Close(frame);
    }

    /** The one call of the transport's close. */
    method CloseWith(t: QuicConn, frame: CloseFrame, bug: string) returns (r: Result<(), string>)
      requires Valid(t) && !closing.attempted
      requires if applied != [] then frame == applied[0]
               else
                 && frame == NO_ERROR_CLOSE && closing.lastHandle
                 && t.peerError.None? && t.localError.None? && !t.timedOut
      modifies `closing, t`closes, t`calm
      ensures Valid(t) && History(t) && closing.attempted && t.closes == [frame]
      ensures closing.lastHandle == old(closing.lastHandle) && (r.Err? ==> closing.bug == Some(r.error))
    {
      hide Inv, CmdsOk, AllKnown, Grows, Now, JournalOk, Known;
      r := CloseTransport(t, frame, bug);
    }

    /** Before the attempt, the first applied Close is staged and nothing else is recorded. */
    lemma NotAttempted(t: QuicConn)
      requires Valid(t) && !closing.attempted
      ensures closing.pending == (if applied == [] then None else Some(applied[0])) && closing.local.None?
    {
      hide Inv, CmdsOk, AllKnown, JournalOk, Known;
    }

    /**
     * The close barrier. It runs after the write stage whatever its budget did; it closes the transport
     * exactly when a Close is staged, or the last handle is gone and no terminal exists.
     */
    method ApplyCloseBarrier(t: QuicConn) returns (r: Result<(), string>)
      requires Valid(t)
      modifies `closing, t`closes, t`calm
      ensures Valid(t)
      ensures old(closing.attempted) ==> closing == old(closing) && t.closes == old(t.closes)
      ensures !old(closing.attempted) ==>
                (closing.attempted <==>
                 applied != [] || (closing.lastHandle && t.peerError.None? && t.localError.None? && !t.timedOut))
      ensures !old(closing.attempted) && closing.attempted ==>
                t.closes == [if applied != [] then applied[0] else NO_ERROR_CLOSE]
      ensures closing.lastHandle == old(closing.lastHandle)
      ensures r.Err? ==> closing.bug == Some(r.error)
      ensures History(t)
    {
      hide Valid, Grows, Now;
      StillValid(t);
      if closing.attempted {
        return Ok(());
      }
      NotAttempted(t);
      if closing.pending.Some? {
        r := CloseWith(t, closing.pending.value, "explicit qconn.close returned an unexpected error");
        return;
      }
      if closing.lastHandle && t.peerError.None? && t.localError.None? && !t.timedOut && closing.local.None? {
        r := CloseWith(t, NO_ERROR_CLOSE, "last-handle qconn.close returned an unexpected error");
        return;
      }
      r := Ok(());
    }

    /**
     * The connection's terminal: a recorded bug, then the peer, then a timeout, then our own close, then a local
     * error.
     */
    method ClassifyConnTerminal(t: QuicConn) returns (terminal: ConnTerminal)
      ensures Decides(Causes(closing, t.peerError, t.timedOut, t.localError), terminal)
    {
      ghost var causes := Causes(closing, t.peerError, t.timedOut, t.localError);
      if closing.bug.Some? {
        terminal := Internal(closing.bug.value);
        assert causes[0] == Some(terminal);
      } else if t.peerError.Some? {
        terminal := FromError(Peer, t.peerError.value);
        assert causes[1] == Some(terminal);
      } else if t.timedOut {
        terminal := Timeout;
        assert causes[2] == Some(terminal);
      } else if closing.local.Some? {
        terminal := AppClose(Local, closing.local.value.code, closing.local.value.reason);
        assert causes[3] == Some(terminal);
      } else if t.localError.Some? {
        terminal := FromError(Local, t.localError.value);
        assert causes[4] == Some(terminal);
      } else {
        terminal := Internal("connection closed without a recorded terminal");
      }
    }

    /** No token is lost, and those that left their place were resolved with the terminal. */
    twostate predicate DrainedAll(terminal: ConnTerminal)
      reads this
    {
      Known() == old(Known()) && Drained(old(home), old(resolved), home, resolved, terminal)
    }

    /** Publish the terminal into one send half and fail what is queued on it. */
    method CloseSend(ghost t: QuicConn, id: Id, terminal: ConnTerminal)
      requires Inv(t, {}, {}) && id in tx.halves && connTerminal.Some?
      modifies `tx, `resolved, `home
      ensures Inv(t, {}, {}) && DrainedAll(terminal)
      ensures tx == PutHalf(old(tx), id, Terminated(old(tx).halves[id], SendConn(terminal)))
    {
      hide SendOk, Running, Runs, Now, TokOk, CrossOk, Rest, Toks, FailAll, Drained, Extends, ToldOk;
      var h := tx.halves[id];
      var h' := Terminated(h, SendConn(terminal));
      CloseKeeps(tx, led, parking, t.wire, id, SendConn(terminal));
      TokParts(tx.halves, io, home, resolved, abandoned);
      DrainedOps(tx.halves, home, resolved, id, terminal);
      TokDrain(tx.halves, io, home, resolved, abandoned, id, h', SendConn(terminal));
      DrainConserves(h.ops, SendConn(terminal), home, resolved);
      CrossPut(tx.halves, led, adm.admit, handed, past, parking.orphan, id, h');
      CrossHanded(tx.halves, led, adm.admit, handed, past, parking.orphan);
      EndSend(t, id, terminal);
    }

    /** The terminal is set, and what is queued fails. */
    method EndSend(ghost t: QuicConn, id: Id, terminal: ConnTerminal)
      requires Running(t) && connTerminal.Some? && id in tx.halves && id in led
      requires var ops := tx.halves[id].ops; DistinctToks(ops) && Toks(ops) <= home.Keys && home.Keys !! resolved.Keys
      requires Extends(resolved, resolved + FailAll(tx.halves[id].ops, SendConn(terminal)))
      requires var h := tx.halves[id];
               FailAll(h.ops, Terminated(h, SendConn(terminal)).terminal.value) == FailAll(h.ops, SendConn(terminal))
      modifies `tx, `resolved, `home
      ensures Running(t)
      ensures tx == PutHalf(old(tx), id, Terminated(old(tx).halves[id], SendConn(terminal)))
      ensures resolved == old(resolved) + FailAll(old(tx).halves[id].ops, SendConn(terminal))
      ensures home == old(home) - Toks(old(tx).halves[id].ops)
    {
      hide Runs, Toks, FailAll, DistinctToks, Extends, PutHalf;
      var h := tx.halves[id];
      EndHalf(base, Now(t), id, Terminated(h, SendConn(terminal)), SendConn(terminal));
      tx := PutHalf(tx, id, Terminated(h, SendConn(terminal)));
      CompleteAll(h.ops, SendConn(terminal));
    }

    /** Every send half carries a terminal and has nothing queued or held. */
    ghost predicate SendsClosed(but: set<Id>)
      reads `tx
    {
      forall id | id in tx.halves && id !in but ::
        tx.halves[id].terminal.Some? && tx.halves[id].ops == [] && tx.halves[id].held.None?
    }

    method CloseSends(ghost t: QuicConn, terminal: ConnTerminal)
      requires Inv(t, {}, {}) && connTerminal.Some?
      modifies `tx, `resolved, `home
      ensures Inv(t, {}, {}) && DrainedAll(terminal) && SendsClosed({})
    {
      hide Inv, Drained;
      var todo := tx.halves.Keys;
      DrainedNothing(home, resolved, terminal);
      while todo != {}
        invariant Inv(t, {}, {}) && DrainedAll(terminal) && todo <= tx.halves.Keys && SendsClosed(todo)
      {
        var id :| id in todo;
        todo := todo - {id};
        ghost var home1, resolved1 := home, resolved;
        CloseSend(t, id, terminal);
        DrainedOn(old(home), old(resolved), home1, resolved1, home, resolved, terminal);
      }
    }

    /** Publish the terminal into every live receive half. */
    method CloseRecvs(ghost t: QuicConn, terminal: ConnTerminal)
      requires Inv(t, {}, {}) && connTerminal.Some?
      modifies `rx, `drains
      ensures Inv(t, {}, {})
      ensures rx == old(rx).(halves := rx.halves) && rx.halves.Keys == old(rx).halves.Keys
      ensures forall id | id in rx.halves :: rx.halves[id] == Published(old(rx).halves[id], RecvConn(terminal))
    {
      hide Inv, Published;
      var todo := rx.halves.Keys;
      while todo != {}
        invariant Inv(t, {}, {}) && todo <= rx.halves.Keys
        invariant rx == old(rx).(halves := rx.halves) && rx.halves.Keys == old(rx).halves.Keys
        invariant forall id | id in todo :: rx.halves[id] == old(rx).halves[id]
        invariant forall id | id in rx.halves && id !in todo ::
                    rx.halves[id] == Published(old(rx).halves[id], RecvConn(terminal))
      {
        var id :| id in todo;
        todo := todo - {id};
        CloseRecv(t, id, terminal);
      }
    }

    /** Publish the terminal into one receive half; the first end counts. */
    method CloseRecv(ghost t: QuicConn, id: Id, terminal: ConnTerminal)
      requires Inv(t, {}, {}) && connTerminal.Some? && id in rx.halves
      modifies `rx, `drains
      ensures Inv(t, {}, {})
      ensures rx == old(rx).(halves := old(rx).halves[id := Published(old(rx).halves[id], RecvConn(terminal))])
      ensures rx.halves.Keys == old(rx).halves.Keys
    {
      hide SendOk, Running, Runs, Now, TokOk, CrossOk, AdmitOk, RecvOk, DrainsOk, EarlyOk, DirOk, IdsOk, Published;
      RecvLive(rx, sealed, idle, handed, t.taken);
      RecvPublish(rx, sealed, idle, handed, t.taken, {}, id, RecvConn(terminal));
      DrainClosed(drains, rx.halves, sealed, idle.full, handed.recv, id, terminal);
      if Pc(id) == Some(Drain.Away) {
        Log(t, id, Drain.ConnClosed(terminal));
      }
      PutRecv(t, id, Published(rx.halves[id], RecvConn(terminal)));
    }

    /** Resolve one drained command's channel with the terminal; the others carry none. */
    method CompleteCommandOnClose(ghost t: QuicConn, terminal: ConnTerminal)
      requires Valid(t) && connTerminal.Some? && io.inbox + io.cmdRx != []
      modifies `io, `home, `resolved
      ensures Valid(t) && DrainedAll(terminal)
      ensures io == PoppedIo(old(io))
    {
      hide Valid, Holds, Known, CmdTok;
      CmdPlace(t);
      var c := DiscardCommand(t);
      AnswerCommand(t, c, terminal);
    }

    /** Take a command off the closed channel; only its own channel is left to deal with. */
    method DiscardCommand(ghost t: QuicConn) returns (c: Command)
      requires Valid(t) && connTerminal.Some? && io.inbox + io.cmdRx != []
      modifies `io, `home
      ensures if CmdTok(c).Some? then Holds(t, CmdTok(c).value) else Valid(t)
      ensures io == PoppedIo(old(io)) && c == old(io.inbox + io.cmdRx)[0]
      ensures home == old(home) - TokSet(c) && Known() + TokSet(c) == old(Known())
    {
      hide Inv, CmdsOk, AllKnown, CloseOk, SendTarget, Targets, Known, CmdTok;
      CloseDrained(closing, applied, t.closes, t.calm, io);
      c := PopCommand(t);
      assert CmdTok(c).None? ==> Known() + {} == Known();
      CmdsForget(io, handed, past, past.(ended := EndedBy(c, past.ended)));
    }

    /** A command owning a channel resolves it with the terminal; the others are dropped. */
    method AnswerCommand(ghost t: QuicConn, c: Command, terminal: ConnTerminal)
      requires CmdTok(c).None? ==> Valid(t)
      requires CmdTok(c).Some? ==> Holds(t, CmdTok(c).value)
      modifies `home, `resolved
      ensures Valid(t) && Known() == old(Known()) + TokSet(c) && home == old(home)
      ensures CmdTok(c).None? ==> resolved == old(resolved)
      ensures CmdTok(c).Some? ==>
                var out := if c.OpenBidi? || c.OpenUni? then Declined(terminal) else Failed(SendConn(terminal));
                resolved == old(resolved)[CmdTok(c).value := out]
    {
      hide Valid, Holds, Extends;
      match c {
        case Send(_, _, done) => Answer(t, done, Failed(SendConn(terminal)));
        case Finish(_, done) => Answer(t, done, Failed(SendConn(terminal)));
        case OpenBidi(reply) => Answer(t, reply, Declined(terminal));
        case OpenUni(reply) => Answer(t, reply, Declined(terminal));
        case _ =>
      }
    }

    lemma CmdPlace(t: QuicConn)
      requires Valid(t) && io.inbox + io.cmdRx != []
      ensures var c := (io.inbox + io.cmdRx)[0];
              forall tok | tok in TokSet(c) :: tok in home && home[tok] == InCmd && tok !in resolved
    {
      hide SendOk, Running, Runs, Now, CrossOk, Rest, CmdsOk, CloseOk, AllKnown;
    }

    /** Empty the closed command channel, oldest first. */
    method DrainCommands(ghost t: QuicConn, terminal: ConnTerminal)
      requires Valid(t) && connTerminal.Some?
      modifies `io, `home, `resolved
      ensures Valid(t) && DrainedAll(terminal)
      ensures io == old(io).(inbox := [], cmdRx := [])
    {
      hide Valid, Drained;
      DrainedNothing(home, resolved, terminal);
      while io.inbox + io.cmdRx != []
        invariant Valid(t) && DrainedAll(terminal)
        invariant io == old(io).(inbox := io.inbox, cmdRx := io.cmdRx)
        decreases |io.inbox| + |io.cmdRx|
      {
        ghost var home1, resolved1 := home, resolved;
        CompleteCommandOnClose(t, terminal);
        DrainedOn(old(home), old(resolved), home1, resolved1, home, resolved, terminal);
      }
      assert io.inbox == [] && io.cmdRx == [];
    }

    /** Decline every staged open of a class. */
    method DrainOpens(ghost t: QuicConn, bidi: bool, terminal: ConnTerminal)
      requires Valid(t)
      modifies `io, `home, `resolved
      ensures Valid(t) && DrainedAll(terminal)
      ensures io == SetOpen(old(io), bidi, [])
    {
      hide Valid, Drained;
      DrainedNothing(home, resolved, terminal);
      while OpenQueue(io, bidi) != []
        invariant Valid(t) && DrainedAll(terminal)
        invariant io == SetOpen(old(io), bidi, OpenQueue(io, bidi))
        decreases |OpenQueue(io, bidi)|
      {
        ghost var home1, resolved1 := home, resolved;
        DeclineOpen(t, bidi, terminal);
        DrainedOn(old(home), old(resolved), home1, resolved1, home, resolved, terminal);
      }
    }

    method DeclineOpen(ghost t: QuicConn, bidi: bool, terminal: ConnTerminal)
      requires Valid(t) && OpenQueue(io, bidi) != []
      modifies `io, `home, `resolved
      ensures Valid(t) && DrainedAll(terminal)
      ensures io == SetOpen(old(io), bidi, OpenQueue(old(io), bidi)[1..])
    {
      hide Inv, CmdsOk, AllKnown, CloseOk, JournalOk;
      var reply := PopOpen(t, bidi);
      Answer(t, reply, Declined(terminal));
      assert Known() == old(Known());
    }

    /**
     * The teardown funnel: classify once, publish everywhere, and resolve every outstanding channel
     * wherever it is with that terminal.
     */
    method DoOnConnClose(t: QuicConn) returns (terminal: ConnTerminal)
      requires Valid(t)
      modifies `tx, `rx, `drains, `io, `home, `resolved, `connTerminal, `acceptTerminalBidi, `acceptTerminalUni
      modifies `ingressClosed
      modifies `base
      ensures Valid(t) && ingressClosed
      ensures Decides(Causes(closing, t.peerError, t.timedOut, t.localError), terminal)
      ensures connTerminal == First(old(connTerminal), terminal)
      ensures acceptTerminalBidi == First(old(acceptTerminalBidi), terminal)
      ensures acceptTerminalUni == First(old(acceptTerminalUni), terminal)
      ensures SendsClosed({}) && forall id | id in rx.halves :: rx.halves[id].end.Some?
      ensures home == map[] && Drained(old(home), old(resolved), map[], resolved, terminal)
      ensures forall tok: Token | tok < io.nextTok :: tok in resolved || (tok in io.opens && tok in cancelled)
      ensures History(t) && base == old(base)
    {
      hide Valid, Drained, Decides, Causes, SendsClosed, First, Grows, Now;
      terminal := ClassifyConnTerminal(t);
      ghost var saved := MarkValid(t);
      Teardown(t, terminal);
      UnmarkValid(t, saved);
    }

    /** Publish everywhere, then resolve everything. */
    method Teardown(t: QuicConn, terminal: ConnTerminal)
      requires Valid(t)
      modifies `tx, `rx, `drains, `io, `home, `resolved, `connTerminal, `acceptTerminalBidi, `acceptTerminalUni
      modifies `ingressClosed
      modifies `base
      ensures Valid(t) && ingressClosed
      ensures connTerminal == First(old(connTerminal), terminal)
      ensures acceptTerminalBidi == First(old(acceptTerminalBidi), terminal)
      ensures acceptTerminalUni == First(old(acceptTerminalUni), terminal)
      ensures SendsClosed({}) && forall id | id in rx.halves :: rx.halves[id].end.Some?
      ensures home == map[] && Drained(old(home), old(resolved), map[], resolved, terminal)
      ensures forall tok: Token | tok < io.nextTok :: tok in resolved || (tok in io.opens && tok in cancelled)
      ensures base == old(base)
    {
      hide Valid, Drained, SendsClosed, First;
      PublishConnTerminal(t, terminal);
      ResolveAll(t, terminal);
    }

    /** Publish into the connection and accept cells, and close command ingress. */
    method PublishConnTerminal(ghost t: QuicConn, terminal: ConnTerminal)
      requires Valid(t)
      modifies `connTerminal, `acceptTerminalBidi, `acceptTerminalUni, `ingressClosed
      ensures Valid(t) && connTerminal == First(old(connTerminal), terminal) && connTerminal.Some? && ingressClosed
      ensures acceptTerminalBidi == First(old(acceptTerminalBidi), terminal)
      ensures acceptTerminalUni == First(old(acceptTerminalUni), terminal)
    {
      hide Inv, CmdsOk, CloseOk, AllKnown, Known;
      SetConnTerminal(t, terminal);
      CloseIngress(terminal);
    }

    method CloseIngress(terminal: ConnTerminal)
      modifies `acceptTerminalBidi, `acceptTerminalUni, `ingressClosed
      ensures ingressClosed && acceptTerminalBidi == First(old(acceptTerminalBidi), terminal)
      ensures acceptTerminalUni == First(old(acceptTerminalUni), terminal)
    {
      acceptTerminalBidi := First(acceptTerminalBidi, terminal);
      acceptTerminalUni := First(acceptTerminalUni, terminal);
      ingressClosed := true;
    }

    method SetConnTerminal(ghost t: QuicConn, terminal: ConnTerminal)
      requires Inv(t, {}, {})
      modifies `connTerminal
      ensures Inv(t, {}, {}) && connTerminal == First(old(connTerminal), terminal)
    {
      hide SendOk, Runs, TokOk, CrossOk, AdmitOk, RecvOk, DrainsOk, EarlyOk, DirOk, IdsOk, ToldOk;
      if connTerminal.None? {
        PublishStep(base, Now(t));
        DrainsClose(drains, rx.halves, sealed, idle.full, handed.recv, false);
        connTerminal := Some(terminal);
      }
    }

    /** Publish into every half, then resolve what is queued anywhere. */
    method ResolveAll(t: QuicConn, terminal: ConnTerminal)
      requires Valid(t) && connTerminal.Some?
      modifies `tx, `rx, `drains, `io, `home, `resolved
      ensures Valid(t) && SendsClosed({}) && forall id | id in rx.halves :: rx.halves[id].end.Some?
      ensures home == map[] && Drained(old(home), old(resolved), map[], resolved, terminal)
      ensures forall tok: Token | tok < io.nextTok :: tok in resolved || (tok in io.opens && tok in cancelled)
      ensures base == old(base)
    {
      hide Valid, Drained, Known, SendsClosed, Grows, Now;
      CloseHalves(t, terminal);
      ghost var home1, resolved1 := home, resolved;
      DrainQueues(t, terminal);
      DrainedOn(old(home), old(resolved), home1, resolved1, home, resolved, terminal);
      AllResolved(t);
    }

    /** First-writer-wins publication into a connection-wide cell. */
    static function First(cell: Option<ConnTerminal>, terminal: ConnTerminal): Option<ConnTerminal> {
      if cell.None? then Some(terminal) else cell
    }

    /** Resolve what is left in the closed command channel and in the open queues. */
    method DrainQueues(ghost t: QuicConn, terminal: ConnTerminal)
      requires Valid(t) && connTerminal.Some?
      modifies `io, `home, `resolved
      ensures Valid(t) && DrainedAll(terminal)
      ensures io == old(io).(inbox := [], cmdRx := [], openBidi := [], openUni := [])
    {
      hide Valid, Drained, Known;
      DrainCommands(t, terminal);
      ghost var home1, resolved1 := home, resolved;
      DrainOpens(t, true, terminal);
      DrainedOn(old(home), old(resolved), home1, resolved1, home, resolved, terminal);
      home1, resolved1 := home, resolved;
      DrainOpens(t, false, terminal);
      DrainedOn(old(home), old(resolved), home1, resolved1, home, resolved, terminal);
    }

    method CloseHalves(t: QuicConn, terminal: ConnTerminal)
      requires Valid(t) && connTerminal.Some?
      modifies `tx, `rx, `drains, `home, `resolved
      ensures Valid(t) && DrainedAll(terminal) && SendsClosed({})
      ensures forall id | id in rx.halves :: rx.halves[id].end.Some?
    {
      hide Inv, CmdsOk, AllKnown, CloseOk, Drained, JournalOk;
      CloseRecvs(t, terminal);
      CloseSends(t, terminal);
    }

    /** Once nothing is queued anywhere, every completion channel was answered or given up by its poller. */
    lemma AllResolved(t: QuicConn)
      requires Valid(t) && SendsClosed({})
      requires io.inbox == [] && io.cmdRx == [] && io.openBidi == [] && io.openUni == []
      ensures home == map[]
      ensures forall tok: Token | tok < io.nextTok :: tok in resolved || (tok in io.opens && tok in cancelled)
    {
      hide SendOk, Running, Runs, Now, CrossOk, Rest, CmdsOk, CloseOk, TokOk;
      NothingLeft(tx.halves, io, home, resolved, abandoned);
      forall tok: Token | tok < io.nextTok
        ensures tok in resolved || (tok in io.opens && tok in cancelled)
      {
        assert tok in Known();
      }
    }

    // ----- the acting iteration -----

    /** Discovery, resumed reads, registered drains, admission, promotion. */
    method PumpStages(t: QuicConn)
      requires Inv(t, {}, {}) && t.surfaced == {} && hand == {} && connTerminal.None?
      modifies `rx, `tx, `led, `births, `marks, `adm, `handed, `past, `early, `hand, `parking, `sealed, `drains, `idle
      modifies `readBudget
      modifies `needsIteration, `reserves, `base
      modifies `acceptBidiResume, `acceptUniResume, t`taken, t`shutdowns, t`wire, t`told, t`surfaced
      ensures Inv(t, {}, {}) && t.surfaced == {} && hand == {} && (old(needsIteration) ==> needsIteration) && Grown()
      ensures History(t) && base == old(base)
    {
      hide Inv, Grows, Now;
      ghost var saved := Mark(t);
      DrainStages(t);
      AdmitStages(t);
      Unmark(t, saved);
    }

    /** Discovery, resumed reads and registered drains. */
    method DrainStages(t: QuicConn)
      requires Inv(t, {}, {}) && t.surfaced == {} && hand == {} && connTerminal.None?
      modifies `rx, `tx, `led, `adm, `parking, `sealed, `drains, `idle, `readBudget, `needsIteration, `base
      modifies t`taken, t`shutdowns, t`wire, t`told, t`surfaced
      ensures Inv(t, {}, {}) && t.surfaced == {} && base == old(base) && (old(needsIteration) ==> needsIteration)
    {
      hide Inv, Grows, Now;
      IntakeReadable(t);
      var resumed := DrainResumed(t);
      var served := Phase1RegisteredDrain(t);
    }

    /** Admission, then promotion class by class. */
    method AdmitStages(t: QuicConn)
      requires Inv(t, {}, {}) && hand == {}
      modifies `rx, `tx, `led, `births, `marks, `adm, `handed, `past, `early, `hand, `parking, `sealed, `drains, `idle
      modifies `readBudget, `needsIteration, `reserves, `base, `acceptBidiResume, `acceptUniResume
      modifies t`taken, t`shutdowns, t`wire, t`told
      ensures Inv(t, {}, {}) && hand == {} && base == old(base) && (old(needsIteration) ==> needsIteration) && Grown()
    {
      hide Inv, Grows, Now;
      var pops := Phase2Admission(t);
      var bidis := PromoteParked(t, true);
      var unis := PromoteParked(t, false);
    }

    /** The read pump, between commands. */
    method RunReadPump(t: QuicConn)
      requires Valid(t) && !ingressClosed
      modifies `rx, `tx, `led, `births, `marks, `adm, `handed, `past, `early, `hand, `parking, `sealed, `drains, `idle
      modifies `readBudget
      modifies `needsIteration, `reserves, `base
      modifies `acceptBidiResume, `acceptUniResume, t`taken, t`shutdowns, t`wire, t`told, t`surfaced
      ensures Valid(t) && (old(needsIteration) ==> needsIteration)
      ensures History(t) && base == old(base)
    {
      hide Inv, CmdsOk, AllKnown, CloseOk, Known, Grows, JournalOk, Now;
      PumpStages(t);
      CmdsGrow(io, old(handed), old(past), handed, past);
    }

    /** The packet half of an iteration. */
    method DoProcessReads(t: QuicConn)
      requires Valid(t) && !ingressClosed
      modifies `rx, `tx, `led, `births, `marks, `adm, `handed, `past, `early, `hand, `parking, `sealed, `drains, `idle
      modifies `readBudget
      modifies `needsIteration, t`told, t`surfaced, `reserves, `base
      modifies `acceptBidiResume, `acceptUniResume, `readsRan, t`taken, t`shutdowns, t`wire
      ensures Valid(t) && readsRan
      ensures History(t) && base == old(base)
    {
      hide Valid, Grows;
      needsIteration := false;
      readBudget := READ_BUDGET;
      readsRan := true;
      RunReadPump(t);
    }

    /** Work that is runnable now, not merely waiting for capacity or credit. */
    predicate HasRunnableRemainder()
      reads `rx, `adm, `tx, `acceptBidiResume, `acceptUniResume
    {
      || rx.resume != []
      || rx.readable != []
      || (adm.pendBidi != [] && (adm.parkBidi == [] || acceptBidiResume))
      || (adm.pendUni != [] && (adm.parkUni == [] || acceptUniResume))
      || tx.run != []
      || (adm.parkBidi != [] && acceptBidiResume)
      || (adm.parkUni != [] && acceptUniResume)
    }

    /** Whatever is still queued waits for someone else: an accept slot, stream credit, or a command on its way. */
    ghost predicate Settled(t: QuicConn)
      reads `rx, `adm, `tx, `io, `acceptBidiResume, `acceptUniResume, t`credit
    {
      && rx.resume == [] && rx.readable == [] && tx.run == []
      && (adm.pendBidi != [] ==> adm.parkBidi != []) && (adm.pendUni != [] ==> adm.parkUni != [])
      && (adm.parkBidi != [] && acceptBidiResume ==> AcceptBidiResume in io.inbox + io.cmdRx)
      && (adm.parkUni != [] && acceptUniResume ==> AcceptUniResume in io.inbox + io.cmdRx)
      && (io.openBidi != [] ==> t.credit.bidi == 0) && (io.openUni != [] ==> t.credit.uni == 0)
    }

    /** A poller that left meanwhile awaited a reply that was dropped for it. */
    twostate predicate OnlyDropped()
      reads `cancelled, `abandoned
    {
      forall tok | tok in cancelled && tok !in old(cancelled) :: tok in old(home) && tok in abandoned
    }

    /** A token that is somewhere now was somewhere before. */
    twostate lemma StillHome(tok: Token)
      requires Settles() && abandoned == old(abandoned) && tok in home && tok !in resolved && tok !in abandoned
      ensures tok in old(home)
    {
      assert tok in old(Known());
    }

    /** Replies of staged opens are unanswered. */
    lemma OpensWait(t: QuicConn)
      requires Valid(t)
      ensures forall tok | tok in io.openBidi || tok in io.openUni ::
                tok in home && tok !in resolved && tok !in abandoned
    {
      hide SendOk, Running, Runs, Now, CrossOk, Rest, CmdsOk, CloseOk, AllKnown, JournalOk, SendToks, CmdToks;
    }

    /** Commands, the pump on a packet-less iteration, and local opens. */
    method StageCommands(t: QuicConn, noPacket: bool)
      requires Valid(t) && !ingressClosed
      modifies `io, `home, `tx, `led, `births, `marks, `resolved, `past, `rx, `adm, `parking, `sealed, `drains, `idle
      modifies `early
      modifies `hand, `cmds, `asked, `closing, `applied, t`told, t`surfaced, `reserves, `base
      modifies `acceptBidiResume, `acceptUniResume, `needsIteration, `readBudget, `handed, `nextBidi, `nextUni
      modifies `cancelled, `abandoned, t`credit, t`taken, t`shutdowns, t`wire
      ensures Valid(t) && Extends(old(resolved), resolved)
      ensures io.inbox != [] || old(needsIteration) ==> needsIteration
      ensures io.openBidi != [] ==> needsIteration || t.credit.bidi == 0
      ensures io.openUni != [] ==> needsIteration || t.credit.uni == 0
      ensures History(t) && base == old(base)
      ensures OnlyDropped() && AppliedInOrder()
    {
      hide Valid, Extends, Known, Grows, Now;
      var n := ApplyInbox(t);
      OpensWait(t);
      forall tok | tok in io.openBidi || tok in io.openUni
        ensures tok in old(home)
      {
        StillHome(tok);
      }
      ghost var resolved1, mid := resolved, Now(t);
      StageRest(t, noPacket);
      ExtendsTrans(old(resolved), resolved1, resolved);
      GrowsTrans(old(Now(t)), mid, Now(t));
    }

    /** The pump on a packet-less iteration, then local opens. */
    method StageRest(t: QuicConn, noPacket: bool)
      requires Valid(t) && !ingressClosed
      modifies `rx, `tx, `led, `births, `marks, `adm, `handed, `past, `early, `hand, `parking, `sealed, `drains, `idle
      modifies `readBudget, `needsIteration, `reserves, `base, `acceptBidiResume, `acceptUniResume
      modifies `nextBidi, `nextUni, `cancelled, `abandoned, `resolved, `home, `io, `asked
      modifies t`taken, t`shutdowns, t`wire, t`told, t`surfaced, t`credit
      ensures Valid(t) && Extends(old(resolved), resolved) && io.inbox == old(io).inbox
      ensures old(needsIteration) ==> needsIteration
      ensures io.openBidi != [] ==> needsIteration || t.credit.bidi == 0
      ensures io.openUni != [] ==> needsIteration || t.credit.uni == 0
      ensures forall tok | tok in cancelled && tok !in old(cancelled) ::
                (tok in old(io).openBidi || tok in old(io).openUni) && tok in abandoned
      ensures History(t) && base == old(base)
    {
      hide Valid, Extends, Known, Grows, Now;
      if noPacket {
        RunReadPump(t);
        ghost var mid := Now(t);
        StageOpens(t);
        GrowsTrans(old(Now(t)), mid, Now(t));
      } else {
        StageOpens(t);
      }
    }

    /** Local opens, bidirectional ones first. */
    method StageOpens(t: QuicConn)
      requires Valid(t) && !ingressClosed
      modifies `tx, `led, `births, `marks, `rx, `idle, `handed, `nextBidi, `nextUni, `cancelled, `abandoned, `resolved
      modifies `home, `io, `asked, t`told, `base
      modifies `needsIteration, t`credit, t`wire, t`shutdowns
      ensures Valid(t) && Extends(old(resolved), resolved) && io.inbox == old(io).inbox
      ensures old(needsIteration) ==> needsIteration
      ensures io.openBidi != [] ==> needsIteration || t.credit.bidi == 0
      ensures io.openUni != [] ==> needsIteration || t.credit.uni == 0
      ensures forall tok | tok in cancelled && tok !in old(cancelled) ::
                (tok in old(io).openBidi || tok in old(io).openUni) && tok in abandoned
      ensures History(t) && base == old(base)
    {
      hide Valid, Extends, Known, Grows, Now;
      ghost var bidis := StageOpen(t, true);
      ghost var resolved1, mid := resolved, Now(t);
      ghost var unis := StageOpen(t, false);
      ExtendsTrans(old(resolved), resolved1, resolved);
      GrowsTrans(old(Now(t)), mid, Now(t));
    }

    /** What runs is signalled, and opens wait for credit: the rest waits for someone else. */
    lemma SettlesDown(t: QuicConn)
      requires !needsIteration && !HasRunnableRemainder()
      requires (io.openBidi != [] ==> t.credit.bidi == 0) && (io.openUni != [] ==> t.credit.uni == 0)
      ensures Settled(t)
    {
    }

    /** No connection-wide terminal was published. */
    twostate predicate Unpublished()
      reads `connTerminal, `acceptTerminalBidi, `acceptTerminalUni
    {
      && connTerminal == old(connTerminal)
      && acceptTerminalBidi == old(acceptTerminalBidi) && acceptTerminalUni == old(acceptTerminalUni)
    }

    /** Commands, the pump, opens, the writable scan and the send stage; then say whether anything is left to do. */
    method RunStages(t: QuicConn)
      requires Valid(t) && !ingressClosed
      modifies `io, `home, `tx, `led, `births, `marks, `resolved, `past, `rx, `adm, `parking, `sealed, `drains, `idle
      modifies `early
      modifies `hand, `cmds, `asked, `acceptBidiResume, `acceptUniResume, `needsIteration, `readBudget, `readsRan
      modifies `handed, `nextBidi
      modifies `nextUni
      modifies `closing, `applied, `cancelled, `abandoned, `reserves, `base
      modifies t`credit, t`taken, t`shutdowns, t`wire, t`sent, t`told, t`surfaced, t`answers
      ensures Valid(t) && !readsRan && Extends(old(resolved), resolved)
      ensures needsIteration || Settled(t)
      ensures io.inbox != [] ==> needsIteration
      ensures History(t) && base == old(base)
      ensures OnlyDropped() && AppliedInOrder()
    {
      hide Valid, Extends, Grows, Settled, HasRunnableRemainder, Now;
      var noPacket := BeginWrites();
      WorkStages(t, noPacket);
      EndWrites();
      if !needsIteration {
        SettlesDown(t);
      }
    }

    method WorkStages(t: QuicConn, noPacket: bool)
      requires Valid(t) && !ingressClosed
      modifies `io, `home, `tx, `led, `births, `marks, `resolved, `past, `rx, `adm, `parking, `sealed, `drains, `idle
      modifies `early
      modifies `hand, `cmds, `asked, `acceptBidiResume, `acceptUniResume, `needsIteration, `readBudget, `handed
      modifies `nextBidi
      modifies `nextUni
      modifies `closing, `applied, `cancelled, `abandoned, `reserves, `base
      modifies t`credit, t`taken, t`shutdowns, t`wire, t`sent, t`told, t`surfaced, t`answers
      ensures Valid(t) && Extends(old(resolved), resolved)
      ensures io.inbox != [] || old(needsIteration) || tx.run != [] ==> needsIteration
      ensures io.openBidi != [] ==> needsIteration || t.credit.bidi == 0
      ensures io.openUni != [] ==> needsIteration || t.credit.uni == 0
      ensures History(t) && base == old(base)
      ensures OnlyDropped() && AppliedInOrder()
    {
      hide Valid, Extends, Known, Grows, Now;
      StageCommands(t, noPacket);
      ghost var resolved1, mid := resolved, Now(t);
      StageIo(t);
      ExtendsTrans(old(resolved), resolved1, resolved);
      GrowsTrans(old(Now(t)), mid, Now(t));
    }

    /** One iteration: every stage, then the close barrier. */
    method DoProcessWrites(t: QuicConn) returns (r: Result<(), string>)
      requires Valid(t) && !ingressClosed
      modifies this, t
      ensures Valid(t) && !readsRan && !ingressClosed && Extends(old(resolved), resolved)
      ensures needsIteration || Settled(t)
      ensures io.inbox != [] ==> needsIteration
      ensures !closing.attempted ==> applied == []
      ensures r.Err? ==> closing.bug == Some(r.error)
      ensures History(t) && base == old(base) && Unpublished()
      ensures OnlyDropped() && AppliedInOrder()
    {
      hide Valid, Extends, Known, Grows, Settled, Now, OnlyDropped, AppliedInOrder;
      RunStages(t);
      ghost var mid := Now(t);
      r := ApplyCloseBarrier(t);
      GrowsTrans(old(Now(t)), mid, Now(t));
    }

    /** A packet-less iteration starts here: reset its signals, and no others. */
    method BeginWrites() returns (noPacket: bool)
      modifies `needsIteration, `readBudget
      ensures noPacket == !readsRan
      ensures if noPacket then !needsIteration && readBudget == READ_BUDGET
              else needsIteration == old(needsIteration) && readBudget == old(readBudget)
    {
      noPacket := !readsRan;
      if noPacket {
        needsIteration := false;
        readBudget := READ_BUDGET;
      }
    }

    /** Recompute the signal from what is runnable; it is never cleared here. */
    method EndWrites()
      modifies `needsIteration, `readsRan
      ensures !readsRan && needsIteration == (old(needsIteration) || HasRunnableRemainder())
    {
      readsRan := false;
      needsIteration := needsIteration || HasRunnableRemainder();
    }

    /** The writable scan and the send stage. */
    method StageIo(t: QuicConn)
      requires Valid(t)
      modifies `tx, `resolved, `home, `adm, `rx, `parking, `led, `marks, `early, `needsIteration, t`wire, t`sent
      modifies t`shutdowns
      modifies t`told, t`surfaced, t`answers, `base
      ensures Valid(t) && Settles() && (old(needsIteration) || tx.run != [] ==> needsIteration)
      ensures History(t) && base == old(base)
    {
      hide Inv, CmdsOk, AllKnown, CloseOk, Known, Grows, Now, JournalOk;
      IoStages(t);
    }

    method IoStages(t: QuicConn)
      requires Inv(t, {}, {}) && t.surfaced == {} && hand == {}
      modifies `tx, `resolved, `home, `adm, `rx, `parking, `led, `marks, `early, `needsIteration, t`wire, t`sent
      modifies t`shutdowns
      modifies t`told, t`surfaced, t`answers, `base
      ensures Inv(t, {}, {}) && t.surfaced == {} && Settles()
      ensures old(needsIteration) || tx.run != [] ==> needsIteration
      ensures History(t) && base == old(base)
    {
      hide Inv, Known, RunWeight, RoundRobin, Grows, Now, Runnable, Waiting, OwnedEnd, FirstStop, IsBidi, ProbesAt;
      ghost var seen := StageWritable(t);
      ghost var mid := Now(t);
      var turns := StageSend(t);
      GrowsTrans(old(Now(t)), mid, Now(t));
    }

    // ----- waiting -----

    predicate QuiescentHeld(h: SendHalf) {
      h.terminal.None? && h.held.Some? && h.ops == []
    }

    /** A held write with no following operation to ride with. */
    predicate HasQuiescentHeldWrite()
      reads `tx
    {
      exists id | id in tx.halves :: QuiescentHeld(tx.halves[id])
    }

    /** Make one held write runnable. */
    method MarkHeld(ghost t: QuicConn, id: Id, ghost from: Snap)
      requires Valid(t) && id in tx.halves && Grows(from, Now(t))
      modifies `tx
      ensures Valid(t) && Grows(from, Now(t))
      ensures tx.halves == old(tx).halves && tx.runSet == old(tx).runSet + {id}
    {
      hide SendOk, Lawful, Grows, TokOk, CrossOk, Rest, CmdsOk, CloseOk, AllKnown, PushRun, JournalOk;
      SendMark(tx, led, parking, t.wire, id);
      MoveStep(base, Now(t), Marked(id));
      MoveStep(from, Now(t), Marked(id));
      MarkSendRunnable(id);
    }

    lemma EmptyRun(t: QuicConn)
      requires Valid(t)
      ensures tx.run == [] <==> tx.runSet == {}
    {
      hide SendOk, TokOk, CrossOk, Rest, Running, Runs, Now, CmdsOk, CloseOk, AllKnown, JournalOk;
      RunIsExact(tx, led, parking, t.wire);
    }

    /** Put every quiescent held write back into the fair send stage. */
    method MarkQuiescentHeldWritesRunnable(ghost t: QuicConn)
      requires Valid(t)
      modifies `tx, `needsIteration
      ensures Valid(t) && History(t) && tx.halves == old(tx).halves
      ensures forall id | id in tx.halves && QuiescentHeld(tx.halves[id]) :: id in tx.runSet
      ensures HasQuiescentHeldWrite() || old(needsIteration) ==> needsIteration
    {
      hide Valid, Grows, Now;
      var ids := set id | id in tx.halves && QuiescentHeld(tx.halves[id]);
      StillValid(t);
      while ids != {}
        invariant History(t)
        invariant Valid(t) && tx.halves == old(tx).halves && needsIteration == old(needsIteration)
        invariant forall id | id in tx.halves && QuiescentHeld(tx.halves[id]) :: id in tx.runSet || id in ids
      {
        var id :| id in ids;
        ids := ids - {id};
        MarkHeld(t, id, old(Now(t)));
      }
      EmptyRun(t);
      if tx.run != [] {
        needsIteration := true;
      }
    }

    /** The accept consumer publishes its resume bit, with a command on the false-to-true edge. */
    method SignalAccept(ghost t: QuicConn, bidi: bool)
      requires Valid(t) && !ingressClosed && !closing.lastHandle
      modifies `io, `home, `asked, `acceptBidiResume, `acceptUniResume
      ensures Valid(t) && History(t) && (old(Settled(t)) ==> Settled(t))
      ensures bidi ==> acceptBidiResume && (old(acceptBidiResume) || AcceptBidiResume in io.inbox + io.cmdRx)
      ensures !bidi ==> acceptUniResume && (old(acceptUniResume) || AcceptUniResume in io.inbox + io.cmdRx)
    {
      hide Inv, AllKnown, CloseOk, Known, Grows, JournalOk, Now;
      StillValid(t);
      var was := if bidi then acceptBidiResume else acceptUniResume;
      SetResumeBit(bidi);
      if !was {
        var c := if bidi then AcceptBidiResume else AcceptUniResume;
        CmdsWfPush(io.inbox + io.cmdRx, handed.send, handed.recv, past.ended, c);
        Submit(t, c);
        assert io.inbox + io.cmdRx == old(io.inbox + io.cmdRx) + [c];
      }
    }

    /**
     * Nothing can be done until someone else acts: no queue holds work, every live operation is re-armed or
     * waits for the connection to close, and every live receive half is drained or waits for its consumer.
     */
    ghost predicate AtRest(t: QuicConn)
      reads this, t`told, t`credit
    {
      && io.inbox == [] && io.cmdRx == [] && rx.resume == [] && rx.readable == [] && tx.run == []
      && (forall id | id in tx.halves && tx.halves[id].terminal.None? ::
            && (tx.halves[id].held.Some? ==> tx.halves[id].ops != [])
            && (tx.halves[id].ops != [] ==> id in t.told.armed || id in t.told.dead || GivenStopped(id)))
      && (forall id | id in tx.halves && tx.halves[id].pendingReset.Some? :: GivenStopped(id))
      && (forall id | id in rx.halves :: id in t.told.quiet || Drain.Parked(LogAt(drains, id)) || id in t.told.dead)
      && (adm.pendBidi != [] ==> adm.parkBidi != []) && (adm.pendUni != [] ==> adm.parkUni != [])
      && (adm.parkBidi != [] ==> !acceptBidiResume) && (adm.parkUni != [] ==> !acceptUniResume)
      && (io.openBidi != [] ==> t.credit.bidi == 0) && (io.openUni != [] ==> t.credit.uni == 0)
    }

    lemma RestfulWhenSettled(t: QuicConn)
      requires Valid(t) && Settled(t) && !ingressClosed && io.inbox == [] && io.cmdRx == [] && !HasQuiescentHeldWrite()
      ensures AtRest(t)
    {
      hide TokOk, SendOk, Running, Runs, Now, CrossOk, AdmitOk, EarlyOk, DirOk, IdsOk, HalfOk, CmdsOk, CloseOk;
      hide AllKnown;
      assert io.inbox + io.cmdRx == [];
      NobodyForgotten(t);
      forall id | id in tx.halves && tx.halves[id].terminal.None?
        ensures tx.halves[id].held.Some? ==> tx.halves[id].ops != []
      {
        assert !QuiescentHeld(tx.halves[id]);
      }
    }

    /** One look at the command channel: a command goes to the inbox, a channel without senders ends the handles. */
    method TryReceive(ghost t: QuicConn) returns (w: Wake)
      requires Valid(t) && io.inbox == []
      modifies `io, `closing
      ensures old(Settled(t)) ==> Settled(t)
      ensures Valid(t) && (w.GotCommand? || w.LastHandle? || w.Asleep?)
      ensures w.GotCommand? ==>
                && closing == old(closing) && io == old(io).(inbox := io.inbox, cmdRx := io.cmdRx)
                && |io.inbox| == 1 && io.inbox + io.cmdRx == old(io).cmdRx
      ensures !w.GotCommand? ==> io == old(io) && io.cmdRx == []
      ensures w.LastHandle? ==> closing == old(closing).(lastHandle := true)
      ensures w.Asleep? ==> closing == old(closing)
    {
      hide CmdsWf, AllKnown, CloseOk, TokOk, SendOk, Running, Runs, Now, CrossOk, Rest, ToldOk, Known;
      if io.cmdRx != [] {
        var io' := io.(inbox := io.inbox + [io.cmdRx[0]], cmdRx := io.cmdRx[1..]);
        ReceiveKeeps(t, io');
        assert io'.inbox + io'.cmdRx == io.inbox + io.cmdRx;
        SetIo(t, io');
        w := GotCommand;
      } else {
        var sendersGone: bool := *;
        if sendersGone {
          LastHandleKeeps(closing, applied, t.closes, t.calm, io);
          closing := closing.(lastHandle := true);
          w := LastHandle;
        } else {
          w := Asleep;
        }
      }
    }

    /** Moving the head of the channel to the inbox moves nothing in the combined FIFO. */
    lemma ReceiveKeeps(t: QuicConn, io': Ingress)
      requires Valid(t) && io.inbox == [] && io.cmdRx != []
      requires io' == io.(inbox := io.inbox + [io.cmdRx[0]], cmdRx := io.cmdRx[1..])
      ensures SendOk(tx, led, parking, t.wire, {}) && CrossOk(tx.halves, led, adm.admit, handed, past, parking.orphan)
      ensures TokOk(tx.halves, io', home, resolved, abandoned) && Rest(t, {})
      ensures CmdsOk(io', handed, past) && CloseOk(closing, applied, t.closes, t.calm, io')
    {
      hide SendOk, Running, Runs, Now, CrossOk, Rest, CmdsWf, AllKnown, SendToks, CmdToks, OpenToks;
      assert io'.inbox + io'.cmdRx == io.inbox + io.cmdRx;
    }

    /**
     * Wait for a command. The worker sleeps on the channel only at rest; a quiescent held write is
     * flushed before that.
     */
    method WaitForData(t: QuicConn) returns (w: Wake)
      requires Valid(t) && !ingressClosed && (needsIteration || Settled(t))
      modifies `io, `tx, `needsIteration, `closing
      ensures needsIteration || Settled(t)
      ensures Valid(t) && (w.Draining? <==> old(closing).issued)
      ensures w.Asleep? ==> AtRest(t) && io == old(io) && tx == old(tx) && needsIteration == old(needsIteration)
      ensures w.GotCommand? ==> |io.inbox| == 1 && io.inbox + io.cmdRx == old(io).cmdRx
      ensures w.Flushing? ==> needsIteration && HasQuiescentHeldWrite()
                              && forall id | id in tx.halves && QuiescentHeld(tx.halves[id]) :: id in tx.runSet
      ensures w.LastHandle? ==> closing == old(closing).(lastHandle := true) && io.inbox == [] && io.cmdRx == []
      ensures w.Yielded? ==> io == old(io) && (io.inbox != [] || needsIteration)
      ensures History(t)
    {
      hide Valid, Settled, AtRest, QuiescentHeld, Grows;
      StillValid(t);
      if closing.issued {
        return Draining;
      }
      if io.inbox != [] || needsIteration {
        return Yielded;
      }
      w := TryReceive(t);
      if w.Asleep? {
        if HasQuiescentHeldWrite() {
          MarkQuiescentHeldWritesRunnable(t);
          ghost var id :| id in old(tx).halves && QuiescentHeld(old(tx).halves[id]);
          w := Flushing;
        } else {
          RestfulWhenSettled(t);
        }
      }
    }
  }

  /** What may happen next to a running worker: a handle, the peer or the transport acts, or the worker is called. */
  datatype Event =
    | Submits(c: Command)
    | GivesUp(tok: Token)
    | Accepts(bidi: bool)
    | Progresses
    | Reads
    | Writes
    | Waits

  /** Whether a front-end handle would do this now: it follows its own protocol, and its channel is open. */
  predicate Offered(d: Driver, e: Event)
    reads d
  {
    match e
    case Submits(c) =>
      && !d.closing.lastHandle && (CmdTok(c).Some? ==> CmdTok(c).value == d.io.nextTok)
      && CmdsWf(d.io.inbox + d.io.cmdRx + [c], d.handed.send, d.handed.recv, d.past.ended)
    case GivesUp(tok) => tok in d.io.opens
    case Accepts(_) => !d.closing.lastHandle
    case Waits => !d.readsRan
    case _ => true
  }

  /**
   * A worker between two calls: in order, open, and, unless a packet came in, with nothing left to do or a wakeup
   * due.
   */
  ghost predicate Serving(d: Driver, t: QuicConn)
    reads d, t
  {
    d.Valid(t) && !d.ingressClosed && (d.readsRan || d.needsIteration || d.Settled(t))
  }

  /** One event. An iteration that reports a bug ends the run. */
  method Handle(d: Driver, t: QuicConn, e: Event) returns (ended: bool)
    requires Serving(d, t) && Offered(d, e)
    modifies d, t
    ensures Serving(d, t) && d.History(t) && d.Unpublished()
    ensures ended ==> d.closing.bug.Some?
    ensures if e.Writes? then d.AppliedInOrder() else d.cmds == old(d.cmds)
    ensures e.Submits? ==> d.asked == old(d.asked) + [e.c]
  {
    hide Driver.Valid, Driver.Settled, Grows, Driver.Now;
    ended := false;
    match e {
      case Submits(c) => d.Submit(t, c);
      case GivesUp(tok) => d.Cancel(t, tok);
      case Accepts(bidi) => d.SignalAccept(t, bidi);
      case Progresses =>
        d.StillValid(t);
        t.Progress();
      case Reads => d.DoProcessReads(t);
      case Writes =>
        var r := d.DoProcessWrites(t);
        ended := r.Err?;
      case Waits =>
        var w := d.WaitForData(t);
    }
  }

  lemma ServingIsProper(d: Driver, t: QuicConn)
    requires d.Valid(t)
    ensures var s := d.Now(t);
            Lawful(s) && Exact(s) && QueueOk(s.tx.run, s.tx.runSet) && |s.closes| <= 1 && Grows(s, s)
    ensures CloseOk(d.closing, d.applied, t.closes, t.calm, d.io)
    ensures d.cmds <= d.asked
  {
    hide TokOk, CrossOk, Driver.Rest, HalfOk, Grows, CmdsOk, AllKnown, QueueOk, JournalOk, Exact;
    d.StillValid(t);
    CrossHanded(d.tx.halves, d.led, d.adm.admit, d.handed, d.past, d.parking.orphan);
    assert QueueOk(d.tx.run, d.tx.runSet) by { hide Lawful; }
    hide SendOk;
    assert d.cmds <= d.asked by {
      hide WireLaw, EntriesLaw, AbsentLaw, FinalsLaw, ResetsLaw, RecvLaw, UndoneLaw, EarlyLaw, CloseOk;
    }
    hide Lawful;
    LawsConclude(d.Now(t), d.parking);
  }

  /**
   * A whole run of the worker, from construction to the teardown: any events, in any order, any number of them.
   * Commands are applied in the order they were asked. In every state of the run each wire carries what the applied
   * commands ask and no more than one FIN, each applied reset was made once or is pending, each handle stopped early
   * was given the first stop, and every end has its cause. Nothing logged, sent, resolved, handed out or made
   * terminal is ever taken back. The transport is closed at most once. At the end every Write and Finish was
   * resolved, and so was every open reply its poller did not give up.
   */
  method Serve(t: QuicConn, server: bool) returns (d: Driver, terminal: ConnTerminal, ghost trace: seq<Snap>)
    requires t.wire == map[] && t.taken == map[] && t.shutdowns == [] && t.closes == [] && t.surfaced == {}
    requires t.answers == Answers(map[], {}, map[], [])
    modifies t
    ensures fresh(d) && d.Valid(t) && d.ingressClosed
    ensures Chronicle(trace) && trace != [] && trace[|trace| - 1] == d.Now(t)
    ensures d.cmds <= d.asked && Exact(d.Now(t))
    ensures |t.closes| <= 1
    ensures t.closes != [] ==>
              if d.applied != [] then t.closes == [d.applied[0]]
              else t.closes == [NO_ERROR_CLOSE] && d.closing.lastHandle && t.calm
    ensures Decides(Causes(d.closing, t.peerError, t.timedOut, t.localError), terminal)
    ensures forall tok: Token | tok < d.io.nextTok :: tok in d.resolved || (tok in d.io.opens && tok in d.cancelled)
    ensures d.connTerminal == d.acceptTerminalBidi == d.acceptTerminalUni == Some(terminal)
    ensures d.SendsClosed({}) && forall id | id in d.rx.halves :: d.rx.halves[id].end.Some?
  {
    hide Driver.Valid, Driver.Settled, Grows, QueueOk, Decides, Causes, Lawful, Exact;
    d := new Driver(t, server);
    ServingIsProper(d, t);
    trace := [d.Now(t)];
    var rounds: nat := *;
    while rounds > 0
      invariant fresh(d) && Serving(d, t)
      invariant Chronicle(trace) && trace != [] && trace[|trace| - 1] == d.Now(t)
      invariant d.connTerminal.None? && d.acceptTerminalBidi.None? && d.acceptTerminalUni.None?
    {
      rounds := rounds - 1;
      var e: Event := *;
      if Offered(d, e) {
        var ended := Handle(d, t, e);
        ServingIsProper(d, t);
        ChronicleOn(trace, d.Now(t));
        trace := trace + [d.Now(t)];
        if ended {
          break;
        }
      }
    }
    terminal := d.DoOnConnClose(t);
    ServingIsProper(d, t);
    ChronicleOn(trace, d.Now(t));
    trace := trace + [d.Now(t)];
  }
}
