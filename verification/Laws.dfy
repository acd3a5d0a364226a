/**
 * What the worker's state has to do with the commands it was given and with what the transport answered: the bytes,
 * FINs and resets on every wire, the streams handed out, and the receive halves let go of.
 */
module Laws {
  import opened Base
  import opened Buffers
  import opened Transport
  import opened SendHalves
  import opened Registry
  import opened Invariants
  import Drain = RecvProtocol

  // ----- what commands ask for -----

  function BytesFor(c: Command, id: Id): seq<Byte> {
    if c.Send? && c.id == id then c.buf.Bytes() else []
  }

  /** The bytes of all writes on `id`, in order. */
  function SendBytes(cmds: seq<Command>, id: Id): seq<Byte> {
    if cmds == [] then [] else SendBytes(cmds[..|cmds| - 1], id) + BytesFor(cmds[|cmds| - 1], id)
  }

  predicate HasFinish(cmds: seq<Command>, id: Id) {
    exists i :: 0 <= i < |cmds| && cmds[i].Finish? && cmds[i].id == id
  }

  predicate StopAsked(cmds: seq<Command>, id: Id) {
    exists i :: 0 <= i < |cmds| && cmds[i].StopSending? && cmds[i].id == id
  }

  /** The command an operation came from. */
  function CmdOf(id: Id, op: Op): Command {
    match op
    case WriteOp(buf, done) => Send(id, buf, done)
    case FinishOp(done) => Finish(id, done)
  }

  /** The operation is what is left of that command. */
  predicate Starts(c: Command, id: Id, op: Op) {
    match op
    case WriteOp(_, done) => c.Send? && c.id == id && c.done == done
    case FinishOp(done) => c == Finish(id, done)
  }

  predicate Caused(cmds: seq<Command>, id: Id, op: Op) {
    exists i :: 0 <= i < |cmds| && Starts(cmds[i], id, op)
  }

  /** A send terminal has its cause: the transport answered a stop or a failure, a reset was asked, or a close. */
  predicate Reason(cmds: seq<Command>, id: Id, end: SendEnd, answers: Answers, closed: bool) {
    match end
    case Stopped(code) => code in StopsAt(answers, id)
    case LocalReset(code) => Reset(id, code) in cmds
    case SendConn(_) => id in answers.broken || closed
  }

  lemma SendBytesOn(cmds: seq<Command>, c: Command, id: Id)
    ensures SendBytes(cmds + [c], id) == SendBytes(cmds, id) + BytesFor(c, id)
  {
    assert (cmds + [c])[..|cmds|] == cmds;
  }

  lemma {:induction false} SendBytesSplit(a: seq<Command>, b: seq<Command>, id: Id)
    ensures SendBytes(a + b, id) == SendBytes(a, id) + SendBytes(b, id)
    decreases |b|
  {
    if b == [] {
      assert a + b == a;
    } else {
      var init, c := b[..|b| - 1], b[|b| - 1];
      assert a + b == (a + init) + [c] && b == init + [c];
      SendBytesSplit(a, init, id);
      SendBytesOn(a + init, c, id);
      SendBytesOn(init, c, id);
    }
  }

  lemma SinceOn(cmds: seq<Command>, c: Command, from: nat)
    requires from <= |cmds|
    ensures (cmds + [c])[from..] == cmds[from..] + [c] && (cmds + [c])[..from] == cmds[..from]
  {
  }

  lemma HasFinishOn(cmds: seq<Command>, c: Command, id: Id)
    ensures HasFinish(cmds + [c], id) <==> HasFinish(cmds, id) || (c.Finish? && c.id == id)
  {
    var cmds' := cmds + [c];
    assert cmds'[|cmds|] == c && forall i :: 0 <= i < |cmds| ==> cmds'[i] == cmds[i];
    if i :| 0 <= i < |cmds| && cmds[i].Finish? && cmds[i].id == id {
      assert cmds'[i].Finish?;
    }
  }

  lemma CausedOn(cmds: seq<Command>, c: Command, id: Id, op: Op)
    requires Caused(cmds, id, op) || Starts(c, id, op)
    ensures Caused(cmds + [c], id, op)
  {
    hide Starts;
    var cmds' := cmds + [c];
    if Starts(c, id, op) {
      assert cmds'[|cmds|] == c;
    } else {
      var i :| 0 <= i < |cmds| && Starts(cmds[i], id, op);
      assert cmds'[i] == cmds[i];
    }
  }

  // ----- the laws -----

  /** At most one FIN per stream, only after its Finish was applied, and nothing before hand-over. */
  ghost predicate WireLaw(wire: map<Id, Wire>, send: set<Id>, ended: set<Id>) {
    forall id: Id :: WireOf(At(wire, id), id in send, id in ended)
  }

  predicate WireOf(w: Wire, handed: bool, ended: bool) {
    w.fins <= 1 && (w.fins == 1 ==> ended) && (!handed ==> w.bytes == [] && w.fins == 0)
  }

  /** Commands are applied in the order they were asked, for streams handed out, with tokens that grow. */
  ghost predicate CmdsLaw(asked: seq<Command>, cmds: seq<Command>, nextTok: Token, send: set<Id>, ended: set<Id>) {
    && cmds <= asked
    && (forall i, j :: 0 <= i < j < |asked| && CmdTok(asked[i]).Some? && CmdTok(asked[j]).Some? ==>
          CmdTok(asked[i]).value < CmdTok(asked[j]).value)
    && (forall i :: 0 <= i < |asked| && CmdTok(asked[i]).Some? ==> CmdTok(asked[i]).value < nextTok)
    && (forall i :: 0 <= i < |cmds| && SendTarget(cmds[i]).Some? ==> SendTarget(cmds[i]).value in send)
    && (forall i :: 0 <= i < |cmds| && EndsSend(cmds[i]) ==> cmds[i].id in ended)
  }

  /**
   * One entry. While it has no terminal, what was submitted on it is exactly what the commands since its birth ask.
   * Unless the transport refused the stream, it is the stream's first entry with anything to send.
   */
  predicate EntryLaw(cmds: seq<Command>, id: Id, h: SendHalf, l: Ledger, ended: bool, answers: Answers, closed: bool) {
    && l.from <= |cmds| && l.base.fins == 0
    && (h.terminal.None? ==>
          && l.submitted == SendBytes(cmds[l.from..], id)
          && (l.finSubmitted <==> HasFinish(cmds[l.from..], id)))
    && (!Refused(answers, id) ==> l.base.bytes == [] && SendBytes(cmds[..l.from], id) == [])
    && (h.finished ==> ended || Refused(answers, id))
    && (h.terminal.Some? ==> Reason(cmds, id, h.terminal.value, answers, closed))
    && (forall k :: 0 <= k < |h.ops| ==> Caused(cmds, id, h.ops[k]))
  }

  ghost predicate EntriesLaw(cmds: seq<Command>, halves: map<Id, SendHalf>, led: map<Id, Ledger>, ended: set<Id>,
                             answers: Answers, closed: bool) {
    forall id | id in halves && id in led :: EntryLaw(cmds, id, halves[id], led[id], id in ended, answers, closed)
  }

  /** A stream without entry, not ended and not refused, was asked nothing and sent nothing. */
  ghost predicate AbsentLaw(cmds: seq<Command>, keys: set<Id>, wire: map<Id, Wire>, ended: set<Id>, answers: Answers) {
    forall id: Id | id !in keys && id !in ended && !Refused(answers, id) ::
      SendBytes(cmds, id) == [] && At(wire, id).bytes == []
  }

  /** What a delivered Finish leaves on the wire: one FIN, after every byte asked since the entry was born. */
  predicate FinalLaw(cmds: seq<Command>, id: Id, w: Wire, l: Ledger, answers: Answers) {
    && w.fins == 1 && l.from <= |cmds|
    && w.bytes == l.base.bytes + SendBytes(cmds[l.from..], id)
    && (!Refused(answers, id) ==> l.base.bytes == [] && SendBytes(cmds[..l.from], id) == [])
  }

  ghost predicate FinalsLaw(cmds: seq<Command>, resolved: map<Token, Outcome>, wire: map<Id, Wire>,
                            finals: map<Id, Ledger>, answers: Answers) {
    && (forall i :: 0 <= i < |cmds| && cmds[i].Finish? && cmds[i].done in resolved && resolved[cmds[i].done].Delivered?
                    ==> cmds[i].id in finals)
    && (forall id | id in finals :: FinalLaw(cmds, id, At(wire, id), finals[id], answers))
  }

  /** The reset asked by `c` is still to be made, was made once, or the transport had refused the stream. */
  predicate ResetServedBy(c: Command, halves: map<Id, SendHalf>, wire: map<Id, Wire>, origin: map<Id, seq<nat>>,
                          answers: Answers)
    requires c.Reset?
  {
    || Refused(answers, c.id)
    || (c.id in halves && halves[c.id].pendingReset == Some(c.code))
    || (c.id in origin && At(wire, c.id).resets == origin[c.id] + [c.code])
  }

  /** A stream's wire carries no reset, or exactly one, with the code of its one Reset. */
  predicate ResetsOf(cmds: seq<Command>, id: Id, resets: seq<nat>, origin: seq<nat>) {
    || resets == origin
    || (exists i :: 0 <= i < |cmds| && cmds[i].Reset? && cmds[i].id == id && resets == origin + [cmds[i].code])
  }

  ghost predicate ResetsLaw(cmds: seq<Command>, halves: map<Id, SendHalf>, wire: map<Id, Wire>, send: set<Id>,
                            origin: map<Id, seq<nat>>, undone: set<Id>, answers: Answers) {
    && origin.Keys == send
    && (forall id | id in origin && id !in undone :: ResetsOf(cmds, id, At(wire, id).resets, origin[id]))
    && (forall i :: 0 <= i < |cmds| && cmds[i].Reset? && cmds[i].id !in undone ==>
          ResetServedBy(cmds[i], halves, wire, origin, answers))
    && (forall id | id in halves && halves[id].pendingReset.Some? && id in origin && id !in undone ::
          At(wire, id).resets == origin[id])
  }

  /** Every receive half handed out is live, or was let go of, or belongs to an undone open. */
  ghost predicate RecvLaw(recv: set<Id>, live: set<Id>, sealed: map<Id, RecvHalf>, undone: set<Id>,
                          drains: map<Id, seq<Drain.Act>>, cmds: seq<Command>) {
    && (forall id | id in recv :: id in live || id in sealed || id in undone)
    && (forall id | id in sealed :: LetGoLaw(id, sealed[id], LogAt(drains, id), cmds))
  }

  /** A half is let go of with its end published, on the consumer's request, or because its consumer is gone. */
  predicate LetGoLaw(id: Id, h: RecvHalf, log: seq<Drain.Act>, cmds: seq<Command>) {
    h.end.Some? || StopAsked(cmds, id) || Drain.Abandoned(log)
  }

  /** An undone open was cancelled on the wire, and its stream was delivered to nobody. */
  ghost predicate UndoneLaw(undone: set<Id>, send: set<Id>, given: set<Id>, resolved: map<Token, Outcome>,
                            shutdowns: seq<Shutdown>) {
    && undone <= send && undone !! given
    && (forall tok | tok in resolved && resolved[tok].Opened? ::
          resolved[tok].id in send && resolved[tok].id !in undone)
    && (forall id | id in undone :: Shutdown(id, WriteSide, H3_REQUEST_CANCELLED) in shutdowns)
  }

  function FromAt(e: Early, id: Id): nat {
    if id in e.from then e.from[id] else 0
  }

  /** The first stop the transport answered for a stream, since it was last torn down. */
  function FirstStop(answers: Answers, e: Early, id: Id): Option<SendEnd> {
    if FromAt(e, id) < |StopsAt(answers, id)| then Some(Stopped(StopsAt(answers, id)[FromAt(e, id)])) else None
  }

  /** A stream not handed out owns the first stop answered for it, and its handle is given exactly that. */
  ghost predicate EarlyLaw(e: Early, answers: Answers, send: set<Id>, preset: set<Id>) {
    && e.given.Keys <= send
    && (forall id: Id :: FromAt(e, id) <= |StopsAt(answers, id)|)
    && (forall id: Id | id !in send :: SeenEnd(e.seen, id) == FirstStop(answers, e, id))
    && (forall id | id in e.given :: e.given[id] == SeenEnd(e.seen, id))
    && (forall id | id in e.given && e.given[id].Some? :: e.given[id] == FirstStop(answers, e, id))
    && (forall id: Id :: id in preset <==> id in e.given && e.given[id].Some?)
  }

  // ----- entries -----

  /** Another command changes nothing for an entry it does not concern. */
  lemma EntryOn(cmds: seq<Command>, c: Command, id: Id, h: SendHalf, l: Ledger, ended: bool, answers: Answers,
                closed: bool)
    requires EntryLaw(cmds, id, h, l, ended, answers, closed)
    requires SendTarget(c) != Some(id) || h.terminal.Some?
    ensures EntryLaw(cmds + [c], id, h, l, ended, answers, closed)
  {
    SinceOn(cmds, c, l.from);
    SendBytesOn(cmds[l.from..], c, id);
    HasFinishOn(cmds[l.from..], c, id);
    forall k | 0 <= k < |h.ops|
      ensures Caused(cmds + [c], id, h.ops[k])
    {
      CausedOn(cmds, c, id, h.ops[k]);
    }
    hide Caused, SendBytes, HasFinish;
  }

  /** Queueing the operation of a command extends what was submitted by what the command asks. */
  lemma EntryAsked(cmds: seq<Command>, op: Op, id: Id, h: SendHalf, l: Ledger, ended: bool, answers: Answers,
                   closed: bool)
    requires EntryLaw(cmds, id, h, l, ended, answers, closed) && h.terminal.None? && !l.finSubmitted && !h.finished
    ensures EntryLaw(cmds + [CmdOf(id, op)], id, h.(ops := h.ops + [op]), Asked(l, op), ended || op.FinishOp?, answers,
                     closed)
  {
    var c, ops := CmdOf(id, op), h.ops + [op];
    SinceOn(cmds, c, l.from);
    SendBytesOn(cmds[l.from..], c, id);
    HasFinishOn(cmds[l.from..], c, id);
    forall k | 0 <= k < |ops|
      ensures Caused(cmds + [c], id, ops[k])
    {
      assert k < |h.ops| ==> ops[k] == h.ops[k];
      CausedOn(cmds, c, id, ops[k]);
    }
    hide Caused, SendBytes, HasFinish;
  }

  /** One entry changes, and at most one command, for that stream or for none, is applied. */
  lemma EntriesPut(cmds: seq<Command>, more: seq<Command>, halves: map<Id, SendHalf>, led: map<Id, Ledger>,
                   ended: set<Id>, ended': set<Id>, answers: Answers, closed: bool, id: Id, h: SendHalf, l: Ledger)
    requires EntriesLaw(cmds, halves, led, ended, answers, closed) && ended <= ended'
    requires |more| <= 1 && (more != [] ==> SendTarget(more[0]) == None || SendTarget(more[0]) == Some(id))
    requires EntryLaw(cmds + more, id, h, l, id in ended', answers, closed)
    ensures EntriesLaw(cmds + more, halves[id := h], led[id := l], ended', answers, closed)
  {
    hide EntryLaw, SendTarget;
    forall x | x in halves && x in led && x != id
      ensures EntryLaw(cmds + more, x, halves[x], led[x], x in ended', answers, closed)
    {
      EntryEnded(cmds, x, halves[x], led[x], x in ended, x in ended', answers, closed);
      if more == [] {
        assert cmds + more == cmds;
      } else {
        assert more == [more[0]];
        EntryOn(cmds, more[0], x, halves[x], led[x], x in ended', answers, closed);
      }
    }
  }

  lemma EntryEnded(cmds: seq<Command>, id: Id, h: SendHalf, l: Ledger, ended: bool, ended': bool, answers: Answers,
                   closed: bool)
    requires EntryLaw(cmds, id, h, l, ended, answers, closed) && (ended ==> ended')
    ensures EntryLaw(cmds, id, h, l, ended', answers, closed)
  {
  }

  lemma EntriesOn(cmds: seq<Command>, c: Command, halves: map<Id, SendHalf>, led: map<Id, Ledger>, ended: set<Id>,
                  answers: Answers, closed: bool)
    requires EntriesLaw(cmds, halves, led, ended, answers, closed) && SendTarget(c).None?
    ensures EntriesLaw(cmds + [c], halves, led, ended, answers, closed)
  {
    hide EntryLaw;
    forall x | x in halves && x in led
      ensures EntryLaw(cmds + [c], x, halves[x], led[x], x in ended, answers, closed)
    {
      EntryOn(cmds, c, x, halves[x], led[x], x in ended, answers, closed);
    }
  }

  // ----- answers -----

  ghost predicate AnswersGrow(a: Answers, b: Answers) {
    && (forall id: Id :: StopsAt(a, id) <= StopsAt(b, id) && ProbesAt(a, id) <= ProbesAt(b, id))
    && a.broken <= b.broken && a.shown <= b.shown
  }

  lemma HeardGrows(a: Answers, id: Id, e: QuicError)
    ensures AnswersGrow(a, Heard(a, id, e))
    ensures forall x | x != id :: StopsAt(Heard(a, id, e), x) == StopsAt(a, x)
    ensures ClassifySend(e).ClassStopped? ==> ClassifySend(e).code in StopsAt(Heard(a, id, e), id)
    ensures !ClassifySend(e).ClassStopped? && !ClassifySend(e).ClassBlocked? ==> id in Heard(a, id, e).broken
  {
    hide ClassifySend;
  }

  lemma ProbedGrows(a: Answers, id: Id, r: Result<nat, QuicError>)
    ensures AnswersGrow(a, Probed(a, id, r)) && ProbesAt(Probed(a, id, r), id) == ProbesAt(a, id) + 1
    ensures forall x | x != id :: StopsAt(Probed(a, id, r), x) == StopsAt(a, x)
    ensures r.Err? ==>
              && (ClassifySend(r.error).ClassStopped? ==> ClassifySend(r.error).code in StopsAt(Probed(a, id, r), id))
              && (!ClassifySend(r.error).ClassStopped? && !ClassifySend(r.error).ClassBlocked? ==>
                    id in Probed(a, id, r).broken)
    ensures StopsAt(Probed(a, id, r), id) ==
            StopsAt(a, id) + if r.Err? && r.error.StreamStopped? then [r.error.code] else []
  {
    if r.Err? { HeardGrows(a.(probes := a.probes[id := ProbesAt(a, id) + 1]), id, r.error); }
  }

  lemma AnswersGrowTrans(a: Answers, b: Answers, c: Answers)
    requires AnswersGrow(a, b) && AnswersGrow(b, c)
    ensures AnswersGrow(a, c)
  {
    forall id: Id
      ensures StopsAt(a, id) <= StopsAt(c, id) && ProbesAt(a, id) <= ProbesAt(c, id)
    {
      assert StopsAt(a, id) <= StopsAt(b, id) <= StopsAt(c, id);
    }
  }

  lemma ShownGrows(a: Answers, b: Answers)
    requires b == a.(shown := b.shown) && a.shown <= b.shown
    ensures AnswersGrow(a, b)
  {
  }

  lemma ShownProbes(a: Answers, b: Answers, id: Id)
    requires b == a.(shown := b.shown)
    ensures ProbesAt(b, id) == ProbesAt(a, id)
  {
  }

  lemma ProbedShows(a: Answers, id: Id, r: Result<nat, QuicError>)
    ensures Probed(a, id, r).shown == a.shown
  {
  }

  lemma MoreProbes(a: Answers, b: Answers, c: Answers)
    requires AnswersGrow(a, b) && AnswersGrow(b, c)
    ensures forall id: Id | ProbesAt(b, id) > ProbesAt(a, id) || ProbesAt(c, id) > ProbesAt(b, id) ::
              ProbesAt(c, id) > ProbesAt(a, id)
  {
    hide ProbesAt, StopsAt;
  }

  lemma StillRefused(a: Answers, b: Answers, id: Id)
    requires AnswersGrow(a, b) && Refused(a, id)
    ensures Refused(b, id)
  {
  }

  /** More answers only excuse more. */
  lemma EntriesHear(cmds: seq<Command>, halves: map<Id, SendHalf>, led: map<Id, Ledger>, ended: set<Id>, a: Answers,
                    b: Answers, closed: bool)
    requires EntriesLaw(cmds, halves, led, ended, a, closed) && AnswersGrow(a, b)
    ensures EntriesLaw(cmds, halves, led, ended, b, closed)
  {
    hide SendBytes, HasFinish, Caused;
  }

  lemma AbsentHears(cmds: seq<Command>, keys: set<Id>, wire: map<Id, Wire>, ended: set<Id>, a: Answers, b: Answers)
    requires AbsentLaw(cmds, keys, wire, ended, a) && AnswersGrow(a, b)
    ensures AbsentLaw(cmds, keys, wire, ended, b)
  {
    hide SendBytes;
  }

  lemma FinalsHear(cmds: seq<Command>, resolved: map<Token, Outcome>, wire: map<Id, Wire>, finals: map<Id, Ledger>,
                   a: Answers, b: Answers)
    requires FinalsLaw(cmds, resolved, wire, finals, a) && AnswersGrow(a, b)
    ensures FinalsLaw(cmds, resolved, wire, finals, b)
  {
    hide SendBytes;
  }

  lemma ResetsHear(cmds: seq<Command>, halves: map<Id, SendHalf>, wire: map<Id, Wire>, send: set<Id>,
                   origin: map<Id, seq<nat>>, undone: set<Id>, a: Answers, b: Answers)
    requires ResetsLaw(cmds, halves, wire, send, origin, undone, a) && AnswersGrow(a, b)
    ensures ResetsLaw(cmds, halves, wire, send, origin, undone, b)
  {
    hide ResetsOf;
  }

  lemma EarlyHears(e: Early, a: Answers, b: Answers, send: set<Id>, preset: set<Id>)
    requires EarlyLaw(e, a, send, preset) && AnswersGrow(a, b)
    requires forall id | id !in send :: StopsAt(b, id) == StopsAt(a, id)
    ensures EarlyLaw(e, b, send, preset)
  {
  }

  // ----- one more command -----

  lemma CmdsOn(asked: seq<Command>, cmds: seq<Command>, nextTok: Token, send: set<Id>, ended: set<Id>, c: Command,
               ended': set<Id>)
    requires CmdsLaw(asked, cmds, nextTok, send, ended) && cmds + [c] <= asked && ended <= ended'
    requires SendTarget(c).Some? ==> SendTarget(c).value in send
    requires EndsSend(c) ==> c.id in ended'
    ensures CmdsLaw(asked, cmds + [c], nextTok, send, ended')
  {
    hide CmdTok;
  }

  lemma AbsentOn(cmds: seq<Command>, keys: set<Id>, wire: map<Id, Wire>, ended: set<Id>, answers: Answers, c: Command,
                 ended': set<Id>)
    requires AbsentLaw(cmds, keys, wire, ended, answers) && ended <= ended'
    requires SendTarget(c).Some? ==> SendTarget(c).value in keys
    ensures AbsentLaw(cmds + [c], keys, wire, ended', answers)
  {
    forall id: Id | id !in keys && id !in ended' && !Refused(answers, id)
      ensures SendBytes(cmds + [c], id) == [] && At(wire, id).bytes == []
    {
      SendBytesOn(cmds, c, id);
    }
  }

  lemma FinalsOn(cmds: seq<Command>, resolved: map<Token, Outcome>, wire: map<Id, Wire>, finals: map<Id, Ledger>,
                 answers: Answers, c: Command)
    requires FinalsLaw(cmds, resolved, wire, finals, answers)
    requires SendTarget(c).Some? ==> SendTarget(c).value !in finals
    requires c.Finish? ==> c.done !in resolved || !resolved[c.done].Delivered?
    ensures FinalsLaw(cmds + [c], resolved, wire, finals, answers)
  {
    forall id | id in finals
      ensures FinalLaw(cmds + [c], id, At(wire, id), finals[id], answers)
    {
      assert FinalLaw(cmds, id, At(wire, id), finals[id], answers);
      SinceOn(cmds, c, finals[id].from);
      SendBytesOn(cmds[finals[id].from..], c, id);
    }
    hide FinalLaw;
  }

  lemma ResetsOfOn(cmds: seq<Command>, c: Command, id: Id, resets: seq<nat>, origin: seq<nat>)
    requires ResetsOf(cmds, id, resets, origin)
    ensures ResetsOf(cmds + [c], id, resets, origin)
  {
    if resets != origin {
      var i :| 0 <= i < |cmds| && cmds[i].Reset? && cmds[i].id == id && resets == origin + [cmds[i].code];
      assert (cmds + [c])[i] == cmds[i];
    }
  }

  lemma ResetsOn(cmds: seq<Command>, halves: map<Id, SendHalf>, wire: map<Id, Wire>, send: set<Id>,
                 origin: map<Id, seq<nat>>, undone: set<Id>, answers: Answers, c: Command)
    requires ResetsLaw(cmds, halves, wire, send, origin, undone, answers)
    requires c.Reset? && c.id !in undone ==> ResetServedBy(c, halves, wire, origin, answers)
    ensures ResetsLaw(cmds + [c], halves, wire, send, origin, undone, answers)
  {
    hide ResetServedBy;
    forall id | id in origin && id !in undone
      ensures ResetsOf(cmds + [c], id, At(wire, id).resets, origin[id])
    {
      ResetsOfOn(cmds, c, id, At(wire, id).resets, origin[id]);
    }
    hide ResetsOf;
  }

  lemma StopAskedOn(cmds: seq<Command>, c: Command, id: Id)
    requires StopAsked(cmds, id) || (c.StopSending? && c.id == id)
    ensures StopAsked(cmds + [c], id)
  {
    var cmds' := cmds + [c];
    if c.StopSending? && c.id == id {
      assert cmds'[|cmds|] == c;
    } else {
      var i :| 0 <= i < |cmds| && cmds[i].StopSending? && cmds[i].id == id;
      assert cmds'[i] == cmds[i];
    }
  }

  lemma RecvOn(recv: set<Id>, live: set<Id>, sealed: map<Id, RecvHalf>, undone: set<Id>,
               drains: map<Id, seq<Drain.Act>>, cmds: seq<Command>, c: Command)
    requires RecvLaw(recv, live, sealed, undone, drains, cmds)
    ensures RecvLaw(recv, live, sealed, undone, drains, cmds + [c])
  {
    forall id | id in sealed
      ensures LetGoLaw(id, sealed[id], LogAt(drains, id), cmds + [c])
    {
      if StopAsked(cmds, id) { StopAskedOn(cmds, c, id); }
      assert LetGoLaw(id, sealed[id], LogAt(drains, id), cmds);
    }
    hide StopAsked, Drain.Abandoned;
  }
}
