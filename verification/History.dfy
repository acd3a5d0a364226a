/** Where a run stands, what it may only add to, and the steps that keep both that and the laws. */
module History {
  import opened Base
  import opened Buffers
  import opened Queues
  import opened Transport
  import opened SendHalves
  import opened Registry
  import opened Invariants
  import opened Laws
  import Drain = RecvProtocol

  /**
   * The resets a stream's wire carried when it was handed out, the opens undone because nobody took the stream,
   * and the entry each delivered Finish belonged to.
   */
  datatype Marks = Marks(origin: map<Id, seq<nat>>, undone: set<Id>, finals: map<Id, Ledger>)

  /** Everything of the worker and its transport that a run only ever adds to. */
  datatype Snap = Snap(
    closes: seq<CloseFrame>,
    applied: seq<CloseFrame>,
    shutdowns: seq<Shutdown>,
    sent: seq<SendCall>,
    /** Commands submitted, and those of them applied. */
    asked: seq<Command>,
    cmds: seq<Command>,
    wire: map<Id, Wire>,
    answers: Answers,
    nextTok: Token,
    opens: set<Token>,
    resolved: map<Token, Outcome>,
    handed: Handed,
    past: Past,
    early: Early,
    marks: Marks,
    tx: SendSide,
    led: map<Id, Ledger>,
    births: nat,
    taken: map<Id, seq<Byte>>,
    /** Receive halves let go of, those live, and what was done to each. */
    sealed: map<Id, RecvHalf>,
    live: set<Id>,
    drains: map<Id, seq<Drain.Act>>,
    closed: bool)

  // ----- the laws, together -----

  ghost predicate Lawful(s: Snap) {
    && WireLaw(s.wire, s.handed.send, s.past.ended)
    && CmdsLaw(s.asked, s.cmds, s.nextTok, s.handed.send, s.past.ended)
    && EntriesLaw(s.cmds, s.tx.halves, s.led, s.past.ended, s.answers, s.closed)
    && AbsentLaw(s.cmds, s.tx.halves.Keys, s.wire, s.past.ended, s.answers)
    && FinalsLaw(s.cmds, s.resolved, s.wire, s.marks.finals, s.answers)
    && ResetsLaw(s.cmds, s.tx.halves, s.wire, s.handed.send, s.marks.origin, s.marks.undone, s.answers)
    && RecvLaw(s.handed.recv, s.live, s.sealed, s.marks.undone, s.drains, s.cmds)
    && UndoneLaw(s.marks.undone, s.handed.send, s.early.given.Keys, s.resolved, s.shutdowns)
    && EarlyLaw(s.early, s.answers, s.handed.send, s.past.preset)
  }

  // ----- what only grows -----

  ghost predicate WireGrows(a: map<Id, Wire>, b: map<Id, Wire>) {
    forall id: Id ::
      At(a, id).bytes <= At(b, id).bytes && At(a, id).fins <= At(b, id).fins && At(a, id).resets <= At(b, id).resets
  }

  /** A terminal never changes once set, and a finished half stays finished. */
  predicate Sticky(h: SendHalf, h': SendHalf) {
    (h.terminal.Some? ==> h'.terminal == h.terminal) && (h.finished ==> h'.finished)
  }

  predicate SameEntry(l: Ledger, l': Ledger) {
    l'.birth == l.birth && l'.base == l.base && l'.from == l.from
  }

  /** The same entry later: its terminal is sticky, and more may have been asked of it. */
  predicate Retained(h: SendHalf, l: Ledger, h': SendHalf, l': Ledger) {
    && SameEntry(l, l') && Sticky(h, h')
    && l.submitted <= l'.submitted && (l.finSubmitted ==> l'.finSubmitted)
  }

  /** An entry was born since, or is one of the earlier ones. */
  predicate BornSince(l: Ledger, id: Id, births: nat, led: map<Id, Ledger>, n: nat) {
    if l.birth < births then id in led && SameEntry(led[id], l) else n <= l.from
  }

  /** Every entry was born since, or is one of the earlier ones, kept; `n` commands had been applied then. */
  predicate HalvesGrow(births: nat, halves: map<Id, SendHalf>, led: map<Id, Ledger>, n: nat, births': nat,
                       halves': map<Id, SendHalf>, led': map<Id, Ledger>) {
    && births <= births'
    && (forall id | id in halves' && id in led' ::
          && led'[id].birth < births'
          && BornSince(led'[id], id, births, led, n)
          && (led'[id].birth < births ==> id in halves && Retained(halves[id], led[id], halves'[id], led'[id])))
  }

  /** A pending reset stays pending until it is made. */
  ghost predicate ResetsGrow(halves: map<Id, SendHalf>, wire: map<Id, Wire>, halves': map<Id, SendHalf>,
                             wire': map<Id, Wire>) {
    forall id | id in halves && halves[id].pendingReset.Some? ::
      || (&& id in halves' && halves'[id].pendingReset == halves[id].pendingReset
          && At(wire', id).resets == At(wire, id).resets)
      || At(wire, id).resets + [halves[id].pendingReset.value] <= At(wire', id).resets
  }

  /** Every stream's reads go on from where they were, and a receive half let go of never changes. */
  ghost predicate ReadsGrow(taken: map<Id, seq<Byte>>, sealed: map<Id, RecvHalf>, drains: map<Id, seq<Drain.Act>>,
                            taken': map<Id, seq<Byte>>, sealed': map<Id, RecvHalf>, drains': map<Id, seq<Drain.Act>>) {
    && (forall id: Id :: TakenAt(taken, id) <= TakenAt(taken', id) && LogAt(drains, id) <= LogAt(drains', id))
    && (forall id | id in sealed :: id in sealed' && sealed'[id] == sealed[id])
  }

  /** The stream was shut down on the read side since. */
  predicate TornSince(down: seq<Shutdown>, down': seq<Shutdown>, id: Id) {
    down <= down' && Shutdown(id, ReadSide, H3_NO_ERROR) in down'[|down|..]
  }

  /** What a handle was given stays; a stop code seen stays unless its stream, not handed out, was torn down. */
  ghost predicate EarlyGrows(e: Early, down: seq<Shutdown>, send: set<Id>, e': Early, down': seq<Shutdown>) {
    && (forall id | id in e.given :: id in e'.given && e'.given[id] == e.given[id])
    && (forall id | id in e.seen :: (id in e'.seen && e'.seen[id] == e.seen[id]) || TornSince(down, down', id))
    && (forall id: Id :: FromAt(e', id) == FromAt(e, id) || (id !in send && TornSince(down, down', id)))
  }

  /** Marks stay; an open is undone with its cancellation, and a Finish is delivered on an entry of the run. */
  ghost predicate MarksGrow(m: Marks, wire: map<Id, Wire>, down: seq<Shutdown>, births: nat, led: map<Id, Ledger>,
                            n: nat, m': Marks, down': seq<Shutdown>) {
    && (forall id | id in m.origin :: id in m'.origin && m'.origin[id] == m.origin[id])
    && (forall id | id in m'.origin && id !in m.origin :: At(wire, id).resets <= m'.origin[id])
    && m.undone <= m'.undone && down <= down'
    && (forall id | id in m'.undone && id !in m.undone ::
          Shutdown(id, WriteSide, H3_REQUEST_CANCELLED) in down'[|down|..])
    && (forall id | id in m.finals :: id in m'.finals && m'.finals[id] == m.finals[id])
    && (forall id | id in m'.finals && id !in m.finals :: BornSince(m'.finals[id], id, births, led, n))
  }

  ghost predicate TokensGrow(nextTok: Token, opens: set<Token>, nextTok': Token, opens': set<Token>) {
    nextTok <= nextTok' && forall tok: Token | tok < nextTok :: tok in opens <==> tok in opens'
  }

  /** No log is cut or rewritten, no wire is taken back, no token, handle, end, answer or completion is undone. */
  ghost predicate Grows(a: Snap, b: Snap) {
    && a.closes <= b.closes && a.applied <= b.applied && a.shutdowns <= b.shutdowns && a.sent <= b.sent
    && a.asked <= b.asked && a.cmds <= b.cmds && (a.closed ==> b.closed) && a.tx.halves.Keys == a.led.Keys
    && WireGrows(a.wire, b.wire)
    && AnswersGrow(a.answers, b.answers)
    && TokensGrow(a.nextTok, a.opens, b.nextTok, b.opens)
    && Extends(a.resolved, b.resolved)
    && a.handed.send <= b.handed.send && a.handed.recv <= b.handed.recv
    && a.past.preset <= b.past.preset && a.past.ended <= b.past.ended
    && EarlyGrows(a.early, a.shutdowns, a.handed.send, b.early, b.shutdowns)
    && MarksGrow(a.marks, a.wire, a.shutdowns, a.births, a.led, |a.cmds|, b.marks, b.shutdowns)
    && HalvesGrow(a.births, a.tx.halves, a.led, |a.cmds|, b.births, b.tx.halves, b.led)
    && QueueGrows(a.tx, b.tx.steps, b.tx.run, b.tx.runSet)
    && ResetsGrow(a.tx.halves, a.wire, b.tx.halves, b.wire)
    && ReadsGrow(a.taken, a.sealed, a.drains, b.taken, b.sealed, b.drains)
  }

  /** A run measured from `base` stands at `s`, and everything in it is lawful. */
  ghost predicate Runs(base: Snap, s: Snap) {
    Grows(base, s) && Lawful(s)
  }

  // ----- transitivity -----

  lemma WireGrowsTrans(a: map<Id, Wire>, b: map<Id, Wire>, c: map<Id, Wire>)
    requires WireGrows(a, b) && WireGrows(b, c)
    ensures WireGrows(a, c)
  {
    forall id: Id
      ensures At(a, id).bytes <= At(c, id).bytes && At(a, id).fins <= At(c, id).fins
      ensures At(a, id).resets <= At(c, id).resets
    {
      assert At(a, id).bytes <= At(b, id).bytes <= At(c, id).bytes;
    }
  }

  lemma HalvesGrowTrans(a: Snap, b: Snap, c: Snap)
    requires HalvesGrow(a.births, a.tx.halves, a.led, |a.cmds|, b.births, b.tx.halves, b.led)
    requires HalvesGrow(b.births, b.tx.halves, b.led, |b.cmds|, c.births, c.tx.halves, c.led)
    requires |a.cmds| <= |b.cmds| && b.tx.halves.Keys == b.led.Keys
    ensures HalvesGrow(a.births, a.tx.halves, a.led, |a.cmds|, c.births, c.tx.halves, c.led)
  {
  }

  lemma ResetsGrowTrans(a: Snap, b: Snap, c: Snap)
    requires ResetsGrow(a.tx.halves, a.wire, b.tx.halves, b.wire)
    requires ResetsGrow(b.tx.halves, b.wire, c.tx.halves, c.wire) && WireGrows(b.wire, c.wire)
    ensures ResetsGrow(a.tx.halves, a.wire, c.tx.halves, c.wire)
  {
    forall id | id in a.tx.halves && a.tx.halves[id].pendingReset.Some?
      ensures || (&& id in c.tx.halves && c.tx.halves[id].pendingReset == a.tx.halves[id].pendingReset
                  && At(c.wire, id).resets == At(a.wire, id).resets)
              || At(a.wire, id).resets + [a.tx.halves[id].pendingReset.value] <= At(c.wire, id).resets
    {
      assert At(b.wire, id).resets <= At(c.wire, id).resets;
    }
  }

  lemma ReadsGrowTrans(a: Snap, b: Snap, c: Snap)
    requires ReadsGrow(a.taken, a.sealed, a.drains, b.taken, b.sealed, b.drains)
    requires ReadsGrow(b.taken, b.sealed, b.drains, c.taken, c.sealed, c.drains)
    ensures ReadsGrow(a.taken, a.sealed, a.drains, c.taken, c.sealed, c.drains)
  {
    forall id: Id
      ensures TakenAt(a.taken, id) <= TakenAt(c.taken, id) && LogAt(a.drains, id) <= LogAt(c.drains, id)
    {
      assert TakenAt(a.taken, id) <= TakenAt(b.taken, id) <= TakenAt(c.taken, id);
      assert LogAt(a.drains, id) <= LogAt(b.drains, id) <= LogAt(c.drains, id);
    }
  }

  lemma TornOn(down: seq<Shutdown>, mid: seq<Shutdown>, down': seq<Shutdown>, s: Shutdown)
    requires down <= mid <= down' && (s in mid[|down|..] || s in down'[|mid|..])
    ensures s in down'[|down|..]
  {
    assert down'[|down|..] == mid[|down|..] + down'[|mid|..];
  }

  lemma EarlyGrowsTrans(a: Snap, b: Snap, c: Snap)
    requires EarlyGrows(a.early, a.shutdowns, a.handed.send, b.early, b.shutdowns) && a.shutdowns <= b.shutdowns
    requires EarlyGrows(b.early, b.shutdowns, b.handed.send, c.early, c.shutdowns) && b.shutdowns <= c.shutdowns
    requires a.handed.send <= b.handed.send
    ensures EarlyGrows(a.early, a.shutdowns, a.handed.send, c.early, c.shutdowns)
  {
    forall id: Id | TornSince(a.shutdowns, b.shutdowns, id) || TornSince(b.shutdowns, c.shutdowns, id)
      ensures TornSince(a.shutdowns, c.shutdowns, id)
    {
      TornOn(a.shutdowns, b.shutdowns, c.shutdowns, Shutdown(id, ReadSide, H3_NO_ERROR));
    }
    hide TornSince;
  }

  lemma MarksGrowTrans(a: Snap, b: Snap, c: Snap)
    requires MarksGrow(a.marks, a.wire, a.shutdowns, a.births, a.led, |a.cmds|, b.marks, b.shutdowns)
    requires MarksGrow(b.marks, b.wire, b.shutdowns, b.births, b.led, |b.cmds|, c.marks, c.shutdowns)
    requires WireGrows(a.wire, b.wire) && |a.cmds| <= |b.cmds| && b.tx.halves.Keys == b.led.Keys
    requires HalvesGrow(a.births, a.tx.halves, a.led, |a.cmds|, b.births, b.tx.halves, b.led)
    ensures MarksGrow(a.marks, a.wire, a.shutdowns, a.births, a.led, |a.cmds|, c.marks, c.shutdowns)
  {
    forall id | id in c.marks.undone && id !in a.marks.undone
      ensures Shutdown(id, WriteSide, H3_REQUEST_CANCELLED) in c.shutdowns[|a.shutdowns|..]
    {
      TornOn(a.shutdowns, b.shutdowns, c.shutdowns, Shutdown(id, WriteSide, H3_REQUEST_CANCELLED));
    }
    forall id | id in c.marks.origin && id !in a.marks.origin
      ensures At(a.wire, id).resets <= c.marks.origin[id]
    {
      assert At(a.wire, id).resets <= At(b.wire, id).resets;
    }
  }

  lemma TokensGrowTrans(a: Snap, b: Snap, c: Snap)
    requires TokensGrow(a.nextTok, a.opens, b.nextTok, b.opens) && TokensGrow(b.nextTok, b.opens, c.nextTok, c.opens)
    ensures TokensGrow(a.nextTok, a.opens, c.nextTok, c.opens)
  {
  }

  lemma GrowsTrans(a: Snap, b: Snap, c: Snap)
    requires Grows(a, b) && Grows(b, c)
    ensures Grows(a, c)
  {
    hide WireGrows, AnswersGrow, TokensGrow, HalvesGrow, QueueGrows, ResetsGrow, ReadsGrow, EarlyGrows, MarksGrow;
    hide Extends;
    WireGrowsTrans(a.wire, b.wire, c.wire);
    AnswersGrowTrans(a.answers, b.answers, c.answers);
    TokensGrowTrans(a, b, c);
    HalvesGrowTrans(a, b, c);
    QueueGrowsTrans(a.tx, b.tx, c.tx);
    ResetsGrowTrans(a, b, c);
    ReadsGrowTrans(a, b, c);
    EarlyGrowsTrans(a, b, c);
    MarksGrowTrans(a, b, c);
    ExtendsTrans(a.resolved, b.resolved, c.resolved);
  }

  lemma GrowsSelf(base: Snap, a: Snap)
    requires Grows(base, a) && a.tx.halves.Keys == a.led.Keys
    ensures Grows(a, a)
  {
    assert HalvesGrow(a.births, a.tx.halves, a.led, |a.cmds|, a.births, a.tx.halves, a.led);
    hide HalvesGrow;
    assert QueueGrows(a.tx, a.tx.steps, a.tx.run, a.tx.runSet);
    hide QueueGrows;
    assert WireGrows(a.wire, a.wire) && AnswersGrow(a.answers, a.answers) && Extends(a.resolved, a.resolved);
    hide WireGrows, AnswersGrow, Extends;
  }

  // ----- entries, as a run adds to them -----

  lemma HalvesPut(births: nat, halves: map<Id, SendHalf>, led: map<Id, Ledger>, n: nat, births': nat,
                  halves': map<Id, SendHalf>, led': map<Id, Ledger>, id: Id, h: SendHalf, l: Ledger)
    requires HalvesGrow(births, halves, led, n, births', halves', led')
    requires id in halves' && id in led' && Retained(halves'[id], led'[id], h, l)
    ensures HalvesGrow(births, halves, led, n, births', halves'[id := h], led'[id := l])
  {
  }

  lemma HalvesBorn(births: nat, halves: map<Id, SendHalf>, led: map<Id, Ledger>, n: nat, births': nat,
                   halves': map<Id, SendHalf>, led': map<Id, Ledger>, id: Id, h: SendHalf, l: Ledger)
    requires HalvesGrow(births, halves, led, n, births', halves', led') && l.birth == births' && n <= l.from
    ensures HalvesGrow(births, halves, led, n, births' + 1, halves'[id := h], led'[id := l])
  {
  }

  lemma HalvesDrop(births: nat, halves: map<Id, SendHalf>, led: map<Id, Ledger>, n: nat, births': nat,
                   halves': map<Id, SendHalf>, led': map<Id, Ledger>, id: Id)
    requires HalvesGrow(births, halves, led, n, births', halves', led')
    ensures HalvesGrow(births, halves, led, n, births', halves' - {id}, led' - {id})
  {
  }

  lemma ResetsPut(halves: map<Id, SendHalf>, wire: map<Id, Wire>, halves': map<Id, SendHalf>, wire': map<Id, Wire>,
                  id: Id, h: SendHalf)
    requires ResetsGrow(halves, wire, halves', wire')
    requires id in halves' && halves'[id].pendingReset.Some? ==> h.pendingReset == halves'[id].pendingReset
    ensures ResetsGrow(halves, wire, halves'[id := h], wire')
  {
  }

  lemma ResetsDrop(halves: map<Id, SendHalf>, wire: map<Id, Wire>, halves': map<Id, SendHalf>, wire': map<Id, Wire>,
                   id: Id)
    requires ResetsGrow(halves, wire, halves', wire') && (id in halves' ==> halves'[id].pendingReset.None?)
    ensures ResetsGrow(halves, wire, halves' - {id}, wire')
  {
  }

  lemma ResetsSame(halves: map<Id, SendHalf>, wire: map<Id, Wire>, halves': map<Id, SendHalf>, wire': map<Id, Wire>,
                   id: Id, w: Wire)
    requires ResetsGrow(halves, wire, halves', wire')
    requires w.resets == At(wire', id).resets || (id !in halves' && At(wire', id).resets <= w.resets)
    ensures ResetsGrow(halves, wire, halves', wire'[id := w])
  {
  }

  lemma ResetsMake(halves: map<Id, SendHalf>, wire: map<Id, Wire>, halves': map<Id, SendHalf>, wire': map<Id, Wire>,
                   id: Id, h: SendHalf, w: Wire)
    requires ResetsGrow(halves, wire, halves', wire') && id in halves' && halves'[id].pendingReset.Some?
    requires w.resets == At(wire', id).resets + [halves'[id].pendingReset.value]
    ensures ResetsGrow(halves, wire, halves'[id := h], wire'[id := w])
  {
  }

  // ----- the steps of a run -----

  /** The run queue takes one step. */
  lemma MoveStep(base: Snap, s: Snap, st: QueueStep)
    requires Runs(base, s) && Possible(s.tx, st)
    ensures Runs(base, s.(tx := QueueNext(s.tx, st)))
  {
    hide WireGrows, AnswersGrow, TokensGrow, HalvesGrow, QueueGrows, ResetsGrow, ReadsGrow, EarlyGrows, MarksGrow;
    hide Extends;
    hide WireLaw, CmdsLaw, EntriesLaw, AbsentLaw, FinalsLaw, ResetsLaw, RecvLaw, UndoneLaw, EarlyLaw;
    QueueMoves(base.tx, s.tx, st);
    assert QueueNext(s.tx, st).halves == s.tx.halves;
  }

  /** A half sends some of what it has left: its operations come from the same commands. */
  lemma ShrinkStep(base: Snap, s: Snap, id: Id, h: SendHalf)
    requires Runs(base, s) && id in s.tx.halves && id in s.led
    requires h == s.tx.halves[id].(ops := h.ops, held := h.held) && |h.ops| == |s.tx.halves[id].ops|
    requires forall k :: 0 <= k < |h.ops| ==>
               h.ops[k].done == s.tx.halves[id].ops[k].done && (h.ops[k].WriteOp? <==> s.tx.halves[id].ops[k].WriteOp?)
    ensures Runs(base, s.(tx := PutHalf(s.tx, id, h)))
  {
    hide WireGrows, AnswersGrow, TokensGrow, HalvesGrow, QueueGrows, ResetsGrow, ReadsGrow, EarlyGrows, MarksGrow;
    hide Extends;
    hide WireLaw, CmdsLaw, EntriesLaw, AbsentLaw, FinalsLaw, ResetsLaw, RecvLaw, UndoneLaw, EarlyLaw;
    var h0 := s.tx.halves[id];
    LawOf(s, id);
    assert EntryLaw(s.cmds, id, h, s.led[id], id in s.past.ended, s.answers, s.closed) by {
      hide SendBytes, HasFinish;
      forall k | 0 <= k < |h.ops|
        ensures Caused(s.cmds, id, h.ops[k])
      {
        assert Caused(s.cmds, id, h0.ops[k]);
        var i :| 0 <= i < |s.cmds| && Starts(s.cmds[i], id, h0.ops[k]);
        assert Starts(s.cmds[i], id, h.ops[k]);
      }
    }
    PutKeeps(base, s, id, h);
  }

  lemma LawOf(s: Snap, id: Id)
    requires Lawful(s) && id in s.tx.halves && id in s.led
    ensures EntryLaw(s.cmds, id, s.tx.halves[id], s.led[id], id in s.past.ended, s.answers, s.closed)
  {
    hide EntryLaw;
  }

  lemma BaseHasNoFin(s: Snap, id: Id)
    requires Lawful(s) && id in s.tx.halves && id in s.led
    ensures s.led[id].base.fins == 0
  {
    hide Lawful;
    LawOf(s, id);
  }

  /** One entry moves on as its law allows. */
  lemma PutKeeps(base: Snap, s: Snap, id: Id, h: SendHalf)
    requires Runs(base, s) && id in s.tx.halves && id in s.led && Sticky(s.tx.halves[id], h)
    requires h.pendingReset == s.tx.halves[id].pendingReset
    requires EntryLaw(s.cmds, id, h, s.led[id], id in s.past.ended, s.answers, s.closed)
    ensures Runs(base, s.(tx := PutHalf(s.tx, id, h)))
  {
    hide WireGrows, AnswersGrow, TokensGrow, HalvesGrow, QueueGrows, ResetsGrow, ReadsGrow, EarlyGrows, MarksGrow;
    hide Extends;
    hide WireLaw, CmdsLaw, EntriesLaw, AbsentLaw, FinalsLaw, ResetsLaw, RecvLaw, UndoneLaw, EarlyLaw;
    hide EntryLaw;
    var l := s.led[id];
    assert s.led[id := l] == s.led && s.cmds + [] == s.cmds;
    EntriesPut(s.cmds, [], s.tx.halves, s.led, s.past.ended, s.past.ended, s.answers, s.closed, id, h, l);
    HalvesPut(base.births, base.tx.halves, base.led, |base.cmds|, s.births, s.tx.halves, s.led, id, h, l);
    ResetsPut(base.tx.halves, base.wire, s.tx.halves, s.wire, id, h);
    ResetsLawPut(s.cmds, s.tx.halves, s.wire, s.handed.send, s.marks.origin, s.marks.undone, s.answers, id, h);
    assert s.tx.halves[id := h].Keys == s.tx.halves.Keys;
  }

  lemma ResetsLawPut(cmds: seq<Command>, halves: map<Id, SendHalf>, wire: map<Id, Wire>, send: set<Id>,
                     origin: map<Id, seq<nat>>, undone: set<Id>, answers: Answers, id: Id, h: SendHalf)
    requires ResetsLaw(cmds, halves, wire, send, origin, undone, answers)
    requires if id in halves then h.pendingReset == halves[id].pendingReset else h.pendingReset.None?
    ensures ResetsLaw(cmds, halves[id := h], wire, send, origin, undone, answers)
  {
    hide ResetsOf;
  }

  // ----- completions -----

  /** Resolving tokens without delivering anything breaks no promise. */
  lemma NothingDelivered(cmds: seq<Command>, resolved: map<Token, Outcome>, resolved': map<Token, Outcome>,
                         wire: map<Id, Wire>, finals: map<Id, Ledger>, answers: Answers, undone: set<Id>,
                         send: set<Id>, given: set<Id>, shutdowns: seq<Shutdown>)
    requires FinalsLaw(cmds, resolved, wire, finals, answers) && UndoneLaw(undone, send, given, resolved, shutdowns)
    requires Extends(resolved, resolved')
    requires forall tok | tok in resolved' && tok !in resolved ::
               !resolved'[tok].Delivered? &&
               (resolved'[tok].Opened? ==> resolved'[tok].id in send && resolved'[tok].id !in undone)
    ensures FinalsLaw(cmds, resolved', wire, finals, answers) && UndoneLaw(undone, send, given, resolved', shutdowns)
  {
    hide FinalLaw;
  }

  lemma SettleStep(base: Snap, s: Snap, tok: Token, out: Outcome)
    requires Runs(base, s) && tok !in s.resolved && !out.Delivered?
    requires out.Opened? ==> out.id in s.handed.send && out.id !in s.marks.undone
    ensures Runs(base, s.(resolved := s.resolved[tok := out]))
  {
    hide WireGrows, AnswersGrow, TokensGrow, HalvesGrow, QueueGrows, ResetsGrow, ReadsGrow, EarlyGrows, MarksGrow;
    hide Extends;
    hide WireLaw, CmdsLaw, EntriesLaw, AbsentLaw, FinalsLaw, ResetsLaw, RecvLaw, UndoneLaw, EarlyLaw;
    var resolved := s.resolved[tok := out];
    ExtendsOne(base.resolved, s.resolved, tok, out);
    ExtendsSelf(s.resolved);
    ExtendsOne(s.resolved, s.resolved, tok, out);
    NothingDelivered(s.cmds, s.resolved, resolved, s.wire, s.marks.finals, s.answers, s.marks.undone, s.handed.send,
                     s.early.given.Keys, s.shutdowns);
  }

  lemma ExtendsOne(a: map<Token, Outcome>, b: map<Token, Outcome>, tok: Token, out: Outcome)
    requires Extends(a, b) && tok !in b
    ensures Extends(a, b[tok := out])
  {
  }

  /** The token of a queued write is no Finish's. */
  lemma WritesAreNotFinishes(s: Snap, id: Id, op: Op)
    requires CmdsLaw(s.asked, s.cmds, s.nextTok, s.handed.send, s.past.ended) && Caused(s.cmds, id, op)
    ensures forall i :: 0 <= i < |s.cmds| && s.cmds[i].Finish? && s.cmds[i].done == op.done ==>
              op.FinishOp? && s.cmds[i].id == id
  {
    var k :| 0 <= k < |s.cmds| && Starts(s.cmds[k], id, op);
    forall i | 0 <= i < |s.cmds| && s.cmds[i].Finish? && s.cmds[i].done == op.done
      ensures op.FinishOp? && s.cmds[i].id == id
    {
      assert s.asked[i] == s.cmds[i] && s.asked[k] == s.cmds[k];
      assert CmdTok(s.asked[i]) == Some(op.done) && CmdTok(s.asked[k]) == Some(op.done);
    }
  }

  /** The head write of a half is delivered. */
  lemma CompleteStep(base: Snap, s: Snap, id: Id, h: SendHalf)
    requires Runs(base, s) && id in s.tx.halves && id in s.led
    requires s.tx.halves[id].ops != [] && s.tx.halves[id].ops[0].WriteOp?
    requires h == s.tx.halves[id].(ops := s.tx.halves[id].ops[1..], held := h.held)
    requires s.tx.halves[id].ops[0].done !in s.resolved
    ensures Runs(base, s.(tx := PutHalf(s.tx, id, h), resolved := s.resolved[s.tx.halves[id].ops[0].done := Delivered]))
  {
    hide WireGrows, AnswersGrow, TokensGrow, HalvesGrow, QueueGrows, ResetsGrow, ReadsGrow, EarlyGrows, MarksGrow;
    hide Extends;
    hide WireLaw, CmdsLaw, EntriesLaw, AbsentLaw, FinalsLaw, ResetsLaw, RecvLaw, UndoneLaw, EarlyLaw;
    var op := s.tx.halves[id].ops[0];
    LawOf(s, id);
    assert EntryLaw(s.cmds, id, h, s.led[id], id in s.past.ended, s.answers, s.closed) by {
      hide SendBytes, HasFinish, Caused;
    }
    PutKeeps(base, s, id, h);
    WritesAreNotFinishes(s, id, op);
    DeliveredWrite(s.cmds, s.resolved, s.wire, s.marks.finals, s.answers, op.done);
    ExtendsOne(base.resolved, s.resolved, op.done, Delivered);
    UndoneSettled(s.marks.undone, s.handed.send, s.early.given.Keys, s.resolved, s.shutdowns, op.done);
  }

  lemma DeliveredWrite(cmds: seq<Command>, resolved: map<Token, Outcome>, wire: map<Id, Wire>, finals: map<Id, Ledger>,
                       answers: Answers, tok: Token)
    requires FinalsLaw(cmds, resolved, wire, finals, answers)
    requires forall i :: 0 <= i < |cmds| && cmds[i].Finish? && cmds[i].done == tok ==> cmds[i].id in finals
    ensures FinalsLaw(cmds, resolved[tok := Delivered], wire, finals, answers)
  {
    hide FinalLaw;
  }

  lemma UndoneSettled(undone: set<Id>, send: set<Id>, given: set<Id>, resolved: map<Token, Outcome>,
                      shutdowns: seq<Shutdown>, tok: Token)
    requires UndoneLaw(undone, send, given, resolved, shutdowns)
    ensures UndoneLaw(undone, send, given, resolved[tok := Delivered], shutdowns)
  {
  }

  /** A Finish is delivered: its FIN, and every byte asked of the entry, are on the wire. */
  lemma FinishStep(base: Snap, s: Snap, id: Id, done: Token)
    requires Runs(base, s) && id in s.tx.halves && id in s.led && id !in s.marks.finals
    requires s.tx.halves[id].ops == [FinishOp(done)] && s.tx.halves[id].terminal.None? && done !in s.resolved
    requires s.tx.halves[id].pendingReset.None?
    requires At(s.wire, id).fins == s.led[id].base.fins + 1
    requires At(s.wire, id).bytes == s.led[id].base.bytes + s.led[id].submitted
    ensures var h := s.tx.halves[id].(ops := [], finished := true);
            Runs(base, s.(tx := PutHalf(s.tx, id, h), resolved := s.resolved[done := Delivered],
                          marks := s.marks.(finals := s.marks.finals[id := s.led[id]])))
  {
    hide WireGrows, AnswersGrow, TokensGrow, HalvesGrow, QueueGrows, ResetsGrow, ReadsGrow, EarlyGrows, MarksGrow;
    hide Extends;
    hide WireLaw, CmdsLaw, EntriesLaw, AbsentLaw, FinalsLaw, ResetsLaw, RecvLaw, UndoneLaw, EarlyLaw;
    var h, l := s.tx.halves[id].(ops := [], finished := true), s.led[id];
    LawOf(s, id);
    assert At(s.wire, id).fins == 1 by { hide SendBytes, HasFinish, Caused; }
    FinMeansEnded(s, id);
    assert EntryLaw(s.cmds, id, h, l, id in s.past.ended, s.answers, s.closed) by {
      hide SendBytes, HasFinish, Caused;
    }
    PutKeeps(base, s, id, h);
    assert Caused(s.cmds, id, s.tx.halves[id].ops[0]) by { hide SendBytes, HasFinish, Caused; }
    WritesAreNotFinishes(s, id, FinishOp(done));
    assert FinalLaw(s.cmds, id, At(s.wire, id), l, s.answers) by { hide SendBytes, HasFinish, Caused; }
    FinalAdded(s.cmds, s.resolved, s.wire, s.marks.finals, s.answers, id, l);
    DeliveredWrite(s.cmds, s.resolved, s.wire, s.marks.finals[id := l], s.answers, done);
    ExtendsOne(base.resolved, s.resolved, done, Delivered);
    UndoneSettled(s.marks.undone, s.handed.send, s.early.given.Keys, s.resolved, s.shutdowns, done);
    MarksFinal(base, s, id);
  }

  lemma FinMeansEnded(s: Snap, id: Id)
    requires Lawful(s) && At(s.wire, id).fins == 1
    ensures id in s.past.ended
  {
    hide EntriesLaw, AbsentLaw, FinalsLaw, ResetsLaw, RecvLaw, UndoneLaw, EarlyLaw, CmdsLaw;
  }

  lemma FinalAdded(cmds: seq<Command>, resolved: map<Token, Outcome>, wire: map<Id, Wire>, finals: map<Id, Ledger>,
                   answers: Answers, id: Id, l: Ledger)
    requires FinalsLaw(cmds, resolved, wire, finals, answers) && FinalLaw(cmds, id, At(wire, id), l, answers)
    ensures FinalsLaw(cmds, resolved, wire, finals[id := l], answers)
  {
    hide FinalLaw;
  }

  lemma MarksFinal(base: Snap, s: Snap, id: Id)
    requires id in s.tx.halves && id in s.led && id !in s.marks.finals
    requires MarksGrow(base.marks, base.wire, base.shutdowns, base.births, base.led, |base.cmds|, s.marks, s.shutdowns)
    requires HalvesGrow(base.births, base.tx.halves, base.led, |base.cmds|, s.births, s.tx.halves, s.led)
    ensures MarksGrow(base.marks, base.wire, base.shutdowns, base.births, base.led, |base.cmds|,
                      s.marks.(finals := s.marks.finals[id := s.led[id]]), s.shutdowns)
  {
    hide BornSince;
  }

  /** A half gets its terminal, for a reason, and everything queued on it fails. */
  lemma EndHalf(base: Snap, s: Snap, id: Id, h: SendHalf, end: SendEnd)
    requires Runs(base, s) && id in s.tx.halves && id in s.led
    requires h == Terminated(s.tx.halves[id], end).(finished := h.finished) && (s.tx.halves[id].finished ==> h.finished)
    requires s.tx.halves[id].terminal.None? ==> Reason(s.cmds, id, end, s.answers, s.closed)
    requires h.finished && !s.tx.halves[id].finished ==> Refused(s.answers, id)
    requires Extends(s.resolved, s.resolved + FailAll(s.tx.halves[id].ops, h.terminal.value))
    ensures Runs(base, s.(tx := PutHalf(s.tx, id, h),
                          resolved := s.resolved + FailAll(s.tx.halves[id].ops, h.terminal.value)))
  {
    hide WireGrows, AnswersGrow, TokensGrow, HalvesGrow, QueueGrows, ResetsGrow, ReadsGrow, EarlyGrows, MarksGrow;
    hide Extends;
    hide WireLaw, CmdsLaw, EntriesLaw, AbsentLaw, FinalsLaw, ResetsLaw, RecvLaw, UndoneLaw, EarlyLaw;
    var resolved := s.resolved + FailAll(s.tx.halves[id].ops, h.terminal.value);
    LawOf(s, id);
    assert EntryLaw(s.cmds, id, h, s.led[id], id in s.past.ended, s.answers, s.closed) by {
      hide SendBytes, HasFinish, Caused;
    }
    PutKeeps(base, s, id, h);
    ExtendsTrans(base.resolved, s.resolved, resolved);
    NothingDelivered(s.cmds, s.resolved, resolved, s.wire, s.marks.finals, s.answers, s.marks.undone, s.handed.send,
                     s.early.given.Keys, s.shutdowns);
  }

  /** A terminal edge of the transport's making: the half also leaves the run queue. */
  lemma TerminateStep(base: Snap, s: Snap, id: Id, end: SendEnd)
    requires Runs(base, s) && id in s.tx.halves && id in s.led && !end.LocalReset?
    requires Reason(s.cmds, id, end, s.answers, false)
    ensures var h := Terminated(s.tx.halves[id], end).(finished := true);
            var resolved := s.resolved + FailAll(s.tx.halves[id].ops, h.terminal.value);
            Extends(s.resolved, resolved) ==>
              Runs(base, s.(tx := DropRun(PutHalf(s.tx, id, h), id), resolved := resolved))
  {
    hide Runs;
    var h := Terminated(s.tx.halves[id], end).(finished := true);
    var resolved := s.resolved + FailAll(s.tx.halves[id].ops, h.terminal.value);
    if Extends(s.resolved, resolved) {
      hide Extends;
      EndHalf(base, s, id, h, end);
      MoveStep(base, s.(tx := PutHalf(s.tx, id, h), resolved := resolved), Evicted(id));
    }
  }

  // ----- commands -----

  /** A stream that has not ended was delivered no Finish, and no Finish or Reset of it was applied. */
  lemma NotEndedYet(s: Snap, id: Id)
    requires Lawful(s) && id !in s.past.ended
    ensures id !in s.marks.finals && At(s.wire, id).fins == 0
    ensures forall i :: 0 <= i < |s.cmds| && EndsSend(s.cmds[i]) ==> s.cmds[i].id != id
    ensures id in s.marks.origin && id !in s.marks.undone ==> At(s.wire, id).resets == s.marks.origin[id]
  {
    hide EntriesLaw, AbsentLaw, RecvLaw, UndoneLaw, EarlyLaw, SendBytes;
    assert id in s.marks.origin && id !in s.marks.undone ==>
        ResetsOf(s.cmds, id, At(s.wire, id).resets, s.marks.origin[id]);
  }

  /** A command for no send half is applied. */
  lemma CmdStep(base: Snap, s: Snap, c: Command)
    requires Runs(base, s) && s.cmds + [c] <= s.asked && SendTarget(c).None?
    ensures Runs(base, s.(cmds := s.cmds + [c]))
  {
    hide WireGrows, AnswersGrow, TokensGrow, HalvesGrow, QueueGrows, ResetsGrow, ReadsGrow, EarlyGrows, MarksGrow;
    hide Extends;
    hide WireLaw, CmdsLaw, EntriesLaw, AbsentLaw, FinalsLaw, ResetsLaw, RecvLaw, UndoneLaw, EarlyLaw;
    CmdsOn(s.asked, s.cmds, s.nextTok, s.handed.send, s.past.ended, c, s.past.ended);
    EntriesOn(s.cmds, c, s.tx.halves, s.led, s.past.ended, s.answers, s.closed);
    AbsentOn(s.cmds, s.tx.halves.Keys, s.wire, s.past.ended, s.answers, c, s.past.ended);
    FinalsOn(s.cmds, s.resolved, s.wire, s.marks.finals, s.answers, c);
    ResetsOn(s.cmds, s.tx.halves, s.wire, s.handed.send, s.marks.origin, s.marks.undone, s.answers, c);
    RecvOn(s.handed.recv, s.live, s.sealed, s.marks.undone, s.drains, s.cmds, c);
  }

  /** A command for the send half `id` is applied, and its entry follows its law. */
  lemma ApplyKeeps(base: Snap, s: Snap, id: Id, c: Command, h: SendHalf, l: Ledger, ended: set<Id>)
    requires Runs(base, s) && s.cmds + [c] <= s.asked && SendTarget(c) == Some(id) && id in s.handed.send
    requires id in s.tx.halves && id in s.led && id !in s.past.ended && s.past.ended <= ended
    requires EndsSend(c) ==> id in ended
    requires c.Finish? ==> c.done !in s.resolved
    requires Retained(s.tx.halves[id], s.led[id], h, l)
    requires h.pendingReset == s.tx.halves[id].pendingReset || (c.Reset? && h.pendingReset == Some(c.code))
    requires s.tx.halves[id].pendingReset.Some? ==> h.pendingReset == s.tx.halves[id].pendingReset
    requires c.Reset? && id !in s.marks.undone ==> Refused(s.answers, id) || h.pendingReset == Some(c.code)
    requires EntryLaw(s.cmds + [c], id, h, l, id in ended, s.answers, s.closed)
    ensures Runs(base, s.(cmds := s.cmds + [c], tx := PutHalf(s.tx, id, h), led := s.led[id := l],
                          past := s.past.(ended := ended)))
  {
    hide WireGrows, AnswersGrow, TokensGrow, HalvesGrow, QueueGrows, ResetsGrow, ReadsGrow, EarlyGrows, MarksGrow;
    hide Extends;
    hide WireLaw, CmdsLaw, EntriesLaw, AbsentLaw, FinalsLaw, ResetsLaw, RecvLaw, UndoneLaw, EarlyLaw;
    hide EntryLaw, Retained;
    NotEndedYet(s, id);
    CmdsOn(s.asked, s.cmds, s.nextTok, s.handed.send, s.past.ended, c, ended);
    EntriesPut(s.cmds, [c], s.tx.halves, s.led, s.past.ended, ended, s.answers, s.closed, id, h, l);
    AbsentOn(s.cmds, s.tx.halves.Keys, s.wire, s.past.ended, s.answers, c, ended);
    FinalsOn(s.cmds, s.resolved, s.wire, s.marks.finals, s.answers, c);
    RecvOn(s.handed.recv, s.live, s.sealed, s.marks.undone, s.drains, s.cmds, c);
    ResetsApplied(s, id, c, h);
    HalvesPut(base.births, base.tx.halves, base.led, |base.cmds|, s.births, s.tx.halves, s.led, id, h, l);
    ResetsPut(base.tx.halves, base.wire, s.tx.halves, s.wire, id, h);
    WireEnds(s.wire, s.handed.send, s.past.ended, ended);
    assert s.tx.halves[id := h].Keys == s.tx.halves.Keys;
  }

  lemma WireEnds(wire: map<Id, Wire>, send: set<Id>, ended: set<Id>, ended': set<Id>)
    requires WireLaw(wire, send, ended) && ended <= ended'
    ensures WireLaw(wire, send, ended')
  {
  }

  lemma ResetsApplied(s: Snap, id: Id, c: Command, h: SendHalf)
    requires Lawful(s) && id in s.tx.halves && id !in s.past.ended && SendTarget(c) == Some(id)
    requires h.pendingReset == s.tx.halves[id].pendingReset || (c.Reset? && h.pendingReset == Some(c.code))
    requires s.tx.halves[id].pendingReset.Some? ==> h.pendingReset == s.tx.halves[id].pendingReset
    requires c.Reset? && id !in s.marks.undone ==> Refused(s.answers, id) || h.pendingReset == Some(c.code)
    ensures ResetsLaw(s.cmds + [c], s.tx.halves[id := h], s.wire, s.handed.send, s.marks.origin, s.marks.undone,
                      s.answers)
  {
    hide WireLaw, CmdsLaw, EntriesLaw, AbsentLaw, FinalsLaw, RecvLaw, UndoneLaw, EarlyLaw;
    NotEndedYet(s, id);
    var halves := s.tx.halves[id := h];
    assert ResetsLaw(s.cmds, halves, s.wire, s.handed.send, s.marks.origin, s.marks.undone, s.answers) by {
      hide ResetsOf;
    }
    ResetsOn(s.cmds, halves, s.wire, s.handed.send, s.marks.origin, s.marks.undone, s.answers, c);
  }

  /** An operation is queued on a half without terminal. */
  lemma AskStep(base: Snap, s: Snap, id: Id, op: Op)
    requires Runs(base, s) && s.cmds + [CmdOf(id, op)] <= s.asked && id in s.handed.send
    requires id in s.tx.halves && id in s.led && id !in s.past.ended && op.done !in s.resolved
    requires s.tx.halves[id].terminal.None? && !s.led[id].finSubmitted && !s.tx.halves[id].finished
    ensures var h := s.tx.halves[id].(ops := s.tx.halves[id].ops + [op]);
            var ended := s.past.ended + if op.FinishOp? then {id} else {};
            Runs(base, s.(cmds := s.cmds + [CmdOf(id, op)], tx := PutHalf(s.tx, id, h),
                          led := s.led[id := Asked(s.led[id], op)], past := s.past.(ended := ended)))
  {
    hide Grows, Lawful, EntryLaw;
    LawOf(s, id);
    EntryAsked(s.cmds, op, id, s.tx.halves[id], s.led[id], false, s.answers, s.closed);
    var h := s.tx.halves[id].(ops := s.tx.halves[id].ops + [op]);
    var ended := s.past.ended + if op.FinishOp? then {id} else {};
    ApplyKeeps(base, s, id, CmdOf(id, op), h, Asked(s.led[id], op), ended);
  }

  /** An operation on a half with a terminal fails at once. */
  lemma RefuseStep(base: Snap, s: Snap, id: Id, op: Op, end: SendEnd)
    requires Runs(base, s) && s.cmds + [CmdOf(id, op)] <= s.asked && id in s.handed.send
    requires id in s.tx.halves && id in s.led && id !in s.past.ended && op.done !in s.resolved
    requires s.tx.halves[id].terminal.Some?
    ensures var ended := s.past.ended + if op.FinishOp? then {id} else {};
            Runs(base, s.(cmds := s.cmds + [CmdOf(id, op)], past := s.past.(ended := ended),
                          resolved := s.resolved[op.done := Failed(end)]))
  {
    hide Grows, Lawful, EntryLaw;
    LawOf(s, id);
    var c, h, l := CmdOf(id, op), s.tx.halves[id], s.led[id];
    var ended := s.past.ended + if op.FinishOp? then {id} else {};
    EntryOn(s.cmds, c, id, h, l, false, s.answers, s.closed);
    EntryEnded(s.cmds + [c], id, h, l, false, id in ended, s.answers, s.closed);
    ApplyKeeps(base, s, id, c, h, l, ended);
    assert PutHalf(s.tx, id, h) == s.tx && s.led[id := l] == s.led;
    SettleStep(base, s.(cmds := s.cmds + [c], past := s.past.(ended := ended)), op.done, Failed(end));
  }

  /** The first effective reset: published, pending, and the end of everything queued. */
  lemma ResetAskStep(base: Snap, s: Snap, id: Id, code: nat)
    requires Runs(base, s) && s.cmds + [Reset(id, code)] <= s.asked && id in s.handed.send
    requires id in s.tx.halves && id in s.led && id !in s.past.ended
    requires s.tx.halves[id].terminal.None? && !s.tx.halves[id].finished && s.tx.halves[id].pendingReset.None?
    requires Extends(s.resolved, s.resolved + FailAll(s.tx.halves[id].ops, LocalReset(code)))
    ensures var h := Terminated(s.tx.halves[id], LocalReset(code)).(pendingReset := Some(code));
            Runs(base, s.(cmds := s.cmds + [Reset(id, code)], tx := PutHalf(s.tx, id, h),
                          past := s.past.(ended := s.past.ended + {id}),
                          resolved := s.resolved + FailAll(s.tx.halves[id].ops, LocalReset(code))))
  {
    hide Grows, Lawful, EntryLaw;
    LawOf(s, id);
    var c, h, l := Reset(id, code), s.tx.halves[id], s.led[id];
    var h' := Terminated(h, LocalReset(code)).(pendingReset := Some(code));
    var resolved := s.resolved + FailAll(h.ops, LocalReset(code));
    var s' := s.(cmds := s.cmds + [c], tx := PutHalf(s.tx, id, h'), past := s.past.(ended := s.past.ended + {id}));
    assert (s.cmds + [c])[|s.cmds|] == c;
    EntryReset(s.cmds, code, id, h, l, s.answers, s.closed);
    ApplyKeeps(base, s, id, c, h', l, s.past.ended + {id});
    assert s.led[id := l] == s.led;
    FailMore(base, s', resolved);
  }

  lemma EntryReset(cmds: seq<Command>, code: nat, id: Id, h: SendHalf, l: Ledger, answers: Answers, closed: bool)
    requires EntryLaw(cmds, id, h, l, false, answers, closed) && h.terminal.None? && !h.finished
    ensures EntryLaw(cmds + [Reset(id, code)], id, Terminated(h, LocalReset(code)).(pendingReset := Some(code)), l,
                     true, answers, closed)
  {
    hide SendBytes, HasFinish, Caused;
    SinceOn(cmds, Reset(id, code), l.from);
    assert (cmds + [Reset(id, code)])[|cmds|] == Reset(id, code);
  }

  lemma FailMore(base: Snap, s: Snap, resolved: map<Token, Outcome>)
    requires Runs(base, s) && Extends(s.resolved, resolved)
    requires forall tok | tok in resolved && tok !in s.resolved :: resolved[tok].Failed?
    ensures Runs(base, s.(resolved := resolved))
  {
    hide WireGrows, AnswersGrow, TokensGrow, HalvesGrow, QueueGrows, ResetsGrow, ReadsGrow, EarlyGrows, MarksGrow;
    hide Extends;
    hide WireLaw, CmdsLaw, EntriesLaw, AbsentLaw, FinalsLaw, ResetsLaw, RecvLaw, UndoneLaw, EarlyLaw;
    ExtendsTrans(base.resolved, s.resolved, resolved);
    NothingDelivered(s.cmds, s.resolved, resolved, s.wire, s.marks.finals, s.answers, s.marks.undone, s.handed.send,
                     s.early.given.Keys, s.shutdowns);
  }

  /** A reset of a half that has a terminal changes nothing. */
  lemma ResetLateStep(base: Snap, s: Snap, id: Id, code: nat)
    requires Runs(base, s) && s.cmds + [Reset(id, code)] <= s.asked && id in s.handed.send && !s.closed
    requires id in s.tx.halves && id in s.led && id !in s.past.ended && s.tx.halves[id].terminal.Some?
    ensures Runs(base, s.(cmds := s.cmds + [Reset(id, code)], past := s.past.(ended := s.past.ended + {id})))
  {
    hide Grows, Lawful, EntryLaw;
    LawOf(s, id);
    LateMeansRefused(s, id);
    var c, h, l := Reset(id, code), s.tx.halves[id], s.led[id];
    EntryOn(s.cmds, c, id, h, l, false, s.answers, s.closed);
    EntryEnded(s.cmds + [c], id, h, l, false, true, s.answers, s.closed);
    ApplyKeeps(base, s, id, c, h, l, s.past.ended + {id});
    assert PutHalf(s.tx, id, h) == s.tx && s.led[id := l] == s.led;
  }

  /** Before its Finish or Reset, and before the close, a half has a terminal only if the transport refused it. */
  lemma LateMeansRefused(s: Snap, id: Id)
    requires Lawful(s) && id in s.tx.halves && id in s.led && id !in s.past.ended && !s.closed
    requires s.tx.halves[id].terminal.Some?
    ensures Refused(s.answers, id)
  {
    hide Lawful;
    LawOf(s, id);
    NotEndedYet(s, id);
    hide SendBytes, HasFinish, Caused;
  }

  // ----- entries come and go -----

  lemma EntryBorn(s: Snap, id: Id)
    requires Lawful(s) && id !in s.tx.halves && id !in s.past.ended
    ensures EntryLaw(s.cmds, id, FRESH, Born(At(s.wire, id), s.births, |s.cmds|), false, s.answers, s.closed)
  {
    NotEndedYet(s, id);
    hide WireLaw, CmdsLaw, EntriesLaw, FinalsLaw, ResetsLaw, RecvLaw, UndoneLaw, EarlyLaw;
    assert s.cmds[|s.cmds|..] == [] && s.cmds[..|s.cmds|] == s.cmds;
    assert !HasFinish([], id) && SendBytes([], id) == [];
  }

  /** A send entry is made for a stream that has none. */
  lemma BornStep(base: Snap, s: Snap, id: Id)
    requires Runs(base, s) && id !in s.tx.halves && id !in s.past.ended
    ensures Runs(base, s.(tx := PutHalf(s.tx, id, FRESH), births := s.births + 1,
                          led := s.led[id := Born(At(s.wire, id), s.births, |s.cmds|)]))
  {
    hide WireGrows, AnswersGrow, TokensGrow, HalvesGrow, QueueGrows, ResetsGrow, ReadsGrow, EarlyGrows, MarksGrow;
    hide Extends;
    hide WireLaw, CmdsLaw, EntriesLaw, AbsentLaw, FinalsLaw, ResetsLaw, RecvLaw, UndoneLaw, EarlyLaw;
    hide EntryLaw;
    var l := Born(At(s.wire, id), s.births, |s.cmds|);
    EntryBorn(s, id);
    assert s.cmds + [] == s.cmds;
    EntriesPut(s.cmds, [], s.tx.halves, s.led, s.past.ended, s.past.ended, s.answers, s.closed, id, FRESH, l);
    HalvesBorn(base.births, base.tx.halves, base.led, |base.cmds|, s.births, s.tx.halves, s.led, id, FRESH, l);
    ResetsPut(base.tx.halves, base.wire, s.tx.halves, s.wire, id, FRESH);
    ResetsLawPut(s.cmds, s.tx.halves, s.wire, s.handed.send, s.marks.origin, s.marks.undone, s.answers, id, FRESH);
    AbsentShrinks(s.cmds, s.tx.halves.Keys, s.wire, s.past.ended, s.answers, s.tx.halves[id := FRESH].Keys);
  }

  lemma AbsentShrinks(cmds: seq<Command>, keys: set<Id>, wire: map<Id, Wire>, ended: set<Id>, answers: Answers,
                      keys': set<Id>)
    requires AbsentLaw(cmds, keys, wire, ended, answers) && keys <= keys'
    ensures AbsentLaw(cmds, keys', wire, ended, answers)
  {
    hide SendBytes;
  }

  /** The entry of a stream that ended, was refused, or was asked nothing is forgotten. */
  lemma ForgetKeeps(base: Snap, s: Snap, id: Id)
    requires Runs(base, s) && id in s.tx.halves && id in s.led && s.tx.halves[id].pendingReset.None?
    requires id !in s.past.ended && !Refused(s.answers, id) ==>
               SendBytes(s.cmds, id) == [] && At(s.wire, id).bytes == []
    ensures Runs(base, s.(tx := s.tx.(halves := s.tx.halves - {id}), led := s.led - {id}))
  {
    hide WireGrows, AnswersGrow, TokensGrow, HalvesGrow, QueueGrows, ResetsGrow, ReadsGrow, EarlyGrows, MarksGrow;
    hide Extends;
    hide WireLaw, CmdsLaw, EntriesLaw, AbsentLaw, FinalsLaw, ResetsLaw, RecvLaw, UndoneLaw, EarlyLaw;
    HalvesDrop(base.births, base.tx.halves, base.led, |base.cmds|, s.births, s.tx.halves, s.led, id);
    ResetsDrop(base.tx.halves, base.wire, s.tx.halves, s.wire, id);
    EntriesDrop(s.cmds, s.tx.halves, s.led, s.past.ended, s.answers, s.closed, id);
    ResetsLawDrop(s.cmds, s.tx.halves, s.wire, s.handed.send, s.marks.origin, s.marks.undone, s.answers, id);
    AbsentDrop(s.cmds, s.tx.halves.Keys, s.wire, s.past.ended, s.answers, id);
    assert (s.tx.halves - {id}).Keys == s.tx.halves.Keys - {id};
  }

  lemma EntriesDrop(cmds: seq<Command>, halves: map<Id, SendHalf>, led: map<Id, Ledger>, ended: set<Id>,
                    answers: Answers, closed: bool, id: Id)
    requires EntriesLaw(cmds, halves, led, ended, answers, closed)
    ensures EntriesLaw(cmds, halves - {id}, led - {id}, ended, answers, closed)
  {
    hide EntryLaw;
  }

  lemma ResetsLawDrop(cmds: seq<Command>, halves: map<Id, SendHalf>, wire: map<Id, Wire>, send: set<Id>,
                      origin: map<Id, seq<nat>>, undone: set<Id>, answers: Answers, id: Id)
    requires ResetsLaw(cmds, halves, wire, send, origin, undone, answers)
    requires id in halves ==> halves[id].pendingReset.None?
    ensures ResetsLaw(cmds, halves - {id}, wire, send, origin, undone, answers)
  {
    hide ResetsOf;
  }

  lemma AbsentDrop(cmds: seq<Command>, keys: set<Id>, wire: map<Id, Wire>, ended: set<Id>, answers: Answers, id: Id)
    requires AbsentLaw(cmds, keys, wire, ended, answers)
    requires id !in ended && !Refused(answers, id) ==> SendBytes(cmds, id) == [] && At(wire, id).bytes == []
    ensures AbsentLaw(cmds, keys - {id}, wire, ended, answers)
  {
    hide SendBytes;
  }

  /** A finished entry is reclaimed. */
  lemma ReclaimStep(base: Snap, s: Snap, id: Id)
    requires Runs(base, s) && id in s.tx.halves && id in s.led
    requires s.tx.halves[id].finished && s.tx.halves[id].pendingReset.None?
    ensures Runs(base, s.(tx := s.tx.(halves := s.tx.halves - {id}), led := s.led - {id}))
  {
    hide Grows, Lawful, SendBytes, HasFinish, Caused;
    LawOf(s, id);
    ForgetKeeps(base, s, id);
  }

  /** An entry that was never asked anything is dropped. */
  lemma UnbornStep(base: Snap, s: Snap, id: Id)
    requires Runs(base, s) && id in s.tx.halves && id in s.led && s.tx.halves[id] == FRESH && s.led[id].submitted == []
    requires At(s.wire, id).bytes == s.led[id].base.bytes
    ensures Runs(base, s.(tx := s.tx.(halves := s.tx.halves - {id}), led := s.led - {id}))
  {
    hide Grows, Lawful, SendBytes, HasFinish, Caused;
    LawOf(s, id);
    var l := s.led[id];
    assert s.cmds == s.cmds[..l.from] + s.cmds[l.from..];
    SendBytesSplit(s.cmds[..l.from], s.cmds[l.from..], id);
    ForgetKeeps(base, s, id);
  }

  // ----- hand-over -----

  /** A peer stream is handed over: its live send half is born with it, a stopped one is preset. */
  lemma AdmitStep(base: Snap, s: Snap, peer: PeerStream)
    requires Runs(base, s) && !s.handed.Has(peer.id) && peer.id !in s.tx.halves && peer.id !in s.past.ended
    requires peer.sendEnd == SeenEnd(s.early.seen, peer.id)
    ensures Runs(base, Admit(s, peer))
  {
    var id, bidi := peer.id, IsBidi(peer.id);
    hide Grows, Lawful, IsBidi;
    HandKeeps(base, s, peer);
    if bidi && peer.sendEnd.None? {
      BornStep(base, HandedTo(s, peer), id);
    }
  }

  /** The stream is handed out, without a send entry yet. */
  function HandedTo(s: Snap, peer: PeerStream): Snap {
    var id := peer.id;
    var out := s.(handed := HandOver(s.handed, id), live := s.live + {id}, early := Given(s.early, peer));
    if !IsBidi(id) then out
    else out.(marks := s.marks.(origin := s.marks.origin[id := At(s.wire, id).resets]),
              past := if peer.sendEnd.Some? then s.past.(preset := s.past.preset + {id}) else s.past)
  }

  /** And with one, if its send direction is live. */
  function Admit(s: Snap, peer: PeerStream): Snap {
    var id, bidi := peer.id, IsBidi(peer.id);
    var live := bidi && peer.sendEnd.None?;
    s.(handed := HandOver(s.handed, id), live := s.live + {id}, early := Given(s.early, peer),
       marks := if bidi then s.marks.(origin := s.marks.origin[id := At(s.wire, id).resets]) else s.marks,
       past := PresetPast(s.past, id, bidi && !live),
       tx := BornTx(s.tx, id, live),
       births := if live then s.births + 1 else s.births,
       led := BornLed(s.led, id, live, Born(At(s.wire, id), s.births, |s.cmds|)))
  }

  lemma HandKeeps(base: Snap, s: Snap, peer: PeerStream)
    requires Runs(base, s) && !s.handed.Has(peer.id) && peer.id !in s.tx.halves
    requires peer.sendEnd == SeenEnd(s.early.seen, peer.id)
    ensures Runs(base, HandedTo(s, peer))
  {
    hide Runs, IsBidi;
    if IsBidi(peer.id) {
      HandBidi(base, s, peer);
    } else {
      HandUni(base, s, peer.id);
    }
  }

  lemma HandUni(base: Snap, s: Snap, id: Id)
    requires Runs(base, s)
    ensures Runs(base, s.(handed := Handed(s.handed.send, s.handed.recv + {id}), live := s.live + {id}))
  {
    hide WireGrows, AnswersGrow, TokensGrow, HalvesGrow, QueueGrows, ResetsGrow, ReadsGrow, EarlyGrows, MarksGrow;
    hide Extends;
    hide WireLaw, CmdsLaw, EntriesLaw, AbsentLaw, FinalsLaw, ResetsLaw, RecvLaw, UndoneLaw, EarlyLaw;
    MoreHandles(s, s.handed.send, s.handed.recv + {id}, s.live + {id}, id);
  }

  lemma HandBidi(base: Snap, s: Snap, peer: PeerStream)
    requires Runs(base, s) && !s.handed.Has(peer.id) && peer.id !in s.tx.halves && IsBidi(peer.id)
    requires peer.sendEnd == SeenEnd(s.early.seen, peer.id)
    ensures var id := peer.id;
            Runs(base, s.(handed := Handed(s.handed.send + {id}, s.handed.recv + {id}), live := s.live + {id},
                          early := s.early.(given := s.early.given[id := peer.sendEnd]),
                          marks := s.marks.(origin := s.marks.origin[id := At(s.wire, id).resets]),
                          past := if peer.sendEnd.Some? then s.past.(preset := s.past.preset + {id}) else s.past))
  {
    hide WireGrows, AnswersGrow, TokensGrow, HalvesGrow, QueueGrows, ResetsGrow, ReadsGrow, EarlyGrows, MarksGrow;
    hide Extends;
    hide WireLaw, CmdsLaw, EntriesLaw, AbsentLaw, FinalsLaw, ResetsLaw, RecvLaw, UndoneLaw, EarlyLaw;
    var id := peer.id;
    MoreHandles(s, s.handed.send + {id}, s.handed.recv + {id}, s.live + {id}, id);
    GivenIsNotUndone(s, id);
    OriginAdded(base, s, id);
    EarlyGiven(s.early, s.answers, s.handed.send, s.past.preset, peer);
    GivenGrows(base.early, base.shutdowns, base.handed.send, s.early, s.shutdowns, peer);
    hide IsBidi, SeenEnd;
    assert s.early.given[id := peer.sendEnd].Keys == s.early.given.Keys + {id};
  }

  /** The laws that only mention handles let them grow. */
  lemma MoreHandles(s: Snap, send: set<Id>, recv: set<Id>, live: set<Id>, id: Id)
    requires Lawful(s) && s.handed.send <= send && s.handed.recv <= recv <= s.handed.recv + {id}
    requires s.live <= live && (id in recv && id !in s.handed.recv ==> id in live)
    ensures WireLaw(s.wire, send, s.past.ended)
    ensures CmdsLaw(s.asked, s.cmds, s.nextTok, send, s.past.ended)
    ensures RecvLaw(recv, live, s.sealed, s.marks.undone, s.drains, s.cmds)
  {
    hide EntriesLaw, AbsentLaw, FinalsLaw, ResetsLaw, UndoneLaw, EarlyLaw, LetGoLaw, CmdTok;
  }

  lemma OriginAdded(base: Snap, s: Snap, id: Id)
    requires Runs(base, s) && id !in s.handed.send && id !in s.tx.halves
    ensures var origin := s.marks.origin[id := At(s.wire, id).resets];
            && ResetsLaw(s.cmds, s.tx.halves, s.wire, s.handed.send + {id}, origin, s.marks.undone, s.answers)
            && MarksGrow(base.marks, base.wire, base.shutdowns, base.births, base.led, |base.cmds|,
                         s.marks.(origin := origin), s.shutdowns)
  {
    hide WireLaw, EntriesLaw, AbsentLaw, FinalsLaw, RecvLaw, UndoneLaw, EarlyLaw, BornSince;
    hide AnswersGrow, TokensGrow, HalvesGrow, QueueGrows, ResetsGrow, ReadsGrow, EarlyGrows, Extends;
    assert At(base.wire, id).resets <= At(s.wire, id).resets;
    assert ResetsOf(s.cmds, id, At(s.wire, id).resets, At(s.wire, id).resets);
  }

  lemma EarlyGiven(e: Early, answers: Answers, send: set<Id>, preset: set<Id>, peer: PeerStream)
    requires EarlyLaw(e, answers, send, preset) && peer.id !in send && IsBidi(peer.id)
    requires peer.sendEnd == SeenEnd(e.seen, peer.id)
    ensures EarlyLaw(Given(e, peer), answers, send + {peer.id},
                     if peer.sendEnd.Some? then preset + {peer.id} else preset)
  {
    hide IsBidi;
  }

  lemma GivenGrows(e0: Early, down0: seq<Shutdown>, send0: set<Id>, e: Early, down: seq<Shutdown>, peer: PeerStream)
    requires EarlyGrows(e0, down0, send0, e, down) && (peer.id in e.given ==> e.given[peer.id] == peer.sendEnd)
    ensures EarlyGrows(e0, down0, send0, Given(e, peer), down)
  {
    hide IsBidi;
  }

  lemma GivenIsNotUndone(s: Snap, id: Id)
    requires Lawful(s) && id !in s.handed.send
    ensures id !in s.early.given
    ensures UndoneLaw(s.marks.undone, s.handed.send + {id}, s.early.given.Keys + {id}, s.resolved, s.shutdowns)
    ensures UndoneLaw(s.marks.undone, s.handed.send + {id}, s.early.given.Keys, s.resolved, s.shutdowns)
  {
    hide WireLaw, CmdsLaw, EntriesLaw, AbsentLaw, FinalsLaw, ResetsLaw, RecvLaw;
  }

  /** Nobody was ever given a stream that was not handed out. */
  lemma NotHandedYet(s: Snap, id: Id)
    requires Lawful(s) && id !in s.handed.send
    ensures id !in s.early.given && forall tok | tok in s.resolved :: s.resolved[tok] != Opened(id)
  {
    hide WireLaw, CmdsLaw, EntriesLaw, AbsentLaw, FinalsLaw, ResetsLaw, RecvLaw;
  }

  /** A granted local stream is handed out with its send entry. */
  lemma OpenStep(base: Snap, s: Snap, id: Id, bidi: bool)
    requires Runs(base, s) && !s.handed.Has(id) && id !in s.tx.halves && id !in s.past.ended
    ensures Runs(base, s.(handed := LocalHanded(s.handed, id, bidi), live := if bidi then s.live + {id} else s.live,
                          marks := s.marks.(origin := s.marks.origin[id := At(s.wire, id).resets]),
                          tx := PutHalf(s.tx, id, FRESH), births := s.births + 1,
                          led := s.led[id := Born(At(s.wire, id), s.births, |s.cmds|)]))
  {
    hide Grows, Lawful;
    OpenKeeps(base, s, id, bidi);
    BornStep(base, LocalOpen(s, id, bidi), id);
  }

  function LocalOpen(s: Snap, id: Id, bidi: bool): Snap {
    s.(handed := LocalHanded(s.handed, id, bidi), live := if bidi then s.live + {id} else s.live,
       marks := s.marks.(origin := s.marks.origin[id := At(s.wire, id).resets]))
  }

  lemma OpenKeeps(base: Snap, s: Snap, id: Id, bidi: bool)
    requires Runs(base, s) && !s.handed.Has(id) && id !in s.tx.halves
    ensures Runs(base, LocalOpen(s, id, bidi))
  {
    hide WireGrows, AnswersGrow, TokensGrow, HalvesGrow, QueueGrows, ResetsGrow, ReadsGrow, EarlyGrows, MarksGrow;
    hide Extends;
    hide WireLaw, CmdsLaw, EntriesLaw, AbsentLaw, FinalsLaw, ResetsLaw, RecvLaw, UndoneLaw, EarlyLaw;
    var s' := LocalOpen(s, id, bidi);
    MoreHandles(s, s'.handed.send, s'.handed.recv, s'.live, id);
    OriginAdded(base, s, id);
    GivenIsNotUndone(s, id);
    EarlyMoreHandles(s.early, s.answers, s.handed.send, s.past.preset, id);
  }

  lemma EarlyMoreHandles(e: Early, answers: Answers, send: set<Id>, preset: set<Id>, id: Id)
    requires EarlyLaw(e, answers, send, preset)
    ensures EarlyLaw(e, answers, send + {id}, preset)
  {
  }

  // ----- the wire -----

  lemma WireExtends(a: map<Id, Wire>, b: map<Id, Wire>, id: Id, w: Wire)
    requires WireGrows(a, b)
    requires At(b, id).bytes <= w.bytes && At(b, id).fins <= w.fins && At(b, id).resets <= w.resets
    ensures WireGrows(a, b[id := w])
  {
    forall x: Id
      ensures var w' := At(b[id := w], x);
              At(a, x).bytes <= w'.bytes && At(a, x).fins <= w'.fins && At(a, x).resets <= w'.resets
    {
      assert At(a, x).bytes <= At(b, x).bytes;
    }
  }

  /** The transport accepted bytes of a half without terminal, with the FIN only if its Finish was applied. */
  lemma SentStep(base: Snap, s: Snap, id: Id, took: seq<Byte>, last: bool)
    requires Runs(base, s) && id in s.tx.halves && id in s.handed.send && At(s.wire, id).fins == 0
    requires last ==> id in s.past.ended
    ensures var w := At(s.wire, id);
            var w' := w.(bytes := w.bytes + took, fins := w.fins + if last then 1 else 0);
            id !in s.marks.finals
            && Runs(base, s.(wire := s.wire[id := w'], sent := s.sent + [SendCall(id, took, last)]))
  {
    hide WireGrows, AnswersGrow, TokensGrow, HalvesGrow, QueueGrows, ResetsGrow, ReadsGrow, EarlyGrows, MarksGrow;
    hide Extends;
    hide WireLaw, CmdsLaw, EntriesLaw, AbsentLaw, FinalsLaw, ResetsLaw, RecvLaw, UndoneLaw, EarlyLaw;
    var w := At(s.wire, id);
    var w' := w.(bytes := w.bytes + took, fins := w.fins + if last then 1 else 0);
    WireExtends(base.wire, s.wire, id, w');
    ResetsSame(base.tx.halves, base.wire, s.tx.halves, s.wire, id, w');
    NotFinal(s, id);
    WireLawPut(s.wire, s.handed.send, s.past.ended, id, w');
    FinalsApart(s.cmds, s.resolved, s.wire, s.marks.finals, s.answers, id, w');
    AbsentApart(s.cmds, s.tx.halves.Keys, s.wire, s.past.ended, s.answers, id, w');
    ResetsApart(s.cmds, s.tx.halves, s.wire, s.handed.send, s.marks.origin, s.marks.undone, s.answers, id, w');
  }

  lemma NotFinal(s: Snap, id: Id)
    requires Lawful(s) && At(s.wire, id).fins == 0
    ensures id !in s.marks.finals
  {
    hide WireLaw, CmdsLaw, EntriesLaw, AbsentLaw, ResetsLaw, RecvLaw, UndoneLaw, EarlyLaw, SendBytes;
  }

  lemma WireLawPut(wire: map<Id, Wire>, send: set<Id>, ended: set<Id>, id: Id, w: Wire)
    requires WireLaw(wire, send, ended) && w.fins <= 1 && (w.fins == 1 ==> id in ended)
    requires id !in send ==> w.bytes == [] && w.fins == 0
    ensures WireLaw(wire[id := w], send, ended)
  {
    forall x: Id
      ensures WireOf(At(wire[id := w], x), x in send, x in ended)
    {
      assert WireOf(At(wire, x), x in send, x in ended);
    }
  }

  lemma FinalsApart(cmds: seq<Command>, resolved: map<Token, Outcome>, wire: map<Id, Wire>, finals: map<Id, Ledger>,
                    answers: Answers, id: Id, w: Wire)
    requires FinalsLaw(cmds, resolved, wire, finals, answers)
    requires id !in finals || (w.bytes == At(wire, id).bytes && w.fins == At(wire, id).fins)
    ensures FinalsLaw(cmds, resolved, wire[id := w], finals, answers)
  {
    hide SendBytes;
  }

  lemma AbsentApart(cmds: seq<Command>, keys: set<Id>, wire: map<Id, Wire>, ended: set<Id>, answers: Answers, id: Id,
                    w: Wire)
    requires AbsentLaw(cmds, keys, wire, ended, answers) && (id in keys || w.bytes == At(wire, id).bytes)
    ensures AbsentLaw(cmds, keys, wire[id := w], ended, answers)
  {
    hide SendBytes;
  }

  lemma ResetsApart(cmds: seq<Command>, halves: map<Id, SendHalf>, wire: map<Id, Wire>, send: set<Id>,
                    origin: map<Id, seq<nat>>, undone: set<Id>, answers: Answers, id: Id, w: Wire)
    requires ResetsLaw(cmds, halves, wire, send, origin, undone, answers)
    requires w.resets == At(wire, id).resets || id !in send || id in undone
    ensures ResetsLaw(cmds, halves, wire[id := w], send, origin, undone, answers)
  {
    hide ResetsOf;
  }

  /** Shutdowns only add to the evidence of what was torn down or undone. */
  lemma MoreDown(base: Snap, s: Snap, more: seq<Shutdown>)
    requires Runs(base, s)
    ensures EarlyGrows(base.early, base.shutdowns, base.handed.send, s.early, s.shutdowns + more)
    ensures MarksGrow(base.marks, base.wire, base.shutdowns, base.births, base.led, |base.cmds|, s.marks,
                      s.shutdowns + more)
    ensures UndoneLaw(s.marks.undone, s.handed.send, s.early.given.Keys, s.resolved, s.shutdowns + more)
  {
    hide WireLaw, CmdsLaw, EntriesLaw, AbsentLaw, FinalsLaw, ResetsLaw, RecvLaw, EarlyLaw, BornSince;
    hide WireGrows, AnswersGrow, TokensGrow, HalvesGrow, QueueGrows, ResetsGrow, ReadsGrow, Extends;
    assert (s.shutdowns + more)[|base.shutdowns|..] == s.shutdowns[|base.shutdowns|..] + more;
  }

  /** STOP_SENDING leaves every wire alone. */
  lemma StopStep(base: Snap, s: Snap, id: Id, code: nat)
    requires Runs(base, s)
    ensures Runs(base, s.(shutdowns := s.shutdowns + [Shutdown(id, ReadSide, code)]))
  {
    hide WireGrows, AnswersGrow, TokensGrow, HalvesGrow, QueueGrows, ResetsGrow, ReadsGrow, EarlyGrows, MarksGrow;
    hide Extends;
    hide WireLaw, CmdsLaw, EntriesLaw, AbsentLaw, FinalsLaw, ResetsLaw, RecvLaw, UndoneLaw, EarlyLaw;
    MoreDown(base, s, [Shutdown(id, ReadSide, code)]);
  }

  /** A stream not handed out is shut down in its directions, and its stop code goes with it. */
  lemma TearStep(base: Snap, s: Snap, id: Id)
    requires Runs(base, s) && !s.handed.Has(id) && id !in s.tx.halves
    ensures Runs(base, TornDown(s, id))
  {
    hide Grows, Lawful;
    TearWire(base, s, id);
    var mid := s.(shutdowns := s.shutdowns + PeerShutdown(id), wire := TornDown(s, id).wire);
    TearSeen(base, s, id);
  }

  function TornDown(s: Snap, id: Id): Snap {
    var w := At(s.wire, id);
    s.(shutdowns := s.shutdowns + PeerShutdown(id),
       wire := if IsBidi(id) then s.wire[id := w.(resets := w.resets + [H3_NO_ERROR])] else s.wire,
       early := Torn(s.early, id, |StopsAt(s.answers, id)|))
  }

  lemma TearWire(base: Snap, s: Snap, id: Id)
    requires Runs(base, s) && id !in s.handed.send && id !in s.tx.halves
    ensures Runs(base, s.(shutdowns := s.shutdowns + PeerShutdown(id), wire := TornDown(s, id).wire))
  {
    hide WireGrows, AnswersGrow, TokensGrow, HalvesGrow, QueueGrows, ResetsGrow, ReadsGrow, EarlyGrows, MarksGrow;
    hide Extends;
    hide WireLaw, CmdsLaw, EntriesLaw, AbsentLaw, FinalsLaw, ResetsLaw, RecvLaw, UndoneLaw, EarlyLaw;
    hide IsBidi;
    var w := At(s.wire, id);
    var w' := w.(resets := w.resets + [H3_NO_ERROR]);
    MoreDown(base, s, PeerShutdown(id));
    OtherWire(base, s, id, w');
  }

  /** The resets of a stream without entry, not handed out or undone, are nobody's. */
  lemma OtherWire(base: Snap, s: Snap, id: Id, w: Wire)
    requires Runs(base, s) && id !in s.tx.halves && (id !in s.handed.send || id in s.marks.undone)
    requires w == At(s.wire, id).(resets := w.resets) && At(s.wire, id).resets <= w.resets
    ensures WireGrows(base.wire, s.wire[id := w])
    ensures ResetsGrow(base.tx.halves, base.wire, s.tx.halves, s.wire[id := w])
    ensures WireLaw(s.wire[id := w], s.handed.send, s.past.ended)
    ensures FinalsLaw(s.cmds, s.resolved, s.wire[id := w], s.marks.finals, s.answers)
    ensures AbsentLaw(s.cmds, s.tx.halves.Keys, s.wire[id := w], s.past.ended, s.answers)
    ensures ResetsLaw(s.cmds, s.tx.halves, s.wire[id := w], s.handed.send, s.marks.origin, s.marks.undone, s.answers)
  {
    hide WireGrows, AnswersGrow, TokensGrow, HalvesGrow, QueueGrows, ResetsGrow, ReadsGrow, EarlyGrows, MarksGrow;
    hide Extends;
    hide CmdsLaw, EntriesLaw, AbsentLaw, FinalsLaw, ResetsLaw, RecvLaw, UndoneLaw, EarlyLaw;
    WireExtends(base.wire, s.wire, id, w);
    ResetsSame(base.tx.halves, base.wire, s.tx.halves, s.wire, id, w);
    WireLawPut(s.wire, s.handed.send, s.past.ended, id, w);
    FinalsApart(s.cmds, s.resolved, s.wire, s.marks.finals, s.answers, id, w);
    AbsentApart(s.cmds, s.tx.halves.Keys, s.wire, s.past.ended, s.answers, id, w);
    ResetsApart(s.cmds, s.tx.halves, s.wire, s.handed.send, s.marks.origin, s.marks.undone, s.answers, id, w);
  }

  /** With its shutdown logged, the stop code of a torn-down stream may go. */
  lemma TearSeen(base: Snap, s: Snap, id: Id)
    requires Runs(base, s) && id !in s.handed.send
    requires Runs(base, s.(shutdowns := s.shutdowns + PeerShutdown(id), wire := TornDown(s, id).wire))
    ensures Runs(base, TornDown(s, id))
  {
    hide WireGrows, AnswersGrow, TokensGrow, HalvesGrow, QueueGrows, ResetsGrow, ReadsGrow, EarlyGrows, MarksGrow;
    hide Extends;
    hide WireLaw, CmdsLaw, EntriesLaw, AbsentLaw, FinalsLaw, ResetsLaw, RecvLaw, UndoneLaw, EarlyLaw;
    hide IsBidi;
    EarlyTorn(s.early, s.answers, s.handed.send, s.past.preset, id);
    TornGrows(base, s, id);
  }

  lemma EarlyTorn(e: Early, answers: Answers, send: set<Id>, preset: set<Id>, id: Id)
    requires EarlyLaw(e, answers, send, preset) && id !in send
    ensures EarlyLaw(Torn(e, id, |StopsAt(answers, id)|), answers, send, preset)
  {
  }

  lemma TornGrows(base: Snap, s: Snap, id: Id)
    requires EarlyGrows(base.early, base.shutdowns, base.handed.send, s.early, s.shutdowns)
    requires base.shutdowns <= s.shutdowns && base.handed.send <= s.handed.send && id !in s.handed.send
    ensures EarlyGrows(base.early, base.shutdowns, base.handed.send, Torn(s.early, id, |StopsAt(s.answers, id)|),
                       s.shutdowns + PeerShutdown(id))
  {
    var down := s.shutdowns + PeerShutdown(id);
    assert PeerShutdown(id)[0] == Shutdown(id, ReadSide, H3_NO_ERROR);
    assert down[|base.shutdowns|..] == s.shutdowns[|base.shutdowns|..] + PeerShutdown(id);
    hide PeerShutdown;
  }

  /** The pending reset of a half is made. */
  lemma ResetStep(base: Snap, s: Snap, id: Id, code: nat)
    requires Runs(base, s) && id in s.handed.send && id in s.tx.halves && id in s.led
    requires s.tx.halves[id].pendingReset == Some(code) && s.tx.halves[id].terminal == Some(LocalReset(code))
    ensures var h, w := s.tx.halves[id].(pendingReset := None, finished := true), At(s.wire, id);
            Runs(base, s.(tx := PutHalf(s.tx, id, h), wire := s.wire[id := w.(resets := w.resets + [code])],
                          shutdowns := s.shutdowns + [Shutdown(id, WriteSide, code)]))
  {
    hide WireGrows, AnswersGrow, TokensGrow, HalvesGrow, QueueGrows, ResetsGrow, ReadsGrow, EarlyGrows, MarksGrow;
    hide Extends;
    hide WireLaw, CmdsLaw, EntriesLaw, AbsentLaw, FinalsLaw, ResetsLaw, RecvLaw, UndoneLaw, EarlyLaw;
    hide EntryLaw;
    var h, w := s.tx.halves[id].(pendingReset := None, finished := true), At(s.wire, id);
    var w', l := w.(resets := w.resets + [code]), s.led[id];
    EntryMade(s, id, code);
    assert s.led[id := l] == s.led && s.cmds + [] == s.cmds;
    EntriesPut(s.cmds, [], s.tx.halves, s.led, s.past.ended, s.past.ended, s.answers, s.closed, id, h, l);
    HalvesPut(base.births, base.tx.halves, base.led, |base.cmds|, s.births, s.tx.halves, s.led, id, h, l);
    ResetsMake(base.tx.halves, base.wire, s.tx.halves, s.wire, id, h, w');
    ResetsLawMade(s, id, code);
    WireExtends(base.wire, s.wire, id, w');
    WireSame(s.wire, s.handed.send, s.past.ended, id, w');
    FinalsApart(s.cmds, s.resolved, s.wire, s.marks.finals, s.answers, id, w');
    AbsentApart(s.cmds, s.tx.halves.Keys, s.wire, s.past.ended, s.answers, id, w');
    MoreDown(base, s, [Shutdown(id, WriteSide, code)]);
    assert s.tx.halves[id := h].Keys == s.tx.halves.Keys;
  }

  lemma WireSame(wire: map<Id, Wire>, send: set<Id>, ended: set<Id>, id: Id, w: Wire)
    requires WireLaw(wire, send, ended) && w == At(wire, id).(resets := w.resets)
    ensures WireLaw(wire[id := w], send, ended)
  {
    forall x: Id
      ensures WireOf(At(wire[id := w], x), x in send, x in ended)
    {
      assert WireOf(At(wire, x), x in send, x in ended);
    }
  }

  lemma EntryMade(s: Snap, id: Id, code: nat)
    requires Lawful(s) && id in s.tx.halves && id in s.led && s.tx.halves[id].terminal == Some(LocalReset(code))
    ensures EntryLaw(s.cmds, id, s.tx.halves[id].(pendingReset := None, finished := true), s.led[id],
                     id in s.past.ended, s.answers, s.closed)
    ensures Reset(id, code) in s.cmds
  {
    LawOf(s, id);
    hide SendBytes, HasFinish, Caused, WireLaw, EntriesLaw, AbsentLaw, FinalsLaw, ResetsLaw, RecvLaw, UndoneLaw;
    hide EarlyLaw;
    assert EndsSend(Reset(id, code));
  }

  lemma ResetsLawMade(s: Snap, id: Id, code: nat)
    requires ResetsLaw(s.cmds, s.tx.halves, s.wire, s.handed.send, s.marks.origin, s.marks.undone, s.answers)
    requires id in s.handed.send && id in s.tx.halves && s.tx.halves[id].pendingReset == Some(code)
    requires Reset(id, code) in s.cmds
    ensures var h, w := s.tx.halves[id].(pendingReset := None, finished := true), At(s.wire, id);
            ResetsLaw(s.cmds, s.tx.halves[id := h], s.wire[id := w.(resets := w.resets + [code])], s.handed.send,
                      s.marks.origin, s.marks.undone, s.answers)
  {
    var k :| 0 <= k < |s.cmds| && s.cmds[k] == Reset(id, code);
    var w := At(s.wire, id);
    var wire := s.wire[id := w.(resets := w.resets + [code])];
    forall x | x in s.marks.origin && x !in s.marks.undone
      ensures ResetsOf(s.cmds, x, At(wire, x).resets, s.marks.origin[x])
    {
      if x != id { assert At(wire, x) == At(s.wire, x); }
    }
    var halves := s.tx.halves[id := s.tx.halves[id].(pendingReset := None, finished := true)];
    forall i | 0 <= i < |s.cmds| && s.cmds[i].Reset? && s.cmds[i].id !in s.marks.undone
      ensures ResetServedBy(s.cmds[i], halves, wire, s.marks.origin, s.answers)
    {
      assert ResetServedBy(s.cmds[i], s.tx.halves, s.wire, s.marks.origin, s.answers);
      if s.cmds[i].id != id { assert At(wire, s.cmds[i].id) == At(s.wire, s.cmds[i].id); }
    }
    hide ResetsOf;
  }

  /** A granted stream nobody took is cancelled. */
  lemma UndoStep(base: Snap, s: Snap, id: Id)
    requires Runs(base, s) && id in s.handed.send && id !in s.tx.halves && id !in s.early.given
    requires forall tok | tok in s.resolved :: s.resolved[tok] != Opened(id)
    ensures var w := At(s.wire, id);
            Runs(base, s.(wire := s.wire[id := w.(resets := w.resets + [H3_REQUEST_CANCELLED])],
                          shutdowns := s.shutdowns + [Shutdown(id, WriteSide, H3_REQUEST_CANCELLED)],
                          marks := s.marks.(undone := s.marks.undone + {id})))
  {
    hide Grows, Lawful;
    var w := At(s.wire, id);
    var mid := s.(shutdowns := s.shutdowns + [Shutdown(id, WriteSide, H3_REQUEST_CANCELLED)],
                  marks := s.marks.(undone := s.marks.undone + {id}));
    UndoMark(base, s, id);
    UndoWire(base, mid, id, w.(resets := w.resets + [H3_REQUEST_CANCELLED]));
  }

  lemma UndoMark(base: Snap, s: Snap, id: Id)
    requires Runs(base, s) && id in s.handed.send && id !in s.tx.halves && id !in s.early.given
    requires forall tok | tok in s.resolved :: s.resolved[tok] != Opened(id)
    ensures Runs(base, s.(shutdowns := s.shutdowns + [Shutdown(id, WriteSide, H3_REQUEST_CANCELLED)],
                          marks := s.marks.(undone := s.marks.undone + {id})))
  {
    hide WireGrows, AnswersGrow, TokensGrow, HalvesGrow, QueueGrows, ResetsGrow, ReadsGrow, EarlyGrows, MarksGrow;
    hide Extends;
    hide WireLaw, CmdsLaw, EntriesLaw, AbsentLaw, FinalsLaw, ResetsLaw, RecvLaw, UndoneLaw, EarlyLaw;
    var gone := Shutdown(id, WriteSide, H3_REQUEST_CANCELLED);
    MoreDown(base, s, [gone]);
    UndoneAdded(s, id);
    MarksUndone(base, s, id);
  }

  lemma UndoneAdded(s: Snap, id: Id)
    requires Lawful(s) && id in s.handed.send && id !in s.early.given
    requires forall tok | tok in s.resolved :: s.resolved[tok] != Opened(id)
    ensures var undone := s.marks.undone + {id};
            && UndoneLaw(undone, s.handed.send, s.early.given.Keys, s.resolved,
                         s.shutdowns + [Shutdown(id, WriteSide, H3_REQUEST_CANCELLED)])
            && ResetsLaw(s.cmds, s.tx.halves, s.wire, s.handed.send, s.marks.origin, undone, s.answers)
            && RecvLaw(s.handed.recv, s.live, s.sealed, undone, s.drains, s.cmds)
  {
    hide WireLaw, CmdsLaw, EntriesLaw, AbsentLaw, FinalsLaw, EarlyLaw, ResetsOf, ResetServedBy, LetGoLaw;
  }

  lemma MarksUndone(base: Snap, s: Snap, id: Id)
    requires MarksGrow(base.marks, base.wire, base.shutdowns, base.births, base.led, |base.cmds|, s.marks, s.shutdowns)
    ensures MarksGrow(base.marks, base.wire, base.shutdowns, base.births, base.led, |base.cmds|,
                      s.marks.(undone := s.marks.undone + {id}),
                      s.shutdowns + [Shutdown(id, WriteSide, H3_REQUEST_CANCELLED)])
  {
    hide BornSince;
    var gone := Shutdown(id, WriteSide, H3_REQUEST_CANCELLED);
    assert (s.shutdowns + [gone])[|base.shutdowns|..] == s.shutdowns[|base.shutdowns|..] + [gone];
  }

  lemma UndoWire(base: Snap, s: Snap, id: Id, w: Wire)
    requires Runs(base, s) && id !in s.tx.halves && id in s.marks.undone
    requires w == At(s.wire, id).(resets := w.resets) && At(s.wire, id).resets <= w.resets
    ensures Runs(base, s.(wire := s.wire[id := w]))
  {
    hide WireGrows, AnswersGrow, TokensGrow, HalvesGrow, QueueGrows, ResetsGrow, ReadsGrow, EarlyGrows, MarksGrow;
    hide Extends;
    hide WireLaw, CmdsLaw, EntriesLaw, AbsentLaw, FinalsLaw, ResetsLaw, RecvLaw, UndoneLaw, EarlyLaw;
    OtherWire(base, s, id, w);
  }

  /** The receive half of an undone open is dropped. */
  lemma DropUndoneStep(base: Snap, s: Snap, id: Id)
    requires Runs(base, s) && id in s.marks.undone
    ensures Runs(base, s.(live := s.live - {id}))
  {
    hide WireGrows, AnswersGrow, TokensGrow, HalvesGrow, QueueGrows, ResetsGrow, ReadsGrow, EarlyGrows, MarksGrow;
    hide Extends;
    hide WireLaw, CmdsLaw, EntriesLaw, AbsentLaw, FinalsLaw, ResetsLaw, UndoneLaw, EarlyLaw;
    hide LetGoLaw;
  }

  // ----- reads -----

  lemma NotedGrows(taken: map<Id, seq<Byte>>, sealed: map<Id, RecvHalf>, drains: map<Id, seq<Drain.Act>>,
                   taken': map<Id, seq<Byte>>, sealed': map<Id, RecvHalf>, drains': map<Id, seq<Drain.Act>>, id: Id,
                   a: Drain.Act)
    requires ReadsGrow(taken, sealed, drains, taken', sealed', drains')
    ensures ReadsGrow(taken, sealed, drains, taken', sealed', Noted(drains', id, a))
  {
    forall x: Id
      ensures TakenAt(taken, x) <= TakenAt(taken', x) && LogAt(drains, x) <= LogAt(Noted(drains', id, a), x)
    {
      assert LogAt(drains, x) <= LogAt(drains', x);
    }
  }

  /** An operation on a live receive half is noted. */
  lemma DrainStep(base: Snap, s: Snap, id: Id, a: Drain.Act)
    requires Runs(base, s) && id !in s.sealed
    ensures Runs(base, s.(drains := Noted(s.drains, id, a)))
  {
    hide WireGrows, AnswersGrow, TokensGrow, HalvesGrow, QueueGrows, ResetsGrow, ReadsGrow, EarlyGrows, MarksGrow;
    hide Extends;
    hide WireLaw, CmdsLaw, EntriesLaw, AbsentLaw, FinalsLaw, ResetsLaw, UndoneLaw, EarlyLaw;
    hide LetGoLaw;
    NotedGrows(base.taken, base.sealed, base.drains, s.taken, s.sealed, s.drains, id, a);
  }

  /** Bytes are read from a stream. */
  lemma ReadStep(base: Snap, s: Snap, id: Id, data: seq<Byte>)
    requires Runs(base, s)
    ensures Runs(base, s.(taken := s.taken[id := TakenAt(s.taken, id) + data]))
  {
    hide WireGrows, AnswersGrow, TokensGrow, HalvesGrow, QueueGrows, ResetsGrow, EarlyGrows, MarksGrow, Extends;
    hide WireLaw, CmdsLaw, EntriesLaw, AbsentLaw, FinalsLaw, ResetsLaw, RecvLaw, UndoneLaw, EarlyLaw;
    forall x: Id
      ensures TakenAt(base.taken, x) <= TakenAt(s.taken[id := TakenAt(s.taken, id) + data], x)
    {
      assert TakenAt(base.taken, x) <= TakenAt(s.taken, x);
    }
  }

  /** A receive half is let go of, once, and lawfully. */
  lemma SealStep(base: Snap, s: Snap, rx: RecvSide, id: Id)
    requires Runs(base, s)
    requires id in rx.halves ==> id !in s.sealed && LetGoLaw(id, rx.halves[id], LogAt(s.drains, id), s.cmds)
    requires id !in rx.halves ==> id !in s.live
    ensures Runs(base, s.(sealed := SealIn(s.sealed, rx, id), live := s.live - {id}))
  {
    hide WireGrows, AnswersGrow, TokensGrow, HalvesGrow, QueueGrows, ResetsGrow, EarlyGrows, MarksGrow, Extends;
    hide WireLaw, CmdsLaw, EntriesLaw, AbsentLaw, FinalsLaw, ResetsLaw, UndoneLaw, EarlyLaw;
    hide LetGoLaw;
  }

  // ----- tokens, closes and answers -----

  /** A command is submitted, with the next token if it has one. */
  lemma SubmitStep(base: Snap, s: Snap, io: Ingress, c: Command)
    requires Runs(base, s) && s.nextTok == io.nextTok && s.opens == io.opens
    requires CmdTok(c).Some? ==> CmdTok(c).value == io.nextTok
    ensures Runs(base, s.(nextTok := Enqueued(io, c).nextTok, opens := Enqueued(io, c).opens, asked := s.asked + [c]))
  {
    hide WireGrows, AnswersGrow, HalvesGrow, QueueGrows, ResetsGrow, ReadsGrow, EarlyGrows, MarksGrow, Extends;
    hide WireLaw, EntriesLaw, AbsentLaw, FinalsLaw, ResetsLaw, RecvLaw, UndoneLaw, EarlyLaw;
    hide SendTarget;
    assert s.cmds <= s.asked + [c];
  }

  lemma CloseStep(base: Snap, s: Snap, closes: seq<CloseFrame>, applied: seq<CloseFrame>)
    requires Runs(base, s) && s.closes <= closes && s.applied <= applied
    ensures Runs(base, s.(closes := closes, applied := applied))
  {
    hide WireGrows, AnswersGrow, TokensGrow, HalvesGrow, QueueGrows, ResetsGrow, ReadsGrow, EarlyGrows, MarksGrow;
    hide Extends;
    hide WireLaw, CmdsLaw, EntriesLaw, AbsentLaw, FinalsLaw, ResetsLaw, RecvLaw, UndoneLaw, EarlyLaw;
  }

  /** The transport answers about streams that were handed out, or nothing that concerns a stop. */
  lemma AnswerStep(base: Snap, s: Snap, answers: Answers)
    requires Runs(base, s) && AnswersGrow(s.answers, answers)
    requires forall id | id !in s.handed.send :: StopsAt(answers, id) == StopsAt(s.answers, id)
    ensures Runs(base, s.(answers := answers))
  {
    hide WireGrows, AnswersGrow, TokensGrow, HalvesGrow, QueueGrows, ResetsGrow, ReadsGrow, EarlyGrows, MarksGrow;
    hide Extends;
    hide WireLaw, CmdsLaw, EntriesLaw, AbsentLaw, FinalsLaw, ResetsLaw, RecvLaw, UndoneLaw, EarlyLaw;
    AnswersGrowTrans(base.answers, s.answers, answers);
    MoreAnswers(s, answers);
    EarlyHears(s.early, s.answers, answers, s.handed.send, s.past.preset);
  }

  lemma MoreAnswers(s: Snap, answers: Answers)
    requires Lawful(s) && AnswersGrow(s.answers, answers)
    ensures EntriesLaw(s.cmds, s.tx.halves, s.led, s.past.ended, answers, s.closed)
    ensures AbsentLaw(s.cmds, s.tx.halves.Keys, s.wire, s.past.ended, answers)
    ensures FinalsLaw(s.cmds, s.resolved, s.wire, s.marks.finals, answers)
    ensures ResetsLaw(s.cmds, s.tx.halves, s.wire, s.handed.send, s.marks.origin, s.marks.undone, answers)
  {
    hide WireLaw, CmdsLaw, EntriesLaw, AbsentLaw, FinalsLaw, ResetsLaw, RecvLaw, UndoneLaw, EarlyLaw, AnswersGrow;
    EntriesHear(s.cmds, s.tx.halves, s.led, s.past.ended, s.answers, answers, s.closed);
    AbsentHears(s.cmds, s.tx.halves.Keys, s.wire, s.past.ended, s.answers, answers);
    FinalsHear(s.cmds, s.resolved, s.wire, s.marks.finals, s.answers, answers);
    ResetsHear(s.cmds, s.tx.halves, s.wire, s.handed.send, s.marks.origin, s.marks.undone, s.answers, answers);
  }

  /** The capacity probe of a stream not handed out: a stop is seen, the first one counts. */
  lemma ProbeStep(base: Snap, s: Snap, id: Id, r: Result<nat, QuicError>)
    requires Runs(base, s) && id !in s.handed.send
    ensures Runs(base, s.(answers := Probed(s.answers, id, r), early := See(s.early, id, StopOf(r))))
  {
    hide WireGrows, AnswersGrow, TokensGrow, HalvesGrow, QueueGrows, ResetsGrow, ReadsGrow, EarlyGrows, MarksGrow;
    hide Extends;
    hide WireLaw, CmdsLaw, EntriesLaw, AbsentLaw, FinalsLaw, ResetsLaw, RecvLaw, UndoneLaw, EarlyLaw;
    var answers := Probed(s.answers, id, r);
    ProbedGrows(s.answers, id, r);
    AnswersGrowTrans(base.answers, s.answers, answers);
    MoreAnswers(s, answers);
    EarlySaw(s.early, s.answers, answers, s.handed.send, s.past.preset, id, r);
    SawGrows(base.early, base.shutdowns, base.handed.send, s.early, s.shutdowns, id, StopOf(r));
  }

  lemma EarlySaw(e: Early, a: Answers, b: Answers, send: set<Id>, preset: set<Id>, id: Id, r: Result<nat, QuicError>)
    requires EarlyLaw(e, a, send, preset) && id !in send && (forall x | x != id :: StopsAt(b, x) == StopsAt(a, x))
    requires StopsAt(b, id) == StopsAt(a, id) + if r.Err? && r.error.StreamStopped? then [r.error.code] else []
    ensures EarlyLaw(See(e, id, StopOf(r)), b, send, preset)
  {
  }

  lemma SawGrows(e0: Early, down0: seq<Shutdown>, send0: set<Id>, e: Early, down: seq<Shutdown>, id: Id,
                 end: Option<SendEnd>)
    requires EarlyGrows(e0, down0, send0, e, down)
    ensures EarlyGrows(e0, down0, send0, See(e, id, end), down)
  {
  }

  /** The connection terminal is published. */
  lemma PublishStep(base: Snap, s: Snap)
    requires Runs(base, s)
    ensures Runs(base, s.(closed := true))
  {
    hide WireGrows, AnswersGrow, TokensGrow, HalvesGrow, QueueGrows, ResetsGrow, ReadsGrow, EarlyGrows, MarksGrow;
    hide Extends;
    hide WireLaw, CmdsLaw, EntriesLaw, AbsentLaw, FinalsLaw, ResetsLaw, RecvLaw, UndoneLaw, EarlyLaw;
    EntriesClose(s.cmds, s.tx.halves, s.led, s.past.ended, s.answers, s.closed);
  }

  lemma EntriesClose(cmds: seq<Command>, halves: map<Id, SendHalf>, led: map<Id, Ledger>, ended: set<Id>,
                     answers: Answers, closed: bool)
    requires EntriesLaw(cmds, halves, led, ended, answers, closed)
    ensures EntriesLaw(cmds, halves, led, ended, answers, true)
  {
    hide SendBytes, HasFinish, Caused;
  }

  // ----- the start -----

  const NO_MARKS := Marks(map[], {}, map[])
  const NO_STOPS := Early(map[], map[], map[])

  function Start(closes: seq<CloseFrame>, sent: seq<SendCall>): Snap {
    Snap(closes, [], [], sent, [], [], map[], Answers(map[], {}, map[], []), 0, {}, map[], NOBODY, Past({}, {}),
         NO_STOPS, NO_MARKS, NO_SENDS, map[], 0, map[], map[], {}, map[], false)
  }

  lemma StartRuns(closes: seq<CloseFrame>, sent: seq<SendCall>)
    ensures Runs(Start(closes, sent), Start(closes, sent))
  {
    var s := Start(closes, sent);
    StartLawful(closes, sent);
    hide Lawful;
    assert QueueGrows(s.tx, s.tx.steps, s.tx.run, s.tx.runSet);
    hide QueueGrows;
  }

  lemma StartLawful(closes: seq<CloseFrame>, sent: seq<SendCall>)
    ensures Lawful(Start(closes, sent))
  {
    hide ResetsOf, ResetServedBy, EntryLaw, LetGoLaw, FinalLaw;
  }
}
