/**
 * One stream's send half: the FIFO of operations, the single held write and the
 * terminals (quiche-h3/src/driver.rs, `StreamSendState`), with the invariant that
 * relates it to what the transport has accepted.
 */
module SendHalves {
  import opened Base
  import opened Buffers
  import opened Transport

  datatype Op = WriteOp(buf: WriteBuf, done: Token) | FinishOp(done: Token)

  datatype SendHalf = SendHalf(
    ops: seq<Op>,
    pendingReset: Option<nat>,
    terminal: Option<SendEnd>,
    status: Option<SendEnd>,
    finished: bool,
    held: Option<WriteBuf>)

  const FRESH := SendHalf([], None, None, None, false, None)

  /**
   * What the front end asked of one registry entry: the wire when the entry was born,
   * all bytes queued on it since, and whether a FIN was queued. Entries are numbered in order of birth;
   * `from` counts the commands applied before this one was born.
   */
  datatype Ledger = Ledger(base: Wire, submitted: seq<Byte>, finSubmitted: bool, birth: nat, from: nat)

  function Born(w: Wire, birth: nat, from: nat): Ledger {
    Ledger(w, [], false, birth, from)
  }

  /** What queueing `op` adds to what was asked. */
  function Asked(l: Ledger, op: Op): Ledger {
    l.(submitted := l.submitted + OpBytes(op), finSubmitted := op.FinishOp?)
  }

  function OpBytes(op: Op): seq<Byte> {
    if op.WriteOp? then op.buf.Bytes() else []
  }

  function OpsBytes(ops: seq<Op>): seq<Byte> {
    if ops == [] then [] else OpBytes(ops[0]) + OpsBytes(ops[1..])
  }

  function HeldBytes(h: SendHalf): seq<Byte> {
    if h.held.Some? then h.held.value.Bytes() else []
  }

  /** Everything queued or held and not yet accepted by the transport, in FIFO order. */
  function Todo(h: SendHalf): seq<Byte> {
    HeldBytes(h) + OpsBytes(h.ops)
  }

  /** The next operation is the Finish. */
  predicate FinishNext(h: SendHalf) {
    h.ops != [] && h.ops[0].FinishOp?
  }

  predicate EndsWithFinish(ops: seq<Op>) {
    ops != [] && ops[|ops| - 1].FinishOp?
  }

  /** RESET_STREAM calls an entry must have made: its own code once, as soon as it is no longer pending. */
  function ResetsMade(h: SendHalf): seq<nat> {
    match h.terminal
    case Some(LocalReset(code)) => if h.pendingReset.None? then [code] else []
    case _ => []
  }

  /** Terminal coherence: one sticky reason, agreeing with the shared cell, and nothing left behind it. */
  predicate Shape(h: SendHalf) {
    && (h.held.Some? ==> h.held.value.Remaining() > 0)
    && h.status == h.terminal
    && (h.terminal.Some? ==> h.ops == [] && h.held.None?)
    && (h.pendingReset.Some? ==> h.terminal == Some(LocalReset(h.pendingReset.value)) && !h.finished)
    && (forall i :: 0 <= i < |h.ops| - 1 ==> h.ops[i].WriteOp?)
  }

  /** While no terminal exists: accepted ++ held ++ queued is exactly what was submitted. */
  predicate LiveFlow(h: SendHalf, l: Ledger, w: Wire) {
    && w.bytes + Todo(h) == l.base.bytes + l.submitted
    && w.fins == l.base.fins + (if h.finished then 1 else 0)
    && (l.finSubmitted <==> h.finished || EndsWithFinish(h.ops))
    && (h.finished ==> h.ops == [] && h.held.None?)
  }

  /** Always: the wire is a prefix of what was submitted, and a FIN follows all of it at most once. */
  predicate SafeFlow(h: SendHalf, l: Ledger, w: Wire) {
    && w.bytes <= l.base.bytes + l.submitted
    && l.base.fins <= w.fins <= l.base.fins + 1
    && (w.fins == l.base.fins + 1 ==> h.finished && w.bytes == l.base.bytes + l.submitted)
    && w.resets == l.base.resets + ResetsMade(h)
  }

  predicate HalfOk(h: SendHalf, l: Ledger, w: Wire) {
    && Shape(h)
    && SafeFlow(h, l, w)
    && (h.terminal.None? ==> LiveFlow(h, l, w))
  }

  /** Neither the bytes nor the operations left grew. */
  predicate NoGrowth(before: SendHalf, after: SendHalf) {
    |Todo(after)| <= |Todo(before)| && |after.ops| <= |before.ops|
  }

  /** Progress of a half: fewer bytes left, or as many bytes in fewer operations. */
  predicate Shrinks(before: SendHalf, after: SendHalf) {
    NoGrowth(before, after) && (|Todo(after)| < |Todo(before)| || |after.ops| < |before.ops|)
  }

  function Weight(h: SendHalf): nat {
    |Todo(h)| + |h.ops|
  }

  lemma ShrinksWeighs(before: SendHalf, after: SendHalf)
    ensures Shrinks(before, after) ==> NoGrowth(before, after) && Weight(after) < Weight(before)
    ensures NoGrowth(before, after) ==> Weight(after) <= Weight(before)
    ensures NoGrowth(before, before)
  {
  }

  lemma EndedWeighsNothing(before: SendHalf, after: SendHalf)
    requires after.ops == [] && after.held.None?
    ensures NoGrowth(before, after)
  {
  }

  lemma SameWorkWeighsTheSame(before: SendHalf, after: SendHalf)
    requires after.ops == before.ops && after.held == before.held
    ensures NoGrowth(before, after)
  {
  }

  lemma UnholdingWeighsLess(h: SendHalf)
    ensures NoGrowth(h, h.(held := None))
  {
  }

  /** The wire after accepting the next n unsent bytes, with FIN if `fin`. */
  function Sent(h: SendHalf, w: Wire, n: nat, fin: bool): Wire
    requires n <= |Todo(h)|
  {
    w.(bytes := w.bytes + Todo(h)[..n], fins := w.fins + if fin then 1 else 0)
  }

  lemma SentNothing(h: SendHalf, w: Wire)
    ensures Sent(h, w, 0, false) == w
  {
  }

  lemma SlicesJoin(s: seq<Byte>, n: nat, m: nat)
    requires n + m <= |s|
    ensures s[..n] + s[n..][..m] == s[..n + m] && s[n..][m..] == s[n + m..]
  {
  }

  /** Two sends in one turn are one longer send. */
  lemma SentTwice(h: SendHalf, w: Wire, n: nat, h': SendHalf, m: nat, fin: bool)
    requires n <= |Todo(h)| && Todo(h') == Todo(h)[n..] && m <= |Todo(h')|
    ensures Sent(h', Sent(h, w, n, false), m, fin) == Sent(h, w, n + m, fin)
    ensures Todo(h')[m..] == Todo(h)[n + m..]
  {
    hide Todo;
    SlicesJoin(Todo(h), n, m);
    assert (w.bytes + Todo(h)[..n]) + Todo(h')[..m] == w.bytes + (Todo(h)[..n] + Todo(h')[..m]);
  }

  /** The half after n held bytes were accepted. */
  function Flushed(h: SendHalf, n: nat): SendHalf
    requires h.held.Some? && n <= |h.held.value.Chunk()|
  {
    var b := h.held.value.Advance(n);
    h.(held := if b.Remaining() == 0 then None else Some(b))
  }

  /** The half after n bytes of its head write were accepted. */
  function Written(h: SendHalf, n: nat): SendHalf
    requires h.ops != [] && h.ops[0].WriteOp? && n <= |h.ops[0].buf.Chunk()|
  {
    h.(ops := [h.ops[0].(buf := h.ops[0].buf.Advance(n))] + h.ops[1..])
  }

  /** The half after its head write moved into the held slot. */
  function Holding(h: SendHalf): SendHalf
    requires h.ops != [] && h.ops[0].WriteOp?
  {
    h.(ops := h.ops[1..], held := Some(h.ops[0].buf))
  }

  /** The state after a terminal edge: reason published first-writer-wins, all work dropped. */
  function Terminated(h: SendHalf, end: SendEnd): SendHalf {
    h.(terminal := if h.terminal.None? then Some(end) else h.terminal,
    status := if h.status.None? then Some(end) else h.status,
    held := None,
    ops := [])
  }

  // ----- queue algebra -----

  lemma {:induction false} OpsBytesAppend(ops: seq<Op>, op: Op)
    ensures OpsBytes(ops + [op]) == OpsBytes(ops) + OpBytes(op)
  {
    if ops == [] {
      assert ops + [op] == [op];
      assert [op][1..] == [];
    } else {
      assert (ops + [op])[1..] == ops[1..] + [op];
      OpsBytesAppend(ops[1..], op);
    }
  }

  lemma OpsBytesHead(op: Op, rest: seq<Op>)
    ensures OpsBytes([op] + rest) == OpBytes(op) + OpsBytes(rest)
  {
    assert ([op] + rest)[1..] == rest;
  }

  lemma OpsBytesSplit(ops: seq<Op>)
    requires ops != []
    ensures OpsBytes(ops) == OpBytes(ops[0]) + OpsBytes(ops[1..])
  {
  }

  lemma AppendBoth(a: seq<Byte>, b: seq<Byte>, c: seq<Byte>, d: seq<Byte>, e: seq<Byte>)
    requires a + b == c + d
    ensures a + (b + e) == c + (d + e)
    ensures a <= c + d ==> a <= c + (d + e)
  {
    assert a + (b + e) == (a + b) + e;
    assert c + (d + e) == (c + d) + e;
  }

  // ----- one-step facts of the machine -----

  /** A new half is consistent with whatever its stream already has on the wire. */
  lemma FreshOk(w: Wire, birth: nat, from: nat)
    ensures HalfOk(FRESH, Born(w, birth, from), w)
  {
    assert w.bytes + Todo(FRESH) == w.bytes;
    assert w.resets + [] == w.resets;
  }

  lemma EnqueueTodo(h: SendHalf, op: Op)
    ensures Todo(h.(ops := h.ops + [op])) == Todo(h) + OpBytes(op)
  {
    OpsBytesAppend(h.ops, op);
  }

  lemma EnqueueShape(h: SendHalf, op: Op)
    requires Shape(h) && h.terminal.None? && !EndsWithFinish(h.ops)
    ensures Shape(h.(ops := h.ops + [op]))
    ensures EndsWithFinish(h.ops + [op]) <==> op.FinishOp?
  {
    assert forall i :: 0 <= i < |h.ops| ==> h.ops[i].WriteOp?;
  }

  /** Queueing an operation extends what was submitted, and what is left, by exactly its bytes. */
  lemma EnqueueOk(h: SendHalf, l: Ledger, w: Wire, op: Op)
    requires HalfOk(h, l, w) && h.terminal.None? && !l.finSubmitted
    ensures HalfOk(h.(ops := h.ops + [op]), Asked(l, op), w)
  {
    var h' := h.(ops := h.ops + [op]);
    EnqueueShape(h, op);
    EnqueueTodo(h, op);
    AppendBoth(w.bytes, Todo(h), l.base.bytes, l.submitted, OpBytes(op));
    assert ResetsMade(h') == ResetsMade(h);
  }

  /** Accepting a prefix of what is left keeps the live equation. */
  lemma SendKeepsFlow(h: SendHalf, l: Ledger, w: Wire, n: nat, h': SendHalf)
    requires HalfOk(h, l, w) && h.terminal.None? && !h.finished
    requires n <= |Todo(h)|
    requires Shape(h') && h'.terminal.None? && !h'.finished
    requires EndsWithFinish(h'.ops) <==> EndsWithFinish(h.ops)
    requires Todo(h') == Todo(h)[n..]
    ensures HalfOk(h', l, Sent(h, w, n, false))
  {
    var w' := Sent(h, w, n, false);
    assert Todo(h) == Todo(h)[..n] + Todo(h)[n..];
    assert w'.bytes + Todo(h') == w.bytes + Todo(h);
  }

  /** Moving the head write into the held slot changes nothing that is left to send. */
  lemma HoldOk(h: SendHalf, l: Ledger, w: Wire)
    requires HalfOk(h, l, w) && h.terminal.None? && h.held.None?
    requires h.ops != [] && h.ops[0].WriteOp? && h.ops[0].buf.Remaining() > 0
    ensures HalfOk(Holding(h), l, w) && Todo(Holding(h)) == Todo(h) && Shrinks(h, Holding(h))
  {
    assert Todo(Holding(h)) == Todo(h);
    assert forall i :: 0 <= i < |h.ops| - 2 ==> h.ops[1..][i] == h.ops[i + 1];
  }

  /** Flushing n bytes of the held write takes them off the front of what is left. */
  lemma FlushTodo(h: SendHalf, n: nat)
    requires h.held.Some? && n <= |Offer(h.held.value)|
    ensures n <= |Todo(h)| && Todo(h)[..n] == Offer(h.held.value)[..n]
    ensures Todo(Flushed(h, n)) == Todo(h)[n..]
  {
    var b := h.held.value;
    OfferIsPrefix(b);
    AdvanceConsumes(b, n);
    assert Offer(b)[..n] == b.Bytes()[..n];
    assert Todo(h)[n..] == b.Bytes()[n..] + OpsBytes(h.ops);
  }

  lemma FlushOk(h: SendHalf, l: Ledger, w: Wire, n: nat)
    requires HalfOk(h, l, w) && h.terminal.None? && h.held.Some? && n <= |Offer(h.held.value)|
    ensures n <= |Todo(h)|
    ensures HalfOk(Flushed(h, n), l, Sent(h, w, n, false)) && NoGrowth(h, Flushed(h, n))
    ensures n > 0 ==> Shrinks(h, Flushed(h, n))
  {
    FlushTodo(h, n);
    SendKeepsFlow(h, l, w, n, Flushed(h, n));
  }

  /** Writing n bytes of the head operation (no held write) takes them off the front of what is left. */
  lemma WriteTodo(h: SendHalf, n: nat)
    requires h.held.None? && h.ops != [] && h.ops[0].WriteOp? && n <= |Offer(h.ops[0].buf)|
    ensures n <= |Todo(h)| && Todo(h)[..n] == Offer(h.ops[0].buf)[..n]
    ensures Todo(Written(h, n)) == Todo(h)[n..]
  {
    var op := h.ops[0];
    OfferIsPrefix(op.buf);
    AdvanceConsumes(op.buf, n);
    OpsBytesHead(op.(buf := op.buf.Advance(n)), h.ops[1..]);
    OpsBytesSplit(h.ops);
    PrefixOfSum(op.buf.Bytes(), OpsBytes(h.ops[1..]), n);
  }

  lemma PrefixOfSum(a: seq<Byte>, b: seq<Byte>, n: nat)
    requires n <= |a|
    ensures (a + b)[..n] == a[..n] && (a + b)[n..] == a[n..] + b
    ensures [] + (a + b) == a + b && [] + (a[n..] + b) == a[n..] + b
  {
  }

  lemma WriteShape(h: SendHalf, n: nat)
    requires Shape(h) && h.ops != [] && h.ops[0].WriteOp? && n <= |h.ops[0].buf.Chunk()|
    ensures Shape(Written(h, n)) && (EndsWithFinish(Written(h, n).ops) <==> EndsWithFinish(h.ops))
    ensures Written(h, n).terminal == h.terminal && Written(h, n).finished == h.finished
  {
    assert forall i :: 0 < i < |h.ops| ==> Written(h, n).ops[i] == h.ops[i];
  }

  lemma WriteOk(h: SendHalf, l: Ledger, w: Wire, n: nat)
    requires HalfOk(h, l, w) && h.terminal.None? && h.held.None?
    requires h.ops != [] && h.ops[0].WriteOp? && n <= |Offer(h.ops[0].buf)|
    ensures n <= |Todo(h)|
    ensures HalfOk(Written(h, n), l, Sent(h, w, n, false)) && NoGrowth(h, Written(h, n))
    ensures n > 0 ==> Shrinks(h, Written(h, n))
  {
    WriteTodo(h, n);
    WriteShape(h, n);
    assert |Written(h, n).ops| == |h.ops|;
    hide Todo, Written, Offer;
    SendKeepsFlow(h, l, w, n, Written(h, n));
  }

  lemma ShrinksTrans(a: SendHalf, b: SendHalf, c: SendHalf)
    requires Shrinks(a, b) && Shrinks(b, c)
    ensures Shrinks(a, c)
  {
  }

  /** Popping a fully written head operation leaves the same bytes to send. */
  lemma PopOk(h: SendHalf, l: Ledger, w: Wire)
    requires HalfOk(h, l, w) && h.terminal.None?
    requires h.ops != [] && h.ops[0].WriteOp? && h.ops[0].buf.Remaining() == 0
    ensures var h' := h.(ops := h.ops[1..]);
            HalfOk(h', l, w) && Todo(h') == Todo(h) && Shrinks(h, h')
  {
    var h' := h.(ops := h.ops[1..]);
    assert OpBytes(h.ops[0]) == [];
    assert Todo(h') == Todo(h);
    assert forall i :: 0 <= i < |h'.ops| - 1 ==> h'.ops[i] == h.ops[i + 1];
  }

  /** A Finish at the head is the last operation, so only held bytes can remain. */
  lemma FinishIsLast(h: SendHalf)
    requires Shape(h) && h.ops != [] && h.ops[0].FinishOp?
    ensures |h.ops| == 1 && EndsWithFinish(h.ops) && Todo(h) == HeldBytes(h)
  {
    assert |h.ops| == 1;
    assert OpsBytes(h.ops) == [];
  }

  /** The FIN leaves with the last bytes: the half is then done and everything submitted is on the wire. */
  lemma FinOk(h: SendHalf, l: Ledger, w: Wire)
    requires HalfOk(h, l, w) && h.terminal.None?
    requires h.ops != [] && h.ops[0].FinishOp?
    ensures var h' := h.(ops := [], held := None, finished := true);
            HalfOk(h', l, Sent(h, w, |Todo(h)|, true))
            && Sent(h, w, |Todo(h)|, true).bytes == l.base.bytes + l.submitted
  {
    FinishIsLast(h);
    var h' := h.(ops := [], held := None, finished := true);
    assert Todo(h') == [];
    assert Todo(h)[..|Todo(h)|] == Todo(h);
    assert Sent(h, w, |Todo(h)|, true).bytes + [] == w.bytes + Todo(h);
  }

  /** Every terminal edge other than a local reset keeps the half coherent; the first terminal wins, in both cells. */
  lemma TerminatedOk(h: SendHalf, l: Ledger, w: Wire, end: SendEnd)
    requires HalfOk(h, l, w) && !end.LocalReset?
    ensures HalfOk(Terminated(h, end), l, w)
    ensures HalfOk(Terminated(h, end).(finished := true), l, w) || h.pendingReset.Some?
    ensures h.terminal.Some? ==> Terminated(h, end).terminal == h.terminal == Terminated(h, end).status
    ensures h.terminal.None? ==> Terminated(h, end).terminal == Some(end) == Terminated(h, end).status
  {
    var h' := Terminated(h, end);
    assert ResetsMade(h') == ResetsMade(h);
  }

  /** The first effective reset publishes its code and leaves exactly one RESET_STREAM to make. */
  lemma ResetOk(h: SendHalf, l: Ledger, w: Wire, code: nat)
    requires HalfOk(h, l, w) && h.terminal.None? && !h.finished
    ensures HalfOk(Terminated(h, LocalReset(code)).(pendingReset := Some(code)), l, w)
  {
  }

  lemma ResetServicedOk(h: SendHalf, l: Ledger, w: Wire)
    requires HalfOk(h, l, w) && h.pendingReset.Some?
    ensures HalfOk(h.(pendingReset := None, finished := true), l,
                   w.(resets := w.resets + [h.pendingReset.value]))
  {
    assert l.base.resets + [] + [h.pendingReset.value] == l.base.resets + [h.pendingReset.value];
  }

  // ----- the plain sender the held-write machine refines -----

  /** The obvious sender: bytes go out in order, and one FIN follows the last of them. */
  datatype Plain = Plain(sent: seq<Byte>, todo: seq<Byte>, finWanted: bool, fins: int)

  predicate PlainStep(a: Plain, b: Plain, n: nat, fin: bool) {
    && n <= |a.todo|
    && b.sent == a.sent + a.todo[..n]
    && b.todo == a.todo[n..]
    && b.finWanted == a.finWanted
    && b.fins == a.fins + (if fin then 1 else 0)
    && (fin ==> n == |a.todo| && a.finWanted && a.fins == 0)
  }

  function View(h: SendHalf, l: Ledger, w: Wire): Plain {
    Plain(w.bytes, Todo(h), l.finSubmitted, w.fins - l.base.fins)
  }

  /** In every live state the machine is a plain sender part-way through the submitted bytes. */
  lemma HeldRefinesPlain(h: SendHalf, l: Ledger, w: Wire, h': SendHalf, w': Wire, n: nat, fin: bool)
    requires HalfOk(h, l, w) && HalfOk(h', l, w') && h.terminal.None? && h'.terminal.None?
    requires n <= |Todo(h)| && w' == Sent(h, w, n, fin)
    ensures PlainStep(View(h, l, w), View(h', l, w'), n, fin)
  {
    var all := l.base.bytes + l.submitted;
    assert w.bytes + Todo(h) == all && w'.bytes + Todo(h') == all;
    assert Todo(h) == all[|w.bytes|..] && Todo(h') == all[|w'.bytes|..];
    if fin {
      assert h'.finished && Todo(h') == [];
    }
  }
}
