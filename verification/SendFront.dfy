/** The front-end send half (quiche-h3/src/stream.rs, `H3SendStream`). */
module SendFront {
  import opened Base
  import opened Buffers
  import opened Registry

  datatype Poll<+T> = Ready(value: T) | Pending

  type Answer = Result<(), SendEnd>

  /** The Finish and Reset commands in a log. */
  function Ends(log: seq<Command>): seq<Command> {
    if log == [] then []
    else Ends(log[..|log| - 1]) + if EndsSend(log[|log| - 1]) then [log[|log| - 1]] else []
  }

  /** The buffers of the Send commands in a log, in order. */
  function Bufs(log: seq<Command>): seq<WriteBuf> {
    if log == [] then []
    else Bufs(log[..|log| - 1]) + if log[|log| - 1].Send? then [log[|log| - 1].buf] else []
  }

  lemma LogGrows(log: seq<Command>, c: Command)
    ensures Ends(log + [c]) == Ends(log) + if EndsSend(c) then [c] else []
    ensures Bufs(log + [c]) == Bufs(log) + if c.Send? then [c.buf] else []
    ensures SendTarget(c).Some? && Own(log, SendTarget(c).value) ==> Own(log + [c], SendTarget(c).value)
  {
    assert (log + [c])[..|log + [c]| - 1] == log;
  }

  /** Nothing follows the command that ends the half. */
  predicate Orderly(log: seq<Command>) {
    forall i, j :: 0 <= i < j < |log| && EndsSend(log[i]) ==> SendTarget(log[j]).None?
  }

  lemma OrderlyGrows(log: seq<Command>, c: Command)
    requires SendTarget(c).Some?
    ensures Orderly(log + [c]) <==> Orderly(log) && Ends(log) == []
  {
    EndsNone(log);
    assert forall i :: 0 <= i < |log| ==> (log + [c])[i] == log[i];
    if i :| 0 <= i < |log| && EndsSend(log[i]) {
      assert EndsSend((log + [c])[i]) && SendTarget((log + [c])[|log|]).Some?;
    }
  }

  lemma {:induction false} EndsNone(log: seq<Command>)
    ensures Ends(log) == [] <==> forall i :: 0 <= i < |log| ==> !EndsSend(log[i])
  {
    if log != [] {
      EndsNone(log[..|log| - 1]);
      assert forall i :: 0 <= i < |log| - 1 ==> log[..|log| - 1][i] == log[i];
    }
  }

  /** Every command concerns the half's own stream. */
  predicate Own(log: seq<Command>, id: Id) {
    forall i :: 0 <= i < |log| ==> SendTarget(log[i]) == Some(id)
  }

  /** The commands of a queue that concern the send half of `id`, in order. */
  function OnStream(q: seq<Command>, id: Id): seq<Command> {
    if q == [] then []
    else OnStream(q[..|q| - 1], id) + if SendTarget(q[|q| - 1]) == Some(id) then [q[|q| - 1]] else []
  }

  /** In a queue shared by many halves, nothing for `id` follows its end. */
  predicate EndsLast(q: seq<Command>, id: Id) {
    forall i, j :: 0 <= i < j < |q| && EndsSend(q[i]) && SendTarget(q[i]) == Some(id) ==> SendTarget(q[j]) != Some(id)
  }

  predicate NoEnd(q: seq<Command>, id: Id) {
    forall i :: 0 <= i < |q| ==> !(EndsSend(q[i]) && SendTarget(q[i]) == Some(id))
  }

  lemma EndsLastGrows(q: seq<Command>, id: Id)
    requires q != []
    ensures var init, c := q[..|q| - 1], q[|q| - 1];
            && (EndsLast(q, id) <==> EndsLast(init, id) && (SendTarget(c) == Some(id) ==> NoEnd(init, id)))
            && (NoEnd(q, id) <==> NoEnd(init, id) && !(EndsSend(c) && SendTarget(c) == Some(id)))
  {
    var init, c := q[..|q| - 1], q[|q| - 1];
    assert forall i :: 0 <= i < |init| ==> init[i] == q[i];
    if SendTarget(c) == Some(id) && EndsLast(q, id) {
      forall i | 0 <= i < |init|
        ensures !(EndsSend(init[i]) && SendTarget(init[i]) == Some(id))
      {
        assert SendTarget(q[|q| - 1]) == Some(id);
      }
    }
  }

  lemma {:induction false} ProjectionKeepsOrder(q: seq<Command>, id: Id)
    ensures Orderly(OnStream(q, id)) <==> EndsLast(q, id)
    ensures Ends(OnStream(q, id)) == [] <==> NoEnd(q, id)
  {
    hide EndsLast, NoEnd, Orderly, SendTarget;
    if q == [] {
      assert EndsLast(q, id) && NoEnd(q, id) && Orderly([]) by { EmptyIsOrderly(id); }
    } else {
      var init, c := q[..|q| - 1], q[|q| - 1];
      ProjectionKeepsOrder(init, id);
      EndsLastGrows(q, id);
      if SendTarget(c) == Some(id) {
        OrderlyGrows(OnStream(init, id), c);
        LogGrows(OnStream(init, id), c);
      } else {
        assert OnStream(q, id) == OnStream(init, id);
      }
    }
  }

  lemma EmptyIsOrderly(id: Id)
    ensures EndsLast([], id) && NoEnd([], id) && Orderly([])
  {
  }

  /** Commands only name halves that were handed out. */
  predicate Handled(q: seq<Command>, send: set<Id>, recv: set<Id>) {
    && (forall i :: 0 <= i < |q| && SendTarget(q[i]).Some? ==> SendTarget(q[i]).value in send)
    && (forall i :: 0 <= i < |q| && q[i].StopSending? ==> q[i].id in recv)
  }

  /**
   * What the worker expects of its command queue is exactly that each half, on its own, writes nothing after its
   * end: however the commands of many handles interleave, the queue is well-formed iff every half's part is orderly.
   */
  lemma OrderlyHalvesMakeOrderlyQueues(q: seq<Command>, send: set<Id>, recv: set<Id>)
    requires Handled(q, send, recv)
    ensures CmdsWf(q, send, recv, {}) <==> forall id | id in send :: Orderly(OnStream(q, id))
  {
    hide Orderly, Ends, OnStream;
    forall id | id in send
      ensures Orderly(OnStream(q, id)) <==> EndsLast(q, id)
    {
      ProjectionKeepsOrder(q, id);
    }
    if forall id | id in send :: Orderly(OnStream(q, id)) {
      forall i, j | 0 <= i < j < |q| && EndsSend(q[i])
        ensures SendTarget(q[j]) != SendTarget(q[i])
      {
        assert Orderly(OnStream(q, SendTarget(q[i]).value));
        assert EndsLast(q, SendTarget(q[i]).value);
      }
    }
  }

  class SendStream {
    const id: Id

    /** The sticky cell shared with the worker, and a reset issued here. */
    var status: Option<SendEnd>
    var localTerminal: Option<SendEnd>
    /** The one buffer awaiting a flush, and the channel of the write in flight. */
    var stash: Option<WriteBuf>
    var writing: Option<Token>
    /** The channel of the Finish in flight, its retained result, and whether an end was chosen. */
    var finishing: Option<Token>
    var finishResult: Option<Answer>
    var finalized: bool
    /** Commands enqueued so far, and whether the worker closed the channel. */
    var log: seq<Command>
    var closed: bool
    var nextTok: Token
    /** What the worker put into each completion channel, and those it dropped. */
    var completed: map<Token, Answer>
    var dropped: set<Token>

    /** Everything handed to `send_data`, and what a closed channel refused. */
    ghost var given: seq<WriteBuf>
    ghost var refused: seq<WriteBuf>
    /** The first ready answer of `poll_finish`. */
    ghost var answered: Option<Answer>

    constructor (stream: Id, initial: Option<SendEnd>)
      ensures Valid() && id == stream && status == initial && log == [] && !finalized && answered.None?
      ensures stash.None? && writing.None? && finishing.None? && !closed && nextTok == 0 && localTerminal.None?
      ensures completed == map[] && dropped == {}
    {
      id := stream;
      status, localTerminal, stash, writing := initial, None, None, None;
      finishing, finishResult, finalized, log, closed, nextTok := None, None, false, [], false, 0;
      completed, dropped, given, refused, answered := map[], {}, [], [], None;
    }

    /** The sticky terminal visible now: a local reset outranks the shared cell. */
    function TerminalNow(): Option<SendEnd>
      reads `localTerminal, `status
    {
      if localTerminal.Some? then localTerminal else status
    }

    /** The sticky terminal, or an internal error: never a bare cancel. */
    function StickyOr(msg: string): SendEnd
      reads `localTerminal, `status
    {
      if TerminalNow().Some? then TerminalNow().value else SendConn(Internal(msg))
    }

    /** The worker completed the one Finish of this half without error. */
    ghost predicate FinishedOk()
      reads `log, `completed
    {
      exists tok :: Ends(log) == [Finish(id, tok)] && tok in completed && completed[tok].Ok?
    }

    /** The answer `poll_finish` is committed to. */
    ghost predicate Committed(r: Answer)
      reads `finishResult, `finishing, `finalized, `localTerminal, `status
    {
      || finishResult == Some(r)
      || (finishResult.None? && finishing.None? && finalized && TerminalNow().Some? && r == Err(TerminalNow().value))
    }

    /** At most one end is chosen, its result is retained, and the answer given once is the answer for good. */
    ghost predicate EndOk()
      reads this
    {
      && |Ends(log)| <= 1
      && (finalized || Ends(log) == [])
      && (finishing.Some? ==> finalized && Ends(log) == [Finish(id, finishing.value)] && finishResult.None?)
      && (finishResult.Some? ==> finalized && finishing.None?)
      && (finishResult.Some? && finishResult.value.Ok? ==> FinishedOk())
      && (finalized && finishing.None? && finishResult.None? ==> TerminalNow().Some?)
      && (answered.Some? ==> Committed(answered.value))
    }

    /** Every buffer given is enqueued in order, stashed, or was refused by a closed channel. */
    ghost predicate FlowOk()
      reads `log, `stash, `given, `refused, `closed
    {
      && Bufs(log) + refused + (if stash.Some? then [stash.value] else []) == given
      && (refused != [] ==> closed) && Own(log, id)
    }

    ghost predicate Valid()
      reads this
    {
      EndOk() && FlowOk()
    }

    // ----- the worker's side -----

    /** The worker publishes a send terminal; the first one stays. */
    method WorkerPublishes(end: SendEnd)
      requires Valid()
      modifies `status
      ensures Valid() && status == (if old(status).None? then Some(end) else old(status))
    {
      if status.None? {
        status := Some(end);
      }
    }

    /** The worker answers a completion channel once, or drops it. */
    method WorkerAnswers(tok: Token, answer: Option<Answer>)
      requires Valid() && tok !in completed && tok !in dropped
      modifies `completed, `dropped
      ensures Valid()
    {
      if answer.Some? {
        completed := completed[tok := answer.value];
      } else {
        dropped := dropped + {tok};
      }
    }

    method WorkerCloses()
      requires Valid()
      modifies `closed
      ensures Valid() && closed
    {
      closed := true;
    }

    // ----- the caller's side -----

    method Enqueue(c: Command) returns (ok: bool)
      modifies `log
      ensures ok == !closed && log == if ok then old(log) + [c] else old(log)
    {
      ok := !closed;
      if ok {
        log := log + [c];
      }
    }

    method FreshToken() returns (tok: Token)
      modifies `nextTok
      ensures tok == old(nextTok) && nextTok == tok + 1
    {
      tok := nextTok;
      nextTok := nextTok + 1;
    }

    ghost method Give(r: Answer)
      requires answered.Some? ==> answered == Some(r)
      modifies `answered
      ensures answered == Some(r)
    {
      answered := Some(r);
    }

    /** Poll the Finish in flight; whatever arrives is retained. */
    method PollFinishing() returns (r: Poll<Answer>)
      requires Valid() && finishing.Some? && answered.None?
      modifies `finishing, `finishResult, `answered
      ensures Valid() && (r.Ready? ==> answered == Some(r.value) && finishing.None?)
      ensures r.Pending? <==> old(finishing).value !in completed && old(finishing).value !in dropped
      ensures r.Pending? ==> finishing == old(finishing) && answered.None?
    {
      var tok := finishing.value;
      if tok in completed {
        r := Ready(completed[tok]);
      } else if tok in dropped {
        r := Ready(Err(StickyOr("finish completion cancelled without a terminal")));
      } else {
        return Pending;
      }
      finishing := None;
      finishResult := Some(r.value);
      Give(r.value);
    }

    /**
     * Drive the idempotent finish machine. It answers Ok only if the worker completed this half's one Finish
     * without error, and once it has answered, every later poll gives the same answer.
     */
    method PollFinish() returns (r: Poll<Answer>)
      requires Valid()
      modifies `finishing, `finishResult, `finalized, `log, `nextTok, `answered
      ensures Valid() && finalized
      ensures r.Ready? ==> answered == Some(r.value) && (r.value.Ok? ==> FinishedOk())
      ensures old(answered).Some? ==> r == Ready(old(answered).value)
      ensures log == if old(finalized) || TerminalNow().Some? || closed then old(log)
                     else old(log) + [Finish(id, old(nextTok))]
      ensures !old(finalized) && TerminalNow().Some? ==> r == Ready(Err(TerminalNow().value))
      ensures log != old(log) ==> nextTok == old(nextTok) + 1
    {
      hide Ends, Bufs, Own;
      if finishResult.Some? {
        Give(finishResult.value);
        return Ready(finishResult.value);
      }
      if finishing.Some? {
        r := PollFinishing();
        return;
      }
      if finalized {
        var end := TerminalNow();
        r := Ready(if end.Some? then Err(end.value) else Ok(()));
        Give(r.value);
        return;
      }
      finalized := true;
      if TerminalNow().Some? {
        finishResult := Some(Err(TerminalNow().value));
        Give(finishResult.value);
        return Ready(finishResult.value);
      }
      r := StartFinish();
    }

    /** Enqueue the one Finish and poll it. */
    method StartFinish() returns (r: Poll<Answer>)
      requires FlowOk() && finalized && finishing.None? && finishResult.None? && TerminalNow().None?
      requires answered.None? && Ends(log) == []
      modifies `finishing, `finishResult, `log, `nextTok, `answered
      ensures Valid()
      ensures r.Ready? ==> answered == Some(r.value) && (r.value.Ok? ==> FinishedOk())
      ensures log == if closed then old(log) else old(log) + [Finish(id, old(nextTok))]
      ensures log != old(log) ==> nextTok == old(nextTok) + 1
    {
      hide Ends, Bufs, Own;
      var tok := FreshToken();
      LogGrows(log, Finish(id, tok));
      var ok := Enqueue(Finish(id, tok));
      if !ok {
        finishResult := Some(Err(StickyOr("finish channel closed without a terminal")));
        Give(finishResult.value);
        return Ready(finishResult.value);
      }
      finishing := Some(tok);
      r := PollFinishing();
    }

    /** One reset only, and never over an end already chosen; a terminal the worker published is not masked. */
    method Reset(code: nat)
      requires Valid()
      modifies `finalized, `localTerminal, `log
      ensures Valid() && finalized
      ensures old(finalized) ==> log == old(log) && localTerminal == old(localTerminal)
      ensures !old(finalized) ==>
                && TerminalNow() == Some(if status.Some? then old(TerminalNow()).value else LocalReset(code))
                && log == if closed then old(log) else old(log) + [Command.Reset(id, code)]
    {
      hide Ends, Bufs, Own;
      if finalized {
        return;
      }
      finalized := true;
      if status.None? {
        localTerminal := Some(LocalReset(code));
      }
      LogGrows(log, Command.Reset(id, code));
      var ok := Enqueue(Command.Reset(id, code));
    }

    /** Dropping an unfinished half finishes it gracefully; still at most one end is ever enqueued. */
    method Drop()
      requires Valid()
      modifies `finalized, `log, `nextTok
      ensures |Ends(log)| <= 1
      ensures log == if old(finalized) || TerminalNow().Some? || closed then old(log)
                     else old(log) + [Finish(id, old(nextTok))]
    {
      if finalized || TerminalNow().Some? {
        return;
      }
      finalized := true;
      var tok := FreshToken();
      LogGrows(log, Finish(id, tok));
      var ok := Enqueue(Finish(id, tok));
    }

    /** Stash one buffer; a second one before a flush is an error and changes nothing. */
    method SendData(buf: WriteBuf) returns (ok: bool)
      requires Valid()
      modifies `stash, `given
      ensures Valid() && ok == old(stash).None?
      ensures if ok then stash == Some(buf) && given == old(given) + [buf]
              else stash == old(stash) && given == old(given)
    {
      if stash.Some? {
        return false;
      }
      stash := Some(buf);
      given := given + [buf];
      ok := true;
    }

    /** Poll the write in flight and report it once. */
    method PollWriting() returns (r: Poll<Answer>)
      requires Valid() && writing.Some?
      modifies `writing
      ensures Valid() && (r.Ready? <==> writing.None?)
      ensures r.Ready? && r.value.Ok? ==> old(writing).value in completed && completed[old(writing).value].Ok?
      ensures r.Pending? ==> writing == old(writing)
    {
      var tok := writing.value;
      if tok in completed {
        r := Ready(completed[tok]);
      } else if tok in dropped {
        r := Ready(Err(StickyOr("send completion cancelled without a terminal")));
      } else {
        return Pending;
      }
      writing := None;
    }

    /** The next `poll_ready` gets to flushing the stash. */
    predicate Flushes()
      reads `writing, `stash, `localTerminal, `status
    {
      writing.None? && TerminalNow().None? && stash.Some?
    }

    /**
     * Report the write in flight, else flush the stash as exactly one Send once the byte cap admits it.
     * `first` and `again` are the cap's answers before and after registering; a refused admission keeps the
     * buffer for the next poll.
     */
    method PollReady(first: bool, again: bool) returns (r: Poll<Answer>)
      requires Valid()
      modifies `writing, `stash, `log, `nextTok, `refused
      ensures Valid()
      ensures log == if old(Flushes()) && (first || again) && !closed
                     then old(log) + [Send(id, old(stash).value, old(nextTok))] else old(log)
      ensures log != old(log) ==> stash.None? && (Orderly(log) <==> Orderly(old(log)) && Ends(old(log)) == [])
      ensures old(Flushes()) && !first && !again ==> r.Pending? && stash == old(stash)
    {
      hide Ends, Bufs, Own, Orderly;
      if writing.Some? {
        r := PollWriting();
        return;
      }
      if TerminalNow().Some? {
        return Ready(Err(TerminalNow().value));
      }
      if stash.None? {
        return Ready(Ok(()));
      }
      var buf := stash.value;
      stash := None;
      if !first && !again {
        stash := Some(buf);
        return Pending;
      }
      r := Flush(buf);
    }

    /** Enqueue one admitted buffer and poll its completion. */
    method Flush(buf: WriteBuf) returns (r: Poll<Answer>)
      requires EndOk() && writing.None? && stash.None? && Own(log, id)
      requires Bufs(log) + refused + [buf] == given && (refused != [] ==> closed)
      modifies `writing, `log, `nextTok, `refused
      ensures Valid()
      ensures log == if closed then old(log) else old(log) + [Send(id, buf, old(nextTok))]
      ensures log != old(log) ==> (Orderly(log) <==> Orderly(old(log)) && Ends(old(log)) == [])
    {
      hide Ends, Bufs, Own, Orderly;
      var tok := FreshToken();
      LogGrows(log, Send(id, buf, tok));
      OrderlyGrows(log, Send(id, buf, tok));
      var ok := Enqueue(Send(id, buf, tok));
      if !ok {
        refused := refused + [buf];
        return Ready(Err(StickyOr("send channel closed without a terminal")));
      }
      writing := Some(tok);
      r := PollWriting();
    }
  }

  /**
   * The half does not itself keep writes before its end: a caller that stashes a buffer while its Finish is
   * in flight gets a Send enqueued after the Finish.
   */
  method WriteAfterFinish(buf: WriteBuf) returns (s: SendStream)
    ensures s.log == [Finish(0, 0), Send(0, buf, 1)] && !Orderly(s.log)
  {
    hide Ends, Bufs, Own, SendStream.EndOk, SendStream.FlowOk, SendStream.FinishedOk;
    s := new SendStream(0, None);
    var p := s.PollFinish();
    assert s.log == [Finish(0, 0)];
    var ok := s.SendData(buf);
    var q := s.PollReady(true, true);
    assert EndsSend(s.log[0]) && SendTarget(s.log[1]).Some?;
  }
}
