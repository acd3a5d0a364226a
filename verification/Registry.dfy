/**
 * Where completion tokens live, which stream ids are in which admission state, and
 * what the front end promises about its commands.
 */
module Registry {
  import opened Base
  import opened Buffers
  import opened Queues
  import opened SendHalves

  datatype Command =
    | OpenBidi(reply: Token)
    | OpenUni(reply: Token)
    | Send(id: Id, buf: WriteBuf, done: Token)
    | Finish(id: Id, done: Token)
    | Reset(id: Id, code: nat)
    | StopSending(id: Id, code: nat)
    | Close(frame: CloseFrame)
    | RecvResume(id: Id)
    | AcceptBidiResume
    | AcceptUniResume
    | ConnectionDropped

  /** How a completion channel was resolved. Being dropped is not an outcome. */
  datatype Outcome =
    | Delivered
    | Failed(end: SendEnd)
    | Opened(id: Id)
    | Declined(terminal: ConnTerminal)

  /** Where an unresolved token is held. */
  datatype Place = InCmd | InSend(id: Id) | InOpenBidi | InOpenUni

  // ----- completion tokens -----

  function Toks(ops: seq<Op>): set<Token> {
    set i | 0 <= i < |ops| :: ops[i].done
  }

  predicate DistinctToks(ops: seq<Op>) {
    forall i, j :: 0 <= i < j < |ops| ==> ops[i].done != ops[j].done
  }

  /** Send queues and the token map agree in both directions, and no token is queued twice. */
  ghost predicate SendToks(send: map<Id, SendHalf>, home: map<Token, Place>) {
    && (forall id | id in send :: DistinctToks(send[id].ops))
    && (forall id, tok | id in send && tok in Toks(send[id].ops) :: tok in home && home[tok] == InSend(id))
    && (forall tok | tok in home && home[tok].InSend? ::
          home[tok].id in send && tok in Toks(send[home[tok].id].ops))
  }

  function CmdTok(c: Command): Option<Token> {
    match c
    case OpenBidi(reply) => Some(reply)
    case OpenUni(reply) => Some(reply)
    case Send(_, _, done) => Some(done)
    case Finish(_, done) => Some(done)
    case _ => None
  }

  predicate IsOpen(c: Command) {
    c.OpenBidi? || c.OpenUni?
  }

  /** The command FIFO and the token map agree in both directions. */
  ghost predicate CmdToks(q: seq<Command>, home: map<Token, Place>) {
    && (forall i, j :: 0 <= i < j < |q| && CmdTok(q[i]).Some? ==> CmdTok(q[i]) != CmdTok(q[j]))
    && (forall i :: 0 <= i < |q| && CmdTok(q[i]).Some? ==>
          CmdTok(q[i]).value in home && home[CmdTok(q[i]).value] == InCmd)
    && (forall tok | tok in home && home[tok] == InCmd ::
          exists i :: 0 <= i < |q| && CmdTok(q[i]) == Some(tok))
  }

  /** A staged open queue and the token map agree in both directions. */
  ghost predicate OpenToks(q: seq<Token>, place: Place, home: map<Token, Place>) {
    && NoDup(q)
    && (forall tok | tok in q :: tok in home && home[tok] == place)
    && (forall tok | tok in home && home[tok] == place :: tok in q)
  }

  /** The token map after some tokens left the send queues. */
  predicate OnlySendLeft(before: map<Token, Place>, after: map<Token, Place>) {
    && after.Keys <= before.Keys
    && (forall tok | tok in before :: tok in after || before[tok].InSend?)
    && (forall tok | tok in after :: after[tok] == before[tok])
  }

  lemma OtherToksKept(q: seq<Command>, ob: seq<Token>, ou: seq<Token>, before: map<Token, Place>,
                      after: map<Token, Place>)
    requires CmdToks(q, before) && OpenToks(ob, InOpenBidi, before) && OpenToks(ou, InOpenUni, before)
    requires OnlySendLeft(before, after)
    ensures CmdToks(q, after) && OpenToks(ob, InOpenBidi, after) && OpenToks(ou, InOpenUni, after)
  {
  }

  lemma CmdToksAside(q: seq<Command>, home: map<Token, Place>, tok: Token, id: Id)
    requires CmdToks(q, home) && tok !in home
    ensures CmdToks(q, home[tok := InSend(id)])
  {
    hide CmdTok;
    var home' := home[tok := InSend(id)];
    forall i | 0 <= i < |q| && CmdTok(q[i]).Some?
      ensures CmdTok(q[i]).value in home' && home'[CmdTok(q[i]).value] == InCmd
    {
    }
    forall x | x in home' && home'[x] == InCmd
      ensures exists i :: 0 <= i < |q| && CmdTok(q[i]) == Some(x)
    {
      assert x in home && home[x] == InCmd;
      var i :| 0 <= i < |q| && CmdTok(q[i]) == Some(x);
    }
  }

  lemma OpenToksAside(q: seq<Token>, place: Place, home: map<Token, Place>, tok: Token, id: Id)
    requires OpenToks(q, place, home) && tok !in home && !place.InSend?
    ensures OpenToks(q, place, home[tok := InSend(id)])
  {
    hide NoDup;
  }

  lemma SendToksDrain(send: map<Id, SendHalf>, home: map<Token, Place>, id: Id, h: SendHalf)
    requires SendToks(send, home) && id in send && h.ops == []
    ensures SendToks(send[id := h], home - Toks(send[id].ops))
    ensures OnlySendLeft(home, home - Toks(send[id].ops))
  {
  }

  lemma SendToksHeld(send: map<Id, SendHalf>, home: map<Token, Place>, id: Id)
    requires SendToks(send, home) && id in send
    ensures DistinctToks(send[id].ops) && Toks(send[id].ops) <= home.Keys
  {
  }

  lemma ToksTail(ops: seq<Op>)
    requires ops != [] && DistinctToks(ops)
    ensures DistinctToks(ops[1..])
    ensures ops[0].done in Toks(ops) && Toks(ops[1..]) == Toks(ops) - {ops[0].done}
  {
    var rest := ops[1..];
    assert forall i :: 0 <= i < |rest| ==> rest[i] == ops[i + 1];
    assert forall i :: 0 < i < |ops| ==> rest[i - 1] == ops[i];
  }

  lemma SendToksPop(send: map<Id, SendHalf>, home: map<Token, Place>, id: Id, h: SendHalf)
    requires SendToks(send, home) && id in send && send[id].ops != [] && h.ops == send[id].ops[1..]
    ensures SendToks(send[id := h], home - {send[id].ops[0].done})
    ensures OnlySendLeft(home, home - {send[id].ops[0].done})
    ensures send[id].ops[0].done in home
  {
    var ops := send[id].ops;
    ToksTail(ops);
    assert DistinctToks(ops);
  }

  lemma SendToksSame(send: map<Id, SendHalf>, home: map<Token, Place>, id: Id, h: SendHalf)
    requires SendToks(send, home) && id in send
    requires |h.ops| == |send[id].ops| && forall i :: 0 <= i < |h.ops| ==> h.ops[i].done == send[id].ops[i].done
    ensures SendToks(send[id := h], home)
  {
    assert Toks(h.ops) == Toks(send[id].ops);
  }

  lemma SendToksBorn(send: map<Id, SendHalf>, home: map<Token, Place>, id: Id, h: SendHalf)
    requires SendToks(send, home) && id !in send && h.ops == []
    ensures SendToks(send[id := h], home)
  {
  }

  lemma SendToksGone(send: map<Id, SendHalf>, home: map<Token, Place>, id: Id)
    requires SendToks(send, home) && id in send && send[id].ops == []
    ensures SendToks(send - {id}, home)
  {
  }

  /** A queued operation's token moves from the command FIFO to its stream. */
  lemma SendToksPush(send: map<Id, SendHalf>, home: map<Token, Place>, id: Id, h: SendHalf, op: Op)
    requires SendToks(send, home) && id in send && h.ops == send[id].ops + [op]
    requires op.done !in home
    ensures SendToks(send[id := h], home[op.done := InSend(id)])
  {
    var ops := send[id].ops;
    assert Toks(h.ops) == Toks(ops) + {op.done} by {
      forall tok | tok in Toks(ops)
        ensures tok in Toks(h.ops)
      {
        var i :| 0 <= i < |ops| && ops[i].done == tok;
        assert h.ops[i].done == tok;
      }
      assert h.ops[|ops|].done == op.done;
    }
    assert forall i :: 0 <= i < |ops| ==> ops[i].done in Toks(ops);
  }

  /** A command joins the FIFO with a token nobody holds yet. */
  lemma CmdToksPush(q: seq<Command>, home: map<Token, Place>, c: Command)
    requires CmdToks(q, home) && (CmdTok(c).Some? ==> CmdTok(c).value !in home)
    ensures CmdTok(c).None? ==> CmdToks(q + [c], home)
    ensures CmdTok(c).Some? ==> CmdToks(q + [c], home[CmdTok(c).value := InCmd])
  {
    var home' := if CmdTok(c).Some? then home[CmdTok(c).value := InCmd] else home;
    forall tok | tok in home' && home'[tok] == InCmd
      ensures exists i :: 0 <= i < |q| + 1 && CmdTok((q + [c])[i]) == Some(tok)
    {
      if tok in home && home[tok] == InCmd {
        var i :| 0 <= i < |q| && CmdTok(q[i]) == Some(tok);
        assert CmdTok((q + [c])[i]) == Some(tok);
      } else {
        assert CmdTok((q + [c])[|q|]) == Some(tok);
      }
    }
  }

  lemma OpenToksPop(q: seq<Token>, place: Place, home: map<Token, Place>)
    requires q != [] && OpenToks(q, place, home)
    ensures q[0] in home && home[q[0]] == place && OpenToks(q[1..], place, home - {q[0]})
  {
    assert q == [q[0]] + q[1..];
  }

  lemma OpenToksPush(q: seq<Token>, place: Place, home: map<Token, Place>, tok: Token)
    requires OpenToks(q, place, home) && tok !in home
    ensures OpenToks(q + [tok], place, home[tok := place])
  {
  }

  lemma CmdToksPop(q: seq<Command>, home: map<Token, Place>)
    requires q != [] && CmdToks(q, home)
    ensures CmdTok(q[0]).None? ==> CmdToks(q[1..], home)
    ensures CmdTok(q[0]).Some? ==>
              && CmdTok(q[0]).value in home
              && CmdToks(q[1..], home - {CmdTok(q[0]).value})
  {
    var home' := if CmdTok(q[0]).Some? then home - {CmdTok(q[0]).value} else home;
    assert forall i :: 0 <= i < |q| - 1 ==> q[1..][i] == q[i + 1];
    forall tok | tok in home' && home'[tok] == InCmd
      ensures exists i :: 0 <= i < |q| - 1 && CmdTok(q[1..][i]) == Some(tok)
    {
      var i :| 0 <= i < |q| && CmdTok(q[i]) == Some(tok);
      assert CmdTok(q[1..][i - 1]) == Some(tok);
    }
  }

  // ----- what the front end promises -----

  function SendTarget(c: Command): Option<Id> {
    match c
    case Send(id, _, _) => Some(id)
    case Finish(id, _) => Some(id)
    case Reset(id, _) => Some(id)
    case _ => None
  }

  /** Finish and Reset end a send half. */
  predicate EndsSend(c: Command) {
    c.Finish? || c.Reset?
  }

  /**
   * Commands come only from a stream's own handles, and nothing targets a send half after
   * the one Finish or Reset that ends it.
   */
  predicate CmdsWf(q: seq<Command>, handedSend: set<Id>, handedRecv: set<Id>, ended: set<Id>) {
    && (forall i :: 0 <= i < |q| && SendTarget(q[i]).Some? ==>
          SendTarget(q[i]).value in handedSend && SendTarget(q[i]).value !in ended)
    && (forall i, j :: 0 <= i < j < |q| && EndsSend(q[i]) ==> SendTarget(q[j]) != SendTarget(q[i]))
    && (forall i :: 0 <= i < |q| && q[i].StopSending? ==> q[i].id in handedRecv)
  }

  lemma CmdsWfPop(q: seq<Command>, handedSend: set<Id>, handedRecv: set<Id>, ended: set<Id>)
    requires q != [] && CmdsWf(q, handedSend, handedRecv, ended)
    ensures CmdsWf(q[1..], handedSend, handedRecv,
                   if EndsSend(q[0]) then ended + {q[0].id} else ended)
  {
    assert forall i :: 0 <= i < |q| - 1 ==> q[1..][i] == q[i + 1];
  }

  /** A well-formed command to a fresh or still open half keeps the FIFO well formed. */
  lemma CmdsWfPush(q: seq<Command>, handedSend: set<Id>, handedRecv: set<Id>, ended: set<Id>, c: Command)
    requires CmdsWf(q, handedSend, handedRecv, ended)
    requires SendTarget(c).Some? ==> SendTarget(c).value in handedSend && SendTarget(c).value !in ended
    requires SendTarget(c).Some? ==> forall i :: 0 <= i < |q| && EndsSend(q[i]) ==> SendTarget(q[i]) != SendTarget(c)
    requires c.StopSending? ==> c.id in handedRecv
    ensures CmdsWf(q + [c], handedSend, handedRecv, ended)
  {
  }

  // ----- admission -----

  /** A discovered peer stream, owning any STOP_SENDING seen before admission. */
  datatype PeerStream = PeerStream(id: Id, sendEnd: Option<SendEnd>)

  datatype AdmitState = Parked(peer: PeerStream) | Registered(sendDone: bool, recvDone: bool)

  /** The admission map, the discovered ids awaiting admission, and the per-class queues. */
  datatype Admission = Admission(
    admit: map<Id, AdmitState>,
    pending: map<Id, PeerStream>,
    pendBidi: seq<Id>,
    pendUni: seq<Id>,
    parkBidi: seq<Id>,
    parkUni: seq<Id>)

  /** Ids whose send (receive) half was handed to the front end. */
  datatype Handed = Handed(send: set<Id>, recv: set<Id>) {
    predicate Has(id: Id) {
      id in send || id in recv
    }
  }

  predicate AllTerminal(admit: map<Id, AdmitState>, id: Id) {
    && id in admit
    && admit[id].Registered?
    && (if IsBidi(id) then admit[id].sendDone && admit[id].recvDone else admit[id].recvDone)
  }

  /**
   * The admission partition. Every observed peer id is pending (once, in its class queue),
   * parked (once, in its class queue) or registered; a registered id lost its receive half
   * exactly when `recvDone`, and is never kept with all its directions done.
   */
  ghost predicate AdmitOk(a: Admission, live: set<Id>, handed: Handed, isServer: bool) {
    && NoDup(a.pendBidi) && NoDup(a.pendUni) && NoDup(a.parkBidi) && NoDup(a.parkUni)
    && (forall id :: id in a.pendBidi <==> id in a.pending && IsBidi(id))
    && (forall id :: id in a.pendUni <==> id in a.pending && !IsBidi(id))
    && (forall id :: id in a.parkBidi <==> id in a.admit && a.admit[id].Parked? && IsBidi(id))
    && (forall id :: id in a.parkUni <==> id in a.admit && a.admit[id].Parked? && !IsBidi(id))
    && a.pending.Keys !! a.admit.Keys
    && (forall id | id in a.pending :: a.pending[id].id == id && !IsLocal(id, isServer) && !handed.Has(id))
    && (forall id | id in a.admit :: !IsLocal(id, isServer))
    && (forall id | id in a.admit && a.admit[id].Parked? :: a.admit[id].peer.id == id && !handed.Has(id))
    && (forall id | id in a.admit && a.admit[id].Registered? ::
          && handed.Has(id)
          && (a.admit[id].recvDone <==> id !in live)
          && !AllTerminal(a.admit, id)
          && (!IsBidi(id) ==> a.admit[id].sendDone))
    && live <= handed.recv
    && (forall id | id in live && !IsLocal(id, isServer) :: id in a.admit && a.admit[id].Registered?)
  }

  /** Admission once a stream's send direction is done: a fully done stream is dropped at once. */
  function SendDoneIn(admit: map<Id, AdmitState>, id: Id): map<Id, AdmitState> {
    if id in admit && admit[id].Registered? then
      var done := admit[id := admit[id].(sendDone := true)];
      if AllTerminal(done, id) then done - {id} else done
    else admit
  }

  function RecvDoneIn(admit: map<Id, AdmitState>, id: Id): map<Id, AdmitState> {
    if id in admit && admit[id].Registered? then
      var done := admit[id := admit[id].(recvDone := true)];
      if AllTerminal(done, id) then done - {id} else done
    else admit
  }

  /** Ending the receive direction ends the whole stream. */
  predicate Retires(admit: map<Id, AdmitState>, id: Id) {
    id in admit && admit[id].Registered? && (IsBidi(id) ==> admit[id].sendDone)
  }

  lemma AdmitSendDone(a: Admission, live: set<Id>, handed: Handed, isServer: bool, id: Id)
    requires AdmitOk(a, live, handed, isServer)
    ensures AdmitOk(a.(admit := SendDoneIn(a.admit, id)), live, handed, isServer)
    ensures id in a.admit && id !in SendDoneIn(a.admit, id) ==> id !in live
  {
  }

  lemma AdmitRecvDone(a: Admission, live: set<Id>, handed: Handed, isServer: bool, id: Id)
    requires AdmitOk(a, live, handed, isServer)
    ensures AdmitOk(a.(admit := RecvDoneIn(a.admit, id)), live - {id}, handed, isServer)
    ensures id in a.admit && a.admit[id].Registered? && !IsBidi(id) ==> a.admit[id].sendDone
  {
  }
}
