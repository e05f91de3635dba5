/**
 * Party C's signing sessions on the Recovery server (apps/recovery/src/sign/sign.service.ts) and party B's
 * side of the B+C relay that calls them (apps/api/src/mpc/bc-sign-relay.ts).
 */
module RecoverySign {
  import opened Types
  import opened Routing
  import opened SignReference
  import opened Responder

  const SESSION_TTL_MS: nat := 600_000

  datatype Session = Session(wallet: WalletId, party: Party, digest: Digest, createdAt: nat)

  /** One call on the service. Start carries the drawn id and what the share lookup gives (None: no ACTIVE share). */
  datatype Request =
    | AskStart(id: SessionId, wallet: WalletId, digest: Option<Digest>, seed: Option<SignState>)
    | AskRound1(id: SessionId, msgs: seq<Message>)
    | AskRound2(id: SessionId, msgs: seq<Message>)
    | AskRound3(id: SessionId, msgs: seq<Message>)
    | AskLast(id: SessionId)
    | AskAbort(id: SessionId)

  datatype Reply = Started(msg1: Message) | Messages(out: seq<Message>) | Accepted | LastMessage(msg: Message) | Closed | Refused

  /** The sessions gc keeps. */
  function Live(sessions: map<SessionId, Session>, now: nat): map<SessionId, Session> {
    map id | id in sessions && now <= sessions[id].createdAt + SESSION_TTL_MS :: sessions[id]
  }

  function Serve(e: SignEngine, sessions: map<SessionId, Session>, now: nat, q: Request)
    : (map<SessionId, Session>, Reply)
  {
    if q.AskAbort? then (sessions - {q.id}, Closed)
    else
      var live := Live(sessions, now);
      if q.AskStart? then
        if q.digest.None? || q.seed.None? then (live, Refused)
        else
          var p := Open(e, PARTY_C, q.seed.value);
          (live[q.id := Session(q.wallet, p, q.digest.value, now)], Started(p.msg1))
      else if q.id !in live then (live, Refused)
      else
        var s := live[q.id];
        match q
        case AskRound1(_, msgs) =>
          if s.party.stage == WAIT_MSG1 && |msgs| < 1 then (live, Refused)
          else
            (match Round1(e, s.party, msgs)
             case Err(_) => (live, Refused)
             case Ok((p, out)) => (live[q.id := s.(party := p)], Messages(out)))
        case AskRound2(_, msgs) =>
          (match Round2(e, s.party, msgs)
           case Err(_) => (live, Refused)
           case Ok((p, out)) => (live[q.id := s.(party := p)], Messages(out)))
        case AskRound3(_, msgs) =>
          (match Round3(e, s.party, msgs)
           case Err(_) => (live, Refused)
           case Ok(p) => (live[q.id := s.(party := p)], Accepted))
        case AskLast(_) =>
          if s.party.stage != WAIT_LAST then (live, Refused)
          else
            (match e.last(s.party.state, s.digest)
             case None => (live, Refused)
             case Some((_, m)) => (live - {q.id}, LastMessage(m)))
  }

  /** Sessions are forgotten after ten minutes, and a call on a forgotten or unknown one is refused; others are left alone. */
  lemma OldSessionsAreRefused(e: SignEngine, sessions: map<SessionId, Session>, now: nat, q: Request)
    requires !q.AskAbort?
    ensures var (after, reply) := Serve(e, sessions, now, q);
            && (forall id :: id != q.id ==>
                  (id in after <==> id in sessions && now <= sessions[id].createdAt + 600_000))
            && (forall id :: id != q.id && id in after ==> after[id] == sessions[id])
            && (!q.AskStart? && !(q.id in sessions && now <= sessions[q.id].createdAt + 600_000) ==>
                  reply == Refused && q.id !in after)
            && (q.AskStart? ==>
                  (reply == Refused <==> q.digest.None? || q.seed.None?)
                  && (reply != Refused ==> reply.Started? && q.id in after && after[q.id].createdAt == now
                                           && after[q.id].wallet == q.wallet && Some(after[q.id].digest) == q.digest))
  {
  }

  // ---- Runs ----

  datatype Call = Call(now: nat, request: Request)

  /** The sessions after a sequence of calls on a freshly started server. */
  function Run(e: SignEngine, calls: seq<Call>): map<SessionId, Session> {
    if calls == [] then map[]
    else
      var before := Run(e, calls[..|calls| - 1]);
      var c := calls[|calls| - 1];
      Serve(e, before, c.now, c.request).0
  }

  /** A call that succeeded for one session. */
  datatype Event =
    | Opened(msg1: Message, digest: Digest, seed: SignState)
    | Heard(round: nat, msgs: seq<Message>, out: seq<Message>)
    | Signed(msg: Message)

  function EventOf(q: Request, r: Reply, id: SessionId): seq<Event> {
    if q.id != id then []
    else
      match (q, r)
      case (AskStart(_, _, d, s), Started(m)) => if d.Some? && s.Some? then [Opened(m, d.value, s.value)] else []
      case (AskRound1(_, msgs), Messages(out)) => [Heard(1, msgs, out)]
      case (AskRound2(_, msgs), Messages(out)) => [Heard(2, msgs, out)]
      case (AskRound3(_, msgs), Accepted) => [Heard(3, msgs, [])]
      case (AskLast(_), LastMessage(m)) => [Signed(m)]
      case _ => []
  }

  /** Everything that succeeded for session `id`, in order. */
  function Trace(e: SignEngine, calls: seq<Call>, id: SessionId): seq<Event> {
    if calls == [] then []
    else
      var prefix := calls[..|calls| - 1];
      var c := calls[|calls| - 1];
      Trace(e, prefix, id) + EventOf(c.request, Serve(e, Run(e, prefix), c.now, c.request).1, id)
  }

  /** Session ids are drawn at random: no two starts draw the same one. */
  predicate DistinctStarts(calls: seq<Call>) {
    forall i, j :: 0 <= i < j < |calls| && calls[i].request.AskStart? && calls[j].request.AskStart?
                   ==> calls[i].request.id != calls[j].request.id
  }

  /** Party C after its `n`-th later event, by the session's own rules; None when the event breaks them. */
  function ReplayStep(e: SignEngine, p: Party, n: nat, ev: Event): Option<Party> {
    if !ev.Heard? || ev.round != n then None
    else if n == 1 then
      (match Round1(e, p, ev.msgs) case Ok((q, out)) => if out == ev.out then Some(q) else None case Err(_) => None)
    else if n == 2 then
      (match Round2(e, p, ev.msgs) case Ok((q, out)) => if out == ev.out then Some(q) else None case Err(_) => None)
    else if n == 3 then (match Round3(e, p, ev.msgs) case Ok(q) => Some(q) case Err(_) => None)
    else None
  }

  /** Party C after a whole trace. */
  function Replay(e: SignEngine, t: seq<Event>): Option<Party> {
    if t == [] then None
    else if |t| == 1 then
      if t[0].Opened? && t[0].msg1 == Open(e, PARTY_C, t[0].seed).msg1 then Some(Open(e, PARTY_C, t[0].seed)) else None
    else
      match Replay(e, t[..|t| - 1])
      case None => None
      case Some(p) => ReplayStep(e, p, |t| - 1, t[|t| - 1])
  }

  function StageAfter(n: nat): Stage {
    if n <= 1 then WAIT_MSG1 else if n == 2 then WAIT_MSG2 else if n == 3 then WAIT_MSG3 else WAIT_LAST
  }

  /**
   * start, round 1, round 2, round 3, last: a session's successful calls are a prefix of these five, each at
   * most once and in this order, and the last message is made over the digest fixed at start from the state
   * the three rounds led to.
   */
  predicate Disciplined(e: SignEngine, t: seq<Event>) {
    && |t| <= 5
    && (1 <= |t| <= 4 ==> Replay(e, t).Some?)
    && (|t| == 5 ==>
          var p := Replay(e, t[..4]);
          && p.Some? && t[0].Opened? && t[4].Signed?
          && e.last(p.value.state, t[0].digest).Some?
          && t[4].msg == e.last(p.value.state, t[0].digest).value.1)
  }

  /** What the service remembers of a session is what its trace says. */
  predicate Remembers(e: SignEngine, t: seq<Event>, s: Session) {
    && 1 <= |t| <= 4
    && t[0].Opened?
    && s.digest == t[0].digest
    && Replay(e, t) == Some(s.party)
    && s.party.stage == StageAfter(|t|)
    && s.party.id == PARTY_C
  }

  lemma ReplayAppend(e: SignEngine, t: seq<Event>, ev: Event)
    requires t != [] && Replay(e, t).Some?
    ensures Replay(e, t + [ev]) == ReplayStep(e, Replay(e, t).value, |t|, ev)
    ensures (t + [ev])[0] == t[0]
  {
  }

  /** One call on a remembered session keeps it disciplined, whatever the call and its outcome. */
  lemma CallKeepsDiscipline(e: SignEngine, t: seq<Event>, before: map<SessionId, Session>, now: nat, q: Request)
    requires q.id in before && Remembers(e, t, before[q.id])
    requires !q.AskStart?
    ensures var (after, reply) := Serve(e, before, now, q);
            var t' := t + EventOf(q, reply, q.id);
            Disciplined(e, t') && (q.id in after ==> Remembers(e, t', after[q.id]))
  {
    var (after, reply) := Serve(e, before, now, q);
    var ev := EventOf(q, reply, q.id);
    if ev == [] {
      SilentCallKeeps(e, t, before, now, q);
      assert t + [] == t;
    } else {
      assert ev == [ev[0]];
      ReplayAppend(e, t, ev[0]);
      assert (t + ev)[..|t|] == t;
    }
  }

  /** A call that does not succeed leaves the session as it was, or forgets it. */
  lemma SilentCallKeeps(e: SignEngine, t: seq<Event>, before: map<SessionId, Session>, now: nat, q: Request)
    requires q.id in before && Remembers(e, t, before[q.id]) && !q.AskStart?
    requires EventOf(q, Serve(e, before, now, q).1, q.id) == []
    ensures var after := Serve(e, before, now, q).0;
            Disciplined(e, t) && (q.id in after ==> after[q.id] == before[q.id])
  {
  }

  /** For any sequence of calls, failing, repeated or out of order, every session keeps the discipline. */
  lemma {:induction false} PreSignatureDiscipline(e: SignEngine, calls: seq<Call>, id: SessionId)
    requires DistinctStarts(calls)
    ensures Disciplined(e, Trace(e, calls, id))
    ensures id in Run(e, calls) ==> Remembers(e, Trace(e, calls, id), Run(e, calls)[id])
    ensures Trace(e, calls, id) != [] ==> exists i :: 0 <= i < |calls| && calls[i].request.AskStart? && calls[i].request.id == id
  {
    if calls != [] {
      var prefix, c := calls[..|calls| - 1], calls[|calls| - 1];
      PreSignatureDiscipline(e, prefix, id);
      var before, t := Run(e, prefix), Trace(e, prefix, id);
      var reply := Serve(e, before, c.now, c.request).1;
      var ev := EventOf(c.request, reply, id);
      assert Trace(e, calls, id) == t + ev;
      assert t + [] == t;
      if t != [] {
        var i :| 0 <= i < |prefix| && prefix[i].request.AskStart? && prefix[i].request.id == id;
        assert calls[i] == prefix[i];
      }
      if c.request.id == id {
        if !c.request.AskStart? {
          if id in before {
            CallKeepsDiscipline(e, t, before, c.now, c.request);
          }
        } else if reply.Started? {
          StartOpensTrace(e, before, c.now, c.request);
          assert t == [] && [] + ev == ev;
        }
      }
    }
  }

  lemma StartOpensTrace(e: SignEngine, before: map<SessionId, Session>, now: nat, q: Request)
    requires q.AskStart? && Serve(e, before, now, q).1.Started?
    ensures var (after, reply) := Serve(e, before, now, q);
            var t := EventOf(q, reply, q.id);
            Disciplined(e, t) && q.id in after && Remembers(e, t, after[q.id]) && t != []
  {
  }

  /** In particular no session ever emits two last messages. */
  lemma AtMostOneLastMessage(e: SignEngine, calls: seq<Call>, id: SessionId, i: nat, j: nat)
    requires DistinctStarts(calls)
    requires i < j < |Trace(e, calls, id)|
    ensures !(Trace(e, calls, id)[i].Signed? && Trace(e, calls, id)[j].Signed?)
  {
    PreSignatureDiscipline(e, calls, id);
    var t := Trace(e, calls, id);
    var heard := if |t| == 5 then t[..4] else t;
    ReplayHasNoSignature(e, heard);
    assert heard[i] == t[i];
  }

  lemma {:induction false} ReplayHasNoSignature(e: SignEngine, t: seq<Event>)
    requires Replay(e, t).Some?
    ensures forall i :: 0 <= i < |t| ==> !t[i].Signed?
  {
    if |t| > 1 {
      ReplayHasNoSignature(e, t[..|t| - 1]);
      assert forall i :: 0 <= i < |t| - 1 ==> t[i] == t[..|t| - 1][i];
    }
  }

  // ---- The service object ----

  class SignService {
    const engine: SignEngine
    var sessions: map<SessionId, Session>

    constructor (engine: SignEngine)
      ensures this.engine == engine && sessions == map[]
    {
      this.engine := engine;
      sessions := map[];
    }

    method Gc(now: nat)
      modifies this
      ensures sessions == Live(old(sessions), now)
    {
      var todo := sessions.Keys;
      while todo != {}
        invariant todo <= old(sessions).Keys
        invariant forall id :: id in sessions <==>
                    id in old(sessions) && (id in todo || now <= old(sessions)[id].createdAt + SESSION_TTL_MS)
        invariant forall id :: id in sessions ==> sessions[id] == old(sessions)[id]
        decreases |todo|
      {
        var id :| id in todo;
        todo := todo - {id};
        if now > sessions[id].createdAt + SESSION_TTL_MS {
          sessions := sessions - {id};
        }
      }
    }

    method Start(now: nat, id: SessionId, wallet: WalletId, digest: Option<Digest>, seed: Option<SignState>) returns (r: Reply)
      modifies this
      ensures (sessions, r) == Serve(engine, old(sessions), now, AskStart(id, wallet, digest, seed))
    {
      Gc(now);
      if digest.None? || seed.None? {
        return Refused;
      }
      var p := Open(engine, PARTY_C, seed.value);
      sessions := sessions[id := Session(wallet, p, digest.value, now)];
      r := Started(p.msg1);
    }

    method HandleRound1(now: nat, id: SessionId, msg1B: seq<Message>) returns (r: Reply)
      modifies this
      ensures (sessions, r) == Serve(engine, old(sessions), now, AskRound1(id, msg1B))
    {
      Gc(now);
      if id !in sessions || sessions[id].party.stage != WAIT_MSG1 || |msg1B| < 1 {
        return Refused;
      }
      var s := sessions[id];
      match engine.handle(s.party.state, FilterMessages([s.party.msg1] + msg1B, s.party.id)) {
        case None => r := Refused;
        case Some((state, msg2C)) =>
          sessions := sessions[id := s.(party := s.party.(state := state, msg2 := Some(msg2C), stage := WAIT_MSG2))];
          r := Messages(msg2C);
      }
    }

    method HandleRound2(now: nat, id: SessionId, msg2B: seq<Message>) returns (r: Reply)
      modifies this
      ensures (sessions, r) == Serve(engine, old(sessions), now, AskRound2(id, msg2B))
    {
      Gc(now);
      if id !in sessions || sessions[id].party.stage != WAIT_MSG2 || sessions[id].party.msg2.None? {
        return Refused;
      }
      var s := sessions[id];
      match engine.handle(s.party.state, SelectMessages(msg2B + s.party.msg2.value, s.party.id)) {
        case None => r := Refused;
        case Some((state, msg3C)) =>
          sessions := sessions[id := s.(party := s.party.(state := state, msg3 := Some(msg3C), stage := WAIT_MSG3))];
          r := Messages(msg3C);
      }
    }

    method HandleRound3(now: nat, id: SessionId, msg3B: seq<Message>) returns (r: Reply)
      modifies this
      ensures (sessions, r) == Serve(engine, old(sessions), now, AskRound3(id, msg3B))
    {
      Gc(now);
      if id !in sessions || sessions[id].party.stage != WAIT_MSG3 || sessions[id].party.msg3.None? {
        return Refused;
      }
      var s := sessions[id];
      match engine.handle(s.party.state, SelectMessages(msg3B + s.party.msg3.value, s.party.id)) {
        case None => r := Refused;
        case Some((state, _)) =>
          sessions := sessions[id := s.(party := s.party.(state := state, stage := WAIT_LAST))];
          r := Accepted;
      }
    }

    method Last(now: nat, id: SessionId) returns (r: Reply)
      modifies this
      ensures (sessions, r) == Serve(engine, old(sessions), now, AskLast(id))
    {
      Gc(now);
      if id !in sessions || sessions[id].party.stage != WAIT_LAST {
        return Refused;
      }
      match engine.last(sessions[id].party.state, sessions[id].digest) {
        case None => r := Refused;
        case Some((_, msg4C)) =>
          sessions := sessions - {id};
          r := LastMessage(msg4C);
      }
    }

    method Abort(id: SessionId)
      modifies this
      ensures sessions == old(sessions) - {id}
    {
      sessions := sessions - {id};
    }
  }

  // ---- Party B's side ----

  /** What becomes of one call to Recovery: its answer arrives, the call is lost, or only the answer is. */
  datatype Fate = Through | CallLost | AnswerLost

  /** The fates of the relay's calls, the best-effort abort included. */
  datatype Fates = Fates(start: Fate, round1: Fate, round2: Fate, round3: Fate, last: Fate, abort: Fate)

  predicate AllThrough(f: Fates) {
    f.start.Through? && f.round1.Through? && f.round2.Through? && f.round3.Through? && f.last.Through?
  }

  /** The relay's session is the only one the service adds to `others`, and nothing expires meanwhile. */
  ghost predicate OnlyAdds(recovery: SignService, others: map<SessionId, Session>, id: SessionId, s: Session, now: nat)
    reads recovery
  {
    && id !in others
    && Live(others, now) == others
    && s.createdAt == now
    && recovery.sessions == others[id := s]
  }

  /** Party B's three rounds against an open session of party C; a call that is lost or not answered throws. */
  method RelayRounds(
    recovery: SignService, now: nat, id: SessionId, seedB: SignState, msg1C: Message, f: Fates,
    ghost others: map<SessionId, Session>, ghost s: Session)
    returns (b4: Option<SignState>)
    requires OnlyAdds(recovery, others, id, s, now)
    requires s.party.stage == WAIT_MSG1 && s.party.id == PARTY_C && msg1C == s.party.msg1
    modifies recovery
    ensures var met := Meet(recovery.engine, PARTY_B, seedB, s.party);
            if met.None? || !f.round1.Through? || !f.round2.Through? || !f.round3.Through?
            then b4.None? && recovery.sessions - {id} == others
            else b4 == Some(met.value.caller)
                 && OnlyAdds(recovery, others, id, s.(party := met.value.responder), now)
  {
    var e := recovery.engine;
    var (b1, msg1B) := e.first(seedB);
    var step2 := e.handle(b1, FilterMessages([msg1C, msg1B], PARTY_B));
    LiveKeeps(others, id, s, now);
    if step2.None? || f.round1.CallLost? {
      return None;
    }
    var (b2, msg2B) := step2.value;
    var r1 := recovery.HandleRound1(now, id, [msg1B]);
    ghost var met1 := Round1(e, s.party, [msg1B]);
    assert !r1.Messages? <==> met1.Err?;
    if !r1.Messages? || f.round1.AnswerLost? {
      return None;
    }
    ghost var s1 := s.(party := met1.value.0);
    assert OnlyAdds(recovery, others, id, s1, now) && r1.out == met1.value.1;
    b4 := RelayRound2(recovery, now, id, b2, msg2B, r1.out, f, others, s1);
  }

  method RelayRound2(
    recovery: SignService, now: nat, id: SessionId, b2: SignState, msg2B: seq<Message>, msg2C: seq<Message>, f: Fates,
    ghost others: map<SessionId, Session>, ghost s: Session)
    returns (b4: Option<SignState>)
    requires OnlyAdds(recovery, others, id, s, now)
    requires s.party.stage == WAIT_MSG2 && s.party.id == PARTY_C && s.party.msg2 == Some(msg2C)
    modifies recovery
    ensures var met := MeetFromRound2(recovery.engine, PARTY_B, b2, msg2B, s.party, msg2C);
            if met.None? || !f.round2.Through? || !f.round3.Through? then b4.None? && recovery.sessions - {id} == others
            else b4 == Some(met.value.caller)
                 && OnlyAdds(recovery, others, id, s.(party := met.value.responder), now)
  {
    var e := recovery.engine;
    var step3 := e.handle(b2, SelectMessages(msg2B + msg2C, PARTY_B));
    LiveKeeps(others, id, s, now);
    if step3.None? || f.round2.CallLost? {
      return None;
    }
    var (b3, msg3B) := step3.value;
    var r2 := recovery.HandleRound2(now, id, msg2B);
    ghost var met2 := Round2(e, s.party, msg2B);
    assert !r2.Messages? <==> met2.Err?;
    if !r2.Messages? || f.round2.AnswerLost? {
      return None;
    }
    ghost var s2 := s.(party := met2.value.0);
    assert OnlyAdds(recovery, others, id, s2, now) && r2.out == met2.value.1;
    b4 := RelayRound3(recovery, now, id, b3, msg3B, r2.out, f, others, s2);
  }

  method RelayRound3(
    recovery: SignService, now: nat, id: SessionId, b3: SignState, msg3B: seq<Message>, msg3C: seq<Message>, f: Fates,
    ghost others: map<SessionId, Session>, ghost s: Session)
    returns (b4: Option<SignState>)
    requires OnlyAdds(recovery, others, id, s, now)
    requires s.party.stage == WAIT_MSG3 && s.party.id == PARTY_C && s.party.msg3 == Some(msg3C)
    modifies recovery
    ensures var met := MeetFromRound3(recovery.engine, PARTY_B, b3, msg3B, s.party, msg3C);
            if met.None? || !f.round3.Through? then b4.None? && recovery.sessions - {id} == others
            else b4 == Some(met.value.caller)
                 && OnlyAdds(recovery, others, id, s.(party := met.value.responder), now)
  {
    var step4 := recovery.engine.handle(b3, SelectMessages(msg3B + msg3C, PARTY_B));
    LiveKeeps(others, id, s, now);
    if step4.None? || f.round3.CallLost? {
      return None;
    }
    var r3 := recovery.HandleRound3(now, id, msg3B);
    ghost var met3 := Round3(recovery.engine, s.party, msg3B);
    assert !r3.Accepted? <==> met3.Err?;
    if !r3.Accepted? || f.round3.AnswerLost? {
      return None;
    }
    b4 := Some(step4.value.0);
  }

  /** The abort in the catch block; its failure is swallowed. */
  method AbortBestEffort(recovery: SignService, id: SessionId, fate: Fate)
    modifies recovery
    ensures recovery.sessions == if fate.CallLost? then old(recovery.sessions) else old(recovery.sessions) - {id}
  {
    if !fate.CallLost? {
      recovery.Abort(id);
    }
  }

  /**
   * Party B drives the emergency signature against Recovery's party C. The outcome is B's signature of the
   * in-process run on the two shares, None exactly when that run throws before B's signature, a call is lost or not
   * answered, or Recovery has no ACTIVE share. The session is left behind on Recovery, until it expires, only when the
   * answer to start or the call of abort was lost; no other session of Recovery's is touched.
   */
  method SignDigestBcRelay(
    recovery: SignService, now: nat, id: SessionId, wallet: WalletId, digest: Digest, seedB: SignState, seedC: Option<SignState>,
    f: Fates)
    returns (rs: Option<RS>)
    requires id !in recovery.sessions
    requires recovery.engine.first(seedB).1.from == PARTY_B
    requires seedC.Some? ==> recovery.engine.first(seedC.value).1.from == PARTY_C
    modifies recovery
    ensures rs == if seedC.None? || !AllThrough(f) then None
                  else SignatureOf(recovery.engine, [seedB, seedC.value], [PARTY_B, PARTY_C], digest, 0)
    ensures if f.start.CallLost? then recovery.sessions == old(recovery.sessions)
            else recovery.sessions - {id} == Live(old(recovery.sessions), now)
    ensures id in recovery.sessions ==> rs.None? && (f.start.AnswerLost? || f.abort.CallLost?)
  {
    var e := recovery.engine;
    ghost var others := Live(old(recovery.sessions), now);
    if f.start.CallLost? {
      return None;
    }
    var started := recovery.Start(now, id, wallet, Some(digest), seedC);
    if !started.Started? || f.start.AnswerLost? {
      return None;
    }
    ghost var s := Session(wallet, Open(e, PARTY_C, seedC.value), digest, now);
    var closed;
    rs, closed := RelayAndCombine(recovery, now, id, digest, seedB, started.msg1, f, others, s, seedC.value);
    if rs.None? && !closed {
      AbortBestEffort(recovery, id, f.abort);
    }
  }

  /** The rounds and the last messages, on the session start has opened; Recovery closes it when it answers last. */
  method RelayAndCombine(
    recovery: SignService, now: nat, id: SessionId, digest: Digest, seedB: SignState, msg1C: Message, f: Fates,
    ghost others: map<SessionId, Session>, ghost s: Session, ghost seedC: SignState)
    returns (rs: Option<RS>, closed: bool)
    requires OnlyAdds(recovery, others, id, s, now)
    requires s.party == Open(recovery.engine, PARTY_C, seedC) && s.digest == digest && msg1C == s.party.msg1
    requires recovery.engine.first(seedB).1.from == PARTY_B && recovery.engine.first(seedC).1.from == PARTY_C
    modifies recovery
    ensures rs == if f.round1.Through? && f.round2.Through? && f.round3.Through? && f.last.Through?
                  then SignatureOf(recovery.engine, [seedB, seedC], [PARTY_B, PARTY_C], digest, 0) else None
    ensures recovery.sessions - {id} == others && (closed ==> id !in recovery.sessions) && (rs.Some? ==> closed)
  {
    var e := recovery.engine;
    RelaySignatureIsInProcess(e, PARTY_B, seedB, PARTY_C, seedC, digest);
    MeetingRefinesInProcess(e, PARTY_B, seedB, PARTY_C, seedC, digest);
    var b4 := RelayRounds(recovery, now, id, seedB, msg1C, f, others, s);
    if b4.None? {
      return None, false;
    }
    ghost var met := Meet(e, PARTY_B, seedB, s.party).value;
    LiveKeeps(others, id, s.(party := met.responder), now);
    var msg4B := e.last(b4.value, digest);
    if msg4B.None? || f.last.CallLost? {
      return None, false;
    }
    var last := recovery.Last(now, id);
    if !last.LastMessage? || f.last.AnswerLost? {
      return None, false;
    }
    closed := true;
    rs := e.combine(msg4B.value.0, FilterMessages([msg4B.value.1] + [last.msg], PARTY_B));
  }

  /** Collecting again at the same instant keeps what was just collected and a session opened now. */
  lemma LiveKeeps(others: map<SessionId, Session>, id: SessionId, s: Session, now: nat)
    requires id !in others && Live(others, now) == others && s.createdAt == now
    ensures Live(others[id := s], now) == others[id := s]
    ensures others[id := s] - {id} == others
  {
  }
}
