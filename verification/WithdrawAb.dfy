/** The browser's side of A+B signing (apps/web/src/lib/mpc/withdraw-ab.ts): party A calling the orchestrator. */
module WithdrawAb {
  import opened Types
  import opened Text
  import opened Routing
  import opened SignReference
  import opened Responder
  import opened EthTransfer
  import opened Withdraws
  import opened Wysiwys
  import opened AbSigning
  import opened AbInvariant
  import opened Idempotency
  import opened SignOrchestrator

  datatype WithdrawResult = Done(row: nat, status: WithdrawStatus, txHash: Option<TxHash>) | WithdrawFailed

  /** The key was drawn at random: no row carries it. */
  ghost predicate FreshKey(a: Api, q: StartCall) {
    forall i :: 0 <= i < |a.rows| ==> a.rows[i].key != Some(Key(q.wallet, Trim(q.key)))
  }

  /** A start with a new key opens the session it drew. */
  lemma FreshStartOpens(b: Backend, a0: Api, now: nat, l: Ledger, lost: set<SessionId>, q: StartCall)
    requires FreshKey(a0, q) && Start(b, a0, now, l, lost, q).1.Signing?
    ensures var (a, r) := Start(b, a0, now, l, lost, q);
            && r.session == q.session && q.session in a.sessions
            && var s := a.sessions[q.session];
               && s.party == Open(b.engine, PARTY_B, q.seed) && r.msg1 == s.party.msg1
               && s.user == q.user && s.wallet == q.wallet && s.createdAt == now
               && s.row == r.row && s.digest == r.digest && s.tx == r.tx
               && q.wallet in a.wallets && a.wallets[q.wallet].status == ACTIVE && s.address == a.wallets[q.wallet].address
  {
  }

  /** What the broadcast of a session's transaction looks like once `rs` is known. */
  function Broadcast(b: Backend, s: Session, rs: Option<RS>): seq<Sent> {
    if rs.None? then []
    else
      match (b.buildSignature(s.digest, rs.value, s.address), TxFromStoredFields(b.codec, s.tx))
      case (Some(sig), Some(tx)) => [Sent(s.row, tx, b.codec.serialize(tx, sig))]
      case _ => []
  }

  lemma BroadcastIgnoresStage(b: Backend, s: Session, party: Party, rs: Option<RS>)
    ensures Broadcast(b, s.(party := party), rs) == Broadcast(b, s, rs)
  {
  }

  /** When party A and party B have met, complete with A's last message broadcasts B's in-process signature. */
  lemma SignAsBIsInProcess(b: Backend, s: Session, seedA: SignState, seedB: SignState, met: Meeting)
    requires b.engine.first(seedA).1.from == PARTY_A && b.engine.first(seedB).1.from == PARTY_B
    requires Meet(b.engine, PARTY_A, seedA, Open(b.engine, PARTY_B, seedB)) == Some(met)
    requires s.party == met.responder && b.engine.last(met.caller, s.digest).Some?
    ensures var msg4A := b.engine.last(met.caller, s.digest).value.1;
            var rs := SignatureOf(b.engine, [seedA, seedB], [PARTY_A, PARTY_B], s.digest, 1);
            Broadcast(b, s, rs) == match SignAsB(b, s, [msg4A])
                                   case None => []
                                   case Some((tx, raw)) => [Sent(s.row, tx, raw)]
  {
    RelaySignatureIsInProcess(b.engine, PARTY_A, seedA, PARTY_B, seedB, s.digest);
    MeetingRefinesInProcess(b.engine, PARTY_A, seedA, PARTY_B, seedB, s.digest);
  }

  /** A session nothing stands in the way of: its row is PROCESSING and its own, and its wallet ACTIVE. */
  predicate Ready(a: Api, id: SessionId, s: Session) {
    && id in a.sessions && a.sessions[id] == s
    && s.row < |a.rows| && a.rows[s.row].status == PROCESSING
    && (forall other :: other in a.sessions && other != id ==> a.sessions[other].row != s.row)
    && (forall i :: 0 <= i < |a.rows| && a.rows[i].metadata.NormalAb? && a.rows[i].metadata.session == id ==>
                      !IsTerminal(a.rows[i].status))
    && s.wallet in a.wallets && a.wallets[s.wallet].status == ACTIVE
  }

  lemma OkIsReady(b: Backend, a: Api, now: nat, id: SessionId)
    requires ApiOk(b, a, now) && id in a.sessions && a.wallets[a.sessions[id].wallet].status == ACTIVE
    ensures Ready(a, id, a.sessions[id])
  {
  }

  /** A session that is in time survives the expiry at the start of every handler. */
  lemma GcKeepsReady(a: Api, now: nat, lost: set<SessionId>, id: SessionId, s: Session)
    requires Ready(a, id, s) && now <= s.createdAt + SESSION_TTL_MS
    ensures Ready(Gc(a, now, lost), id, s)
  {
  }

  /** The call comes after the lifetime of a session created then. */
  predicate Late(created: nat, call: Call) {
    call.at > created + SESSION_TTL_MS
  }

  /** What follows start: the three rounds and complete. */
  datatype Calls = Calls(round1: Call, round2: Call, round3: Call, complete: Call)

  predicate InTime(created: nat, calls: Calls) {
    !Late(created, calls.round1) && !Late(created, calls.round2) && !Late(created, calls.round3) && !Late(created, calls.complete)
  }

  lemma RoundKeepsReady(b: Backend, a: Api, call: Call, user: UserId, id: SessionId, n: nat, msgs: seq<Message>, s: Session)
    requires Ready(a, id, s) && !Late(s.createdAt, call)
    ensures var a' := HandleRound(b, a, call.at, call.lost, user, id, n, msgs).0;
            id in a'.sessions && Ready(a', id, a'.sessions[id]) && a'.sessions[id].user == s.user && a'.sent == a.sent
  {
    GcKeepsReady(a, call.at, call.lost, id, s);
    RoundShape(b, a, call.at, call.lost, user, id, n, msgs);
  }

  /** A late call finds its session expired. */
  lemma LateRoundIsRefused(b: Backend, a: Api, call: Call, user: UserId, id: SessionId, n: nat, msgs: seq<Message>)
    requires id in a.sessions && Late(a.sessions[id].createdAt, call)
    ensures var (a', r) := HandleRound(b, a, call.at, call.lost, user, id, n, msgs);
            r == RoundRefused(SESSION_NOT_FOUND) && id !in a'.sessions
  {
  }

  /** Whoever's the session is, if it is still there. */
  predicate StillOwned(a: Api, user: UserId, id: SessionId) {
    id in a.sessions ==> a.sessions[id].user == user
  }

  /** A round advances the session when it is in time and party B's step does not throw. */
  lemma Round1Outcome(b: Backend, a: Api, call: Call, user: UserId, id: SessionId, msg: Message, s: Session)
    requires Ready(a, id, s) && s.user == user && s.party.stage == WAIT_MSG1 && msg.from == PARTY_A
    ensures var (a', r) := HandleRound(b, a, call.at, call.lost, user, id, 1, [msg]);
            var round := Round1(b.engine, s.party, [msg]);
            && StillOwned(a', user, id)
            && if round.Err? || Late(s.createdAt, call) then !r.Messages?
               else r == Messages(round.value.1) && Ready(a', id, s.(party := round.value.0))
  {
    if Late(s.createdAt, call) {
      LateRoundIsRefused(b, a, call, user, id, 1, [msg]);
    } else {
      RoundKeepsReady(b, a, call, user, id, 1, [msg], s);
    }
  }

  lemma Round2Outcome(b: Backend, a: Api, call: Call, user: UserId, id: SessionId, msgs: seq<Message>, s: Session)
    requires Ready(a, id, s) && s.user == user
    ensures var (a', r) := HandleRound(b, a, call.at, call.lost, user, id, 2, msgs);
            var round := Round2(b.engine, s.party, msgs);
            && StillOwned(a', user, id)
            && if round.Err? || Late(s.createdAt, call) then !r.Messages?
               else r == Messages(round.value.1) && Ready(a', id, s.(party := round.value.0))
  {
    if Late(s.createdAt, call) {
      LateRoundIsRefused(b, a, call, user, id, 2, msgs);
    } else {
      RoundKeepsReady(b, a, call, user, id, 2, msgs, s);
    }
  }

  lemma Round3Outcome(b: Backend, a: Api, call: Call, user: UserId, id: SessionId, msgs: seq<Message>, s: Session)
    requires Ready(a, id, s) && s.user == user
    ensures var (a', r) := HandleRound(b, a, call.at, call.lost, user, id, 3, msgs);
            var round := Round3(b.engine, s.party, msgs);
            && StillOwned(a', user, id)
            && if round.Err? || Late(s.createdAt, call) then !r.Accepted?
               else r.Accepted? && Ready(a', id, s.(party := round.value))
  {
    if Late(s.createdAt, call) {
      LateRoundIsRefused(b, a, call, user, id, 3, msgs);
    } else {
      RoundKeepsReady(b, a, call, user, id, 3, msgs, s);
    }
  }

  /** The three rounds, party A's side, on an open session. */
  method RelayRounds(
    svc: SignOrchestratorService, user: UserId, id: SessionId, calls: Calls, seedA: SignState, msg1B: Message, ghost s: Session)
    returns (a4: Option<SignState>)
    requires Ready(svc.State(), id, s) && s.user == user
    requires s.party.stage == WAIT_MSG1 && s.party.id == PARTY_B && s.party.msg1 == msg1B
    requires svc.backend.engine.first(seedA).1.from == PARTY_A
    modifies svc`sessions, svc.db`rows
    ensures var met := Meet(svc.backend.engine, PARTY_A, seedA, s.party);
            if met.None? || Late(s.createdAt, calls.round1) || Late(s.createdAt, calls.round2) || Late(s.createdAt, calls.round3)
            then a4.None?
            else a4 == Some(met.value.caller) && Ready(svc.State(), id, s.(party := met.value.responder))
    ensures StillOwned(svc.State(), user, id)
  {
    var e := svc.backend.engine;
    var (a1, m1A) := e.first(seedA);
    var step2 := e.handle(a1, FilterMessages([msg1B, m1A], PARTY_A));
    if step2.None? {
      return None;
    }
    var (a2, msg2A) := step2.value;
    Round1Outcome(svc.backend, svc.State(), calls.round1, user, id, m1A, s);
    var r1 := svc.HandleRound1(user, id, [m1A], calls.round1.at, calls.round1.lost);
    if !r1.Messages? {
      return None;
    }
    ghost var s1 := s.(party := Round1(e, s.party, [m1A]).value.0);
    a4 := RelayRound2(svc, user, id, calls, a2, msg2A, r1.out, s1);
  }

  /** Rounds two and three. */
  method RelayRound2(
    svc: SignOrchestratorService, user: UserId, id: SessionId, calls: Calls, a2: SignState, msg2A: seq<Message>,
    msg2B: seq<Message>, ghost s: Session)
    returns (a4: Option<SignState>)
    requires Ready(svc.State(), id, s) && s.user == user
    requires s.party.stage == WAIT_MSG2 && s.party.msg2 == Some(msg2B) && s.party.id == PARTY_B
    modifies svc`sessions, svc.db`rows
    ensures var met := MeetFromRound2(svc.backend.engine, PARTY_A, a2, msg2A, s.party, msg2B);
            if met.None? || Late(s.createdAt, calls.round2) || Late(s.createdAt, calls.round3) then a4.None?
            else a4 == Some(met.value.caller) && Ready(svc.State(), id, s.(party := met.value.responder))
    ensures StillOwned(svc.State(), user, id)
  {
    var e := svc.backend.engine;
    var step3 := e.handle(a2, SelectMessages(msg2A + msg2B, PARTY_A));
    if step3.None? {
      return None;
    }
    var (a3, msg3A) := step3.value;
    Round2Outcome(svc.backend, svc.State(), calls.round2, user, id, msg2A, s);
    var r2 := svc.HandleRound2(user, id, msg2A, calls.round2.at, calls.round2.lost);
    if !r2.Messages? {
      return None;
    }
    ghost var s2 := s.(party := Round2(e, s.party, msg2A).value.0);
    a4 := RelayRound3(svc, user, id, calls.round3, a3, msg3A, r2.out, s2);
  }

  method RelayRound3(
    svc: SignOrchestratorService, user: UserId, id: SessionId, call: Call, a3: SignState, msg3A: seq<Message>,
    msg3B: seq<Message>, ghost s: Session)
    returns (a4: Option<SignState>)
    requires Ready(svc.State(), id, s) && s.user == user && s.party.stage == WAIT_MSG3 && s.party.msg3 == Some(msg3B)
    modifies svc`sessions, svc.db`rows
    ensures var met := MeetFromRound3(svc.backend.engine, PARTY_A, a3, msg3A, s.party, msg3B);
            if met.None? || Late(s.createdAt, call) then a4.None?
            else a4 == Some(met.value.caller) && Ready(svc.State(), id, s.(party := met.value.responder))
    ensures StillOwned(svc.State(), user, id)
  {
    var step4 := svc.backend.engine.handle(a3, SelectMessages(msg3A + msg3B, PARTY_A));
    if step4.None? {
      return None;
    }
    Round3Outcome(svc.backend, svc.State(), call, user, id, msg3A, s);
    var r3 := svc.HandleRound3(user, id, msg3A, call.at, call.lost);
    if !r3.Accepted? {
      return None;
    }
    a4 := Some(step4.value.0);
  }

  /** complete, once party A has its last message and all three rounds were heard. */
  lemma CompleteSendsTheSignature(
    b: Backend, a: Api, call: Call, l: Ledger, user: UserId, id: SessionId, msgs: seq<Message>, o: Outcome, s: Session)
    requires Ready(a, id, s) && !Late(s.createdAt, call)
    requires s.user == user && s.party.stage == WAIT_LAST && msgs != []
    ensures var (a', r) := Complete(b, a, call.at, l, call.lost, user, id, msgs, o);
            && id !in a'.sessions
            && (r.Withdrawn? <==> SignAsB(b, s, msgs).Some? && o.rpcOk && o.persisted)
            && var signed := SignAsB(b, s, msgs);
               && (signed.None? ==> a'.sent == a.sent && r.CompleteRefused?)
               && (signed.Some? ==>
                     && a'.sent == a.sent + [Sent(s.row, signed.value.0, signed.value.1)]
                     && (r.Withdrawn? ==> r.row == s.row && r.txHash == Some(b.codec.hash(signed.value.1))))
  {
    GcKeepsReady(a, call.at, call.lost, id, s);
  }

  /** A late one finds the session expired, and no row of it to answer about. */
  lemma LateCompleteIsRefused(
    b: Backend, a: Api, call: Call, l: Ledger, user: UserId, id: SessionId, msgs: seq<Message>, o: Outcome, s: Session)
    requires Ready(a, id, s) && Late(s.createdAt, call)
    ensures var (a', r) := Complete(b, a, call.at, l, call.lost, user, id, msgs, o);
            r.CompleteRefused? && id !in a'.sessions && a'.sent == a.sent
  {
  }

  /** What the whole withdrawal should broadcast after start has answered: nothing once a call comes too late. */
  function Intended(
    b: Backend, a: Api, started: StartReply, q: StartCall, seedA: SignState, asset: Asset, token: Option<string>, calls: Calls)
    : seq<Sent>
  {
    if started.Signing? && q.session in a.sessions && InTime(a.sessions[q.session].createdAt, calls)
       && AssertWysiwysDigest(b.codec, BrowserCheck(q, started, asset, token)).Ok? then
      Broadcast(b, a.sessions[q.session], SignatureOf(b.engine, [seedA, q.seed], [PARTY_A, PARTY_B], started.digest, 1))
    else []
  }

  lemma RefusedStartOpensNothing(b: Backend, a0: Api, now: nat, l: Ledger, lost: set<SessionId>, q: StartCall)
    requires FreshSession(a0, q.session) && FreshKey(a0, q) && !Start(b, a0, now, l, lost, q).1.Signing?
    ensures q.session !in Start(b, a0, now, l, lost, q).0.sessions
    ensures Start(b, a0, now, l, lost, q).0.sent == a0.sent
  {
  }

  /** What start leads to: nothing, or a session ready for the rounds. */
  lemma StartLeadsOn(b: Backend, a0: Api, now: nat, l: Ledger, lost: set<SessionId>, q: StartCall)
    requires BackendOk(b) && ApiOk(b, a0, now) && FreshSession(a0, q.session) && FreshKey(a0, q)
    ensures var (a, r) := Start(b, a0, now, l, lost, q);
            && a.sent == a0.sent
            && if r.Signing? then
                 && r.session == q.session && q.session in a.sessions
                 && var s := a.sessions[q.session];
                    && Ready(a, q.session, s) && s.party == Open(b.engine, PARTY_B, q.seed) && r.msg1 == s.party.msg1
                    && s.user == q.user && s.createdAt == now && s.digest == r.digest
               else q.session !in a.sessions
  {
    var (a, r) := Start(b, a0, now, l, lost, q);
    if r.Signing? {
      FreshStartOpens(b, a0, now, l, lost, q);
      StartKeepsOk(b, a0, now, l, lost, q);
      OkIsReady(b, a, now, q.session);
      StartSendsNothing(b, a0, now, l, lost, q);
    } else {
      RefusedStartOpensNothing(b, a0, now, l, lost, q);
    }
  }

  lemma ValidatedSendsNothing(b: Backend, a: Api, now: nat, l: Ledger, q: StartCall, to: Address, amount: nat, asset: Asset)
    ensures StartValidated(b, a, now, l, q, to, amount, asset).0.sent == a.sent
  {
  }

  lemma StartSendsNothing(b: Backend, a0: Api, now: nat, l: Ledger, lost: set<SessionId>, q: StartCall)
    ensures Start(b, a0, now, l, lost, q).0.sent == a0.sent
  {
    var a := Gc(a0, now, lost);
    var to, amount, asset := b.codec.getAddress(q.to), ParseWithdrawAmountToWei(b.codec, q.amount), ParseWithdrawAsset(q.asset);
    if to.Some? && amount.Some? && asset.Some? {
      ValidatedSendsNothing(b, a, now, l, q, to.value, amount.value, asset.value);
    }
  }

  /**
   * The whole withdrawal as the browser drives it, with a new key: one call to start, the four in `calls`, and an
   * abort on failure. What it broadcasts is party B's signature of the in-process run of A and B over the digest the
   * browser accepted, and nothing at all when start is refused, the browser's check fails, that run throws, or a call
   * comes after the session's lifetime; no session is left behind.
   */
  method WithdrawViaAbSigning(
    svc: SignOrchestratorService, q: StartCall, asset: Asset, token: Option<string>, seedA: SignState, start: Call,
    calls: Calls, l: Ledger, l': Ledger, o: Outcome, abortWritten: bool)
    returns (r: WithdrawResult)
    requires BackendOk(svc.backend) && ApiOk(svc.backend, svc.State(), start.at)
    requires FreshSession(svc.State(), q.session) && FreshKey(svc.State(), q)
    requires svc.backend.engine.first(seedA).1.from == PARTY_A && svc.backend.engine.first(q.seed).1.from == PARTY_B
    modifies svc`sessions, svc.db`rows, svc.rpc
    ensures var (a, started) := Start(svc.backend, old(svc.State()), start.at, l, start.lost, q);
            && svc.rpc.sent == old(svc.rpc.sent) + Intended(svc.backend, a, started, q, seedA, asset, token, calls)
            && (started.Signing? ==> (r.Done? <==> svc.rpc.sent != old(svc.rpc.sent) && o.rpcOk && o.persisted))
    ensures r.Done? && svc.rpc.sent != old(svc.rpc.sent) ==>
              svc.rpc.sent != [] && r.txHash == Some(svc.backend.codec.hash(svc.rpc.sent[|svc.rpc.sent| - 1].raw))
    ensures q.session !in svc.sessions
  {
    StartLeadsOn(svc.backend, svc.State(), start.at, l, start.lost, q);
    var started := svc.Start(q, start.at, l, start.lost);
    if started.StartRefused? {
      return WithdrawFailed;
    }
    if started.AlreadyBroadcast? {
      return Done(started.terminal, started.status, started.txHash);
    }
    r := CheckAndSign(svc, q, asset, token, seedA, calls, l', o, abortWritten, started, svc.State());
  }

  /** The browser's check of the answer, and party A's part if it passes. */
  method CheckAndSign(
    svc: SignOrchestratorService, q: StartCall, asset: Asset, token: Option<string>, seedA: SignState, calls: Calls,
    l': Ledger, o: Outcome, abortWritten: bool, started: StartReply, ghost a: Api)
    returns (r: WithdrawResult)
    requires started.Signing? && a == svc.State() && q.session in svc.sessions
    requires var s := svc.sessions[q.session];
             && Ready(a, q.session, s)
             && s.party == Open(svc.backend.engine, PARTY_B, q.seed) && started.msg1 == s.party.msg1
             && s.user == q.user && s.digest == started.digest
    requires svc.backend.engine.first(seedA).1.from == PARTY_A && svc.backend.engine.first(q.seed).1.from == PARTY_B
    modifies svc`sessions, svc.db`rows, svc.rpc
    ensures svc.rpc.sent == old(svc.rpc.sent) + Intended(svc.backend, a, started, q, seedA, asset, token, calls)
    ensures r.Done? <==> svc.rpc.sent != old(svc.rpc.sent) && o.rpcOk && o.persisted
    ensures r.Done? ==>
              svc.rpc.sent != [] && r.txHash == Some(svc.backend.codec.hash(svc.rpc.sent[|svc.rpc.sent| - 1].raw))
    ensures q.session !in svc.sessions
  {
    var checked := AssertWysiwysDigest(svc.backend.codec, BrowserCheck(q, started, asset, token));
    AcceptedDigestIsTheAnswers(svc.backend.codec, BrowserCheck(q, started, asset, token));
    r := SignIfAccepted(svc, q, checked, seedA, calls, l', o, abortWritten, started.msg1, svc.sessions[q.session]);
  }

  lemma AcceptedDigestIsTheAnswers(c: Codec, p: Check)
    ensures AssertWysiwysDigest(c, p).Ok? ==> AssertWysiwysDigest(c, p).value == p.digest
  {
  }

  /** Party A's part, over the digest the check has accepted. */
  method SignIfAccepted(
    svc: SignOrchestratorService, q: StartCall, checked: Result<Digest, WysiwysError>, seedA: SignState, calls: Calls,
    l': Ledger, o: Outcome, abortWritten: bool, msg1B: Message, ghost s: Session)
    returns (r: WithdrawResult)
    requires Ready(svc.State(), q.session, s) && s.user == q.user && (checked.Ok? ==> checked.value == s.digest)
    requires s.party == Open(svc.backend.engine, PARTY_B, q.seed) && msg1B == s.party.msg1
    requires svc.backend.engine.first(seedA).1.from == PARTY_A && svc.backend.engine.first(q.seed).1.from == PARTY_B
    modifies svc`sessions, svc.db`rows, svc.rpc
    ensures svc.rpc.sent == old(svc.rpc.sent) +
              if checked.Ok? && InTime(s.createdAt, calls) then
                Broadcast(svc.backend, s, SignatureOf(svc.backend.engine, [seedA, q.seed], [PARTY_A, PARTY_B], s.digest, 1))
              else []
    ensures r.Done? <==> svc.rpc.sent != old(svc.rpc.sent) && o.rpcOk && o.persisted
    ensures r.Done? ==>
              svc.rpc.sent != [] && r.txHash == Some(svc.backend.codec.hash(svc.rpc.sent[|svc.rpc.sent| - 1].raw))
    ensures q.session !in svc.sessions
  {
    if checked.Err? {
      svc.Abort(q.user, q.session, abortWritten);
      return WithdrawFailed;
    }
    r := SignAsA(svc, q, seedA, calls, l', o, abortWritten, msg1B, checked.value, svc.sessions[q.session]);
  }

  /** Party A's rounds, its last message and complete; abort on any failure. */
  method SignAsA(
    svc: SignOrchestratorService, q: StartCall, seedA: SignState, calls: Calls, l': Ledger, o: Outcome, abortWritten: bool,
    msg1B: Message, digest: Digest, ghost s: Session)
    returns (r: WithdrawResult)
    requires Ready(svc.State(), q.session, s)
    requires s.user == q.user && s.digest == digest
    requires s.party == Open(svc.backend.engine, PARTY_B, q.seed) && msg1B == s.party.msg1
    requires svc.backend.engine.first(seedA).1.from == PARTY_A && svc.backend.engine.first(q.seed).1.from == PARTY_B
    modifies svc`sessions, svc.db`rows, svc.rpc
    ensures svc.rpc.sent == old(svc.rpc.sent) +
              if InTime(s.createdAt, calls) then
                Broadcast(svc.backend, s, SignatureOf(svc.backend.engine, [seedA, q.seed], [PARTY_A, PARTY_B], digest, 1))
              else []
    ensures r.Done? <==> svc.rpc.sent != old(svc.rpc.sent) && o.rpcOk && o.persisted
    ensures r.Done? ==>
              svc.rpc.sent != [] && r.txHash == Some(svc.backend.codec.hash(svc.rpc.sent[|svc.rpc.sent| - 1].raw))
    ensures q.session !in svc.sessions
  {
    var e := svc.backend.engine;
    var a4 := RelayRounds(svc, q.user, q.session, calls, seedA, msg1B, s);
    if a4.None? {
      NoMeetingNoSignature(svc.backend, seedA, q.seed, digest);
      svc.Abort(q.user, q.session, abortWritten);
      return WithdrawFailed;
    }
    ghost var met := Meet(e, PARTY_A, seedA, s.party).value;
    BroadcastIgnoresStage(svc.backend, s, met.responder, SignatureOf(e, [seedA, q.seed], [PARTY_A, PARTY_B], digest, 1));
    r := FinishAsA(svc, q, seedA, calls.complete, l', o, abortWritten, digest, a4.value, s.(party := met.responder), met);
  }

  /** What A's complete sends and answers, once A has its last message. */
  lemma CompleteForA(
    b: Backend, a: Api, seedA: SignState, seedB: SignState, call: Call, l: Ledger, user: UserId, id: SessionId, msg4A: Message,
    o: Outcome, s: Session, met: Meeting)
    requires Ready(a, id, s) && s.user == user && s.party == met.responder && s.party.stage == WAIT_LAST
    requires Meet(b.engine, PARTY_A, seedA, Open(b.engine, PARTY_B, seedB)) == Some(met)
    requires b.engine.last(met.caller, s.digest).Some? && b.engine.last(met.caller, s.digest).value.1 == msg4A
    requires b.engine.first(seedA).1.from == PARTY_A && b.engine.first(seedB).1.from == PARTY_B
    ensures var (a', r) := Complete(b, a, call.at, l, call.lost, user, id, [msg4A], o);
            && a'.sent == a.sent + (if !Late(s.createdAt, call) then
                                      Broadcast(b, s, SignatureOf(b.engine, [seedA, seedB], [PARTY_A, PARTY_B], s.digest, 1))
                                    else [])
            && id !in a'.sessions
            && (r.Withdrawn? <==> a'.sent != a.sent && o.rpcOk && o.persisted)
            && (r.Withdrawn? ==> a'.sent != [] && r.txHash == Some(b.codec.hash(a'.sent[|a'.sent| - 1].raw)))
  {
    if Late(s.createdAt, call) {
      LateCompleteIsRefused(b, a, call, l, user, id, [msg4A], o, s);
    } else {
      SignAsBIsInProcess(b, s, seedA, seedB, met);
      CompleteSendsTheSignature(b, a, call, l, user, id, [msg4A], o, s);
    }
  }

  /** A's last message and complete; abort on any failure. */
  method FinishAsA(
    svc: SignOrchestratorService, q: StartCall, ghost seedA: SignState, call: Call, l': Ledger, o: Outcome, abortWritten: bool,
    digest: Digest, a4: SignState, ghost s: Session, ghost met: Meeting)
    returns (r: WithdrawResult)
    requires Ready(svc.State(), q.session, s) && s.user == q.user && s.digest == digest
    requires Meet(svc.backend.engine, PARTY_A, seedA, Open(svc.backend.engine, PARTY_B, q.seed)) == Some(met)
    requires s.party == met.responder && a4 == met.caller
    requires svc.backend.engine.first(seedA).1.from == PARTY_A && svc.backend.engine.first(q.seed).1.from == PARTY_B
    modifies svc`sessions, svc.db`rows, svc.rpc
    ensures svc.rpc.sent == old(svc.rpc.sent) +
              if !Late(s.createdAt, call) then
                Broadcast(svc.backend, s, SignatureOf(svc.backend.engine, [seedA, q.seed], [PARTY_A, PARTY_B], digest, 1))
              else []
    ensures r.Done? <==> svc.rpc.sent != old(svc.rpc.sent) && o.rpcOk && o.persisted
    ensures r.Done? ==>
              svc.rpc.sent != [] && r.txHash == Some(svc.backend.codec.hash(svc.rpc.sent[|svc.rpc.sent| - 1].raw))
    ensures q.session !in svc.sessions
  {
    NoMeetingNoSignature(svc.backend, seedA, q.seed, digest);
    var last := svc.backend.engine.last(a4, digest);
    if last.None? {
      svc.Abort(q.user, q.session, abortWritten);
      return WithdrawFailed;
    }
    var msg4A := [last.value.1];
    CompleteForA(svc.backend, svc.State(), seedA, q.seed, call, l', q.user, q.session, last.value.1, o, s, met);
    var done := svc.Complete(q.user, q.session, msg4A, call.at, l', call.lost, o);
    if done.CompleteRefused? {
      svc.Abort(q.user, q.session, abortWritten);
      return WithdrawFailed;
    }
    r := Done(done.row, done.status, done.txHash);
  }

  /** The in-process run has no signature for B when A and B do not meet, or A cannot make its last message. */
  lemma NoMeetingNoSignature(b: Backend, seedA: SignState, seedB: SignState, digest: Digest)
    requires b.engine.first(seedA).1.from == PARTY_A && b.engine.first(seedB).1.from == PARTY_B
    ensures var met := Meet(b.engine, PARTY_A, seedA, Open(b.engine, PARTY_B, seedB));
            && (met.Some? ==> met.value.responder.stage == WAIT_LAST)
            && (met.None? || b.engine.last(met.value.caller, digest).None? ==>
                  SignatureOf(b.engine, [seedA, seedB], [PARTY_A, PARTY_B], digest, 1).None?)
  {
    MeetingRefinesInProcess(b.engine, PARTY_A, seedA, PARTY_B, seedB, digest);
    RelaySignatureIsInProcess(b.engine, PARTY_A, seedA, PARTY_B, seedB, digest);
  }
}
