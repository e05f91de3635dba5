/**
 * The A+B orchestrator as the object it is (apps/api/src/mpc/sign-orchestrator.service.ts): a map of sessions in
 * memory beside the tables. Each handler leaves the state, and gives the answer, that AbSigning states for it.
 */
module SignOrchestrator {
  import opened Types
  import opened Text
  import opened Routing
  import opened SignReference
  import opened Responder
  import opened EthTransfer
  import opened Withdraws
  import opened AbSigning

  /** One call on an orchestrator: when it is handled, and for which sessions its expiry never reaches the other side. */
  datatype Call = Call(at: nat, lost: set<SessionId>)

  /** The Wallet and WithdrawRequest tables. */
  class Database {
    var wallets: map<WalletId, Wallet>
    var rows: seq<Row>

    constructor ()
      ensures wallets == map[] && rows == []
    {
      wallets, rows := map[], [];
    }

    /** Close row `i` if it is still PROCESSING; lost when the database does not take the write. */
    method CloseProcessing(i: nat, status: WithdrawStatus, written: bool)
      modifies this`rows
      ensures rows == Closed(old(rows), i, status, written)
    {
      if i < |rows| && rows[i].status == PROCESSING && written {
        rows := rows[i := rows[i].(status := status)];
      }
    }
  }

  function Closed(rows: seq<Row>, i: nat, status: WithdrawStatus, written: bool): seq<Row> {
    if i < |rows| && rows[i].status == PROCESSING && written then rows[i := rows[i].(status := status)] else rows
  }

  lemma ExpireOneMore(rows: seq<Row>, ids: set<nat>, i: nat)
    ensures Closed(ExpireRows(rows, ids), i, EXPIRED, true) == ExpireRows(rows, ids + {i})
  {
  }

  /** One more expired session. */
  lemma GcOneMore(rows: seq<Row>, sessions: map<SessionId, Session>, ids: set<SessionId>, id: SessionId, lost: set<SessionId>)
    requires ids <= sessions.Keys && id in sessions
    ensures Closed(ExpireRows(rows, RowsOf(sessions, ids, lost)), sessions[id].row, EXPIRED, id !in lost)
            == ExpireRows(rows, RowsOf(sessions, ids + {id}, lost))
  {
  }

  lemma ExpireNone(rows: seq<Row>)
    ensures ExpireRows(rows, {}) == rows
  {
  }

  /** The RPC provider, with every transaction the A+B flow handed to it. */
  class Rpc {
    var sent: seq<Sent>

    constructor ()
      ensures sent == []
    {
      sent := [];
    }

    method Broadcast(row: nat, tx: Tx, raw: Raw)
      modifies this
      ensures sent == old(sent) + [Sent(row, tx, raw)]
    {
      sent := sent + [Sent(row, tx, raw)];
    }
  }

  class SignOrchestratorService {
    const backend: Backend
    const db: Database
    const rpc: Rpc
    var sessions: map<SessionId, Session>

    constructor (backend: Backend, db: Database, rpc: Rpc)
      ensures this.backend == backend && this.db == db && this.rpc == rpc && sessions == map[]
    {
      this.backend, this.db, this.rpc := backend, db, rpc;
      sessions := map[];
    }

    function State(): Api
      reads this, db, rpc
    {
      Api(db.wallets, db.rows, sessions, rpc.sent)
    }

    /** Drop one session and close its row. */
    method Drop(id: SessionId, status: WithdrawStatus, written: bool)
      requires id in sessions
      modifies this`sessions, db`rows
      ensures sessions == old(sessions) - {id}
      ensures db.rows == Closed(old(db.rows), old(sessions)[id].row, status, written)
    {
      var row := sessions[id].row;
      sessions := sessions - {id};
      db.CloseProcessing(row, status, written);
    }

    method Gc(now: nat, lost: set<SessionId>)
      modifies this`sessions, db`rows
      ensures State() == AbSigning.Gc(old(State()), now, lost)
    {
      ghost var sessions0, rows0 := sessions, db.rows;
      ghost var dead, done: set<SessionId> := Expired(sessions, now), {};
      ExpireNone(rows0);
      var todo := sessions.Keys;
      while todo != {}
        invariant todo <= sessions0.Keys
        invariant forall id :: id in done <==> id in dead && id !in todo
        invariant forall id :: id in sessions <==> id in sessions0 && id !in done
        invariant forall id :: id in sessions ==> sessions[id] == sessions0[id]
        invariant db.rows == ExpireRows(rows0, RowsOf(sessions0, done, lost))
        decreases |todo|
      {
        var id :| id in todo;
        todo := todo - {id};
        if now > sessions[id].createdAt + SESSION_TTL_MS {
          GcOneMore(rows0, sessions0, done, id, lost);
          Drop(id, EXPIRED, id !in lost);
          done := done + {id};
        }
      }
      assert done == dead;
      assert sessions == sessions0 - dead;
    }

    /** The expiry loop inside the transaction of start: the rows it writes, and the sessions it drops for good. */
    method ExpireStale(w: WalletId, now: nat) returns (rows: seq<Row>)
      modifies this`sessions
      ensures rows == ExpireRows(db.rows, StaleRows(db.rows, w, now))
      ensures sessions == old(sessions) - StaleSessions(db.rows, w, now)
    {
      ghost var stale: set<nat>, gone: set<SessionId> := {}, {};
      rows := db.rows;
      ExpireNone(rows);
      for i := 0 to |db.rows|
        invariant rows == ExpireRows(db.rows, stale)
        invariant sessions == old(sessions) - gone
        invariant forall k: nat :: k in stale <==> k < i && IsStale(db.rows[k], w, now)
        invariant forall k: nat :: k < i && IsStale(db.rows[k], w, now) ==> db.rows[k].metadata.session in gone
        invariant forall id :: id in gone ==> exists k: nat :: k < i && IsStale(db.rows[k], w, now) && db.rows[k].metadata.session == id
      {
        var row := db.rows[i];
        if IsStale(row, w, now) {
          ExpireOneMore(db.rows, stale, i);
          rows := rows[i := row.(status := EXPIRED)];
          sessions := sessions - {row.metadata.session};
          stale, gone := stale + {i}, gone + {row.metadata.session};
        }
      }
      assert stale == StaleRows(db.rows, w, now);
      assert gone == StaleSessions(db.rows, w, now);
    }

    /** The locked transaction of start: expire stale rows, settle, create. A throw rolls the rows back. */
    method CreateUnderLock(
      q: StartCall, now: nat, l: Ledger, to: Address, amount: nat, asset: Asset, prepared: Prepared)
      returns (r: StartReply)
      requires q.wallet in db.wallets
      modifies this`sessions, db`rows
      ensures (State(), r) == Create(backend, old(State()), now, l, q, to, amount, asset, prepared)
    {
      var digest := backend.codec.digest(prepared.tx);
      var party := Open(backend.engine, PARTY_B, q.seed);
      var address := db.wallets[q.wallet].address;
      var rows := ExpireStale(q.wallet, now);
      var settled := SettleOpenNormalAbOrThrow(rows, q.wallet, l);
      if settled.Err? {
        return StartRefused(settled.error);
      }
      rows := settled.value;
      var created := Row(q.wallet, amount, to, PROCESSING, None, now, Some(Key(q.wallet, Trim(q.key))),
                         NormalAb(q.session, prepared.feeWei, digest, address, asset));
      db.rows := rows + [created];
      var fields := ResponseFields(prepared.tx);
      sessions := sessions[q.session := Session(q.user, q.wallet, |rows|, party, digest, fields, address, now)];
      r := Signing(q.session, |rows|, digest, party.msg1, amount, to, fields, false);
    }

    /** The answer for a key that already has a row. */
    method ReuseOrConflictExisting(q: StartCall, i: nat, to: Address, amount: nat, asset: Asset) returns (r: StartReply)
      requires i < |db.rows|
      modifies this`sessions
      ensures (State(), r) == Reuse(old(State()), q.user, q.wallet, i, to, amount, asset)
    {
      var row := db.rows[i];
      if row.wallet != q.wallet || !row.metadata.NormalAb? {
        return StartRefused(IDEMPOTENCY_CONFLICT);
      }
      if row.to != to || row.amount != amount || row.metadata.asset != asset {
        return StartRefused(IDEMPOTENCY_CONFLICT);
      }
      var id := row.metadata.session;
      if IsTerminal(row.status) {
        sessions := sessions - {id};
        return AlreadyBroadcast(i, row.status, row.txHash);
      }
      if id !in sessions || sessions[id].user != q.user || sessions[id].wallet != q.wallet {
        return StartRefused(SIGN_SESSION_GONE);
      }
      if row.status != PROCESSING {
        return StartRefused(IDEMPOTENCY_CONFLICT);
      }
      var live := sessions[id];
      r := Signing(id, i, live.digest, live.party.msg1, amount, to, live.tx, true);
    }

    method Start(q: StartCall, now: nat, l: Ledger, lost: set<SessionId>) returns (r: StartReply)
      modifies this`sessions, db`rows
      ensures (State(), r) == AbSigning.Start(backend, old(State()), now, l, lost, q)
    {
      Gc(now, lost);
      var key := Trim(q.key);
      if key == "" {
        return StartRefused(VALIDATION_FAILED);
      }
      var to := backend.codec.getAddress(q.to);
      if to.None? {
        return StartRefused(INVALID_ADDRESS);
      }
      var amount := ParseWithdrawAmountToWei(backend.codec, q.amount);
      var asset := ParseWithdrawAsset(q.asset);
      if amount.None? || asset.None? {
        return StartRefused(INVALID_REQUEST);
      }
      r := StartForWallet(q, now, l, to.value, amount.value, asset.value);
    }

    method StartForWallet(q: StartCall, now: nat, l: Ledger, to: Address, amount: nat, asset: Asset) returns (r: StartReply)
      modifies this`sessions, db`rows
      ensures (State(), r) == StartValidated(backend, old(State()), now, l, q, to, amount, asset)
    {
      var refusal := WalletRefusal(State(), q.user, q.wallet, to);
      if refusal.Some? {
        return StartRefused(refusal.value);
      }
      var existing := FindByKey(db.rows, Key(q.wallet, Trim(q.key)));
      if existing.Some? {
        r := ReuseOrConflictExisting(q, existing.value, to, amount, asset);
        return;
      }
      var from := db.wallets[q.wallet].address;
      var prepared := PrepareWithdraw(backend.codec, q.net, asset, from, to, amount, backend.token);
      if prepared.Err? {
        return StartRefused(if prepared.error == InsufficientGas then INSUFFICIENT_GAS else INVALID_REQUEST);
      }
      if !Encodable(prepared.value.tx) {
        return StartRefused(INTERNAL_ERROR);
      }
      r := CreateUnderLock(q, now, l, to, amount, asset, prepared.value);
    }

    method HandleRound1(user: UserId, id: SessionId, msg1A: seq<Message>, now: nat, lost: set<SessionId>) returns (r: RoundReply)
      modifies this`sessions, db`rows
      ensures (State(), r) == HandleRound(backend, old(State()), now, lost, user, id, 1, msg1A)
    {
      Gc(now, lost);
      if id !in sessions || sessions[id].user != user {
        return RoundRefused(SESSION_NOT_FOUND);
      }
      r := HearRound1(id, msg1A);
    }

    method HearRound1(id: SessionId, msg1A: seq<Message>) returns (r: RoundReply)
      requires id in sessions
      modifies this`sessions
      ensures (State(), r) == Hear(backend, old(State()), id, 1, msg1A)
    {
      var s := sessions[id];
      if s.party.stage != WAIT_MSG1 {
        return RoundRefused(UNEXPECTED_STEP);
      }
      if |msg1A| != 1 || msg1A[0].from != PARTY_A {
        return RoundRefused(MISSING_MESSAGE);
      }
      var handled := backend.engine.handle(s.party.state, FilterMessages([s.party.msg1] + msg1A, s.party.id));
      if handled.None? {
        return RoundRefused(WITHDRAW_FAILED);
      }
      var (state, msg2B) := handled.value;
      sessions := sessions[id := s.(party := s.party.(state := state, msg2 := Some(msg2B), stage := WAIT_MSG2))];
      r := Messages(msg2B);
    }

    method HandleRound2(user: UserId, id: SessionId, msg2A: seq<Message>, now: nat, lost: set<SessionId>) returns (r: RoundReply)
      modifies this`sessions, db`rows
      ensures (State(), r) == HandleRound(backend, old(State()), now, lost, user, id, 2, msg2A)
    {
      Gc(now, lost);
      if id !in sessions || sessions[id].user != user {
        return RoundRefused(SESSION_NOT_FOUND);
      }
      r := HearRound2(id, msg2A);
    }

    method HearRound2(id: SessionId, msg2A: seq<Message>) returns (r: RoundReply)
      requires id in sessions
      modifies this`sessions
      ensures (State(), r) == Hear(backend, old(State()), id, 2, msg2A)
    {
      var s := sessions[id];
      if s.party.stage != WAIT_MSG2 || s.party.msg2.None? {
        return RoundRefused(UNEXPECTED_STEP);
      }
      var handled := backend.engine.handle(s.party.state, SelectMessages(msg2A + s.party.msg2.value, s.party.id));
      if handled.None? {
        return RoundRefused(WITHDRAW_FAILED);
      }
      var (state, msg3B) := handled.value;
      sessions := sessions[id := s.(party := s.party.(state := state, msg3 := Some(msg3B), stage := WAIT_MSG3))];
      r := Messages(msg3B);
    }

    method HandleRound3(user: UserId, id: SessionId, msg3A: seq<Message>, now: nat, lost: set<SessionId>) returns (r: RoundReply)
      modifies this`sessions, db`rows
      ensures (State(), r) == HandleRound(backend, old(State()), now, lost, user, id, 3, msg3A)
    {
      Gc(now, lost);
      if id !in sessions || sessions[id].user != user {
        return RoundRefused(SESSION_NOT_FOUND);
      }
      r := HearRound3(id, msg3A);
    }

    method HearRound3(id: SessionId, msg3A: seq<Message>) returns (r: RoundReply)
      requires id in sessions
      modifies this`sessions
      ensures (State(), r) == Hear(backend, old(State()), id, 3, msg3A)
    {
      var s := sessions[id];
      if s.party.stage != WAIT_MSG3 || s.party.msg3.None? {
        return RoundRefused(UNEXPECTED_STEP);
      }
      var handled := backend.engine.handle(s.party.state, SelectMessages(msg3A + s.party.msg3.value, s.party.id));
      if handled.None? {
        return RoundRefused(WITHDRAW_FAILED);
      }
      sessions := sessions[id := s.(party := s.party.(state := handled.value.0, stage := WAIT_LAST))];
      r := Accepted;
    }

    method Abort(user: UserId, id: SessionId, written: bool)
      modifies this`sessions, db`rows
      ensures State() == AbSigning.Abort(old(State()), user, id, written)
    {
      if id in sessions && sessions[id].user == user {
        Drop(id, FAILED, written);
      }
    }

    /** The catch block of complete. */
    method GiveUp(id: SessionId, written: bool) returns (r: CompleteReply)
      requires id in sessions
      modifies this`sessions, db`rows
      ensures (State(), r) == CompleteFailed(old(State()), id, old(sessions)[id].row, written)
    {
      var i := sessions[id].row;
      if i < |db.rows| && IsTerminal(db.rows[i].status) {
        sessions := sessions - {id};
        return Withdrawn(i, db.rows[i].status, db.rows[i].txHash, true);
      }
      Drop(id, FAILED, written);
      r := CompleteRefused(WITHDRAW_FAILED);
    }

    /** Party B's part of the signature: None when a step throws. */
    method SignAndSerialize(s: Session, msg4A: seq<Message>) returns (signed: Option<(Tx, Raw)>)
      ensures signed == SignAsB(backend, s, msg4A)
    {
      var last := backend.engine.last(s.party.state, s.digest);
      if last.None? {
        return None;
      }
      var (state, msg4B) := last.value;
      var rs := backend.engine.combine(state, FilterMessages(msg4A + [msg4B], PARTY_B));
      if rs.None? {
        return None;
      }
      var signature := backend.buildSignature(s.digest, rs.value, s.address);
      var tx := TxFromStoredFields(backend.codec, s.tx);
      if signature.None? || tx.None? {
        return None;
      }
      signed := Some((tx.value, backend.codec.serialize(tx.value, signature.value)));
    }

    /** Everything complete checks before it signs; an answer when it ends there. */
    method CheckComplete(user: UserId, id: SessionId, msg4A: seq<Message>, failWritten: bool) returns (r: Option<CompleteReply>)
      modifies this`sessions, db`rows
      ensures var guarded := CompleteGuard(old(State()), user, id, msg4A, failWritten);
              if r.Some? then guarded == Some((State(), r.value)) else guarded.None? && State() == old(State())
      ensures r.None? ==> id in sessions
    {
      var terminal := FindTerminalBySession(State(), user, id);
      if terminal.Some? {
        var row := db.rows[terminal.value];
        return Some(Withdrawn(terminal.value, row.status, row.txHash, true));
      }
      if id !in sessions || sessions[id].user != user {
        return Some(CompleteRefused(SESSION_NOT_FOUND));
      }
      var s := sessions[id];
      if s.row < |db.rows| && IsTerminal(db.rows[s.row].status) {
        sessions := sessions - {id};
        return Some(Withdrawn(s.row, db.rows[s.row].status, db.rows[s.row].txHash, true));
      }
      if s.party.stage != WAIT_LAST {
        return Some(CompleteRefused(UNEXPECTED_STEP));
      }
      if |msg4A| < 1 {
        return Some(CompleteRefused(MISSING_MESSAGE));
      }
      if s.wallet !in db.wallets || db.wallets[s.wallet].status != ACTIVE {
        Drop(id, FAILED, failWritten);
        return Some(CompleteRefused(EMERGENCY_STATE_INVALID));
      }
      r := None;
    }

    method Complete(user: UserId, id: SessionId, msg4A: seq<Message>, now: nat, l: Ledger, lost: set<SessionId>, o: Outcome)
      returns (r: CompleteReply)
      modifies this`sessions, db`rows, rpc
      ensures (State(), r) == AbSigning.Complete(backend, old(State()), now, l, lost, user, id, msg4A, o)
    {
      Gc(now, lost);
      var ended := CheckComplete(user, id, msg4A, o.failWritten);
      if ended.Some? {
        return ended.value;
      }
      r := SignBroadcastPersist(id, msg4A, l, o);
    }

    /** BROADCASTED as soon as the RPC has taken the transaction, EXECUTED if a success receipt is waited for. */
    method PersistBroadcast(id: SessionId, hash: TxHash, confirmed: bool) returns (status: WithdrawStatus)
      requires id in sessions && sessions[id].row < |db.rows|
      modifies this`sessions, db`rows
      ensures status == if confirmed then EXECUTED else BROADCASTED
      ensures sessions == old(sessions) - {id}
      ensures var i := old(sessions)[id].row;
              db.rows == old(db.rows)[i := old(db.rows)[i].(status := status, txHash := Some(hash))]
    {
      var i := sessions[id].row;
      status := BROADCASTED;
      db.rows := db.rows[i := db.rows[i].(status := status, txHash := Some(hash))];
      sessions := sessions - {id};
      if confirmed {
        status := EXECUTED;
        db.rows := db.rows[i := db.rows[i].(status := status)];
      }
    }

    method SignBroadcastPersist(id: SessionId, msg4A: seq<Message>, l: Ledger, o: Outcome) returns (r: CompleteReply)
      requires id in sessions
      modifies this`sessions, db`rows, rpc
      ensures (State(), r) == SignAndBroadcast(backend, old(State()), l, id, msg4A, o)
    {
      var s := sessions[id];
      var signed := SignAndSerialize(s, msg4A);
      if signed.None? {
        r := GiveUp(id, o.failWritten);
        return;
      }
      var (tx, raw) := signed.value;
      rpc.Broadcast(s.row, tx, raw);
      if !o.rpcOk || !o.persisted || s.row >= |db.rows| {
        r := GiveUp(id, o.failWritten);
        return;
      }
      var hash := backend.codec.hash(raw);
      var status := PersistBroadcast(id, hash, o.waited && Receipt(l, hash) == Mined(true));
      r := Withdrawn(s.row, status, Some(hash), false);
    }
  }
}
