/**
 * The last-withdraw service as the object it is (apps/api/src/wallet/emergency-last-withdraw.service.ts). One
 * undisturbed call is an admissible run of the whole machine: each piece does to the tables, the RPC and Recovery
 * what the machine's step does, in the machine's order, and the receipts it waits for are mined in between.
 */
module LastWithdrawService {
  import opened Types
  import opened Routing
  import opened SignReference
  import opened EthTransfer
  import opened Withdraws
  import opened AbSigning
  import opened LastWithdraw
  import opened SignOrchestrator
  import opened EmergencyRecovery
  import opened BcInvariant
  import opened LastWithdrawSteps
  import opened System
  import opened Guarantees
  import Shares
  import RecoverySign
  import OtpTracker

  /** What the outside answers during one leg: receipts it cannot give, the two parties' sessions, the RPC, the network. */
  datatype Outside = Outside(
    down: set<TxHash>, net: Provider, session: SessionId, seedB: SignState, seedC: Option<SignState>, fates: RecoverySign.Fates,
    rpcOk: bool, receipt: Option<bool>, waited: bool)

  predicate OutsideOk(e: SignEngine, o: Outside) {
    e.first(o.seedB).1.from == PARTY_B && (o.seedC.Some? ==> e.first(o.seedC.value).1.from == PARTY_C)
  }

  /** The input a step of a leg takes from these answers. */
  function InputOf(o: Outside, signature: Option<Signature>, ok: bool): Input {
    Input(o.down, o.net, signature, ok)
  }

  /**
   * The B+C signature over the transaction: that of the in-process run on the two shares, and none when a call to
   * Recovery is lost or the transaction cannot be encoded.
   */
  function EmergencySignature(b: Backend, o: Outside, tx: Tx, address: Address): Option<Signature> {
    if o.seedC.None? || !Encodable(tx) || !RecoverySign.AllThrough(o.fates) then None
    else
      var digest := b.codec.digest(tx);
      match SignatureOf(b.engine, [o.seedB, o.seedC.value], [PARTY_B, PARTY_C], digest, 0)
      case None => None
      case Some(rs) => b.buildSignature(digest, rs, address)
  }

  // ---- Runs of one request ----

  /** What one call meets: the wallet's address, the receipts the lock cannot get, and the outside of each leg and of the end. */
  datatype Circumstances = Circumstances(address: Address, down: set<TxHash>, token: Outside, eth: Outside, recoveryAnswers: bool)

  function OfLeg(c: Circumstances, g: Leg): Outside {
    if g.TokenLeg? then c.token else c.eth
  }

  /**
   * The step is what these circumstances make of the request: every read is theirs, it signs its own transaction with
   * the in-process signature and fails only where there is none, a broadcast goes as the RPC answers, and a wait ends
   * well exactly on a success receipt the network has mined by then.
   */
  ghost predicate AsAnswered(b: Backend, w: World, id: RequestId, c: Circumstances, s: Step) {
    && id in w.requests
    && match s
       case Mine(h, ok) =>
         var pc := w.requests[id].pc;
         pc.AtWait? && h == b.codec.hash(pc.raw) && OfLeg(c, pc.leg).receipt == Some(ok)
       case LastWithdrawRuns(i, x) =>
         && i == id
         && (match w.requests[id].pc
             case AtLock => x.down == c.down
             case AtToken => x.net == c.token.net
             case AtEth(_) => x.net == c.eth.net
             case AtCreate(g, _, _) => x.down == OfLeg(c, g).down
             case AtSign(g, _, tx) => x.signature == EmergencySignature(b, OfLeg(c, g), tx, c.address)
             case AtBroadcast(g, _, _) => x.ok == OfLeg(c, g).rpcOk
             case AtWait(g, _, raw) =>
               var o, h := OfLeg(c, g), b.codec.hash(raw);
               (o.receipt.Some? ==> h in w.chain) && x.ok == (o.waited && h in w.chain && w.chain[h])
             case AtRetireShare => x.ok == c.recoveryAnswers
             case _ => true)
       case _ => false
  }

  ghost predicate AllAsAnswered(b: Backend, w: World, id: RequestId, c: Circumstances, steps: seq<Step>)
    decreases |steps|
  {
    steps == []
    || (AsAnswered(b, w, id, c, steps[0]) && AllAsAnswered(b, Next(b, w, steps[0]), id, c, steps[1..]))
  }

  /** The steps are an admissible run from `w` to `w'` made of such steps. */
  ghost predicate Runs(b: Backend, w: World, id: RequestId, c: Circumstances, steps: seq<Step>, w': World) {
    Admissible(b, w, steps) && Run(b, w, steps) == w' && AllAsAnswered(b, w, id, c, steps)
  }

  lemma {:induction false} AnswersJoin(b: Backend, w: World, id: RequestId, c: Circumstances, steps: seq<Step>, more: seq<Step>)
    requires AllAsAnswered(b, w, id, c, steps) && AllAsAnswered(b, Run(b, w, steps), id, c, more)
    ensures AllAsAnswered(b, w, id, c, steps + more)
    decreases |steps|
  {
    if steps == [] {
      assert steps + more == more;
    } else {
      assert (steps + more)[1..] == steps[1..] + more && (steps + more)[0] == steps[0];
      var w1 := Next(b, w, steps[0]);
      AnswersJoin(b, w1, id, c, steps[1..], more);
      assert AllAsAnswered(b, w1, id, c, (steps + more)[1..]);
    }
  }

  lemma RunsJoin(b: Backend, w: World, id: RequestId, c: Circumstances, steps: seq<Step>, w1: World, more: seq<Step>, w2: World)
    requires Runs(b, w, id, c, steps, w1) && Runs(b, w1, id, c, more, w2)
    ensures Runs(b, w, id, c, steps + more, w2)
  {
    RunJoins(b, w, steps, more);
    AnswersJoin(b, w, id, c, steps, more);
  }

  lemma RunsOnce(b: Backend, w: World, id: RequestId, c: Circumstances, s: Step)
    requires Enabled(b, w, s) && AsAnswered(b, w, id, c, s)
    ensures Runs(b, w, id, c, [s], Next(b, w, s))
  {
    assert [s][1..] == [];
  }

  /** While the request waits the network mines its transaction, or it does not. */
  lemma RunsMining(b: Backend, w: World, id: RequestId, c: Circumstances, leg: Leg, i: nat, raw: Raw) returns (steps: seq<Step>)
    requires id in w.requests && w.requests[id].pc == AtWait(leg, i, raw)
    ensures var hash, receipt := b.codec.hash(raw), OfLeg(c, leg).receipt;
            Runs(b, w, id, c, steps,
                 w.(chain := if hash in w.chain || receipt.None? then w.chain else w.chain[hash := receipt.value]))
  {
    var hash, receipt := b.codec.hash(raw), OfLeg(c, leg).receipt;
    steps := [];
    if hash !in w.chain && receipt.Some? {
      steps := [Mine(hash, receipt.value)];
      RunsOnce(b, w, id, c, Mine(hash, receipt.value));
    }
  }

  /** One step of the request. */
  lemma RunsStep(b: Backend, w: World, id: RequestId, c: Circumstances, x: Input)
    requires id in w.requests && Honest(b, w, id, x) && AsAnswered(b, w, id, c, LastWithdrawRuns(id, x))
    ensures Runs(b, w, id, c, [LastWithdrawRuns(id, x)], Advance(b, w, id, x))
  {
    RunsOnce(b, w, id, c, LastWithdrawRuns(id, x));
  }

  /** And one more. */
  lemma RunsOneMore(b: Backend, w: World, id: RequestId, c: Circumstances, steps: seq<Step>, w1: World, x: Input)
    requires Runs(b, w, id, c, steps, w1)
    requires id in w1.requests && Honest(b, w1, id, x) && AsAnswered(b, w1, id, c, LastWithdrawRuns(id, x))
    ensures Runs(b, w, id, c, steps + [LastWithdrawRuns(id, x)], Advance(b, w1, id, x))
  {
    RunsStep(b, w1, id, c, x);
    RunsJoin(b, w, id, c, steps, w1, [LastWithdrawRuns(id, x)], Advance(b, w1, id, x));
  }

  /** An emergency row that was created now and is PROCESSING. */
  predicate FreshRow(rows: seq<Row>, i: nat, now: nat) {
    i < |rows| && rows[i].metadata.EmergencyBc? && rows[i].status == PROCESSING && rows[i].createdAt == now
  }

  lemma CreateStep(b: Backend, w: World, id: RequestId, x: Input, created: Option<Created>)
    requires id in w.requests && w.requests[id].pc.AtCreate?
    requires var r := w.requests[id]; created == CreateRow(w.api.rows, r, r.pc.leg, r.pc.amount, Ledger(w.chain, x.down), w.now)
    ensures Advance(b, w, id, x) ==
            match created
            case None => End(w, id)
            case Some(AlreadyExecuted(rows, hash)) => Move(WithRows(w, rows), id, After(w.requests[id].pc.leg, hash))
            case Some(NewRow(rows, i)) => Move(WithRows(w, rows), id, AtSign(w.requests[id].pc.leg, i, w.requests[id].pc.tx))
    ensures created.Some? && created.value.NewRow? ==>
              var n := created.value;
              FreshRow(n.rows, n.row, w.now)
  {
  }

  /** Signing a row that was just created is a step of the machine: no other signer can have declared it stale. */
  lemma RunsSigning(
    b: Backend, w: World, id: RequestId, c: Circumstances, leg: Leg, i: nat, tx: Tx, signature: Signature)
    requires id in w.requests && w.requests[id].pc == AtSign(leg, i, tx) && FreshRow(w.api.rows, i, w.now)
    requires EmergencySignature(b, OfLeg(c, leg), tx, c.address) == Some(signature)
    ensures var x := InputOf(OfLeg(c, leg), Some(signature), true);
            var raw := b.codec.serialize(tx, signature);
            var row := w.api.rows[i].(status := BROADCASTED, txHash := Some(b.codec.hash(raw)),
                                      metadata := w.api.rows[i].metadata.(signedRaw := Some(raw)));
            && Advance(b, w, id, x) == Move(WithRows(w, w.api.rows[i := row]), id, AtBroadcast(leg, i, raw))
            && Runs(b, w, id, c, [LastWithdrawRuns(id, x)], Advance(b, w, id, x))
  {
    RunsOnce(b, w, id, c, LastWithdrawRuns(id, InputOf(OfLeg(c, leg), Some(signature), true)));
  }

  /** Whether a sweep request gets as far as the code. */
  predicate AsksForCode(b: Backend, wallets: map<WalletId, Wallet>, user: UserId, w: WalletId, toRaw: string) {
    && b.codec.getAddress(toRaw).Some?
    && w in wallets && wallets[w].user == user && wallets[w].status in {RECOVERY_PENDING, RETIRING} && wallets[w].shareB.Some?
    && wallets[w].address != b.codec.getAddress(toRaw).value
  }

  /** The RPC provider: every raw the emergency flow handed to it, and the receipts the network has. */
  class EmergencyRpc {
    var submitted: seq<Submission>
    var mined: map<TxHash, bool>

    constructor ()
      ensures submitted == [] && mined == map[]
    {
      submitted, mined := [], map[];
    }

    method Broadcast(row: nat, raw: Raw)
      modifies this`submitted
      ensures submitted == old(submitted) + [Submission(row, raw)]
    {
      submitted := submitted + [Submission(row, raw)];
    }

    /** Meanwhile the network may mine the transaction; the wait returns on a success receipt and throws otherwise. */
    method Wait(hash: TxHash, receipt: Option<bool>, answered: bool) returns (confirmed: bool)
      modifies this`mined
      ensures mined == if hash in old(mined) || receipt.None? then old(mined) else old(mined)[hash := receipt.value]
      ensures confirmed <==> answered && hash in mined && mined[hash]
    {
      if hash !in mined && receipt.Some? {
        mined := mined[hash := receipt.value];
      }
      confirmed := answered && hash in mined && mined[hash];
    }
  }

  class EmergencyLastWithdrawService {
    const backend: Backend
    const db: Database
    const rpc: EmergencyRpc
    const recovery: Shares.SharesService
    const relay: RecoverySign.SignService
    const emergency: EmergencyRecoveryService

    constructor (
      backend: Backend, db: Database, rpc: EmergencyRpc, recovery: Shares.SharesService, relay: RecoverySign.SignService,
      emergency: EmergencyRecoveryService)
      ensures this.backend == backend && this.db == db && this.rpc == rpc && this.recovery == recovery && this.relay == relay
      ensures this.emergency == emergency
    {
      this.backend, this.db, this.rpc, this.recovery, this.relay := backend, db, rpc, recovery, relay;
      this.emergency := emergency;
    }

    /** The objects hold what the world says of them. */
    ghost predicate Holds(w: World)
      reads db, rpc, recovery
    {
      && db.wallets == w.api.wallets
      && db.rows == w.api.rows
      && rpc.submitted == w.submitted
      && rpc.mined == w.chain
      && recovery.shares == w.shares
    }

    /** The locked transaction: None when it throws and rolls back. */
    method LockAndSettle(wallet: WalletId, now: nat, down: set<TxHash>, ghost w: World, ghost id: RequestId, ghost x: Input)
      returns (s: Option<Settlement>)
      requires Holds(w) && id in w.requests && w.requests[id].wallet == wallet && w.requests[id].pc == AtLock
      requires now == w.now && down == x.down
      modifies db
      ensures Holds(Advance(backend, w, id, x))
      ensures if s.Some? then wallet in db.wallets && db.wallets[wallet].status == RETIRING else db.wallets == old(db.wallets)
      ensures var w' := Advance(backend, w, id, x);
              match s
              case None => w' == End(w, id)
              case Some(Clear(_)) => id in w'.requests && w'.requests[id] == w.requests[id].(pc := AtToken)
              case Some(Rebroadcast(_, i, _, raw)) =>
                id in w'.requests && w'.requests[id] == w.requests[id].(pc := AtRebroadcast(i, raw))
              case _ => false
    {
      var l := Ledger(rpc.mined, down);
      var refusal := LastWithdrawRefusal(db.wallets, wallet);
      if refusal.Some? {
        return None;
      }
      var ab := SettleOpenNormalAbOrThrow(db.rows, wallet, l);
      if ab.Err? {
        return None;
      }
      var bc := SettleOpenEmergencyBcOrThrow(ab.value, wallet, l, now);
      if bc.Thrown? {
        return None;
      }
      db.rows := bc.rows;
      if db.wallets[wallet].status != RETIRING {
        db.wallets := db.wallets[wallet := db.wallets[wallet].(status := RETIRING)];
      }
      assert db.wallets == w.api.wallets[wallet := w.api.wallets[wallet].(status := RETIRING)];
      s := Some(bc);
    }

    /** Hand the stored raw to the RPC again; whatever it answers, the request then ends. */
    method RebroadcastSameRaw(row: nat, raw: Raw, ghost w: World, ghost id: RequestId, ghost x: Input)
      requires Holds(w) && id in w.requests && w.requests[id].pc == AtRebroadcast(row, raw)
      modifies rpc`submitted
      ensures Holds(Advance(backend, w, id, x)) && id !in Advance(backend, w, id, x).requests
    {
      rpc.Broadcast(row, raw);
    }

    /** The transaction that creates the PROCESSING row of a leg; None when it throws and rolls back. */
    method CreateProcessing(r: Request, leg: Leg, amount: nat, now: nat, l: Ledger) returns (created: Option<Created>)
      modifies db`rows
      ensures created == CreateRow(old(db.rows), r, leg, amount, l, now)
      ensures db.rows == if created.None? then old(db.rows) else created.value.rows
    {
      var open := SettleOpenEmergencyBcOrThrow(db.rows, r.wallet, l, now);
      if open.Thrown? || open.Rebroadcast? {
        return None;
      }
      var rows := open.rows;
      var existing := FindLatestEmergencyBc(rows, r.wallet, AssetOf(leg));
      if existing.Some? && rows[existing.value].status == EXECUTED {
        db.rows := rows;
        return Some(AlreadyExecuted(rows, rows[existing.value].txHash));
      }
      if existing.Some? && (rows[existing.value].status == BROADCASTED || rows[existing.value].status == PROCESSING) {
        return None;
      }
      var row := Row(r.wallet, amount, r.to, PROCESSING, None, now, None,
                     EmergencyBc(AssetOf(leg), None, None, if leg.EthLeg? then TokenHash(leg.token) else None));
      db.rows := rows + [row];
      created := Some(NewRow(db.rows, |rows|));
    }

    /** The digest, the relay with Recovery over it, and the signature built from what it combines; None when that throws. */
    method SignTransfer(wallet: WalletId, tx: Tx, address: Address, now: nat, o: Outside) returns (signature: Option<Signature>)
      requires relay.engine == backend.engine && OutsideOk(backend.engine, o) && o.session !in relay.sessions
      modifies relay
      ensures signature == EmergencySignature(backend, o, tx, address)
      ensures relay.sessions.Keys <= old(relay.sessions).Keys + {o.session}
    {
      if !Encodable(tx) {
        return None;
      }
      var digest := backend.codec.digest(tx);
      var rs := RecoverySign.SignDigestBcRelay(relay, now, o.session, wallet, digest, o.seedB, o.seedC, o.fates);
      OnlyOneSessionMore(old(relay.sessions), relay.sessions, o.session, now);
      if rs.None? {
        return None;
      }
      signature := backend.buildSignature(digest, rs.value, address);
    }

    /** A signature that failed: the row is closed while nothing of it was sent. */
    method CloseUnsent(
      r: Request, leg: Leg, i: nat, tx: Tx, ghost w: World, ghost id: RequestId, ghost c: Circumstances, ghost x: Input)
      returns (ghost w': World, ghost steps: seq<Step>)
      requires Holds(w) && id in w.requests && w.requests[id] == r && r.pc == AtSign(leg, i, tx) && x.signature.None?
      requires FreshRow(w.api.rows, i, w.now) && EmergencySignature(backend, OfLeg(c, leg), tx, c.address).None?
      modifies db`rows
      ensures Holds(w') && Runs(backend, w, id, c, steps, w') && id !in w'.requests && w'.now == w.now
    {
      w', steps := Advance(backend, w, id, x), [LastWithdrawRuns(id, x)];
      RunsStep(backend, w, id, c, x);
      RunsOneMore(backend, w, id, c, steps, w', x);
      w', steps := Advance(backend, w', id, x), steps + [LastWithdrawRuns(id, x)];
      if db.rows[i].status == PROCESSING {
        db.rows := db.rows[i := db.rows[i].(status := FAILED)];
      }
    }

    /** BROADCASTED, the hash and the raw itself go into the row before anything is sent. */
    method PersistSigned(i: nat, raw: Raw)
      requires i < |db.rows| && db.rows[i].metadata.EmergencyBc?
      modifies db`rows
      ensures db.rows == old(db.rows)[i := old(db.rows)[i].(status := BROADCASTED, txHash := Some(backend.codec.hash(raw)),
                                                            metadata := old(db.rows)[i].metadata.(signedRaw := Some(raw)))]
    {
      db.rows := db.rows[i := db.rows[i].(status := BROADCASTED, txHash := Some(backend.codec.hash(raw)),
                                          metadata := db.rows[i].metadata.(signedRaw := Some(raw)))];
    }

    /** Wait for the transaction: EXECUTED once there is a success receipt, which was mined before the wait returned. */
    method WaitAndConfirm(
      r: Request, leg: Leg, i: nat, raw: Raw, o: Outside, ghost w: World, ghost id: RequestId, ghost c: Circumstances)
      returns (confirmed: bool, ghost w': World, ghost steps: seq<Step>)
      requires Holds(w) && id in w.requests && w.requests[id] == r && r.pc == AtWait(leg, i, raw) && i < |w.api.rows|
      requires o == OfLeg(c, leg)
      modifies db`rows, rpc`mined
      ensures Holds(w') && Runs(backend, w, id, c, steps, w') && w'.now == w.now
      ensures if confirmed then id in w'.requests && w'.requests[id] == r.(pc := After(leg, Some(backend.codec.hash(raw))))
              else id !in w'.requests
    {
      var hash := backend.codec.hash(raw);
      confirmed := rpc.Wait(hash, o.receipt, o.waited);
      ghost var w1 := w.(chain := rpc.mined);
      steps := RunsMining(backend, w, id, c, leg, i, raw);
      if confirmed {
        db.rows := db.rows[i := db.rows[i].(status := EXECUTED)];
      }
      ghost var x := InputOf(o, None, confirmed);
      RunsOneMore(backend, w, id, c, steps, w1, x);
      w', steps := Advance(backend, w1, id, x), steps + [LastWithdrawRuns(id, x)];
    }

    /** Broadcast the stored raw and wait for it: the hash once it is confirmed. */
    method BroadcastAndWait(
      r: Request, leg: Leg, i: nat, raw: Raw, o: Outside, ghost w: World, ghost id: RequestId, ghost c: Circumstances)
      returns (confirmed: Option<Option<TxHash>>, ghost w': World, ghost steps: seq<Step>)
      requires Holds(w) && id in w.requests && w.requests[id] == r && r.pc == AtBroadcast(leg, i, raw) && i < |w.api.rows|
      requires o == OfLeg(c, leg)
      modifies db`rows, rpc
      ensures Holds(w') && Runs(backend, w, id, c, steps, w') && w'.now == w.now
      ensures confirmed.Some? ==> id in w'.requests && w'.requests[id] == r.(pc := After(leg, confirmed.value))
      ensures confirmed.None? ==> id !in w'.requests
    {
      ghost var x := InputOf(o, None, o.rpcOk);
      rpc.Broadcast(i, raw);
      w', steps := Advance(backend, w, id, x), [LastWithdrawRuns(id, x)];
      RunsStep(backend, w, id, c, x);
      if !o.rpcOk {
        return None, w', steps;
      }
      ghost var w1, more := w', [];
      var ok;
      ok, w', more := WaitAndConfirm(r.(pc := AtWait(leg, i, raw)), leg, i, raw, o, w1, id, c);
      RunsJoin(backend, w, id, c, steps, w1, more, w');
      steps := steps + more;
      confirmed := if ok then Some(Some(backend.codec.hash(raw))) else None;
    }

    /** Sign the row's transaction, store the raw, and only then send it. */
    method SignAndSend(
      r: Request, leg: Leg, i: nat, tx: Tx, address: Address, now: nat, o: Outside, ghost w: World, ghost id: RequestId,
      ghost c: Circumstances)
      returns (confirmed: Option<Option<TxHash>>, ghost w': World, ghost steps: seq<Step>)
      requires Holds(w) && id in w.requests && w.requests[id] == r && r.pc == AtSign(leg, i, tx)
      requires FreshRow(w.api.rows, i, w.now) && address == c.address && o == OfLeg(c, leg)
      requires relay.engine == backend.engine && OutsideOk(backend.engine, o) && o.session !in relay.sessions
      modifies db`rows, rpc, relay
      ensures Holds(w') && Runs(backend, w, id, c, steps, w') && w'.now == w.now
      ensures confirmed.Some? ==> id in w'.requests && w'.requests[id] == r.(pc := After(leg, confirmed.value))
      ensures confirmed.None? ==> id !in w'.requests
      ensures relay.sessions.Keys <= old(relay.sessions).Keys + {o.session}
    {
      var signature := SignTransfer(r.wallet, tx, address, now, o);
      ghost var x := InputOf(o, signature, true);
      if signature.None? {
        w', steps := CloseUnsent(r, leg, i, tx, w, id, c, x);
        return None, w', steps;
      }
      var raw := backend.codec.serialize(tx, signature.value);
      PersistSigned(i, raw);
      ghost var w1 := Advance(backend, w, id, x);
      RunsSigning(backend, w, id, c, leg, i, tx, signature.value);
      ghost var more;
      confirmed, w', more := BroadcastAndWait(r.(pc := AtBroadcast(leg, i, raw)), leg, i, raw, o, w1, id, c);
      RunsJoin(backend, w, id, c, [LastWithdrawRuns(id, x)], w1, more, w');
      steps := [LastWithdrawRuns(id, x)] + more;
    }

    /** One leg: create the row, sign, persist, broadcast, wait. Its hash once it is EXECUTED; None when it throws. */
    method SignPersistBroadcastWait(
      r: Request, leg: Leg, tx: Tx, amount: nat, address: Address, now: nat, o: Outside, ghost w: World, ghost id: RequestId,
      ghost c: Circumstances)
      returns (executed: Option<Option<TxHash>>, ghost w': World, ghost steps: seq<Step>)
      requires Holds(w) && id in w.requests && w.requests[id] == r && r.pc == AtCreate(leg, tx, amount)
      requires now == w.now && address == c.address && o == OfLeg(c, leg)
      requires relay.engine == backend.engine && OutsideOk(backend.engine, o) && o.session !in relay.sessions
      modifies db`rows, rpc, relay
      ensures Holds(w') && Runs(backend, w, id, c, steps, w') && w'.now == w.now
      ensures executed.Some? ==> id in w'.requests && w'.requests[id] == r.(pc := After(leg, executed.value))
      ensures executed.None? ==> id !in w'.requests
      ensures relay.sessions.Keys <= old(relay.sessions).Keys + {o.session}
    {
      ghost var x := InputOf(o, None, true);
      var created := CreateProcessing(r, leg, amount, now, Ledger(rpc.mined, o.down));
      CreateStep(backend, w, id, x, created);
      w', steps := Advance(backend, w, id, x), [LastWithdrawRuns(id, x)];
      RunsStep(backend, w, id, c, x);
      if created.None? {
        return None, w', steps;
      }
      if created.value.AlreadyExecuted? {
        return Some(created.value.hash), w', steps;
      }
      ghost var w1, more := w', [];
      executed, w', more :=
        SignAndSend(r.(pc := AtSign(leg, created.value.row, tx)), leg, created.value.row, tx, address, now, o, w1, id, c);
      RunsJoin(backend, w, id, c, steps, w1, more, w');
      steps := steps + more;
    }

    /** The token step; None when it throws. */
    method SweepTokens(r: Request, address: Address, now: nat, o: Outside, ghost w: World, ghost id: RequestId, ghost c: Circumstances)
      returns (token: Option<Token>, ghost w': World, ghost steps: seq<Step>)
      requires Holds(w) && id in w.requests && w.requests[id] == r && r.pc == AtToken
      requires r.wallet in w.api.wallets && address == w.api.wallets[r.wallet].address
      requires now == w.now && address == c.address && o == c.token
      requires relay.engine == backend.engine && OutsideOk(backend.engine, o) && o.session !in relay.sessions
      modifies db`rows, rpc, relay
      ensures Holds(w') && Runs(backend, w, id, c, steps, w') && w'.now == w.now
      ensures token.Some? ==> id in w'.requests && w'.requests[id] == r.(pc := AtEth(token.value))
      ensures token.None? ==> id !in w'.requests
      ensures relay.sessions.Keys <= old(relay.sessions).Keys + {o.session}
    {
      ghost var x := InputOf(o, None, true);
      w', steps := Advance(backend, w, id, x), [LastWithdrawRuns(id, x)];
      RunsStep(backend, w, id, c, x);
      if backend.token.None? {
        return Some(Unconfigured), w', steps;
      }
      var latest := FindLatestEmergencyBc(db.rows, r.wallet, ERC20);
      if latest.Some? && db.rows[latest.value].status == EXECUTED {
        return Some(Swept(db.rows[latest.value].txHash)), w', steps;
      }
      var prepared := PrepareErc20FullBalanceTransfer(backend.codec, o.net, address, r.to, backend.token.value);
      if prepared.Err? {
        return if prepared.error == ZeroTokenBalance then Some(NoTokens) else None, w', steps;
      }
      ghost var w1, more := w', [];
      var hash;
      hash, w', more := SignPersistBroadcastWait(
        r.(pc := AtCreate(TokenLeg, prepared.value.tx, o.net.tokenBalance)), TokenLeg, prepared.value.tx, o.net.tokenBalance,
        address, now, o, w1, id, c);
      RunsJoin(backend, w, id, c, steps, w1, more, w');
      steps := steps + more;
      token := if hash.Some? then Some(Swept(hash.value)) else None;
    }

    method CreateSkippedEthRow(r: Request, why: SkipReason, token: Token, now: nat)
      modifies db`rows
      ensures db.rows == old(db.rows) + [Row(r.wallet, 0, r.to, EXECUTED, None, now, None,
                                             EmergencyBc(ETH, None, Some(why), TokenHash(token)))]
    {
      db.rows := db.rows + [Row(r.wallet, 0, r.to, EXECUTED, None, now, None, EmergencyBc(ETH, None, Some(why), TokenHash(token)))];
    }

    /** A skipped ETH step leaves its EXECUTED row. */
    method SkipEth(
      r: Request, why: SkipReason, token: Token, now: nat, ghost w: World, ghost id: RequestId, ghost c: Circumstances, ghost x: Input)
      returns (ghost w': World)
      requires Holds(w) && id in w.requests && w.requests[id] == r && r.pc == AtSkip(why, token) && now == w.now
      modifies db`rows
      ensures Holds(w') && Runs(backend, w, id, c, [LastWithdrawRuns(id, x)], w') && w'.now == w.now
      ensures id in w'.requests && w'.requests[id] == r.(pc := AtRetire(token))
    {
      w' := Advance(backend, w, id, x);
      RunsStep(backend, w, id, c, x);
      CreateSkippedEthRow(r, why, token, now);
    }

    /** How the ETH step starts: already done, a sweep to sign, a skip, or a throw. */
    method PrepareEth(r: Request, token: Token, address: Address, net: Provider, ghost w: World, ghost id: RequestId, ghost x: Input)
      returns (next: Option<Pc>)
      requires Holds(w) && id in w.requests && w.requests[id] == r && r.pc == AtEth(token) && net == x.net
      requires r.wallet in w.api.wallets && address == w.api.wallets[r.wallet].address
      ensures Advance(backend, w, id, x) == Proceed(w, id, next)
      ensures next.Some? ==>
                match next.value
                case AtRetire(t) => t == token
                case AtSkip(_, t) => t == token
                case AtCreate(g, _, _) => g == EthLeg(token)
                case _ => false
    {
      var latest := FindLatestEmergencyBc(db.rows, r.wallet, ETH);
      if latest.Some? && db.rows[latest.value].status == EXECUTED {
        return Some(AtRetire(token));
      }
      var prepared := PrepareFullBalanceTransfer(net, address, r.to);
      if prepared.Ok? {
        return Some(AtCreate(EthLeg(token), prepared.value.tx, prepared.value.valueWei));
      }
      if prepared.error == ZeroBalance {
        return Some(AtSkip(ZERO_BALANCE, token));
      }
      if TokenHash(token).Some? && prepared.error == BalanceBelowFee {
        return Some(AtSkip(ETH_DUST, token));
      }
      next := None;
    }

    /** The ETH step: whether the wallet may be retired. */
    method SweepEth(
      r: Request, token: Token, address: Address, now: nat, o: Outside, ghost w: World, ghost id: RequestId, ghost c: Circumstances)
      returns (done: bool, ghost w': World, ghost steps: seq<Step>)
      requires Holds(w) && id in w.requests && w.requests[id] == r && r.pc == AtEth(token)
      requires r.wallet in w.api.wallets && address == w.api.wallets[r.wallet].address
      requires now == w.now && address == c.address && o == c.eth
      requires relay.engine == backend.engine && OutsideOk(backend.engine, o) && o.session !in relay.sessions
      modifies db`rows, rpc, relay
      ensures Holds(w') && Runs(backend, w, id, c, steps, w') && w'.now == w.now
      ensures done ==> id in w'.requests && w'.requests[id] == r.(pc := AtRetire(token))
      ensures !done ==> id !in w'.requests
    {
      ghost var x := InputOf(o, None, true);
      var next := PrepareEth(r, token, address, o.net, w, id, x);
      RunsStep(backend, w, id, c, x);
      w', steps := Advance(backend, w, id, x), [LastWithdrawRuns(id, x)];
      if next.None? || next.value.AtRetire? {
        return next.Some?, w', steps;
      }
      ghost var w1, more := w', [];
      if next.value.AtSkip? {
        w' := SkipEth(r.(pc := next.value), next.value.why, token, now, w1, id, c, x);
        more := [LastWithdrawRuns(id, x)];
        done := true;
      } else {
        var hash;
        hash, w', more := SignPersistBroadcastWait(
          r.(pc := next.value), next.value.leg, next.value.tx, next.value.amount, address, now, o, w1, id, c);
        done := hash.Some?;
      }
      RunsJoin(backend, w, id, c, steps, w1, more, w');
      steps := steps + more;
    }

    /** RETIRED without Share B, and then, best effort, Share C retired too. */
    method Retire(
      r: Request, token: Token, recoveryAnswers: bool, ghost w: World, ghost id: RequestId, ghost c: Circumstances, ghost x: Input)
      returns (ghost w': World, ghost steps: seq<Step>)
      requires Holds(w) && id in w.requests && w.requests[id] == r && r.pc == AtRetire(token) && r.wallet in w.api.wallets
      requires x.ok == recoveryAnswers == c.recoveryAnswers
      modifies db`wallets, recovery
      ensures Holds(w') && Runs(backend, w, id, c, steps, w') && id !in w'.requests
      ensures db.wallets == old(db.wallets)[r.wallet := old(db.wallets)[r.wallet].(status := RETIRED, shareB := None)]
    {
      w', steps := Advance(backend, w, id, x), [LastWithdrawRuns(id, x)];
      RunsStep(backend, w, id, c, x);
      db.wallets := db.wallets[r.wallet := db.wallets[r.wallet].(status := RETIRED, shareB := None)];
      RunsOneMore(backend, w, id, c, steps, w', x);
      w', steps := Advance(backend, w', id, x), steps + [LastWithdrawRuns(id, x)];
      if recoveryAnswers {
        var _ := recovery.RetireShare(r.wallet);
      }
    }

    /** A token sweep that still has to be signed needs gas. */
    method AssertTokenSweepHasGas(wallet: WalletId, to: Address, net: Provider, ghost w: World) returns (refusal: Option<ErrorCode>)
      requires Holds(w) && wallet in w.api.wallets
      ensures refusal == TokenGasRefusal(backend, w, wallet, to, net)
    {
      if backend.token.None? {
        return None;
      }
      var existing := FindLatestEmergencyBc(db.rows, wallet, ERC20);
      if existing.Some? && (db.rows[existing.value].status == BROADCASTED || db.rows[existing.value].status == EXECUTED) {
        return None;
      }
      var prepared := PrepareErc20FullBalanceTransfer(backend.codec, net, db.wallets[wallet].address, to, backend.token.value);
      if prepared.Ok? || prepared.error == ZeroTokenBalance {
        return None;
      }
      refusal := Some(if prepared.error == InsufficientGas then INSUFFICIENT_GAS else INVALID_REQUEST);
    }

    /** Everything before the lock, with the code asked for last. */
    method CheckRequest(
      user: UserId, wallet: WalletId, toRaw: string, otp: string, correct: bool, now: nat, net: Provider, ghost w: World,
      ghost id: RequestId)
      returns (refusal: Option<ErrorCode>)
      requires Holds(w)
      modifies emergency.otpFailures
      ensures var gate := OtpTracker.Gate(emergency.otpFailures.limits, old(emergency.otpFailures.failures), user, now, otp, correct);
              && Arrive(backend, w, id, user, wallet, toRaw, OtpRefusal(gate.1), net).1 == refusal
              && emergency.otpFailures.failures
                 == (if AsksForCode(backend, db.wallets, user, wallet, toRaw) then gate.0 else old(emergency.otpFailures.failures))
              && (refusal.None? ==> AsksForCode(backend, db.wallets, user, wallet, toRaw) && gate.1 == OtpTracker.Passed)
    {
      var to := backend.codec.getAddress(toRaw);
      if to.None? {
        return Some(INVALID_ADDRESS);
      }
      if wallet !in db.wallets {
        return Some(WALLET_NOT_FOUND);
      }
      if db.wallets[wallet].user != user {
        return Some(NOT_YOUR_WALLET);
      }
      refusal := LastWithdrawRefusal(db.wallets, wallet);
      if refusal.Some? {
        return;
      }
      if db.wallets[wallet].address == to.value {
        return Some(INVALID_ADDRESS);
      }
      var verdict := emergency.VerifyEmergencyOtp(user, otp, correct, now);
      if OtpRefusal(verdict).Some? {
        return OtpRefusal(verdict);
      }
      refusal := AssertTokenSweepHasGas(wallet, to.value, net, w);
    }

    /** From the wallet lock to retirement. */
    method SweepAndRetire(
      r: Request, address: Address, now: nat, down: set<TxHash>, t: Outside, e: Outside, recoveryAnswers: bool,
      ghost w: World, ghost id: RequestId, ghost c: Circumstances)
      returns (retired: bool, ghost w': World, ghost steps: seq<Step>)
      requires Holds(w) && id in w.requests && w.requests[id] == r && r.pc == AtLock
      requires r.wallet in w.api.wallets && address == w.api.wallets[r.wallet].address && now == w.now
      requires c == Circumstances(address, down, t, e, recoveryAnswers)
      requires relay.engine == backend.engine && OutsideOk(backend.engine, t) && OutsideOk(backend.engine, e)
      requires t.session !in relay.sessions && e.session !in relay.sessions && t.session != e.session
      requires w.api.wallets[r.wallet].status != RETIRED
      modifies db, rpc, relay, recovery
      ensures Holds(w') && Runs(backend, w, id, c, steps, w') && id !in w'.requests
      ensures r.wallet in db.wallets && (retired <==> db.wallets[r.wallet].status == RETIRED)
      ensures retired ==> db.wallets[r.wallet].shareB.None?
    {
      ghost var x := Input(down, t.net, None, recoveryAnswers);
      var settled := LockAndSettle(r.wallet, now, down, w, id, x);
      w', steps := Advance(backend, w, id, x), [LastWithdrawRuns(id, x)];
      RunsStep(backend, w, id, c, x);
      if settled.None? {
        return false, w', steps;
      }
      ghost var w1, more := w', [];
      if settled.value.Rebroadcast? {
        RebroadcastSameRaw(settled.value.id, settled.value.raw, w1, id, x);
        RunsOneMore(backend, w, id, c, steps, w1, x);
        return false, Advance(backend, w1, id, x), steps + [LastWithdrawRuns(id, x)];
      }
      retired, w', more := SweepBoth(r.(pc := AtToken), address, now, t, e, recoveryAnswers, w1, id, c);
      RunsJoin(backend, w, id, c, steps, w1, more, w');
      steps := steps + more;
    }

    /** The token step, the ETH step and the retire writes. */
    method SweepBoth(
      r: Request, address: Address, now: nat, t: Outside, e: Outside, recoveryAnswers: bool, ghost w: World,
      ghost id: RequestId, ghost c: Circumstances)
      returns (retired: bool, ghost w': World, ghost steps: seq<Step>)
      requires Holds(w) && id in w.requests && w.requests[id] == r && r.pc == AtToken
      requires r.wallet in w.api.wallets && address == w.api.wallets[r.wallet].address && now == w.now
      requires c == Circumstances(address, c.down, t, e, recoveryAnswers)
      requires relay.engine == backend.engine && OutsideOk(backend.engine, t) && OutsideOk(backend.engine, e)
      requires t.session !in relay.sessions && e.session !in relay.sessions && t.session != e.session
      requires w.api.wallets[r.wallet].status != RETIRED
      modifies db, rpc, relay, recovery
      ensures Holds(w') && Runs(backend, w, id, c, steps, w') && id !in w'.requests
      ensures r.wallet in db.wallets && (retired <==> db.wallets[r.wallet].status == RETIRED)
      ensures retired ==> db.wallets[r.wallet].shareB.None?
    {
      retired := false;
      var token;
      token, w', steps := SweepTokens(r, address, now, t, w, id, c);
      if token.None? {
        return;
      }
      var done;
      ghost var w1, more := w', [];
      done, w', more := SweepEth(r.(pc := AtEth(token.value)), token.value, address, now, e, w1, id, c);
      RunsJoin(backend, w, id, c, steps, w1, more, w');
      steps := steps + more;
      if !done {
        return;
      }
      ghost var w2 := w';
      w', more := Retire(
        r.(pc := AtRetire(token.value)), token.value, recoveryAnswers, w2, id, c, Input({}, e.net, None, recoveryAnswers));
      RunsJoin(backend, w, id, c, steps, w2, more, w');
      steps := steps + more;
      retired := true;
    }

    /**
     * executeLastWithdraw, undisturbed. It leaves the tables, the RPC and Recovery as an admissible run of the whole
     * machine does: the request arrives, and its steps follow to the end, with the receipts it waited for mined in
     * between, each as its circumstances answer. It signs with the in-process signature of B and C over the request's own
     * transaction, and once the request is accepted it answers with success exactly when the wallet is RETIRED.
     */
    method ExecuteLastWithdraw(
      user: UserId, wallet: WalletId, toRaw: string, otp: string, correct: bool, now: nat, gas: Provider, down: set<TxHash>,
      t: Outside, e: Outside, recoveryAnswers: bool, ghost w: World, ghost id: RequestId)
      returns (r: Result<WalletStatus, ErrorCode>, ghost w': World, ghost steps: seq<Step>)
      requires Holds(w) && id !in w.requests && now == w.now
      requires relay.engine == backend.engine && OutsideOk(backend.engine, t) && OutsideOk(backend.engine, e)
      requires t.session !in relay.sessions && e.session !in relay.sessions && t.session != e.session
      modifies emergency.otpFailures, db, rpc, relay, recovery
      ensures var gate := OtpTracker.Gate(emergency.otpFailures.limits, old(emergency.otpFailures.failures), user, now, otp, correct);
              var arrival := LastWithdrawArrives(id, user, wallet, toRaw, OtpRefusal(gate.1), gas);
              var refusal := Arrive(backend, w, id, user, wallet, toRaw, OtpRefusal(gate.1), gas).1;
              && Holds(w') && id !in w'.requests
              && Admissible(backend, w, [arrival] + steps) && Run(backend, w, [arrival] + steps) == w'
              && (refusal.Some? ==> r == Err(refusal.value) && steps == [] && w' == w)
              && (refusal.None? ==> gate.1 == OtpTracker.Passed)
              && emergency.otpFailures.failures
                 == (if AsksForCode(backend, old(db.wallets), user, wallet, toRaw) then gate.0 else old(emergency.otpFailures.failures))
              && (refusal.None? ==>
                    wallet in w.api.wallets
                    && AllAsAnswered(backend, Next(backend, w, arrival), id,
                                     Circumstances(w.api.wallets[wallet].address, down, t, e, recoveryAnswers), steps)
                    && (r.Ok? <==> wallet in db.wallets && db.wallets[wallet].status == RETIRED))
      ensures Reachable(backend, w) ==> Reachable(backend, w')
      ensures r.Ok? ==> wallet in db.wallets && db.wallets[wallet].status == RETIRED && db.wallets[wallet].shareB.None?
    {
      ghost var gate := OtpTracker.Gate(emergency.otpFailures.limits, emergency.otpFailures.failures, user, now, otp, correct);
      ghost var arrival := LastWithdrawArrives(id, user, wallet, toRaw, OtpRefusal(gate.1), gas);
      var refusal := CheckRequest(user, wallet, toRaw, otp, correct, now, gas, w, id);
      if refusal.Some? {
        ArrivalJoins(backend, w, id, arrival, [], w);
        return Err(refusal.value), w, [];
      }
      ArrivesAtLock(backend, w, id, user, wallet, toRaw, OtpRefusal(gate.1), gas);
      r, w', steps := ExecuteArrived(wallet, backend.codec.getAddress(toRaw).value, now, down, t, e, recoveryAnswers, w, id);
      ArrivalJoins(backend, w, id, arrival, steps, w');
    }

    /** The part behind the checks. */
    method ExecuteArrived(
      wallet: WalletId, to: Address, now: nat, down: set<TxHash>, t: Outside, e: Outside, recoveryAnswers: bool, ghost w: World,
      ghost id: RequestId)
      returns (r: Result<WalletStatus, ErrorCode>, ghost w': World, ghost steps: seq<Step>)
      requires Holds(w) && id !in w.requests && now == w.now
      requires wallet in w.api.wallets && w.api.wallets[wallet].status != RETIRED
      requires relay.engine == backend.engine && OutsideOk(backend.engine, t) && OutsideOk(backend.engine, e)
      requires t.session !in relay.sessions && e.session !in relay.sessions && t.session != e.session
      modifies db, rpc, relay, recovery
      ensures var c := Circumstances(w.api.wallets[wallet].address, down, t, e, recoveryAnswers);
              var w1 := w.(requests := w.requests[id := Request(wallet, to, AtLock)]);
              Holds(w') && Runs(backend, w1, id, c, steps, w') && id !in w'.requests
      ensures r.Ok? <==> wallet in db.wallets && db.wallets[wallet].status == RETIRED
      ensures r.Ok? ==> db.wallets[wallet].shareB.None?
    {
      ghost var w1 := w.(requests := w.requests[id := Request(wallet, to, AtLock)]);
      var address := db.wallets[wallet].address;
      var retired;
      retired, w', steps := SweepAndRetire(
        Request(wallet, to, AtLock), address, now, down, t, e, recoveryAnswers, w1, id,
        Circumstances(address, down, t, e, recoveryAnswers));
      r := if retired then Ok(RETIRED) else Err(WITHDRAW_FAILED);
    }
  }

  /** A request that is not refused waits for the lock. */
  lemma ArrivesAtLock(
    b: Backend, w: World, id: RequestId, user: UserId, wallet: WalletId, toRaw: string, otp: Option<ErrorCode>, net: Provider)
    requires Arrive(b, w, id, user, wallet, toRaw, otp, net).1.None?
    ensures wallet in w.api.wallets && b.codec.getAddress(toRaw).Some? && w.api.wallets[wallet].status != RETIRED
    ensures Next(b, w, LastWithdrawArrives(id, user, wallet, toRaw, otp, net))
            == w.(requests := w.requests[id := Request(wallet, b.codec.getAddress(toRaw).value, AtLock)])
  {
  }

  lemma ArrivalJoins(b: Backend, w: World, id: RequestId, arrival: Step, steps: seq<Step>, w': World)
    requires arrival.LastWithdrawArrives? && arrival.id == id && id !in w.requests
    requires Admissible(b, Next(b, w, arrival), steps) && Run(b, Next(b, w, arrival), steps) == w'
    ensures Admissible(b, w, [arrival] + steps) && Run(b, w, [arrival] + steps) == w'
    ensures Reachable(b, w) ==> Reachable(b, w')
  {
    assert ([arrival] + steps)[1..] == steps;
    if Reachable(b, w) {
      RunReached(b, w, [arrival] + steps);
    }
  }

  /** Collecting expired sessions and touching one id leaves no other new one. */
  lemma OnlyOneSessionMore(
    before: map<SessionId, RecoverySign.Session>, after: map<SessionId, RecoverySign.Session>, id: SessionId, now: nat)
    requires after == before || after - {id} == RecoverySign.Live(before, now)
    ensures after.Keys <= before.Keys + {id}
  {
    forall k | k in after && k != id ensures k in before {
      assert after == before || k in after - {id};
    }
  }
}
