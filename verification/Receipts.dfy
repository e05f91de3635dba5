/**
 * A+B rows and the chain: in every state of every run a row is EXECUTED only on the success receipt of its own
 * broadcast, a FAILED row that carries a hash was reverted, and open or expired ones were never given a hash in vain.
 */
module Receipts {
  import opened Types
  import opened Text
  import opened Routing
  import opened EthTransfer
  import opened Withdraws
  import opened AbSigning
  import opened AbInvariant
  import opened Idempotency
  import opened LastWithdraw
  import opened BcInvariant
  import opened LastWithdrawSteps
  import opened System
  import opened History
  import opened Guarantees

  /** Status, hash and receipt of one A+B row fit together. */
  predicate ReceiptOk(r: Row, chain: map<TxHash, bool>) {
    r.metadata.NormalAb? ==>
      match r.status
      case PROCESSING => r.txHash.None?
      case EXPIRED => r.txHash.None?
      case BROADCASTED => r.txHash.Some?
      case EXECUTED => r.txHash.Some? && r.txHash.value in chain && chain[r.txHash.value]
      case FAILED => r.txHash.Some? ==> r.txHash.value in chain && !chain[r.txHash.value]
  }

  /** A wallet never pays itself. */
  predicate NotToItself(r: Row, wallets: map<WalletId, Wallet>) {
    r.metadata.NormalAb? && r.wallet in wallets ==> r.to != wallets[r.wallet].address
  }

  ghost predicate TableOk(rows: seq<Row>, wallets: map<WalletId, Wallet>, chain: map<TxHash, bool>) {
    forall i :: 0 <= i < |rows| ==> ReceiptOk(rows[i], chain) && NotToItself(rows[i], wallets)
  }

  // ---- Pieces of the handlers ----

  lemma ExpiryKeepsTable(rows: seq<Row>, ids: set<nat>, wallets: map<WalletId, Wallet>, chain: map<TxHash, bool>)
    requires TableOk(rows, wallets, chain)
    ensures TableOk(ExpireRows(rows, ids), wallets, chain)
  {
  }

  lemma SettlingKeepsTable(rows: seq<Row>, w: WalletId, l: Ledger, wallets: map<WalletId, Wallet>)
    requires TableOk(rows, wallets, l.mined) && SettleNormalAb(rows, w, l).Ok?
    ensures TableOk(SettleNormalAb(rows, w, l).value, wallets, l.mined)
  {
  }

  lemma FailingKeepsTable(a: Api, i: nat, written: bool, chain: map<TxHash, bool>)
    requires TableOk(a.rows, a.wallets, chain)
    ensures TableOk(FailRow(a, i, written).rows, a.wallets, chain) && FailRow(a, i, written).wallets == a.wallets
  {
  }

  lemma CreatingKeepsTable(
    b: Backend, a: Api, now: nat, l: Ledger, q: StartCall, to: Address, amount: nat, asset: Asset, p: Prepared)
    requires TableOk(a.rows, a.wallets, l.mined) && q.wallet in a.wallets && a.wallets[q.wallet].address != to
    ensures var a' := Create(b, a, now, l, q, to, amount, asset, p).0; a'.wallets == a.wallets && TableOk(a'.rows, a.wallets, l.mined)
  {
    var expired := ExpireRows(a.rows, StaleRows(a.rows, q.wallet, now));
    ExpiryKeepsTable(a.rows, StaleRows(a.rows, q.wallet, now), a.wallets, l.mined);
    if SettleNormalAb(expired, q.wallet, l).Ok? {
      SettlingKeepsTable(expired, q.wallet, l, a.wallets);
    }
  }

  lemma GcKeepsTable(a: Api, now: nat, lost: set<SessionId>, chain: map<TxHash, bool>)
    requires TableOk(a.rows, a.wallets, chain)
    ensures TableOk(Gc(a, now, lost).rows, a.wallets, chain) && Gc(a, now, lost).wallets == a.wallets
  {
    ExpiryKeepsTable(a.rows, RowsOf(a.sessions, Expired(a.sessions, now), lost), a.wallets, chain);
  }

  lemma ReuseKeepsRows(a: Api, user: UserId, w: WalletId, i: nat, to: Address, amount: nat, asset: Asset)
    requires i < |a.rows|
    ensures var a' := Reuse(a, user, w, i, to, amount, asset).0; a'.rows == a.rows && a'.wallets == a.wallets
  {
  }

  lemma ValidatedKeepsTable(b: Backend, a: Api, now: nat, l: Ledger, q: StartCall, to: Address, amount: nat, asset: Asset)
    requires TableOk(a.rows, a.wallets, l.mined)
    ensures var a' := StartValidated(b, a, now, l, q, to, amount, asset).0;
            a'.wallets == a.wallets && TableOk(a'.rows, a.wallets, l.mined)
  {
    var found := FindByKey(a.rows, Key(q.wallet, Trim(q.key)));
    if found.Some? {
      ReuseKeepsRows(a, q.user, q.wallet, found.value, to, amount, asset);
    } else if WalletRefusal(a, q.user, q.wallet, to).None? {
      var p := PrepareWithdraw(b.codec, q.net, asset, a.wallets[q.wallet].address, to, amount, b.token);
      if p.Ok? {
        CreatingKeepsTable(b, a, now, l, q, to, amount, asset, p.value);
      }
    }
  }

  lemma StartKeepsTable(b: Backend, a0: Api, now: nat, l: Ledger, lost: set<SessionId>, q: StartCall)
    requires TableOk(a0.rows, a0.wallets, l.mined)
    ensures var a' := Start(b, a0, now, l, lost, q).0; a'.wallets == a0.wallets && TableOk(a'.rows, a0.wallets, l.mined)
  {
    GcKeepsTable(a0, now, lost, l.mined);
    var to, amount, asset := b.codec.getAddress(q.to), ParseWithdrawAmountToWei(b.codec, q.amount), ParseWithdrawAsset(q.asset);
    if to.Some? && amount.Some? && asset.Some? {
      ValidatedKeepsTable(b, Gc(a0, now, lost), now, l, q, to.value, amount.value, asset.value);
    }
  }

  lemma RoundKeepsTable(
    b: Backend, a: Api, now: nat, lost: set<SessionId>, user: UserId, id: SessionId, n: nat, msgs: seq<Message>,
    chain: map<TxHash, bool>)
    requires TableOk(a.rows, a.wallets, chain)
    ensures var a' := HandleRound(b, a, now, lost, user, id, n, msgs).0; a'.wallets == a.wallets && TableOk(a'.rows, a.wallets, chain)
  {
    GcKeepsTable(a, now, lost, chain);
  }

  lemma BroadcastingKeepsTable(b: Backend, a: Api, l: Ledger, id: SessionId, msg4A: seq<Message>, o: Outcome)
    requires TableOk(a.rows, a.wallets, l.mined) && id in a.sessions
    requires IsAb(a.rows, a.sessions[id].row) && a.rows[a.sessions[id].row].status == PROCESSING
    ensures var a' := SignAndBroadcast(b, a, l, id, msg4A, o).0; a'.wallets == a.wallets && TableOk(a'.rows, a.wallets, l.mined)
  {
    var i := a.sessions[id].row;
    var sent := match SignAsB(b, a.sessions[id], msg4A) case None => [] case Some((tx, raw)) => [Sent(i, tx, raw)];
    FailingKeepsTable(a.(sent := a.sent + sent, sessions := a.sessions - {id}), i, o.failWritten, l.mined);
    assert a.sent + [] == a.sent;
  }

  lemma CompleteKeepsTable(
    b: Backend, a0: Api, now: nat, l: Ledger, lost: set<SessionId>, user: UserId, id: SessionId, msg4A: seq<Message>, o: Outcome)
    requires ApiOk(b, a0, now) && TableOk(a0.rows, a0.wallets, l.mined)
    ensures var a' := Complete(b, a0, now, l, lost, user, id, msg4A, o).0;
            a'.wallets == a0.wallets && TableOk(a'.rows, a0.wallets, l.mined)
  {
    GcKeepsTable(a0, now, lost, l.mined);
    GcKeepsOk(b, a0, now, lost);
    var a := Gc(a0, now, lost);
    if CompleteGuard(a, user, id, msg4A, o.failWritten).Some? {
      CompleteGuardShape(a, user, id, msg4A, o.failWritten);
      if id in a.sessions {
        FailingKeepsTable(a.(sessions := a.sessions - {id}), a.sessions[id].row, o.failWritten, l.mined);
      }
    } else {
      assert SessionOk(a.wallets, a.rows, id, a.sessions[id], now);
      BroadcastingKeepsTable(b, a, l, id, msg4A, o);
    }
  }

  lemma AbStepKeepsTable(b: Backend, a: Api, now: nat, l: Ledger, s: AbStep)
    requires ApiOk(b, a, now) && TableOk(a.rows, a.wallets, l.mined)
    ensures var a' := ApplyAb(b, a, now, l, s); a'.wallets == a.wallets && TableOk(a'.rows, a.wallets, l.mined)
  {
    match s
    case SignStart(_, lost, q) => StartKeepsTable(b, a, now, l, lost, q);
    case SignRound(_, lost, user, id, n, msgs) => RoundKeepsTable(b, a, now, lost, user, id, n, msgs, l.mined);
    case SignComplete(_, lost, user, id, msgs, o) => CompleteKeepsTable(b, a, now, l, lost, user, id, msgs, o);
    case SignAbort(_, user, id, written) =>
      if Owned(a, user, id) {
        FailingKeepsTable(a.(sessions := a.sessions - {id}), a.sessions[id].row, written, l.mined);
      }
    case CompleteThenDies(_, lost, _, _, _) => GcKeepsTable(a, now, lost, l.mined);
    case Restart(_) =>
  }

  // ---- Emergency steps ----

  /** A+B rows as they were, and emergency rows behind them. */
  predicate SameAb(rows: seq<Row>, rows': seq<Row>) {
    && |rows| <= |rows'|
    && (forall i :: 0 <= i < |rows'| && rows'[i].metadata.NormalAb? ==> i < |rows| && rows'[i] == rows[i])
  }

  lemma EmergencySettlingIsSameAb(rows: seq<Row>, w: WalletId, l: Ledger, now: nat)
    requires !SettleEmergency(rows, w, l, now).Thrown?
    ensures |SettleEmergency(rows, w, l, now).rows| == |rows| && SameAb(rows, SettleEmergency(rows, w, l, now).rows)
  {
    SettlementSteps(rows, w, l, now);
  }

  lemma SameAbKeepsTable(rows: seq<Row>, rows': seq<Row>, wallets: map<WalletId, Wallet>, chain: map<TxHash, bool>)
    requires TableOk(rows, wallets, chain) && SameAb(rows, rows')
    ensures TableOk(rows', wallets, chain)
  {
  }

  /** Addresses stay, so what was not paid to itself still is not. */
  lemma AddressesKeepTable(rows: seq<Row>, wallets: map<WalletId, Wallet>, wallets': map<WalletId, Wallet>, chain: map<TxHash, bool>)
    requires TableOk(rows, wallets, chain) && forall i :: 0 <= i < |rows| ==> rows[i].wallet in wallets
    requires forall id :: id in wallets ==> id in wallets' && wallets'[id].address == wallets[id].address
    ensures TableOk(rows, wallets', chain)
  {
  }

  lemma LockKeepsTable(w: World, id: RequestId, x: Input)
    requires id in w.requests && TableOk(w.api.rows, w.api.wallets, w.chain)
    ensures TableOk(StepLock(w, id, x).api.rows, w.api.wallets, w.chain)
  {
    LockShape(w, id, x);
    var wallet, l := w.requests[id].wallet, Ledger(w.chain, x.down);
    if StepLock(w, id, x) != End(w, id) {
      var rows := SettleNormalAb(w.api.rows, wallet, l).value;
      SettlingKeepsTable(w.api.rows, wallet, l, w.api.wallets);
      EmergencySettlingIsSameAb(rows, wallet, l, w.now);
      SameAbKeepsTable(rows, SettleEmergency(rows, wallet, l, w.now).rows, w.api.wallets, w.chain);
    }
  }

  lemma CreateIsSameAb(w: World, id: RequestId, x: Input)
    requires id in w.requests && w.requests[id].pc.AtCreate?
    ensures SameAb(w.api.rows, StepCreate(w, id, x).api.rows)
  {
    CreateShape(w, id, x);
    if StepCreate(w, id, x) != End(w, id) {
      EmergencySettlingIsSameAb(w.api.rows, w.requests[id].wallet, Ledger(w.chain, x.down), w.now);
    }
  }

  lemma RowStepIsSameAb(b: Backend, w: World, id: RequestId, x: Input)
    requires id in w.requests && RequestOk(b.codec, w, w.requests[id])
    requires var pc := w.requests[id].pc; pc.AtSign? || pc.AtMarkFailed? || pc.AtWait? || pc.AtSkip?
    ensures SameAb(w.api.rows, Advance(b, w, id, x).api.rows)
  {
  }

  lemma RowlessIsSameAb(b: Backend, w: World, id: RequestId, x: Input)
    requires id in w.requests
    requires var pc := w.requests[id].pc;
             pc.AtToken? || pc.AtEth? || pc.AtRebroadcast? || pc.AtBroadcast? || pc.AtRetire? || pc.AtRetireShare?
    ensures Advance(b, w, id, x).api.rows == w.api.rows
  {
    if w.requests[id].pc.AtToken? {
      var _ := TokenShape(b, w, id, x);
    } else if w.requests[id].pc.AtEth? {
      var _ := EthShape(w, id, x, w.requests[id].pc.token);
    }
  }

  lemma AdvanceKeepsTable(b: Backend, w: World, id: RequestId, x: Input)
    requires id in w.requests && RequestOk(b.codec, w, w.requests[id]) && TableOk(w.api.rows, w.api.wallets, w.chain)
    ensures TableOk(Advance(b, w, id, x).api.rows, w.api.wallets, w.chain)
  {
    var pc, rows' := w.requests[id].pc, Advance(b, w, id, x).api.rows;
    if pc.AtLock? {
      LockKeepsTable(w, id, x);
    } else {
      if pc.AtCreate? {
        CreateIsSameAb(w, id, x);
      } else if pc.AtSign? || pc.AtMarkFailed? || pc.AtWait? || pc.AtSkip? {
        RowStepIsSameAb(b, w, id, x);
      } else {
        RowlessIsSameAb(b, w, id, x);
      }
      SameAbKeepsTable(w.api.rows, rows', w.api.wallets, w.chain);
    }
  }

  // ---- Every step, every run ----

  lemma EmergencyStartKeepsTable(a: Api, l: Ledger, user: UserId, wallet: WalletId, otp: Option<ErrorCode>)
    requires TableOk(a.rows, a.wallets, l.mined)
    ensures TableOk(StartEmergencyRecovery(a, l, user, wallet, otp).0.rows, a.wallets, l.mined)
  {
    EmergencyStartShape(a, l, user, wallet, otp);
    if SettleNormalAb(a.rows, wallet, l).Ok? {
      SettlingKeepsTable(a.rows, wallet, l, a.wallets);
    }
  }

  lemma GrowingChainKeepsTable(rows: seq<Row>, wallets: map<WalletId, Wallet>, chain: map<TxHash, bool>, chain': map<TxHash, bool>)
    requires TableOk(rows, wallets, chain) && ChainGrows(chain, chain')
    ensures TableOk(rows, wallets, chain')
  {
  }

  lemma OtherStepKeepsRows(b: Backend, w: World, s: Step)
    requires !s.Ab? && !s.EmergencyStart? && !(s.LastWithdrawRuns? && s.id in w.requests)
    ensures Next(b, w, s).api.rows == w.api.rows
  {
    if s.LastWithdrawArrives? {
      var _ := ArriveShape(b, w, s.id, s.user, s.wallet, s.to, s.otp, s.net);
    }
  }

  /** The table after a step, judged by the receipts and wallets before it. */
  lemma StepKeepsRowsOk(b: Backend, w: World, s: Step)
    requires SystemOk(b, w) && Enabled(b, w, s) && TableOk(w.api.rows, w.api.wallets, w.chain)
    ensures TableOk(Next(b, w, s).api.rows, w.api.wallets, w.chain)
  {
    match s
    case Ab(step) => AbStepKeepsTable(b, w.api, w.now, Ledger(w.chain, step.down), step);
    case EmergencyStart(down, user, wallet, otp) => EmergencyStartKeepsTable(w.api, Ledger(w.chain, down), user, wallet, otp);
    case LastWithdrawRuns(id, x) =>
      if id in w.requests {
        assert RequestOk(b.codec, w, w.requests[id]);
        AdvanceKeepsTable(b, w, id, x);
      }
    case _ => OtherStepKeepsRows(b, w, s);
  }

  /** Only the end of a key generation adds a wallet, and it adds no row. */
  lemma RequestKeepsKeys(b: Backend, w: World, id: RequestId, x: Input)
    requires id in w.requests
    ensures Advance(b, w, id, x).api.wallets.Keys == w.api.wallets.Keys
  {
    if w.requests[id].pc.AtLock? {
      LockWallets(w, id, x);
    } else if !ChangesWallets(w.requests[id].pc) {
      OtherWallets(b, w, id, x);
    }
  }

  lemma StepKeepsKeys(b: Backend, w: World, s: Step)
    requires ApiOk(b, w.api, w.now) && TableOk(w.api.rows, w.api.wallets, w.chain) && !s.DkgCreate?
    ensures Next(b, w, s).api.wallets.Keys == w.api.wallets.Keys
  {
    match s
    case Ab(step) => AbStepKeepsTable(b, w.api, w.now, Ledger(w.chain, step.down), step);
    case EmergencyStart(down, user, wallet, otp) => EmergencyStartShape(w.api, Ledger(w.chain, down), user, wallet, otp);
    case EmergencyCancel(user, wallet) => EmergencyCancelShape(w, user, wallet);
    case LastWithdrawArrives(id, user, wallet, to, otp, net) => var _ := ArriveShape(b, w, id, user, wallet, to, otp, net);
    case LastWithdrawRuns(id, x) =>
      if id in w.requests {
        RequestKeepsKeys(b, w, id, x);
      }
    case _ =>
  }

  lemma RowsHaveOldWallets(b: Backend, w: World, s: Step)
    requires Safe(b, w) && BackendOk(b) && Enabled(b, w, s) && TableOk(w.api.rows, w.api.wallets, w.chain)
    ensures var rows' := Next(b, w, s).api.rows; forall i :: 0 <= i < |rows'| ==> rows'[i].wallet in w.api.wallets
  {
    if s.DkgCreate? {
      OtherStepKeepsRows(b, w, s);
    } else {
      StepKeepsSafe(b, w, s);
      StepKeepsKeys(b, w, s);
    }
  }

  lemma StepKeepsTable(b: Backend, w: World, s: Step)
    requires Safe(b, w) && BackendOk(b) && Enabled(b, w, s) && TableOk(w.api.rows, w.api.wallets, w.chain)
    ensures var w' := Next(b, w, s); TableOk(w'.api.rows, w'.api.wallets, w'.chain)
  {
    var w' := Next(b, w, s);
    StepKeepsRowsOk(b, w, s);
    StepLater(b, w, s);
    RowsHaveOldWallets(b, w, s);
    AddressesKeepTable(w'.api.rows, w.api.wallets, w'.api.wallets, w.chain);
    GrowingChainKeepsTable(w'.api.rows, w'.api.wallets, w.chain, w'.chain);
  }

  lemma {:induction false} EveryRunKeepsTable(b: Backend, w: World, steps: seq<Step>)
    requires BackendOk(b) && Safe(b, w) && Admissible(b, w, steps) && TableOk(w.api.rows, w.api.wallets, w.chain)
    ensures var w' := Run(b, w, steps); TableOk(w'.api.rows, w'.api.wallets, w'.chain)
    decreases |steps|
  {
    if steps != [] {
      StepKeepsTable(b, w, steps[0]);
      StepKeepsSafe(b, w, steps[0]);
      EveryRunKeepsTable(b, Next(b, w, steps[0]), steps[1..]);
    }
  }

  lemma ReachableTable(b: Backend, w: World)
    requires BackendOk(b) && Reachable(b, w)
    ensures Safe(b, w) && TableOk(w.api.rows, w.api.wallets, w.chain)
  {
    var steps :| Admissible(b, Init(), steps) && Run(b, Init(), steps) == w;
    InitIsSafe(b);
    EveryRunIsSafe(b, Init(), steps);
    EveryRunKeepsTable(b, Init(), steps);
  }

  /**
   * The status of an A+B withdrawal tells what the chain did with its one broadcast: EXECUTED only where that was mined
   * as a success, FAILED with a hash only where it was reverted, BROADCASTED where it was made, and no hash before.
   */
  lemma StatusTellsTheReceipt(b: Backend, w: World, i: nat)
    requires BackendOk(b) && Reachable(b, w) && IsAb(w.api.rows, i)
    ensures var r := w.api.rows[i];
            && (r.txHash.Some? ==> TheHashOf(b.codec, w.api.sent, i, r.txHash.value))
            && match r.status
               case PROCESSING => r.txHash.None?
               case EXPIRED => r.txHash.None?
               case BROADCASTED => r.txHash.Some?
               case EXECUTED => r.txHash.Some? && r.txHash.value in w.chain && w.chain[r.txHash.value]
               case FAILED => r.txHash.Some? ==> r.txHash.value in w.chain && !w.chain[r.txHash.value]
  {
    ReachableTable(b, w);
    assert ReceiptOk(w.api.rows[i], w.chain);
  }
}
