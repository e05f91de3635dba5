/** What a run never undoes: rows keep their identity, broadcasts and receipts stay, a retired wallet stays retired. */
module History {
  import opened Types
  import opened EthTransfer
  import opened Withdraws
  import opened AbSigning
  import opened AbInvariant
  import opened LastWithdraw
  import opened BcInvariant
  import opened LastWithdrawSteps
  import opened Shares
  import opened System

  /** The same row later: same request, same raw once it has one, never reopened, and final once it is closed. */
  predicate RowLater(r: Row, r': Row) {
    && r' == r.(status := r'.status, txHash := r'.txHash, metadata := r'.metadata)
    && (IsOpen(r'.status) ==> IsOpen(r.status))
    && (r.txHash.Some? ==> r'.txHash == r.txHash)
    && if r.metadata.NormalAb? then r'.metadata == r.metadata
       else
         && r'.metadata.EmergencyBc?
         && r'.metadata == r.metadata.(signedRaw := r'.metadata.signedRaw)
         && (r.metadata.signedRaw.Some? ==> r'.metadata == r.metadata)
         && (!IsOpen(r.status) ==> r' == r)
  }

  ghost predicate RowsLater(rows: seq<Row>, rows': seq<Row>) {
    |rows| <= |rows'| && forall i :: 0 <= i < |rows| ==> RowLater(rows[i], rows'[i])
  }

  ghost predicate WalletsLater(wallets: map<WalletId, Wallet>, wallets': map<WalletId, Wallet>) {
    forall id :: id in wallets ==>
                   && id in wallets'
                   && wallets'[id].user == wallets[id].user
                   && wallets'[id].address == wallets[id].address
                   && wallets'[id].publicKey == wallets[id].publicKey
                   && (wallets[id].status == RETIRED ==> wallets'[id] == wallets[id])
                   && (wallets[id].status == RETIRING ==> wallets'[id].status in {RETIRING, RETIRED})
  }

  /** `w'` is a later state of the same run. */
  ghost predicate Later(w: World, w': World) {
    && ChainGrows(w.chain, w'.chain)
    && RowsLater(w.api.rows, w'.api.rows)
    && WalletsLater(w.api.wallets, w'.api.wallets)
    && w.api.sent <= w'.api.sent
    && w.submitted <= w'.submitted
  }

  lemma RowsLaterTrans(a: seq<Row>, b: seq<Row>, c: seq<Row>)
    requires RowsLater(a, b) && RowsLater(b, c)
    ensures RowsLater(a, c)
  {
  }

  lemma LaterTrans(a: World, m: World, c: World)
    requires Later(a, m) && Later(m, c)
    ensures Later(a, c)
  {
  }

  lemma AbFrameIsLater(a: Api, a': Api)
    requires AbFrame(a, a')
    ensures RowsLater(a.rows, a'.rows) && WalletsLater(a.wallets, a'.wallets) && a.sent <= a'.sent
  {
  }

  // ---- One step of a request ----

  lemma SettledRowsLater(rows: seq<Row>, w: WalletId, l: Ledger, now: nat)
    requires !SettleEmergency(rows, w, l, now).Thrown?
    ensures RowsLater(rows, SettleEmergency(rows, w, l, now).rows)
  {
    SettlementSteps(rows, w, l, now);
  }

  lemma SettledAbLater(rows: seq<Row>, w: WalletId, l: Ledger)
    requires SettleNormalAb(rows, w, l).Ok?
    ensures RowsLater(rows, SettleNormalAb(rows, w, l).value)
  {
  }

  lemma LockLater(w: World, id: RequestId, x: Input)
    requires id in w.requests
    ensures Later(w, StepLock(w, id, x))
  {
    LockShape(w, id, x);
    var wallet, l := w.requests[id].wallet, Ledger(w.chain, x.down);
    if StepLock(w, id, x) != End(w, id) {
      SettledAbLater(w.api.rows, wallet, l);
      var rows := SettleNormalAb(w.api.rows, wallet, l).value;
      SettledRowsLater(rows, wallet, l, w.now);
      RowsLaterTrans(w.api.rows, rows, SettleEmergency(rows, wallet, l, w.now).rows);
    }
  }

  lemma CreateLater(w: World, id: RequestId, x: Input)
    requires id in w.requests && w.requests[id].pc.AtCreate?
    ensures Later(w, StepCreate(w, id, x))
  {
    CreateShape(w, id, x);
    if StepCreate(w, id, x) != End(w, id) {
      var wallet, l := w.requests[id].wallet, Ledger(w.chain, x.down);
      SettledRowsLater(w.api.rows, wallet, l, w.now);
      var rows := SettleEmergency(w.api.rows, wallet, l, w.now).rows;
      assert forall row :: RowsLater(rows, rows + [row]);
      RowsLaterTrans(w.api.rows, rows, StepCreate(w, id, x).api.rows);
    }
  }

  lemma SignLater(b: Backend, w: World, id: RequestId, x: Input)
    requires id in w.requests && w.requests[id].pc.AtSign? && Honest(b, w, id, x)
    requires Claimed(w.api.rows, w.requests[id].pc.row, w.requests[id].wallet, w.now)
    requires BcRowOk(b.codec, w.api.rows[w.requests[id].pc.row], w.chain)
    ensures Later(w, StepSign(b, w, id, x))
  {
  }

  lemma StatusLater(w: World, w': World, i: nat, status: WithdrawStatus)
    requires i < |w.api.rows| && w' == w.(api := w.api.(rows := SetStatus(w.api.rows, i, status)), requests := w'.requests)
    requires !IsOpen(status) && (w.api.rows[i].metadata.EmergencyBc? && !IsOpen(w.api.rows[i].status) ==> w.api.rows[i].status == status)
    ensures Later(w, w')
  {
  }

  lemma SameRowsLater(w: World, w': World)
    requires w'.api.rows == w.api.rows && w'.api.sent == w.api.sent && w'.chain == w.chain && w.submitted <= w'.submitted
    requires WalletsLater(w.api.wallets, w'.api.wallets)
    ensures Later(w, w')
  {
  }

  lemma QuietLater(b: Backend, w: World, id: RequestId, x: Input)
    requires id in w.requests
    requires w.requests[id].pc.AtToken? || w.requests[id].pc.AtEth? || w.requests[id].pc.AtRebroadcast?
             || w.requests[id].pc.AtBroadcast? || w.requests[id].pc.AtRetireShare?
    ensures Later(w, Advance(b, w, id, x))
  {
    if w.requests[id].pc.AtToken? {
      var _ := TokenShape(b, w, id, x);
    } else if w.requests[id].pc.AtEth? {
      var _ := EthShape(w, id, x, w.requests[id].pc.token);
    }
    SameRowsLater(w, Advance(b, w, id, x));
  }

  lemma RetireLater(b: Backend, w: World, id: RequestId, x: Input)
    requires WalletsOk(w.api.wallets, w.api.rows) && id in w.requests && w.requests[id].pc.AtRetire?
    ensures Later(w, Advance(b, w, id, x))
  {
    SameRowsLater(w, Advance(b, w, id, x));
  }

  lemma RowStepLater(b: Backend, w: World, id: RequestId, x: Input)
    requires id in w.requests && Honest(b, w, id, x)
    requires RequestOk(b.codec, w, w.requests[id]) && BcRowsOk(b.codec, w.api.rows, w.chain)
    requires w.requests[id].pc.AtSign? || w.requests[id].pc.AtMarkFailed? || w.requests[id].pc.AtWait?
    ensures Later(w, Advance(b, w, id, x))
  {
    var i := w.requests[id].pc.row;
    assert IsBc(w.api.rows, i) && BcRowOk(b.codec, w.api.rows[i], w.chain);
    if w.requests[id].pc.AtSign? {
      SignLater(b, w, id, x);
    } else if w.requests[id].pc.AtMarkFailed? {
      StatusLater(w, Advance(b, w, id, x), i, FAILED);
    } else if x.ok {
      StatusLater(w, Advance(b, w, id, x), i, EXECUTED);
    }
  }

  lemma SkipLater(b: Backend, w: World, id: RequestId, x: Input)
    requires id in w.requests && w.requests[id].pc.AtSkip?
    ensures Later(w, Advance(b, w, id, x))
  {
  }

  lemma AdvanceLater(b: Backend, w: World, id: RequestId, x: Input)
    requires SystemOk(b, w) && id in w.requests && Honest(b, w, id, x)
    ensures Later(w, Advance(b, w, id, x))
  {
    assert RequestOk(b.codec, w, w.requests[id]);
    StepOfRequestLater(b, w, id, x);
  }

  lemma StepOfRequestLater(b: Backend, w: World, id: RequestId, x: Input)
    requires id in w.requests && Honest(b, w, id, x)
    requires RequestOk(b.codec, w, w.requests[id]) && BcRowsOk(b.codec, w.api.rows, w.chain)
    requires WalletsOk(w.api.wallets, w.api.rows)
    ensures Later(w, Advance(b, w, id, x))
  {
    var pc := w.requests[id].pc;
    if pc.AtLock? {
      LockLater(w, id, x);
    } else if pc.AtCreate? {
      CreateLater(w, id, x);
    } else if pc.AtSign? || pc.AtMarkFailed? || pc.AtWait? {
      RowStepLater(b, w, id, x);
    } else if pc.AtSkip? {
      SkipLater(b, w, id, x);
    } else if pc.AtRetire? {
      RetireLater(b, w, id, x);
    } else {
      QuietLater(b, w, id, x);
    }
  }

  // ---- Any step, any run ----

  lemma AbHandlerLater(b: Backend, w: World, step: AbStep)
    requires ApiOk(b, w.api, w.now) && BackendOk(b) && AbEnabled(w.api, step)
    ensures Later(w, w.(api := ApplyAb(b, w.api, w.now, Ledger(w.chain, step.down), step)))
  {
    AbStepKeepsOk(b, w.api, w.now, Ledger(w.chain, step.down), step);
    AbFrameIsLater(w.api, ApplyAb(b, w.api, w.now, Ledger(w.chain, step.down), step));
  }

  lemma AbStepLater(b: Backend, w: World, step: AbStep)
    requires ApiOk(b, w.api, w.now) && BackendOk(b) && AbEnabled(w.api, step)
    ensures Later(w, Next(b, w, Ab(step)))
  {
    var a := ApplyAb(b, w.api, w.now, Ledger(w.chain, step.down), step);
    AbHandlerLater(b, w, step);
    SameTablesLater(w.(api := a), Next(b, w, Ab(step)));
    LaterTrans(w, w.(api := a), Next(b, w, Ab(step)));
  }

  lemma EmergencyStartLater(b: Backend, w: World, l: Ledger, user: UserId, wallet: WalletId, otp: Option<ErrorCode>)
    ensures Later(w, w.(api := StartEmergencyRecovery(w.api, l, user, wallet, otp).0))
  {
    EmergencyStartShape(w.api, l, user, wallet, otp);
    if StartEmergencyRecovery(w.api, l, user, wallet, otp).0 != w.api {
      SettledAbLater(w.api.rows, wallet, l);
    }
  }

  lemma EmergencyCancelLater(b: Backend, w: World, user: UserId, wallet: WalletId)
    ensures Later(w, w.(api := CancelEmergencyRecovery(w.api, user, wallet).0))
  {
    EmergencyCancelShape(w, user, wallet);
    SameRowsLater(w, w.(api := CancelEmergencyRecovery(w.api, user, wallet).0));
  }

  lemma ArriveLater(
    b: Backend, w: World, id: RequestId, user: UserId, wallet: WalletId, to: string, otp: Option<ErrorCode>, net: Provider)
    ensures Later(w, Arrive(b, w, id, user, wallet, to, otp, net).0)
  {
    var _ := ArriveShape(b, w, id, user, wallet, to, otp, net);
  }

  lemma CreateWalletLater(w: World, id: WalletId)
    ensures Later(w, CreateWallet(w, id))
  {
  }

  lemma MineLater(w: World, h: TxHash, ok: bool)
    requires h !in w.chain
    ensures Later(w, w.(chain := w.chain[h := ok]))
  {
  }

  lemma SameTablesLater(w: World, w': World)
    requires w'.api == w.api && w'.chain == w.chain && w'.submitted == w.submitted
    ensures Later(w, w')
  {
  }

  lemma OtherStepLater(b: Backend, w: World, s: Step)
    requires Enabled(b, w, s)
    requires s.Tick? || s.Mine? || s.LastWithdrawDies? || s.DkgFinalize? || s.DkgCreate? || s.DkgDies?
    ensures Later(w, Next(b, w, s))
  {
    if s.DkgCreate? {
      CreateWalletLater(w, s.wallet);
    } else if s.Mine? {
      MineLater(w, s.hash, s.success);
    } else {
      SameTablesLater(w, Next(b, w, s));
    }
  }

  lemma StepLater(b: Backend, w: World, s: Step)
    requires Safe(b, w) && Enabled(b, w, s) && BackendOk(b)
    ensures Later(w, Next(b, w, s))
  {
    match s
    case Ab(step) => AbStepLater(b, w, step);
    case EmergencyStart(down, user, wallet, otp) => EmergencyStartLater(b, w, Ledger(w.chain, down), user, wallet, otp);
    case EmergencyCancel(user, wallet) => EmergencyCancelLater(b, w, user, wallet);
    case LastWithdrawArrives(id, user, wallet, to, otp, net) =>
      ArriveLater(b, w, id, user, wallet, to, otp, net);
    case LastWithdrawRuns(id, x) =>
      if id in w.requests {
        AdvanceLater(b, w, id, x);
      }
    case _ => OtherStepLater(b, w, s);
  }

  lemma {:induction false} RunLater(b: Backend, w: World, steps: seq<Step>)
    requires BackendOk(b) && Safe(b, w) && Admissible(b, w, steps)
    ensures Later(w, Run(b, w, steps))
    decreases |steps|
  {
    if steps != [] {
      var w1 := Next(b, w, steps[0]);
      StepKeepsSafe(b, w, steps[0]);
      StepLater(b, w, steps[0]);
      RunLater(b, w1, steps[1..]);
      LaterTrans(w, w1, Run(b, w1, steps[1..]));
    }
  }
}
