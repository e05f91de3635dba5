/**
 * Retirement safety: the RETIRED write leaves both sweeps settled, whatever runs beside it, and leaves nothing open
 * when the wallet's requests are served one at a time, or when none of them took a read of nothing for an answer.
 */
module Retirement {
  import opened Types
  import opened EthTransfer
  import opened Withdraws
  import opened AbSigning
  import opened AbInvariant
  import opened LastWithdraw
  import opened BcInvariant
  import opened LastWithdrawSteps
  import opened System
  import opened History
  import opened Readings

  // ---- Requests of one wallet served one at a time ----

  /** A request of the wallet arrives only while no other request of it is being served. */
  ghost predicate ServedAlone(w: World, s: Step, v: WalletId) {
    s.LastWithdrawArrives? && s.wallet == v ==> forall x :: x in w.requests ==> w.requests[x].wallet != v
  }

  /** An admissible run that serves this wallet so; requests of other wallets run as they like. */
  ghost predicate Serial(b: Backend, w: World, steps: seq<Step>, v: WalletId)
    decreases |steps|
  {
    steps == []
    || (Enabled(b, w, steps[0]) && ServedAlone(w, steps[0], v) && Serial(b, Next(b, w, steps[0]), steps[1..], v))
  }

  lemma {:induction false} SerialIsAdmissible(b: Backend, w: World, steps: seq<Step>, v: WalletId)
    requires Serial(b, w, steps, v)
    ensures Admissible(b, w, steps)
    decreases |steps|
  {
    if steps != [] {
      SerialIsAdmissible(b, Next(b, w, steps[0]), steps[1..], v);
    }
  }

  // ---- What a request served alone knows at each step ----

  ghost predicate NothingOpenBut(rows: seq<Row>, w: WalletId, only: Option<nat>) {
    forall i: nat :: EmergencyOf(rows, i, w) && IsOpen(rows[i].status) ==> only == Some(i)
  }

  ghost predicate OwnRow(rows: seq<Row>, w: WalletId, g: Leg, i: nat) {
    NothingOpenBut(rows, w, Some(i)) && FindLatestEmergencyBc(rows, w, AssetOf(g)) == Some(i)
  }

  ghost predicate Knows(rows: seq<Row>, r: Request) {
    match r.pc
    case AtToken => NothingOpenBut(rows, r.wallet, None)
    case AtCreate(_, _, _) => NothingOpenBut(rows, r.wallet, None)
    case AtSign(g, i, _) => OwnRow(rows, r.wallet, g, i)
    case AtBroadcast(g, i, _) => OwnRow(rows, r.wallet, g, i)
    case AtWait(g, i, _) => OwnRow(rows, r.wallet, g, i)
    case AtEth(_) => NothingOpenBut(rows, r.wallet, None)
    case AtSkip(_, _) => NothingOpenBut(rows, r.wallet, None)
    case AtRetire(_) => NothingOpenBut(rows, r.wallet, None) && LatestExecuted(rows, r.wallet, ETH)
    case _ => true
  }

  /** At most one request of the wallet is in flight, and it knows what it should. */
  ghost predicate SerialOk(w: World, v: WalletId) {
    && (forall x, y :: x in w.requests && y in w.requests && w.requests[x].wallet == v && w.requests[y].wallet == v ==> x == y)
    && (forall x :: x in w.requests && w.requests[x].wallet == v ==> Knows(w.api.rows, w.requests[x]))
  }

  // ---- Other steps do not disturb it ----

  ghost predicate SameEmergency(rows: seq<Row>, rows': seq<Row>, w: WalletId) {
    forall i: nat :: (EmergencyOf(rows', i, w) <==> EmergencyOf(rows, i, w)) && (EmergencyOf(rows, i, w) ==> rows'[i] == rows[i])
  }

  lemma SameLatest(rows: seq<Row>, rows': seq<Row>, w: WalletId, a: Asset)
    requires SameEmergency(rows, rows', w)
    ensures FindLatestEmergencyBc(rows', w, a) == FindLatestEmergencyBc(rows, w, a)
  {
  }

  /** Rows of the wallet are as they were, so what a request of it knows still holds. */
  lemma KnowsStays(rows: seq<Row>, rows': seq<Row>, r: Request)
    requires Knows(rows, r) && SameEmergency(rows, rows', r.wallet)
    ensures Knows(rows', r)
  {
    SameLatest(rows, rows', r.wallet, ETH);
    SameLatest(rows, rows', r.wallet, ERC20);
    assert forall i: nat :: EmergencyOf(rows', i, r.wallet) ==> EmergencyOf(rows, i, r.wallet);
    if r.pc.AtRetire? {
      var k := FindLatestEmergencyBc(rows, r.wallet, ETH).value;
      assert EmergencyOf(rows, k, r.wallet);
    }
  }

  /** Steps that touch no emergency row of the wallet and start no request of it. */
  lemma UntouchedKeepsSerial(w: World, w': World, v: WalletId)
    requires SerialOk(w, v) && SameEmergency(w.api.rows, w'.api.rows, v)
    requires forall x :: x in w'.requests && w'.requests[x].wallet == v ==> x in w.requests && w'.requests[x] == w.requests[x]
    ensures SerialOk(w', v)
  {
    forall x | x in w'.requests && w'.requests[x].wallet == v ensures Knows(w'.api.rows, w'.requests[x]) {
      KnowsStays(w.api.rows, w'.api.rows, w.requests[x]);
    }
  }

  // ---- The request's own steps ----

  /** Settlement closed everything of the wallet, and touched no other wallet. */
  lemma ClearLeavesNothingOpen(rows: seq<Row>, w: WalletId, l: Ledger, now: nat)
    requires SettleEmergency(rows, w, l, now).Clear?
    ensures NothingOpenBut(SettleEmergency(rows, w, l, now).rows, w, None)
  {
    SettlementSteps(rows, w, l, now);
  }

  lemma SettlementSparesOthers(rows: seq<Row>, w: WalletId, l: Ledger, now: nat, v: WalletId)
    requires !SettleEmergency(rows, w, l, now).Thrown? && v != w
    ensures SameEmergency(rows, SettleEmergency(rows, w, l, now).rows, v)
  {
    SettlementSteps(rows, w, l, now);
  }

  lemma AbSettlementSparesEmergency(rows: seq<Row>, w: WalletId, l: Ledger, v: WalletId)
    requires SettleNormalAb(rows, w, l).Ok?
    ensures SameEmergency(rows, SettleNormalAb(rows, w, l).value, v)
  {
  }

  lemma SameEmergencyTrans(a: seq<Row>, m: seq<Row>, c: seq<Row>, w: WalletId)
    requires SameEmergency(a, m, w) && SameEmergency(m, c, w)
    ensures SameEmergency(a, c, w)
  {
  }

  lemma AppendSparesOthers(rows: seq<Row>, row: Row, v: WalletId)
    requires row.wallet != v
    ensures SameEmergency(rows, rows + [row], v)
  {
  }

  lemma UpdateSparesOthers(rows: seq<Row>, i: nat, row: Row, v: WalletId)
    requires i < |rows| && rows[i].wallet != v && row.wallet != v
    ensures SameEmergency(rows, rows[i := row], v)
  {
  }

  lemma LockSparesOthers(w: World, id: RequestId, x: Input, v: WalletId)
    requires id in w.requests && v != w.requests[id].wallet
    ensures SameEmergency(w.api.rows, StepLock(w, id, x).api.rows, v)
  {
    LockShape(w, id, x);
    var wallet, l := w.requests[id].wallet, Ledger(w.chain, x.down);
    if StepLock(w, id, x) != End(w, id) {
      var rows := SettleNormalAb(w.api.rows, wallet, l).value;
      AbSettlementSparesEmergency(w.api.rows, wallet, l, v);
      SettlementSparesOthers(rows, wallet, l, w.now, v);
      SameEmergencyTrans(w.api.rows, rows, SettleEmergency(rows, wallet, l, w.now).rows, v);
    }
  }

  lemma CreateSparesOthers(w: World, id: RequestId, x: Input, v: WalletId)
    requires id in w.requests && w.requests[id].pc.AtCreate? && v != w.requests[id].wallet
    ensures SameEmergency(w.api.rows, StepCreate(w, id, x).api.rows, v)
  {
    CreateShape(w, id, x);
    if StepCreate(w, id, x) != End(w, id) {
      var r, l := w.requests[id], Ledger(w.chain, x.down);
      var rows := SettleEmergency(w.api.rows, r.wallet, l, w.now).rows;
      SettlementSparesOthers(w.api.rows, r.wallet, l, w.now, v);
      var row := NewBcRow(w.now, r, r.pc.leg, r.pc.amount);
      AppendSparesOthers(rows, row, v);
      SameEmergencyTrans(w.api.rows, rows, rows + [row], v);
    }
  }

  lemma RowStepSparesOthers(b: Backend, w: World, id: RequestId, x: Input, v: WalletId)
    requires id in w.requests && RequestOk(b.codec, w, w.requests[id]) && v != w.requests[id].wallet
    requires w.requests[id].pc.AtSign? || w.requests[id].pc.AtMarkFailed? || w.requests[id].pc.AtWait? || w.requests[id].pc.AtSkip?
    ensures SameEmergency(w.api.rows, Advance(b, w, id, x).api.rows, v)
  {
    var rows' := Advance(b, w, id, x).api.rows;
    if w.requests[id].pc.AtSkip? {
      AppendSparesOthers(w.api.rows, rows'[|w.api.rows|], v);
    } else {
      var i := w.requests[id].pc.row;
      UpdateSparesOthers(w.api.rows, i, rows'[i], v);
      assert rows' == w.api.rows || rows' == w.api.rows[i := rows'[i]];
    }
  }

  lemma AdvanceSparesOthers(b: Backend, w: World, id: RequestId, x: Input, v: WalletId)
    requires id in w.requests && RequestOk(b.codec, w, w.requests[id]) && v != w.requests[id].wallet
    ensures SameEmergency(w.api.rows, Advance(b, w, id, x).api.rows, v)
  {
    var pc := w.requests[id].pc;
    if pc.AtLock? {
      LockSparesOthers(w, id, x, v);
    } else if pc.AtCreate? {
      CreateSparesOthers(w, id, x, v);
    } else if pc.AtSign? || pc.AtMarkFailed? || pc.AtWait? || pc.AtSkip? {
      RowStepSparesOthers(b, w, id, x, v);
    } else {
      if pc.AtToken? {
        var _ := TokenShape(b, w, id, x);
      } else if pc.AtEth? {
        var _ := EthShape(w, id, x, pc.token);
      }
      assert Advance(b, w, id, x).api.rows == w.api.rows;
    }
  }

  // ---- What the request itself learns ----

  lemma LockLearns(w: World, id: RequestId, x: Input)
    requires id in w.requests && id in StepLock(w, id, x).requests
    ensures Knows(StepLock(w, id, x).api.rows, StepLock(w, id, x).requests[id])
  {
    LockShape(w, id, x);
    var wallet, l := w.requests[id].wallet, Ledger(w.chain, x.down);
    var rows := SettleNormalAb(w.api.rows, wallet, l).value;
    if SettleEmergency(rows, wallet, l, w.now).Clear? {
      ClearLeavesNothingOpen(rows, wallet, l, w.now);
    }
  }

  lemma NewRowIsLatest(rows: seq<Row>, row: Row, a: Asset)
    requires row.metadata.EmergencyBc? && row.metadata.asset == a
    ensures FindLatestEmergencyBc(rows + [row], row.wallet, a) == Some(|rows|)
  {
  }

  lemma OnlyTheNewRowIsOpen(rows: seq<Row>, row: Row, w: WalletId)
    requires NothingOpenBut(rows, w, None)
    ensures NothingOpenBut(rows + [row], w, Some(|rows|))
    ensures !IsOpen(row.status) ==> NothingOpenBut(rows + [row], w, None)
  {
    forall i: nat | i < |rows| && EmergencyOf(rows + [row], i, w) ensures !IsOpen((rows + [row])[i].status) {
      assert EmergencyOf(rows, i, w);
    }
  }

  /** A leg that ends EXECUTED in its latest row goes on to the next one knowing so. */
  lemma LegEnds(rows: seq<Row>, r: Request, g: Leg, k: nat)
    requires NothingOpenBut(rows, r.wallet, None)
    requires FindLatestEmergencyBc(rows, r.wallet, AssetOf(g)) == Some(k) && rows[k].status == EXECUTED
    ensures Knows(rows, r.(pc := After(g, rows[k].txHash)))
  {
  }

  lemma CreateLearns(w: World, id: RequestId, x: Input)
    requires id in w.requests && w.requests[id].pc.AtCreate? && id in StepCreate(w, id, x).requests
    ensures Knows(StepCreate(w, id, x).api.rows, StepCreate(w, id, x).requests[id])
  {
    CreateShape(w, id, x);
    var r, l := w.requests[id], Ledger(w.chain, x.down);
    ClearLeavesNothingOpen(w.api.rows, r.wallet, l, w.now);
    var rows := SettleEmergency(w.api.rows, r.wallet, l, w.now).rows;
    var latest := FindLatestEmergencyBc(rows, r.wallet, AssetOf(r.pc.leg));
    if latest.Some? && rows[latest.value].status == EXECUTED {
      LegEnds(rows, r, r.pc.leg, latest.value);
    } else {
      CreatedLearns(w, r, rows);
    }
  }

  lemma CreatedLearns(w: World, r: Request, rows: seq<Row>)
    requires r.pc.AtCreate? && NothingOpenBut(rows, r.wallet, None)
    ensures var row := NewBcRow(w.now, r, r.pc.leg, r.pc.amount);
            Knows(rows + [row], r.(pc := AtSign(r.pc.leg, |rows|, r.pc.tx)))
  {
    var row := NewBcRow(w.now, r, r.pc.leg, r.pc.amount);
    NewRowIsLatest(rows, row, AssetOf(r.pc.leg));
    OnlyTheNewRowIsOpen(rows, row, r.wallet);
  }

  lemma OwnRowUpdated(rows: seq<Row>, w: WalletId, g: Leg, i: nat, row: Row)
    requires OwnRow(rows, w, g, i) && BcOf(row, w, AssetOf(g))
    ensures OwnRow(rows[i := row], w, g, i)
    ensures !IsOpen(row.status) ==> NothingOpenBut(rows[i := row], w, None)
  {
  }

  lemma SignLearns(b: Backend, w: World, id: RequestId, x: Input)
    requires id in w.requests && w.requests[id].pc.AtSign? && Knows(w.api.rows, w.requests[id])
    requires id in StepSign(b, w, id, x).requests
    ensures Knows(StepSign(b, w, id, x).api.rows, StepSign(b, w, id, x).requests[id])
  {
    var r := w.requests[id];
    if x.signature.Some? {
      OwnRowUpdated(w.api.rows, r.wallet, r.pc.leg, r.pc.row, StepSign(b, w, id, x).api.rows[r.pc.row]);
    }
  }

  lemma WaitLearns(b: Backend, w: World, id: RequestId, x: Input)
    requires id in w.requests && w.requests[id].pc.AtWait? && x.ok && Knows(w.api.rows, w.requests[id])
    ensures Knows(Advance(b, w, id, x).api.rows, Advance(b, w, id, x).requests[id])
  {
    var r := w.requests[id];
    var i := r.pc.row;
    var rows' := w.api.rows[i := w.api.rows[i].(status := EXECUTED)];
    OwnRowUpdated(w.api.rows, r.wallet, r.pc.leg, i, rows'[i]);
    LegEnds(rows', r, r.pc.leg, i);
  }

  lemma SkipLearns(b: Backend, w: World, id: RequestId, x: Input)
    requires id in w.requests && w.requests[id].pc.AtSkip? && Knows(w.api.rows, w.requests[id])
    ensures Knows(Advance(b, w, id, x).api.rows, Advance(b, w, id, x).requests[id])
  {
    var r := w.requests[id];
    var row := SkippedRow(w, r, r.pc.why, r.pc.token);
    NewRowIsLatest(w.api.rows, row, ETH);
    OnlyTheNewRowIsOpen(w.api.rows, row, r.wallet);
  }

  lemma TokenStepLearns(b: Backend, w: World, id: RequestId, x: Input)
    requires id in w.requests && w.requests[id].pc.AtToken? && Knows(w.api.rows, w.requests[id])
    requires id in StepToken(b, w, id, x).requests
    ensures Knows(StepToken(b, w, id, x).api.rows, StepToken(b, w, id, x).requests[id])
  {
    var _ := TokenShape(b, w, id, x);
  }

  lemma EthStepLearns(w: World, id: RequestId, x: Input, token: Token)
    requires id in w.requests && w.requests[id].pc == AtEth(token) && Knows(w.api.rows, w.requests[id])
    requires id in StepEth(w, id, x, token).requests
    ensures Knows(StepEth(w, id, x, token).api.rows, StepEth(w, id, x, token).requests[id])
  {
    AfterEthKnows(w.api, w.requests[id], x.net, token);
  }

  lemma AfterEthKnows(a: Api, r: Request, net: Provider, token: Token)
    requires NothingOpenBut(a.rows, r.wallet, None) && AfterEth(a, r, net, token).Some?
    ensures Knows(a.rows, r.(pc := AfterEth(a, r, net, token).value))
  {
  }

  lemma OtherStepLearns(b: Backend, w: World, id: RequestId, x: Input)
    requires id in w.requests && id in Advance(b, w, id, x).requests && Knows(w.api.rows, w.requests[id])
    requires var pc := w.requests[id].pc;
             pc.AtRebroadcast? || pc.AtMarkFailed? || pc.AtBroadcast? || pc.AtRetire? || pc.AtRetireShare?
    ensures Knows(Advance(b, w, id, x).api.rows, Advance(b, w, id, x).requests[id])
  {
  }

  lemma AdvanceLearns(b: Backend, w: World, id: RequestId, x: Input)
    requires id in w.requests && id in Advance(b, w, id, x).requests && Knows(w.api.rows, w.requests[id])
    ensures Knows(Advance(b, w, id, x).api.rows, Advance(b, w, id, x).requests[id])
  {
    match w.requests[id].pc
    case AtLock => LockLearns(w, id, x);
    case AtToken => TokenStepLearns(b, w, id, x);
    case AtEth(token) => EthStepLearns(w, id, x, token);
    case AtCreate(_, _, _) => CreateLearns(w, id, x);
    case AtSign(_, _, _) => SignLearns(b, w, id, x);
    case AtWait(_, _, _) => WaitLearns(b, w, id, x);
    case AtSkip(_, _) => SkipLearns(b, w, id, x);
    case _ => OtherStepLearns(b, w, id, x);
  }

  // ---- Every run that serves the wallet so ----

  lemma AdvanceKeepsSerial(b: Backend, w: World, id: RequestId, x: Input, v: WalletId)
    requires SerialOk(w, v) && id in w.requests && RequestOk(b.codec, w, w.requests[id])
    ensures SerialOk(Advance(b, w, id, x), v)
  {
    var w' := Advance(b, w, id, x);
    AdvanceMoves(b, w, id, x);
    if w.requests[id].wallet == v {
      if id in w'.requests {
        AdvanceLearns(b, w, id, x);
      }
    } else {
      AdvanceSparesOthers(b, w, id, x, v);
      UntouchedKeepsSerial(w, w', v);
    }
  }

  lemma NothingAddedIsSame(rows: seq<Row>, rows': seq<Row>, v: WalletId)
    requires RowsLater(rows, rows') && forall i: nat :: IsBc(rows', i) ==> IsBc(rows, i) && rows'[i] == rows[i]
    ensures SameEmergency(rows, rows', v)
  {
  }

  lemma AbStepSparesEmergency(b: Backend, w: World, step: AbStep)
    requires ApiOk(b, w.api, w.now) && BackendOk(b) && AbEnabled(w.api, step)
    ensures var rows' := ApplyAb(b, w.api, w.now, Ledger(w.chain, step.down), step).rows;
            RowsLater(w.api.rows, rows') && forall i: nat :: IsBc(rows', i) ==> IsBc(w.api.rows, i) && rows'[i] == w.api.rows[i]
  {
    AbStepKeepsOk(b, w.api, w.now, Ledger(w.chain, step.down), step);
    AbFrameSparesEmergency(w.api, ApplyAb(b, w.api, w.now, Ledger(w.chain, step.down), step));
  }

  lemma AbFrameSparesEmergency(a: Api, a': Api)
    requires AbFrame(a, a')
    ensures RowsLater(a.rows, a'.rows)
    ensures forall i: nat :: IsBc(a'.rows, i) ==> IsBc(a.rows, i) && a'.rows[i] == a.rows[i]
  {
  }

  lemma AbKeepsSerial(b: Backend, w: World, step: AbStep, v: WalletId)
    requires ApiOk(b, w.api, w.now) && SerialOk(w, v) && BackendOk(b) && AbEnabled(w.api, step)
    ensures SerialOk(Next(b, w, Ab(step)), v)
  {
    AbHandlerKeepsSerial(b, w, step, v);
    ForgetKeepsSerial(w.(api := ApplyAb(b, w.api, w.now, Ledger(w.chain, step.down), step)), v);
  }

  lemma AbHandlerKeepsSerial(b: Backend, w: World, step: AbStep, v: WalletId)
    requires ApiOk(b, w.api, w.now) && SerialOk(w, v) && BackendOk(b) && AbEnabled(w.api, step)
    ensures SerialOk(w.(api := ApplyAb(b, w.api, w.now, Ledger(w.chain, step.down), step)), v)
  {
    var a := ApplyAb(b, w.api, w.now, Ledger(w.chain, step.down), step);
    AbStepSparesEmergency(b, w, step);
    NothingAddedIsSame(w.api.rows, a.rows, v);
    UntouchedKeepsSerial(w, w.(api := a), v);
  }

  lemma ForgetKeepsSerial(w: World, v: WalletId)
    requires SerialOk(w, v)
    ensures SerialOk(w.(requests := map[], finalizing := map[]), v)
  {
  }

  lemma EmergencyStartKeepsSerial(w: World, l: Ledger, user: UserId, wallet: WalletId, otp: Option<ErrorCode>, v: WalletId)
    requires SerialOk(w, v)
    ensures SerialOk(w.(api := StartEmergencyRecovery(w.api, l, user, wallet, otp).0), v)
  {
    EmergencyStartShape(w.api, l, user, wallet, otp);
    var w' := w.(api := StartEmergencyRecovery(w.api, l, user, wallet, otp).0);
    if w'.api != w.api {
      AbSettlementSparesEmergency(w.api.rows, wallet, l, v);
      UntouchedKeepsSerial(w, w', v);
    }
  }

  lemma ArriveKeepsSerial(
    b: Backend, w: World, id: RequestId, user: UserId, wallet: WalletId, to: string, otp: Option<ErrorCode>, net: Provider,
    v: WalletId)
    requires SerialOk(w, v) && id !in w.requests
    requires wallet == v ==> forall x :: x in w.requests ==> w.requests[x].wallet != v
    ensures SerialOk(Arrive(b, w, id, user, wallet, to, otp, net).0, v)
  {
    var _ := ArriveShape(b, w, id, user, wallet, to, otp, net);
  }

  /** Steps that leave the tables' rows alone. */
  lemma RowlessKeepsSerial(b: Backend, w: World, s: Step, v: WalletId)
    requires SerialOk(w, v)
    requires s.Tick? || s.Mine? || s.EmergencyCancel? || s.LastWithdrawDies? || s.DkgFinalize? || s.DkgCreate? || s.DkgDies?
    ensures SerialOk(Next(b, w, s), v)
  {
  }

  lemma StepKeepsSerial(b: Backend, w: World, s: Step, v: WalletId)
    requires SystemOk(b, w) && SerialOk(w, v) && BackendOk(b) && Enabled(b, w, s) && ServedAlone(w, s, v)
    ensures SerialOk(Next(b, w, s), v)
  {
    match s
    case Ab(step) => AbKeepsSerial(b, w, step, v);
    case EmergencyStart(down, user, wallet, otp) => EmergencyStartKeepsSerial(w, Ledger(w.chain, down), user, wallet, otp, v);
    case LastWithdrawArrives(id, user, wallet, to, otp, net) => ArriveKeepsSerial(b, w, id, user, wallet, to, otp, net, v);
    case LastWithdrawRuns(id, x) =>
      if id in w.requests {
        AdvanceKeepsSerial(b, w, id, x, v);
      }
    case _ => RowlessKeepsSerial(b, w, s, v);
  }

  lemma {:induction false} SerialRunKeepsSerial(b: Backend, w: World, steps: seq<Step>, v: WalletId)
    requires BackendOk(b) && Safe(b, w) && SerialOk(w, v) && Serial(b, w, steps, v)
    ensures SerialOk(Run(b, w, steps), v)
    decreases |steps|
  {
    if steps != [] {
      StepKeepsSafe(b, w, steps[0]);
      StepKeepsSerial(b, w, steps[0], v);
      SerialRunKeepsSerial(b, Next(b, w, steps[0]), steps[1..], v);
    }
  }

  // ---- Settled sweeps ----

  /** A token row of the wallet is EXECUTED under this hash, and the chain has mined its raw as a success. */
  ghost predicate ConfirmedSweep(b: Backend, w: World, wallet: WalletId, hash: Option<TxHash>) {
    exists i: nat ::
      && SweptAt(w.api.rows, i, wallet, ERC20) && w.api.rows[i].txHash == hash
      && w.api.rows[i].metadata.signedRaw.Some? && MinedAs(b.codec, w.chain, w.api.rows[i].metadata.signedRaw.value, true)
  }

  /** No token is configured, a token sweep was confirmed, or this very request read a balance of zero in its token step. */
  ghost predicate TokenSettled(b: Backend, steps: seq<Step>, w: World, wallet: WalletId, id: RequestId) {
    || b.token.None?
    || (exists hash :: ConfirmedSweep(b, w, wallet, hash))
    || ReadNoTokens(b, steps, id, wallet)
  }

  /**
   * Row `i` is an EXECUTED ETH row of the wallet: mined as a success, skipped because a request of the wallet read a
   * zero balance, or skipped because one read no more than the fee behind a token sweep that was confirmed.
   */
  ghost predicate EthSettledBy(b: Backend, steps: seq<Step>, w: World, wallet: WalletId, i: nat) {
    && SweptAt(w.api.rows, i, wallet, ETH)
    && var m := w.api.rows[i].metadata;
       match m.skipped
       case None => m.signedRaw.Some? && MinedAs(b.codec, w.chain, m.signedRaw.value, true)
       case Some(ZERO_BALANCE) => ReadNoEther(b, steps, wallet, ZERO_BALANCE)
       case Some(ETH_DUST) => ReadNoEther(b, steps, wallet, ETH_DUST) && ConfirmedSweep(b, w, wallet, m.tokenTxHash)
  }

  lemma SweptIsConfirmed(b: Backend, w: World, wallet: WalletId, hash: Option<TxHash>)
    requires BcRowsOk(b.codec, w.api.rows, w.chain) && TokenSwept(w.api.rows, wallet, hash)
    ensures ConfirmedSweep(b, w, wallet, hash)
  {
    var i: nat :| SweptAt(w.api.rows, i, wallet, ERC20) && w.api.rows[i].txHash == hash;
    assert BcRowOk(b.codec, w.api.rows[i], w.chain);
  }

  lemma ExecutedIsSettled(b: Backend, steps: seq<Step>, w: World, wallet: WalletId, i: nat)
    requires BcRowsOk(b.codec, w.api.rows, w.chain) && Known(b, steps, w) && SweptAt(w.api.rows, i, wallet, ETH)
    ensures EthSettledBy(b, steps, w, wallet, i)
  {
    assert BcRowOk(b.codec, w.api.rows[i], w.chain) && RowKnown(b, steps, w.api.rows, w.api.rows[i]);
    if w.api.rows[i].metadata.skipped == Some(ETH_DUST) {
      SweptIsConfirmed(b, w, wallet, w.api.rows[i].metadata.tokenTxHash);
    }
  }

  lemma KnownIsSettled(b: Backend, steps: seq<Step>, w: World, id: RequestId)
    requires BcRowsOk(b.codec, w.api.rows, w.chain) && Known(b, steps, w) && id in w.requests && w.requests[id].pc.AtRetire?
    ensures TokenSettled(b, steps, w, w.requests[id].wallet, id)
    ensures exists i: nat :: EthSettledBy(b, steps, w, w.requests[id].wallet, i)
  {
    var r := w.requests[id];
    assert RequestKnown(b, steps, w.api.rows, id, r);
    if r.pc.token.Swept? {
      SweptIsConfirmed(b, w, r.wallet, r.pc.token.hash);
    }
    var i: nat :| SweptAt(w.api.rows, i, r.wallet, ETH);
    ExecutedIsSettled(b, steps, w, r.wallet, i);
  }

  // ---- Who retires ----

  lemma AbSparesWallets(b: Backend, w: World, step: AbStep)
    requires ApiOk(b, w.api, w.now) && BackendOk(b) && AbEnabled(w.api, step)
    ensures ApplyAb(b, w.api, w.now, Ledger(w.chain, step.down), step).wallets == w.api.wallets
  {
    AbStepKeepsOk(b, w.api, w.now, Ledger(w.chain, step.down), step);
  }

  lemma AbRetiresNobody(b: Backend, w: World, step: AbStep)
    requires ApiOk(b, w.api, w.now) && BackendOk(b) && AbEnabled(w.api, step)
    ensures Next(b, w, Ab(step)).api.wallets == w.api.wallets
  {
    AbSparesWallets(b, w, step);
  }

  lemma OthersRetireNobody(b: Backend, w: World, s: Step, wallet: WalletId)
    requires !s.Ab? && !(s.LastWithdrawRuns? && s.id in w.requests)
    requires wallet in w.api.wallets && w.api.wallets[wallet].status != RETIRED
    ensures wallet in Next(b, w, s).api.wallets && Next(b, w, s).api.wallets[wallet].status != RETIRED
  {
  }

  /** RETIRED is written by one kind of step only: the retire write of a last-withdraw request of that wallet. */
  lemma OnlyTheRetireStepRetires(b: Backend, w: World, s: Step, wallet: WalletId)
    requires Safe(b, w) && BackendOk(b) && Enabled(b, w, s) && wallet in w.api.wallets
    requires w.api.wallets[wallet].status != RETIRED
    requires wallet in Next(b, w, s).api.wallets && Next(b, w, s).api.wallets[wallet].status == RETIRED
    ensures s.LastWithdrawRuns? && s.id in w.requests && w.requests[s.id].pc.AtRetire? && w.requests[s.id].wallet == wallet
  {
    if s.Ab? {
      AbRetiresNobody(b, w, s.step);
    } else if s.LastWithdrawRuns? && s.id in w.requests {
      OnlyRetirePcRetires(b, w, s.id, s.input, wallet);
    } else {
      OthersRetireNobody(b, w, s, wallet);
    }
  }

  lemma LockRetiresNobody(w: World, id: RequestId, x: Input, wallet: WalletId)
    requires id in w.requests && wallet in w.api.wallets && w.api.wallets[wallet].status != RETIRED
    ensures var wallets' := StepLock(w, id, x).api.wallets; wallet in wallets' && wallets'[wallet].status != RETIRED
  {
    LockShape(w, id, x);
  }

  lemma OnlyRetirePcRetires(b: Backend, w: World, id: RequestId, x: Input, wallet: WalletId)
    requires id in w.requests && wallet in w.api.wallets && w.api.wallets[wallet].status != RETIRED
    requires wallet in Advance(b, w, id, x).api.wallets && Advance(b, w, id, x).api.wallets[wallet].status == RETIRED
    ensures w.requests[id].pc.AtRetire? && w.requests[id].wallet == wallet
  {
    if w.requests[id].pc.AtLock? {
      LockRetiresNobody(w, id, x, wallet);
    } else if !ChangesWallets(w.requests[id].pc) {
      OtherWallets(b, w, id, x);
    }
  }

  // ---- The retirement theorems ----

  /** Step `s`, taken after `steps`, makes the wallet RETIRED. */
  ghost predicate Retires(b: Backend, steps: seq<Step>, s: Step, wallet: WalletId) {
    var w := Run(b, Init(), steps);
    && Enabled(b, w, s)
    && wallet in w.api.wallets && w.api.wallets[wallet].status != RETIRED
    && wallet in Next(b, w, s).api.wallets && Next(b, w, s).api.wallets[wallet].status == RETIRED
  }

  ghost predicate NothingOpen(rows: seq<Row>, wallet: WalletId) {
    forall i :: 0 <= i < |rows| ==> !OpenBc(rows[i], wallet) && !OpenAb(rows[i], wallet)
  }

  /**
   * Whatever runs beside it and wherever requests crash, the RETIRED write is the retire step of a request of the
   * wallet that has both sweeps settled; Share B goes with that write.
   */
  lemma RetirementIsSettled(b: Backend, steps: seq<Step>, s: Step, wallet: WalletId)
    requires BackendOk(b) && Admissible(b, Init(), steps) && Retires(b, steps, s, wallet)
    ensures var w, w' := Run(b, Init(), steps), Next(b, Run(b, Init(), steps), s);
            && s.LastWithdrawRuns? && s.id in w.requests && w.requests[s.id].wallet == wallet && w.requests[s.id].pc.AtRetire?
            && TokenSettled(b, steps, w, wallet, s.id)
            && (exists i: nat :: EthSettledBy(b, steps, w, wallet, i))
            && w'.api.wallets[wallet].shareB.None? && w'.api.rows == w.api.rows
  {
    var w := Run(b, Init(), steps);
    EveryRunIsKnown(b, steps);
    OnlyTheRetireStepRetires(b, w, s, wallet);
    KnownIsSettled(b, steps, w, s.id);
  }

  /**
   * Retirement safety. In a run that serves this wallet's requests one at a time, and crashes them anywhere, the
   * RETIRED write happens only when no withdrawal of the wallet is open on either path, with the latest ETH row settled.
   */
  lemma RetirementIsSafe(b: Backend, steps: seq<Step>, s: Step, wallet: WalletId)
    requires BackendOk(b) && Serial(b, Init(), steps, wallet) && Retires(b, steps, s, wallet)
    ensures var w := Run(b, Init(), steps);
            && NothingOpen(w.api.rows, wallet)
            && s.LastWithdrawRuns? && TokenSettled(b, steps, w, wallet, s.id)
            && Next(b, w, s).api.wallets[wallet].shareB.None? && Next(b, w, s).api.rows == w.api.rows
            && var latest := FindLatestEmergencyBc(w.api.rows, wallet, ETH);
               latest.Some? && EthSettledBy(b, steps, w, wallet, latest.value)
  {
    var w := Run(b, Init(), steps);
    SerialIsAdmissible(b, Init(), steps, wallet);
    RetirementIsSettled(b, steps, s, wallet);
    EveryRunIsKnown(b, steps);
    InitIsSafe(b);
    SerialRunKeepsSerial(b, Init(), steps, wallet);
    assert Knows(w.api.rows, w.requests[s.id]);
    assert RequestOk(b.codec, w, w.requests[s.id]);
    RetiringWalletIsQuiet(b, w, wallet);
    var k := FindLatestEmergencyBc(w.api.rows, wallet, ETH).value;
    assert SweptAt(w.api.rows, k, wallet, ETH);
    ExecutedIsSettled(b, steps, w, wallet, k);
  }

  lemma RetiringWalletIsQuiet(b: Backend, w: World, wallet: WalletId)
    requires ApiOk(b, w.api, w.now) && Leaving(w.api.wallets, wallet) && NothingOpenBut(w.api.rows, wallet, None)
    ensures NothingOpen(w.api.rows, wallet)
  {
    assert OpenOk(w.api.wallets, w.api.rows);
    forall i: nat | i < |w.api.rows| ensures !OpenBc(w.api.rows[i], wallet) {
      assert OpenBc(w.api.rows[i], wallet) ==> EmergencyOf(w.api.rows, i, wallet);
    }
  }

  /** An ETH row of the wallet that was signed for and is EXECUTED. */
  ghost predicate EtherSent(rows: seq<Row>, wallet: WalletId) {
    exists i: nat :: SweptAt(rows, i, wallet, ETH) && rows[i].metadata.skipped.None?
  }

  /** The wallet has no token row, or one that is EXECUTED. */
  ghost predicate TokensSent(rows: seq<Row>, wallet: WalletId) {
    || (exists i: nat :: SweptAt(rows, i, wallet, ERC20))
    || (forall i: nat :: EmergencyOf(rows, i, wallet) ==> rows[i].metadata.asset != ERC20)
  }

  /** In every state of every run: once the ETH was sent and so were any tokens, no emergency row of the wallet is open. */
  lemma SentWalletHasNothingOpen(c: Codec, rows: seq<Row>, chain: map<TxHash, bool>, wallet: WalletId)
    requires BcRowsOk(c, rows, chain) && EtherSent(rows, wallet) && TokensSent(rows, wallet)
    ensures NothingOpenBut(rows, wallet, None)
  {
    var e: nat :| SweptAt(rows, e, wallet, ETH) && rows[e].metadata.skipped.None?;
    forall k: nat | EmergencyOf(rows, k, wallet) ensures !IsOpen(rows[k].status) {
      assert BcRowOk(c, rows[k], chain);
      assert if k < e then Supersedes(rows[k], rows[e]) else k > e ==> Supersedes(rows[e], rows[k]);
      if rows[k].metadata.asset == ERC20 {
        var t: nat :| SweptAt(rows, t, wallet, ERC20);
        assert BcRowOk(c, rows[t], chain);
        assert if k < t then Supersedes(rows[k], rows[t]) else k > t ==> Supersedes(rows[t], rows[k]);
      }
    }
  }

  /** No request of the wallet took a balance of nothing, or of dust, for its ETH step. */
  ghost predicate NoEmptyRead(b: Backend, steps: seq<Step>, wallet: WalletId) {
    forall why :: !ReadNoEther(b, steps, wallet, why)
  }

  /**
   * Beside any other requests: retirement is safe whenever the request that retires did not read a zero token balance
   * and no ETH step of the wallet read an empty one. Those reads are the branches that go on without a row.
   */
  lemma RetirementBesideOthersIsSafe(b: Backend, steps: seq<Step>, s: Step, wallet: WalletId)
    requires BackendOk(b) && Admissible(b, Init(), steps) && Retires(b, steps, s, wallet) && s.LastWithdrawRuns?
    requires !ReadNoTokens(b, steps, s.id, wallet) && NoEmptyRead(b, steps, wallet)
    ensures NothingOpen(Run(b, Init(), steps).api.rows, wallet)
  {
    var w := Run(b, Init(), steps);
    RetirementIsSettled(b, steps, s, wallet);
    EveryRunIsKnown(b, steps);
    RetiringRequestSentAll(b, steps, w, s.id);
    SentWalletHasNothingOpen(b.codec, w.api.rows, w.chain, wallet);
    assert RequestOk(b.codec, w, w.requests[s.id]);
    RetiringWalletIsQuiet(b, w, wallet);
  }

  lemma RetiringRequestSentAll(b: Backend, steps: seq<Step>, w: World, id: RequestId)
    requires Known(b, steps, w) && id in w.requests && w.requests[id].pc.AtRetire?
    requires !ReadNoTokens(b, steps, id, w.requests[id].wallet) && NoEmptyRead(b, steps, w.requests[id].wallet)
    ensures EtherSent(w.api.rows, w.requests[id].wallet) && TokensSent(w.api.rows, w.requests[id].wallet)
  {
    var r, rows := w.requests[id], w.api.rows;
    assert RequestKnown(b, steps, rows, id, r);
    var i: nat :| SweptAt(rows, i, r.wallet, ETH);
    assert RowKnown(b, steps, rows, rows[i]);
    if r.pc.token.Unconfigured? {
      forall j: nat | EmergencyOf(rows, j, r.wallet) ensures rows[j].metadata.asset != ERC20 {
        assert RowKnown(b, steps, rows, rows[j]);
      }
    }
  }
}
