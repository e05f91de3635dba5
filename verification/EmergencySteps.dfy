/**
 * What each step of the emergency path must do, in every reachable state: when a start, a cancel and a sweep request
 * are accepted, where a request goes from each of its steps, and what it writes on the way.
 */
module EmergencySteps {
  import opened Types
  import opened EthTransfer
  import opened Withdraws
  import opened AbSigning
  import opened AbInvariant
  import opened LastWithdraw
  import opened BcInvariant
  import opened LastWithdrawSteps
  import opened Shares
  import opened System
  import opened History
  import opened Guarantees

  // ---- Start and cancel ----

  /** On a table with at most one open A+B row a wallet, settling it is settling them all. */
  lemma SettlesAll(rows: seq<Row>, wallets: map<WalletId, Wallet>, w: WalletId, l: Ledger)
    requires OpenOk(wallets, rows)
    ensures var s := SettleNormalAb(rows, w, l);
            && (s.Ok? <==> forall i: nat :: i < |rows| && OpenAb(rows[i], w) ==> Settleable(rows[i], l))
            && (s.Ok? ==>
                  && |s.value| == |rows|
                  && forall i: nat :: i < |rows| ==>
                       if OpenAb(rows[i], w) then SettledAs(rows[i], s.value[i], l) else s.value[i] == rows[i])
            && (s.Err? ==>
                  exists i: nat :: i < |rows| && OpenAb(rows[i], w) && !Settleable(rows[i], l)
                                   && s.error == if rows[i].status == PROCESSING then SIGN_SESSION_BUSY else TRANSACTION_PENDING)
  {
    var open := FindOpenNormalAb(rows, w);
    if open.Some? {
      AbSettlementMeans(rows, w, l, open.value);
      forall j: nat | j < |rows| && OpenAb(rows[j], w) ensures j == open.value {
      }
    } else {
      NoOpenAbIsClear(rows, w, l);
    }
  }

  /** Why a start is refused, before and behind the code. */
  ghost predicate StartRefusedFor(a: Api, l: Ledger, user: UserId, w: WalletId, otp: Option<ErrorCode>, code: ErrorCode) {
    if w !in a.wallets then code == WALLET_NOT_FOUND
    else if a.wallets[w].user != user then code == NOT_YOUR_WALLET
    else if a.wallets[w].status == RETIRED then code == WALLET_RETIRED
    else if a.wallets[w].status == RETIRING then code == EMERGENCY_STATE_INVALID
    else if otp.Some? then code == otp.value
    else exists i: nat :: i < |a.rows| && OpenAb(a.rows[i], w) && !Settleable(a.rows[i], l)
                          && code == if a.rows[i].status == PROCESSING then SIGN_SESSION_BUSY else TRANSACTION_PENDING
  }

  /**
   * Emergency start goes through exactly for the owner of an ACTIVE or pending wallet, with a right code and no A+B
   * withdrawal in flight; it settles what was broadcast and leaves the wallet pending. A refusal changes nothing.
   */
  lemma StartOpensRecovery(b: Backend, w: World, l: Ledger, user: UserId, wallet: WalletId, otp: Option<ErrorCode>)
    requires BackendOk(b) && Reachable(b, w)
    ensures var a := w.api;
            var (a', r) := StartEmergencyRecovery(a, l, user, wallet, otp);
            && (r.Ok? <==>
                  && wallet in a.wallets && a.wallets[wallet].user == user
                  && a.wallets[wallet].status in {ACTIVE, RECOVERY_PENDING} && otp.None?
                  && forall i: nat :: i < |a.rows| && OpenAb(a.rows[i], wallet) ==> Settleable(a.rows[i], l))
            && (r.Ok? ==>
                  && r.value == RECOVERY_PENDING
                  && a' == a.(rows := a'.rows, wallets := a.wallets[wallet := a.wallets[wallet].(status := RECOVERY_PENDING)])
                  && |a'.rows| == |a.rows|
                  && forall i: nat :: i < |a.rows| ==>
                       if OpenAb(a.rows[i], wallet) then SettledAs(a.rows[i], a'.rows[i], l) else a'.rows[i] == a.rows[i])
            && (r.Err? ==> a' == a && StartRefusedFor(a, l, user, wallet, otp, r.error))
  {
    ReachableIsSafe(b, w);
    assert OpenOk(w.api.wallets, w.api.rows) && WalletsOk(w.api.wallets, w.api.rows);
    StartMeans(w.api, l, user, wallet, otp);
  }

  lemma StartMeans(a: Api, l: Ledger, user: UserId, wallet: WalletId, otp: Option<ErrorCode>)
    requires OpenOk(a.wallets, a.rows)
    requires wallet in a.wallets ==> (a.wallets[wallet].status == RETIRED <==> a.wallets[wallet].shareB.None?)
    ensures var (a', r) := StartEmergencyRecovery(a, l, user, wallet, otp);
            && (r.Ok? <==>
                  && wallet in a.wallets && a.wallets[wallet].user == user
                  && a.wallets[wallet].status in {ACTIVE, RECOVERY_PENDING} && otp.None?
                  && forall i: nat :: i < |a.rows| && OpenAb(a.rows[i], wallet) ==> Settleable(a.rows[i], l))
            && (r.Ok? ==>
                  && r.value == RECOVERY_PENDING
                  && a' == a.(rows := a'.rows, wallets := a.wallets[wallet := a.wallets[wallet].(status := RECOVERY_PENDING)])
                  && |a'.rows| == |a.rows|
                  && forall i: nat :: i < |a.rows| ==>
                       if OpenAb(a.rows[i], wallet) then SettledAs(a.rows[i], a'.rows[i], l) else a'.rows[i] == a.rows[i])
            && (r.Err? ==> a' == a && StartRefusedFor(a, l, user, wallet, otp, r.error))
  {
    SettlesAll(a.rows, a.wallets, wallet, l);
  }

  /** Cancel works exactly for the owner of a wallet that has not started to leave, and makes it ACTIVE. */
  lemma CancelMeans(a: Api, user: UserId, w: WalletId)
    ensures var (a', r) := CancelEmergencyRecovery(a, user, w);
            && (r.Ok? <==> w in a.wallets && a.wallets[w].user == user && a.wallets[w].status in {ACTIVE, RECOVERY_PENDING})
            && (r.Ok? ==> r.value == ACTIVE && a' == a.(wallets := a.wallets[w := a.wallets[w].(status := ACTIVE)]))
            && (r.Err? ==> a' == a)
            && (r.Err? ==> r.error == if w !in a.wallets then WALLET_NOT_FOUND
                                      else if a.wallets[w].user != user then NOT_YOUR_WALLET
                                      else if a.wallets[w].status == RETIRED then WALLET_RETIRED
                                      else EMERGENCY_STATE_INVALID)
  {
    if w in a.wallets && a.wallets[w].status == ACTIVE {
      assert a.wallets[w := a.wallets[w].(status := ACTIVE)] == a.wallets;
    }
  }

  /** What a start did to the wallet, a cancel undoes. */
  lemma CancelUndoesStart(a: Api, l: Ledger, user: UserId, w: WalletId, otp: Option<ErrorCode>)
    requires OpenOk(a.wallets, a.rows)
    requires w in a.wallets ==> (a.wallets[w].status == RETIRED <==> a.wallets[w].shareB.None?)
    requires w in a.wallets && a.wallets[w].status == ACTIVE && StartEmergencyRecovery(a, l, user, w, otp).1.Ok?
    ensures var a1 := StartEmergencyRecovery(a, l, user, w, otp).0;
            && CancelEmergencyRecovery(a1, user, w).1 == Ok(ACTIVE)
            && CancelEmergencyRecovery(a1, user, w).0.wallets == a.wallets
  {
    StartMeans(a, l, user, w, otp);
    CancelMeans(StartEmergencyRecovery(a, l, user, w, otp).0, user, w);
  }

  // ---- A request to sweep ----

  /** The newest emergency row of the wallet and asset. */
  predicate Newest(rows: seq<Row>, w: WalletId, asset: Asset, i: nat) {
    i < |rows| && BcOf(rows[i], w, asset) && forall j: nat :: i < j < |rows| ==> !BcOf(rows[j], w, asset)
  }

  ghost predicate NewestIs(rows: seq<Row>, w: WalletId, asset: Asset, statuses: set<WithdrawStatus>) {
    exists i: nat :: Newest(rows, w, asset, i) && rows[i].status in statuses
  }

  lemma NewestIsFound(rows: seq<Row>, w: WalletId, asset: Asset)
    ensures var latest := FindLatestEmergencyBc(rows, w, asset);
            && (latest.Some? ==> Newest(rows, w, asset, latest.value))
            && forall i: nat :: Newest(rows, w, asset, i) ==> latest == Some(i)
  {
  }

  /** A wallet on its way out, whose B share is still there. */
  predicate MayLeave(wallets: map<WalletId, Wallet>, w: WalletId) {
    w in wallets && wallets[w].status in {RECOVERY_PENDING, RETIRING} && wallets[w].shareB.Some?
  }

  /** The token sweep of this balance is payable, is done or sent already, or there is nothing to sweep. */
  ghost predicate TokenSweepFits(
    b: Backend, rows: seq<Row>, wallet: WalletId, from: Address, to: Address, net: Provider, cap: nat, limit: nat)
  {
    || b.token.None? || NewestIs(rows, wallet, ERC20, {BROADCASTED, EXECUTED}) || net.tokenBalance == 0
    || Payable(net, ERC20, from, to, net.tokenBalance, b.token, cap, limit)
  }

  lemma TokenGasMeans(b: Backend, w: World, wallet: WalletId, to: Address, net: Provider, priority: nat, cap: nat, limit: nat)
    requires CodecOk(b.codec) && wallet in w.api.wallets
    requires FeesAre(net.feeData, priority, cap) && TokenGas(net.estimateGas, limit)
    ensures var from, r := w.api.wallets[wallet].address, TokenGasRefusal(b, w, wallet, to, net);
            && (r.None? <==> TokenSweepFits(b, w.api.rows, wallet, from, to, net, cap, limit))
            && (r.Some? ==>
                  r.value == if GasShort(net, ERC20, from, to, net.tokenBalance, b.token, cap, limit) then INSUFFICIENT_GAS
                             else INVALID_REQUEST)
  {
    NewestIsFound(w.api.rows, wallet, ERC20);
    PreparesExactlyWhen(b.codec, net, ERC20, w.api.wallets[wallet].address, to, net.tokenBalance, b.token, priority, cap, limit);
  }

  /**
   * A sweep request is accepted exactly from the owner of a wallet on its way out, behind a right code, to a valid address
   * other than the wallet's, and with the gas for the tokens if there are any to sweep. It then waits for the lock.
   */
  lemma SweepIsAccepted(
    b: Backend, w: World, id: RequestId, user: UserId, wallet: WalletId, toRaw: string, otp: Option<ErrorCode>, net: Provider,
    priority: nat, cap: nat, limit: nat)
    requires CodecOk(b.codec) && FeesAre(net.feeData, priority, cap) && TokenGas(net.estimateGas, limit)
    ensures var (w', r) := Arrive(b, w, id, user, wallet, toRaw, otp, net);
            var to := b.codec.getAddress(toRaw);
            && (r.None? <==>
                  && to.Some? && MayLeave(w.api.wallets, wallet) && w.api.wallets[wallet].user == user
                  && w.api.wallets[wallet].address != to.value && otp.None?
                  && TokenSweepFits(b, w.api.rows, wallet, w.api.wallets[wallet].address, to.value, net, cap, limit))
            && (r.None? ==> w' == w.(requests := w.requests[id := Request(wallet, to.value, AtLock)]))
            && (r.Some? ==> w' == w)
  {
    var to := b.codec.getAddress(toRaw);
    if to.Some? && wallet in w.api.wallets {
      TokenGasMeans(b, w, wallet, to.value, net, priority, cap, limit);
    }
  }

  /** Why it is not accepted: the first check that fails. */
  lemma SweepSaysWhy(
    b: Backend, w: World, id: RequestId, user: UserId, wallet: WalletId, toRaw: string, otp: Option<ErrorCode>, net: Provider)
    ensures var r, to := Arrive(b, w, id, user, wallet, toRaw, otp, net).1, b.codec.getAddress(toRaw);
            if to.None? then r == Some(INVALID_ADDRESS)
            else if wallet !in w.api.wallets then r == Some(WALLET_NOT_FOUND)
            else if w.api.wallets[wallet].user != user then r == Some(NOT_YOUR_WALLET)
            else if w.api.wallets[wallet].status == RETIRED then r == Some(WALLET_RETIRED)
            else if w.api.wallets[wallet].status == ACTIVE then r == Some(EMERGENCY_STATE_INVALID)
            else if w.api.wallets[wallet].shareB.None? then r == Some(SHARE_B_MISSING)
            else if w.api.wallets[wallet].address == to.value then r == Some(INVALID_ADDRESS)
            else otp.Some? ==> r == otp
  {
  }

  // ---- The steps of a request ----

  /** The rows of the wallet an emergency settlement closes. */
  ghost predicate ReleasedBefore(rows: seq<Row>, rows': seq<Row>, w: WalletId, l: Ledger, stop: Option<nat>)
    requires stop.Some? ==> IsBc(rows, stop.value)
  {
    && |rows'| == |rows|
    && forall j: nat :: j < |rows| ==>
         if OpenBc(rows[j], w) && (stop.Some? ==> LookedAtFirst(rows, j, stop.value)) then ReleasedAs(rows[j], rows'[j], l)
         else rows'[j] == rows[j]
  }

  /** A wallet that is on its way out has no open A+B row, so the lock has nothing of that flow to settle. */
  lemma NothingToSettle(wallets: map<WalletId, Wallet>, rows: seq<Row>, w: WalletId, l: Ledger)
    requires OpenOk(wallets, rows) && w in wallets && wallets[w].status != ACTIVE
    ensures SettleNormalAb(rows, w, l) == Ok(rows)
  {
    NoOpenAbIsClear(rows, w, l);
  }

  lemma MayLeaveMeans(wallets: map<WalletId, Wallet>, w: WalletId)
    ensures LastWithdrawRefusal(wallets, w).None? <==> MayLeave(wallets, w)
  {
  }

  /** What the lock step comes to once the settlement is known. */
  lemma LockFollows(w: World, id: RequestId, x: Input)
    requires id in w.requests
    requires SettleNormalAb(w.api.rows, w.requests[id].wallet, Ledger(w.chain, x.down)) == Ok(w.api.rows)
    ensures var wallet := w.requests[id].wallet;
            var s := SettleEmergency(w.api.rows, wallet, Ledger(w.chain, x.down), w.now);
            StepLock(w, id, x)
            == if !MayLeave(w.api.wallets, wallet) || s.Thrown? then End(w, id)
               else Move(WithStatus(WithRows(w, s.rows), wallet, RETIRING), id,
                         if s.Clear? then AtToken else AtRebroadcast(s.id, s.raw))
  {
    MayLeaveMeans(w.api.wallets, w.requests[id].wallet);
    if MayLeave(w.api.wallets, w.requests[id].wallet) {
      LockGoes(w, id, x);
    }
  }

  lemma LockGoes(w: World, id: RequestId, x: Input)
    requires id in w.requests && LastWithdrawRefusal(w.api.wallets, w.requests[id].wallet).None?
    requires w.requests[id].wallet in w.api.wallets
    requires SettleNormalAb(w.api.rows, w.requests[id].wallet, Ledger(w.chain, x.down)) == Ok(w.api.rows)
    ensures var wallet := w.requests[id].wallet;
            var s := SettleEmergency(w.api.rows, wallet, Ledger(w.chain, x.down), w.now);
            StepLock(w, id, x)
            == if s.Thrown? then End(w, id)
               else Move(WithStatus(WithRows(w, s.rows), wallet, RETIRING), id,
                         if s.Clear? then AtToken else AtRebroadcast(s.id, s.raw))
  {
  }

  /** The first row that cannot be closed decides. */
  lemma LockStops(w: World, id: RequestId, x: Input, i: nat)
    requires id in w.requests && OpenOk(w.api.wallets, w.api.rows) && MayLeave(w.api.wallets, w.requests[id].wallet)
    requires Stops(w.api.rows, w.requests[id].wallet, Ledger(w.chain, x.down), w.now, i)
    ensures var wallet, l, rows, w' := w.requests[id].wallet, Ledger(w.chain, x.down), w.api.rows, StepLock(w, id, x);
            if Resendable(rows[i], l) then
              && w' == Move(WithStatus(WithRows(w, w'.api.rows), wallet, RETIRING), id,
                            AtRebroadcast(i, rows[i].metadata.signedRaw.value))
              && ReleasedBefore(rows, w'.api.rows, wallet, l, Some(i))
            else w' == End(w, id)
  {
    var wallet, l, rows := w.requests[id].wallet, Ledger(w.chain, x.down), w.api.rows;
    NothingToSettle(w.api.wallets, rows, wallet, l);
    LockFollows(w, id, x);
    SettlementMeans(rows, wallet, l, w.now);
    assert StopsWith(rows, wallet, l, i, SettleEmergency(rows, wallet, l, w.now));
  }

  ghost predicate AllReleasable(rows: seq<Row>, w: WalletId, l: Ledger, now: nat) {
    forall i: nat :: i < |rows| && OpenBc(rows[i], w) ==> Releasable(rows[i], l, now)
  }

  lemma LockClears(w: World, id: RequestId, x: Input)
    requires id in w.requests && OpenOk(w.api.wallets, w.api.rows) && MayLeave(w.api.wallets, w.requests[id].wallet)
    requires AllReleasable(w.api.rows, w.requests[id].wallet, Ledger(w.chain, x.down), w.now)
    ensures var wallet, w' := w.requests[id].wallet, StepLock(w, id, x);
            && w' == Move(WithStatus(WithRows(w, w'.api.rows), wallet, RETIRING), id, AtToken)
            && ReleasedBefore(w.api.rows, w'.api.rows, wallet, Ledger(w.chain, x.down), None)
  {
    var wallet, l, rows := w.requests[id].wallet, Ledger(w.chain, x.down), w.api.rows;
    NothingToSettle(w.api.wallets, rows, wallet, l);
    LockFollows(w, id, x);
    SettlementMeans(rows, wallet, l, w.now);
  }

  /**
   * The locked transaction: with every open emergency row closable the wallet is RETIRING and the sweep begins; at a
   * broadcast without a receipt its stored raw is to be sent again; and otherwise the request ends and nothing changes.
   */
  ghost predicate Locks(w: World, w': World, id: RequestId, l: Ledger)
    requires id in w.requests
  {
    var wallet, rows := w.requests[id].wallet, w.api.rows;
    if !MayLeave(w.api.wallets, wallet) then w' == End(w, id)
    else if AllReleasable(rows, wallet, l, w.now) then
      && w' == Move(WithStatus(WithRows(w, w'.api.rows), wallet, RETIRING), id, AtToken)
      && ReleasedBefore(rows, w'.api.rows, wallet, l, None)
    else
      exists i: nat ::
        && Stops(rows, wallet, l, w.now, i)
        && if Resendable(rows[i], l) then
             && w' == Move(WithStatus(WithRows(w, w'.api.rows), wallet, RETIRING), id,
                           AtRebroadcast(i, rows[i].metadata.signedRaw.value))
             && ReleasedBefore(rows, w'.api.rows, wallet, l, Some(i))
           else w' == End(w, id)
  }

  lemma LockMeans(b: Backend, w: World, id: RequestId, x: Input)
    requires BackendOk(b) && Reachable(b, w) && id in w.requests
    ensures Locks(w, StepLock(w, id, x), id, Ledger(w.chain, x.down))
  {
    ReachableIsSafe(b, w);
    LockIsOneOf(w, id, x);
  }

  lemma LockIsOneOf(w: World, id: RequestId, x: Input)
    requires id in w.requests && OpenOk(w.api.wallets, w.api.rows)
    ensures Locks(w, StepLock(w, id, x), id, Ledger(w.chain, x.down))
  {
    var wallet, l := w.requests[id].wallet, Ledger(w.chain, x.down);
    if MayLeave(w.api.wallets, wallet) {
      if AllReleasable(w.api.rows, wallet, l, w.now) {
        LockClears(w, id, x);
      } else {
        SettlementMeans(w.api.rows, wallet, l, w.now);
        var i: nat :| Stops(w.api.rows, wallet, l, w.now, i);
        LockStops(w, id, x, i);
      }
    }
  }

  /**
   * The token step: on to ETH with no token configured, with the newest sweep confirmed, or with nothing to sweep; to
   * a sweep of the balance if that is payable; and otherwise the request ends.
   */
  lemma TokenStepMeans(b: Backend, a: Api, r: Request, net: Provider, priority: nat, cap: nat, limit: nat)
    requires CodecOk(b.codec) && r.wallet in a.wallets && a.wallets[r.wallet].address != r.to
    requires FeesAre(net.feeData, priority, cap) && TokenGas(net.estimateGas, limit)
    ensures var pc := AfterToken(b, a, r, net);
            && (b.token.None? ==> pc == Some(AtEth(Unconfigured)))
            && (b.token.Some? ==>
                  && (forall i: nat :: Newest(a.rows, r.wallet, ERC20, i) && a.rows[i].status == EXECUTED ==>
                                         pc == Some(AtEth(Swept(a.rows[i].txHash))))
                  && (!NewestIs(a.rows, r.wallet, ERC20, {EXECUTED}) ==>
                        if net.tokenBalance == 0 then pc == Some(AtEth(NoTokens))
                        else if Payable(net, ERC20, a.wallets[r.wallet].address, r.to, net.tokenBalance, b.token, cap, limit) then
                          pc.Some? && pc.value.AtCreate? && pc.value.leg == TokenLeg && pc.value.amount == net.tokenBalance
                        else pc.None?))
  {
    NewestIsFound(a.rows, r.wallet, ERC20);
    PreparesExactlyWhen(b.codec, net, ERC20, a.wallets[r.wallet].address, r.to, net.tokenBalance, b.token, priority, cap, limit);
  }

  /**
   * The ETH step: on to retirement with the newest sweep EXECUTED; a skip on a zero balance, or behind a token sweep on no
   * more than the fee; a sweep of the rest above the fee; and otherwise the request ends.
   */
  lemma EthStepMeans(a: Api, r: Request, net: Provider, token: Token, priority: nat, cap: nat)
    requires r.wallet in a.wallets && a.wallets[r.wallet].address != r.to && FeesAre(net.feeData, priority, cap)
    ensures var pc := AfterEth(a, r, net, token);
            && (NewestIs(a.rows, r.wallet, ETH, {EXECUTED}) ==> pc == Some(AtRetire(token)))
            && (!NewestIs(a.rows, r.wallet, ETH, {EXECUTED}) ==>
                  if net.balance == 0 then pc == Some(AtSkip(ZERO_BALANCE, token))
                  else if net.balance <= 21_000 * cap then
                    pc == if token.Swept? && token.hash.Some? then Some(AtSkip(ETH_DUST, token)) else None
                  else if net.chainId != 11155111 then pc.None?
                  else
                    && pc.Some? && pc.value.AtCreate? && pc.value.leg == EthLeg(token)
                    && pc.value.amount == net.balance - 21_000 * cap)
  {
    NewestIsFound(a.rows, r.wallet, ETH);
    FeesResolve(net.feeData, priority, cap, 21_000);
  }

  /** The row of a sweep that is about to be signed. */
  predicate FreshSweep(row: Row, r: Request, g: Leg, amount: nat, now: nat) {
    && row.wallet == r.wallet && row.to == r.to && row.amount == amount && row.status == PROCESSING
    && row.txHash.None? && row.createdAt == now && row.key.None?
    && row.metadata == match g
                       case TokenLeg => EmergencyBc(ERC20, None, None, None)
                       case EthLeg(t) => EmergencyBc(ETH, None, None, if t.Swept? then t.hash else None)
  }

  /** On the settled rows a confirmed sweep of the asset is not repeated, and otherwise one PROCESSING row is added. */
  ghost predicate Creates(w: World, w': World, id: RequestId, rows: seq<Row>)
    requires id in w.requests && w.requests[id].pc.AtCreate?
  {
    var r := w.requests[id];
    var asset := if r.pc.leg.TokenLeg? then ERC20 else ETH;
    if NewestIs(rows, r.wallet, asset, {EXECUTED}) then
      exists i: nat ::
        && Newest(rows, r.wallet, asset, i)
        && w' == Move(WithRows(w, rows), id, match r.pc.leg case TokenLeg => AtEth(Swept(rows[i].txHash)) case EthLeg(t) => AtRetire(t))
    else
      && |w'.api.rows| == |rows| + 1 && FreshSweep(w'.api.rows[|rows|], r, r.pc.leg, r.pc.amount, w.now)
      && w' == Move(WithRows(w, rows + [w'.api.rows[|rows|]]), id, AtSign(r.pc.leg, |rows|, r.pc.tx))
  }

  /** Creating the row: every open emergency row is closed first, and with one that cannot be the request ends. */
  lemma CreateMeans(w: World, id: RequestId, x: Input)
    requires id in w.requests && w.requests[id].pc.AtCreate?
    ensures var r, w', l := w.requests[id], StepCreate(w, id, x), Ledger(w.chain, x.down);
            if !AllReleasable(w.api.rows, r.wallet, l, w.now) then w' == End(w, id)
            else exists rows :: ReleasedBefore(w.api.rows, rows, r.wallet, l, None) && Creates(w, w', id, rows)
  {
    var r, l := w.requests[id], Ledger(w.chain, x.down);
    SettlementMeans(w.api.rows, r.wallet, l, w.now);
    var s := SettleEmergency(w.api.rows, r.wallet, l, w.now);
    if s.Clear? {
      NothingOpenLeft(w.api.rows, s.rows, r.wallet, l);
      CreatesOnSettled(w, id, x, s.rows);
    }
  }

  lemma CreatesOnSettled(w: World, id: RequestId, x: Input, rows: seq<Row>)
    requires id in w.requests && w.requests[id].pc.AtCreate?
    requires SettleEmergency(w.api.rows, w.requests[id].wallet, Ledger(w.chain, x.down), w.now) == Clear(rows)
    requires forall i :: 0 <= i < |rows| ==> !OpenBc(rows[i], w.requests[id].wallet)
    ensures Creates(w, StepCreate(w, id, x), id, rows)
  {
    NewestIsFound(rows, w.requests[id].wallet, AssetOf(w.requests[id].pc.leg));
    CreateFollows(w, id, x, rows);
  }

  lemma NothingOpenLeft(rows: seq<Row>, rows': seq<Row>, w: WalletId, l: Ledger)
    requires ReleasedBefore(rows, rows', w, l, None)
    ensures forall i :: 0 <= i < |rows'| ==> !OpenBc(rows'[i], w)
  {
  }

  lemma CreateFollows(w: World, id: RequestId, x: Input, rows: seq<Row>)
    requires id in w.requests && w.requests[id].pc.AtCreate?
    requires SettleEmergency(w.api.rows, w.requests[id].wallet, Ledger(w.chain, x.down), w.now) == Clear(rows)
    requires forall i :: 0 <= i < |rows| ==> !OpenBc(rows[i], w.requests[id].wallet)
    ensures var r := w.requests[id];
            var latest := FindLatestEmergencyBc(rows, r.wallet, AssetOf(r.pc.leg));
            StepCreate(w, id, x)
            == if latest.Some? && rows[latest.value].status == EXECUTED then
                 Move(WithRows(w, rows), id, After(r.pc.leg, rows[latest.value].txHash))
               else Move(WithRows(w, rows + [NewBcRow(w.now, r, r.pc.leg, r.pc.amount)]), id, AtSign(r.pc.leg, |rows|, r.pc.tx))
  {
  }

  // ---- From the signature to the retirement ----

  /** Only row `i` differs, and only in these columns. */
  predicate OneRowTakes(rows: seq<Row>, rows': seq<Row>, i: nat, status: WithdrawStatus, hash: Option<TxHash>, raw: Option<Raw>) {
    && i < |rows| && rows[i].metadata.EmergencyBc? && |rows'| == |rows|
    && (forall j: nat :: j < |rows| && j != i ==> rows'[j] == rows[j])
    && rows'[i] == rows[i].(status := status, txHash := hash, metadata := rows[i].metadata.(signedRaw := raw))
  }

  /** A signature is stored with its hash before it is handed out; without one the row is given up if it is still PROCESSING. */
  lemma SignMeans(b: Backend, w: World, id: RequestId, x: Input)
    requires id in w.requests && w.requests[id].pc.AtSign? && RequestOk(b.codec, w, w.requests[id])
    ensures var pc, w', rows := w.requests[id].pc, StepSign(b, w, id, x), w.api.rows;
            match x.signature
            case Some(sig) =>
              var raw := b.codec.serialize(pc.tx, sig);
              && OneRowTakes(rows, w'.api.rows, pc.row, BROADCASTED, Some(b.codec.hash(raw)), Some(raw))
              && w' == Move(WithRows(w, w'.api.rows), id, AtBroadcast(pc.leg, pc.row, raw))
            case None => w' == if rows[pc.row].status == PROCESSING then Move(w, id, AtMarkFailed(pc.row)) else End(w, id)
  {
  }

  /** The row given up is FAILED, and the request over. */
  lemma GivingUpMeans(b: Backend, w: World, id: RequestId, x: Input)
    requires id in w.requests && w.requests[id].pc.AtMarkFailed? && RequestOk(b.codec, w, w.requests[id])
    ensures var i, w' := w.requests[id].pc.row, Advance(b, w, id, x);
            && OneRowTakes(w.api.rows, w'.api.rows, i, FAILED, w.api.rows[i].txHash, w.api.rows[i].metadata.signedRaw)
            && w' == End(WithRows(w, w'.api.rows), id)
  {
  }

  /** A broadcast hands the raw out once, and is waited for if the RPC took it; a rebroadcast is never waited for. */
  lemma BroadcastMeans(b: Backend, w: World, id: RequestId, x: Input)
    requires id in w.requests && (w.requests[id].pc.AtBroadcast? || w.requests[id].pc.AtRebroadcast?)
    ensures var pc, w' := w.requests[id].pc, Advance(b, w, id, x);
            var called := w.(submitted := w.submitted + [Submission(pc.row, pc.raw)]);
            w' == if pc.AtBroadcast? && x.ok then Move(called, id, AtWait(pc.leg, pc.row, pc.raw)) else End(called, id)
  {
  }

  /** A confirmed row is EXECUTED, and the request goes on to the other asset or to retirement; an unconfirmed one is left. */
  lemma WaitMeans(b: Backend, w: World, id: RequestId, x: Input)
    requires id in w.requests && w.requests[id].pc.AtWait? && RequestOk(b.codec, w, w.requests[id])
    ensures var pc, w', rows := w.requests[id].pc, Advance(b, w, id, x), w.api.rows;
            if x.ok then
              && OneRowTakes(rows, w'.api.rows, pc.row, EXECUTED, rows[pc.row].txHash, rows[pc.row].metadata.signedRaw)
              && w' == Move(WithRows(w, w'.api.rows), id,
                            match pc.leg case TokenLeg => AtEth(Swept(Some(b.codec.hash(pc.raw)))) case EthLeg(t) => AtRetire(t))
            else w' == End(w, id)
  {
  }

  /** A skipped ETH step leaves an EXECUTED row of nothing that says why. */
  lemma SkipMeans(b: Backend, w: World, id: RequestId, x: Input)
    requires id in w.requests && w.requests[id].pc.AtSkip?
    ensures var r, w' := w.requests[id], Advance(b, w, id, x);
            && |w'.api.rows| == |w.api.rows| + 1
            && w' == Move(WithRows(w, w.api.rows + [w'.api.rows[|w.api.rows|]]), id, AtRetire(r.pc.token))
            && var row := w'.api.rows[|w.api.rows|];
               && row.wallet == r.wallet && row.to == r.to && row.amount == 0 && row.status == EXECUTED && row.createdAt == w.now
               && row.key.None? && row.txHash.None?
               && row.metadata == EmergencyBc(ETH, None, Some(r.pc.why), if r.pc.token.Swept? then r.pc.token.hash else None)
  {
  }

  /** Retirement takes Share B away with the RETIRED write, and then has Recovery retire and wipe Share C. */
  lemma RetireMeans(b: Backend, w: World, id: RequestId, x: Input)
    requires id in w.requests && w.requests[id].wallet in w.api.wallets
    requires w.requests[id].pc.AtRetire? || w.requests[id].pc.AtRetireShare?
    ensures var wallet, w' := w.requests[id].wallet, Advance(b, w, id, x);
            if w.requests[id].pc.AtRetire? then
              && w'.api == w.api.(wallets := w.api.wallets[wallet := w.api.wallets[wallet].(status := RETIRED, shareB := None)])
              && w' == Move(w.(api := w'.api), id, AtRetireShare)
            else
              && w' == End(w.(shares := w'.shares), id)
              && w'.shares.Keys == w.shares.Keys
              && (forall v :: v in w.shares && (v != wallet || !x.ok) ==> w'.shares[v] == w.shares[v])
              && (x.ok && wallet in w.shares && w.shares[wallet].status == SHARE_ACTIVE ==>
                    w'.shares[wallet] == w.shares[wallet].(status := SHARE_RETIRED, sealed := None))
              && (wallet in w.shares && w.shares[wallet].status == SHARE_RETIRED ==> w'.shares == w.shares)
  {
  }
}
