/**
 * The whole wallet as one machine: every handler of the A+B flow, emergency start and cancel, last-withdraw
 * requests cut at their transactions and awaits, DKG completion, crashes and restarts, the chain and the clock.
 */
module System {
  import opened Types
  import opened Text
  import opened Routing
  import opened SignReference
  import opened EthTransfer
  import opened Withdraws
  import opened AbSigning
  import opened AbInvariant
  import opened LastWithdraw
  import opened BcInvariant
  import opened LastWithdrawSteps
  import opened Shares

  datatype Step =
    | Tick(ms: nat)
    | Mine(hash: TxHash, success: bool)
    | Ab(step: AbStep)
    | EmergencyStart(down: set<TxHash>, user: UserId, wallet: WalletId, otp: Option<ErrorCode>)
    | EmergencyCancel(user: UserId, wallet: WalletId)
    | LastWithdrawArrives(id: RequestId, user: UserId, wallet: WalletId, to: string, otp: Option<ErrorCode>, net: Provider)
    | LastWithdrawRuns(id: RequestId, input: Input)
    | LastWithdrawDies(id: RequestId)
    | DkgFinalize(wallet: WalletId, row: Wallet, publicKeyC: string, sealedC: SealedShare)
    | DkgCreate(wallet: WalletId)
    | DkgDies(wallet: WalletId)

  /** No wallets, no shares, nothing mined. */
  function Init(): World {
    World(0, map[], Api(map[], [], map[], []), map[], [], map[], map[])
  }

  /** Recovery stores Share C; the API goes on only when the two public keys agree. */
  function FinalizeDkg(w: World, id: WalletId, row: Wallet, publicKeyC: string, sealedC: SealedShare): World {
    match Insert(w.shares, id, row.user, publicKeyC, sealedC)
    case Err(_) => w
    case Ok(shares) =>
      if Lower(publicKeyC) == Lower(row.publicKey) then w.(shares := shares, finalizing := w.finalizing[id := row])
      else w.(shares := shares)
  }

  /** The insert of the wallet row; its id is the primary key. */
  function CreateWallet(w: World, id: WalletId): World {
    if id !in w.finalizing || id in w.api.wallets then w
    else w.(api := w.api.(wallets := w.api.wallets[id := w.finalizing[id]]), finalizing := w.finalizing - {id})
  }

  function Next(b: Backend, w: World, s: Step): World {
    match s
    case Tick(ms) => w.(now := w.now + ms)
    case Mine(h, ok) => w.(chain := w.chain[h := ok])
    case Ab(step) =>
      var after := w.(api := ApplyAb(b, w.api, w.now, Ledger(w.chain, step.down), step));
      if step.CompleteThenDies? || step.Restart? then after.(requests := map[], finalizing := map[]) else after
    case EmergencyStart(down, user, wallet, otp) =>
      w.(api := StartEmergencyRecovery(w.api, Ledger(w.chain, down), user, wallet, otp).0)
    case EmergencyCancel(user, wallet) => w.(api := CancelEmergencyRecovery(w.api, user, wallet).0)
    case LastWithdrawArrives(id, user, wallet, to, otp, net) => Arrive(b, w, id, user, wallet, to, otp, net).0
    case LastWithdrawRuns(id, x) => if id in w.requests then Advance(b, w, id, x) else w
    case LastWithdrawDies(id) => End(w, id)
    case DkgFinalize(id, row, key, sealed) => FinalizeDkg(w, id, row, key, sealed)
    case DkgCreate(id) => CreateWallet(w, id)
    case DkgDies(id) => w.(finalizing := w.finalizing - {id})
  }

  /**
   * What is asked of the surroundings: a receipt never changes, session and request ids are new, the DKG
   * hands the API an ACTIVE row with its share, a live signer is not slower than the staleness limit, and a
   * confirmation means a success receipt.
   */
  ghost predicate Enabled(b: Backend, w: World, s: Step) {
    match s
    case Mine(h, _) => h !in w.chain
    case Ab(step) => AbEnabled(w.api, step)
    case LastWithdrawArrives(id, _, _, _, _, _) => id !in w.requests
    case LastWithdrawRuns(id, x) => id in w.requests ==> Honest(b, w, id, x)
    case DkgFinalize(_, row, _, _) => row.status == ACTIVE && row.shareB.Some?
    case _ => true
  }

  function Run(b: Backend, w: World, steps: seq<Step>): World
    decreases |steps|
  {
    if steps == [] then w else Run(b, Next(b, w, steps[0]), steps[1..])
  }

  ghost predicate Admissible(b: Backend, w: World, steps: seq<Step>)
    decreases |steps|
  {
    steps == [] || (Enabled(b, w, steps[0]) && Admissible(b, Next(b, w, steps[0]), steps[1..]))
  }

  // ---- Share C ----

  /**
   * Every wallet has a Share C of the same user and public key, retired only if the wallet is; a wallet about to
   * be created has an ACTIVE one.
   */
  ghost predicate SharesOk(w: World) {
    && Wiped(w.shares)
    && (forall id :: id in w.api.wallets ==>
          && id in w.shares
          && w.shares[id].user == w.api.wallets[id].user
          && Lower(w.shares[id].publicKey) == Lower(w.api.wallets[id].publicKey)
          && (w.shares[id].status == SHARE_RETIRED ==> w.api.wallets[id].status == RETIRED))
    && (forall id :: id in w.finalizing ==>
          && id in w.shares && id !in w.api.wallets
          && w.shares[id].status == SHARE_ACTIVE
          && w.shares[id].user == w.finalizing[id].user
          && Lower(w.shares[id].publicKey) == Lower(w.finalizing[id].publicKey)
          && w.finalizing[id].status == ACTIVE && w.finalizing[id].shareB.Some?)
  }

  ghost predicate Safe(b: Backend, w: World) {
    SystemOk(b, w) && SharesOk(w)
  }

  lemma InitIsSafe(b: Backend)
    ensures Safe(b, Init())
  {
  }

  // ---- Steps that are not last-withdraw steps ----

  lemma TickKeepsOk(b: Backend, w: World, ms: nat)
    requires SystemOk(b, w)
    ensures SystemOk(b, w.(now := w.now + ms))
  {
    var w' := w.(now := w.now + ms);
    LaterIsOk(b, w.api, w.now, w'.now);
    UnmovedClaims(b, w, w');
    AssembleAll(b, w, w');
  }

  lemma MineKeepsOk(b: Backend, w: World, h: TxHash, ok: bool)
    requires SystemOk(b, w) && h !in w.chain
    ensures SystemOk(b, w.(chain := w.chain[h := ok]))
  {
    var w' := w.(chain := w.chain[h := ok]);
    StepsKeepRows(b.codec, w.api.rows, w.api.rows, w.chain, w'.chain);
    UnmovedClaims(b, w, w');
    AssembleAll(b, w, w');
  }

  /** Requests that are forgotten leave the rest as it was. */
  lemma ForgetKeepsOk(b: Backend, w: World, requests: map<RequestId, Request>, finalizing: map<WalletId, Wallet>)
    requires SystemOk(b, w) && forall id :: id in requests ==> id in w.requests && requests[id] == w.requests[id]
    ensures SystemOk(b, w.(requests := requests, finalizing := finalizing))
  {
    QuietKeepsOk(b, w, w.(requests := requests, finalizing := finalizing), 0);
  }

  lemma AbStepKeepsSafe(b: Backend, w: World, step: AbStep)
    requires Safe(b, w) && BackendOk(b) && AbEnabled(w.api, step)
    ensures Safe(b, Next(b, w, Ab(step)))
  {
    AbHandlerKeepsSafe(b, w, step);
    ForgetKeepsSafe(b, w.(api := ApplyAb(b, w.api, w.now, Ledger(w.chain, step.down), step)));
  }

  lemma AbHandlerKeepsSafe(b: Backend, w: World, step: AbStep)
    requires Safe(b, w) && BackendOk(b) && AbEnabled(w.api, step)
    ensures Safe(b, w.(api := ApplyAb(b, w.api, w.now, Ledger(w.chain, step.down), step)))
  {
    AbStepKeepsOk(b, w.api, w.now, Ledger(w.chain, step.down), step);
    AbFrameKeepsSafe(b, w, ApplyAb(b, w.api, w.now, Ledger(w.chain, step.down), step));
  }

  lemma ForgetKeepsSafe(b: Backend, w: World)
    requires Safe(b, w)
    ensures Safe(b, w.(requests := map[], finalizing := map[]))
  {
    ForgetKeepsOk(b, w, map[], map[]);
    SharesStay(w, w.(requests := map[], finalizing := map[]));
  }

  lemma AbFrameKeepsSafe(b: Backend, w: World, a: Api)
    requires Safe(b, w) && AbFrame(w.api, a) && ApiOk(b, a, w.now)
    ensures Safe(b, w.(api := a))
  {
    AbStepKeepsBc(b, w, a);
    SharesStay(w, w.(api := a));
  }

  /** What emergency start changes when it goes through. */
  lemma EmergencyStartShape(a: Api, l: Ledger, user: UserId, wallet: WalletId, otp: Option<ErrorCode>)
    ensures var a' := StartEmergencyRecovery(a, l, user, wallet, otp).0;
            || a' == a
            || (wallet in a.wallets && a.wallets[wallet].status in {ACTIVE, RECOVERY_PENDING} && a.wallets[wallet].shareB.Some?
                && SettleNormalAb(a.rows, wallet, l).Ok?
                && a' == a.(rows := SettleNormalAb(a.rows, wallet, l).value,
                            wallets := a.wallets[wallet := a.wallets[wallet].(status := RECOVERY_PENDING)]))
  {
  }

  lemma EmergencyCancelShape(w: World, user: UserId, wallet: WalletId)
    ensures var w' := w.(api := CancelEmergencyRecovery(w.api, user, wallet).0);
            || w' == w
            || (wallet in w.api.wallets && w.api.wallets[wallet].status == RECOVERY_PENDING
                && w' == WithStatus(w, wallet, ACTIVE))
  {
  }

  lemma StatusKeepsSafe(b: Backend, w: World, wallet: WalletId, status: WalletStatus)
    requires Safe(b, w) && wallet in w.api.wallets && status != RETIRED
    requires w.api.wallets[wallet].status != RETIRED
    requires w.api.wallets[wallet].status == RETIRING ==> status == RETIRING
    requires status != ACTIVE && w.api.wallets[wallet].status == ACTIVE ==>
               forall i :: 0 <= i < |w.api.rows| ==> !OpenAb(w.api.rows[i], wallet)
    ensures Safe(b, WithStatus(w, wallet, status))
  {
    StatusKeepsOk(b, w, wallet, status);
    SharesStay(w, WithStatus(w, wallet, status));
  }

  lemma EmergencyCancelKeepsSafe(b: Backend, w: World, user: UserId, wallet: WalletId)
    requires Safe(b, w)
    ensures Safe(b, w.(api := CancelEmergencyRecovery(w.api, user, wallet).0))
  {
    EmergencyCancelShape(w, user, wallet);
    if w.(api := CancelEmergencyRecovery(w.api, user, wallet).0) != w {
      StatusKeepsSafe(b, w, wallet, ACTIVE);
    }
  }

  lemma EmergencyStartKeepsSafe(b: Backend, w: World, l: Ledger, user: UserId, wallet: WalletId, otp: Option<ErrorCode>)
    requires Safe(b, w)
    ensures Safe(b, w.(api := StartEmergencyRecovery(w.api, l, user, wallet, otp).0))
  {
    var w' := w.(api := StartEmergencyRecovery(w.api, l, user, wallet, otp).0);
    EmergencyStartShape(w.api, l, user, wallet, otp);
    if w' != w {
      var a := w.api.(rows := SettleNormalAb(w.api.rows, wallet, l).value);
      SettleAbKeepsOk(b, w.api, wallet, l, w.now);
      AbFrameKeepsSafe(b, w, a);
      StatusKeepsSafe(b, w.(api := a), wallet, RECOVERY_PENDING);
      assert w' == WithStatus(w.(api := a), wallet, RECOVERY_PENDING);
    }
  }

  lemma CreateKeepsApi(b: Backend, w: World, id: WalletId)
    requires ApiOk(b, w.api, w.now) && id in w.finalizing && id !in w.api.wallets
    ensures ApiOk(b, CreateWallet(w, id).api, w.now)
  {
    ApiStays(b, w.api, CreateWallet(w, id).api, w.now);
  }

  lemma CreateKeepsBc(b: Backend, w: World, id: WalletId)
    requires BcOk(b, w) && id in w.finalizing && id !in w.api.wallets
    requires w.finalizing[id].status == ACTIVE && w.finalizing[id].shareB.Some?
    ensures BcOk(b, CreateWallet(w, id))
  {
    var w' := CreateWallet(w, id);
    UnmovedClaims(b, w, w');
    AssembleAll(b, w, w');
  }

  lemma CreateWalletKeepsOk(b: Backend, w: World, id: WalletId)
    requires SystemOk(b, w) && SharesOk(w)
    ensures SystemOk(b, CreateWallet(w, id))
  {
    if id in w.finalizing && id !in w.api.wallets {
      CreateKeepsApi(b, w, id);
      CreateKeepsBc(b, w, id);
    }
  }

  // ---- Shares ----

  /** Steps that keep each wallet's owner and key, keep RETIRED, add no wallet and leave Share C alone. */
  lemma SharesStay(w: World, w': World)
    requires SharesOk(w) && w'.shares == w.shares
    requires forall id :: id in w'.finalizing ==> id in w.finalizing && w'.finalizing[id] == w.finalizing[id]
    requires SameWallets(w.api.wallets, w'.api.wallets)
    ensures SharesOk(w')
  {
  }

  ghost predicate SameWallets(wallets: map<WalletId, Wallet>, wallets': map<WalletId, Wallet>) {
    && wallets'.Keys == wallets.Keys
    && forall id :: id in wallets ==>
                      && wallets'[id].user == wallets[id].user && wallets'[id].publicKey == wallets[id].publicKey
                      && wallets'[id].address == wallets[id].address
                      && (wallets[id].status == RETIRED ==> wallets'[id].status == RETIRED)
  }

  /** The steps of a request that change a wallet row or Share C. */
  predicate ChangesWallets(pc: Pc) {
    pc.AtLock? || pc.AtRetire? || pc.AtRetireShare?
  }

  lemma LockWallets(w: World, id: RequestId, x: Input)
    requires id in w.requests
    ensures SameWallets(w.api.wallets, StepLock(w, id, x).api.wallets)
    ensures StepLock(w, id, x).finalizing == w.finalizing && StepLock(w, id, x).shares == w.shares
  {
    LockShape(w, id, x);
  }

  lemma OtherWallets(b: Backend, w: World, id: RequestId, x: Input)
    requires id in w.requests && !ChangesWallets(w.requests[id].pc)
    ensures var w' := Advance(b, w, id, x);
            w'.api.wallets == w.api.wallets && w'.finalizing == w.finalizing && w'.shares == w.shares
  {
    match w.requests[id].pc
    case AtToken => var _ := TokenShape(b, w, id, x);
    case AtEth(token) => var _ := EthShape(w, id, x, token);
    case AtCreate(_, _, _) => CreateShape(w, id, x);
    case _ => RowStepWallets(b, w, id, x);
  }

  lemma RowStepWallets(b: Backend, w: World, id: RequestId, x: Input)
    requires id in w.requests
    requires var pc := w.requests[id].pc;
             pc.AtRebroadcast? || pc.AtSign? || pc.AtMarkFailed? || pc.AtBroadcast? || pc.AtWait? || pc.AtSkip?
    ensures var w' := Advance(b, w, id, x);
            w'.api.wallets == w.api.wallets && w'.finalizing == w.finalizing && w'.shares == w.shares
  {
  }

  lemma LockKeepsShares(b: Backend, w: World, id: RequestId, x: Input)
    requires SharesOk(w) && id in w.requests && w.requests[id].pc.AtLock?
    ensures SharesOk(Advance(b, w, id, x))
  {
    LockWallets(w, id, x);
    SharesStay(w, StepLock(w, id, x));
  }

  lemma RetireWriteKeepsShares(b: Backend, w: World, id: RequestId, x: Input)
    requires SharesOk(w) && id in w.requests && w.requests[id].pc.AtRetire? && w.requests[id].wallet in w.api.wallets
    ensures SharesOk(Advance(b, w, id, x))
  {
  }

  lemma RetireShareKeepsShares(b: Backend, w: World, id: RequestId, x: Input)
    requires SharesOk(w) && id in w.requests && w.requests[id].pc.AtRetireShare?
    requires w.requests[id].wallet in w.api.wallets && w.api.wallets[w.requests[id].wallet].status == RETIRED
    ensures SharesOk(Advance(b, w, id, x))
  {
    var wallet := w.requests[id].wallet;
    assert Advance(b, w, id, x) == End(if x.ok then w.(shares := Apply(w.shares, DoRetire(wallet))) else w, id);
    RetiringKeepsShares(w, w.(shares := Apply(w.shares, DoRetire(wallet)), requests := w.requests - {id}), wallet);
  }

  lemma RetiringKeepsShares(w: World, w': World, wallet: WalletId)
    requires SharesOk(w) && wallet in w.api.wallets && w.api.wallets[wallet].status == RETIRED
    requires w'.api == w.api && w'.finalizing == w.finalizing && w'.shares == Apply(w.shares, DoRetire(wallet))
    ensures SharesOk(w')
  {
  }

  lemma AdvanceKeepsShares(b: Backend, w: World, id: RequestId, x: Input)
    requires SharesOk(w) && id in w.requests && w.requests[id].wallet in w.api.wallets
    requires w.requests[id].pc.AtRetireShare? ==> w.api.wallets[w.requests[id].wallet].status == RETIRED
    ensures SharesOk(Advance(b, w, id, x))
  {
    if w.requests[id].pc.AtLock? {
      LockKeepsShares(b, w, id, x);
    } else if w.requests[id].pc.AtRetire? {
      RetireWriteKeepsShares(b, w, id, x);
    } else if w.requests[id].pc.AtRetireShare? {
      RetireShareKeepsShares(b, w, id, x);
    } else {
      OtherKeepsShares(b, w, id, x);
    }
  }

  lemma OtherKeepsShares(b: Backend, w: World, id: RequestId, x: Input)
    requires SharesOk(w) && id in w.requests && !ChangesWallets(w.requests[id].pc)
    ensures SharesOk(Advance(b, w, id, x))
  {
    OtherWallets(b, w, id, x);
    SharesStay(w, Advance(b, w, id, x));
  }

  lemma LastWithdrawKeepsSafe(b: Backend, w: World, id: RequestId, x: Input)
    requires Safe(b, w) && id in w.requests && Honest(b, w, id, x)
    ensures Safe(b, Advance(b, w, id, x))
  {
    AdvanceKeepsOk(b, w, id, x);
    assert RequestOk(b.codec, w, w.requests[id]);
    AdvanceKeepsShares(b, w, id, x);
  }

  lemma ArriveKeepsSafe(
    b: Backend, w: World, id: RequestId, user: UserId, wallet: WalletId, to: string, otp: Option<ErrorCode>, net: Provider)
    requires Safe(b, w) && id !in w.requests
    ensures Safe(b, Arrive(b, w, id, user, wallet, to, otp, net).0)
  {
    var r := ArriveShape(b, w, id, user, wallet, to, otp, net);
    if Arrive(b, w, id, user, wallet, to, otp, net).0 != w {
      JoinKeepsOk(b, w, id, r);
      SharesStay(w, w.(requests := w.requests[id := r]));
    }
  }

  lemma FinalizeKeepsOk(b: Backend, w: World, id: WalletId, row: Wallet, publicKeyC: string, sealedC: SealedShare)
    requires SystemOk(b, w)
    ensures SystemOk(b, FinalizeDkg(w, id, row, publicKeyC, sealedC))
  {
    var w' := FinalizeDkg(w, id, row, publicKeyC, sealedC);
    assert w' == w.(shares := w'.shares, finalizing := w'.finalizing);
    QuietKeepsOk(b, w, w', 0);
  }

  lemma FinalizeKeepsShares(w: World, id: WalletId, row: Wallet, publicKeyC: string, sealedC: SealedShare)
    requires SharesOk(w) && row.status == ACTIVE && row.shareB.Some?
    ensures SharesOk(FinalizeDkg(w, id, row, publicKeyC, sealedC))
  {
  }

  lemma CreateKeepsShares(w: World, id: WalletId)
    requires SharesOk(w)
    ensures SharesOk(CreateWallet(w, id))
  {
  }

  lemma DkgKeepsSafe(b: Backend, w: World, s: Step)
    requires Safe(b, w) && Enabled(b, w, s) && (s.DkgFinalize? || s.DkgCreate? || s.DkgDies?)
    ensures Safe(b, Next(b, w, s))
  {
    match s
    case DkgFinalize(id, row, key, sealed) =>
      FinalizeKeepsOk(b, w, id, row, key, sealed);
      FinalizeKeepsShares(w, id, row, key, sealed);
    case DkgCreate(id) =>
      CreateWalletKeepsOk(b, w, id);
      CreateKeepsShares(w, id);
    case DkgDies(id) =>
      ForgetKeepsOk(b, w, w.requests, w.finalizing - {id});
      SharesStay(w, w.(finalizing := w.finalizing - {id}));
  }

  lemma TickKeepsSafe(b: Backend, w: World, ms: nat)
    requires Safe(b, w)
    ensures Safe(b, w.(now := w.now + ms))
  {
    TickKeepsOk(b, w, ms);
    SharesStay(w, w.(now := w.now + ms));
  }

  lemma MineKeepsSafe(b: Backend, w: World, h: TxHash, ok: bool)
    requires Safe(b, w) && h !in w.chain
    ensures Safe(b, w.(chain := w.chain[h := ok]))
  {
    MineKeepsOk(b, w, h, ok);
    SharesStay(w, w.(chain := w.chain[h := ok]));
  }

  lemma EndKeepsSafe(b: Backend, w: World, id: RequestId)
    requires Safe(b, w)
    ensures Safe(b, End(w, id))
  {
    EndKeepsOk(b, w, id);
    SharesStay(w, End(w, id));
  }

  lemma RequestStepKeepsSafe(b: Backend, w: World, s: Step)
    requires Safe(b, w) && Enabled(b, w, s) && (s.LastWithdrawArrives? || s.LastWithdrawRuns? || s.LastWithdrawDies?)
    ensures Safe(b, Next(b, w, s))
  {
    match s
    case LastWithdrawArrives(id, user, wallet, to, otp, net) => ArriveKeepsSafe(b, w, id, user, wallet, to, otp, net);
    case LastWithdrawRuns(id, x) =>
      if id in w.requests {
        LastWithdrawKeepsSafe(b, w, id, x);
      }
    case LastWithdrawDies(id) => EndKeepsSafe(b, w, id);
  }

  lemma OutsideKeepsSafe(b: Backend, w: World, s: Step)
    requires Safe(b, w) && Enabled(b, w, s) && (s.Tick? || s.Mine?)
    ensures Safe(b, Next(b, w, s))
  {
    if s.Tick? {
      TickKeepsSafe(b, w, s.ms);
    } else {
      MineKeepsSafe(b, w, s.hash, s.success);
    }
  }

  // ---- Every step, every run ----

  lemma StepKeepsSafe(b: Backend, w: World, s: Step)
    requires Safe(b, w) && Enabled(b, w, s) && BackendOk(b)
    ensures Safe(b, Next(b, w, s))
  {
    match s
    case Ab(step) => AbStepKeepsSafe(b, w, step);
    case EmergencyStart(down, user, wallet, otp) => EmergencyStartKeepsSafe(b, w, Ledger(w.chain, down), user, wallet, otp);
    case EmergencyCancel(user, wallet) => EmergencyCancelKeepsSafe(b, w, user, wallet);
    case _ =>
      if s.LastWithdrawArrives? || s.LastWithdrawRuns? || s.LastWithdrawDies? {
        RequestStepKeepsSafe(b, w, s);
      } else if s.Tick? || s.Mine? {
        OutsideKeepsSafe(b, w, s);
      } else {
        DkgKeepsSafe(b, w, s);
      }
  }

  /** The invariant holds in every state of every admissible run, whatever the interleaving and wherever it crashes. */
  lemma {:induction false} EveryRunIsSafe(b: Backend, w: World, steps: seq<Step>)
    requires BackendOk(b) && Safe(b, w) && Admissible(b, w, steps)
    ensures Safe(b, Run(b, w, steps))
    decreases |steps|
  {
    if steps != [] {
      StepKeepsSafe(b, w, steps[0]);
      EveryRunIsSafe(b, Next(b, w, steps[0]), steps[1..]);
    }
  }
}
