/**
 * The emergency path as functions of the whole system's state: OTP start and cancel
 * (apps/api/src/wallet/emergency-recovery.service.ts) and the B+C last withdraw
 * (apps/api/src/wallet/emergency-last-withdraw.service.ts), cut at its database transactions and awaits.
 */
module LastWithdraw {
  import opened Types
  import opened EthTransfer
  import opened Withdraws
  import opened AbSigning
  import opened Shares

  /** How the token step of a request ended. */
  datatype Token = Unconfigured | NoTokens | Swept(hash: Option<TxHash>)

  function TokenHash(t: Token): Option<TxHash> {
    if t.Swept? then t.hash else None
  }

  /** The sweep a signing step belongs to. */
  datatype Leg = TokenLeg | EthLeg(token: Token)

  function AssetOf(g: Leg): Asset {
    if g.TokenLeg? then ERC20 else ETH
  }

  /** Where a last-withdraw request stands: what it does when it runs next. */
  datatype Pc =
    | AtLock
    | AtRebroadcast(row: nat, raw: Raw)
    | AtToken
    | AtCreate(leg: Leg, tx: Tx, amount: nat)
    | AtSign(leg: Leg, row: nat, tx: Tx)
    | AtMarkFailed(row: nat)
    | AtBroadcast(leg: Leg, row: nat, raw: Raw)
    | AtWait(leg: Leg, row: nat, raw: Raw)
    | AtEth(token: Token)
    | AtSkip(why: SkipReason, token: Token)
    | AtRetire(token: Token)
    | AtRetireShare

  datatype Request = Request(wallet: WalletId, to: Address, pc: Pc)

  /** One call of broadcastTransaction by the emergency flow, for the row it is stored in. */
  datatype Submission = Submission(row: nat, raw: Raw)

  datatype World = World(
    now: nat,                             // the clock
    chain: map<TxHash, bool>,             // mined receipts: true for success, false for a revert
    api: Api,                             // the API's tables, its A+B sessions and A+B broadcasts
    requests: map<RequestId, Request>,    // last-withdraw requests in flight
    submitted: seq<Submission>,           // broadcasts of the emergency flow
    shares: map<WalletId, ShareC>,        // Recovery's table
    finalizing: map<WalletId, Wallet>)    // DKG completions between Recovery's insert and the wallet insert

  // ---- OTP start and cancel ----

  /** ACTIVE to RECOVERY_PENDING behind the OTP, once no A+B withdrawal is in flight. */
  function StartEmergencyRecovery(a: Api, l: Ledger, user: UserId, w: WalletId, otp: Option<ErrorCode>)
    : (Api, Result<WalletStatus, ErrorCode>)
  {
    if w !in a.wallets then (a, Err(WALLET_NOT_FOUND))
    else
      var wallet := a.wallets[w];
      if wallet.user != user then (a, Err(NOT_YOUR_WALLET))
      else if wallet.status == RETIRED then (a, Err(WALLET_RETIRED))
      else if wallet.status == RETIRING then (a, Err(EMERGENCY_STATE_INVALID))
      else if wallet.shareB.None? then (a, Err(SHARE_B_MISSING))
      else if otp.Some? then (a, Err(otp.value))
      else
        match SettleNormalAb(a.rows, w, l)
        case Err(code) => (a, Err(code))
        case Ok(rows) =>
          (a.(rows := rows, wallets := a.wallets[w := wallet.(status := RECOVERY_PENDING)]), Ok(RECOVERY_PENDING))
  }

  function CancelEmergencyRecovery(a: Api, user: UserId, w: WalletId): (Api, Result<WalletStatus, ErrorCode>) {
    if w !in a.wallets then (a, Err(WALLET_NOT_FOUND))
    else
      var wallet := a.wallets[w];
      if wallet.user != user then (a, Err(NOT_YOUR_WALLET))
      else if wallet.status == RETIRED then (a, Err(WALLET_RETIRED))
      else if wallet.status == ACTIVE then (a, Ok(ACTIVE))
      else if wallet.status == RETIRING then (a, Err(EMERGENCY_STATE_INVALID))
      else (a.(wallets := a.wallets[w := wallet.(status := ACTIVE)]), Ok(ACTIVE))
  }

  // ---- Last withdraw ----

  /** The checks on the wallet row, before and again under the lock. */
  function LastWithdrawRefusal(wallets: map<WalletId, Wallet>, w: WalletId): Option<ErrorCode> {
    if w !in wallets then Some(WALLET_NOT_FOUND)
    else if wallets[w].status == RETIRED then Some(WALLET_RETIRED)
    else if wallets[w].status != RECOVERY_PENDING && wallets[w].status != RETIRING then Some(EMERGENCY_STATE_INVALID)
    else if wallets[w].shareB.None? then Some(SHARE_B_MISSING)
    else None
  }

  /** Everything before the lock; a request that passes is in flight. */
  function Arrive(
    b: Backend, w: World, id: RequestId, user: UserId, wallet: WalletId, toRaw: string, otp: Option<ErrorCode>, net: Provider)
    : (World, Option<ErrorCode>)
  {
    match b.codec.getAddress(toRaw)
    case None => (w, Some(INVALID_ADDRESS))
    case Some(to) =>
      if wallet !in w.api.wallets then (w, Some(WALLET_NOT_FOUND))
      else if w.api.wallets[wallet].user != user then (w, Some(NOT_YOUR_WALLET))
      else if LastWithdrawRefusal(w.api.wallets, wallet).Some? then (w, LastWithdrawRefusal(w.api.wallets, wallet))
      else if w.api.wallets[wallet].address == to then (w, Some(INVALID_ADDRESS))
      else if otp.Some? then (w, otp)
      else
        match TokenGasRefusal(b, w, wallet, to, net)
        case Some(code) => (w, Some(code))
        case None => (w.(requests := w.requests[id := Request(wallet, to, AtLock)]), None)
  }

  /** A token sweep that still has to be signed needs gas; an empty token balance does not. */
  function TokenGasRefusal(b: Backend, w: World, wallet: WalletId, to: Address, net: Provider): Option<ErrorCode>
    requires wallet in w.api.wallets
  {
    if b.token.None? then None
    else
      var latest := FindLatestEmergencyBc(w.api.rows, wallet, ERC20);
      if latest.Some? && IsTerminal(w.api.rows[latest.value].status) then None
      else
        match PrepareErc20FullBalanceTransfer(b.codec, net, w.api.wallets[wallet].address, to, b.token.value)
        case Ok(_) => None
        case Err(ZeroTokenBalance) => None
        case Err(InsufficientGas) => Some(INSUFFICIENT_GAS)
        case Err(_) => Some(INVALID_REQUEST)
  }

  /** What the outside answers while a request takes one step. */
  datatype Input = Input(down: set<TxHash>, net: Provider, signature: Option<Signature>, ok: bool)

  function End(w: World, id: RequestId): World {
    w.(requests := w.requests - {id})
  }

  function Move(w: World, id: RequestId, pc: Pc): World
    requires id in w.requests
  {
    w.(requests := w.requests[id := w.requests[id].(pc := pc)])
  }

  function WithRows(w: World, rows: seq<Row>): World {
    w.(api := w.api.(rows := rows))
  }

  function WithStatus(w: World, wallet: WalletId, status: WalletStatus): World
    requires wallet in w.api.wallets
  {
    w.(api := w.api.(wallets := w.api.wallets[wallet := w.api.wallets[wallet].(status := status)]))
  }

  /** The row with another status, if there is such a row. */
  function SetStatus(rows: seq<Row>, i: nat, status: WithdrawStatus): seq<Row> {
    if i < |rows| then rows[i := rows[i].(status := status)] else rows
  }

  /** The next leg once one is EXECUTED. */
  function After(g: Leg, hash: Option<TxHash>): Pc {
    match g case TokenLeg => AtEth(Swept(hash)) case EthLeg(token) => AtRetire(token)
  }

  /** Under the wallet lock: settle both flows, and leave RECOVERY_PENDING for good. */
  function StepLock(w: World, id: RequestId, x: Input): World
    requires id in w.requests
  {
    var wallet := w.requests[id].wallet;
    var l := Ledger(w.chain, x.down);
    if LastWithdrawRefusal(w.api.wallets, wallet).Some? then End(w, id)
    else
      match SettleNormalAb(w.api.rows, wallet, l)
      case Err(_) => End(w, id)
      case Ok(rows) =>
        match SettleEmergency(rows, wallet, l, w.now)
        case Thrown(_) => End(w, id)
        case Clear(rows') => Move(WithStatus(WithRows(w, rows'), wallet, RETIRING), id, AtToken)
        case Rebroadcast(rows', i, _, raw) =>
          Move(WithStatus(WithRows(w, rows'), wallet, RETIRING), id, AtRebroadcast(i, raw))
  }

  /** A request that goes on to `next`, or ends. */
  function Proceed(w: World, id: RequestId, next: Option<Pc>): World
    requires id in w.requests
  {
    match next case None => End(w, id) case Some(pc) => Move(w, id, pc)
  }

  /** The token step: nothing to sweep, swept already, or a sweep to sign. */
  function AfterToken(b: Backend, a: Api, r: Request, net: Provider): Option<Pc> {
    if b.token.None? then Some(AtEth(Unconfigured))
    else
      var latest := FindLatestEmergencyBc(a.rows, r.wallet, ERC20);
      if latest.Some? && a.rows[latest.value].status == EXECUTED then Some(AtEth(Swept(a.rows[latest.value].txHash)))
      else if r.wallet !in a.wallets then None
      else
        match PrepareErc20FullBalanceTransfer(b.codec, net, a.wallets[r.wallet].address, r.to, b.token.value)
        case Err(ZeroTokenBalance) => Some(AtEth(NoTokens))
        case Err(_) => None
        case Ok(p) => Some(AtCreate(TokenLeg, p.tx, net.tokenBalance))
  }

  function StepToken(b: Backend, w: World, id: RequestId, x: Input): World
    requires id in w.requests
  {
    Proceed(w, id, AfterToken(b, w.api, w.requests[id], x.net))
  }

  function NewBcRow(now: nat, r: Request, g: Leg, amount: nat): Row {
    Row(r.wallet, amount, r.to, PROCESSING, None, now, None,
        EmergencyBc(AssetOf(g), None, None, if g.EthLeg? then TokenHash(g.token) else None))
  }

  /** What the transaction that creates a PROCESSING row comes to; None rolls it back. */
  datatype Created = AlreadyExecuted(rows: seq<Row>, hash: Option<TxHash>) | NewRow(rows: seq<Row>, row: nat)

  /** A new row, unless one is open or the asset is already EXECUTED. */
  function CreateRow(rows0: seq<Row>, r: Request, g: Leg, amount: nat, l: Ledger, now: nat): Option<Created> {
    match SettleEmergency(rows0, r.wallet, l, now)
    case Thrown(_) => None
    case Rebroadcast(_, _, _, _) => None
    case Clear(rows) =>
      var latest := FindLatestEmergencyBc(rows, r.wallet, AssetOf(g));
      if latest.Some? && rows[latest.value].status == EXECUTED then Some(AlreadyExecuted(rows, rows[latest.value].txHash))
      else if latest.Some? && IsOpen(rows[latest.value].status) then None
      else Some(NewRow(rows + [NewBcRow(now, r, g, amount)], |rows|))
  }

  function StepCreate(w: World, id: RequestId, x: Input): World
    requires id in w.requests && w.requests[id].pc.AtCreate?
  {
    var r := w.requests[id];
    match CreateRow(w.api.rows, r, r.pc.leg, r.pc.amount, Ledger(w.chain, x.down), w.now)
    case None => End(w, id)
    case Some(AlreadyExecuted(rows, hash)) => Move(WithRows(w, rows), id, After(r.pc.leg, hash))
    case Some(NewRow(rows, i)) => Move(WithRows(w, rows), id, AtSign(r.pc.leg, i, r.pc.tx))
  }

  /** Sign and persist BROADCASTED with the raw, or look at the row before giving it up. */
  function StepSign(b: Backend, w: World, id: RequestId, x: Input): World
    requires id in w.requests && w.requests[id].pc.AtSign?
  {
    var pc := w.requests[id].pc;
    var i := pc.row;
    if i >= |w.api.rows| || !w.api.rows[i].metadata.EmergencyBc? then End(w, id)
    else
      match x.signature
      case None => if w.api.rows[i].status == PROCESSING then Move(w, id, AtMarkFailed(i)) else End(w, id)
      case Some(sig) =>
        var raw := b.codec.serialize(pc.tx, sig);
        var row := w.api.rows[i].(status := BROADCASTED, txHash := Some(b.codec.hash(raw)),
                                  metadata := w.api.rows[i].metadata.(signedRaw := Some(raw)));
        Move(WithRows(w, w.api.rows[i := row]), id, AtBroadcast(pc.leg, i, raw))
  }

  /** The ETH step: done already, a sweep to sign, or a skip on a zero balance or on dust after a token sweep. */
  function AfterEth(a: Api, r: Request, net: Provider, token: Token): Option<Pc> {
    var latest := FindLatestEmergencyBc(a.rows, r.wallet, ETH);
    if latest.Some? && a.rows[latest.value].status == EXECUTED then Some(AtRetire(token))
    else if r.wallet !in a.wallets then None
    else
      match PrepareFullBalanceTransfer(net, a.wallets[r.wallet].address, r.to)
      case Ok(p) => Some(AtCreate(EthLeg(token), p.tx, p.valueWei))
      case Err(ZeroBalance) => Some(AtSkip(ZERO_BALANCE, token))
      case Err(BalanceBelowFee) => if TokenHash(token).Some? then Some(AtSkip(ETH_DUST, token)) else None
      case Err(_) => None
  }

  function StepEth(w: World, id: RequestId, x: Input, token: Token): World
    requires id in w.requests
  {
    Proceed(w, id, AfterEth(w.api, w.requests[id], x.net, token))
  }

  function SkippedRow(w: World, r: Request, why: SkipReason, token: Token): Row {
    Row(r.wallet, 0, r.to, EXECUTED, None, w.now, None, EmergencyBc(ETH, None, Some(why), TokenHash(token)))
  }

  function Retired(w: World, wallet: WalletId): World
    requires wallet in w.api.wallets
  {
    w.(api := w.api.(wallets := w.api.wallets[wallet := w.api.wallets[wallet].(status := RETIRED, shareB := None)]))
  }

  /** One step of a request in flight. */
  function Advance(b: Backend, w: World, id: RequestId, x: Input): World
    requires id in w.requests
  {
    var r := w.requests[id];
    match r.pc
    case AtLock => StepLock(w, id, x)
    case AtRebroadcast(i, raw) => End(w.(submitted := w.submitted + [Submission(i, raw)]), id)
    case AtToken => StepToken(b, w, id, x)
    case AtCreate(_, _, _) => StepCreate(w, id, x)
    case AtSign(_, _, _) => StepSign(b, w, id, x)
    case AtMarkFailed(i) => End(WithRows(w, SetStatus(w.api.rows, i, FAILED)), id)
    case AtBroadcast(g, i, raw) =>
      var called := w.(submitted := w.submitted + [Submission(i, raw)]);
      if x.ok then Move(called, id, AtWait(g, i, raw)) else End(called, id)
    case AtWait(g, i, raw) =>
      if x.ok then Move(WithRows(w, SetStatus(w.api.rows, i, EXECUTED)), id, After(g, Some(b.codec.hash(raw)))) else End(w, id)
    case AtEth(token) => StepEth(w, id, x, token)
    case AtSkip(why, token) =>
      Move(WithRows(w, w.api.rows + [SkippedRow(w, r, why, token)]), id, AtRetire(token))
    case AtRetire(_) => if r.wallet in w.api.wallets then Move(Retired(w, r.wallet), id, AtRetireShare) else End(w, id)
    case AtRetireShare => End(if x.ok then w.(shares := Apply(w.shares, DoRetire(r.wallet))) else w, id)
  }
}
