/**
 * The A+B withdrawal handlers as functions of the API's state
 * (apps/api/src/mpc/sign-orchestrator.service.ts). Each handler is one step.
 */
module AbSigning {
  import opened Types
  import opened Text
  import opened Routing
  import opened SignReference
  import opened Responder
  import opened EthTransfer
  import opened Withdraws

  const SESSION_TTL_MS: nat := 600_000

  /** A signing session in the API's memory. Its step is the stage of party B. */
  datatype Session = Session(
    user: UserId, wallet: WalletId, row: nat, party: Party, digest: Digest, tx: StoredTx, address: Address, createdAt: nat)

  /** One call of broadcastTransaction by the A+B flow. */
  datatype Sent = Sent(row: nat, tx: Tx, raw: Raw)

  /** The database as the API sees it, the API's memory, and the broadcasts it has made. */
  datatype Api = Api(wallets: map<WalletId, Wallet>, rows: seq<Row>, sessions: map<SessionId, Session>, sent: seq<Sent>)

  /** What the deployment fixes: the libraries, buildEcdsaSignature and the configured token. */
  datatype Backend = Backend(
    codec: Codec, engine: SignEngine, buildSignature: (Digest, RS, Address) -> Option<Signature>, token: Option<Address>)

  ghost predicate BackendOk(b: Backend) {
    CodecOk(b.codec) && (b.token.Some? ==> b.codec.getAddress(b.token.value) == b.token)
  }

  // ---- Expiry ----

  function Expired(sessions: map<SessionId, Session>, now: nat): set<SessionId> {
    set id | id in sessions && now > sessions[id].createdAt + SESSION_TTL_MS
  }

  function ExpireRows(rows: seq<Row>, ids: set<nat>): (r: seq<Row>)
    ensures |r| == |rows|
    ensures forall i :: 0 <= i < |rows| ==>
                          r[i] == if i in ids && rows[i].status == PROCESSING then rows[i].(status := EXPIRED) else rows[i]
  {
    seq(|rows|, i requires 0 <= i < |rows| =>
        if i in ids && rows[i].status == PROCESSING then rows[i].(status := EXPIRED) else rows[i])
  }

  /** The rows of these sessions, without those whose update is lost. */
  function RowsOf(sessions: map<SessionId, Session>, ids: set<SessionId>, lost: set<SessionId>): set<nat>
    requires ids <= sessions.Keys
  {
    set id | id in ids && id !in lost :: sessions[id].row
  }

  /** Drop expired sessions; the row updates are fire-and-forget, and those in `lost` never happen. */
  function Gc(a: Api, now: nat, lost: set<SessionId>): Api {
    var dead := Expired(a.sessions, now);
    a.(sessions := a.sessions - dead,
       rows := ExpireRows(a.rows, RowsOf(a.sessions, dead, lost)))
  }

  /** A PROCESSING A+B row older than the session lifetime. */
  predicate IsStale(r: Row, w: WalletId, now: nat) {
    r.wallet == w && r.status == PROCESSING && r.metadata.NormalAb? && now > r.createdAt + SESSION_TTL_MS
  }

  function StaleRows(rows: seq<Row>, w: WalletId, now: nat): set<nat> {
    set i: nat | i < |rows| && IsStale(rows[i], w, now)
  }

  function StaleSessions(rows: seq<Row>, w: WalletId, now: nat): set<SessionId> {
    set i: nat | i < |rows| && IsStale(rows[i], w, now) :: rows[i].metadata.session
  }

  // ---- start ----

  /** A request to start, with the values drawn or looked up while it is handled. */
  datatype StartCall = StartCall(
    user: UserId, wallet: WalletId, to: string, amount: string, key: string, asset: string,
    net: Provider, session: SessionId, seed: SignState)

  datatype StartReply =
    | Signing(session: SessionId, row: nat, digest: Digest, msg1: Message, amount: nat, to: Address, tx: StoredTx, reused: bool)
    | AlreadyBroadcast(terminal: nat, status: WithdrawStatus, txHash: Option<TxHash>)
    | StartRefused(code: ErrorCode)

  /** The handling of a key that already has a row. */
  function Reuse(a: Api, user: UserId, w: WalletId, i: nat, to: Address, amount: nat, asset: Asset): (Api, StartReply)
    requires i < |a.rows|
  {
    var row := a.rows[i];
    if row.wallet != w || !row.metadata.NormalAb? then (a, StartRefused(IDEMPOTENCY_CONFLICT))
    else if row.to != to || row.amount != amount || row.metadata.asset != asset then (a, StartRefused(IDEMPOTENCY_CONFLICT))
    else
      var id := row.metadata.session;
      if IsTerminal(row.status) then (a.(sessions := a.sessions - {id}), AlreadyBroadcast(i, row.status, row.txHash))
      else if id !in a.sessions || a.sessions[id].user != user || a.sessions[id].wallet != w then
        (a, StartRefused(SIGN_SESSION_GONE))
      else if row.status != PROCESSING then (a, StartRefused(IDEMPOTENCY_CONFLICT))
      else
        var live := a.sessions[id];
        (a, Signing(id, i, live.digest, live.party.msg1, amount, to, live.tx, true))
  }

  /** The checks on the wallet row; None when the wallet may sign. */
  function WalletRefusal(a: Api, user: UserId, w: WalletId, to: Address): Option<ErrorCode> {
    if w !in a.wallets then Some(WALLET_NOT_FOUND)
    else if a.wallets[w].user != user then Some(NOT_YOUR_WALLET)
    else if a.wallets[w].status == RETIRED then Some(WALLET_RETIRED)
    else if a.wallets[w].status != ACTIVE then Some(EMERGENCY_STATE_INVALID)
    else if a.wallets[w].shareB.None? then Some(SHARE_B_MISSING)
    else if a.wallets[w].address == to then Some(INVALID_ADDRESS)
    else None
  }

  function Start(b: Backend, a0: Api, now: nat, l: Ledger, lost: set<SessionId>, q: StartCall): (Api, StartReply) {
    var a := Gc(a0, now, lost);
    if Trim(q.key) == "" then (a, StartRefused(VALIDATION_FAILED))
    else
      match b.codec.getAddress(q.to)
      case None => (a, StartRefused(INVALID_ADDRESS))
      case Some(to) =>
        match (ParseWithdrawAmountToWei(b.codec, q.amount), ParseWithdrawAsset(q.asset))
        case (Some(amount), Some(asset)) => StartValidated(b, a, now, l, q, to, amount, asset)
        case _ => (a, StartRefused(INVALID_REQUEST))
  }

  /** The wallet, the key and the prepared transfer of a well-formed request. */
  function StartValidated(b: Backend, a: Api, now: nat, l: Ledger, q: StartCall, to: Address, amount: nat, asset: Asset)
    : (Api, StartReply)
  {
    match WalletRefusal(a, q.user, q.wallet, to)
    case Some(code) => (a, StartRefused(code))
    case None =>
      match FindByKey(a.rows, Key(q.wallet, Trim(q.key)))
      case Some(i) => Reuse(a, q.user, q.wallet, i, to, amount, asset)
      case None =>
        match PrepareWithdraw(b.codec, q.net, asset, a.wallets[q.wallet].address, to, amount, b.token)
        case Err(InsufficientGas) => (a, StartRefused(INSUFFICIENT_GAS))
        case Err(_) => (a, StartRefused(INVALID_REQUEST))
        case Ok(prepared) =>
          if !Encodable(prepared.tx) then (a, StartRefused(INTERNAL_ERROR))
          else Create(b, a, now, l, q, to, amount, asset, prepared)
  }

  /** The locked transaction. A throw in it rolls the rows back, but not the sessions the expiry loop dropped. */
  function Create(
    b: Backend, a: Api, now: nat, l: Ledger, q: StartCall, to: Address, amount: nat, asset: Asset, prepared: Prepared)
    : (Api, StartReply)
    requires q.wallet in a.wallets
  {
    var sessions := a.sessions - StaleSessions(a.rows, q.wallet, now);
    match SettleNormalAb(ExpireRows(a.rows, StaleRows(a.rows, q.wallet, now)), q.wallet, l)
    case Err(code) => (a.(sessions := sessions), StartRefused(code))
    case Ok(rows) =>
      var address := a.wallets[q.wallet].address;
      var digest := b.codec.digest(prepared.tx);
      var fields := ResponseFields(prepared.tx);
      var party := Open(b.engine, PARTY_B, q.seed);
      var row := Row(q.wallet, amount, to, PROCESSING, None, now, Some(Key(q.wallet, Trim(q.key))),
                     NormalAb(q.session, prepared.feeWei, digest, address, asset));
      var session := Session(q.user, q.wallet, |rows|, party, digest, fields, address, now);
      (a.(rows := rows + [row], sessions := sessions[q.session := session]),
       Signing(q.session, |rows|, digest, party.msg1, amount, to, fields, false))
  }

  // ---- rounds ----

  datatype RoundReply = Messages(out: seq<Message>) | Accepted | RoundRefused(code: ErrorCode)

  function Owned(a: Api, user: UserId, id: SessionId): bool {
    id in a.sessions && a.sessions[id].user == user
  }

  function RoundCode(r: Refusal): ErrorCode {
    match r case UnexpectedStep => UNEXPECTED_STEP case MissingMessage => MISSING_MESSAGE case Threw => WITHDRAW_FAILED
  }

  function HandleRound(b: Backend, a0: Api, now: nat, lost: set<SessionId>, user: UserId, id: SessionId, n: nat, msgs: seq<Message>)
    : (Api, RoundReply)
  {
    var a := Gc(a0, now, lost);
    if !Owned(a, user, id) then (a, RoundRefused(SESSION_NOT_FOUND)) else Hear(b, a, id, n, msgs)
  }

  /** What a round does to its own session. */
  function Hear(b: Backend, a: Api, id: SessionId, n: nat, msgs: seq<Message>): (Api, RoundReply)
    requires id in a.sessions
  {
    var s := a.sessions[id];
    if n == 1 then
      if s.party.stage == WAIT_MSG1 && !(|msgs| == 1 && msgs[0].from == PARTY_A) then (a, RoundRefused(MISSING_MESSAGE))
      else
        match Round1(b.engine, s.party, msgs)
        case Err(e) => (a, RoundRefused(RoundCode(e)))
        case Ok((p, out)) => (a.(sessions := a.sessions[id := s.(party := p)]), Messages(out))
    else if n == 2 then
      match Round2(b.engine, s.party, msgs)
      case Err(e) => (a, RoundRefused(RoundCode(e)))
      case Ok((p, out)) => (a.(sessions := a.sessions[id := s.(party := p)]), Messages(out))
    else
      match Round3(b.engine, s.party, msgs)
      case Err(e) => (a, RoundRefused(RoundCode(e)))
      case Ok(p) => (a.(sessions := a.sessions[id := s.(party := p)]), Accepted)
  }

  // ---- complete ----

  /** How the outside calls of one complete turn out. */
  datatype Outcome = Outcome(rpcOk: bool, persisted: bool, waited: bool, failWritten: bool)

  datatype CompleteReply =
    | Withdrawn(row: nat, status: WithdrawStatus, txHash: Option<TxHash>, retried: bool)
    | CompleteRefused(code: ErrorCode)

  function FindTerminalBySession(a: Api, user: UserId, id: SessionId): (r: Option<nat>)
    ensures r.Some? ==> r.value < |a.rows| && a.rows[r.value].metadata.NormalAb?
                        && a.rows[r.value].metadata.session == id && IsTerminal(a.rows[r.value].status)
                        && a.rows[r.value].wallet in a.wallets && a.wallets[a.rows[r.value].wallet].user == user
    ensures r.None? ==> forall j :: 0 <= j < |a.rows| && a.rows[j].metadata.NormalAb? && a.rows[j].metadata.session == id
                                    && a.rows[j].wallet in a.wallets && a.wallets[a.rows[j].wallet].user == user
                                    ==> !IsTerminal(a.rows[j].status)
  {
    FirstFrom(a.rows,
              (r: Row) => r.metadata.NormalAb? && r.metadata.session == id && IsTerminal(r.status)
                          && r.wallet in a.wallets && a.wallets[r.wallet].user == user, 0)
  }

  /** Party B's last message, the combined signature and the transaction rebuilt from the stored fields. */
  function SignAsB(b: Backend, s: Session, msg4A: seq<Message>): Option<(Tx, Raw)> {
    match b.engine.last(s.party.state, s.digest)
    case None => None
    case Some((state, msg4B)) =>
      match b.engine.combine(state, FilterMessages(msg4A + [msg4B], PARTY_B))
      case None => None
      case Some(rs) =>
        match (b.buildSignature(s.digest, rs, s.address), TxFromStoredFields(b.codec, s.tx))
        case (Some(sig), Some(tx)) => Some((tx, b.codec.serialize(tx, sig)))
        case _ => None
  }

  /** Everything before signing; a reply when complete ends there. */
  function CompleteGuard(a: Api, user: UserId, id: SessionId, msg4A: seq<Message>, failWritten: bool)
    : Option<(Api, CompleteReply)>
  {
    match FindTerminalBySession(a, user, id)
    case Some(i) => Some((a, Withdrawn(i, a.rows[i].status, a.rows[i].txHash, true)))
    case None =>
      if !Owned(a, user, id) then Some((a, CompleteRefused(SESSION_NOT_FOUND)))
      else
        var s := a.sessions[id];
        if s.row < |a.rows| && IsTerminal(a.rows[s.row].status) then
          Some((a.(sessions := a.sessions - {id}), Withdrawn(s.row, a.rows[s.row].status, a.rows[s.row].txHash, true)))
        else if s.party.stage != WAIT_LAST then Some((a, CompleteRefused(UNEXPECTED_STEP)))
        else if |msg4A| < 1 then Some((a, CompleteRefused(MISSING_MESSAGE)))
        else if s.wallet !in a.wallets || a.wallets[s.wallet].status != ACTIVE then
          Some((FailRow(a.(sessions := a.sessions - {id}), s.row, failWritten), CompleteRefused(EMERGENCY_STATE_INVALID)))
        else None
  }

  function FailRow(a: Api, i: nat, written: bool): Api {
    if i < |a.rows| && a.rows[i].status == PROCESSING && written then
      a.(rows := a.rows[i := a.rows[i].(status := FAILED)])
    else a
  }

  /** The catch block. */
  function CompleteFailed(a: Api, id: SessionId, i: nat, written: bool): (Api, CompleteReply) {
    var dropped := a.(sessions := a.sessions - {id});
    if i < |a.rows| && IsTerminal(a.rows[i].status) then (dropped, Withdrawn(i, a.rows[i].status, a.rows[i].txHash, true))
    else (FailRow(dropped, i, written), CompleteRefused(WITHDRAW_FAILED))
  }

  function Complete(
    b: Backend, a0: Api, now: nat, l: Ledger, lost: set<SessionId>, user: UserId, id: SessionId, msg4A: seq<Message>, o: Outcome)
    : (Api, CompleteReply)
  {
    var a := Gc(a0, now, lost);
    match CompleteGuard(a, user, id, msg4A, o.failWritten)
    case Some(done) => done
    case None => SignAndBroadcast(b, a, l, id, msg4A, o)
  }

  /** Sign, broadcast once, and only then write BROADCASTED. */
  function SignAndBroadcast(b: Backend, a: Api, l: Ledger, id: SessionId, msg4A: seq<Message>, o: Outcome)
    : (Api, CompleteReply)
    requires id in a.sessions
  {
    var s := a.sessions[id];
    match SignAsB(b, s, msg4A)
    case None => CompleteFailed(a, id, s.row, o.failWritten)
    case Some((tx, raw)) =>
      var called := a.(sent := a.sent + [Sent(s.row, tx, raw)]);
      if !o.rpcOk || !o.persisted || s.row >= |a.rows| then CompleteFailed(called, id, s.row, o.failWritten)
      else
        var hash := b.codec.hash(raw);
        var status := if o.waited && Receipt(l, hash) == Mined(true) then EXECUTED else BROADCASTED;
        (called.(rows := a.rows[s.row := a.rows[s.row].(status := status, txHash := Some(hash))],
                 sessions := a.sessions - {id}),
         Withdrawn(s.row, status, Some(hash), false))
  }

  /** The process dies between the broadcast and the write of BROADCASTED: the row keeps its state, memory is lost. */
  function CompleteThenCrash(
    b: Backend, a0: Api, now: nat, lost: set<SessionId>, user: UserId, id: SessionId, msg4A: seq<Message>)
    : Api
  {
    var a := Gc(a0, now, lost);
    var sent := if CompleteGuard(a, user, id, msg4A, false).None? && SignAsB(b, a.sessions[id], msg4A).Some? then
                  var (tx, raw) := SignAsB(b, a.sessions[id], msg4A).value;
                  [Sent(a.sessions[id].row, tx, raw)]
                else [];
    a.(sent := a.sent + sent, sessions := map[])
  }

  function Abort(a: Api, user: UserId, id: SessionId, written: bool): Api {
    if Owned(a, user, id) then FailRow(a.(sessions := a.sessions - {id}), a.sessions[id].row, written) else a
  }
}
