/**
 * What the A+B handlers must answer and write, in every reachable state: a used key is answered, a new one opens a
 * session exactly when the wallet is free and can pay, and completion, abort and expiry close what they should.
 */
module Answers {
  import opened Types
  import opened Text
  import opened Routing
  import opened SignReference
  import opened Responder
  import opened EthTransfer
  import opened Withdraws
  import opened AbSigning
  import opened AbInvariant
  import opened Idempotency
  import opened LastWithdraw
  import opened BcInvariant
  import opened System
  import opened History
  import opened Guarantees
  import opened Receipts

  // ---- Expiry ----

  /** The session is in memory and not older than ten minutes. */
  predicate Alive(a: Api, id: SessionId, now: nat) {
    id in a.sessions && now <= a.sessions[id].createdAt + 600_000
  }

  /** Every handler first forgets sessions older than ten minutes, and closes their PROCESSING rows unless that write is lost. */
  lemma ExpiryMeans(a: Api, now: nat, lost: set<SessionId>)
    ensures var g := Gc(a, now, lost);
            && g.wallets == a.wallets && g.sent == a.sent && |g.rows| == |a.rows|
            && (forall id :: id in g.sessions <==> Alive(a, id, now))
            && (forall id :: id in g.sessions ==> g.sessions[id] == a.sessions[id])
            && forall i: nat :: i < |a.rows| ==>
                 if a.rows[i].status == PROCESSING
                    && exists id :: id in a.sessions && a.sessions[id].row == i && !Alive(a, id, now) && id !in lost
                 then g.rows[i] == a.rows[i].(status := EXPIRED)
                 else g.rows[i] == a.rows[i]
  {
    var dead := Expired(a.sessions, now);
    forall i: nat | i < |a.rows|
      ensures i in RowsOf(a.sessions, dead, lost) <==>
              exists id :: id in a.sessions && a.sessions[id].row == i && !Alive(a, id, now) && id !in lost
    {
      if id :| id in a.sessions && a.sessions[id].row == i && !Alive(a, id, now) && id !in lost {
        assert id in dead;
      }
      if i in RowsOf(a.sessions, dead, lost) {
        var id :| id in dead && id !in lost && a.sessions[id].row == i;
      }
    }
  }

  /** The row of a session that has grown too old. */
  ghost predicate Abandoned(a: Api, i: nat, now: nat) {
    exists id :: id in a.sessions && a.sessions[id].row == i && !Alive(a, id, now)
  }

  /** The row is as it was, or its PROCESSING has expired with its session. */
  ghost predicate AtMostExpires(a: Api, i: nat, r: Row, now: nat)
    requires i < |a.rows|
  {
    r == a.rows[i] || (a.rows[i].status == PROCESSING && Abandoned(a, i, now) && r == a.rows[i].(status := EXPIRED))
  }

  /** Nothing happened but expiry. */
  ghost predicate OnlyExpiry(a: Api, a': Api, now: nat) {
    && a'.wallets == a.wallets && a'.sent == a.sent && |a'.rows| == |a.rows|
    && (forall id :: id in a'.sessions <==> Alive(a, id, now))
    && (forall id :: id in a'.sessions ==> a'.sessions[id] == a.sessions[id])
    && forall i: nat :: i < |a.rows| ==> AtMostExpires(a, i, a'.rows[i], now)
  }

  lemma AbandonedIsOld(b: Backend, a: Api, i: nat, now: nat)
    requires ApiOk(b, a, now) && Abandoned(a, i, now)
    ensures i < |a.rows| && now > a.rows[i].createdAt + 600_000
  {
    var id :| id in a.sessions && a.sessions[id].row == i && !Alive(a, id, now);
    assert SessionOk(a.wallets, a.rows, id, a.sessions[id], now);
  }

  lemma ExpiryIsAll(a: Api, now: nat, lost: set<SessionId>)
    ensures OnlyExpiry(a, Gc(a, now, lost), now)
  {
    ExpiryMeans(a, now, lost);
    var g := Gc(a, now, lost);
    forall i: nat | i < |a.rows| ensures AtMostExpires(a, i, g.rows[i], now) {
      if g.rows[i] != a.rows[i] {
        var id :| id in a.sessions && a.sessions[id].row == i && !Alive(a, id, now) && id !in lost;
        assert Abandoned(a, i, now);
      }
    }
  }

  lemma GcIsOnlyExpiry(b: Backend, a: Api, now: nat, lost: set<SessionId>)
    requires ApiOk(b, a, now)
    ensures OnlyExpiry(a, Gc(a, now, lost), now)
    ensures forall id :: Alive(a, id, now) ==>
              var i := a.sessions[id].row; i < |a.rows| && Gc(a, now, lost).rows[i] == a.rows[i] && a.rows[i].status == PROCESSING
  {
    ExpiryIsAll(a, now, lost);
    forall id | Alive(a, id, now)
      ensures var i := a.sessions[id].row; i < |a.rows| && Gc(a, now, lost).rows[i] == a.rows[i] && a.rows[i].status == PROCESSING
    {
      LiveRowStays(b, a, now, lost, id);
    }
  }

  lemma LiveRowStays(b: Backend, a: Api, now: nat, lost: set<SessionId>, id: SessionId)
    requires ApiOk(b, a, now) && Alive(a, id, now)
    ensures var i := a.sessions[id].row; i < |a.rows| && Gc(a, now, lost).rows[i] == a.rows[i] && a.rows[i].status == PROCESSING
  {
    assert SessionOk(a.wallets, a.rows, id, a.sessions[id], now);
    LiveRowSurvives(b, a, now, lost, id);
  }

  // ---- start on a used key ----

  /** The caller may withdraw from the wallet. */
  predicate MayWithdraw(a: Api, user: UserId, w: WalletId) {
    w in a.wallets && a.wallets[w].user == user && a.wallets[w].status == ACTIVE
  }

  /** The session a row was created with, while it can still be signed with. */
  predicate LiveSession(a: Api, r: Row, now: nat) {
    r.metadata.NormalAb? && r.status == PROCESSING && Alive(a, r.metadata.session, now)
  }

  /** The answer to a key whose row `i` asks for the same: its hash, its session, or to start again with a new key. */
  predicate AnswerFor(a: Api, now: nat, i: nat, r: StartReply)
    requires i < |a.rows|
  {
    var row := a.rows[i];
    if row.status in {BROADCASTED, EXECUTED} then r == AlreadyBroadcast(i, row.status, row.txHash)
    else if LiveSession(a, row, now) then
      var s := a.sessions[row.metadata.session];
      r == Signing(row.metadata.session, i, s.digest, s.party.msg1, row.amount, row.to, s.tx, true)
    else r == StartRefused(SIGN_SESSION_GONE)
  }

  lemma GcKeepsRow(b: Backend, a: Api, now: nat, lost: set<SessionId>, i: nat)
    requires ApiOk(b, a, now) && IsAb(a.rows, i)
    ensures var g := Gc(a, now, lost);
            && |g.rows| == |a.rows| && g.rows[i] == a.rows[i].(status := g.rows[i].status)
            && (a.rows[i].status != PROCESSING || LiveSession(a, a.rows[i], now) ==> g.rows[i] == a.rows[i])
            && (a.rows[i].status == PROCESSING ==> g.rows[i].status in {PROCESSING, EXPIRED})
            && (a.rows[i].metadata.session in g.sessions <==> LiveSession(a, a.rows[i], now))
            && (LiveSession(a, a.rows[i], now) ==>
                  var s := a.sessions[a.rows[i].metadata.session];
                  g.sessions[a.rows[i].metadata.session] == s && s.row == i && s.wallet == a.rows[i].wallet
                  && a.wallets[s.wallet].user == s.user)
  {
    ExpiryMeans(a, now, lost);
    var id := a.rows[i].metadata.session;
    if id in a.sessions {
      assert SessionOk(a.wallets, a.rows, id, a.sessions[id], now);
    }
    forall x | x in a.sessions && a.sessions[x].row == i ensures x == id {
      assert SessionOk(a.wallets, a.rows, x, a.sessions[x], now);
    }
  }

  lemma SessionIsOfRow(b: Backend, g: Api, now: nat, i: nat)
    requires ApiOk(b, g, now) && IsAb(g.rows, i) && g.rows[i].metadata.session in g.sessions
    ensures var s := g.sessions[g.rows[i].metadata.session];
            && g.rows[i].status == PROCESSING && s.row == i && s.wallet == g.rows[i].wallet && s.wallet in g.wallets
            && s.user == g.wallets[s.wallet].user
  {
    var id := g.rows[i].metadata.session;
    assert SessionOk(g.wallets, g.rows, id, g.sessions[id], now);
    assert IsAb(g.rows, g.sessions[id].row);
  }

  /** Reusing a row, once expiry has been done. */
  lemma ReuseMeans(b: Backend, g: Api, q: StartCall, i: nat)
    requires IsAb(g.rows, i) && g.rows[i].wallet == q.wallet && MayWithdraw(g, q.user, q.wallet)
    requires g.rows[i].metadata.session in g.sessions ==>
               && g.sessions[g.rows[i].metadata.session].user == q.user && g.sessions[g.rows[i].metadata.session].wallet == q.wallet
               && g.rows[i].status == PROCESSING
    ensures var (g', r) := Reuse(g, q.user, q.wallet, i, g.rows[i].to, g.rows[i].amount, g.rows[i].metadata.asset);
            && g' == g
            && if g.rows[i].status in {BROADCASTED, EXECUTED} then r == AlreadyBroadcast(i, g.rows[i].status, g.rows[i].txHash)
            else if g.rows[i].metadata.session in g.sessions then
              var s := g.sessions[g.rows[i].metadata.session];
              r == Signing(g.rows[i].metadata.session, i, s.digest, s.party.msg1, g.rows[i].amount, g.rows[i].to, s.tx, true)
            else r == StartRefused(SIGN_SESSION_GONE)
  {
  }

  lemma StartReuses(b: Backend, g: Api, now: nat, l: Ledger, q: StartCall, i: nat)
    requires ApiOk(b, g, now) && IsAb(g.rows, i) && Asks(b, q, g.rows[i]) && MayWithdraw(g, q.user, q.wallet)
    requires g.wallets[q.wallet].shareB.Some? && g.wallets[q.wallet].address != g.rows[i].to
    ensures var to, amount, asset := g.rows[i].to, g.rows[i].amount, g.rows[i].metadata.asset;
            StartValidated(b, g, now, l, q, to, amount, asset) == Reuse(g, q.user, q.wallet, i, to, amount, asset)
  {
    var found := FindByKey(g.rows, Key(q.wallet, Trim(q.key)));
    KeyHasOneRow(b, g, now, i, found.value);
  }

  lemma StartAnswersRow(b: Backend, a: Api, now: nat, l: Ledger, lost: set<SessionId>, q: StartCall, i: nat)
    requires ApiOk(b, a, now) && IsAb(a.rows, i) && Asks(b, q, a.rows[i]) && MayWithdraw(a, q.user, q.wallet)
    requires Trim(q.key) != "" && a.wallets[q.wallet].shareB.Some? && a.wallets[q.wallet].address != a.rows[i].to
    ensures AnswerFor(a, now, i, Start(b, a, now, l, lost, q).1) && OnlyExpiry(a, Start(b, a, now, l, lost, q).0, now)
  {
    var g := Gc(a, now, lost);
    GcKeepsOk(b, a, now, lost);
    GcKeepsRow(b, a, now, lost, i);
    GcIsOnlyExpiry(b, a, now, lost);
    AmountIsTyped(b.codec, q.amount);
    AssetIsTyped(q.asset);
    StartReuses(b, g, now, l, q, i);
    if g.rows[i].metadata.session in g.sessions {
      SessionIsOfRow(b, g, now, i);
    }
    ReuseMeans(b, g, q, i);
  }

  /**
   * The owner of an ACTIVE wallet who repeats a start gets the row's answer: once broadcast its status and hash, while
   * its session lives that session, and otherwise to start again with a new key.
   */
  lemma UsedKeyIsAnswered(b: Backend, w: World, l: Ledger, lost: set<SessionId>, q: StartCall, i: nat)
    requires BackendOk(b) && Reachable(b, w) && MayWithdraw(w.api, q.user, q.wallet) && Trim(q.key) != ""
    requires i < |w.api.rows| && Asks(b, q, w.api.rows[i])
    ensures AnswerFor(w.api, w.now, i, Start(b, w.api, w.now, l, lost, q).1)
    ensures OnlyExpiry(w.api, Start(b, w.api, w.now, l, lost, q).0, w.now)
  {
    ReachableTable(b, w);
    assert w.api.rows[i].wallet == q.wallet;
    assert NotToItself(w.api.rows[i], w.api.wallets);
    assert WalletsOk(w.api.wallets, w.api.rows);
    StartAnswersRow(b, w.api, w.now, l, lost, q, i);
  }

  /** A broadcast withdrawal stays one: what becomes of it is what the chain did. */
  lemma BroadcastRowLater(b: Backend, w: World, steps: seq<Step>, i: nat)
    requires BackendOk(b) && Reachable(b, w) && Admissible(b, w, steps) && IsAb(w.api.rows, i) && IsTerminal(w.api.rows[i].status)
    ensures var r, w' := w.api.rows[i], Run(b, w, steps);
            && IsAb(w'.api.rows, i) && w'.api.rows[i] == r.(status := w'.api.rows[i].status) && r.txHash.Some?
            && (w'.api.rows[i].status in {BROADCASTED, EXECUTED}
                || (r.txHash.value in w'.chain && !w'.chain[r.txHash.value]))
  {
    var w' := Run(b, w, steps);
    ReachableTable(b, w);
    RunLater(b, w, steps);
    RunReached(b, w, steps);
    ReachableTable(b, w');
    BroadcastStays(w.api.rows, w'.api.rows, w.api.wallets, w'.api.wallets, w.chain, w'.chain, i);
  }

  lemma BroadcastStays(
    rows: seq<Row>, rows': seq<Row>, wallets: map<WalletId, Wallet>, wallets': map<WalletId, Wallet>, chain: map<TxHash, bool>,
    chain': map<TxHash, bool>, i: nat)
    requires RowsLater(rows, rows') && TableOk(rows, wallets, chain) && TableOk(rows', wallets', chain')
    requires IsAb(rows, i) && IsTerminal(rows[i].status)
    ensures IsAb(rows', i) && rows'[i] == rows[i].(status := rows'[i].status) && rows[i].txHash.Some?
    ensures rows'[i].status in {BROADCASTED, EXECUTED} || (rows[i].txHash.value in chain' && !chain'[rows[i].txHash.value])
  {
    assert RowLater(rows[i], rows'[i]) && ReceiptOk(rows[i], chain) && ReceiptOk(rows'[i], chain');
  }

  lemma HashOrReverted(a: Api, now: nat, i: nat, r: StartReply, h: TxHash, chain: map<TxHash, bool>)
    requires IsAb(a.rows, i) && AnswerFor(a, now, i, r) && a.rows[i].txHash == Some(h) && ReceiptOk(a.rows[i], chain)
    requires a.rows[i].status in {BROADCASTED, EXECUTED} || (h in chain && !chain[h])
    ensures (r.AlreadyBroadcast? && r.terminal == i && r.txHash == Some(h))
            || (r == StartRefused(SIGN_SESSION_GONE) && h in chain && !chain[h])
  {
  }

  /**
   * Over runs: once row `i` was written BROADCASTED with hash `h`, every later start of the owner with that key and that
   * request answers `h`, as long as the wallet is ACTIVE; it says "start again" only when the chain has reverted `h`.
   */
  lemma LaterStartAnswersTheHash(
    b: Backend, w: World, steps: seq<Step>, i: nat, h: TxHash, l: Ledger, lost: set<SessionId>, q: StartCall)
    requires BackendOk(b) && Reachable(b, w) && Admissible(b, w, steps) && Trim(q.key) != ""
    requires IsAb(w.api.rows, i) && w.api.rows[i].status in {BROADCASTED, EXECUTED} && w.api.rows[i].txHash == Some(h)
    requires Asks(b, q, w.api.rows[i]) && MayWithdraw(Run(b, w, steps).api, q.user, q.wallet)
    ensures var w' := Run(b, w, steps);
            var r := Start(b, w'.api, w'.now, l, lost, q).1;
            || (r.AlreadyBroadcast? && r.terminal == i && r.txHash == Some(h))
            || (r == StartRefused(SIGN_SESSION_GONE) && h in w'.chain && !w'.chain[h])
  {
    var w' := Run(b, w, steps);
    BroadcastRowLater(b, w, steps, i);
    RunReached(b, w, steps);
    UsedKeyIsAnswered(b, w', l, lost, q, i);
    ReachableTable(b, w');
    HashOrReverted(w'.api, w'.now, i, Start(b, w'.api, w'.now, l, lost, q).1, h, w'.chain);
  }

  // ---- start on a new key ----

  /** An open A+B row start can close: unsent for more than ten minutes, or broadcast and with a receipt. */
  predicate Closable(r: Row, l: Ledger, now: nat) {
    (r.status == PROCESSING && now > r.createdAt + 600_000) || Settleable(r, l)
  }

  ghost predicate WalletFree(rows: seq<Row>, w: WalletId, l: Ledger, now: nat) {
    forall i: nat :: i < |rows| && OpenAb(rows[i], w) ==> Closable(rows[i], l, now)
  }

  /** What closing it writes. */
  predicate ClosedAs(r: Row, r': Row, l: Ledger) {
    if r.status == PROCESSING then r' == r.(status := EXPIRED) else SettledAs(r, r', l)
  }

  /** Expiry and settlement inside start's transaction. */
  lemma ClosingMeans(rows: seq<Row>, wallets: map<WalletId, Wallet>, w: WalletId, l: Ledger, now: nat)
    requires OpenOk(wallets, rows)
    ensures var s := SettleNormalAb(ExpireRows(rows, StaleRows(rows, w, now)), w, l);
            && (s.Ok? <==> WalletFree(rows, w, l, now))
            && (s.Ok? ==>
                  && |s.value| == |rows|
                  && forall i: nat :: i < |rows| ==>
                                        if OpenAb(rows[i], w) then ClosedAs(rows[i], s.value[i], l) else s.value[i] == rows[i])
            && (s.Err? ==>
                  exists i: nat :: i < |rows| && OpenAb(rows[i], w) && !Closable(rows[i], l, now)
                                   && s.error == if rows[i].status == PROCESSING then SIGN_SESSION_BUSY else TRANSACTION_PENDING)
  {
    var expired := ExpireRows(rows, StaleRows(rows, w, now));
    var open := FindOpenNormalAb(expired, w);
    forall i: nat | i < |rows| && OpenAb(rows[i], w) ensures OpenAb(expired[i], w) <==> !IsStale(rows[i], w, now) {
    }
    if open.Some? {
      AbSettlementMeans(expired, w, l, open.value);
      assert OpenAb(rows[open.value], w) && expired[open.value] == rows[open.value];
      forall j: nat | j < |rows| && OpenAb(rows[j], w) ensures j == open.value {
      }
    } else {
      NoOpenAbIsClear(expired, w, l);
    }
  }

  /** The new withdrawal's row, session and answer, all of one transaction. */
  predicate Opened(b: Backend, q: StartCall, now: nat, i: nat, row: Row, s: Session, r: StartReply, from: Address, tx: Tx) {
    var digest, party := b.codec.digest(tx), Open(b.engine, PARTY_B, q.seed);
    && row.metadata.NormalAb?
    && row == Row(q.wallet, row.amount, row.to, PROCESSING, None, now, Some(Key(q.wallet, Trim(q.key))),
                  NormalAb(q.session, tx.gasLimit * tx.maxFeePerGas, digest, from, row.metadata.asset))
    && TxFromStoredFields(b.codec, s.tx) == Some(tx)
    && s == Session(q.user, q.wallet, i, party, digest, s.tx, from, now)
    && r == Signing(q.session, i, digest, party.msg1, row.amount, row.to, s.tx, false)
  }

  /** The requested transfer, at the provider's next nonce and fees. */
  predicate AskedTx(b: Backend, net: Provider, asset: Asset, to: Address, amount: nat, tx: Tx) {
    && IsTransfer(b.codec, tx, asset, to, amount, b.token) && Priced(net, tx)
    && if asset.ETH? then tx.gasLimit == 21_000 else TokenGas(net.estimateGas, tx.gasLimit)
  }

  /** The locked transaction of start goes through exactly on a free wallet, and closes its open row. */
  lemma CreateCloses(b: Backend, g: Api, now: nat, l: Ledger, q: StartCall, to: Address, amount: nat, asset: Asset, p: Prepared)
    requires OpenOk(g.wallets, g.rows) && q.wallet in g.wallets
    ensures var (a', r) := Create(b, g, now, l, q, to, amount, asset, p);
            && a'.wallets == g.wallets && a'.sent == g.sent && DropsOnly(g, a', q, now, r.Signing?)
            && (r.Signing? <==> WalletFree(g.rows, q.wallet, l, now))
            && (r.Signing? ==>
                  && |a'.rows| == |g.rows| + 1
                  && forall i: nat :: i < |g.rows| ==>
                       if OpenAb(g.rows[i], q.wallet) then ClosedAs(g.rows[i], a'.rows[i], l) else a'.rows[i] == g.rows[i])
            && (!r.Signing? ==>
                  && a'.rows == g.rows
                  && r.StartRefused?
                  && exists i: nat :: i < |g.rows| && OpenAb(g.rows[i], q.wallet) && !Closable(g.rows[i], l, now)
                                      && r.code == if g.rows[i].status == PROCESSING then SIGN_SESSION_BUSY else TRANSACTION_PENDING)
  {
    ClosingMeans(g.rows, g.wallets, q.wallet, l, now);
  }

  /** It adds the new row and session. */
  lemma CreateOpens(b: Backend, g: Api, now: nat, l: Ledger, q: StartCall, to: Address, amount: nat, asset: Asset, p: Prepared)
    requires BackendOk(b) && q.wallet in g.wallets && b.codec.getAddress(to) == Some(to)
    requires PrepareWithdraw(b.codec, q.net, asset, g.wallets[q.wallet].address, to, amount, b.token) == Ok(p) && Encodable(p.tx)
    requires Create(b, g, now, l, q, to, amount, asset, p).1.Signing?
    requires |Create(b, g, now, l, q, to, amount, asset, p).0.rows| == |g.rows| + 1
    ensures var (a', r) := Create(b, g, now, l, q, to, amount, asset, p);
            && q.session in a'.sessions
            && AskedTx(b, q.net, asset, to, amount, p.tx)
            && var row := a'.rows[|g.rows|];
               && row.amount == amount && row.to == to
               && Opened(b, q, now, |g.rows|, row, a'.sessions[q.session], r, g.wallets[q.wallet].address, p.tx)
               && row.metadata.asset == asset
  {
    PreparedIsTheTransfer(b.codec, q.net, asset, g.wallets[q.wallet].address, to, amount, b.token);
    StoredFieldsRebuild(b.codec, p.tx);
  }

  /** The typed request reads as this recipient, amount and asset. */
  predicate ReadsAs(b: Backend, q: StartCall, to: Address, amount: nat, asset: Asset) {
    b.codec.getAddress(q.to) == Some(to) && TypedAmount(b.codec, q.amount, amount) && TypedAsset(q.asset, asset)
  }

  /** A row that expiry has changed was too old to matter. */
  ghost predicate ChangedIsOld(a: Api, g: Api, now: nat) {
    |g.rows| == |a.rows| && forall i: nat :: i < |a.rows| ==> g.rows[i] == a.rows[i] || now > a.rows[i].createdAt + 600_000
  }

  /** Expiry does not change which wallets are free, nor what closing a row comes to. */
  lemma FreeAfterExpiry(b: Backend, a: Api, g: Api, now: nat, w: WalletId, l: Ledger)
    requires ApiOk(b, a, now) && OnlyExpiry(a, g, now)
    ensures ChangedIsOld(a, g, now)
    ensures WalletFree(g.rows, w, l, now) <==> WalletFree(a.rows, w, l, now)
  {
    forall i: nat | i < |a.rows| && g.rows[i] != a.rows[i] ensures now > a.rows[i].createdAt + 600_000 {
      assert AtMostExpires(a, i, g.rows[i], now);
      AbandonedIsOld(b, a, i, now);
    }
    forall i: nat | i < |a.rows| && OpenAb(a.rows[i], w) && !Closable(a.rows[i], l, now) ensures g.rows[i] == a.rows[i] {
      assert AtMostExpires(a, i, g.rows[i], now);
    }
    forall i: nat | i < |a.rows| && OpenAb(g.rows[i], w) ensures g.rows[i] == a.rows[i] {
      assert AtMostExpires(a, i, g.rows[i], now);
    }
  }

  /** What a start with a new key comes to once expiry has been done. */
  lemma NewKeyShape(
    b: Backend, g: Api, now: nat, l: Ledger, q: StartCall, to: Address, amount: nat, asset: Asset, priority: nat, cap: nat, limit: nat)
    requires CodecOk(b.codec) && FeesAre(q.net.feeData, priority, cap) && TokenGas(q.net.estimateGas, limit)
    requires MayWithdraw(g, q.user, q.wallet) && g.wallets[q.wallet].shareB.Some? && g.wallets[q.wallet].address != to
    requires forall i :: 0 <= i < |g.rows| ==> g.rows[i].key != Some(Key(q.wallet, Trim(q.key)))
    ensures var from := g.wallets[q.wallet].address;
            var p := PrepareWithdraw(b.codec, q.net, asset, from, to, amount, b.token);
            var payable := Payable(q.net, asset, from, to, amount, b.token, cap, limit);
            && (payable ==> p.Ok?)
            && (payable ==> (Encodable(p.value.tx) <==> Fits(asset, amount, priority, cap, limit)))
            && StartValidated(b, g, now, l, q, to, amount, asset)
               == if !payable then
                    (g, StartRefused(if GasShort(q.net, asset, from, to, amount, b.token, cap, limit) then INSUFFICIENT_GAS
                                     else INVALID_REQUEST))
                  else if !Fits(asset, amount, priority, cap, limit) then (g, StartRefused(INTERNAL_ERROR))
                  else Create(b, g, now, l, q, to, amount, asset, p.value)
  {
    PreparesExactlyWhen(b.codec, q.net, asset, g.wallets[q.wallet].address, to, amount, b.token, priority, cap, limit);
  }

  /** The caller's wallet is free and can pay for the transfer, whose numbers can be encoded. */
  ghost predicate CanOpen(
    b: Backend, a: Api, now: nat, l: Ledger, q: StartCall, to: Address, amount: nat, asset: Asset, priority: nat, cap: nat, limit: nat)
  {
    && MayWithdraw(a, q.user, q.wallet)
    && Payable(q.net, asset, a.wallets[q.wallet].address, to, amount, b.token, cap, limit)
    && Fits(asset, amount, priority, cap, limit)
    && WalletFree(a.rows, q.wallet, l, now)
  }

  /** The open row is closed, other rows at most expire, and one row is added; other sessions of the wallet are gone. */
  ghost predicate AfterOpening(a: Api, a': Api, now: nat, l: Ledger, q: StartCall) {
    && a'.wallets == a.wallets && a'.sent == a.sent && |a'.rows| == |a.rows| + 1
    && (forall i: nat :: i < |a.rows| ==>
          if OpenAb(a.rows[i], q.wallet) then ClosedAs(a.rows[i], a'.rows[i], l) else AtMostExpires(a, i, a'.rows[i], now))
    && (forall id :: id in a'.sessions <==> id == q.session || (Alive(a, id, now) && a.sessions[id].wallet != q.wallet))
    && (forall id :: id in a'.sessions && id != q.session ==> a'.sessions[id] == a.sessions[id])
  }

  /** A refusal adds nothing; sessions of the wallet whose rows are too old may be gone all the same. */
  ghost predicate AfterRefusal(a: Api, a': Api, now: nat, q: StartCall) {
    && a'.wallets == a.wallets && a'.sent == a.sent && |a'.rows| == |a.rows|
    && (forall i: nat :: i < |a.rows| ==> AtMostExpires(a, i, a'.rows[i], now))
    && (forall id :: id in a'.sessions ==> Alive(a, id, now) && a'.sessions[id] == a.sessions[id])
    && (forall id :: Alive(a, id, now) && a.sessions[id].wallet != q.wallet ==> id in a'.sessions)
  }

  /** The sessions the expiry loop drops are the wallet's, and on a free wallet all of them. */
  lemma StaleAreTheWallets(b: Backend, g: Api, now: nat, w: WalletId, l: Ledger)
    requires ApiOk(b, g, now)
    ensures forall id :: id in g.sessions && id in StaleSessions(g.rows, w, now) ==> g.sessions[id].wallet == w
    ensures WalletFree(g.rows, w, l, now) ==>
              forall id :: id in g.sessions && g.sessions[id].wallet == w ==> id in StaleSessions(g.rows, w, now)
  {
    forall id | id in g.sessions && id in StaleSessions(g.rows, w, now) ensures g.sessions[id].wallet == w {
      var i: nat :| i < |g.rows| && IsStale(g.rows[i], w, now) && g.rows[i].metadata.session == id;
      SessionIsOfRow(b, g, now, i);
    }
    if WalletFree(g.rows, w, l, now) {
      forall id | id in g.sessions && g.sessions[id].wallet == w ensures id in StaleSessions(g.rows, w, now) {
        var i := g.sessions[id].row;
        assert SessionOk(g.wallets, g.rows, id, g.sessions[id], now);
        assert OpenAb(g.rows[i], w);
        StaleSessionIsDropped(g.rows, w, now, i);
      }
    }
  }

  /** What is left of the sessions when start's transaction is over. */
  ghost predicate DropsOnly(g: Api, a': Api, q: StartCall, now: nat, made: bool) {
    && (forall id :: id != q.session || !made ==>
          (id in a'.sessions <==> id in g.sessions && id !in StaleSessions(g.rows, q.wallet, now)))
    && (forall id :: id in a'.sessions && (id != q.session || !made) ==> a'.sessions[id] == g.sessions[id])
  }

  /** A session and a row for the asked transfer, in an answer that carries its digest. */
  ghost predicate OpenedFor(b: Backend, a: Api, a': Api, now: nat, q: StartCall, to: Address, amount: nat, asset: Asset, r: StartReply) {
    && |a'.rows| == |a.rows| + 1 && q.session in a'.sessions && q.wallet in a.wallets
    && var row := a'.rows[|a.rows|];
       && row.metadata.NormalAb? && row.amount == amount && row.to == to && row.metadata.asset == asset
       && exists tx ::
            && AskedTx(b, q.net, asset, to, amount, tx)
            && Opened(b, q, now, |a.rows|, row, a'.sessions[q.session], r, a.wallets[q.wallet].address, tx)
  }

  /** An open row that cannot be closed: still being signed, or waiting for its receipt. */
  ghost predicate BlockedBy(rows: seq<Row>, w: WalletId, l: Ledger, now: nat, code: ErrorCode) {
    exists i: nat :: i < |rows| && OpenAb(rows[i], w) && !Closable(rows[i], l, now)
                     && code == if rows[i].status == PROCESSING then SIGN_SESSION_BUSY else TRANSACTION_PENDING
  }

  /** Why the owner of an ACTIVE wallet is refused a new session. */
  ghost predicate RefusedFor(
    b: Backend, a: Api, now: nat, l: Ledger, q: StartCall, to: Address, amount: nat, asset: Asset, priority: nat, cap: nat,
    limit: nat, code: ErrorCode)
    requires q.wallet in a.wallets
  {
    var from := a.wallets[q.wallet].address;
    if from == to then code == INVALID_ADDRESS
    else if !Payable(q.net, asset, from, to, amount, b.token, cap, limit) then
      code == if GasShort(q.net, asset, from, to, amount, b.token, cap, limit) then INSUFFICIENT_GAS else INVALID_REQUEST
    else if !Fits(asset, amount, priority, cap, limit) then code == INTERNAL_ERROR
    else BlockedBy(a.rows, q.wallet, l, now, code)
  }

  /** Closing after expiry is closing. */
  lemma RowsAfterBoth(a: Api, g: Api, rows: seq<Row>, now: nat, w: WalletId, l: Ledger)
    requires OnlyExpiry(a, g, now) && ChangedIsOld(a, g, now) && |rows| >= |g.rows|
    requires forall i: nat :: i < |g.rows| ==> if OpenAb(g.rows[i], w) then ClosedAs(g.rows[i], rows[i], l) else rows[i] == g.rows[i]
    ensures forall i: nat :: i < |a.rows| ==>
              if OpenAb(a.rows[i], w) then ClosedAs(a.rows[i], rows[i], l) else AtMostExpires(a, i, rows[i], now)
  {
    forall i: nat | i < |a.rows|
      ensures if OpenAb(a.rows[i], w) then ClosedAs(a.rows[i], rows[i], l) else AtMostExpires(a, i, rows[i], now)
    {
      assert AtMostExpires(a, i, g.rows[i], now);
    }
  }

  /** The owner's start with a new key, once expiry has been done. */
  ghost predicate NewKeyOutcome(
    b: Backend, a: Api, a': Api, now: nat, l: Ledger, q: StartCall, to: Address, amount: nat, asset: Asset, priority: nat, cap: nat,
    limit: nat, r: StartReply)
  {
    && (r.Signing? <==> CanOpen(b, a, now, l, q, to, amount, asset, priority, cap, limit))
    && (r.Signing? ==> AfterOpening(a, a', now, l, q) && OpenedFor(b, a, a', now, q, to, amount, asset, r))
    && (!r.Signing? ==> r.StartRefused? && AfterRefusal(a, a', now, q))
    && (!r.Signing? && MayWithdraw(a, q.user, q.wallet) ==>
          RefusedFor(b, a, now, l, q, to, amount, asset, priority, cap, limit, r.code))
  }

  lemma CreateAfterExpiry(
    b: Backend, a: Api, g: Api, now: nat, l: Ledger, q: StartCall, to: Address, amount: nat, asset: Asset, p: Prepared)
    requires ApiOk(b, a, now) && ApiOk(b, g, now) && OnlyExpiry(a, g, now)
    requires BackendOk(b) && q.wallet in g.wallets && b.codec.getAddress(to) == Some(to)
    requires PrepareWithdraw(b.codec, q.net, asset, g.wallets[q.wallet].address, to, amount, b.token) == Ok(p) && Encodable(p.tx)
    ensures var (a', r) := Create(b, g, now, l, q, to, amount, asset, p);
            && (r.Signing? <==> WalletFree(a.rows, q.wallet, l, now))
            && (r.Signing? ==> AfterOpening(a, a', now, l, q) && OpenedFor(b, a, a', now, q, to, amount, asset, r))
            && (!r.Signing? ==> r.StartRefused? && BlockedBy(a.rows, q.wallet, l, now, r.code) && AfterRefusal(a, a', now, q))
  {
    FreeAfterExpiry(b, a, g, now, q.wallet, l);
    CreateCloses(b, g, now, l, q, to, amount, asset, p);
    StaleAreTheWallets(b, g, now, q.wallet, l);
    var (a', r) := Create(b, g, now, l, q, to, amount, asset, p);
    if r.Signing? {
      CreateOpens(b, g, now, l, q, to, amount, asset, p);
      RowsAfterBoth(a, g, a'.rows, now, q.wallet, l);
      OpeningFits(a, g, a', now, l, q);
    } else {
      RefusalFits(a, g, a', now, l, q, r.code);
    }
  }

  lemma OpeningFits(a: Api, g: Api, a': Api, now: nat, l: Ledger, q: StartCall)
    requires OnlyExpiry(a, g, now) && DropsOnly(g, a', q, now, true) && q.session in a'.sessions
    requires a'.wallets == g.wallets && a'.sent == g.sent && |a'.rows| == |g.rows| + 1
    requires forall i: nat :: i < |a.rows| ==>
               if OpenAb(a.rows[i], q.wallet) then ClosedAs(a.rows[i], a'.rows[i], l) else AtMostExpires(a, i, a'.rows[i], now)
    requires forall id :: id in g.sessions ==> (id in StaleSessions(g.rows, q.wallet, now) <==> g.sessions[id].wallet == q.wallet)
    ensures AfterOpening(a, a', now, l, q)
  {
  }

  lemma RefusalFits(a: Api, g: Api, a': Api, now: nat, l: Ledger, q: StartCall, code: ErrorCode)
    requires OnlyExpiry(a, g, now) && ChangedIsOld(a, g, now) && DropsOnly(g, a', q, now, false)
    requires a'.wallets == g.wallets && a'.sent == g.sent && a'.rows == g.rows
    requires forall id :: id in g.sessions && id in StaleSessions(g.rows, q.wallet, now) ==> g.sessions[id].wallet == q.wallet
    requires exists i: nat :: i < |g.rows| && OpenAb(g.rows[i], q.wallet) && !Closable(g.rows[i], l, now)
                              && code == if g.rows[i].status == PROCESSING then SIGN_SESSION_BUSY else TRANSACTION_PENDING
    ensures AfterRefusal(a, a', now, q) && BlockedBy(a.rows, q.wallet, l, now, code)
  {
    var i: nat :| i < |g.rows| && OpenAb(g.rows[i], q.wallet) && !Closable(g.rows[i], l, now)
                  && code == if g.rows[i].status == PROCESSING then SIGN_SESSION_BUSY else TRANSACTION_PENDING;
    assert AtMostExpires(a, i, g.rows[i], now);
    assert OpenAb(a.rows[i], q.wallet) && !Closable(a.rows[i], l, now);
  }

  lemma NewKeyPrepared(
    b: Backend, a: Api, g: Api, now: nat, l: Ledger, q: StartCall, to: Address, amount: nat, asset: Asset, priority: nat, cap: nat,
    limit: nat)
    requires ApiOk(b, a, now) && ApiOk(b, g, now) && OnlyExpiry(a, g, now)
    requires BackendOk(b) && b.codec.getAddress(to) == Some(to)
    requires FeesAre(q.net.feeData, priority, cap) && TokenGas(q.net.estimateGas, limit)
    requires MayWithdraw(a, q.user, q.wallet) && a.wallets[q.wallet].shareB.Some? && a.wallets[q.wallet].address != to
    requires forall i :: 0 <= i < |g.rows| ==> g.rows[i].key != Some(Key(q.wallet, Trim(q.key)))
    ensures var (a', r) := StartValidated(b, g, now, l, q, to, amount, asset);
            NewKeyOutcome(b, a, a', now, l, q, to, amount, asset, priority, cap, limit, r)
  {
    var from := g.wallets[q.wallet].address;
    NewKeyShape(b, g, now, l, q, to, amount, asset, priority, cap, limit);
    if Payable(q.net, asset, from, to, amount, b.token, cap, limit) && Fits(asset, amount, priority, cap, limit) {
      var p := PrepareWithdraw(b.codec, q.net, asset, from, to, amount, b.token).value;
      CreateAfterExpiry(b, a, g, now, l, q, to, amount, asset, p);
    } else {
      ExpiryIsRefusal(a, g, now, q);
    }
  }

  lemma ExpiryIsRefusal(a: Api, g: Api, now: nat, q: StartCall)
    requires OnlyExpiry(a, g, now)
    ensures AfterRefusal(a, g, now, q)
  {
  }

  lemma NewKeyAfterExpiry(
    b: Backend, a: Api, g: Api, now: nat, l: Ledger, q: StartCall, to: Address, amount: nat, asset: Asset, priority: nat, cap: nat,
    limit: nat)
    requires ApiOk(b, a, now) && ApiOk(b, g, now) && OnlyExpiry(a, g, now)
    requires BackendOk(b) && b.codec.getAddress(to) == Some(to)
    requires FeesAre(q.net.feeData, priority, cap) && TokenGas(q.net.estimateGas, limit)
    requires q.wallet in a.wallets && a.wallets[q.wallet].status == ACTIVE ==> a.wallets[q.wallet].shareB.Some?
    requires forall i :: 0 <= i < |g.rows| ==> g.rows[i].key != Some(Key(q.wallet, Trim(q.key)))
    ensures var (a', r) := StartValidated(b, g, now, l, q, to, amount, asset);
            NewKeyOutcome(b, a, a', now, l, q, to, amount, asset, priority, cap, limit, r)
  {
    if MayWithdraw(a, q.user, q.wallet) && a.wallets[q.wallet].address != to {
      NewKeyPrepared(b, a, g, now, l, q, to, amount, asset, priority, cap, limit);
    } else {
      ExpiryIsRefusal(a, g, now, q);
      NotAllowed(b, a, g, now, l, q, to, amount, asset);
    }
  }

  lemma NotAllowed(b: Backend, a: Api, g: Api, now: nat, l: Ledger, q: StartCall, to: Address, amount: nat, asset: Asset)
    requires g.wallets == a.wallets && !(MayWithdraw(a, q.user, q.wallet) && a.wallets[q.wallet].address != to)
    requires q.wallet in a.wallets && a.wallets[q.wallet].status == ACTIVE ==> a.wallets[q.wallet].shareB.Some?
    ensures var (a', r) := StartValidated(b, g, now, l, q, to, amount, asset);
            a' == g && r.StartRefused? && (MayWithdraw(a, q.user, q.wallet) ==> r.code == INVALID_ADDRESS)
  {
  }

  lemma StartReads(b: Backend, a: Api, now: nat, l: Ledger, lost: set<SessionId>, q: StartCall, to: Address, amount: nat, asset: Asset)
    requires ReadsAs(b, q, to, amount, asset) && Trim(q.key) != ""
    ensures Start(b, a, now, l, lost, q) == StartValidated(b, Gc(a, now, lost), now, l, q, to, amount, asset)
  {
    AmountIsTyped(b.codec, q.amount);
    AssetIsTyped(q.asset);
  }

  lemma NewKeyOpens(
    b: Backend, a: Api, now: nat, l: Ledger, lost: set<SessionId>, q: StartCall, to: Address, amount: nat, asset: Asset, priority: nat,
    cap: nat, limit: nat)
    requires ApiOk(b, a, now) && BackendOk(b) && ReadsAs(b, q, to, amount, asset) && Trim(q.key) != ""
    requires FeesAre(q.net.feeData, priority, cap) && TokenGas(q.net.estimateGas, limit)
    requires q.wallet in a.wallets && a.wallets[q.wallet].status == ACTIVE ==> a.wallets[q.wallet].shareB.Some?
    requires forall i :: 0 <= i < |a.rows| ==> a.rows[i].key != Some(Key(q.wallet, Trim(q.key)))
    ensures var (a', r) := Start(b, a, now, l, lost, q);
            NewKeyOutcome(b, a, a', now, l, q, to, amount, asset, priority, cap, limit, r)
  {
    var g := Gc(a, now, lost);
    GcKeepsOk(b, a, now, lost);
    GcIsOnlyExpiry(b, a, now, lost);
    StartReads(b, a, now, l, lost, q, to, amount, asset);
    NewKeyAfterExpiry(b, a, g, now, l, q, to, amount, asset, priority, cap, limit);
  }

  /**
   * A start with a new key opens a session exactly when the owner's ACTIVE wallet is free and can pay, and then adds
   * one row and one session for exactly the asked transfer and closes what was open; otherwise it refuses, says why and
   * adds nothing.
   */
  lemma NewKeyOpensASession(
    b: Backend, w: World, l: Ledger, lost: set<SessionId>, q: StartCall, to: Address, amount: nat, asset: Asset, priority: nat,
    cap: nat, limit: nat)
    requires BackendOk(b) && Reachable(b, w) && ReadsAs(b, q, to, amount, asset) && Trim(q.key) != ""
    requires FeesAre(q.net.feeData, priority, cap) && TokenGas(q.net.estimateGas, limit)
    requires forall i :: 0 <= i < |w.api.rows| ==> w.api.rows[i].key != Some(Key(q.wallet, Trim(q.key)))
    ensures var (a', r) := Start(b, w.api, w.now, l, lost, q);
            NewKeyOutcome(b, w.api, a', w.now, l, q, to, amount, asset, priority, cap, limit, r)
  {
    ReachableIsSafe(b, w);
    assert WalletsOk(w.api.wallets, w.api.rows);
    NewKeyOpens(b, w.api, w.now, l, lost, q, to, amount, asset, priority, cap, limit);
  }

  /** Why a start is refused before its key is looked up: the first check that fails. */
  lemma StartSaysWhy(b: Backend, a: Api, now: nat, l: Ledger, lost: set<SessionId>, q: StartCall)
    ensures var r := Start(b, a, now, l, lost, q).1;
            if Trim(q.key) == "" then r == StartRefused(VALIDATION_FAILED)
            else if b.codec.getAddress(q.to).None? then r == StartRefused(INVALID_ADDRESS)
            else if !exists amount, asset :: TypedAmount(b.codec, q.amount, amount) && TypedAsset(q.asset, asset) then
              r == StartRefused(INVALID_REQUEST)
            else if q.wallet !in a.wallets then r == StartRefused(WALLET_NOT_FOUND)
            else if a.wallets[q.wallet].user != q.user then r == StartRefused(NOT_YOUR_WALLET)
            else if a.wallets[q.wallet].status == RETIRED then r == StartRefused(WALLET_RETIRED)
            else if a.wallets[q.wallet].status in {RECOVERY_PENDING, RETIRING} then r == StartRefused(EMERGENCY_STATE_INVALID)
            else if a.wallets[q.wallet].shareB.None? then r == StartRefused(SHARE_B_MISSING)
            else b.codec.getAddress(q.to).value == a.wallets[q.wallet].address ==> r == StartRefused(INVALID_ADDRESS)
  {
    AmountIsTyped(b.codec, q.amount);
    AssetIsTyped(q.asset);
    var amount, asset := ParseWithdrawAmountToWei(b.codec, q.amount), ParseWithdrawAsset(q.asset);
    if amount.Some? && asset.Some? {
      assert TypedAmount(b.codec, q.amount, amount.value) && TypedAsset(q.asset, asset.value);
    }
  }

  // ---- complete ----

  /** A broadcast row of the caller's session. */
  predicate DoneFor(a: Api, user: UserId, id: SessionId, i: nat) {
    && IsAb(a.rows, i) && a.rows[i].metadata.session == id && a.rows[i].status in {BROADCASTED, EXECUTED}
    && a.rows[i].wallet in a.wallets && a.wallets[a.rows[i].wallet].user == user
  }

  predicate OwnSession(a: Api, user: UserId, id: SessionId, now: nat) {
    Alive(a, id, now) && a.sessions[id].user == user
  }

  /** Besides expiry, the session is gone and its row takes this status and hash. */
  ghost predicate EndsAs(a: Api, a': Api, now: nat, id: SessionId, status: WithdrawStatus, hash: Option<TxHash>)
    requires id in a.sessions && a.sessions[id].row < |a.rows|
  {
    var i := a.sessions[id].row;
    && a'.wallets == a.wallets && |a'.rows| == |a.rows|
    && (forall x :: x in a'.sessions <==> x != id && Alive(a, x, now))
    && (forall x :: x in a'.sessions ==> a'.sessions[x] == a.sessions[x])
    && a'.rows[i] == a.rows[i].(status := status, txHash := hash)
    && forall j: nat :: j < |a.rows| && j != i ==> AtMostExpires(a, j, a'.rows[j], now)
  }

  lemma DoneIsFound(b: Backend, g: Api, now: nat, user: UserId, id: SessionId, i: nat)
    requires ApiOk(b, g, now) && DoneFor(g, user, id, i)
    ensures FindTerminalBySession(g, user, id) == Some(i)
  {
    var found := FindTerminalBySession(g, user, id).value;
    assert IsAb(g.rows, found) && IsAb(g.rows, i);
  }

  /** complete of a session that was broadcast repeats its status and hash. */
  lemma DoneIsRepeated(
    b: Backend, a: Api, now: nat, l: Ledger, lost: set<SessionId>, user: UserId, id: SessionId, msgs: seq<Message>, o: Outcome, i: nat)
    requires ApiOk(b, a, now) && DoneFor(a, user, id, i)
    ensures var (a', r) := Complete(b, a, now, l, lost, user, id, msgs, o);
            r == Withdrawn(i, a.rows[i].status, a.rows[i].txHash, true) && OnlyExpiry(a, a', now)
  {
    GcIsOnlyExpiry(b, a, now, lost);
    GcKeepsOk(b, a, now, lost);
    DoneIsFound(b, Gc(a, now, lost), now, user, id, i);
  }

  lemma NotOwnIsRefused(
    b: Backend, a: Api, now: nat, l: Ledger, lost: set<SessionId>, user: UserId, id: SessionId, msgs: seq<Message>, o: Outcome)
    requires ApiOk(b, a, now) && !OwnSession(a, user, id, now) && forall i: nat :: !DoneFor(a, user, id, i)
    ensures var (a', r) := Complete(b, a, now, l, lost, user, id, msgs, o);
            r == CompleteRefused(SESSION_NOT_FOUND) && OnlyExpiry(a, a', now)
  {
    GcIsOnlyExpiry(b, a, now, lost);
    var g := Gc(a, now, lost);
    var found := FindTerminalBySession(g, user, id);
    if found.Some? {
      assert DoneFor(a, user, id, found.value);
    }
  }

  /** The row of a live session is still PROCESSING on an ACTIVE wallet, so complete gets past its checks. */
  lemma OwnPassesChecks(b: Backend, g: Api, now: nat, user: UserId, id: SessionId, msgs: seq<Message>, written: bool)
    requires ApiOk(b, g, now) && Owned(g, user, id)
    ensures CompleteGuard(g, user, id, msgs, written)
            == if g.sessions[id].party.stage != WAIT_LAST then Some((g, CompleteRefused(UNEXPECTED_STEP)))
               else if |msgs| == 0 then Some((g, CompleteRefused(MISSING_MESSAGE)))
               else None
  {
    var s := g.sessions[id];
    assert SessionOk(g.wallets, g.rows, id, s, now);
    assert OpenAb(g.rows[s.row], g.rows[s.row].wallet);
    var found := FindTerminalBySession(g, user, id);
    if found.Some? {
      assert IsAb(g.rows, found.value) && IsAb(g.rows, s.row);
    }
  }

  /** What the signing part of complete comes to, by how the calls outside turn out. */
  ghost predicate Finished(
    b: Backend, a: Api, a': Api, now: nat, l: Ledger, id: SessionId, msgs: seq<Message>, o: Outcome, r: CompleteReply)
    requires id in a.sessions && a.sessions[id].row < |a.rows|
  {
    var s := a.sessions[id];
    var i := s.row;
    var closed := if o.failWritten then FAILED else a.rows[i].status;
    match SignAsB(b, s, msgs)
    case None =>
      r == CompleteRefused(WITHDRAW_FAILED) && a'.sent == a.sent && EndsAs(a, a', now, id, closed, a.rows[i].txHash)
    case Some((tx, raw)) =>
      && TxFromStoredFields(b.codec, s.tx) == Some(tx) && a'.sent == a.sent + [Sent(i, tx, raw)]
      && if o.rpcOk && o.persisted then
           var h := b.codec.hash(raw);
           var status := if o.waited && h !in l.down && h in l.mined && l.mined[h] then EXECUTED else BROADCASTED;
           r == Withdrawn(i, status, Some(h), false) && EndsAs(a, a', now, id, status, Some(h))
         else r == CompleteRefused(WITHDRAW_FAILED) && EndsAs(a, a', now, id, closed, a.rows[i].txHash)
  }

  lemma SigningFinishes(
    b: Backend, a: Api, g: Api, now: nat, l: Ledger, id: SessionId, msgs: seq<Message>, o: Outcome)
    requires OnlyExpiry(a, g, now) && id in g.sessions && id in a.sessions && g.sessions[id] == a.sessions[id]
    requires var i := a.sessions[id].row; i < |a.rows| && g.rows[i] == a.rows[i] && a.rows[i].status == PROCESSING
    ensures var (a', r) := SignAndBroadcast(b, g, l, id, msgs, o); Finished(b, a, a', now, l, id, msgs, o, r)
  {
  }

  /** complete of the caller's live session. */
  lemma OwnCompletes(
    b: Backend, a: Api, now: nat, l: Ledger, lost: set<SessionId>, user: UserId, id: SessionId, msgs: seq<Message>, o: Outcome)
    requires ApiOk(b, a, now) && OwnSession(a, user, id, now)
    ensures var (a', r) := Complete(b, a, now, l, lost, user, id, msgs, o);
            && a.sessions[id].row < |a.rows|
            && if a.sessions[id].party.stage != WAIT_LAST then r == CompleteRefused(UNEXPECTED_STEP) && OnlyExpiry(a, a', now)
               else if |msgs| == 0 then r == CompleteRefused(MISSING_MESSAGE) && OnlyExpiry(a, a', now)
               else Finished(b, a, a', now, l, id, msgs, o, r)
  {
    var g := Gc(a, now, lost);
    GcIsOnlyExpiry(b, a, now, lost);
    GcKeepsOk(b, a, now, lost);
    OwnPassesChecks(b, g, now, user, id, msgs, o.failWritten);
    SigningFinishes(b, a, g, now, l, id, msgs, o);
  }

  /**
   * complete: a broadcast withdrawal of the caller's session answers its hash again, a live session is signed, broadcast
   * once and written, and anything else is no session of the caller's.
   */
  ghost predicate Completes(
    b: Backend, a: Api, a': Api, now: nat, l: Ledger, user: UserId, id: SessionId, msgs: seq<Message>, o: Outcome, r: CompleteReply)
  {
    && (forall i: nat :: DoneFor(a, user, id, i) ==>
          r == Withdrawn(i, a.rows[i].status, a.rows[i].txHash, true) && OnlyExpiry(a, a', now))
    && (OwnSession(a, user, id, now) ==>
          && a.sessions[id].row < |a.rows|
          && if a.sessions[id].party.stage != WAIT_LAST then r == CompleteRefused(UNEXPECTED_STEP) && OnlyExpiry(a, a', now)
             else if |msgs| == 0 then r == CompleteRefused(MISSING_MESSAGE) && OnlyExpiry(a, a', now)
             else Finished(b, a, a', now, l, id, msgs, o, r))
    && (!OwnSession(a, user, id, now) && (forall i: nat :: !DoneFor(a, user, id, i)) ==>
          r == CompleteRefused(SESSION_NOT_FOUND) && OnlyExpiry(a, a', now))
  }

  /** So it is in every reachable state. */
  lemma CompleteAnswers(
    b: Backend, w: World, l: Ledger, lost: set<SessionId>, user: UserId, id: SessionId, msgs: seq<Message>, o: Outcome)
    requires BackendOk(b) && Reachable(b, w)
    ensures var (a', r) := Complete(b, w.api, w.now, l, lost, user, id, msgs, o);
            Completes(b, w.api, a', w.now, l, user, id, msgs, o, r)
  {
    ReachableIsSafe(b, w);
    CompleteIsOneOf(b, w.api, w.now, l, lost, user, id, msgs, o);
  }

  lemma CompleteIsOneOf(
    b: Backend, a: Api, now: nat, l: Ledger, lost: set<SessionId>, user: UserId, id: SessionId, msgs: seq<Message>, o: Outcome)
    requires ApiOk(b, a, now)
    ensures var (a', r) := Complete(b, a, now, l, lost, user, id, msgs, o); Completes(b, a, a', now, l, user, id, msgs, o, r)
  {
    if OwnSession(a, user, id, now) {
      OwnCompletes(b, a, now, l, lost, user, id, msgs, o);
    } else if forall i: nat :: !DoneFor(a, user, id, i) {
      NotOwnIsRefused(b, a, now, l, lost, user, id, msgs, o);
    }
    forall i: nat | DoneFor(a, user, id, i)
      ensures var (a', r) := Complete(b, a, now, l, lost, user, id, msgs, o);
              r == Withdrawn(i, a.rows[i].status, a.rows[i].txHash, true) && OnlyExpiry(a, a', now)
    {
      DoneIsRepeated(b, a, now, l, lost, user, id, msgs, o, i);
    }
  }

  /** What a crash inside complete has sent by then. */
  lemma CrashSends(b: Backend, a: Api, now: nat, lost: set<SessionId>, user: UserId, id: SessionId, msgs: seq<Message>)
    requires var g := Gc(a, now, lost);
             && (Owned(g, user, id) ==>
                   (CompleteGuard(g, user, id, msgs, false).None? <==> g.sessions[id].party.stage == WAIT_LAST && msgs != []))
             && (!Owned(g, user, id) ==> CompleteGuard(g, user, id, msgs, false).Some?)
    ensures var g, a' := Gc(a, now, lost), CompleteThenCrash(b, a, now, lost, user, id, msgs);
            && a'.rows == g.rows && a'.wallets == g.wallets && a'.sessions == map[]
            && a'.sent == if Owned(g, user, id) && g.sessions[id].party.stage == WAIT_LAST && msgs != []
                             && SignAsB(b, g.sessions[id], msgs).Some? then
                            var (tx, raw) := SignAsB(b, g.sessions[id], msgs).value;
                            g.sent + [Sent(g.sessions[id].row, tx, raw)]
                          else g.sent
  {
    assert Gc(a, now, lost).sent + [] == Gc(a, now, lost).sent;
  }

  lemma OwnedCrashSends(
    b: Backend, a: Api, now: nat, l: Ledger, lost: set<SessionId>, user: UserId, id: SessionId, msgs: seq<Message>, o: Outcome)
    requires ApiOk(b, a, now) && Owned(Gc(a, now, lost), user, id)
    ensures CompleteThenCrash(b, a, now, lost, user, id, msgs).sent == Complete(b, a, now, l, lost, user, id, msgs, o).0.sent
  {
    GcKeepsOk(b, a, now, lost);
    GcIsOnlyExpiry(b, a, now, lost);
    OwnPassesChecks(b, Gc(a, now, lost), now, user, id, msgs, false);
    CrashSends(b, a, now, lost, user, id, msgs);
    OwnCompletes(b, a, now, l, lost, user, id, msgs, o);
  }

  lemma CrashLeaves(b: Backend, a: Api, now: nat, lost: set<SessionId>, user: UserId, id: SessionId, msgs: seq<Message>)
    ensures var a' := CompleteThenCrash(b, a, now, lost, user, id, msgs);
            a'.rows == Gc(a, now, lost).rows && a'.wallets == a.wallets && a'.sessions == map[]
    ensures !Owned(Gc(a, now, lost), user, id) ==> CompleteThenCrash(b, a, now, lost, user, id, msgs).sent == a.sent
  {
    assert a.sent + [] == a.sent;
  }

  /** A crash between the broadcast and the write: what complete would have sent is sent, no row learns of it, memory is lost. */
  lemma CrashLosesTheWrite(
    b: Backend, a: Api, now: nat, l: Ledger, lost: set<SessionId>, user: UserId, id: SessionId, msgs: seq<Message>, o: Outcome)
    requires ApiOk(b, a, now)
    ensures var a' := CompleteThenCrash(b, a, now, lost, user, id, msgs);
            && a'.sent == Complete(b, a, now, l, lost, user, id, msgs, o).0.sent && a'.sessions == map[] && a'.wallets == a.wallets
            && |a'.rows| == |a.rows| && forall i: nat :: i < |a.rows| ==> AtMostExpires(a, i, a'.rows[i], now)
  {
    ExpiryIsAll(a, now, lost);
    CrashLeaves(b, a, now, lost, user, id, msgs);
    if Owned(Gc(a, now, lost), user, id) {
      OwnedCrashSends(b, a, now, l, lost, user, id, msgs, o);
    } else {
      NotOwnedSendsNothing(b, a, now, l, lost, user, id, msgs, o);
    }
  }

  lemma NotOwnedSendsNothing(
    b: Backend, a: Api, now: nat, l: Ledger, lost: set<SessionId>, user: UserId, id: SessionId, msgs: seq<Message>, o: Outcome)
    requires !Owned(Gc(a, now, lost), user, id)
    ensures Complete(b, a, now, l, lost, user, id, msgs, o).0.sent == a.sent
  {
  }

  // ---- rounds and abort ----

  /** The stage a party hears round `n` in, and the one it is in afterwards. */
  function Turn(n: nat): Stage {
    if n == 1 then WAIT_MSG1 else if n == 2 then WAIT_MSG2 else if n == 3 then WAIT_MSG3 else WAIT_LAST
  }

  lemma HearsInTurn(b: Backend, g: Api, id: SessionId, n: nat, msgs: seq<Message>)
    requires id in g.sessions && n in {1, 2, 3}
    ensures var (g', r) := Hear(b, g, id, n, msgs);
            && (g.sessions[id].party.stage != Turn(n) ==> r == RoundRefused(UNEXPECTED_STEP))
            && (r.RoundRefused? ==> g' == g)
            && (!r.RoundRefused? ==>
                  && g.sessions[id].party.stage == Turn(n) && id in g'.sessions
                  && g'.sessions[id] == g.sessions[id].(party := g'.sessions[id].party)
                  && g'.sessions[id].party.stage == Turn(n + 1)
                  && g' == g.(sessions := g.sessions[id := g'.sessions[id]]))
  {
  }

  /** A round is heard only in its turn, from the caller's live session, and moves that session's party alone. */
  ghost predicate HeardInTurn(a: Api, a': Api, now: nat, user: UserId, id: SessionId, n: nat, r: RoundReply) {
    if !OwnSession(a, user, id, now) then r == RoundRefused(SESSION_NOT_FOUND) && OnlyExpiry(a, a', now)
    else if a.sessions[id].party.stage != Turn(n) then r == RoundRefused(UNEXPECTED_STEP) && OnlyExpiry(a, a', now)
    else if r.RoundRefused? then OnlyExpiry(a, a', now)
    else
      && id in a'.sessions
      && a'.sessions[id] == a.sessions[id].(party := a'.sessions[id].party)
      && a'.sessions[id].party.stage == Turn(n + 1)
      && OnlyExpiry(a, a'.(sessions := a'.sessions[id := a.sessions[id]]), now)
  }

  lemma HeardAfterExpiry(a: Api, g: Api, g': Api, now: nat, user: UserId, id: SessionId, n: nat, r: RoundReply)
    requires OnlyExpiry(a, g, now) && n in {1, 2, 3}
    requires if !Owned(g, user, id) then g' == g && r == RoundRefused(SESSION_NOT_FOUND)
             else
               && (g.sessions[id].party.stage != Turn(n) ==> r == RoundRefused(UNEXPECTED_STEP))
               && if r.RoundRefused? then g' == g
                  else
                    && g.sessions[id].party.stage == Turn(n) && id in g'.sessions
                    && g'.sessions[id] == g.sessions[id].(party := g'.sessions[id].party)
                    && g'.sessions[id].party.stage == Turn(n + 1)
                    && g' == g.(sessions := g.sessions[id := g'.sessions[id]])
    ensures HeardInTurn(a, g', now, user, id, n, r)
  {
    if Owned(g, user, id) && !r.RoundRefused? {
      assert g'.(sessions := g'.sessions[id := a.sessions[id]]) == g;
    }
  }

  lemma RoundsInTurn(
    b: Backend, a: Api, now: nat, lost: set<SessionId>, user: UserId, id: SessionId, n: nat, msgs: seq<Message>)
    requires ApiOk(b, a, now) && n in {1, 2, 3}
    ensures var (a', r) := HandleRound(b, a, now, lost, user, id, n, msgs); HeardInTurn(a, a', now, user, id, n, r)
  {
    var g := Gc(a, now, lost);
    GcIsOnlyExpiry(b, a, now, lost);
    var (a', r) := HandleRound(b, a, now, lost, user, id, n, msgs);
    if Owned(g, user, id) {
      HearsInTurn(b, g, id, n, msgs);
    }
    HeardAfterExpiry(a, g, a', now, user, id, n, r);
  }

  /** abort drops the caller's own session and fails its row, unless that write is lost; of others' it changes nothing. */
  lemma AbortMeans(b: Backend, a: Api, now: nat, user: UserId, id: SessionId, written: bool)
    requires ApiOk(b, a, now)
    ensures var a' := Abort(a, user, id, written);
            if id in a.sessions && a.sessions[id].user == user then
              var i := a.sessions[id].row;
              && i < |a.rows| && a.rows[i].status == PROCESSING
              && a' == a.(sessions := a.sessions - {id},
                          rows := if written then a.rows[i := a.rows[i].(status := FAILED)] else a.rows)
            else a' == a
  {
    if id in a.sessions {
      assert SessionOk(a.wallets, a.rows, id, a.sessions[id], now);
    }
  }

  /** A used key never answers for another request: the owner of an ACTIVE wallet is told of the conflict. */
  lemma DifferentBodyConflicts(
    b: Backend, a: Api, now: nat, l: Ledger, lost: set<SessionId>, q: StartCall, i: nat, to: Address, amount: nat, asset: Asset)
    requires ApiOk(b, a, now) && ReadsAs(b, q, to, amount, asset) && Trim(q.key) != "" && MayWithdraw(a, q.user, q.wallet)
    requires a.wallets[q.wallet].shareB.Some? && a.wallets[q.wallet].address != to
    requires i < |a.rows| && a.rows[i].key == Some(Key(q.wallet, Trim(q.key)))
    requires a.rows[i].to != to || a.rows[i].amount != amount || a.rows[i].metadata.asset != asset
    ensures Start(b, a, now, l, lost, q).1 == StartRefused(IDEMPOTENCY_CONFLICT)
  {
    var g := Gc(a, now, lost);
    GcKeepsOk(b, a, now, lost);
    StartReads(b, a, now, l, lost, q, to, amount, asset);
    var found := FindByKey(g.rows, Key(q.wallet, Trim(q.key)));
    assert g.rows[i].key == a.rows[i].key;
    KeyHasOneRow(b, g, now, i, found.value);
  }
}
