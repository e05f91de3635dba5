/**
 * What every A+B handler keeps: sessions agree with rows, keys and sessions are used once, a row is broadcast
 * at most once and then carries that hash, and a wallet has at most one open A+B row, only while ACTIVE.
 */
module AbInvariant {
  import opened Types
  import opened Text
  import opened Routing
  import opened SignReference
  import opened Responder
  import opened EthTransfer
  import opened Withdraws
  import opened AbSigning

  predicate IsAb(rows: seq<Row>, i: nat) {
    i < |rows| && rows[i].metadata.NormalAb?
  }

  /** Rows belong to wallets, and no two A+B rows share a key or a session. */
  ghost predicate RowsOk(wallets: map<WalletId, Wallet>, rows: seq<Row>, now: nat) {
    && (forall i :: 0 <= i < |rows| ==> rows[i].wallet in wallets && rows[i].createdAt <= now)
    && (forall i :: 0 <= i < |rows| ==>
          if rows[i].metadata.NormalAb? then rows[i].key.Some? && rows[i].key.value.wallet == rows[i].wallet
          else rows[i].key.None?)
    && (forall i, j :: 0 <= i < j < |rows| && IsAb(rows, i) && IsAb(rows, j) ==>
                         rows[i].key != rows[j].key && rows[i].metadata.session != rows[j].metadata.session)
  }

  /** A session points to a PROCESSING row of the same wallet and user that carries its id and its digest. */
  predicate SessionOk(wallets: map<WalletId, Wallet>, rows: seq<Row>, id: SessionId, s: Session, now: nat) {
    && IsAb(rows, s.row)
    && rows[s.row].status == PROCESSING
    && rows[s.row].metadata.session == id
    && rows[s.row].wallet == s.wallet
    && s.wallet in wallets
    && wallets[s.wallet].user == s.user
    && s.digest == rows[s.row].metadata.digest
    && rows[s.row].createdAt <= s.createdAt <= now
    && s.party.id == PARTY_B
  }

  /** The fields rebuild to a transaction that is this transfer and has this digest. */
  predicate Rebuilds(b: Backend, fields: StoredTx, digest: Digest, asset: Asset, to: Address, amount: nat) {
    match TxFromStoredFields(b.codec, fields)
    case None => false
    case Some(tx) =>
      fields == ResponseFields(tx) && b.codec.digest(tx) == digest && IsTransfer(b.codec, tx, asset, to, amount, b.token)
  }

  /** What a session stores rebuilds to its row's transfer, and its digest is that transaction's. */
  predicate IntentOk(b: Backend, s: Session, r: Row)
    requires r.metadata.NormalAb?
  {
    Rebuilds(b, s.tx, s.digest, r.metadata.asset, r.to, r.amount)
  }

  ghost predicate SessionsOk(
    b: Backend, wallets: map<WalletId, Wallet>, rows: seq<Row>, sessions: map<SessionId, Session>, now: nat)
  {
    forall id :: id in sessions ==>
                   SessionOk(wallets, rows, id, sessions[id], now) && IntentOk(b, sessions[id], rows[sessions[id].row])
  }

  /** One open A+B row per wallet, and only while the wallet is ACTIVE. */
  ghost predicate OpenOk(wallets: map<WalletId, Wallet>, rows: seq<Row>) {
    && (forall i, j :: 0 <= i < j < |rows| && rows[i].wallet == rows[j].wallet ==>
                         !(OpenAb(rows[i], rows[i].wallet) && OpenAb(rows[j], rows[j].wallet)))
    && (forall i :: 0 <= i < |rows| && rows[i].wallet in wallets && OpenAb(rows[i], rows[i].wallet) ==>
                      wallets[rows[i].wallet].status == ACTIVE)
  }

  ghost predicate HashSent(c: Codec, sent: seq<Sent>, i: nat, h: TxHash) {
    exists k :: 0 <= k < |sent| && sent[k].row == i && c.hash(sent[k].raw) == h
  }

  /** A broadcast of the row's own transfer. */
  predicate SentOk(b: Backend, rows: seq<Row>, e: Sent) {
    && IsAb(rows, e.row)
    && b.codec.digest(e.tx) == rows[e.row].metadata.digest
    && IsTransfer(b.codec, e.tx, rows[e.row].metadata.asset, rows[e.row].to, rows[e.row].amount, b.token)
  }

  /** At most one broadcast per row, none while a session for it lives; a row with a hash carries that broadcast's. */
  ghost predicate SendsOk(b: Backend, rows: seq<Row>, sessions: map<SessionId, Session>, sent: seq<Sent>) {
    && (forall k :: 0 <= k < |sent| ==> SentOk(b, rows, sent[k]))
    && (forall k, m :: 0 <= k < m < |sent| ==> sent[k].row != sent[m].row)
    && (forall k, id :: 0 <= k < |sent| && id in sessions ==> sessions[id].row != sent[k].row)
    && (forall i :: 0 <= i < |rows| && IsAb(rows, i) && IsTerminal(rows[i].status) ==> rows[i].txHash.Some?)
    && (forall i :: 0 <= i < |rows| && IsAb(rows, i) && rows[i].txHash.Some? ==>
                      HashSent(b.codec, sent, i, rows[i].txHash.value))
  }

  ghost predicate ApiOk(b: Backend, a: Api, now: nat) {
    && RowsOk(a.wallets, a.rows, now)
    && SessionsOk(b, a.wallets, a.rows, a.sessions, now)
    && OpenOk(a.wallets, a.rows)
    && SendsOk(b, a.rows, a.sessions, a.sent)
  }

  /** How a row may look after a step of the A+B flow: never reopened, and only its status and hash change. */
  predicate RowEvolves(r: Row, r': Row) {
    && r' == r.(status := r'.status, txHash := r'.txHash)
    && (r.metadata.EmergencyBc? ==> r' == r)
    && (IsOpen(r'.status) ==> IsOpen(r.status))
    && (r.txHash.Some? ==> r'.txHash == r.txHash)
  }

  /** An A+B step leaves wallets and emergency rows alone and only ever adds A+B rows. */
  ghost predicate AbFrame(a: Api, a': Api) {
    && a'.wallets == a.wallets
    && |a.rows| <= |a'.rows|
    && (forall i :: 0 <= i < |a.rows| ==> RowEvolves(a.rows[i], a'.rows[i]))
    && (forall i :: |a.rows| <= i < |a'.rows| ==> a'.rows[i].metadata.NormalAb?)
    && |a.sent| <= |a'.sent| && a'.sent[..|a.sent|] == a.sent
  }

  lemma LaterIsOk(b: Backend, a: Api, now: nat, now': nat)
    requires ApiOk(b, a, now) && now <= now'
    ensures ApiOk(b, a, now')
  {
  }

  lemma FrameTrans(a: Api, m: Api, a': Api)
    requires AbFrame(a, m) && AbFrame(m, a')
    ensures AbFrame(a, a')
  {
  }

  /** Two sessions never share a row. */
  lemma SessionRowsDiffer(b: Backend, a: Api, now: nat, x: SessionId, y: SessionId)
    requires ApiOk(b, a, now) && x in a.sessions && y in a.sessions && x != y
    ensures a.sessions[x].row != a.sessions[y].row
  {
  }

  // ---- Closing rows: expiry in gc and in start, abort, and the failure paths of complete ----

  predicate ClosedTo(r: Row, r': Row) {
    r' == r || (r.metadata.NormalAb? && r.status == PROCESSING && r'.status in {EXPIRED, FAILED} && r' == r.(status := r'.status))
  }

  /** Some PROCESSING A+B rows end, together with the sessions on them. */
  predicate ClosesRows(a: Api, a': Api) {
    && a'.wallets == a.wallets
    && a'.sent == a.sent
    && |a'.rows| == |a.rows|
    && (forall i :: 0 <= i < |a.rows| ==> ClosedTo(a.rows[i], a'.rows[i]))
    && (forall id :: id in a'.sessions ==> id in a.sessions && a'.sessions[id] == a.sessions[id])
    && (forall id :: id in a'.sessions && a'.sessions[id].row < |a.rows| ==>
                       a'.rows[a'.sessions[id].row] == a.rows[a'.sessions[id].row])
  }

  lemma ClosingKeepsRows(wallets: map<WalletId, Wallet>, rows: seq<Row>, rows': seq<Row>, now: nat)
    requires RowsOk(wallets, rows, now) && OpenOk(wallets, rows) && |rows'| == |rows|
    requires forall i :: 0 <= i < |rows| ==> ClosedTo(rows[i], rows'[i])
    ensures RowsOk(wallets, rows', now) && OpenOk(wallets, rows')
  {
  }

  lemma ClosingKeepsSends(
    b: Backend, rows: seq<Row>, rows': seq<Row>, sessions: map<SessionId, Session>, sessions': map<SessionId, Session>,
    sent: seq<Sent>)
    requires SendsOk(b, rows, sessions, sent) && |rows'| == |rows|
    requires forall i :: 0 <= i < |rows| ==> ClosedTo(rows[i], rows'[i])
    requires forall id :: id in sessions' ==> id in sessions && sessions'[id] == sessions[id]
    ensures SendsOk(b, rows', sessions', sent)
  {
  }

  lemma ClosingKeepsOk(b: Backend, a: Api, a': Api, now: nat)
    requires ApiOk(b, a, now) && ClosesRows(a, a')
    ensures ApiOk(b, a', now) && AbFrame(a, a')
  {
    ClosingKeepsRows(a.wallets, a.rows, a'.rows, now);
    ClosingKeepsSends(b, a.rows, a'.rows, a.sessions, a'.sessions, a.sent);
    forall id | id in a'.sessions
      ensures SessionOk(a.wallets, a'.rows, id, a'.sessions[id], now) && IntentOk(b, a'.sessions[id], a'.rows[a'.sessions[id].row])
    {
      assert SessionOk(a.wallets, a.rows, id, a.sessions[id], now);
    }
    forall i | 0 <= i < |a.rows| ensures RowEvolves(a.rows[i], a'.rows[i]) {
      assert ClosedTo(a.rows[i], a'.rows[i]);
    }
  }

  lemma LiveRowSurvives(b: Backend, a: Api, now: nat, lost: set<SessionId>, id: SessionId)
    requires ApiOk(b, a, now) && id in a.sessions && id !in Expired(a.sessions, now)
    ensures a.sessions[id].row !in RowsOf(a.sessions, Expired(a.sessions, now), lost)
  {
  }

  lemma GcKeepsOk(b: Backend, a: Api, now: nat, lost: set<SessionId>)
    requires ApiOk(b, a, now)
    ensures ApiOk(b, Gc(a, now, lost), now) && AbFrame(a, Gc(a, now, lost))
  {
    GcClosesRows(b, a, now, lost);
    ClosingKeepsOk(b, a, Gc(a, now, lost), now);
  }

  lemma GcClosesRows(b: Backend, a: Api, now: nat, lost: set<SessionId>)
    requires ApiOk(b, a, now)
    ensures ClosesRows(a, Gc(a, now, lost))
  {
    var ids := RowsOf(a.sessions, Expired(a.sessions, now), lost);
    forall i | i in ids && i < |a.rows| ensures a.rows[i].metadata.NormalAb? {
      var id :| id in Expired(a.sessions, now) && id !in lost && a.sessions[id].row == i;
      assert SessionOk(a.wallets, a.rows, id, a.sessions[id], now);
    }
    forall id | id in Gc(a, now, lost).sessions ensures a.sessions[id].row !in ids {
      LiveRowSurvives(b, a, now, lost, id);
    }
  }

  lemma FailCloses(a: Api, id: SessionId, written: bool)
    requires id in a.sessions && IsAb(a.rows, a.sessions[id].row)
    requires forall other :: other in a.sessions && other != id ==> a.sessions[other].row != a.sessions[id].row
    ensures ClosesRows(a, FailRow(a.(sessions := a.sessions - {id}), a.sessions[id].row, written))
  {
  }

  lemma FailKeepsOk(b: Backend, a: Api, id: SessionId, written: bool, now: nat)
    requires ApiOk(b, a, now) && id in a.sessions
    ensures var a' := FailRow(a.(sessions := a.sessions - {id}), a.sessions[id].row, written);
            ApiOk(b, a', now) && AbFrame(a, a')
  {
    assert SessionOk(a.wallets, a.rows, id, a.sessions[id], now);
    forall other | other in a.sessions && other != id ensures a.sessions[other].row != a.sessions[id].row {
      SessionRowsDiffer(b, a, now, id, other);
    }
    FailCloses(a, id, written);
    ClosingKeepsOk(b, a, FailRow(a.(sessions := a.sessions - {id}), a.sessions[id].row, written), now);
  }

  lemma DropKeepsOk(b: Backend, a: Api, sessions: map<SessionId, Session>, now: nat)
    requires ApiOk(b, a, now) && forall id :: id in sessions ==> id in a.sessions && sessions[id] == a.sessions[id]
    ensures ApiOk(b, a.(sessions := sessions), now) && AbFrame(a, a.(sessions := sessions))
  {
    ClosingKeepsOk(b, a, a.(sessions := sessions), now);
  }

  lemma AbortKeepsOk(b: Backend, a: Api, user: UserId, id: SessionId, written: bool, now: nat)
    requires ApiOk(b, a, now)
    ensures ApiOk(b, Abort(a, user, id, written), now) && AbFrame(a, Abort(a, user, id, written))
  {
    if Owned(a, user, id) {
      FailKeepsOk(b, a, id, written, now);
    } else {
      DropKeepsOk(b, a, a.sessions, now);
    }
  }

  // ---- rounds ----

  lemma HearShape(b: Backend, a: Api, id: SessionId, n: nat, msgs: seq<Message>)
    requires id in a.sessions
    ensures var a' := Hear(b, a, id, n, msgs).0;
            a' == a || (id in a'.sessions && a'.sessions[id].party.id == a.sessions[id].party.id
                        && a' == a.(sessions := a.sessions[id := a.sessions[id].(party := a'.sessions[id].party)]))
  {
  }

  /** A round moves party B of one session and nothing else. */
  lemma RoundShape(
    b: Backend, a0: Api, now: nat, lost: set<SessionId>, user: UserId, id: SessionId, n: nat, msgs: seq<Message>)
    ensures var a := Gc(a0, now, lost);
            var a' := HandleRound(b, a0, now, lost, user, id, n, msgs).0;
            a' == a || (id in a.sessions && id in a'.sessions && a'.sessions[id].party.id == a.sessions[id].party.id
                        && a' == a.(sessions := a.sessions[id := a.sessions[id].(party := a'.sessions[id].party)]))
  {
    var a := Gc(a0, now, lost);
    if Owned(a, user, id) {
      HearShape(b, a, id, n, msgs);
    }
  }

  lemma PartyKeepsOk(b: Backend, a: Api, id: SessionId, p: Party, now: nat)
    requires ApiOk(b, a, now) && id in a.sessions && p.id == a.sessions[id].party.id
    ensures var a' := a.(sessions := a.sessions[id := a.sessions[id].(party := p)]); ApiOk(b, a', now) && AbFrame(a, a')
  {
  }

  lemma RoundKeepsOk(
    b: Backend, a0: Api, now: nat, lost: set<SessionId>, user: UserId, id: SessionId, n: nat, msgs: seq<Message>)
    requires ApiOk(b, a0, now)
    ensures var a' := HandleRound(b, a0, now, lost, user, id, n, msgs).0; ApiOk(b, a', now) && AbFrame(a0, a')
  {
    var a := Gc(a0, now, lost);
    var a' := HandleRound(b, a0, now, lost, user, id, n, msgs).0;
    GcKeepsOk(b, a0, now, lost);
    RoundShape(b, a0, now, lost, user, id, n, msgs);
    if a' != a {
      PartyKeepsOk(b, a, id, a'.sessions[id].party, now);
      FrameTrans(a0, a, a');
    }
  }

  // ---- start ----

  /** Session ids are drawn at random: this one was never drawn before. */
  ghost predicate FreshSession(a: Api, id: SessionId) {
    id !in a.sessions && forall i :: 0 <= i < |a.rows| && IsAb(a.rows, i) ==> a.rows[i].metadata.session != id
  }

  lemma StaleSessionIsDropped(rows: seq<Row>, w: WalletId, now: nat, i: nat)
    requires i < |rows| && IsStale(rows[i], w, now)
    ensures rows[i].metadata.session in StaleSessions(rows, w, now)
  {
  }

  /** The state after the expiry loop of start. */
  function WithoutStale(a: Api, w: WalletId, now: nat): Api {
    a.(rows := ExpireRows(a.rows, StaleRows(a.rows, w, now)), sessions := a.sessions - StaleSessions(a.rows, w, now))
  }

  lemma ExpiryKeepsOk(b: Backend, a: Api, w: WalletId, now: nat)
    requires ApiOk(b, a, now)
    ensures ApiOk(b, WithoutStale(a, w, now), now) && AbFrame(a, WithoutStale(a, w, now))
  {
    ExpiryClosesRows(b, a, w, now);
    ClosingKeepsOk(b, a, WithoutStale(a, w, now), now);
  }

  lemma ExpiryClosesRows(b: Backend, a: Api, w: WalletId, now: nat)
    requires SessionsOk(b, a.wallets, a.rows, a.sessions, now)
    ensures ClosesRows(a, WithoutStale(a, w, now))
  {
    forall id | id in a.sessions && id !in StaleSessions(a.rows, w, now)
      ensures a.sessions[id].row !in StaleRows(a.rows, w, now)
    {
      var i := a.sessions[id].row;
      assert SessionOk(a.wallets, a.rows, id, a.sessions[id], now);
      if IsStale(a.rows[i], w, now) {
        StaleSessionIsDropped(a.rows, w, now, i);
      }
    }
  }

  lemma OnlyOneWasOpen(wallets: map<WalletId, Wallet>, rows: seq<Row>, rows': seq<Row>, w: WalletId, i: nat)
    requires OpenOk(wallets, rows) && i < |rows| && OpenAb(rows[i], w)
    requires |rows'| == |rows| && rows' == rows[i := rows'[i]] && !OpenAb(rows'[i], w)
    ensures forall j :: 0 <= j < |rows'| ==> !OpenAb(rows'[j], w)
  {
  }

  /** Settling closes the wallet's one open A+B row, or throws. */
  lemma SettleAbKeepsOk(b: Backend, a: Api, w: WalletId, l: Ledger, now: nat)
    requires ApiOk(b, a, now) && SettleNormalAb(a.rows, w, l).Ok?
    ensures var a' := a.(rows := SettleNormalAb(a.rows, w, l).value);
            ApiOk(b, a', now) && AbFrame(a, a') && |a'.rows| == |a.rows|
            && forall i :: 0 <= i < |a.rows| ==> !OpenAb(a'.rows[i], w)
  {
    var rows', found := SettleNormalAb(a.rows, w, l).value, FindOpenNormalAb(a.rows, w);
    if found.Some? {
      AbSettlementMeans(a.rows, w, l, found.value);
      SettledOneKeepsOk(b, a, w, found.value, rows', now);
    } else {
      NoOpenAbIsClear(a.rows, w, l);
      DropKeepsOk(b, a, a.sessions, now);
    }
  }

  lemma SettledOneKeepsOk(b: Backend, a: Api, w: WalletId, i: nat, rows': seq<Row>, now: nat)
    requires ApiOk(b, a, now) && i < |a.rows| && OpenAb(a.rows[i], w) && a.rows[i].status == BROADCASTED
    requires |rows'| == |a.rows| && rows'[i] == a.rows[i].(status := rows'[i].status) && rows'[i].status in {EXECUTED, FAILED}
    requires forall j :: 0 <= j < |a.rows| && j != i ==> rows'[j] == a.rows[j]
    ensures ApiOk(b, a.(rows := rows'), now) && AbFrame(a, a.(rows := rows')) && forall j :: 0 <= j < |rows'| ==> !OpenAb(rows'[j], w)
  {
    assert rows' == a.rows[i := a.rows[i].(status := rows'[i].status)];
    SettleOneKeepsOk(b, a, i, rows'[i].status, now);
    OnlyOneWasOpen(a.wallets, a.rows, rows', w, i);
  }

  lemma SettleOneKeepsOk(b: Backend, a: Api, i: nat, status: WithdrawStatus, now: nat)
    requires ApiOk(b, a, now) && IsAb(a.rows, i) && a.rows[i].status == BROADCASTED && status in {EXECUTED, FAILED}
    ensures var a' := a.(rows := a.rows[i := a.rows[i].(status := status)]); ApiOk(b, a', now) && AbFrame(a, a')
  {
    var rows' := a.rows[i := a.rows[i].(status := status)];
    forall id | id in a.sessions
      ensures SessionOk(a.wallets, rows', id, a.sessions[id], now) && IntentOk(b, a.sessions[id], rows'[a.sessions[id].row])
    {
      assert SessionOk(a.wallets, a.rows, id, a.sessions[id], now);
    }
    forall k | 0 <= k < |a.sent| ensures SentOk(b, rows', a.sent[k]) {
      assert SentOk(b, a.rows, a.sent[k]);
    }
    forall j | 0 <= j < |rows'| && IsAb(rows', j) && rows'[j].txHash.Some?
      ensures HashSent(b.codec, a.sent, j, rows'[j].txHash.value)
    {
      assert IsAb(a.rows, j);
    }
  }

  lemma AppendKeepsRows(wallets: map<WalletId, Wallet>, rows: seq<Row>, row: Row, now: nat)
    requires RowsOk(wallets, rows, now) && OpenOk(wallets, rows)
    requires row.metadata.NormalAb? && row.createdAt == now && row.key.Some? && row.key.value.wallet == row.wallet
    requires forall i :: 0 <= i < |rows| ==> rows[i].key != row.key
    requires forall i :: 0 <= i < |rows| && IsAb(rows, i) ==> rows[i].metadata.session != row.metadata.session
    requires row.wallet in wallets && wallets[row.wallet].status == ACTIVE
    requires forall i :: 0 <= i < |rows| ==> !OpenAb(rows[i], row.wallet)
    ensures RowsOk(wallets, rows + [row], now) && OpenOk(wallets, rows + [row])
  {
  }

  lemma AppendKeepsSends(
    b: Backend, rows: seq<Row>, row: Row, sessions: map<SessionId, Session>, id: SessionId, s: Session, sent: seq<Sent>)
    requires SendsOk(b, rows, sessions, sent)
    requires row.status == PROCESSING && row.txHash.None? && s.row == |rows|
    ensures SendsOk(b, rows + [row], sessions[id := s], sent)
  {
  }

  lemma AppendKeepsOk(b: Backend, a: Api, row: Row, id: SessionId, s: Session, now: nat)
    requires ApiOk(b, a, now) && FreshSession(a, id)
    requires row.metadata.NormalAb? && row.metadata.session == id && row.status == PROCESSING && row.txHash.None?
    requires row.createdAt == now && row.key.Some? && row.key.value.wallet == row.wallet
    requires forall i :: 0 <= i < |a.rows| ==> a.rows[i].key != row.key
    requires row.wallet in a.wallets && a.wallets[row.wallet].status == ACTIVE
    requires forall i :: 0 <= i < |a.rows| ==> !OpenAb(a.rows[i], row.wallet)
    requires s.row == |a.rows| && s.wallet == row.wallet && s.user == a.wallets[row.wallet].user
    requires s.digest == row.metadata.digest && s.createdAt == now && s.party.id == PARTY_B && IntentOk(b, s, row)
    ensures var a' := a.(rows := a.rows + [row], sessions := a.sessions[id := s]); ApiOk(b, a', now) && AbFrame(a, a')
  {
    var rows', sessions' := a.rows + [row], a.sessions[id := s];
    AppendKeepsRows(a.wallets, a.rows, row, now);
    AppendKeepsSends(b, a.rows, row, a.sessions, id, s, a.sent);
    forall other | other in sessions'
      ensures SessionOk(a.wallets, rows', other, sessions'[other], now) && IntentOk(b, sessions'[other], rows'[sessions'[other].row])
    {
      if other != id {
        assert SessionOk(a.wallets, a.rows, other, a.sessions[other], now);
        assert IntentOk(b, a.sessions[other], a.rows[a.sessions[other].row]);
      }
    }
  }

  /** After expiry and settlement the wallet has no open A+B row, and rows keep their keys and metadata. */
  lemma TableIsReady(b: Backend, a: Api, w: WalletId, l: Ledger, now: nat)
    requires ApiOk(b, a, now)
    requires SettleNormalAb(ExpireRows(a.rows, StaleRows(a.rows, w, now)), w, l).Ok?
    ensures var rows := SettleNormalAb(ExpireRows(a.rows, StaleRows(a.rows, w, now)), w, l).value;
            var a' := a.(rows := rows, sessions := a.sessions - StaleSessions(a.rows, w, now));
            && ApiOk(b, a', now)
            && AbFrame(a, a')
            && |rows| == |a.rows|
            && forall i :: 0 <= i < |a.rows| ==>
                             !OpenAb(rows[i], w) && rows[i].key == a.rows[i].key && rows[i].metadata == a.rows[i].metadata
  {
    var a1 := WithoutStale(a, w, now);
    ExpiryKeepsOk(b, a, w, now);
    SettleAbKeepsOk(b, a1, w, l, now);
    FrameTrans(a, a1, a1.(rows := SettleNormalAb(a1.rows, w, l).value));
  }

  /** The row and session start creates fit each other and the request. */
  lemma CreatedFits(b: Backend, a: Api, now: nat, l: Ledger, q: StartCall, to: Address, amount: nat, asset: Asset, p: Prepared)
    requires BackendOk(b) && q.wallet in a.wallets && b.codec.getAddress(to) == Some(to)
    requires PrepareWithdraw(b.codec, q.net, asset, a.wallets[q.wallet].address, to, amount, b.token) == Ok(p) && Encodable(p.tx)
    requires Create(b, a, now, l, q, to, amount, asset, p).1.Signing?
    ensures var rows := SettleNormalAb(ExpireRows(a.rows, StaleRows(a.rows, q.wallet, now)), q.wallet, l);
            var a' := Create(b, a, now, l, q, to, amount, asset, p).0;
            && rows.Ok?
            && |a'.rows| == |rows.value| + 1
            && q.session in a'.sessions
            && var row, s := a'.rows[|rows.value|], a'.sessions[q.session];
               && a' == a.(rows := rows.value + [row],
                           sessions := (a.sessions - StaleSessions(a.rows, q.wallet, now))[q.session := s])
               && row.metadata.NormalAb? && row.metadata.session == q.session && row.status == PROCESSING && row.txHash.None?
               && row.createdAt == now && row.wallet == q.wallet && row.key == Some(Key(q.wallet, Trim(q.key)))
               && s.row == |rows.value| && s.wallet == q.wallet && s.user == q.user
               && s.digest == row.metadata.digest && s.createdAt == now && s.party.id == PARTY_B && IntentOk(b, s, row)
  {
    PreparedIsTheTransfer(b.codec, q.net, asset, a.wallets[q.wallet].address, to, amount, b.token);
    StoredFieldsRebuild(b.codec, p.tx);
  }

  lemma CreateKeepsOk(
    b: Backend, a: Api, now: nat, l: Ledger, q: StartCall, to: Address, amount: nat, asset: Asset, p: Prepared)
    requires ApiOk(b, a, now) && BackendOk(b) && FreshSession(a, q.session)
    requires WalletRefusal(a, q.user, q.wallet, to).None?
    requires b.codec.getAddress(to) == Some(to)
    requires FindByKey(a.rows, Key(q.wallet, Trim(q.key))).None?
    requires PrepareWithdraw(b.codec, q.net, asset, a.wallets[q.wallet].address, to, amount, b.token) == Ok(p) && Encodable(p.tx)
    ensures var a' := Create(b, a, now, l, q, to, amount, asset, p).0; ApiOk(b, a', now) && AbFrame(a, a')
  {
    var settled := SettleNormalAb(ExpireRows(a.rows, StaleRows(a.rows, q.wallet, now)), q.wallet, l);
    if settled.Err? {
      DropKeepsOk(b, a, a.sessions - StaleSessions(a.rows, q.wallet, now), now);
    } else {
      CreatedKeepsOk(b, a, now, l, q, to, amount, asset, p);
    }
  }

  lemma CreatedKeepsOk(
    b: Backend, a: Api, now: nat, l: Ledger, q: StartCall, to: Address, amount: nat, asset: Asset, p: Prepared)
    requires ApiOk(b, a, now) && BackendOk(b) && FreshSession(a, q.session) && b.codec.getAddress(to) == Some(to)
    requires q.wallet in a.wallets && a.wallets[q.wallet].user == q.user && a.wallets[q.wallet].status == ACTIVE
    requires forall i :: 0 <= i < |a.rows| ==> a.rows[i].key != Some(Key(q.wallet, Trim(q.key)))
    requires PrepareWithdraw(b.codec, q.net, asset, a.wallets[q.wallet].address, to, amount, b.token) == Ok(p) && Encodable(p.tx)
    requires Create(b, a, now, l, q, to, amount, asset, p).1.Signing?
    ensures var a' := Create(b, a, now, l, q, to, amount, asset, p).0; ApiOk(b, a', now) && AbFrame(a, a')
  {
    CreatedFits(b, a, now, l, q, to, amount, asset, p);
    TableIsReady(b, a, q.wallet, l, now);
    var rows := SettleNormalAb(ExpireRows(a.rows, StaleRows(a.rows, q.wallet, now)), q.wallet, l).value;
    var a2 := a.(rows := rows, sessions := a.sessions - StaleSessions(a.rows, q.wallet, now));
    var a' := Create(b, a, now, l, q, to, amount, asset, p).0;
    AppendToReadyKeepsOk(b, a, a2, now, a'.rows[|rows|], q.session, a'.sessions[q.session]);
  }

  /** The new row and session behind a table on which the wallet has no open row. */
  lemma AppendToReadyKeepsOk(b: Backend, a: Api, a2: Api, now: nat, row: Row, id: SessionId, s: Session)
    requires ApiOk(b, a2, now) && AbFrame(a, a2) && |a2.rows| == |a.rows| && FreshSession(a, id)
    requires forall x :: x in a2.sessions ==> x in a.sessions
    requires forall i :: 0 <= i < |a.rows| ==>
                           !OpenAb(a2.rows[i], row.wallet) && a2.rows[i].key == a.rows[i].key && a2.rows[i].metadata == a.rows[i].metadata
                           && a.rows[i].key != row.key
    requires row.metadata.NormalAb? && row.metadata.session == id && row.status == PROCESSING && row.txHash.None?
    requires row.createdAt == now && row.key.Some? && row.key.value.wallet == row.wallet
    requires row.wallet in a.wallets && a.wallets[row.wallet].status == ACTIVE
    requires s.row == |a2.rows| && s.wallet == row.wallet && s.user == a.wallets[row.wallet].user
    requires s.digest == row.metadata.digest && s.createdAt == now && s.party.id == PARTY_B && IntentOk(b, s, row)
    ensures var a' := a2.(rows := a2.rows + [row], sessions := a2.sessions[id := s]); ApiOk(b, a', now) && AbFrame(a, a')
  {
    AppendKeepsOk(b, a2, row, id, s, now);
    FrameTrans(a, a2, a2.(rows := a2.rows + [row], sessions := a2.sessions[id := s]));
  }

  lemma StartKeepsOk(b: Backend, a0: Api, now: nat, l: Ledger, lost: set<SessionId>, q: StartCall)
    requires ApiOk(b, a0, now) && BackendOk(b) && FreshSession(a0, q.session)
    ensures var a' := Start(b, a0, now, l, lost, q).0; ApiOk(b, a', now) && AbFrame(a0, a')
  {
    GcKeepsOk(b, a0, now, lost);
    var a := Gc(a0, now, lost);
    var a' := Start(b, a0, now, l, lost, q).0;
    if a' != a {
      var to := b.codec.getAddress(q.to).value;
      var amount := ParseWithdrawAmountToWei(b.codec, q.amount).value;
      var asset := ParseWithdrawAsset(q.asset).value;
      var found := FindByKey(a.rows, Key(q.wallet, Trim(q.key)));
      if found.Some? {
        DropKeepsOk(b, a, a'.sessions, now);
      } else {
        GcKeepsFresh(a0, now, lost, q.session);
        var p := PrepareWithdraw(b.codec, q.net, asset, a.wallets[q.wallet].address, to, amount, b.token);
        CreateKeepsOk(b, a, now, l, q, to, amount, asset, p.value);
      }
      FrameTrans(a0, a, a');
    }
  }

  lemma GcKeepsFresh(a: Api, now: nat, lost: set<SessionId>, id: SessionId)
    requires FreshSession(a, id)
    ensures FreshSession(Gc(a, now, lost), id)
  {
  }

  // ---- complete ----

  /** What is broadcast for a session is its row's transfer, with the digest the browser was sent. */
  lemma SignedIsTheIntent(b: Backend, a: Api, now: nat, id: SessionId, msg4A: seq<Message>)
    requires ApiOk(b, a, now) && id in a.sessions && SignAsB(b, a.sessions[id], msg4A).Some?
    ensures var s := a.sessions[id];
            var (tx, raw) := SignAsB(b, s, msg4A).value;
            SentOk(b, a.rows, Sent(s.row, tx, raw))
  {
  }

  lemma CallKeepsOk(b: Backend, a: Api, now: nat, id: SessionId, tx: Tx, raw: Raw)
    requires ApiOk(b, a, now) && id in a.sessions && SentOk(b, a.rows, Sent(a.sessions[id].row, tx, raw))
    ensures var a' := a.(sent := a.sent + [Sent(a.sessions[id].row, tx, raw)], sessions := a.sessions - {id});
            ApiOk(b, a', now) && AbFrame(a, a')
  {
    var s := a.sessions[id];
    SessionRowUnsent(b, a, now, id);
    forall other | other in a.sessions && other != id ensures a.sessions[other].row != s.row {
      SessionRowsDiffer(b, a, now, id, other);
    }
    CallKeepsSends(b, a.rows, a.sessions, a.sent, id, Sent(s.row, tx, raw));
  }

  lemma SessionRowUnsent(b: Backend, a: Api, now: nat, id: SessionId)
    requires ApiOk(b, a, now) && id in a.sessions
    ensures forall k :: 0 <= k < |a.sent| ==> a.sent[k].row != a.sessions[id].row
  {
  }

  lemma CallKeepsSends(b: Backend, rows: seq<Row>, sessions: map<SessionId, Session>, sent: seq<Sent>, id: SessionId, e: Sent)
    requires SendsOk(b, rows, sessions, sent) && SentOk(b, rows, e)
    requires forall k :: 0 <= k < |sent| ==> sent[k].row != e.row
    requires forall other :: other in sessions && other != id ==> sessions[other].row != e.row
    ensures SendsOk(b, rows, sessions - {id}, sent + [e])
  {
    forall i | 0 <= i < |rows| && IsAb(rows, i) && rows[i].txHash.Some?
      ensures HashSent(b.codec, sent + [e], i, rows[i].txHash.value)
    {
      var k :| 0 <= k < |sent| && sent[k].row == i && b.codec.hash(sent[k].raw) == rows[i].txHash.value;
      assert (sent + [e])[k] == sent[k];
    }
  }

  /** When complete ends before signing it changed nothing, dropped the session, or failed its row. */
  lemma CompleteGuardShape(a: Api, user: UserId, id: SessionId, msg4A: seq<Message>, written: bool)
    requires CompleteGuard(a, user, id, msg4A, written).Some?
    ensures var a' := CompleteGuard(a, user, id, msg4A, written).value.0;
            || a' == a
            || (id in a.sessions && (a' == a.(sessions := a.sessions - {id})
                                     || a' == FailRow(a.(sessions := a.sessions - {id}), a.sessions[id].row, written)))
  {
  }

  lemma CompleteGuardKeepsOk(b: Backend, a: Api, now: nat, user: UserId, id: SessionId, msg4A: seq<Message>, written: bool)
    requires ApiOk(b, a, now) && CompleteGuard(a, user, id, msg4A, written).Some?
    ensures var a' := CompleteGuard(a, user, id, msg4A, written).value.0; ApiOk(b, a', now) && AbFrame(a, a')
  {
    var a' := CompleteGuard(a, user, id, msg4A, written).value.0;
    CompleteGuardShape(a, user, id, msg4A, written);
    if a' == a {
      DropKeepsOk(b, a, a.sessions, now);
    } else if a' == a.(sessions := a.sessions - {id}) {
      DropKeepsOk(b, a, a.sessions - {id}, now);
    } else {
      FailKeepsOk(b, a, id, written, now);
    }
  }

  /** The row of a finished broadcast takes the hash of that broadcast. */
  lemma BroadcastedKeepsOk(b: Backend, a: Api, now: nat, id: SessionId, tx: Tx, raw: Raw, status: WithdrawStatus)
    requires ApiOk(b, a, now) && id in a.sessions && SentOk(b, a.rows, Sent(a.sessions[id].row, tx, raw))
    requires status in {BROADCASTED, EXECUTED}
    ensures var i := a.sessions[id].row;
            var row' := a.rows[i].(status := status, txHash := Some(b.codec.hash(raw)));
            var a' := a.(sent := a.sent + [Sent(i, tx, raw)], sessions := a.sessions - {id}, rows := a.rows[i := row']);
            ApiOk(b, a', now) && AbFrame(a, a')
  {
    var i := a.sessions[id].row;
    assert SessionOk(a.wallets, a.rows, id, a.sessions[id], now);
    CallKeepsOk(b, a, now, id, tx, raw);
    var m := a.(sent := a.sent + [Sent(i, tx, raw)], sessions := a.sessions - {id});
    assert m.sent[|a.sent|].row == i;
    assert a.rows[i].txHash.None?;
    TakeHashKeepsOk(b, m, now, i, |a.sent|, status);
  }

  /** A row no session points to may change. */
  lemma OtherRowKeepsSessions(b: Backend, m: Api, now: nat, i: nat, row: Row)
    requires SessionsOk(b, m.wallets, m.rows, m.sessions, now) && i < |m.rows|
    requires forall id :: id in m.sessions ==> m.sessions[id].row != i
    ensures SessionsOk(b, m.wallets, m.rows[i := row], m.sessions, now)
  {
    forall id | id in m.sessions
      ensures var rows' := m.rows[i := row];
              SessionOk(m.wallets, rows', id, m.sessions[id], now) && IntentOk(b, m.sessions[id], rows'[m.sessions[id].row])
    {
      assert SessionOk(m.wallets, m.rows, id, m.sessions[id], now);
    }
  }

  lemma TakeHashKeepsOk(b: Backend, m: Api, now: nat, i: nat, k: nat, status: WithdrawStatus)
    requires ApiOk(b, m, now) && k < |m.sent| && m.sent[k].row == i && IsAb(m.rows, i)
    requires m.rows[i].status == PROCESSING && m.rows[i].txHash.None? && status in {BROADCASTED, EXECUTED}
    ensures var row' := m.rows[i].(status := status, txHash := Some(b.codec.hash(m.sent[k].raw)));
            var a' := m.(rows := m.rows[i := row']);
            ApiOk(b, a', now) && AbFrame(m, a')
  {
    var rows' := m.rows[i := m.rows[i].(status := status, txHash := Some(b.codec.hash(m.sent[k].raw)))];
    OtherRowKeepsSessions(b, m, now, i, rows'[i]);
    forall n | 0 <= n < |m.sent| ensures SentOk(b, rows', m.sent[n]) {
      assert SentOk(b, m.rows, m.sent[n]);
    }
    forall j | 0 <= j < |rows'| && IsAb(rows', j) && rows'[j].txHash.Some?
      ensures HashSent(b.codec, m.sent, j, rows'[j].txHash.value)
    {
      assert IsAb(m.rows, j);
    }
  }

  /** Failing a row no session points to any more. */
  lemma FailFreeRowKeepsOk(b: Backend, a: Api, i: nat, written: bool, now: nat)
    requires ApiOk(b, a, now) && IsAb(a.rows, i) && forall id :: id in a.sessions ==> a.sessions[id].row != i
    ensures ApiOk(b, FailRow(a, i, written), now) && AbFrame(a, FailRow(a, i, written))
  {
    ClosingKeepsOk(b, a, FailRow(a, i, written), now);
  }

  lemma CompleteFailedKeepsOk(b: Backend, a: Api, now: nat, id: SessionId, written: bool)
    requires ApiOk(b, a, now) && id in a.sessions
    ensures var a' := CompleteFailed(a, id, a.sessions[id].row, written).0; ApiOk(b, a', now) && AbFrame(a, a')
  {
    assert SessionOk(a.wallets, a.rows, id, a.sessions[id], now);
    FailKeepsOk(b, a, id, written, now);
    assert CompleteFailed(a, id, a.sessions[id].row, written).0
        == FailRow(a.(sessions := a.sessions - {id}), a.sessions[id].row, written);
  }

  lemma CompleteFailedAfterCallKeepsOk(b: Backend, a: Api, now: nat, id: SessionId, tx: Tx, raw: Raw, written: bool)
    requires ApiOk(b, a, now) && id in a.sessions && SentOk(b, a.rows, Sent(a.sessions[id].row, tx, raw))
    ensures var i := a.sessions[id].row;
            var a' := CompleteFailed(a.(sent := a.sent + [Sent(i, tx, raw)]), id, i, written).0;
            ApiOk(b, a', now) && AbFrame(a, a')
  {
    var i := a.sessions[id].row;
    assert SessionOk(a.wallets, a.rows, id, a.sessions[id], now);
    CallKeepsOk(b, a, now, id, tx, raw);
    var m := a.(sent := a.sent + [Sent(i, tx, raw)], sessions := a.sessions - {id});
    forall other | other in m.sessions ensures m.sessions[other].row != i {
      SessionRowsDiffer(b, a, now, id, other);
    }
    FailFreeRowKeepsOk(b, m, i, written, now);
    FrameTrans(a, m, FailRow(m, i, written));
  }

  lemma CompleteStepKeepsOk(
    b: Backend, a: Api, a0: Api, now: nat, l: Ledger, lost: set<SessionId>, user: UserId, id: SessionId, msg4A: seq<Message>,
    o: Outcome)
    requires a == Gc(a0, now, lost) && ApiOk(b, a, now)
    ensures var a' := Complete(b, a0, now, l, lost, user, id, msg4A, o).0; ApiOk(b, a', now) && AbFrame(a, a')
  {
    if CompleteGuard(a, user, id, msg4A, o.failWritten).Some? {
      CompleteGuardKeepsOk(b, a, now, user, id, msg4A, o.failWritten);
    } else {
      SignAndBroadcastKeepsOk(b, a, now, l, id, msg4A, o);
    }
  }

  lemma SignAndBroadcastKeepsOk(b: Backend, a: Api, now: nat, l: Ledger, id: SessionId, msg4A: seq<Message>, o: Outcome)
    requires ApiOk(b, a, now) && id in a.sessions
    ensures var a' := SignAndBroadcast(b, a, l, id, msg4A, o).0; ApiOk(b, a', now) && AbFrame(a, a')
  {
    var s := a.sessions[id];
    assert SessionOk(a.wallets, a.rows, id, s, now);
    var signed := SignAsB(b, s, msg4A);
    if signed.None? {
      CompleteFailedKeepsOk(b, a, now, id, o.failWritten);
    } else {
      var (tx, raw) := signed.value;
      SignedIsTheIntent(b, a, now, id, msg4A);
      if !o.rpcOk || !o.persisted {
        CompleteFailedAfterCallKeepsOk(b, a, now, id, tx, raw, o.failWritten);
      } else {
        BroadcastedKeepsOk(b, a, now, id, tx, raw, SignAndBroadcast(b, a, l, id, msg4A, o).0.rows[s.row].status);
      }
    }
  }

  lemma CompleteKeepsOk(
    b: Backend, a0: Api, now: nat, l: Ledger, lost: set<SessionId>, user: UserId, id: SessionId, msg4A: seq<Message>, o: Outcome)
    requires ApiOk(b, a0, now)
    ensures var a' := Complete(b, a0, now, l, lost, user, id, msg4A, o).0; ApiOk(b, a', now) && AbFrame(a0, a')
  {
    GcKeepsOk(b, a0, now, lost);
    var a := Gc(a0, now, lost);
    CompleteStepKeepsOk(b, a, a0, now, l, lost, user, id, msg4A, o);
    FrameTrans(a0, a, Complete(b, a0, now, l, lost, user, id, msg4A, o).0);
  }

  lemma RestartKeepsOk(b: Backend, a: Api, now: nat)
    requires ApiOk(b, a, now)
    ensures ApiOk(b, a.(sessions := map[]), now) && AbFrame(a, a.(sessions := map[]))
  {
    DropKeepsOk(b, a, map[], now);
  }

  lemma CompleteThenCrashKeepsOk(
    b: Backend, a0: Api, now: nat, lost: set<SessionId>, user: UserId, id: SessionId, msg4A: seq<Message>)
    requires ApiOk(b, a0, now)
    ensures var a' := CompleteThenCrash(b, a0, now, lost, user, id, msg4A); ApiOk(b, a', now) && AbFrame(a0, a')
  {
    GcKeepsOk(b, a0, now, lost);
    var a := Gc(a0, now, lost);
    var a' := CompleteThenCrash(b, a0, now, lost, user, id, msg4A);
    if CompleteGuard(a, user, id, msg4A, false).None? && SignAsB(b, a.sessions[id], msg4A).Some? {
      var (tx, raw) := SignAsB(b, a.sessions[id], msg4A).value;
      SignedIsTheIntent(b, a, now, id, msg4A);
      CallKeepsOk(b, a, now, id, tx, raw);
      var m := a.(sent := a.sent + [Sent(a.sessions[id].row, tx, raw)], sessions := a.sessions - {id});
      RestartKeepsOk(b, m, now);
      FrameTrans(a, m, a');
    } else {
      assert a.sent + [] == a.sent;
      RestartKeepsOk(b, a, now);
    }
    FrameTrans(a0, a, a');
  }

  // ---- Any A+B step ----

  /** A handler call, or the end of the API process; `down` are the hashes the RPC cannot answer for. */
  datatype AbStep =
    | SignStart(down: set<TxHash>, lost: set<SessionId>, call: StartCall)
    | SignRound(
        down: set<TxHash>, lost: set<SessionId>, user: UserId, session: SessionId, round: nat, msgs: seq<Message>)
    | SignComplete(
        down: set<TxHash>, lost: set<SessionId>, user: UserId, session: SessionId, msgs: seq<Message>, outcome: Outcome)
    | SignAbort(down: set<TxHash>, user: UserId, session: SessionId, written: bool)
    | CompleteThenDies(
        down: set<TxHash>, lost: set<SessionId>, user: UserId, session: SessionId, msgs: seq<Message>)
    | Restart(down: set<TxHash>)

  function ApplyAb(b: Backend, a: Api, now: nat, l: Ledger, s: AbStep): Api {
    match s
    case SignStart(_, lost, q) => Start(b, a, now, l, lost, q).0
    case SignRound(_, lost, user, id, n, msgs) => HandleRound(b, a, now, lost, user, id, n, msgs).0
    case SignComplete(_, lost, user, id, msgs, o) => Complete(b, a, now, l, lost, user, id, msgs, o).0
    case SignAbort(_, user, id, written) => Abort(a, user, id, written)
    case CompleteThenDies(_, lost, user, id, msgs) => CompleteThenCrash(b, a, now, lost, user, id, msgs)
    case Restart(_) => a.(sessions := map[])
  }

  ghost predicate AbEnabled(a: Api, s: AbStep) {
    s.SignStart? ==> FreshSession(a, s.call.session)
  }

  lemma AbStepKeepsOk(b: Backend, a: Api, now: nat, l: Ledger, s: AbStep)
    requires ApiOk(b, a, now) && BackendOk(b) && AbEnabled(a, s)
    ensures ApiOk(b, ApplyAb(b, a, now, l, s), now) && AbFrame(a, ApplyAb(b, a, now, l, s))
  {
    match s
    case SignStart(_, lost, q) => StartKeepsOk(b, a, now, l, lost, q);
    case SignRound(_, lost, user, id, n, msgs) => RoundKeepsOk(b, a, now, lost, user, id, n, msgs);
    case SignComplete(_, lost, user, id, msgs, o) => CompleteKeepsOk(b, a, now, l, lost, user, id, msgs, o);
    case SignAbort(_, user, id, written) => AbortKeepsOk(b, a, user, id, written, now);
    case CompleteThenDies(_, lost, user, id, msgs) => CompleteThenCrashKeepsOk(b, a, now, lost, user, id, msgs);
    case Restart(_) => RestartKeepsOk(b, a, now);
  }
}
