/**
 * What every step of the whole system keeps on the emergency side: a raw is stored before it is submitted, a row
 * fails only unsent or reverted, at most one row is open, and emergency rows exist only on wallets that are leaving.
 */
module BcInvariant {
  import opened Types
  import opened EthTransfer
  import opened Withdraws
  import opened AbSigning
  import opened AbInvariant
  import opened LastWithdraw

  /** The hash of the row's raw was mined, with this outcome. */
  predicate MinedAs(c: Codec, chain: map<TxHash, bool>, raw: Raw, success: bool) {
    c.hash(raw) in chain && chain[c.hash(raw)] == success
  }

  /** Status, raw, hash and receipt of one emergency row fit together. */
  predicate BcRowOk(c: Codec, r: Row, chain: map<TxHash, bool>)
    requires r.metadata.EmergencyBc?
  {
    var m := r.metadata;
    if m.signedRaw.Some? then
      var raw := m.signedRaw.value;
      && m.skipped.None?
      && r.txHash == Some(c.hash(raw))
      && (r.status == BROADCASTED
          || (r.status == EXECUTED && MinedAs(c, chain, raw, true))
          || (r.status == FAILED && MinedAs(c, chain, raw, false)))
    else
      && r.txHash.None?
      && if m.skipped.Some? then r.status == EXECUTED && m.asset == ETH && (m.skipped == Some(ETH_DUST) ==> m.tokenTxHash.Some?)
         else r.status == PROCESSING || r.status == FAILED
  }

  /** A row that was created to be signed finds every earlier row closed, and those of its asset FAILED. */
  predicate Supersedes(r: Row, later: Row) {
    r.metadata.EmergencyBc? && later.metadata.EmergencyBc? && r.wallet == later.wallet && later.metadata.skipped.None? ==>
      !IsOpen(r.status) && (r.metadata.asset == later.metadata.asset ==> r.status == FAILED)
  }

  ghost predicate BcRowsOk(c: Codec, rows: seq<Row>, chain: map<TxHash, bool>) {
    && (forall i :: 0 <= i < |rows| && IsBc(rows, i) ==> BcRowOk(c, rows[i], chain))
    && (forall i, j :: 0 <= i < j < |rows| ==> Supersedes(rows[i], rows[j]))
  }

  /** The raw is stored in the row, which is at BROADCASTED or later. */
  predicate Stored(c: Codec, rows: seq<Row>, i: nat, raw: Raw) {
    && IsBc(rows, i)
    && rows[i].metadata.signedRaw == Some(raw)
    && rows[i].txHash == Some(c.hash(raw))
    && rows[i].status in {BROADCASTED, EXECUTED, FAILED}
  }

  predicate Leaving(wallets: map<WalletId, Wallet>, w: WalletId) {
    w in wallets && (wallets[w].status == RETIRING || wallets[w].status == RETIRED)
  }

  /** A row some request may still sign: unsent, and PROCESSING as long as it is not stale. */
  predicate Claimed(rows: seq<Row>, i: nat, w: WalletId, now: nat) {
    && IsBc(rows, i)
    && rows[i].wallet == w
    && rows[i].metadata.skipped.None?
    && rows[i].metadata.signedRaw.None?
    && rows[i].status in {PROCESSING, FAILED}
    && (now < rows[i].createdAt + STALE_EMERGENCY_PROCESSING_MS ==> rows[i].status == PROCESSING)
  }

  /** The row a request has created and not yet resolved. */
  function Claim(pc: Pc): Option<nat> {
    match pc
    case AtSign(_, i, _) => Some(i)
    case AtMarkFailed(i) => Some(i)
    case _ => None
  }

  predicate RequestOk(c: Codec, w: World, r: Request) {
    && r.wallet in w.api.wallets
    && match r.pc
       case AtLock => true
       case AtRebroadcast(i, raw) => Stored(c, w.api.rows, i, raw)
       case AtSign(g, i, _) =>
         Leaving(w.api.wallets, r.wallet) && Claimed(w.api.rows, i, r.wallet, w.now) && w.api.rows[i].metadata.asset == AssetOf(g)
       case AtMarkFailed(i) =>
         && Leaving(w.api.wallets, r.wallet)
         && IsBc(w.api.rows, i) && w.api.rows[i].wallet == r.wallet && w.api.rows[i].metadata.skipped.None?
         && w.api.rows[i].metadata.signedRaw.None? && w.api.rows[i].status in {PROCESSING, FAILED}
       case AtBroadcast(g, i, raw) =>
         Leaving(w.api.wallets, r.wallet) && Stored(c, w.api.rows, i, raw)
         && w.api.rows[i].wallet == r.wallet && w.api.rows[i].metadata.asset == AssetOf(g)
       case AtWait(g, i, raw) =>
         Leaving(w.api.wallets, r.wallet) && Stored(c, w.api.rows, i, raw)
         && w.api.rows[i].wallet == r.wallet && w.api.rows[i].metadata.asset == AssetOf(g)
       case AtSkip(why, token) => Leaving(w.api.wallets, r.wallet) && (why == ETH_DUST ==> TokenHash(token).Some?)
       case AtRetireShare => w.api.wallets[r.wallet].status == RETIRED
       case _ => Leaving(w.api.wallets, r.wallet)
  }

  ghost predicate RequestsOk(c: Codec, w: World) {
    && (forall id :: id in w.requests ==> RequestOk(c, w, w.requests[id]))
    && (forall x, y :: x in w.requests && y in w.requests && x != y && Claim(w.requests[x].pc).Some? ==>
                         Claim(w.requests[x].pc) != Claim(w.requests[y].pc))
  }

  ghost predicate SubmittedOk(c: Codec, rows: seq<Row>, submitted: seq<Submission>) {
    forall k :: 0 <= k < |submitted| ==> Stored(c, rows, submitted[k].row, submitted[k].raw)
  }

  /** RETIRED exactly when Share B is gone; emergency rows only on wallets that are leaving. */
  ghost predicate WalletsOk(wallets: map<WalletId, Wallet>, rows: seq<Row>) {
    && (forall w :: w in wallets ==> (wallets[w].status == RETIRED <==> wallets[w].shareB.None?))
    && (forall i :: 0 <= i < |rows| && IsBc(rows, i) ==> Leaving(wallets, rows[i].wallet))
  }

  ghost predicate BcOk(b: Backend, w: World) {
    && BcRowsOk(b.codec, w.api.rows, w.chain)
    && RequestsOk(b.codec, w)
    && SubmittedOk(b.codec, w.api.rows, w.submitted)
    && WalletsOk(w.api.wallets, w.api.rows)
  }

  // ---- Settlement, row by row ----

  /** What settlement may do to one row. */
  predicate SettleStep(r: Row, r': Row, w: WalletId, mined: map<TxHash, bool>, now: nat) {
    r' == r
    || (OpenBc(r, w) && r' == r.(status := r'.status)
        && if r.status == PROCESSING then
          r.txHash.None? && now >= r.createdAt + STALE_EMERGENCY_PROCESSING_MS && r'.status == FAILED
        else if r.txHash.None? then r'.status == FAILED
        else r.txHash.value in mined && r'.status == if mined[r.txHash.value] then EXECUTED else FAILED)
  }

  lemma JudgeIsSettleStep(r: Row, w: WalletId, l: Ledger, now: nat)
    requires OpenBc(r, w) && Judge(r, l, now).Settled?
    ensures SettleStep(r, r.(status := Judge(r, l, now).status), w, l.mined, now)
  {
  }

  lemma SettlementSteps(rows: seq<Row>, w: WalletId, l: Ledger, now: nat)
    requires !SettleEmergency(rows, w, l, now).Thrown?
    ensures var rows' := SettleEmergency(rows, w, l, now).rows;
            |rows'| == |rows| && forall i :: 0 <= i < |rows| ==> SettleStep(rows[i], rows'[i], w, l.mined, now)
    ensures SettleEmergency(rows, w, l, now).Clear? ==>
              forall i :: 0 <= i < |rows| ==> !OpenBc(SettleEmergency(rows, w, l, now).rows[i], w)
    ensures SettleEmergency(rows, w, l, now).Rebroadcast? ==>
              var r := SettleEmergency(rows, w, l, now);
              r.id < |rows| && OpenBc(rows[r.id], w) && rows[r.id].metadata.signedRaw == Some(r.raw)
              && rows[r.id].txHash == Some(r.hash) && r.rows[r.id] == rows[r.id] && rows[r.id].status == BROADCASTED
  {
    VisitOrder(rows, w);
    var ids := FindOpenEmergencyBc(rows, w);
    var k := SettlementIsDecided(rows, w, l, now);
    var s := SettleEmergency(rows, w, l, now);
    var visited := if s.Clear? then ids else ids[..k];
    var rows' := s.rows;
    assert SettledExactly(rows, rows', visited, l, now);
    forall i | 0 <= i < |rows| ensures SettleStep(rows[i], rows'[i], w, l.mined, now) {
      if i in visited {
        var m :| 0 <= m < |visited| && visited[m] == i;
        assert ids[m] == i && i in ids;
        JudgeIsSettleStep(rows[visited[m]], w, l, now);
      }
    }
    if s.Rebroadcast? {
      RetryIsStored(rows, s.id, l, now);
      assert s.id in ids;
      assert s.id !in visited;
    }
  }

  lemma RetryIsStored(rows: seq<Row>, i: nat, l: Ledger, now: nat)
    requires IsBc(rows, i) && Judge(rows[i], l, now).Retry?
    ensures rows[i].status == BROADCASTED
    ensures rows[i].metadata.signedRaw == Some(Judge(rows[i], l, now).raw) && rows[i].txHash == Some(Judge(rows[i], l, now).hash)
  {
  }

  // ---- Preservation ----

  /** How any step of the system may change one row, as the emergency side sees it. */
  predicate BcStep(c: Codec, r: Row, r': Row, chain: map<TxHash, bool>) {
    && r'.wallet == r.wallet
    && r'.createdAt == r.createdAt
    && if r.metadata.NormalAb? then r'.metadata.NormalAb?
       else
         || r' == r
         || (r.status == PROCESSING && r.metadata.signedRaw.None? && r' == r.(status := FAILED))
         || (r.status == BROADCASTED && r.metadata.signedRaw.Some?
             && ((r' == r.(status := EXECUTED) && MinedAs(c, chain, r.metadata.signedRaw.value, true))
                 || (r' == r.(status := FAILED) && MinedAs(c, chain, r.metadata.signedRaw.value, false))))
         || (r.status == PROCESSING && r.metadata.signedRaw.None? && r'.metadata.EmergencyBc? && r'.metadata.signedRaw.Some?
             && r' == r.(status := BROADCASTED, txHash := Some(c.hash(r'.metadata.signedRaw.value)),
                         metadata := r.metadata.(signedRaw := r'.metadata.signedRaw)))
  }

  ghost predicate ChainGrows(chain: map<TxHash, bool>, chain': map<TxHash, bool>) {
    forall h :: h in chain ==> h in chain' && chain'[h] == chain[h]
  }

  ghost predicate WalletsAdvance(wallets: map<WalletId, Wallet>, wallets': map<WalletId, Wallet>) {
    forall w :: w in wallets ==> w in wallets'
                                 && (Leaving(wallets, w) ==> Leaving(wallets', w))
                                 && (wallets[w].status == RETIRED ==> wallets'[w].status == RETIRED)
  }

  ghost predicate BcEvolves(c: Codec, w: World, w': World) {
    && w.now <= w'.now
    && ChainGrows(w.chain, w'.chain)
    && |w.api.rows| <= |w'.api.rows|
    && (forall i :: 0 <= i < |w.api.rows| ==> BcStep(c, w.api.rows[i], w'.api.rows[i], w'.chain))
    && WalletsAdvance(w.api.wallets, w'.api.wallets)
  }

  /** A claimed row is left alone, or failed because it had become stale. */
  predicate Untouched(r: Row, r': Row, now: nat) {
    r' == r || (r' == r.(status := FAILED) && now >= r.createdAt + STALE_EMERGENCY_PROCESSING_MS)
  }

  lemma RowStaysOk(c: Codec, r: Row, r': Row, chain: map<TxHash, bool>, chain': map<TxHash, bool>)
    requires r.metadata.EmergencyBc? && BcRowOk(c, r, chain) && ChainGrows(chain, chain') && BcStep(c, r, r', chain')
    ensures r'.metadata.EmergencyBc? && BcRowOk(c, r', chain')
  {
  }

  /** Rows that only take such steps keep the invariant. */
  lemma StepsKeepRows(c: Codec, rows: seq<Row>, rows': seq<Row>, chain: map<TxHash, bool>, chain': map<TxHash, bool>)
    requires BcRowsOk(c, rows, chain) && ChainGrows(chain, chain') && |rows'| == |rows|
    requires forall i :: 0 <= i < |rows| ==> BcStep(c, rows[i], rows'[i], chain')
    ensures BcRowsOk(c, rows', chain')
  {
    forall i | 0 <= i < |rows'| && IsBc(rows', i) ensures BcRowOk(c, rows'[i], chain') {
      assert IsBc(rows, i);
      RowStaysOk(c, rows[i], rows'[i], chain, chain');
    }
    forall i, j | 0 <= i < j < |rows'| ensures Supersedes(rows'[i], rows'[j]) {
      assert Supersedes(rows[i], rows[j]);
      assert BcStep(c, rows[i], rows'[i], chain') && BcStep(c, rows[j], rows'[j], chain');
    }
  }

  /** A new row behind rows it supersedes. */
  lemma AppendKeepsRows(c: Codec, rows: seq<Row>, row: Row, chain: map<TxHash, bool>)
    requires BcRowsOk(c, rows, chain)
    requires row.metadata.EmergencyBc? ==> BcRowOk(c, row, chain)
    requires forall i :: 0 <= i < |rows| ==> Supersedes(rows[i], row)
    ensures BcRowsOk(c, rows + [row], chain)
  {
  }

  lemma StoredStays(c: Codec, w: World, w': World, i: nat, raw: Raw)
    requires BcEvolves(c, w, w') && Stored(c, w.api.rows, i, raw)
    ensures Stored(c, w'.api.rows, i, raw) && w'.api.rows[i].wallet == w.api.rows[i].wallet
            && w'.api.rows[i].metadata.asset == w.api.rows[i].metadata.asset
  {
  }

  lemma RequestStays(c: Codec, w: World, w': World, r: Request)
    requires BcEvolves(c, w, w') && RequestOk(c, w, r)
    requires Claim(r.pc).Some? ==> Untouched(w.api.rows[Claim(r.pc).value], w'.api.rows[Claim(r.pc).value], w.now)
    ensures RequestOk(c, w', r)
  {
    match r.pc
    case AtRebroadcast(i, raw) => StoredStays(c, w, w', i, raw);
    case AtBroadcast(_, i, raw) => StoredStays(c, w, w', i, raw);
    case AtWait(_, i, raw) => StoredStays(c, w, w', i, raw);
    case _ =>
  }

  /** The invariant after a step of request `id` (or of nobody, when `id` is not in flight afterwards). */
  lemma Assemble(b: Backend, w: World, w': World, id: RequestId)
    requires BcOk(b, w) && BcEvolves(b.codec, w, w')
    requires BcRowsOk(b.codec, w'.api.rows, w'.chain)
    requires forall i :: |w.api.rows| <= i < |w'.api.rows| && IsBc(w'.api.rows, i) ==> Leaving(w'.api.wallets, w'.api.rows[i].wallet)
    requires forall x :: x in w'.api.wallets ==> (w'.api.wallets[x].status == RETIRED <==> w'.api.wallets[x].shareB.None?)
    requires w'.submitted == w.submitted
             || (exists i, raw :: w'.submitted == w.submitted + [Submission(i, raw)] && Stored(b.codec, w'.api.rows, i, raw))
    requires forall x :: x in w'.requests && x != id ==>
                           && x in w.requests && w'.requests[x] == w.requests[x]
                           && (Claim(w.requests[x].pc).Some? ==>
                                 var i := Claim(w.requests[x].pc).value;
                                 i < |w.api.rows| && Untouched(w.api.rows[i], w'.api.rows[i], w.now))
    requires id in w'.requests ==>
               && RequestOk(b.codec, w', w'.requests[id])
               && (Claim(w'.requests[id].pc).Some? ==>
                     || Claim(w'.requests[id].pc).value >= |w.api.rows|
                     || (id in w.requests && Claim(w.requests[id].pc) == Claim(w'.requests[id].pc)))
    ensures BcOk(b, w')
  {
    forall x | x in w'.requests && x != id ensures RequestOk(b.codec, w', w'.requests[x]) {
      RequestStays(b.codec, w, w', w.requests[x]);
    }
    forall x, y | x in w'.requests && y in w'.requests && x != y && Claim(w'.requests[x].pc).Some?
      ensures Claim(w'.requests[x].pc) != Claim(w'.requests[y].pc)
    {
    }
    forall k | 0 <= k < |w'.submitted| ensures Stored(b.codec, w'.api.rows, w'.submitted[k].row, w'.submitted[k].raw) {
      if k < |w.submitted| {
        StoredStays(b.codec, w, w', w.submitted[k].row, w.submitted[k].raw);
      }
    }
    forall i | 0 <= i < |w'.api.rows| && IsBc(w'.api.rows, i) ensures Leaving(w'.api.wallets, w'.api.rows[i].wallet) {
      if i < |w.api.rows| {
        assert BcStep(b.codec, w.api.rows[i], w'.api.rows[i], w'.chain) && IsBc(w.api.rows, i);
      }
    }
  }

  /** The same for a step that moves no request. */
  lemma AssembleAll(b: Backend, w: World, w': World)
    requires BcOk(b, w) && BcEvolves(b.codec, w, w') && w'.requests == w.requests && w'.submitted == w.submitted
    requires BcRowsOk(b.codec, w'.api.rows, w'.chain)
    requires forall i :: |w.api.rows| <= i < |w'.api.rows| && IsBc(w'.api.rows, i) ==> Leaving(w'.api.wallets, w'.api.rows[i].wallet)
    requires forall x :: x in w'.api.wallets ==> (w'.api.wallets[x].status == RETIRED <==> w'.api.wallets[x].shareB.None?)
    requires forall x :: x in w.requests && Claim(w.requests[x].pc).Some? ==>
                           var i := Claim(w.requests[x].pc).value;
                           i < |w.api.rows| && Untouched(w.api.rows[i], w'.api.rows[i], w.now)
    ensures BcOk(b, w')
  {
    forall x | x in w.requests ensures RequestOk(b.codec, w', w'.requests[x]) {
      RequestStays(b.codec, w, w', w.requests[x]);
    }
    var id := 0;
    Assemble(b, w, w', id);
  }
}
