/**
 * The Wallet and WithdrawRequest tables, and the settlement of rows left open by earlier requests
 * (apps/api/src/wallet/normal-ab-withdraw.ts, apps/api/src/wallet/emergency-bc-withdraw.ts).
 */
module Withdraws {
  import opened Types
  import opened EthTransfer

  datatype WalletStatus = ACTIVE | RECOVERY_PENDING | RETIRING | RETIRED

  datatype WithdrawStatus = PROCESSING | BROADCASTED | EXECUTED | FAILED | EXPIRED

  type SealedShare(==, !new, 0)  // an encrypted keyshare

  datatype Wallet = Wallet(
    user: UserId, status: WalletStatus, address: Address, publicKey: string, shareB: Option<SealedShare>)

  datatype SkipReason = ZERO_BALANCE | ETH_DUST

  /** The metadata column: only the two MPC flows write it. */
  datatype Metadata =
    | NormalAb(session: SessionId, feeWei: nat, digest: Digest, fromAddress: Address, asset: Asset)
    | EmergencyBc(asset: Asset, signedRaw: Option<Raw>, skipped: Option<SkipReason>, tokenTxHash: Option<TxHash>)

  /** An idempotency key is scoped to its wallet before it is stored. */
  datatype Key = Key(wallet: WalletId, raw: string)

  datatype Row = Row(
    wallet: WalletId, amount: nat, to: Address, status: WithdrawStatus, txHash: Option<TxHash>, createdAt: nat,
    key: Option<Key>, metadata: Metadata)

  datatype ErrorCode =
    | VALIDATION_FAILED | INVALID_ADDRESS | INVALID_REQUEST | WALLET_NOT_FOUND | NOT_YOUR_WALLET | WALLET_RETIRED
    | EMERGENCY_STATE_INVALID | SHARE_B_MISSING | IDEMPOTENCY_CONFLICT | SIGN_SESSION_GONE | SIGN_SESSION_BUSY
    | TRANSACTION_PENDING | INSUFFICIENT_GAS | SESSION_NOT_FOUND | UNEXPECTED_STEP | MISSING_MESSAGE
    | OTP_FORMAT | OTP_LOCKED | OTP_INVALID | WITHDRAW_FAILED | INTERNAL_ERROR

  predicate IsOpen(s: WithdrawStatus) {
    s == PROCESSING || s == BROADCASTED
  }

  predicate IsTerminal(s: WithdrawStatus) {
    s == BROADCASTED || s == EXECUTED
  }

  /** What the chain has mined (true: success, false: reverted), and the hashes the RPC cannot answer for now. */
  datatype Ledger = Ledger(mined: map<TxHash, bool>, down: set<TxHash>)

  datatype Lookup = Unavailable | NotMined | Mined(success: bool)

  function Receipt(l: Ledger, h: TxHash): Lookup {
    if h in l.down then Unavailable else if h in l.mined then Mined(l.mined[h]) else NotMined
  }

  // ---- Queries ----

  predicate OpenAb(r: Row, w: WalletId) {
    r.wallet == w && r.metadata.NormalAb? && IsOpen(r.status)
  }

  predicate OpenBc(r: Row, w: WalletId) {
    r.wallet == w && r.metadata.EmergencyBc? && IsOpen(r.status)
  }

  predicate BcOf(r: Row, w: WalletId, a: Asset) {
    r.wallet == w && r.metadata.EmergencyBc? && r.metadata.asset == a
  }

  /** The first row from `i` on that satisfies `p`. */
  function FirstFrom(rows: seq<Row>, p: Row -> bool, i: nat): (r: Option<nat>)
    requires i <= |rows|
    ensures r.Some? ==> i <= r.value < |rows| && p(rows[r.value]) && forall j :: i <= j < r.value ==> !p(rows[j])
    ensures r.None? ==> forall j :: i <= j < |rows| ==> !p(rows[j])
    decreases |rows| - i
  {
    if i == |rows| then None else if p(rows[i]) then Some(i) else FirstFrom(rows, p, i + 1)
  }

  function FindOpenNormalAb(rows: seq<Row>, w: WalletId): (r: Option<nat>)
    ensures r.Some? ==> r.value < |rows| && OpenAb(rows[r.value], w) && forall j :: 0 <= j < r.value ==> !OpenAb(rows[j], w)
    ensures r.None? ==> forall j :: 0 <= j < |rows| ==> !OpenAb(rows[j], w)
  {
    FirstFrom(rows, (r: Row) => OpenAb(r, w), 0)
  }

  function FindByKey(rows: seq<Row>, k: Key): (r: Option<nat>)
    ensures r.Some? ==> r.value < |rows| && rows[r.value].key == Some(k)
    ensures r.None? ==> forall j :: 0 <= j < |rows| ==> rows[j].key != Some(k)
  {
    FirstFrom(rows, (r: Row) => r.key == Some(k), 0)
  }

  /** The newest emergency row of an asset; rows are listed in creation order. */
  function FindLatestEmergencyBc(rows: seq<Row>, w: WalletId, a: Asset): (r: Option<nat>)
    ensures r.Some? ==> r.value < |rows| && BcOf(rows[r.value], w, a)
                        && forall j :: r.value < j < |rows| ==> !BcOf(rows[j], w, a)
    ensures r.None? ==> forall j :: 0 <= j < |rows| ==> !BcOf(rows[j], w, a)
  {
    if rows == [] then None
    else if BcOf(rows[|rows| - 1], w, a) then Some(|rows| - 1)
    else FindLatestEmergencyBc(rows[..|rows| - 1], w, a)
  }

  // ---- A+B settlement ----

  /** The verdict on the open A+B row, in the order of the code's checks. */
  function SettleNormalAb(rows: seq<Row>, w: WalletId, l: Ledger): Result<seq<Row>, ErrorCode> {
    match FindOpenNormalAb(rows, w)
    case None => Ok(rows)
    case Some(i) =>
      if rows[i].status == PROCESSING then Err(SIGN_SESSION_BUSY)
      else if rows[i].txHash.None? then Ok(rows[i := rows[i].(status := FAILED)])
      else
        match Receipt(l, rows[i].txHash.value)
        case Unavailable => Err(TRANSACTION_PENDING)
        case NotMined => Err(TRANSACTION_PENDING)
        case Mined(ok) => Ok(rows[i := rows[i].(status := if ok then EXECUTED else FAILED)])
  }

  method SettleOpenNormalAbOrThrow(rows: seq<Row>, w: WalletId, l: Ledger) returns (r: Result<seq<Row>, ErrorCode>)
    ensures r == SettleNormalAb(rows, w, l)
  {
    var open: Option<nat> := None;
    var i := 0;
    while i < |rows| && open.None?
      invariant i <= |rows|
      invariant open.None? ==> forall j :: 0 <= j < i ==> !OpenAb(rows[j], w)
      invariant open.Some? ==> open == FindOpenNormalAb(rows, w)
      decreases |rows| - i, if open.None? then 1 else 0
    {
      if OpenAb(rows[i], w) {
        open := Some(i);
      }
      i := i + 1;
    }
    if open.None? {
      return Ok(rows);
    }
    var row := rows[open.value];
    if row.status == PROCESSING {
      return Err(SIGN_SESSION_BUSY);
    }
    if row.txHash.None? {
      return Ok(rows[open.value := row.(status := FAILED)]);
    }
    var receipt := Receipt(l, row.txHash.value);
    if receipt.Unavailable? || receipt.NotMined? {
      return Err(TRANSACTION_PENDING);
    }
    r := Ok(rows[open.value := row.(status := if receipt.success then EXECUTED else FAILED)]);
  }

  // ---- Emergency settlement ----

  const STALE_EMERGENCY_PROCESSING_MS: nat := 120_000

  predicate IsBc(rows: seq<Row>, i: nat) {
    i < |rows| && rows[i].metadata.EmergencyBc?
  }

  predicate AllBc(rows: seq<Row>, ids: seq<nat>) {
    forall k :: 0 <= k < |ids| ==> IsBc(rows, ids[k])
  }

  function AssetAt(rows: seq<Row>, i: nat): Asset
    requires IsBc(rows, i)
  {
    rows[i].metadata.asset
  }

  /** Open emergency rows among the first `n`, in creation order; of one asset or of both. */
  function OpenBcIds(rows: seq<Row>, w: WalletId, only: Option<Asset>, n: nat): (ids: seq<nat>)
    requires n <= |rows|
    ensures AllBc(rows, ids)
    ensures forall k :: 0 <= k < |ids| ==>
                          && ids[k] < n
                          && OpenBc(rows[ids[k]], w)
                          && (only.Some? ==> AssetAt(rows, ids[k]) == only.value)
    ensures forall k, m :: 0 <= k < m < |ids| ==> ids[k] < ids[m]
  {
    if n == 0 then [] else OpenBcIds(rows, w, only, n - 1) + IdIfOpen(rows, w, only, n - 1)
  }

  function IdIfOpen(rows: seq<Row>, w: WalletId, only: Option<Asset>, i: nat): seq<nat>
    requires i < |rows|
  {
    if OpenBc(rows[i], w) && (only.Some? ==> AssetAt(rows, i) == only.value) then [i] else []
  }

  /** The comparator of the sort: negative, zero or positive as for Array.prototype.sort. */
  function CompareAssets(a: Asset, b: Asset): int {
    if a == b then 0 else if a == ERC20 then -1 else if b == ERC20 then 1 else 0
  }

  /** The open rows, stably sorted by that comparator. */
  function FindOpenEmergencyBc(rows: seq<Row>, w: WalletId): (r: seq<nat>)
    ensures AllBc(rows, r)
  {
    OpenBcIds(rows, w, Some(ERC20), |rows|) + OpenBcIds(rows, w, Some(ETH), |rows|)
  }

  /** Sorted by the comparator, and rows it does not separate keep creation order. */
  predicate StablySorted(rows: seq<Row>, ids: seq<nat>)
    requires AllBc(rows, ids)
  {
    forall k, m :: 0 <= k < m < |ids| ==> Before(rows, ids[k], ids[m])
  }

  predicate Before(rows: seq<Row>, i: nat, j: nat)
    requires IsBc(rows, i) && IsBc(rows, j)
  {
    var c := CompareAssets(AssetAt(rows, i), AssetAt(rows, j));
    c < 0 || (c == 0 && i < j)
  }

  lemma {:induction false} OpenIdsAreAll(rows: seq<Row>, w: WalletId, only: Option<Asset>, n: nat, i: nat)
    requires i < n <= |rows| && OpenBc(rows[i], w) && (only.Some? ==> AssetAt(rows, i) == only.value)
    ensures i in OpenBcIds(rows, w, only, n)
  {
    if i < n - 1 {
      OpenIdsAreAll(rows, w, only, n - 1, i);
    }
  }

  /**
   * The loop visits every open emergency row of the wallet once and nothing else, the token rows first and
   * creation order kept inside each asset.
   */
  lemma VisitOrder(rows: seq<Row>, w: WalletId)
    ensures StablySorted(rows, FindOpenEmergencyBc(rows, w))
    ensures forall i, j :: 0 <= i < j < |FindOpenEmergencyBc(rows, w)| ==>
                             FindOpenEmergencyBc(rows, w)[i] != FindOpenEmergencyBc(rows, w)[j]
    ensures forall i :: i in FindOpenEmergencyBc(rows, w) <==> 0 <= i < |rows| && OpenBc(rows[i], w)
  {
    forall i: nat | i < |rows| && OpenBc(rows[i], w) ensures i in FindOpenEmergencyBc(rows, w) {
      OpenIdsAreAll(rows, w, Some(AssetAt(rows, i)), |rows|, i);
    }
    SortedHasNoRepeats(rows, FindOpenEmergencyBc(rows, w));
  }

  lemma SortedHasNoRepeats(rows: seq<Row>, ids: seq<nat>)
    requires AllBc(rows, ids) && StablySorted(rows, ids)
    ensures forall i, j :: 0 <= i < j < |ids| ==> ids[i] != ids[j]
  {
  }

  lemma HeadIsFirst(rows: seq<Row>, a: seq<nat>, x: nat)
    requires AllBc(rows, a) && StablySorted(rows, a) && x in a
    ensures a[0] == x || Before(rows, a[0], x)
  {
  }

  lemma HeadIsIn(s: seq<nat>)
    requires s != []
    ensures exists x :: x in s
  {
    assert s[0] in s;
  }

  /** There is only one stable sort of the open rows, so it does not matter which algorithm finds it. */
  lemma {:induction false} StableSortIsUnique(rows: seq<Row>, a: seq<nat>, b: seq<nat>)
    requires AllBc(rows, a) && AllBc(rows, b)
    requires StablySorted(rows, a) && StablySorted(rows, b) && forall i :: i in a <==> i in b
    ensures a == b
  {
    if a != [] {
      assert a[0] in b && b[0] in a;
      HeadIsFirst(rows, a, b[0]);
      HeadIsFirst(rows, b, a[0]);
      SortedHasNoRepeats(rows, a);
      SortedHasNoRepeats(rows, b);
      forall i ensures i in a[1..] <==> i in b[1..] {
        assert i in a[1..] <==> i in a && i != a[0];
        assert i in b[1..] <==> i in b && i != b[0];
      }
      StableSortIsUnique(rows, a[1..], b[1..]);
      assert a == [a[0]] + a[1..] && b == [b[0]] + b[1..];
    } else if b != [] {
      HeadIsIn(b);
      assert false;
    }
  }

  /** What one open row comes to. */
  datatype Verdict = Settled(status: WithdrawStatus) | Blocked(code: ErrorCode) | Retry(raw: Raw, hash: TxHash)

  function Judge(r: Row, l: Ledger, now: nat): Verdict
    requires r.metadata.EmergencyBc?
  {
    if r.status == PROCESSING then
      if r.txHash.Some? then Blocked(TRANSACTION_PENDING)
      else if now < r.createdAt + STALE_EMERGENCY_PROCESSING_MS then Blocked(SIGN_SESSION_BUSY)
      else Settled(FAILED)
    else if r.status != BROADCASTED then Settled(r.status)
    else if r.txHash.None? then Settled(FAILED)
    else
      match Receipt(l, r.txHash.value)
      case Unavailable => Blocked(TRANSACTION_PENDING)
      case NotMined =>
        if r.metadata.signedRaw.None? then Blocked(TRANSACTION_PENDING)
        else Retry(r.metadata.signedRaw.value, r.txHash.value)
      case Mined(ok) => Settled(if ok then EXECUTED else FAILED)
  }

  datatype Settlement =
    | Thrown(code: ErrorCode)
    | Clear(rows: seq<Row>)
    | Rebroadcast(rows: seq<Row>, id: nat, hash: TxHash, raw: Raw)

  /** Visit the rows in order; stop at the first that does not settle. */
  function SettleRows(rows: seq<Row>, ids: seq<nat>, l: Ledger, now: nat): Settlement
    requires AllBc(rows, ids)
    decreases |ids|
  {
    if ids == [] then Clear(rows)
    else
      assert rows[ids[0]].metadata.EmergencyBc?;
      match Judge(rows[ids[0]], l, now)
      case Blocked(code) => Thrown(code)
      case Retry(raw, hash) => Rebroadcast(rows, ids[0], hash, raw)
      case Settled(s) =>
        assert AllBc(rows[ids[0] := rows[ids[0]].(status := s)], ids[1..]) by {
          forall k | 0 <= k < |ids[1..]| ensures ids[1..][k] < |rows| && rows[ids[1..][k]].metadata.EmergencyBc? {
            assert ids[1..][k] == ids[k + 1];
          }
        }
        SettleRows(rows[ids[0] := rows[ids[0]].(status := s)], ids[1..], l, now)
  }

  function SettleEmergency(rows: seq<Row>, w: WalletId, l: Ledger, now: nat): Settlement {
    SettleRows(rows, FindOpenEmergencyBc(rows, w), l, now)
  }

  method SettleOpenEmergencyBcOrThrow(rows0: seq<Row>, w: WalletId, l: Ledger, now: nat) returns (r: Settlement)
    ensures r == SettleEmergency(rows0, w, l, now)
  {
    var rows := rows0;
    var open := FindOpenEmergencyBc(rows, w);
    var i := 0;
    while i < |open|
      invariant i <= |open|
      invariant AllBc(rows, open)
      invariant AllBc(rows, open[i..]) && SettleRows(rows, open[i..], l, now) == SettleEmergency(rows0, w, l, now)
    {
      var id := open[i];
      var row := rows[id];
      assert open[i..][0] == id && open[i..][1..] == open[i + 1..];
      i := i + 1;
      if row.status == PROCESSING {
        if row.txHash.Some? {
          return Thrown(TRANSACTION_PENDING);
        }
        if now < row.createdAt + STALE_EMERGENCY_PROCESSING_MS {
          return Thrown(SIGN_SESSION_BUSY);
        }
        rows := rows[id := row.(status := FAILED)];
        continue;
      }
      if row.status != BROADCASTED {
        assert rows[id := row.(status := row.status)] == rows;
        continue;
      }
      if row.txHash.None? {
        rows := rows[id := row.(status := FAILED)];
        continue;
      }
      var receipt := Receipt(l, row.txHash.value);
      if receipt.Unavailable? {
        return Thrown(TRANSACTION_PENDING);
      }
      if receipt.NotMined? {
        if row.metadata.signedRaw.None? {
          return Thrown(TRANSACTION_PENDING);
        }
        return Rebroadcast(rows, id, row.txHash.value, row.metadata.signedRaw.value);
      }
      if receipt.success {
        rows := rows[id := row.(status := EXECUTED)];
        continue;
      }
      rows := rows[id := row.(status := FAILED)];
    }
    r := Clear(rows);
  }

  /** The settled form of the rows listed in `ids`, everything else untouched. */
  ghost predicate SettledExactly(rows: seq<Row>, rows': seq<Row>, ids: seq<nat>, l: Ledger, now: nat)
    requires AllBc(rows, ids)
  {
    && |rows'| == |rows|
    && (forall i :: 0 <= i < |rows| && i !in ids ==> rows'[i] == rows[i])
    && (forall k :: 0 <= k < |ids| ==>
          Judge(rows[ids[k]], l, now).Settled? && rows'[ids[k]] == rows[ids[k]].(status := Judge(rows[ids[k]], l, now).status))
  }

  /** The outcome is decided by the first row that does not settle: everything before it settles, nothing after it moves. */
  ghost predicate DecidedAt(rows: seq<Row>, ids: seq<nat>, k: nat, l: Ledger, now: nat, r: Settlement)
    requires AllBc(rows, ids)
  {
    && k <= |ids|
    && (forall m :: 0 <= m < k ==> Judge(rows[ids[m]], l, now).Settled?)
    && match r
       case Clear(rows') => k == |ids| && SettledExactly(rows, rows', ids, l, now)
       case Rebroadcast(rows', id, hash, raw) =>
         && k < |ids|
         && id == ids[k]
         && Judge(rows[id], l, now) == Retry(raw, hash)
         && SettledExactly(rows, rows', ids[..k], l, now)
       case Thrown(code) => k < |ids| && Judge(rows[ids[k]], l, now) == Blocked(code)
  }

  lemma {:induction false} LoopIsDecided(rows: seq<Row>, ids: seq<nat>, l: Ledger, now: nat) returns (k: nat)
    requires AllBc(rows, ids) && forall a, b :: 0 <= a < b < |ids| ==> ids[a] != ids[b]
    ensures DecidedAt(rows, ids, k, l, now, SettleRows(rows, ids, l, now))
    decreases |ids|
  {
    k := 0;
    if ids != [] && Judge(rows[ids[0]], l, now).Settled? {
      var rows1 := rows[ids[0] := rows[ids[0]].(status := Judge(rows[ids[0]], l, now).status)];
      var rest := ids[1..];
      forall m | 0 <= m < |rest| ensures rest[m] < |rows1| && rows1[rest[m]] == rows[rest[m]] {
        assert rest[m] == ids[m + 1];
      }
      var k1 := LoopIsDecided(rows1, rest, l, now);
      k := k1 + 1;
      assert ids[..k][1..] == rest[..k1];
      forall m | 0 <= m < k ensures Judge(rows[ids[m]], l, now).Settled? {
        if m > 0 {
          assert ids[m] == rest[m - 1];
        }
      }
      var r := SettleRows(rows, ids, l, now);
      match r
      case Thrown(_) =>
      case Clear(rows') => SettledOneMore(rows, rows1, rows', ids, l, now);
      case Rebroadcast(rows', _, _, _) =>
        assert ids[..k][0] == ids[0];
        SettledOneMore(rows, rows1, rows', ids[..k], l, now);
    }
  }

  lemma SettledOneMore(rows: seq<Row>, rows1: seq<Row>, rows': seq<Row>, ids: seq<nat>, l: Ledger, now: nat)
    requires ids != [] && AllBc(rows, ids) && AllBc(rows1, ids[1..])
    requires forall a, b :: 0 <= a < b < |ids| ==> ids[a] != ids[b]
    requires Judge(rows[ids[0]], l, now).Settled?
    requires rows1 == rows[ids[0] := rows[ids[0]].(status := Judge(rows[ids[0]], l, now).status)]
    requires SettledExactly(rows1, rows', ids[1..], l, now)
    ensures SettledExactly(rows, rows', ids, l, now)
  {
  }

  /**
   * Settlement of one wallet: the outcome is decided at one point of the visit order, a clear outcome leaves no
   * open emergency row, and rows of other wallets or of the A+B flow are never touched.
   */
  lemma SettlementIsDecided(rows: seq<Row>, w: WalletId, l: Ledger, now: nat) returns (k: nat)
    ensures DecidedAt(rows, FindOpenEmergencyBc(rows, w), k, l, now, SettleEmergency(rows, w, l, now))
    ensures SettleEmergency(rows, w, l, now).Clear? ==>
              forall i :: 0 <= i < |rows| ==> !OpenBc(SettleEmergency(rows, w, l, now).rows[i], w)
  {
    VisitOrder(rows, w);
    var ids := FindOpenEmergencyBc(rows, w);
    k := LoopIsDecided(rows, ids, l, now);
    var r := SettleEmergency(rows, w, l, now);
    if r.Clear? {
      ClearClosesAll(rows, r.rows, ids, w, l, now);
    }
  }

  lemma ClearClosesAll(rows: seq<Row>, rows': seq<Row>, ids: seq<nat>, w: WalletId, l: Ledger, now: nat)
    requires AllBc(rows, ids) && SettledExactly(rows, rows', ids, l, now)
    requires forall i :: 0 <= i < |rows| && OpenBc(rows[i], w) ==> i in ids
    ensures forall i :: 0 <= i < |rows| ==> !OpenBc(rows'[i], w)
  {
  }

  // ---- What settlement means, row by row ----

  /** A row is open while it is being signed or waits for its receipt, and sent from then on unless it failed. */
  lemma OpenMeans(r: Row, w: WalletId)
    ensures OpenAb(r, w) <==> r.wallet == w && r.metadata.NormalAb? && r.status in {PROCESSING, BROADCASTED}
    ensures OpenBc(r, w) <==> r.wallet == w && r.metadata.EmergencyBc? && r.status in {PROCESSING, BROADCASTED}
    ensures IsTerminal(r.status) <==> r.status in {BROADCASTED, EXECUTED}
  {
  }

  /** An open A+B row that can be settled: broadcast, and with a receipt if it has a hash. */
  predicate Settleable(r: Row, l: Ledger) {
    r.status == BROADCASTED && (r.txHash.None? || (r.txHash.value !in l.down && r.txHash.value in l.mined))
  }

  /** What settling it writes: EXECUTED exactly on a success receipt. */
  predicate SettledAs(r: Row, r': Row, l: Ledger) {
    && r' == r.(status := r'.status) && r'.status in {EXECUTED, FAILED}
    && (r'.status == EXECUTED <==> r.txHash.Some? && r.txHash.value in l.mined && l.mined[r.txHash.value])
  }

  /**
   * The A+B guard on the wallet's first open row `i`: signing blocks it, a broadcast without a hash is given up, and one
   * with a hash ends as its receipt says, or blocks while there is none. No other row changes.
   */
  lemma AbSettlementMeans(rows: seq<Row>, w: WalletId, l: Ledger, i: nat)
    requires i < |rows| && OpenAb(rows[i], w) && forall j :: 0 <= j < i ==> !OpenAb(rows[j], w)
    ensures var r := SettleNormalAb(rows, w, l);
            && (r.Ok? <==> Settleable(rows[i], l))
            && (r.Err? ==> r.error == if rows[i].status == PROCESSING then SIGN_SESSION_BUSY else TRANSACTION_PENDING)
            && (r.Ok? ==>
                  && |r.value| == |rows|
                  && (forall j :: 0 <= j < |rows| && j != i ==> r.value[j] == rows[j])
                  && SettledAs(rows[i], r.value[i], l))
  {
    assert FindOpenNormalAb(rows, w) == Some(i);
  }

  lemma NoOpenAbIsClear(rows: seq<Row>, w: WalletId, l: Ledger)
    requires forall i :: 0 <= i < |rows| ==> !OpenAb(rows[i], w)
    ensures SettleNormalAb(rows, w, l) == Ok(rows)
  {
  }

  /** An open emergency row that can be closed: abandoned unsigned for two minutes, without a hash, or with a receipt. */
  predicate Releasable(r: Row, l: Ledger, now: nat) {
    || (r.status == PROCESSING && r.txHash.None? && r.createdAt + 120_000 <= now)
    || (r.status == BROADCASTED && (r.txHash.None? || (r.txHash.value !in l.down && r.txHash.value in l.mined)))
  }

  /** A broadcast the chain has no receipt of, whose raw is stored. */
  predicate Resendable(r: Row, l: Ledger) {
    && r.status == BROADCASTED && r.txHash.Some? && r.txHash.value !in l.down && r.txHash.value !in l.mined
    && r.metadata.EmergencyBc? && r.metadata.signedRaw.Some?
  }

  /** Closed, as EXECUTED exactly on a success receipt. */
  predicate ReleasedAs(r: Row, r': Row, l: Ledger) {
    && r' == r.(status := r'.status)
    && r'.status in {EXECUTED, FAILED}
    && (r'.status == EXECUTED <==> r.status == BROADCASTED && r.txHash.Some? && r.txHash.value in l.mined && l.mined[r.txHash.value])
  }

  /** Token rows are looked at before ETH rows, and older rows before newer ones of the same asset. */
  predicate LookedAtFirst(rows: seq<Row>, i: nat, j: nat)
    requires IsBc(rows, i) && IsBc(rows, j)
  {
    var a, b := rows[i].metadata.asset, rows[j].metadata.asset;
    (a == ERC20 && b == ETH) || (a == b && i < j)
  }

  /** Row `i` is the first open row that cannot be closed. */
  ghost predicate Stops(rows: seq<Row>, w: WalletId, l: Ledger, now: nat, i: nat) {
    && i < |rows| && OpenBc(rows[i], w) && !Releasable(rows[i], l, now)
    && forall j: nat :: j < |rows| && OpenBc(rows[j], w) && LookedAtFirst(rows, j, i) ==> Releasable(rows[j], l, now)
  }

  /** What stopping there comes to. */
  ghost predicate StopsWith(rows: seq<Row>, w: WalletId, l: Ledger, i: nat, s: Settlement)
    requires i < |rows| && OpenBc(rows[i], w)
  {
    match s
    case Clear(_) => false
    case Thrown(code) =>
      && !Resendable(rows[i], l)
      && code == if rows[i].status == PROCESSING && rows[i].txHash.None? then SIGN_SESSION_BUSY else TRANSACTION_PENDING
    case Rebroadcast(rows', id, hash, raw) =>
      && Resendable(rows[i], l)
      && id == i && rows[i].txHash == Some(hash) && rows[i].metadata.signedRaw == Some(raw)
      && |rows'| == |rows|
      && forall j: nat :: j < |rows| ==>
                            if OpenBc(rows[j], w) && LookedAtFirst(rows, j, i) then ReleasedAs(rows[j], rows'[j], l)
                            else rows'[j] == rows[j]
  }

  lemma StopsIsUnique(rows: seq<Row>, w: WalletId, l: Ledger, now: nat, i: nat, j: nat)
    requires Stops(rows, w, l, now, i) && Stops(rows, w, l, now, j)
    ensures i == j
  {
  }

  lemma JudgeMeans(r: Row, l: Ledger, now: nat)
    requires r.metadata.EmergencyBc? && IsOpen(r.status)
    ensures var v := Judge(r, l, now);
            && (v.Settled? <==> Releasable(r, l, now))
            && (v.Settled? ==> ReleasedAs(r, r.(status := v.status), l))
            && (v.Retry? <==> Resendable(r, l))
            && (v.Retry? ==> r.metadata.signedRaw == Some(v.raw) && r.txHash == Some(v.hash))
            && (v.Blocked? ==> v.code == if r.status == PROCESSING && r.txHash.None? then SIGN_SESSION_BUSY else TRANSACTION_PENDING)
  {
  }

  /** Rows visited before another row are those looked at first. */
  lemma VisitedFirst(rows: seq<Row>, w: WalletId, k: nat)
    requires k < |FindOpenEmergencyBc(rows, w)|
    ensures var ids := FindOpenEmergencyBc(rows, w);
            && OpenBc(rows[ids[k]], w)
            && forall j: nat :: j < |rows| ==> (j in ids[..k] <==> OpenBc(rows[j], w) && LookedAtFirst(rows, j, ids[k]))
  {
    VisitOrder(rows, w);
    var ids := FindOpenEmergencyBc(rows, w);
    assert ids[k] in ids;
    forall j: nat | j < |rows| ensures j in ids[..k] <==> OpenBc(rows[j], w) && LookedAtFirst(rows, j, ids[k]) {
      if j in ids[..k] {
        var m :| 0 <= m < k && ids[m] == j;
        assert j in ids && Before(rows, ids[m], ids[k]);
      } else if j in ids {
        var m :| 0 <= m < |ids| && ids[m] == j;
        assert m >= k && (m > k ==> Before(rows, ids[k], ids[m]));
      }
    }
  }

  lemma ReleasedAlong(rows: seq<Row>, rows': seq<Row>, ids: seq<nat>, l: Ledger, now: nat)
    requires AllBc(rows, ids) && SettledExactly(rows, rows', ids, l, now)
    requires forall m :: 0 <= m < |ids| ==> IsOpen(rows[ids[m]].status)
    ensures |rows'| == |rows|
    ensures forall i: nat :: i < |rows| ==> if i in ids then ReleasedAs(rows[i], rows'[i], l) else rows'[i] == rows[i]
  {
    forall i: nat | i < |rows| && i in ids ensures ReleasedAs(rows[i], rows'[i], l) {
      var m :| 0 <= m < |ids| && ids[m] == i;
      JudgeMeans(rows[ids[m]], l, now);
    }
  }

  lemma DeciderStops(rows: seq<Row>, w: WalletId, l: Ledger, now: nat, k: nat)
    requires !SettleEmergency(rows, w, l, now).Clear?
    requires DecidedAt(rows, FindOpenEmergencyBc(rows, w), k, l, now, SettleEmergency(rows, w, l, now))
    ensures var i := FindOpenEmergencyBc(rows, w)[k];
            Stops(rows, w, l, now, i) && StopsWith(rows, w, l, i, SettleEmergency(rows, w, l, now))
  {
    var ids, s := FindOpenEmergencyBc(rows, w), SettleEmergency(rows, w, l, now);
    VisitedFirst(rows, w, k);
    JudgeMeans(rows[ids[k]], l, now);
    forall j: nat | j < |rows| && j in ids[..k] ensures IsOpen(rows[j].status) && Releasable(rows[j], l, now) {
      var m :| 0 <= m < k && ids[m] == j;
      JudgeMeans(rows[ids[m]], l, now);
    }
    if s.Rebroadcast? {
      forall m | 0 <= m < k ensures IsOpen(rows[ids[m]].status) {
        assert ids[m] in ids[..k];
      }
      ReleasedAlong(rows, s.rows, ids[..k], l, now);
    }
  }

  lemma ClearReleasesAll(rows: seq<Row>, w: WalletId, l: Ledger, now: nat, k: nat)
    requires SettleEmergency(rows, w, l, now).Clear?
    requires DecidedAt(rows, FindOpenEmergencyBc(rows, w), k, l, now, SettleEmergency(rows, w, l, now))
    ensures var rows' := SettleEmergency(rows, w, l, now).rows;
            && |rows'| == |rows|
            && forall i: nat :: i < |rows| ==>
                                  if OpenBc(rows[i], w) then Releasable(rows[i], l, now) && ReleasedAs(rows[i], rows'[i], l)
                                  else rows'[i] == rows[i]
  {
    VisitOrder(rows, w);
    var ids := FindOpenEmergencyBc(rows, w);
    forall m | 0 <= m < |ids| ensures IsOpen(rows[ids[m]].status) {
      assert ids[m] in ids;
    }
    SettledWereReleasable(rows, ids, l, now);
    ReleasedAlong(rows, SettleEmergency(rows, w, l, now).rows, ids, l, now);
  }

  lemma SettledWereReleasable(rows: seq<Row>, ids: seq<nat>, l: Ledger, now: nat)
    requires AllBc(rows, ids) && forall m :: 0 <= m < |ids| ==> IsOpen(rows[ids[m]].status) && Judge(rows[ids[m]], l, now).Settled?
    ensures forall i: nat :: i < |rows| && i in ids ==> Releasable(rows[i], l, now)
  {
    forall i: nat | i < |rows| && i in ids ensures Releasable(rows[i], l, now) {
      var m :| 0 <= m < |ids| && ids[m] == i;
      JudgeMeans(rows[ids[m]], l, now);
    }
  }

  /**
   * Emergency settlement: clear exactly when every open emergency row of the wallet can be closed, and then all of them
   * are closed as their receipts say. Otherwise the first row that cannot be decides: its stored raw is handed out
   * exactly when the row is a broadcast without a receipt, with the rows before it closed, and else it throws.
   */
  lemma SettlementMeans(rows: seq<Row>, w: WalletId, l: Ledger, now: nat)
    ensures var s := SettleEmergency(rows, w, l, now);
            && (s.Clear? <==> forall i: nat :: i < |rows| && OpenBc(rows[i], w) ==> Releasable(rows[i], l, now))
            && (s.Clear? ==>
                  && |s.rows| == |rows|
                  && forall i: nat :: i < |rows| ==>
                                        if OpenBc(rows[i], w) then ReleasedAs(rows[i], s.rows[i], l) else s.rows[i] == rows[i])
            && (!s.Clear? ==> exists i: nat :: Stops(rows, w, l, now, i))
            && (forall i: nat :: Stops(rows, w, l, now, i) ==> StopsWith(rows, w, l, i, s))
  {
    var k := SettlementIsDecided(rows, w, l, now);
    if SettleEmergency(rows, w, l, now).Clear? {
      ClearReleasesAll(rows, w, l, now, k);
    } else {
      DeciderStops(rows, w, l, now, k);
      forall i: nat | Stops(rows, w, l, now, i) ensures i == FindOpenEmergencyBc(rows, w)[k] {
        StopsIsUnique(rows, w, l, now, i, FindOpenEmergencyBc(rows, w)[k]);
      }
    }
  }
}
