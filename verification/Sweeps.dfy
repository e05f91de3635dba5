/**
 * What an emergency sweep moves, tied to the run that led to it: whatever is stored, submitted or confirmed for a
 * wallet is the transfer of the whole balance a request of that wallet read, to the address its owner asked for.
 */
module Sweeps {
  import opened Types
  import opened EthTransfer
  import opened Withdraws
  import opened AbSigning
  import opened AbInvariant
  import opened LastWithdraw
  import opened BcInvariant
  import opened LastWithdrawSteps
  import opened System
  import opened History
  import opened Readings

  /** A sweep of a wallet: the transaction, and the amount its row says. */
  datatype Sweep = Sweep(wallet: WalletId, to: Address, asset: Asset, tx: Tx, amount: nat)

  /** The whole token balance, or the whole ether balance but for 21000 times the fee cap. */
  predicate WholeBalance(b: Backend, net: Provider, v: Sweep) {
    && v.amount > 0 && Priced(net, v.tx)
    && match v.asset
       case ERC20 =>
         && v.amount == net.tokenBalance && b.token.Some?
         && IsTransfer(b.codec, v.tx, ERC20, v.to, net.tokenBalance, b.token) && TokenGas(net.estimateGas, v.tx.gasLimit)
       case ETH =>
         && v.amount + 21_000 * v.tx.maxFeePerGas == net.balance
         && IsTransfer(b.codec, v.tx, ETH, v.to, v.amount, None) && v.tx.gasLimit == 21_000
  }

  /** The token step signs a sweep of exactly the whole token balance. */
  lemma TokenStepSweepsAll(b: Backend, a: Api, r: Request, net: Provider, tx: Tx, amount: nat, g: Leg)
    requires CodecOk(b.codec) && AfterToken(b, a, r, net) == Some(AtCreate(g, tx, amount))
    ensures g == TokenLeg && WholeBalance(b, net, Sweep(r.wallet, r.to, ERC20, tx, amount))
  {
    TokenSweepIsTheTransfer(b.codec, net, a.wallets[r.wallet].address, r.to, b.token.value);
  }

  /** The ETH step signs a sweep of exactly the whole ether balance, but for the fee cap. */
  lemma EthStepSweepsAll(b: Backend, a: Api, r: Request, net: Provider, token: Token, tx: Tx, amount: nat, g: Leg)
    requires AfterEth(a, r, net, token) == Some(AtCreate(g, tx, amount))
    ensures g == EthLeg(token) && WholeBalance(b, net, Sweep(r.wallet, r.to, ETH, tx, amount))
  {
    FullSweepIsTheTransfer(b.codec, net, a.wallets[r.wallet].address, r.to);
  }

  // ---- Sweeps of a state, given what was read and asked for ----

  /** A signature of this transaction. */
  ghost predicate SignedFrom(c: Codec, raw: Raw, tx: Tx) {
    exists sig :: raw == c.serialize(tx, sig)
  }

  ghost predicate RowFrom(c: Codec, known: iset<Sweep>, r: Row, tx: Tx)
    requires r.metadata.EmergencyBc?
  {
    && Sweep(r.wallet, r.to, r.metadata.asset, tx, r.amount) in known
    && (r.metadata.signedRaw.Some? ==> SignedFrom(c, r.metadata.signedRaw.value, tx))
  }

  ghost predicate RowSweeps(c: Codec, known: iset<Sweep>, asked: iset<(WalletId, Address)>, r: Row) {
    r.metadata.EmergencyBc? && r.metadata.skipped.None? ==> (r.wallet, r.to) in asked && exists tx :: RowFrom(c, known, r, tx)
  }

  ghost predicate RequestSweeps(known: iset<Sweep>, asked: iset<(WalletId, Address)>, rows: seq<Row>, r: Request) {
    && (r.wallet, r.to) in asked
    && match r.pc
       case AtCreate(g, tx, amount) => Sweep(r.wallet, r.to, AssetOf(g), tx, amount) in known
       case AtSign(g, i, tx) => i < |rows| && rows[i].to == r.to && Sweep(r.wallet, r.to, AssetOf(g), tx, rows[i].amount) in known
       case _ => true
  }

  ghost predicate RowsSweep(c: Codec, known: iset<Sweep>, asked: iset<(WalletId, Address)>, rows: seq<Row>) {
    forall i :: 0 <= i < |rows| ==> RowSweeps(c, known, asked, rows[i])
  }

  ghost predicate SweepsOk(c: Codec, known: iset<Sweep>, asked: iset<(WalletId, Address)>, w: World) {
    && RowsSweep(c, known, asked, w.api.rows)
    && forall id :: id in w.requests ==> RequestSweeps(known, asked, w.api.rows, w.requests[id])
  }

  lemma MoreIsKnown(
    c: Codec, known: iset<Sweep>, asked: iset<(WalletId, Address)>, known': iset<Sweep>, asked': iset<(WalletId, Address)>, w: World)
    requires SweepsOk(c, known, asked, w) && known <= known' && asked <= asked'
    ensures SweepsOk(c, known', asked', w)
  {
    forall i | 0 <= i < |w.api.rows| ensures RowSweeps(c, known', asked', w.api.rows[i]) {
      var r := w.api.rows[i];
      assert RowSweeps(c, known, asked, r);
      if r.metadata.EmergencyBc? && r.metadata.skipped.None? {
        var tx :| RowFrom(c, known, r, tx);
        assert RowFrom(c, known', r, tx);
      }
    }
  }

  /** The row keeps what its sweep is. */
  predicate SameSweep(r: Row, r': Row) {
    && (r'.metadata.EmergencyBc? <==> r.metadata.EmergencyBc?)
    && r'.wallet == r.wallet && r'.to == r.to && r'.amount == r.amount
    && (r.metadata.EmergencyBc? ==> r'.metadata == r.metadata)
  }

  ghost predicate SameSweeps(rows: seq<Row>, rows': seq<Row>) {
    |rows| <= |rows'| && forall i :: 0 <= i < |rows| ==> SameSweep(rows[i], rows'[i])
  }

  lemma SameRowSweeps(c: Codec, known: iset<Sweep>, asked: iset<(WalletId, Address)>, r: Row, r': Row)
    requires RowSweeps(c, known, asked, r) && SameSweep(r, r')
    ensures RowSweeps(c, known, asked, r')
  {
    if r.metadata.EmergencyBc? && r.metadata.skipped.None? {
      var tx :| RowFrom(c, known, r, tx);
      assert RowFrom(c, known, r', tx);
    }
  }

  lemma SameSweepsStay(c: Codec, known: iset<Sweep>, asked: iset<(WalletId, Address)>, rows: seq<Row>, rows': seq<Row>)
    requires RowsSweep(c, known, asked, rows) && SameSweeps(rows, rows')
    requires forall i :: |rows| <= i < |rows'| ==> RowSweeps(c, known, asked, rows'[i])
    ensures RowsSweep(c, known, asked, rows')
  {
    forall i | 0 <= i < |rows'| ensures RowSweeps(c, known, asked, rows'[i]) {
      if i < |rows| {
        SameRowSweeps(c, known, asked, rows[i], rows'[i]);
      }
    }
  }

  lemma SameRequestSweeps(known: iset<Sweep>, asked: iset<(WalletId, Address)>, rows: seq<Row>, rows': seq<Row>, r: Request)
    requires RequestSweeps(known, asked, rows, r) && SameSweeps(rows, rows')
    ensures RequestSweeps(known, asked, rows', r)
  {
  }

  lemma SameSweepsTrans(a: seq<Row>, m: seq<Row>, c: seq<Row>)
    requires SameSweeps(a, m) && SameSweeps(m, c)
    ensures SameSweeps(a, c)
  {
    forall i | 0 <= i < |a| ensures SameSweep(a[i], c[i]) {
      assert SameSweep(a[i], m[i]) && SameSweep(m[i], c[i]);
    }
  }

  /** A step after which rows keep their sweeps, new rows have one, and only request `id` has moved. */
  lemma AssembleSweeps(c: Codec, known: iset<Sweep>, asked: iset<(WalletId, Address)>, w: World, w': World, id: RequestId)
    requires SweepsOk(c, known, asked, w) && SameSweeps(w.api.rows, w'.api.rows)
    requires forall i :: |w.api.rows| <= i < |w'.api.rows| ==> RowSweeps(c, known, asked, w'.api.rows[i])
    requires forall y :: y in w'.requests && y != id ==> y in w.requests && w'.requests[y] == w.requests[y]
    requires id in w'.requests ==> RequestSweeps(known, asked, w'.api.rows, w'.requests[id])
    ensures SweepsOk(c, known, asked, w')
  {
    SameSweepsStay(c, known, asked, w.api.rows, w'.api.rows);
    forall y | y in w'.requests ensures RequestSweeps(known, asked, w'.api.rows, w'.requests[y]) {
      if y != id {
        SameRequestSweeps(known, asked, w.api.rows, w'.api.rows, w.requests[y]);
      }
    }
  }

  // ---- The steps of a request ----

  lemma SettledSame(rows: seq<Row>, w: WalletId, l: Ledger, now: nat)
    requires !SettleEmergency(rows, w, l, now).Thrown?
    ensures var rows' := SettleEmergency(rows, w, l, now).rows; SameSweeps(rows, rows') && |rows'| == |rows|
  {
    SettlementSteps(rows, w, l, now);
    var rows' := SettleEmergency(rows, w, l, now).rows;
    forall i | 0 <= i < |rows| ensures SameSweep(rows[i], rows'[i]) {
      assert SettleStep(rows[i], rows'[i], w, l.mined, now);
    }
  }

  lemma SettledAbSame(rows: seq<Row>, w: WalletId, l: Ledger)
    requires SettleNormalAb(rows, w, l).Ok?
    ensures SameSweeps(rows, SettleNormalAb(rows, w, l).value) && |SettleNormalAb(rows, w, l).value| == |rows|
  {
  }

  lemma LockSweeps(c: Codec, known: iset<Sweep>, asked: iset<(WalletId, Address)>, w: World, id: RequestId, x: Input)
    requires SweepsOk(c, known, asked, w) && id in w.requests
    ensures SweepsOk(c, known, asked, StepLock(w, id, x))
  {
    LockShape(w, id, x);
    var w' := StepLock(w, id, x);
    if w' == End(w, id) {
      AssembleSweeps(c, known, asked, w, w', id);
    } else {
      var wallet, l := w.requests[id].wallet, Ledger(w.chain, x.down);
      var rows := SettleNormalAb(w.api.rows, wallet, l).value;
      SettledAbSame(w.api.rows, wallet, l);
      SettledSame(rows, wallet, l, w.now);
      SameSweepsTrans(w.api.rows, rows, w'.api.rows);
      AssembleSweeps(c, known, asked, w, w', id);
    }
  }

  /** What a step of the request reads. */
  ghost predicate Reads(b: Backend, w: World, id: RequestId, net: Provider, v: Sweep) {
    && id in w.requests
    && w.requests[id].wallet == v.wallet && w.requests[id].to == v.to
    && (match v.asset case ERC20 => w.requests[id].pc.AtToken? case ETH => w.requests[id].pc.AtEth?)
    && WholeBalance(b, net, v)
  }

  lemma TokenSweeps(b: Backend, known: iset<Sweep>, asked: iset<(WalletId, Address)>, w: World, id: RequestId, x: Input)
    requires SweepsOk(b.codec, known, asked, w) && CodecOk(b.codec) && id in w.requests && w.requests[id].pc.AtToken?
    requires forall v :: Reads(b, w, id, x.net, v) ==> v in known
    ensures SweepsOk(b.codec, known, asked, StepToken(b, w, id, x))
  {
    var r, w', pc := w.requests[id], StepToken(b, w, id, x), AfterToken(b, w.api, w.requests[id], x.net);
    if pc.Some? && pc.value.AtCreate? {
      TokenStepSweepsAll(b, w.api, r, x.net, pc.value.tx, pc.value.amount, pc.value.leg);
      assert Reads(b, w, id, x.net, Sweep(r.wallet, r.to, ERC20, pc.value.tx, pc.value.amount));
    }
    AssembleSweeps(b.codec, known, asked, w, w', id);
  }

  lemma EthSweeps(b: Backend, known: iset<Sweep>, asked: iset<(WalletId, Address)>, w: World, id: RequestId, x: Input, token: Token)
    requires SweepsOk(b.codec, known, asked, w) && id in w.requests && w.requests[id].pc == AtEth(token)
    requires forall v :: Reads(b, w, id, x.net, v) ==> v in known
    ensures SweepsOk(b.codec, known, asked, StepEth(w, id, x, token))
  {
    var r, w', pc := w.requests[id], StepEth(w, id, x, token), AfterEth(w.api, w.requests[id], x.net, token);
    if pc.Some? && pc.value.AtCreate? {
      EthStepSweepsAll(b, w.api, r, x.net, token, pc.value.tx, pc.value.amount, pc.value.leg);
      assert Reads(b, w, id, x.net, Sweep(r.wallet, r.to, ETH, pc.value.tx, pc.value.amount));
    }
    AssembleSweeps(b.codec, known, asked, w, w', id);
  }

  lemma CreateSweeps(c: Codec, known: iset<Sweep>, asked: iset<(WalletId, Address)>, w: World, id: RequestId, x: Input)
    requires SweepsOk(c, known, asked, w) && id in w.requests && w.requests[id].pc.AtCreate?
    ensures SweepsOk(c, known, asked, StepCreate(w, id, x))
  {
    CreateShape(w, id, x);
    var r, w' := w.requests[id], StepCreate(w, id, x);
    assert RequestSweeps(known, asked, w.api.rows, r);
    if w' == End(w, id) {
      AssembleSweeps(c, known, asked, w, w', id);
    } else {
      var rows := SettleEmergency(w.api.rows, r.wallet, Ledger(w.chain, x.down), w.now).rows;
      SettledSame(w.api.rows, r.wallet, Ledger(w.chain, x.down), w.now);
      if w'.api.rows == rows && !w'.requests[id].pc.AtSign? {
        AssembleSweeps(c, known, asked, w, w', id);
      } else {
        CreatedSweeps(c, known, asked, w, id, rows);
      }
    }
  }

  /** The new row is the sweep its request is about to sign. */
  lemma CreatedSweeps(c: Codec, known: iset<Sweep>, asked: iset<(WalletId, Address)>, w: World, id: RequestId, rows: seq<Row>)
    requires SweepsOk(c, known, asked, w) && id in w.requests && w.requests[id].pc.AtCreate?
    requires SameSweeps(w.api.rows, rows) && |rows| == |w.api.rows|
    ensures var r := w.requests[id];
            SweepsOk(c, known, asked, Move(WithRows(w, rows + [NewBcRow(w.now, r, r.pc.leg, r.pc.amount)]), id,
                                           AtSign(r.pc.leg, |rows|, r.pc.tx)))
  {
    var r := w.requests[id];
    var row := NewBcRow(w.now, r, r.pc.leg, r.pc.amount);
    assert RequestSweeps(known, asked, w.api.rows, r);
    assert RowFrom(c, known, row, r.pc.tx);
    AssembleSweeps(c, known, asked, w, Move(WithRows(w, rows + [row]), id, AtSign(r.pc.leg, |rows|, r.pc.tx)), id);
  }

  lemma SignSweeps(b: Backend, known: iset<Sweep>, asked: iset<(WalletId, Address)>, w: World, id: RequestId, x: Input)
    requires SweepsOk(b.codec, known, asked, w) && id in w.requests && w.requests[id].pc.AtSign? && x.signature.Some?
    requires Claimed(w.api.rows, w.requests[id].pc.row, w.requests[id].wallet, w.now)
    requires w.api.rows[w.requests[id].pc.row].metadata.asset == AssetOf(w.requests[id].pc.leg)
    ensures SweepsOk(b.codec, known, asked, StepSign(b, w, id, x))
  {
    var r, w' := w.requests[id], StepSign(b, w, id, x);
    var i, rows' := r.pc.row, w'.api.rows;
    assert RequestSweeps(known, asked, w.api.rows, r);
    forall k | 0 <= k < |rows'| ensures RowSweeps(b.codec, known, asked, rows'[k]) {
      assert RowSweeps(b.codec, known, asked, w.api.rows[k]);
      if k == i {
        assert rows'[i].metadata.signedRaw.value == b.codec.serialize(r.pc.tx, x.signature.value);
        assert RowFrom(b.codec, known, rows'[i], r.pc.tx);
      }
    }
    forall y | y in w'.requests ensures RequestSweeps(known, asked, rows', w'.requests[y]) {
      if y != id {
        assert RequestSweeps(known, asked, w.api.rows, w.requests[y]);
      }
    }
  }

  lemma StatusSweeps(c: Codec, known: iset<Sweep>, asked: iset<(WalletId, Address)>, b: Backend, w: World, id: RequestId, x: Input)
    requires SweepsOk(c, known, asked, w) && id in w.requests
    requires var pc := w.requests[id].pc; pc.AtMarkFailed? || pc.AtWait? || pc.AtSkip?
    ensures SweepsOk(c, known, asked, Advance(b, w, id, x))
  {
    assert RequestSweeps(known, asked, w.api.rows, w.requests[id]);
    AssembleSweeps(c, known, asked, w, Advance(b, w, id, x), id);
  }

  lemma RowlessSweeps(c: Codec, known: iset<Sweep>, asked: iset<(WalletId, Address)>, b: Backend, w: World, id: RequestId, x: Input)
    requires SweepsOk(c, known, asked, w) && id in w.requests
    requires var pc := w.requests[id].pc;
             || pc.AtRebroadcast? || pc.AtBroadcast? || pc.AtRetire? || pc.AtRetireShare? || (pc.AtSign? && x.signature.None?)
    ensures SweepsOk(c, known, asked, Advance(b, w, id, x))
  {
    assert RequestSweeps(known, asked, w.api.rows, w.requests[id]);
    AssembleSweeps(c, known, asked, w, Advance(b, w, id, x), id);
  }

  lemma RequestStepSweeps(b: Backend, known: iset<Sweep>, asked: iset<(WalletId, Address)>, w: World, id: RequestId, x: Input)
    requires SweepsOk(b.codec, known, asked, w) && CodecOk(b.codec) && id in w.requests && RequestOk(b.codec, w, w.requests[id])
    requires forall v :: Reads(b, w, id, x.net, v) ==> v in known
    ensures SweepsOk(b.codec, known, asked, Advance(b, w, id, x))
  {
    match w.requests[id].pc
    case AtLock => LockSweeps(b.codec, known, asked, w, id, x);
    case AtToken => TokenSweeps(b, known, asked, w, id, x);
    case AtEth(token) => EthSweeps(b, known, asked, w, id, x, token);
    case AtCreate(_, _, _) => CreateSweeps(b.codec, known, asked, w, id, x);
    case AtSign(_, _, _) =>
      if x.signature.Some? {
        SignSweeps(b, known, asked, w, id, x);
      } else {
        RowlessSweeps(b.codec, known, asked, b, w, id, x);
      }
    case AtMarkFailed(_) => StatusSweeps(b.codec, known, asked, b, w, id, x);
    case AtWait(_, _, _) => StatusSweeps(b.codec, known, asked, b, w, id, x);
    case AtSkip(_, _) => StatusSweeps(b.codec, known, asked, b, w, id, x);
    case _ => RowlessSweeps(b.codec, known, asked, b, w, id, x);
  }

  // ---- The other steps ----

  /** A request that gets past its checks is from the wallet's owner, behind the code, to an address that is not the wallet's. */
  lemma ArrivalIsAsked(
    b: Backend, w: World, id: RequestId, user: UserId, wallet: WalletId, toRaw: string, otp: Option<ErrorCode>, net: Provider)
    requires Arrive(b, w, id, user, wallet, toRaw, otp, net).1.None?
    ensures Asks(b, w, LastWithdrawArrives(id, user, wallet, toRaw, otp, net), wallet, b.codec.getAddress(toRaw).value)
    ensures Arrive(b, w, id, user, wallet, toRaw, otp, net).0
            == w.(requests := w.requests[id := Request(wallet, b.codec.getAddress(toRaw).value, AtLock)])
  {
  }

  /** The step is a request of the wallet's owner, behind the code, to sweep to this address. */
  predicate Asks(b: Backend, w: World, s: Step, wallet: WalletId, to: Address) {
    && s.LastWithdrawArrives? && s.wallet == wallet && s.otp.None? && b.codec.getAddress(s.to) == Some(to)
    && wallet in w.api.wallets && w.api.wallets[wallet].user == s.user && w.api.wallets[wallet].address != to
    && w.api.wallets[wallet].status in {RECOVERY_PENDING, RETIRING}
  }

  lemma ArriveSweeps(
    b: Backend, known: iset<Sweep>, asked: iset<(WalletId, Address)>, w: World, id: RequestId, user: UserId, wallet: WalletId,
    toRaw: string, otp: Option<ErrorCode>, net: Provider)
    requires SweepsOk(b.codec, known, asked, w)
    requires forall to :: Asks(b, w, LastWithdrawArrives(id, user, wallet, toRaw, otp, net), wallet, to) ==> (wallet, to) in asked
    ensures SweepsOk(b.codec, known, asked, Arrive(b, w, id, user, wallet, toRaw, otp, net).0)
  {
    if Arrive(b, w, id, user, wallet, toRaw, otp, net).1.None? {
      ArrivalIsAsked(b, w, id, user, wallet, toRaw, otp, net);
      AssembleSweeps(b.codec, known, asked, w, Arrive(b, w, id, user, wallet, toRaw, otp, net).0, id);
    } else {
      assert Arrive(b, w, id, user, wallet, toRaw, otp, net).0 == w;
    }
  }

  lemma AbFrameSame(a: Api, a': Api)
    requires AbFrame(a, a')
    ensures SameSweeps(a.rows, a'.rows) && forall i :: |a.rows| <= i < |a'.rows| ==> a'.rows[i].metadata.NormalAb?
  {
    forall i | 0 <= i < |a.rows| ensures SameSweep(a.rows[i], a'.rows[i]) {
      assert RowEvolves(a.rows[i], a'.rows[i]);
    }
  }

  lemma AbStepSame(b: Backend, a: Api, now: nat, l: Ledger, step: AbStep)
    requires BackendOk(b) && ApiOk(b, a, now) && AbEnabled(a, step)
    ensures var rows' := ApplyAb(b, a, now, l, step).rows;
            SameSweeps(a.rows, rows') && forall i :: |a.rows| <= i < |rows'| ==> rows'[i].metadata.NormalAb?
  {
    AbStepKeepsOk(b, a, now, l, step);
    AbFrameSame(a, ApplyAb(b, a, now, l, step));
  }

  lemma AbSweeps(b: Backend, known: iset<Sweep>, asked: iset<(WalletId, Address)>, w: World, step: AbStep, a: Api)
    requires SweepsOk(b.codec, known, asked, w) && a == ApplyAb(b, w.api, w.now, Ledger(w.chain, step.down), step)
    requires SameSweeps(w.api.rows, a.rows) && forall i :: |w.api.rows| <= i < |a.rows| ==> a.rows[i].metadata.NormalAb?
    ensures SweepsOk(b.codec, known, asked, Next(b, w, Ab(step)))
  {
    assert Next(b, w, Ab(step)).api == a;
    QuietSweeps(b.codec, known, asked, w, Next(b, w, Ab(step)));
  }

  /** A step that moves no request and adds no emergency row. */
  lemma QuietSweeps(c: Codec, known: iset<Sweep>, asked: iset<(WalletId, Address)>, w: World, w': World)
    requires SweepsOk(c, known, asked, w) && SameSweeps(w.api.rows, w'.api.rows)
    requires forall i :: |w.api.rows| <= i < |w'.api.rows| ==> w'.api.rows[i].metadata.NormalAb?
    requires forall y :: y in w'.requests ==> y in w.requests && w'.requests[y] == w.requests[y]
    ensures SweepsOk(c, known, asked, w')
  {
    if 0 in w'.requests {
      SameRequestSweeps(known, asked, w.api.rows, w'.api.rows, w.requests[0]);
    }
    AssembleSweeps(c, known, asked, w, w', 0);
  }

  lemma EmergencyStartSweeps(
    b: Backend, known: iset<Sweep>, asked: iset<(WalletId, Address)>, w: World, l: Ledger, user: UserId, wallet: WalletId,
    otp: Option<ErrorCode>)
    requires SweepsOk(b.codec, known, asked, w)
    ensures SweepsOk(b.codec, known, asked, w.(api := StartEmergencyRecovery(w.api, l, user, wallet, otp).0))
  {
    EmergencyStartShape(w.api, l, user, wallet, otp);
    if StartEmergencyRecovery(w.api, l, user, wallet, otp).0 != w.api {
      SettledAbSame(w.api.rows, wallet, l);
    }
    QuietSweeps(b.codec, known, asked, w, w.(api := StartEmergencyRecovery(w.api, l, user, wallet, otp).0));
  }

  lemma SameTableSweeps(b: Backend, known: iset<Sweep>, asked: iset<(WalletId, Address)>, w: World, s: Step)
    requires SweepsOk(b.codec, known, asked, w)
    requires s.Tick? || s.Mine? || s.EmergencyCancel? || s.LastWithdrawDies? || s.DkgFinalize? || s.DkgCreate? || s.DkgDies?
    ensures SweepsOk(b.codec, known, asked, Next(b, w, s))
  {
    QuietSweeps(b.codec, known, asked, w, Next(b, w, s));
  }

  /** Any step: what is known and asked may grow by what the step reads and asks for. */
  lemma StepSweeps(b: Backend, known: iset<Sweep>, asked: iset<(WalletId, Address)>, w: World, s: Step)
    requires SystemOk(b, w) && BackendOk(b) && Enabled(b, w, s) && SweepsOk(b.codec, known, asked, w)
    requires s.LastWithdrawRuns? ==> forall v :: Reads(b, w, s.id, s.input.net, v) ==> v in known
    requires s.LastWithdrawArrives? ==> forall to :: Asks(b, w, s, s.wallet, to) ==> (s.wallet, to) in asked
    ensures SweepsOk(b.codec, known, asked, Next(b, w, s))
  {
    match s
    case Ab(step) =>
      AbStepSame(b, w.api, w.now, Ledger(w.chain, step.down), step);
      AbSweeps(b, known, asked, w, step, ApplyAb(b, w.api, w.now, Ledger(w.chain, step.down), step));
    case EmergencyStart(down, user, wallet, otp) =>
      EmergencyStartSweeps(b, known, asked, w, Ledger(w.chain, down), user, wallet, otp);
    case LastWithdrawArrives(id, user, wallet, to, otp, net) => ArriveSweeps(b, known, asked, w, id, user, wallet, to, otp, net);
    case LastWithdrawRuns(id, x) =>
      if id in w.requests {
        assert RequestOk(b.codec, w, w.requests[id]);
        RequestStepSweeps(b, known, asked, w, id, x);
      }
    case _ => SameTableSweeps(b, known, asked, w, s);
  }

  // ---- Runs ----

  ghost predicate ReadAt(b: Backend, steps: seq<Step>, k: nat, v: Sweep) {
    k < |steps| && steps[k].LastWithdrawRuns? && Reads(b, StateAt(b, steps, k), steps[k].id, steps[k].input.net, v)
  }

  /** In some step of the run a request of the wallet read the balance this sweep moves. */
  ghost predicate WasRead(b: Backend, steps: seq<Step>, v: Sweep) {
    exists k: nat :: ReadAt(b, steps, k, v)
  }

  ghost predicate AskedAt(b: Backend, steps: seq<Step>, k: nat, wallet: WalletId, to: Address) {
    k < |steps| && Asks(b, StateAt(b, steps, k), steps[k], wallet, to)
  }

  /** In some step of the run the owner asked for the wallet to be swept to this address. */
  ghost predicate WasAsked(b: Backend, steps: seq<Step>, wallet: WalletId, to: Address) {
    exists k: nat :: AskedAt(b, steps, k, wallet, to)
  }

  ghost function ReadIn(b: Backend, steps: seq<Step>): iset<Sweep> {
    iset v | WasRead(b, steps, v)
  }

  ghost function AskedIn(b: Backend, steps: seq<Step>): iset<(WalletId, Address)> {
    iset wallet: WalletId, to: Address | WasAsked(b, steps, wallet, to) :: (wallet, to)
  }

  lemma ReadsGrow(b: Backend, steps: seq<Step>, s: Step)
    ensures ReadIn(b, steps) <= ReadIn(b, steps + [s]) && AskedIn(b, steps) <= AskedIn(b, steps + [s])
  {
    forall v | WasRead(b, steps, v) ensures WasRead(b, steps + [s], v) {
      var k: nat :| ReadAt(b, steps, k, v);
      StateBefore(b, steps, s, k);
      assert ReadAt(b, steps + [s], k, v);
    }
    forall wallet: WalletId, to: Address | WasAsked(b, steps, wallet, to) ensures WasAsked(b, steps + [s], wallet, to) {
      var k: nat :| AskedAt(b, steps, k, wallet, to);
      StateBefore(b, steps, s, k);
      assert AskedAt(b, steps + [s], k, wallet, to);
    }
  }

  lemma LastStepReads(b: Backend, steps: seq<Step>, s: Step)
    ensures s.LastWithdrawRuns? ==>
              forall v :: Reads(b, Run(b, Init(), steps), s.id, s.input.net, v) ==> v in ReadIn(b, steps + [s])
    ensures forall wallet: WalletId, to: Address ::
              Asks(b, Run(b, Init(), steps), s, wallet, to) ==> (wallet, to) in AskedIn(b, steps + [s])
  {
    StateBefore(b, steps, s, |steps|);
    if s.LastWithdrawRuns? {
      forall v | Reads(b, Run(b, Init(), steps), s.id, s.input.net, v) ensures v in ReadIn(b, steps + [s]) {
        assert ReadAt(b, steps + [s], |steps|, v);
      }
    }
    forall wallet: WalletId, to: Address | Asks(b, Run(b, Init(), steps), s, wallet, to) ensures (wallet, to) in AskedIn(b, steps + [s]) {
      assert AskedAt(b, steps + [s], |steps|, wallet, to);
    }
  }

  /** Every admissible run: every sweep in the table or on its way to it was read and asked for in the run. */
  lemma {:induction false} EveryRunSweeps(b: Backend, steps: seq<Step>)
    requires BackendOk(b) && Admissible(b, Init(), steps)
    ensures Safe(b, Run(b, Init(), steps))
    ensures SweepsOk(b.codec, ReadIn(b, steps), AskedIn(b, steps), Run(b, Init(), steps))
    decreases |steps|
  {
    InitIsSafe(b);
    EveryRunIsSafe(b, Init(), steps);
    if steps != [] {
      var front, s := steps[..|steps| - 1], steps[|steps| - 1];
      assert steps == front + [s];
      RunSnoc(b, Init(), front, s);
      EveryRunSweeps(b, front);
      OneMoreStepSweeps(b, front, s);
    }
  }

  lemma OneMoreStepSweeps(b: Backend, front: seq<Step>, s: Step)
    requires BackendOk(b) && SystemOk(b, Run(b, Init(), front)) && Enabled(b, Run(b, Init(), front), s)
    requires SweepsOk(b.codec, ReadIn(b, front), AskedIn(b, front), Run(b, Init(), front))
    ensures SweepsOk(b.codec, ReadIn(b, front + [s]), AskedIn(b, front + [s]), Run(b, Init(), front + [s]))
  {
    var w := Run(b, Init(), front);
    RunSnoc(b, Init(), front, s);
    ReadsGrow(b, front, s);
    LastStepReads(b, front, s);
    MoreIsKnown(b.codec, ReadIn(b, front), AskedIn(b, front), ReadIn(b, front + [s]), AskedIn(b, front + [s]), w);
    StepSweeps(b, ReadIn(b, front + [s]), AskedIn(b, front + [s]), w, s);
  }

  /** The raw signs a sweep of this row that was read and asked for in the run. */
  ghost predicate SweptAsRead(b: Backend, steps: seq<Step>, r: Row, raw: Raw)
    requires r.metadata.EmergencyBc?
  {
    && WasAsked(b, steps, r.wallet, r.to)
    && exists tx :: SignedFrom(b.codec, raw, tx) && WasRead(b, steps, Sweep(r.wallet, r.to, r.metadata.asset, tx, r.amount))
  }

  lemma StoredIsSwept(b: Backend, steps: seq<Step>, rows: seq<Row>, i: nat, raw: Raw)
    requires RowsSweep(b.codec, ReadIn(b, steps), AskedIn(b, steps), rows)
    requires IsBc(rows, i) && rows[i].metadata.skipped.None? && rows[i].metadata.signedRaw == Some(raw)
    ensures SweptAsRead(b, steps, rows[i], raw)
  {
    assert RowSweeps(b.codec, ReadIn(b, steps), AskedIn(b, steps), rows[i]);
    var tx :| RowFrom(b.codec, ReadIn(b, steps), rows[i], tx);
  }

  /**
   * Every emergency broadcast of every run, concurrent or crashed, is the signed transfer of the whole balance that a
   * request of the wallet read in that run, to an address the wallet's owner asked for in it.
   */
  lemma EverySubmissionIsASweep(b: Backend, steps: seq<Step>, k: nat)
    requires BackendOk(b) && Admissible(b, Init(), steps) && k < |Run(b, Init(), steps).submitted|
    ensures var w := Run(b, Init(), steps);
            var e := w.submitted[k];
            IsBc(w.api.rows, e.row) && SweptAsRead(b, steps, w.api.rows[e.row], e.raw)
  {
    EveryRunSweeps(b, steps);
    var w := Run(b, Init(), steps);
    var e := w.submitted[k];
    assert Stored(b.codec, w.api.rows, e.row, e.raw);
    assert BcRowOk(b.codec, w.api.rows[e.row], w.chain);
    StoredIsSwept(b, steps, w.api.rows, e.row, e.raw);
  }

  /** A row that says a sweep went through: its raw was mined as a success, and it is such a transfer. */
  lemma ConfirmedSweepIsWhole(b: Backend, steps: seq<Step>, i: nat)
    requires BackendOk(b) && Admissible(b, Init(), steps)
    requires IsBc(Run(b, Init(), steps).api.rows, i)
    requires var r := Run(b, Init(), steps).api.rows[i]; r.status == EXECUTED && r.metadata.skipped.None?
    ensures var w := Run(b, Init(), steps);
            var raw := w.api.rows[i].metadata.signedRaw;
            && raw.Some? && MinedAs(b.codec, w.chain, raw.value, true)
            && SweptAsRead(b, steps, w.api.rows[i], raw.value)
  {
    EveryRunSweeps(b, steps);
    var w := Run(b, Init(), steps);
    assert BcRowOk(b.codec, w.api.rows[i], w.chain);
    StoredIsSwept(b, steps, w.api.rows, i, w.api.rows[i].metadata.signedRaw.value);
  }
}
