/**
 * What last-withdraw requests have read and seen confirmed, tied to the run that led to a state: whatever the
 * interleaving, a request that goes on without a token sweep read a zero balance itself, a sweep it relies on was
 * confirmed, and a skipped ETH row stands for a read of nothing or of dust.
 */
module Readings {
  import opened Types
  import opened EthTransfer
  import opened Withdraws
  import opened AbSigning
  import opened AbInvariant
  import opened LastWithdraw
  import opened BcInvariant
  import opened LastWithdrawSteps
  import opened System
  import opened History

  // ---- Runs, step by step ----

  /** A run grows at its end as it does at its start. */
  lemma {:induction false} RunSnoc(b: Backend, w: World, steps: seq<Step>, s: Step)
    ensures Run(b, w, steps + [s]) == Next(b, Run(b, w, steps), s)
    ensures Admissible(b, w, steps + [s]) <==> Admissible(b, w, steps) && Enabled(b, Run(b, w, steps), s)
    decreases |steps|
  {
    if steps == [] {
      assert steps + [s] == [s] && [s][1..] == [];
    } else {
      assert (steps + [s])[1..] == steps[1..] + [s];
      RunSnoc(b, Next(b, w, steps[0]), steps[1..], s);
    }
  }

  /** The state of a run from the empty system before its step `k`. */
  function StateAt(b: Backend, steps: seq<Step>, k: nat): World
    requires k <= |steps|
  {
    Run(b, Init(), steps[..k])
  }

  lemma StateBefore(b: Backend, steps: seq<Step>, s: Step, k: nat)
    requires k <= |steps|
    ensures StateAt(b, steps + [s], k) == StateAt(b, steps, k)
    ensures StateAt(b, steps, |steps|) == Run(b, Init(), steps)
  {
    assert (steps + [s])[..k] == steps[..k] && steps[..|steps|] == steps;
  }

  // ---- Reads ----

  /** Step `k` is a step of request `id`, which is of this wallet. */
  predicate StepOf(b: Backend, steps: seq<Step>, k: nat, id: RequestId, wallet: WalletId) {
    && k < |steps|
    && steps[k].LastWithdrawRuns? && steps[k].id == id
    && id in StateAt(b, steps, k).requests && StateAt(b, steps, k).requests[id].wallet == wallet
  }

  /** Request `id`, in flight ever since, read a zero token balance in the token step it took at step `k`. */
  ghost predicate NoTokensAt(b: Backend, steps: seq<Step>, k: nat, id: RequestId, wallet: WalletId) {
    && StepOf(b, steps, k, id, wallet)
    && StateAt(b, steps, k).requests[id].pc == AtToken
    && steps[k].input.net.tokenBalance == 0
    && forall j: nat :: k <= j <= |steps| ==> id in StateAt(b, steps, j).requests
  }

  ghost predicate ReadNoTokens(b: Backend, steps: seq<Step>, id: RequestId, wallet: WalletId) {
    exists k: nat :: NoTokensAt(b, steps, k, id, wallet)
  }

  /** Nothing to sweep, or, behind a token sweep, no more than the fee of a transfer. */
  predicate NothingToSweep(net: Provider, why: SkipReason, token: Token) {
    match why
    case ZERO_BALANCE => net.balance == 0
    case ETH_DUST => TokenHash(token).Some? && 0 < net.balance <= ResolveFees(net.feeData, TRANSFER_GAS_LIMIT).feeWei
  }

  /** A request of the wallet read so in the ETH step it took at step `k`. */
  predicate NoEtherAt(b: Backend, steps: seq<Step>, k: nat, id: RequestId, wallet: WalletId, why: SkipReason) {
    && StepOf(b, steps, k, id, wallet)
    && var pc := StateAt(b, steps, k).requests[id].pc;
       pc.AtEth? && NothingToSweep(steps[k].input.net, why, pc.token)
  }

  ghost predicate ReadNoEther(b: Backend, steps: seq<Step>, wallet: WalletId, why: SkipReason) {
    exists k: nat, id :: NoEtherAt(b, steps, k, id, wallet, why)
  }

  /** Reads of a run are reads of any longer run in which the request is still in flight. */
  lemma NoTokensStays(b: Backend, steps: seq<Step>, s: Step, id: RequestId, wallet: WalletId)
    requires ReadNoTokens(b, steps, id, wallet) && id in Run(b, Init(), steps + [s]).requests
    ensures ReadNoTokens(b, steps + [s], id, wallet)
  {
    var k: nat :| NoTokensAt(b, steps, k, id, wallet);
    var steps' := steps + [s];
    StateBefore(b, steps, s, k);
    StateBefore(b, steps', s, 0);
    forall j: nat | k <= j <= |steps'| ensures id in StateAt(b, steps', j).requests {
      if j <= |steps| {
        StateBefore(b, steps, s, j);
      }
    }
    assert NoTokensAt(b, steps', k, id, wallet);
  }

  lemma NoEtherStays(b: Backend, steps: seq<Step>, s: Step, wallet: WalletId, why: SkipReason)
    requires ReadNoEther(b, steps, wallet, why)
    ensures ReadNoEther(b, steps + [s], wallet, why)
  {
    var k: nat, id :| NoEtherAt(b, steps, k, id, wallet, why);
    StateBefore(b, steps, s, k);
    assert NoEtherAt(b, steps + [s], k, id, wallet, why);
  }

  /** A step that reads is a read of the run it ends. */
  lemma NoTokensNow(b: Backend, steps: seq<Step>, id: RequestId, x: Input)
    requires id in Run(b, Init(), steps).requests && Run(b, Init(), steps).requests[id].pc == AtToken
    requires x.net.tokenBalance == 0 && id in Run(b, Init(), steps + [LastWithdrawRuns(id, x)]).requests
    ensures ReadNoTokens(b, steps + [LastWithdrawRuns(id, x)], id, Run(b, Init(), steps).requests[id].wallet)
  {
    var s := LastWithdrawRuns(id, x);
    var steps' := steps + [s];
    StateBefore(b, steps, s, |steps|);
    StateBefore(b, steps', s, |steps'|);
    forall j: nat | |steps| <= j <= |steps'| ensures id in StateAt(b, steps', j).requests {
      assert j == |steps| || j == |steps'|;
    }
    assert NoTokensAt(b, steps', |steps|, id, Run(b, Init(), steps).requests[id].wallet);
  }

  lemma NoEtherNow(b: Backend, steps: seq<Step>, id: RequestId, x: Input, why: SkipReason)
    requires id in Run(b, Init(), steps).requests && Run(b, Init(), steps).requests[id].pc.AtEth?
    requires NothingToSweep(x.net, why, Run(b, Init(), steps).requests[id].pc.token)
    ensures ReadNoEther(b, steps + [LastWithdrawRuns(id, x)], Run(b, Init(), steps).requests[id].wallet, why)
  {
    var s := LastWithdrawRuns(id, x);
    StateBefore(b, steps, s, |steps|);
    assert NoEtherAt(b, steps + [s], |steps|, id, Run(b, Init(), steps).requests[id].wallet, why);
  }

  // ---- What a request relies on ----

  predicate EmergencyOf(rows: seq<Row>, i: nat, w: WalletId) {
    IsBc(rows, i) && rows[i].wallet == w
  }

  predicate SweptAt(rows: seq<Row>, i: nat, w: WalletId, a: Asset) {
    EmergencyOf(rows, i, w) && rows[i].metadata.asset == a && rows[i].status == EXECUTED
  }

  /** A token sweep of the wallet that was confirmed under this hash. */
  ghost predicate TokenSwept(rows: seq<Row>, w: WalletId, hash: Option<TxHash>) {
    hash.Some? && exists i: nat :: SweptAt(rows, i, w, ERC20) && rows[i].txHash == hash
  }

  ghost predicate EthExecuted(rows: seq<Row>, w: WalletId) {
    exists i: nat :: SweptAt(rows, i, w, ETH)
  }

  ghost predicate TokenKnown(b: Backend, steps: seq<Step>, rows: seq<Row>, id: RequestId, w: WalletId, t: Token) {
    match t
    case Unconfigured => b.token.None?
    case NoTokens => b.token.Some? && ReadNoTokens(b, steps, id, w)
    case Swept(hash) => b.token.Some? && TokenSwept(rows, w, hash)
  }

  ghost predicate LegKnown(b: Backend, steps: seq<Step>, rows: seq<Row>, id: RequestId, w: WalletId, g: Leg) {
    match g case TokenLeg => b.token.Some? case EthLeg(t) => TokenKnown(b, steps, rows, id, w, t)
  }

  ghost predicate RequestKnown(b: Backend, steps: seq<Step>, rows: seq<Row>, id: RequestId, r: Request) {
    match r.pc
    case AtCreate(g, _, _) => LegKnown(b, steps, rows, id, r.wallet, g)
    case AtSign(g, _, _) => LegKnown(b, steps, rows, id, r.wallet, g)
    case AtBroadcast(g, _, _) => LegKnown(b, steps, rows, id, r.wallet, g)
    case AtWait(g, _, _) => LegKnown(b, steps, rows, id, r.wallet, g)
    case AtEth(t) => TokenKnown(b, steps, rows, id, r.wallet, t)
    case AtSkip(why, t) => TokenKnown(b, steps, rows, id, r.wallet, t) && ReadNoEther(b, steps, r.wallet, why)
    case AtRetire(t) => TokenKnown(b, steps, rows, id, r.wallet, t) && EthExecuted(rows, r.wallet)
    case _ => true
  }

  /** Token rows exist only where a token is configured, and a skipped row stands for a read of this run. */
  ghost predicate RowKnown(b: Backend, steps: seq<Step>, rows: seq<Row>, r: Row)
    requires r.metadata.EmergencyBc?
  {
    && (r.metadata.asset == ERC20 ==> b.token.Some?)
    && (r.metadata.skipped.Some? ==> ReadNoEther(b, steps, r.wallet, r.metadata.skipped.value))
    && (r.metadata.skipped == Some(ETH_DUST) ==> TokenSwept(rows, r.wallet, r.metadata.tokenTxHash))
  }

  ghost predicate Known(b: Backend, steps: seq<Step>, w: World) {
    && (forall i: nat :: IsBc(w.api.rows, i) ==> RowKnown(b, steps, w.api.rows, w.api.rows[i]))
    && (forall id :: id in w.requests ==> RequestKnown(b, steps, w.api.rows, id, w.requests[id]))
  }

  // ---- It stays known ----

  lemma SweptStays(rows: seq<Row>, rows': seq<Row>, i: nat, w: WalletId, a: Asset)
    requires SweptAt(rows, i, w, a) && RowsLater(rows, rows')
    ensures SweptAt(rows', i, w, a) && rows'[i].txHash == rows[i].txHash
  {
    assert RowLater(rows[i], rows'[i]);
  }

  lemma TokenSweptStays(rows: seq<Row>, rows': seq<Row>, w: WalletId, hash: Option<TxHash>)
    requires TokenSwept(rows, w, hash) && RowsLater(rows, rows')
    ensures TokenSwept(rows', w, hash)
  {
    var i: nat :| SweptAt(rows, i, w, ERC20) && rows[i].txHash == hash;
    SweptStays(rows, rows', i, w, ERC20);
  }

  lemma TokenKnownStays(
    b: Backend, steps: seq<Step>, s: Step, rows: seq<Row>, rows': seq<Row>, id: RequestId, w: WalletId, t: Token)
    requires TokenKnown(b, steps, rows, id, w, t) && RowsLater(rows, rows') && id in Run(b, Init(), steps + [s]).requests
    ensures TokenKnown(b, steps + [s], rows', id, w, t)
  {
    match t
    case Unconfigured =>
    case NoTokens => NoTokensStays(b, steps, s, id, w);
    case Swept(hash) => TokenSweptStays(rows, rows', w, hash);
  }

  lemma LegKnownStays(
    b: Backend, steps: seq<Step>, s: Step, rows: seq<Row>, rows': seq<Row>, id: RequestId, w: WalletId, g: Leg)
    requires LegKnown(b, steps, rows, id, w, g) && RowsLater(rows, rows') && id in Run(b, Init(), steps + [s]).requests
    ensures LegKnown(b, steps + [s], rows', id, w, g)
  {
    if g.EthLeg? {
      TokenKnownStays(b, steps, s, rows, rows', id, w, g.token);
    }
  }

  lemma RequestKnownStays(b: Backend, steps: seq<Step>, s: Step, rows: seq<Row>, rows': seq<Row>, id: RequestId, r: Request)
    requires RequestKnown(b, steps, rows, id, r) && RowsLater(rows, rows') && id in Run(b, Init(), steps + [s]).requests
    ensures RequestKnown(b, steps + [s], rows', id, r)
  {
    match r.pc
    case AtCreate(g, _, _) => LegKnownStays(b, steps, s, rows, rows', id, r.wallet, g);
    case AtSign(g, _, _) => LegKnownStays(b, steps, s, rows, rows', id, r.wallet, g);
    case AtBroadcast(g, _, _) => LegKnownStays(b, steps, s, rows, rows', id, r.wallet, g);
    case AtWait(g, _, _) => LegKnownStays(b, steps, s, rows, rows', id, r.wallet, g);
    case AtEth(t) => TokenKnownStays(b, steps, s, rows, rows', id, r.wallet, t);
    case AtSkip(why, t) =>
      TokenKnownStays(b, steps, s, rows, rows', id, r.wallet, t);
      NoEtherStays(b, steps, s, r.wallet, why);
    case AtRetire(t) =>
      TokenKnownStays(b, steps, s, rows, rows', id, r.wallet, t);
      var i: nat :| SweptAt(rows, i, r.wallet, ETH);
      SweptStays(rows, rows', i, r.wallet, ETH);
    case _ =>
  }

  lemma RowKnownStays(b: Backend, steps: seq<Step>, s: Step, rows: seq<Row>, rows': seq<Row>, i: nat)
    requires IsBc(rows, i) && RowKnown(b, steps, rows, rows[i]) && RowsLater(rows, rows')
    ensures IsBc(rows', i) && RowKnown(b, steps + [s], rows', rows'[i])
  {
    assert RowLater(rows[i], rows'[i]);
    if rows[i].metadata.skipped.Some? {
      NoEtherStays(b, steps, s, rows[i].wallet, rows[i].metadata.skipped.value);
    }
    if rows[i].metadata.skipped == Some(ETH_DUST) {
      TokenSweptStays(rows, rows', rows[i].wallet, rows[i].metadata.tokenTxHash);
    }
  }

  // ---- What the request's own steps add ----

  /** Where the wallet's latest row of an asset is EXECUTED, the sweep of that asset is. */
  lemma LatestIsSwept(c: Codec, rows: seq<Row>, chain: map<TxHash, bool>, w: WalletId, a: Asset)
    requires forall i :: 0 <= i < |rows| && IsBc(rows, i) ==> BcRowOk(c, rows[i], chain)
    requires FindLatestEmergencyBc(rows, w, a).Some? && rows[FindLatestEmergencyBc(rows, w, a).value].status == EXECUTED
    ensures if a.ETH? then EthExecuted(rows, w) else TokenSwept(rows, w, rows[FindLatestEmergencyBc(rows, w, a).value].txHash)
  {
    var i := FindLatestEmergencyBc(rows, w, a).value;
    assert IsBc(rows, i) && BcRowOk(c, rows[i], chain) && SweptAt(rows, i, w, a);
  }

  predicate LatestExecuted(rows: seq<Row>, w: WalletId, a: Asset) {
    var latest := FindLatestEmergencyBc(rows, w, a);
    latest.Some? && rows[latest.value].status == EXECUTED
  }

  /** The token step goes on to ETH without a sweep exactly when it read a zero balance. */
  lemma NoTokensMeansReadZero(b: Backend, a: Api, r: Request, net: Provider)
    requires r.wallet in a.wallets
    ensures AfterToken(b, a, r, net) == Some(AtEth(NoTokens)) <==>
            b.token.Some? && net.tokenBalance == 0 && !LatestExecuted(a.rows, r.wallet, ERC20)
  {
  }

  /** The ETH step is skipped exactly when, with nothing EXECUTED yet, it read nothing to sweep. */
  lemma SkipMeansReadZeroOrDust(a: Api, r: Request, net: Provider, token: Token, why: SkipReason)
    requires r.wallet in a.wallets
    ensures AfterEth(a, r, net, token) == Some(AtSkip(why, token)) <==>
            && !LatestExecuted(a.rows, r.wallet, ETH) && a.wallets[r.wallet].address != r.to
            && NothingToSweep(net, why, token)
  {
  }

  lemma TokenLearns(b: Backend, steps: seq<Step>, a: Api, chain: map<TxHash, bool>, id: RequestId, r: Request, net: Provider)
    requires forall i :: 0 <= i < |a.rows| && IsBc(a.rows, i) ==> BcRowOk(b.codec, a.rows[i], chain)
    requires net.tokenBalance == 0 ==> ReadNoTokens(b, steps, id, r.wallet)
    requires AfterToken(b, a, r, net).Some?
    ensures RequestKnown(b, steps, a.rows, id, r.(pc := AfterToken(b, a, r, net).value))
  {
    var latest := FindLatestEmergencyBc(a.rows, r.wallet, ERC20);
    if b.token.Some? && latest.Some? && a.rows[latest.value].status == EXECUTED {
      LatestIsSwept(b.codec, a.rows, chain, r.wallet, ERC20);
    } else if AfterToken(b, a, r, net) == Some(AtEth(NoTokens)) && r.wallet in a.wallets {
      NoTokensMeansReadZero(b, a, r, net);
    }
  }

  lemma TokenStepKnown(b: Backend, steps: seq<Step>, w: World, id: RequestId, x: Input)
    requires w == Run(b, Init(), steps) && id in w.requests && w.requests[id].pc.AtToken?
    requires BcRowsOk(b.codec, w.api.rows, w.chain) && id in StepToken(b, w, id, x).requests
    requires id in Run(b, Init(), steps + [LastWithdrawRuns(id, x)]).requests
    ensures var w' := StepToken(b, w, id, x);
            RequestKnown(b, steps + [LastWithdrawRuns(id, x)], w'.api.rows, id, w'.requests[id])
  {
    var s := LastWithdrawRuns(id, x);
    if x.net.tokenBalance == 0 {
      NoTokensNow(b, steps, id, x);
    }
    assert StepToken(b, w, id, x) != End(w, id);
    TokenLearns(b, steps + [s], w.api, w.chain, id, w.requests[id], x.net);
  }

  lemma EthLearns(
    b: Backend, steps: seq<Step>, a: Api, chain: map<TxHash, bool>, id: RequestId, r: Request, net: Provider, token: Token)
    requires forall i :: 0 <= i < |a.rows| && IsBc(a.rows, i) ==> BcRowOk(b.codec, a.rows[i], chain)
    requires TokenKnown(b, steps, a.rows, id, r.wallet, token)
    requires forall why :: NothingToSweep(net, why, token) ==> ReadNoEther(b, steps, r.wallet, why)
    requires AfterEth(a, r, net, token).Some?
    ensures RequestKnown(b, steps, a.rows, id, r.(pc := AfterEth(a, r, net, token).value))
  {
    var latest := FindLatestEmergencyBc(a.rows, r.wallet, ETH);
    if latest.Some? && a.rows[latest.value].status == EXECUTED {
      LatestIsSwept(b.codec, a.rows, chain, r.wallet, ETH);
    } else if AfterEth(a, r, net, token).value.AtSkip? {
      SkipMeansReadZeroOrDust(a, r, net, token, AfterEth(a, r, net, token).value.why);
    }
  }

  lemma EthStepKnown(b: Backend, steps: seq<Step>, w: World, id: RequestId, x: Input, token: Token)
    requires w == Run(b, Init(), steps) && id in w.requests && w.requests[id].pc == AtEth(token)
    requires BcRowsOk(b.codec, w.api.rows, w.chain) && id in StepEth(w, id, x, token).requests
    requires TokenKnown(b, steps, w.api.rows, id, w.requests[id].wallet, token)
    requires id in Run(b, Init(), steps + [LastWithdrawRuns(id, x)]).requests
    ensures var w' := StepEth(w, id, x, token);
            RequestKnown(b, steps + [LastWithdrawRuns(id, x)], w'.api.rows, id, w'.requests[id])
  {
    var r, s := w.requests[id], LastWithdrawRuns(id, x);
    TokenKnownStays(b, steps, s, w.api.rows, w.api.rows, id, r.wallet, token);
    forall why | NothingToSweep(x.net, why, token) ensures ReadNoEther(b, steps + [s], r.wallet, why) {
      NoEtherNow(b, steps, id, x, why);
    }
    assert StepEth(w, id, x, token) != End(w, id);
    EthLearns(b, steps + [s], w.api, w.chain, id, r, x.net, token);
  }

  /** A leg whose sweep is EXECUTED goes on to the next one. */
  lemma LegEndKnown(b: Backend, steps: seq<Step>, rows: seq<Row>, id: RequestId, r: Request, g: Leg, i: nat)
    requires LegKnown(b, steps, rows, id, r.wallet, g) && SweptAt(rows, i, r.wallet, AssetOf(g))
    requires g.TokenLeg? ==> rows[i].txHash.Some?
    ensures RequestKnown(b, steps, rows, id, r.(pc := After(g, rows[i].txHash)))
  {
  }

  lemma CreateStepKnown(b: Backend, steps: seq<Step>, w: World, id: RequestId, x: Input)
    requires w == Run(b, Init(), steps) && id in w.requests && w.requests[id].pc.AtCreate?
    requires BcRowsOk(b.codec, w.api.rows, w.chain) && id in StepCreate(w, id, x).requests
    requires LegKnown(b, steps, w.api.rows, id, w.requests[id].wallet, w.requests[id].pc.leg)
    requires id in Run(b, Init(), steps + [LastWithdrawRuns(id, x)]).requests
    ensures var w' := StepCreate(w, id, x);
            RequestKnown(b, steps + [LastWithdrawRuns(id, x)], w'.api.rows, id, w'.requests[id])
  {
    var w', s := StepCreate(w, id, x), LastWithdrawRuns(id, x);
    CreateLater(w, id, x);
    LegKnownStays(b, steps, s, w.api.rows, w'.api.rows, id, w.requests[id].wallet, w.requests[id].pc.leg);
    CreateLearns(b, steps + [s], w, id, x);
  }

  lemma CreateLearns(b: Backend, steps: seq<Step>, w: World, id: RequestId, x: Input)
    requires id in w.requests && w.requests[id].pc.AtCreate?
    requires BcRowsOk(b.codec, w.api.rows, w.chain) && id in StepCreate(w, id, x).requests
    requires LegKnown(b, steps, StepCreate(w, id, x).api.rows, id, w.requests[id].wallet, w.requests[id].pc.leg)
    ensures RequestKnown(b, steps, StepCreate(w, id, x).api.rows, id, StepCreate(w, id, x).requests[id])
  {
    CreateShape(w, id, x);
    var r, l := w.requests[id], Ledger(w.chain, x.down);
    var rows := SettleEmergency(w.api.rows, r.wallet, l, w.now).rows;
    SettlementKeepsRowsOk(b.codec, w.api.rows, r.wallet, l, w.now);
    var latest := FindLatestEmergencyBc(rows, r.wallet, AssetOf(r.pc.leg));
    if latest.Some? && rows[latest.value].status == EXECUTED {
      SweptHasHash(b.codec, rows, w.chain, r.wallet, r.pc.leg, latest.value);
      LegEndKnown(b, steps, rows, id, r, r.pc.leg, latest.value);
    }
  }

  lemma SweptHasHash(c: Codec, rows: seq<Row>, chain: map<TxHash, bool>, w: WalletId, g: Leg, i: nat)
    requires BcRowsOk(c, rows, chain) && FindLatestEmergencyBc(rows, w, AssetOf(g)) == Some(i) && rows[i].status == EXECUTED
    ensures SweptAt(rows, i, w, AssetOf(g)) && (g.TokenLeg? ==> rows[i].txHash.Some?)
  {
    assert IsBc(rows, i) && BcRowOk(c, rows[i], chain);
  }

  lemma SettlementKeepsRowsOk(c: Codec, rows: seq<Row>, w: WalletId, l: Ledger, now: nat)
    requires BcRowsOk(c, rows, l.mined) && !SettleEmergency(rows, w, l, now).Thrown?
    ensures BcRowsOk(c, SettleEmergency(rows, w, l, now).rows, l.mined)
  {
    SettlementSteps(rows, w, l, now);
    SettlementIsBcStep(c, rows, SettleEmergency(rows, w, l, now).rows, w, l.mined, now);
  }

  /** Signing, broadcasting and waiting carry the leg along; a confirmed wait ends it. */
  lemma RowStepLearns(b: Backend, steps: seq<Step>, w: World, id: RequestId, x: Input)
    requires id in w.requests && RequestOk(b.codec, w, w.requests[id])
    requires w.requests[id].pc.AtSign? || w.requests[id].pc.AtBroadcast? || w.requests[id].pc.AtWait?
    requires id in Advance(b, w, id, x).requests
    requires LegKnown(b, steps, Advance(b, w, id, x).api.rows, id, w.requests[id].wallet, w.requests[id].pc.leg)
    ensures RequestKnown(b, steps, Advance(b, w, id, x).api.rows, id, Advance(b, w, id, x).requests[id])
  {
    if w.requests[id].pc.AtWait? {
      WaitLearns(b, steps, w, id, x);
    } else {
      LegGoesOn(b, steps, w, id, x);
    }
  }

  lemma LegGoesOn(b: Backend, steps: seq<Step>, w: World, id: RequestId, x: Input)
    requires id in w.requests && (w.requests[id].pc.AtSign? || w.requests[id].pc.AtBroadcast?)
    requires id in Advance(b, w, id, x).requests
    requires LegKnown(b, steps, Advance(b, w, id, x).api.rows, id, w.requests[id].wallet, w.requests[id].pc.leg)
    ensures RequestKnown(b, steps, Advance(b, w, id, x).api.rows, id, Advance(b, w, id, x).requests[id])
  {
    if w.requests[id].pc.AtSign? {
      assert Advance(b, w, id, x) == StepSign(b, w, id, x);
    }
  }

  lemma WaitLearns(b: Backend, steps: seq<Step>, w: World, id: RequestId, x: Input)
    requires id in w.requests && w.requests[id].pc.AtWait? && x.ok
    requires var pc := w.requests[id].pc;
             Stored(b.codec, w.api.rows, pc.row, pc.raw) && BcOf(w.api.rows[pc.row], w.requests[id].wallet, AssetOf(pc.leg))
    requires LegKnown(b, steps, Advance(b, w, id, x).api.rows, id, w.requests[id].wallet, w.requests[id].pc.leg)
    ensures RequestKnown(b, steps, Advance(b, w, id, x).api.rows, id, Advance(b, w, id, x).requests[id])
  {
    var r, rows' := w.requests[id], SetStatus(w.api.rows, w.requests[id].pc.row, EXECUTED);
    assert Advance(b, w, id, x).api.rows == rows';
    LegEndKnown(b, steps, rows', id, r, r.pc.leg, r.pc.row);
  }

  lemma RowStepKnown(b: Backend, steps: seq<Step>, w: World, id: RequestId, x: Input)
    requires w == Run(b, Init(), steps) && id in w.requests && RequestOk(b.codec, w, w.requests[id])
    requires w.requests[id].pc.AtSign? || w.requests[id].pc.AtBroadcast? || w.requests[id].pc.AtWait?
    requires RowsLater(w.api.rows, Advance(b, w, id, x).api.rows) && id in Advance(b, w, id, x).requests
    requires LegKnown(b, steps, w.api.rows, id, w.requests[id].wallet, w.requests[id].pc.leg)
    requires id in Run(b, Init(), steps + [LastWithdrawRuns(id, x)]).requests
    ensures var w' := Advance(b, w, id, x);
            RequestKnown(b, steps + [LastWithdrawRuns(id, x)], w'.api.rows, id, w'.requests[id])
  {
    var w', s := Advance(b, w, id, x), LastWithdrawRuns(id, x);
    LegKnownStays(b, steps, s, w.api.rows, w'.api.rows, id, w.requests[id].wallet, w.requests[id].pc.leg);
    RowStepLearns(b, steps + [s], w, id, x);
  }

  lemma SkipStepKnown(b: Backend, steps: seq<Step>, w: World, id: RequestId, x: Input)
    requires w == Run(b, Init(), steps) && id in w.requests && w.requests[id].pc.AtSkip?
    requires RequestKnown(b, steps, w.api.rows, id, w.requests[id])
    ensures var w' := Advance(b, w, id, x);
            id in w'.requests && RequestKnown(b, steps + [LastWithdrawRuns(id, x)], w'.api.rows, id, w'.requests[id])
  {
    var r, w' := w.requests[id], Advance(b, w, id, x);
    RunSnoc(b, Init(), steps, LastWithdrawRuns(id, x));
    SkipLater(b, w, id, x);
    TokenKnownStays(b, steps, LastWithdrawRuns(id, x), w.api.rows, w'.api.rows, id, r.wallet, r.pc.token);
    assert SweptAt(w'.api.rows, |w.api.rows|, r.wallet, ETH);
  }

  lemma OwnStepKnown(b: Backend, steps: seq<Step>, w: World, id: RequestId, x: Input)
    requires w == Run(b, Init(), steps) && id in w.requests
    requires RequestOk(b.codec, w, w.requests[id]) && BcRowsOk(b.codec, w.api.rows, w.chain)
    requires RowsLater(w.api.rows, Advance(b, w, id, x).api.rows) && id in Advance(b, w, id, x).requests
    requires RequestKnown(b, steps, w.api.rows, id, w.requests[id])
    requires id in Run(b, Init(), steps + [LastWithdrawRuns(id, x)]).requests
    ensures var w' := Advance(b, w, id, x);
            RequestKnown(b, steps + [LastWithdrawRuns(id, x)], w'.api.rows, id, w'.requests[id])
  {
    var pc := w.requests[id].pc;
    if pc.AtSign? || pc.AtBroadcast? || pc.AtWait? {
      RowStepKnown(b, steps, w, id, x);
    } else if pc.AtSkip? {
      SkipStepKnown(b, steps, w, id, x);
    } else if pc.AtToken? || pc.AtCreate? || pc.AtEth? {
      TableStepKnown(b, steps, w, id, x);
    } else if pc.AtLock? {
      LockShape(w, id, x);
    }
  }

  lemma TableStepKnown(b: Backend, steps: seq<Step>, w: World, id: RequestId, x: Input)
    requires w == Run(b, Init(), steps) && id in w.requests && BcRowsOk(b.codec, w.api.rows, w.chain)
    requires w.requests[id].pc.AtToken? || w.requests[id].pc.AtCreate? || w.requests[id].pc.AtEth?
    requires id in Advance(b, w, id, x).requests && RequestKnown(b, steps, w.api.rows, id, w.requests[id])
    requires id in Run(b, Init(), steps + [LastWithdrawRuns(id, x)]).requests
    ensures var w' := Advance(b, w, id, x);
            RequestKnown(b, steps + [LastWithdrawRuns(id, x)], w'.api.rows, id, w'.requests[id])
  {
    match w.requests[id].pc
    case AtToken => TokenStepKnown(b, steps, w, id, x);
    case AtCreate(_, _, _) => CreateStepKnown(b, steps, w, id, x);
    case AtEth(token) => EthStepKnown(b, steps, w, id, x, token);
  }

  // ---- The rows they add ----

  lemma NewRowsKnown(b: Backend, steps: seq<Step>, w: World, id: RequestId, x: Input)
    requires w == Run(b, Init(), steps) && id in w.requests && RequestOk(b.codec, w, w.requests[id])
    requires RequestKnown(b, steps, w.api.rows, id, w.requests[id])
    ensures var rows' := Advance(b, w, id, x).api.rows;
            forall i :: |w.api.rows| <= i < |rows'| ==>
                          rows'[i].metadata.EmergencyBc? && RowKnown(b, steps + [LastWithdrawRuns(id, x)], rows', rows'[i])
  {
    var r := w.requests[id];
    if r.pc.AtCreate? {
      CreatedRowKnown(b, steps + [LastWithdrawRuns(id, x)], w, id, x);
    } else if r.pc.AtSkip? {
      SkippedRowKnown(b, steps, w, id, x);
    } else {
      AddsNoRow(b, w, id, x);
    }
  }

  /** A row created to be signed is no skip, and a token row only if a token is configured. */
  lemma CreatedRowKnown(b: Backend, steps: seq<Step>, w: World, id: RequestId, x: Input)
    requires id in w.requests && w.requests[id].pc.AtCreate? && (w.requests[id].pc.leg.TokenLeg? ==> b.token.Some?)
    ensures var k, rows' := |w.api.rows|, StepCreate(w, id, x).api.rows;
            |rows'| > k ==> |rows'| == k + 1 && rows'[k].metadata.EmergencyBc? && RowKnown(b, steps, rows', rows'[k])
  {
    CreateAddsOne(w, id, x);
    var r := w.requests[id];
    NewRowKnown(b, steps, StepCreate(w, id, x).api.rows, w.now, r, r.pc.leg, r.pc.amount);
  }

  lemma NewRowKnown(b: Backend, steps: seq<Step>, rows: seq<Row>, now: nat, r: Request, g: Leg, amount: nat)
    requires g.TokenLeg? ==> b.token.Some?
    ensures RowKnown(b, steps, rows, NewBcRow(now, r, g, amount))
  {
  }

  lemma CreateAddsOne(w: World, id: RequestId, x: Input)
    requires id in w.requests && w.requests[id].pc.AtCreate?
    ensures var r, rows' := w.requests[id], StepCreate(w, id, x).api.rows;
            |rows'| > |w.api.rows| ==>
              |rows'| == |w.api.rows| + 1 && rows'[|w.api.rows|] == NewBcRow(w.now, r, r.pc.leg, r.pc.amount)
  {
    CreateShape(w, id, x);
    SettledLength(w, id, x);
  }

  lemma SettledLength(w: World, id: RequestId, x: Input)
    requires id in w.requests
    ensures var s := SettleEmergency(w.api.rows, w.requests[id].wallet, Ledger(w.chain, x.down), w.now);
            !s.Thrown? ==> |s.rows| == |w.api.rows|
  {
    if !SettleEmergency(w.api.rows, w.requests[id].wallet, Ledger(w.chain, x.down), w.now).Thrown? {
      SettlementSteps(w.api.rows, w.requests[id].wallet, Ledger(w.chain, x.down), w.now);
    }
  }

  lemma SkippedRowKnown(b: Backend, steps: seq<Step>, w: World, id: RequestId, x: Input)
    requires w == Run(b, Init(), steps)
    requires id in w.requests && w.requests[id].pc.AtSkip? && RequestOk(b.codec, w, w.requests[id])
    requires RequestKnown(b, steps, w.api.rows, id, w.requests[id])
    ensures var r := w.requests[id];
            var row := SkippedRow(w, r, r.pc.why, r.pc.token);
            RowKnown(b, steps + [LastWithdrawRuns(id, x)], w.api.rows + [row], row)
  {
    var r, w' := w.requests[id], Advance(b, w, id, x);
    NoEtherStays(b, steps, LastWithdrawRuns(id, x), r.wallet, r.pc.why);
    SkipLater(b, w, id, x);
    if r.pc.why == ETH_DUST {
      TokenSweptStays(w.api.rows, w'.api.rows, r.wallet, TokenHash(r.pc.token));
    }
  }

  lemma AddsNoRow(b: Backend, w: World, id: RequestId, x: Input)
    requires id in w.requests && !w.requests[id].pc.AtCreate? && !w.requests[id].pc.AtSkip?
    ensures |Advance(b, w, id, x).api.rows| == |w.api.rows|
  {
    match w.requests[id].pc
    case AtLock => LockKeepsLength(w, id, x);
    case AtToken => var _ := TokenShape(b, w, id, x);
    case AtEth(token) => var _ := EthShape(w, id, x, token);
    case _ =>
  }

  lemma LockKeepsLength(w: World, id: RequestId, x: Input)
    requires id in w.requests
    ensures |StepLock(w, id, x).api.rows| == |w.api.rows|
  {
    LockShape(w, id, x);
    if StepLock(w, id, x) != End(w, id) {
      var wallet, l := w.requests[id].wallet, Ledger(w.chain, x.down);
      SettlementSteps(SettleNormalAb(w.api.rows, wallet, l).value, wallet, l, w.now);
    }
  }

  // ---- Every run ----

  /** A step ends its request or moves it, and leaves every other request alone. */
  predicate OnlyMoves(w: World, w': World, id: RequestId) {
    w'.requests == w.requests - {id}
    || (id in w.requests && id in w'.requests && w'.requests[id].wallet == w.requests[id].wallet
        && w'.requests == w.requests[id := w'.requests[id]])
  }

  lemma ShapedStepMoves(b: Backend, w: World, id: RequestId, x: Input)
    requires id in w.requests
    requires w.requests[id].pc.AtLock? || w.requests[id].pc.AtToken? || w.requests[id].pc.AtCreate? || w.requests[id].pc.AtEth?
    ensures OnlyMoves(w, Advance(b, w, id, x), id)
  {
    match w.requests[id].pc
    case AtLock => LockShape(w, id, x);
    case AtToken => var _ := TokenShape(b, w, id, x);
    case AtCreate(_, _, _) => CreateShape(w, id, x);
    case AtEth(token) => var _ := EthShape(w, id, x, token);
  }

  lemma RowStepMoves(b: Backend, w: World, id: RequestId, x: Input)
    requires id in w.requests
    requires w.requests[id].pc.AtSign? || w.requests[id].pc.AtMarkFailed? || w.requests[id].pc.AtWait? || w.requests[id].pc.AtSkip?
    ensures OnlyMoves(w, Advance(b, w, id, x), id)
  {
  }

  lemma AdvanceMoves(b: Backend, w: World, id: RequestId, x: Input)
    requires id in w.requests
    ensures OnlyMoves(w, Advance(b, w, id, x), id)
  {
    var pc := w.requests[id].pc;
    if pc.AtLock? || pc.AtToken? || pc.AtCreate? || pc.AtEth? {
      ShapedStepMoves(b, w, id, x);
    } else if pc.AtSign? || pc.AtMarkFailed? || pc.AtWait? || pc.AtSkip? {
      RowStepMoves(b, w, id, x);
    }
  }

  /** What was known stays known, so only new rows and moved requests are to be shown. */
  lemma KnownGrows(b: Backend, steps: seq<Step>, s: Step, w: World, w': World)
    requires w' == Run(b, Init(), steps + [s]) && Known(b, steps, w) && RowsLater(w.api.rows, w'.api.rows)
    requires forall i :: |w.api.rows| <= i < |w'.api.rows| && IsBc(w'.api.rows, i) ==>
                           RowKnown(b, steps + [s], w'.api.rows, w'.api.rows[i])
    requires forall y :: y in w'.requests ==>
                           || (y in w.requests && w'.requests[y] == w.requests[y])
                           || RequestKnown(b, steps + [s], w'.api.rows, y, w'.requests[y])
    ensures Known(b, steps + [s], w')
  {
    var rows, rows' := w.api.rows, w'.api.rows;
    forall i: nat | IsBc(rows', i) ensures RowKnown(b, steps + [s], rows', rows'[i]) {
      if i < |rows| {
        assert RowLater(rows[i], rows'[i]) && IsBc(rows, i);
        RowKnownStays(b, steps, s, rows, rows', i);
      }
    }
    forall y | y in w'.requests ensures RequestKnown(b, steps + [s], rows', y, w'.requests[y]) {
      if y in w.requests && w'.requests[y] == w.requests[y] {
        RequestKnownStays(b, steps, s, rows, rows', y, w.requests[y]);
      }
    }
  }

  lemma RequestStepGrows(b: Backend, steps: seq<Step>, w: World, id: RequestId, x: Input)
    requires w == Run(b, Init(), steps) && id in w.requests && Known(b, steps, w)
    requires RequestOk(b.codec, w, w.requests[id]) && BcRowsOk(b.codec, w.api.rows, w.chain)
    requires RowsLater(w.api.rows, Advance(b, w, id, x).api.rows)
    requires Run(b, Init(), steps + [LastWithdrawRuns(id, x)]) == Advance(b, w, id, x)
    ensures Known(b, steps + [LastWithdrawRuns(id, x)], Advance(b, w, id, x))
  {
    var w' := Advance(b, w, id, x);
    assert RequestKnown(b, steps, w.api.rows, id, w.requests[id]);
    NewRowsKnown(b, steps, w, id, x);
    AdvanceMoves(b, w, id, x);
    if id in w'.requests {
      OwnStepKnown(b, steps, w, id, x);
    }
    KnownGrows(b, steps, LastWithdrawRuns(id, x), w, w');
  }

  lemma RequestSteps(b: Backend, steps: seq<Step>, id: RequestId, x: Input)
    requires id in Run(b, Init(), steps).requests
    ensures Run(b, Init(), steps + [LastWithdrawRuns(id, x)]) == Advance(b, Run(b, Init(), steps), id, x)
  {
    RunSnoc(b, Init(), steps, LastWithdrawRuns(id, x));
  }

  lemma RequestStepKeepsKnown(b: Backend, steps: seq<Step>, w: World, id: RequestId, x: Input)
    requires w == Run(b, Init(), steps) && SystemOk(b, w) && Known(b, steps, w) && id in w.requests && Honest(b, w, id, x)
    ensures Known(b, steps + [LastWithdrawRuns(id, x)], Run(b, Init(), steps + [LastWithdrawRuns(id, x)]))
  {
    RequestSteps(b, steps, id, x);
    AdvanceLater(b, w, id, x);
    assert RequestOk(b.codec, w, w.requests[id]);
    RequestStepGrows(b, steps, w, id, x);
  }

  /** No emergency row is added, and a request that is new has read nothing yet. */
  ghost predicate AddsNothing(w: World, w': World) {
    && (forall i :: |w.api.rows| <= i < |w'.api.rows| ==> !IsBc(w'.api.rows, i))
    && (forall y :: y in w'.requests ==> (y in w.requests && w'.requests[y] == w.requests[y]) || w'.requests[y].pc == AtLock)
  }

  lemma AbHandlerAddsNothing(b: Backend, w: World, step: AbStep)
    requires BackendOk(b) && ApiOk(b, w.api, w.now) && AbEnabled(w.api, step)
    ensures var rows' := ApplyAb(b, w.api, w.now, Ledger(w.chain, step.down), step).rows;
            forall i :: |w.api.rows| <= i < |rows'| ==> !IsBc(rows', i)
  {
    AbStepKeepsOk(b, w.api, w.now, Ledger(w.chain, step.down), step);
    AbFrameAddsNothing(w.api, ApplyAb(b, w.api, w.now, Ledger(w.chain, step.down), step));
  }

  lemma AbFrameAddsNothing(a: Api, a': Api)
    requires AbFrame(a, a')
    ensures forall i :: |a.rows| <= i < |a'.rows| ==> !IsBc(a'.rows, i)
  {
  }

  lemma AbStepAddsNothing(b: Backend, w: World, step: AbStep, a: Api)
    requires a == ApplyAb(b, w.api, w.now, Ledger(w.chain, step.down), step)
    requires forall i :: |w.api.rows| <= i < |a.rows| ==> !IsBc(a.rows, i)
    ensures AddsNothing(w, Next(b, w, Ab(step)))
  {
    assert Next(b, w, Ab(step)).api == a;
  }

  lemma EmergencyStartAddsNothing(w: World, l: Ledger, user: UserId, wallet: WalletId, otp: Option<ErrorCode>)
    ensures AddsNothing(w, w.(api := StartEmergencyRecovery(w.api, l, user, wallet, otp).0))
  {
    EmergencyStartShape(w.api, l, user, wallet, otp);
  }

  lemma ArriveAddsNothing(
    b: Backend, w: World, id: RequestId, user: UserId, wallet: WalletId, to: string, otp: Option<ErrorCode>, net: Provider)
    ensures AddsNothing(w, Arrive(b, w, id, user, wallet, to, otp, net).0)
  {
    var _ := ArriveShape(b, w, id, user, wallet, to, otp, net);
  }

  lemma RowlessAddsNothing(b: Backend, w: World, s: Step)
    requires s.Tick? || s.Mine? || s.EmergencyCancel? || s.LastWithdrawDies? || s.DkgFinalize? || s.DkgCreate? || s.DkgDies?
    ensures AddsNothing(w, Next(b, w, s))
  {
  }

  lemma OtherStepAddsNothing(b: Backend, w: World, s: Step)
    requires BackendOk(b) && ApiOk(b, w.api, w.now) && Enabled(b, w, s) && !(s.LastWithdrawRuns? && s.id in w.requests)
    ensures AddsNothing(w, Next(b, w, s))
  {
    match s
    case Ab(step) =>
      AbHandlerAddsNothing(b, w, step);
      AbStepAddsNothing(b, w, step, ApplyAb(b, w.api, w.now, Ledger(w.chain, step.down), step));
    case EmergencyStart(down, user, wallet, otp) => EmergencyStartAddsNothing(w, Ledger(w.chain, down), user, wallet, otp);
    case LastWithdrawArrives(id, user, wallet, to, otp, net) => ArriveAddsNothing(b, w, id, user, wallet, to, otp, net);
    case LastWithdrawRuns(_, _) =>
    case _ => RowlessAddsNothing(b, w, s);
  }

  lemma OtherStepKeepsKnown(b: Backend, steps: seq<Step>, s: Step)
    requires BackendOk(b)
    requires var w := Run(b, Init(), steps);
             Safe(b, w) && Known(b, steps, w) && Enabled(b, w, s) && !(s.LastWithdrawRuns? && s.id in w.requests)
    ensures Known(b, steps + [s], Run(b, Init(), steps + [s]))
  {
    var w := Run(b, Init(), steps);
    RunSnoc(b, Init(), steps, s);
    StepLater(b, w, s);
    OtherStepAddsNothing(b, w, s);
    KnownGrows(b, steps, s, w, Next(b, w, s));
  }

  /**
   * Every admissible run, whatever is interleaved and wherever it crashes: a request that goes on without tokens
   * read none itself, a sweep relied on was confirmed, and every skipped ETH row stands for such a read.
   */
  lemma {:induction false} EveryRunIsKnown(b: Backend, steps: seq<Step>)
    requires BackendOk(b) && Admissible(b, Init(), steps)
    ensures Safe(b, Run(b, Init(), steps)) && Known(b, steps, Run(b, Init(), steps))
    decreases |steps|
  {
    InitIsSafe(b);
    EveryRunIsSafe(b, Init(), steps);
    if steps != [] {
      var front, s := steps[..|steps| - 1], steps[|steps| - 1];
      assert steps == front + [s];
      RunSnoc(b, Init(), front, s);
      EveryRunIsKnown(b, front);
      if s.LastWithdrawRuns? && s.id in Run(b, Init(), front).requests {
        RequestStepKeepsKnown(b, front, Run(b, Init(), front), s.id, s.input);
      } else {
        OtherStepKeepsKnown(b, front, s);
      }
    }
  }
}
