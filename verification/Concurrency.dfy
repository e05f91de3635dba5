/**
 * Why retirement safety asks for requests served one at a time: for each branch of the last withdraw that goes on
 * without a row of its own, a run of two concurrent requests of one wallet that retires it beside an open row.
 */
module Concurrency {
  import opened Types
  import opened EthTransfer
  import opened Withdraws
  import opened AbSigning
  import opened LastWithdraw
  import opened BcInvariant
  import opened LastWithdrawSteps
  import opened Shares
  import opened System
  import opened Guarantees
  import opened Readings
  import opened Retirement

  // ---- One wallet, two requests ----

  /** Wallet 0 with the requests 0 and 1 in flight to the same address. */
  datatype Scene = Scene(
    to: Address, wallet: Wallet, share: ShareC, chain: map<TxHash, bool>, rows: seq<Row>, submitted: seq<Submission>,
    first: Pc, second: Pc)

  function Of(s: Scene): World {
    World(0, s.chain, Api(map[0 := s.wallet], s.rows, map[], []),
          map[0 := Request(0, s.to, s.first), 1 := Request(0, s.to, s.second)], s.submitted, map[0 := s.share], map[])
  }

  function PcOf(s: Scene, id: RequestId): Pc {
    if id == 0 then s.first else s.second
  }

  function With(s: Scene, id: RequestId, pc: Pc): Scene {
    if id == 0 then s.(first := pc) else s.(second := pc)
  }

  lemma Moves(s: Scene, id: RequestId, pc: Pc)
    requires id <= 1
    ensures Move(Of(s), id, pc) == Of(With(s, id, pc))
  {
    assert Move(Of(s), id, pc).requests == Of(With(s, id, pc)).requests;
  }

  /** One more step of a reachable state. */
  lemma Then(b: Backend, w: World, s: Step, w': World)
    requires Reachable(b, w) && Enabled(b, w, s) && Next(b, w, s) == w'
    ensures Reachable(b, w')
  {
    assert [s][1..] == [];
    assert Run(b, w, [s]) == w';
    RunReached(b, w, [s]);
  }

  /** A step that only moves one of the two requests. */
  lemma Goes(b: Backend, s: Scene, id: RequestId, x: Input, pc: Pc)
    requires Reachable(b, Of(s)) && id <= 1 && Honest(b, Of(s), id, x) && Advance(b, Of(s), id, x) == Move(Of(s), id, pc)
    ensures Reachable(b, Of(With(s, id, pc)))
  {
    Moves(s, id, pc);
    Then(b, Of(s), LastWithdrawRuns(id, x), Of(With(s, id, pc)));
  }

  // ---- What the provider answers ----

  /** An empty wallet, as a request sees it before a deposit. */
  function Empty(): Provider {
    Provider(SEPOLIA_CHAIN_ID, 0, 0, FeeData(Some(1), Some(2), None), true, 0, None)
  }

  /** No more ether than the fee. */
  function Dust(): Provider {
    Empty().(balance := 1)
  }

  /** After a deposit of ether, and of tokens. */
  function Funded(): Provider {
    Empty().(balance := 1_000_000, tokenBalance := 7)
  }

  function Sees(net: Provider): Input {
    Input({}, net, None, true)
  }

  // ---- Both requests arrive and pass the lock ----

  /** The destination is an address other than the wallet's, and not the token's. */
  predicate Setting(b: Backend, to: string, address: Address) {
    && b.codec.getAddress(to).Some? && b.codec.getAddress(to).value != address
    && b.codec.getAddress(to) != b.token
  }

  function Opening(to: Address, address: Address, share: SealedShare, status: WalletStatus, pc: Pc): Scene {
    Scene(to, Wallet(0, status, address, "", Some(share)), ShareC(0, "", Some(share), SHARE_ACTIVE), map[], [], [], pc, pc)
  }

  /** A wallet is created, and its owner starts the emergency flow. */
  lemma WalletIsPending(b: Backend, end: Scene, share: SealedShare)
    requires end.wallet.status == RECOVERY_PENDING && end.wallet.user == 0 && end.wallet.publicKey == ""
    requires end.wallet.shareB == Some(share) && end.share == ShareC(0, "", Some(share), SHARE_ACTIVE)
    ensures Reachable(b, World(0, map[], Api(map[0 := end.wallet], [], map[], []), map[], [], map[0 := end.share], map[]))
  {
    var shares, row := map[0 := end.share], end.wallet.(status := ACTIVE);
    var w0 := Init();
    assert Run(b, w0, []) == w0 && Admissible(b, w0, []);
    var w1 := w0.(shares := shares, finalizing := map[0 := row]);
    Then(b, w0, DkgFinalize(0, row, "", share), w1);
    var w2 := w1.(api := w1.api.(wallets := map[0 := row]), finalizing := map[]);
    assert w1.finalizing - {0} == map[];
    Then(b, w1, DkgCreate(0), w2);
    var w3 := w2.(api := w2.api.(wallets := map[0 := end.wallet]));
    Then(b, w2, EmergencyStart({}, 0, 0, None), w3);
  }

  /** Then two requests arrive. */
  lemma BothArrive(b: Backend, to: string, address: Address, share: SealedShare)
    requires Setting(b, to, address)
    ensures Reachable(b, Of(Opening(b.codec.getAddress(to).value, address, share, RECOVERY_PENDING, AtLock)))
  {
    var a := b.codec.getAddress(to).value;
    var end := Opening(a, address, share, RECOVERY_PENDING, AtLock);
    WalletIsPending(b, end, share);
    var w0 := World(0, map[], Api(map[0 := end.wallet], [], map[], []), map[], [], map[0 := end.share], map[]);
    var w1 := w0.(requests := map[0 := Request(0, a, AtLock)]);
    Then(b, w0, LastWithdrawArrives(0, 0, 0, to, None, Empty()), w1);
    assert w1.requests[1 := Request(0, a, AtLock)] == Of(end).requests;
    Then(b, w1, LastWithdrawArrives(1, 0, 0, to, None, Empty()), Of(end));
  }

  lemma VisitsOnlyOpenRows(rows: seq<Row>)
    ensures FindOpenEmergencyBc(rows, 0) == [] || exists i :: 0 <= i < |rows| && OpenBc(rows[i], 0)
  {
    VisitOrder(rows, 0);
    var ids := FindOpenEmergencyBc(rows, 0);
    if ids != [] {
      assert ids[0] in ids;
    }
  }

  /** With nothing open, settlement changes nothing. */
  lemma NothingToSettle(rows: seq<Row>, l: Ledger)
    requires forall i :: 0 <= i < |rows| ==> !OpenBc(rows[i], 0) && !OpenAb(rows[i], 0)
    ensures SettleNormalAb(rows, 0, l) == Ok(rows) && SettleEmergency(rows, 0, l, 0) == Clear(rows)
  {
    VisitsOnlyOpenRows(rows);
  }

  /** On an empty table the locked transaction only moves the wallet to RETIRING and the request on. */
  lemma Locks(b: Backend, s: Scene, id: RequestId)
    requires Reachable(b, Of(s)) && id <= 1 && PcOf(s, id) == AtLock && s.rows == []
    requires s.wallet.status in {RECOVERY_PENDING, RETIRING} && s.wallet.shareB.Some?
    ensures Reachable(b, Of(With(s.(wallet := s.wallet.(status := RETIRING)), id, AtToken)))
  {
    var s' := s.(wallet := s.wallet.(status := RETIRING));
    NothingToSettle([], Ledger(map[], {}));
    Moves(s', id, AtToken);
    assert Of(s').api.wallets == Of(s).api.wallets[0 := s'.wallet];
    assert StepLock(Of(s), id, Sees(Empty())) == Move(Of(s'), id, AtToken);
    Then(b, Of(s), LastWithdrawRuns(id, Sees(Empty())), Of(With(s', id, AtToken)));
  }

  lemma BothLocked(b: Backend, to: string, address: Address, share: SealedShare)
    requires Setting(b, to, address)
    ensures Reachable(b, Of(Opening(b.codec.getAddress(to).value, address, share, RETIRING, AtToken)))
  {
    BothArrive(b, to, address, share);
    var s := Opening(b.codec.getAddress(to).value, address, share, RECOVERY_PENDING, AtLock);
    Locks(b, s, 0);
    Locks(b, With(s.(wallet := s.wallet.(status := RETIRING)), 0, AtToken), 1);
  }

  // ---- Rows ----

  /** A request opens a row for its leg. */
  lemma Opens(b: Backend, s: Scene, id: RequestId, g: Leg, tx: Tx, amount: nat)
    requires Reachable(b, Of(s)) && id <= 1 && PcOf(s, id) == AtCreate(g, tx, amount)
    requires forall i :: 0 <= i < |s.rows| ==> !OpenBc(s.rows[i], 0) && !OpenAb(s.rows[i], 0)
    requires FindLatestEmergencyBc(s.rows, 0, AssetOf(g)).None?
    ensures var row := NewBcRow(0, Request(0, s.to, AtLock), g, amount);
            Reachable(b, Of(With(s.(rows := s.rows + [row]), id, AtSign(g, |s.rows|, tx))))
  {
    var row := NewBcRow(0, Request(0, s.to, AtLock), g, amount);
    var s' := s.(rows := s.rows + [row]);
    NothingToSettle(s.rows, Ledger(s.chain, {}));
    Moves(s', id, AtSign(g, |s.rows|, tx));
    assert StepCreate(Of(s), id, Sees(Empty())) == Move(Of(s'), id, AtSign(g, |s.rows|, tx));
    Then(b, Of(s), LastWithdrawRuns(id, Sees(Empty())), Of(With(s', id, AtSign(g, |s.rows|, tx))));
  }

  function SentRow(c: Codec, to: Address, g: Leg, amount: nat, raw: Raw, status: WithdrawStatus): Row {
    var row := NewBcRow(0, Request(0, to, AtLock), g, amount);
    row.(status := status, txHash := Some(c.hash(raw)), metadata := row.metadata.(signedRaw := Some(raw)))
  }

  /** The first request signs its row, submits it and waits. */
  lemma SignsAndSubmits(b: Backend, s: Scene, g: Leg, tx: Tx, amount: nat, sig: Signature)
    requires Reachable(b, Of(s)) && s.first == AtSign(g, 0, tx) && s.submitted == []
    requires s.rows == [NewBcRow(0, Request(0, s.to, AtLock), g, amount)]
    ensures var raw := b.codec.serialize(tx, sig);
            Reachable(b, Of(s.(rows := [SentRow(b.codec, s.to, g, amount, raw, BROADCASTED)], submitted := [Submission(0, raw)],
                               first := AtWait(g, 0, raw))))
  {
    var raw := b.codec.serialize(tx, sig);
    var signed := s.(rows := [SentRow(b.codec, s.to, g, amount, raw, BROADCASTED)]);
    var x := Sees(Empty()).(signature := Some(sig));
    Moves(signed, 0, AtBroadcast(g, 0, raw));
    assert s.rows[0 := signed.rows[0]] == signed.rows;
    assert StepSign(b, Of(s), 0, x) == Move(Of(signed), 0, AtBroadcast(g, 0, raw));
    Then(b, Of(s), LastWithdrawRuns(0, x), Of(With(signed, 0, AtBroadcast(g, 0, raw))));
    var ready := With(signed, 0, AtBroadcast(g, 0, raw));
    var called := ready.(submitted := [Submission(0, raw)]);
    Moves(called, 0, AtWait(g, 0, raw));
    assert [] + [Submission(0, raw)] == [Submission(0, raw)];
    Then(b, Of(ready), LastWithdrawRuns(0, Sees(Empty())), Of(With(called, 0, AtWait(g, 0, raw))));
  }

  /** Its transaction is mined, and it goes on. */
  lemma IsConfirmed(b: Backend, s: Scene, g: Leg, amount: nat, raw: Raw)
    requires Reachable(b, Of(s)) && s.first == AtWait(g, 0, raw) && s.chain == map[]
    requires s.rows == [SentRow(b.codec, s.to, g, amount, raw, BROADCASTED)]
    ensures var h := b.codec.hash(raw);
            Reachable(b, Of(s.(chain := map[h := true], rows := [SentRow(b.codec, s.to, g, amount, raw, EXECUTED)],
                               first := After(g, Some(h)))))
  {
    var h := b.codec.hash(raw);
    var mined := s.(chain := map[h := true]);
    Then(b, Of(s), Mine(h, true), Of(mined));
    var done := mined.(rows := [SentRow(b.codec, s.to, g, amount, raw, EXECUTED)]);
    Moves(done, 0, After(g, Some(h)));
    assert SetStatus(mined.rows, 0, EXECUTED) == done.rows;
    Then(b, Of(mined), LastWithdrawRuns(0, Sees(Empty())), Of(With(done, 0, After(g, Some(h)))));
  }

  /** The first request sweeps a leg to the end on an empty table. */
  lemma SweepsFirst(b: Backend, s: Scene, g: Leg, tx: Tx, amount: nat, sig: Signature)
    requires Reachable(b, Of(s)) && s.first == AtCreate(g, tx, amount) && s.rows == [] && s.submitted == [] && s.chain == map[]
    ensures var raw := b.codec.serialize(tx, sig);
            var h := b.codec.hash(raw);
            Reachable(b, Of(s.(chain := map[h := true], rows := [SentRow(b.codec, s.to, g, amount, raw, EXECUTED)],
                               submitted := [Submission(0, raw)], first := After(g, Some(h)))))
  {
    var raw := b.codec.serialize(tx, sig);
    var row := NewBcRow(0, Request(0, s.to, AtLock), g, amount);
    Opens(b, s, 0, g, tx, amount);
    assert [] + [row] == [row];
    var toSign := s.(rows := [row], first := AtSign(g, 0, tx));
    SignsAndSubmits(b, toSign, g, tx, amount, sig);
    var waiting := toSign.(rows := [SentRow(b.codec, s.to, g, amount, raw, BROADCASTED)], submitted := [Submission(0, raw)],
                           first := AtWait(g, 0, raw));
    IsConfirmed(b, waiting, g, amount, raw);
  }

  /** A step of the token and ETH kind: where it leads is what the tables and the provider say. */
  lemma Reads(b: Backend, s: Scene, id: RequestId, net: Provider)
    requires Reachable(b, Of(s)) && id <= 1
    ensures PcOf(s, id) == AtToken && AfterToken(b, Of(s).api, Request(0, s.to, AtToken), net).Some? ==>
              Reachable(b, Of(With(s, id, AfterToken(b, Of(s).api, Request(0, s.to, AtToken), net).value)))
    ensures PcOf(s, id).AtEth? && AfterEth(Of(s).api, Request(0, s.to, PcOf(s, id)), net, PcOf(s, id).token).Some? ==>
              Reachable(b, Of(With(s, id, AfterEth(Of(s).api, Request(0, s.to, PcOf(s, id)), net, PcOf(s, id).token).value)))
  {
    var pc := PcOf(s, id);
    if pc == AtToken && AfterToken(b, Of(s).api, Request(0, s.to, AtToken), net).Some? {
      Goes(b, s, id, Sees(net), AfterToken(b, Of(s).api, Request(0, s.to, AtToken), net).value);
    } else if pc.AtEth? && AfterEth(Of(s).api, Request(0, s.to, pc), net, pc.token).Some? {
      Goes(b, s, id, Sees(net), AfterEth(Of(s).api, Request(0, s.to, pc), net, pc.token).value);
    }
  }

  /** The first request records its skip. */
  lemma Skips(b: Backend, s: Scene, why: SkipReason, token: Token)
    requires Reachable(b, Of(s)) && s.first == AtSkip(why, token)
    ensures Reachable(b, Of(s.(rows := s.rows + [SkippedRow(Of(s), Request(0, s.to, s.first), why, token)], first := AtRetire(token))))
  {
    var s' := s.(rows := s.rows + [SkippedRow(Of(s), Request(0, s.to, s.first), why, token)]);
    Moves(s', 0, AtRetire(token));
    Then(b, Of(s), LastWithdrawRuns(0, Sees(Empty())), Of(With(s', 0, AtRetire(token))));
  }

  // ---- The runs ----

  /** The run has reached a retire write beside a row that is still open. */
  ghost predicate RetiresTooEarly(b: Backend, steps: seq<Step>, s: Step, wallet: WalletId) {
    && Admissible(b, Init(), steps) && Retires(b, steps, s, wallet)
    && s.LastWithdrawRuns? && s.id in Run(b, Init(), steps).requests && Run(b, Init(), steps).requests[s.id].pc.AtRetire?
    && !NothingOpen(Run(b, Init(), steps).api.rows, wallet)
  }

  lemma FirstRetires(b: Backend, s: Scene, i: nat) returns (steps: seq<Step>, last: Step)
    requires Reachable(b, Of(s)) && s.first.AtRetire? && s.wallet.status == RETIRING && i < |s.rows| && OpenBc(s.rows[i], 0)
    ensures RetiresTooEarly(b, steps, last, 0) && Run(b, Init(), steps) == Of(s) && last == LastWithdrawRuns(0, Sees(Empty()))
  {
    steps :| Admissible(b, Init(), steps) && Run(b, Init(), steps) == Of(s);
    last := LastWithdrawRuns(0, Sees(Empty()));
    assert Next(b, Of(s), last) == Move(Retired(Of(s), 0), 0, AtRetireShare);
    assert OpenBc(Of(s).api.rows[i], 0);
  }

  /** The skip on a zero balance: no token is configured, and the second request sees a deposit the first did not. */
  lemma ZeroReadRetiresTooEarly(b: Backend, to: string, address: Address, share: SealedShare)
    returns (steps: seq<Step>, s: Step)
    requires Setting(b, to, address) && b.token.None?
    ensures RetiresTooEarly(b, steps, s, 0)
  {
    BothLocked(b, to, address, share);
    var a := b.codec.getAddress(to).value;
    var s0 := Opening(a, address, share, RETIRING, AtToken);
    Reads(b, s0, 0, Empty());
    var s1 := With(s0, 0, AtEth(Unconfigured));
    Reads(b, s1, 1, Funded());
    var s2 := With(s1, 1, AtEth(Unconfigured));
    Reads(b, s2, 0, Empty());
    var s3 := With(s2, 0, AtSkip(ZERO_BALANCE, Unconfigured));
    var p := PrepareFullBalanceTransfer(Funded(), address, a).value;
    Reads(b, s3, 1, Funded());
    var s4 := With(s3, 1, AtCreate(EthLeg(Unconfigured), p.tx, p.valueWei));
    steps, s := OpensBesideASkip(b, s4, ZERO_BALANCE, Unconfigured, p.tx, p.valueWei);
  }

  /** The second request opens its ETH row, the first records its skip, and retires. */
  lemma OpensBesideASkip(b: Backend, s0: Scene, why: SkipReason, token: Token, tx: Tx, amount: nat)
    returns (steps: seq<Step>, last: Step)
    requires Reachable(b, Of(s0)) && s0.wallet.status == RETIRING
    requires s0.first == AtSkip(why, token) && s0.second == AtCreate(EthLeg(token), tx, amount)
    requires forall i :: 0 <= i < |s0.rows| ==> !OpenBc(s0.rows[i], 0) && !OpenAb(s0.rows[i], 0)
    requires FindLatestEmergencyBc(s0.rows, 0, ETH).None?
    ensures RetiresTooEarly(b, steps, last, 0) && s0.rows <= Run(b, Init(), steps).api.rows
  {
    var row := NewBcRow(0, Request(0, s0.to, AtLock), EthLeg(token), amount);
    Opens(b, s0, 1, EthLeg(token), tx, amount);
    var s1 := With(s0.(rows := s0.rows + [row]), 1, AtSign(EthLeg(token), |s0.rows|, tx));
    Skips(b, s1, why, token);
    var skip := SkippedRow(Of(s1), Request(0, s0.to, s0.first), why, token);
    var s2 := s1.(rows := s1.rows + [skip], first := AtRetire(token));
    assert s2.rows[|s0.rows|] == row && OpenBc(row, 0);
    steps, last := FirstRetires(b, s2, |s0.rows|);
  }

  function TokenTransfer(b: Backend, address: Address, to: Address): Result<Prepared, PrepareError>
    requires b.token.Some?
  {
    PrepareErc20FullBalanceTransfer(b.codec, Funded(), address, to, b.token.value)
  }

  /** What is left once the first request has swept its leg of this amount. */
  function Finished(b: Backend, s: Scene, g: Leg, tx: Tx, amount: nat, sig: Signature): Scene {
    var raw := b.codec.serialize(tx, sig);
    s.(chain := map[b.codec.hash(raw) := true], rows := [SentRow(b.codec, s.to, g, amount, raw, EXECUTED)],
       submitted := [Submission(0, raw)], first := After(g, Some(b.codec.hash(raw))))
  }

  /**
   * The token step that reads none: the first request saw no tokens and sweeps the ETH to the end, while the second
   * sees tokens that came in meanwhile and opens a row for them.
   */
  lemma NoTokensRetiresTooEarly(b: Backend, to: string, address: Address, share: SealedShare, sig: Signature)
    returns (steps: seq<Step>, s: Step)
    requires BackendOk(b) && Setting(b, to, address) && b.token.Some?
    ensures RetiresTooEarly(b, steps, s, 0) && EtherSent(Run(b, Init(), steps).api.rows, 0)
  {
    BothLocked(b, to, address, share);
    var a := b.codec.getAddress(to).value;
    var s0 := Opening(a, address, share, RETIRING, AtToken);
    Reads(b, s0, 0, Empty());
    var s1 := With(s0, 0, AtEth(NoTokens));
    var t := TokenTransfer(b, address, a).value;
    Reads(b, s1, 1, Funded());
    steps, s := TokensBesideASweep(b, With(s1, 1, AtCreate(TokenLeg, t.tx, 7)), t.tx, 7, sig);
  }

  /** The first request sweeps the ETH to the end. */
  lemma TokensBesideASweep(b: Backend, s0: Scene, tx: Tx, amount: nat, sig: Signature) returns (steps: seq<Step>, last: Step)
    requires Reachable(b, Of(s0)) && s0.wallet.status == RETIRING && s0.wallet.address != s0.to
    requires s0.rows == [] && s0.submitted == [] && s0.chain == map[]
    requires s0.first == AtEth(NoTokens) && s0.second == AtCreate(TokenLeg, tx, amount)
    ensures RetiresTooEarly(b, steps, last, 0) && EtherSent(Run(b, Init(), steps).api.rows, 0)
  {
    var g, p := EthLeg(NoTokens), PrepareFullBalanceTransfer(Funded(), s0.wallet.address, s0.to).value;
    Reads(b, s0, 0, Funded());
    var s1 := With(s0, 0, AtCreate(g, p.tx, p.valueWei));
    SweepsFirst(b, s1, g, p.tx, p.valueWei, sig);
    steps, last := OpensBesideASweep(b, Finished(b, s1, g, p.tx, p.valueWei, sig), tx, amount);
  }

  /** The second request opens its token row, and the first retires. */
  lemma OpensBesideASweep(b: Backend, s0: Scene, tx: Tx, amount: nat) returns (steps: seq<Step>, last: Step)
    requires Reachable(b, Of(s0)) && s0.wallet.status == RETIRING && s0.first.AtRetire? && s0.second == AtCreate(TokenLeg, tx, amount)
    requires |s0.rows| == 1 && SweptAt(s0.rows, 0, 0, ETH) && s0.rows[0].metadata.skipped.None?
    ensures RetiresTooEarly(b, steps, last, 0) && EtherSent(Run(b, Init(), steps).api.rows, 0)
  {
    Opens(b, s0, 1, TokenLeg, tx, amount);
    var row := NewBcRow(0, Request(0, s0.to, AtLock), TokenLeg, amount);
    var s1 := With(s0.(rows := s0.rows + [row]), 1, AtSign(TokenLeg, 1, tx));
    assert OpenBc(s1.rows[1], 0) && SweptAt(s1.rows, 0, 0, ETH);
    steps, last := FirstRetires(b, s1, 1);
  }

  /** The skip on dust: the tokens are swept, the first request then sees dust and the second a deposit. */
  lemma DustReadRetiresTooEarly(b: Backend, to: string, address: Address, share: SealedShare, sig: Signature)
    returns (steps: seq<Step>, s: Step)
    requires BackendOk(b) && Setting(b, to, address) && b.token.Some?
    ensures RetiresTooEarly(b, steps, s, 0) && exists i: nat :: SweptAt(Run(b, Init(), steps).api.rows, i, 0, ERC20)
  {
    BothLocked(b, to, address, share);
    var a := b.codec.getAddress(to).value;
    var s0 := Opening(a, address, share, RETIRING, AtToken);
    var t := TokenTransfer(b, address, a).value;
    Reads(b, s0, 0, Funded());
    var s1 := With(s0, 0, AtCreate(TokenLeg, t.tx, 7));
    SweepsFirst(b, s1, TokenLeg, t.tx, 7, sig);
    steps, s := DustBesideASweep(b, Finished(b, s1, TokenLeg, t.tx, 7, sig));
  }

  lemma DustIsSkipped(a: Api, r: Request, token: Token)
    requires FindLatestEmergencyBc(a.rows, r.wallet, ETH).None? && TokenHash(token).Some?
    requires r.wallet in a.wallets && a.wallets[r.wallet].address != r.to
    ensures AfterEth(a, r, Dust(), token) == Some(AtSkip(ETH_DUST, token))
    ensures PrepareFullBalanceTransfer(Funded(), a.wallets[r.wallet].address, r.to).Ok?
    ensures var p := PrepareFullBalanceTransfer(Funded(), a.wallets[r.wallet].address, r.to).value;
            AfterEth(a, r, Funded(), token) == Some(AtCreate(EthLeg(token), p.tx, p.valueWei))
  {
  }

  /** One request reads dust, the other a deposit. */
  lemma DustBesideASweep(b: Backend, s0: Scene) returns (steps: seq<Step>, last: Step)
    requires Reachable(b, Of(s0)) && s0.wallet.status == RETIRING && s0.wallet.address != s0.to && b.token.Some?
    requires |s0.rows| == 1 && SweptAt(s0.rows, 0, 0, ERC20) && s0.rows[0].txHash.Some?
    requires s0.first == AtEth(Swept(s0.rows[0].txHash)) && s0.second == AtToken
    ensures RetiresTooEarly(b, steps, last, 0) && exists i: nat :: SweptAt(Run(b, Init(), steps).api.rows, i, 0, ERC20)
  {
    var token := Swept(s0.rows[0].txHash);
    Reads(b, s0, 1, Funded());
    var s1 := With(s0, 1, AtEth(token));
    DustIsSkipped(Of(s1).api, Request(0, s0.to, AtEth(token)), token);
    Reads(b, s1, 0, Dust());
    steps, last := DepositBesideDust(b, With(s1, 0, AtSkip(ETH_DUST, token)), token);
  }

  lemma DepositBesideDust(b: Backend, s0: Scene, token: Token) returns (steps: seq<Step>, last: Step)
    requires Reachable(b, Of(s0)) && s0.wallet.status == RETIRING && s0.wallet.address != s0.to && TokenHash(token).Some?
    requires |s0.rows| == 1 && SweptAt(s0.rows, 0, 0, ERC20)
    requires s0.first == AtSkip(ETH_DUST, token) && s0.second == AtEth(token)
    ensures RetiresTooEarly(b, steps, last, 0) && exists i: nat :: SweptAt(Run(b, Init(), steps).api.rows, i, 0, ERC20)
  {
    DustIsSkipped(Of(s0).api, Request(0, s0.to, AtEth(token)), token);
    var p := PrepareFullBalanceTransfer(Funded(), s0.wallet.address, s0.to).value;
    Reads(b, s0, 1, Funded());
    var s1 := With(s0, 1, AtCreate(EthLeg(token), p.tx, p.valueWei));
    steps, last := OpensBesideASkip(b, s1, ETH_DUST, token, p.tx, p.valueWei);
    assert SweptAt(Run(b, Init(), steps).api.rows, 0, 0, ERC20);
  }
}
