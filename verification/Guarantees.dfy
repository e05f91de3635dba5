/** What the invariant means for money: the guarantees of the wallet in every reachable state and over every run. */
module Guarantees {
  import opened Types
  import opened Text
  import opened Routing
  import opened EthTransfer
  import opened Withdraws
  import opened Wysiwys
  import opened AbSigning
  import opened AbInvariant
  import opened Idempotency
  import opened LastWithdraw
  import opened BcInvariant
  import opened LastWithdrawSteps
  import opened Shares
  import opened System
  import opened History

  /** A state some admissible run from the empty system leads to. */
  ghost predicate Reachable(b: Backend, w: World) {
    exists steps :: Admissible(b, Init(), steps) && Run(b, Init(), steps) == w
  }

  lemma ReachableIsSafe(b: Backend, w: World)
    requires BackendOk(b) && Reachable(b, w)
    ensures Safe(b, w)
  {
    var steps :| Admissible(b, Init(), steps) && Run(b, Init(), steps) == w;
    InitIsSafe(b);
    EveryRunIsSafe(b, Init(), steps);
  }

  // ---- The two withdrawal paths ----

  /** The A+B path is open only on ACTIVE wallets and the emergency path only on wallets that left it for good. */
  lemma PathsNeverMeet(b: Backend, w: World, wallet: WalletId, i: nat, j: nat)
    requires BackendOk(b) && Reachable(b, w) && i < |w.api.rows| && j < |w.api.rows| && wallet in w.api.wallets
    ensures OpenAb(w.api.rows[i], wallet) ==> w.api.wallets[wallet].status == ACTIVE
    ensures w.api.rows[j].wallet == wallet && w.api.rows[j].metadata.EmergencyBc? ==>
              w.api.wallets[wallet].status in {RETIRING, RETIRED}
    ensures !(OpenAb(w.api.rows[i], wallet) && w.api.rows[j].wallet == wallet && w.api.rows[j].metadata.EmergencyBc?)
  {
    ReachableIsSafe(b, w);
    assert OpenOk(w.api.wallets, w.api.rows) && WalletsOk(w.api.wallets, w.api.rows);
    assert w.api.rows[j].metadata.EmergencyBc? ==> IsBc(w.api.rows, j);
  }

  /** A wallet never has two open A+B withdrawals, so settling the first one found settles all. */
  lemma OneOpenAbWithdraw(b: Backend, w: World, wallet: WalletId, i: nat, j: nat)
    requires BackendOk(b) && Reachable(b, w) && i < |w.api.rows| && j < |w.api.rows|
    requires OpenAb(w.api.rows[i], wallet) && OpenAb(w.api.rows[j], wallet)
    ensures i == j && FindOpenNormalAb(w.api.rows, wallet) == Some(i)
  {
    ReachableIsSafe(b, w);
    assert OpenOk(w.api.wallets, w.api.rows);
    var found := FindOpenNormalAb(w.api.rows, wallet).value;
    assert OpenAb(w.api.rows[found], wallet);
  }

  /** Every session in memory points to a PROCESSING row of its wallet and user that carries the session's id. */
  lemma SessionsMatchTheTable(b: Backend, w: World, id: SessionId)
    requires BackendOk(b) && Reachable(b, w) && id in w.api.sessions
    ensures var s := w.api.sessions[id];
            && s.row < |w.api.rows| && s.wallet in w.api.wallets
            && var r := w.api.rows[s.row];
               && r.metadata.NormalAb? && r.metadata.session == id && r.status == PROCESSING
               && r.wallet == s.wallet && w.api.wallets[s.wallet].user == s.user && r.metadata.digest == s.digest
  {
    ReachableIsSafe(b, w);
    assert SessionOk(w.api.wallets, w.api.rows, id, w.api.sessions[id], w.now);
  }

  // ---- Emergency rows ----

  /** At most one emergency row of a wallet is open, whichever asset: an ETH row never opens beside a token row. */
  lemma OneOpenEmergencyRow(b: Backend, w: World, wallet: WalletId, i: nat, j: nat)
    requires BackendOk(b) && Reachable(b, w) && i < |w.api.rows| && j < |w.api.rows|
    requires OpenBc(w.api.rows[i], wallet) && OpenBc(w.api.rows[j], wallet)
    ensures i == j
  {
    ReachableIsSafe(b, w);
    assert BcRowsOk(b.codec, w.api.rows, w.chain);
    OpenRowsCoincide(b.codec, w.api.rows, w.chain, wallet, i, j);
  }

  lemma OpenRowsCoincide(c: Codec, rows: seq<Row>, chain: map<TxHash, bool>, wallet: WalletId, i: nat, j: nat)
    requires BcRowsOk(c, rows, chain) && i < |rows| && j < |rows| && OpenBc(rows[i], wallet) && OpenBc(rows[j], wallet)
    ensures i == j
  {
  }

  /**
   * No emergency double send. If two different raws were submitted for one wallet and asset, they belong to two
   * rows and the raw of the earlier row was mined as a failure, so no two of them can ever both succeed.
   */
  lemma NoEmergencyDoubleSend(b: Backend, w: World, k: nat, m: nat)
    requires BackendOk(b) && Reachable(b, w) && k < |w.submitted| && m < |w.submitted|
    requires var x, y := w.submitted[k], w.submitted[m];
             && x.raw != y.raw && x.row < |w.api.rows| && y.row < |w.api.rows|
             && w.api.rows[x.row].wallet == w.api.rows[y.row].wallet
             && w.api.rows[x.row].metadata.EmergencyBc? && w.api.rows[y.row].metadata.EmergencyBc?
             && w.api.rows[x.row].metadata.asset == w.api.rows[y.row].metadata.asset
    ensures var x, y := w.submitted[k], w.submitted[m];
            && x.row != y.row
            && MinedAs(b.codec, w.chain, (if x.row < y.row then x else y).raw, false)
            && !(MinedAs(b.codec, w.chain, x.raw, true) && MinedAs(b.codec, w.chain, y.raw, true))
  {
    ReachableIsSafe(b, w);
    var x, y := w.submitted[k], w.submitted[m];
    assert Stored(b.codec, w.api.rows, x.row, x.raw) && Stored(b.codec, w.api.rows, y.row, y.raw);
    if x.row < y.row {
      EarlierFailed(b.codec, w.api.rows, w.chain, x.row, y.row, x.raw, y.raw);
    } else {
      EarlierFailed(b.codec, w.api.rows, w.chain, y.row, x.row, y.raw, x.raw);
    }
  }

  lemma EarlierFailed(c: Codec, rows: seq<Row>, chain: map<TxHash, bool>, i: nat, j: nat, first: Raw, second: Raw)
    requires BcRowsOk(c, rows, chain) && i < j < |rows| && Stored(c, rows, i, first) && Stored(c, rows, j, second)
    requires rows[i].wallet == rows[j].wallet && rows[i].metadata.asset == rows[j].metadata.asset
    ensures MinedAs(c, chain, first, false)
  {
  }

  /** Write-ahead: what a step submits was already stored, with its hash, in a row at BROADCASTED or later. */
  lemma StoredBeforeSubmitted(b: Backend, w: World, s: Step)
    requires BackendOk(b) && Reachable(b, w) && Enabled(b, w, s)
    ensures var w' := Next(b, w, s);
            w.submitted <= w'.submitted
            && forall k :: |w.submitted| <= k < |w'.submitted| ==>
                             Stored(b.codec, w.api.rows, w'.submitted[k].row, w'.submitted[k].raw)
  {
    ReachableIsSafe(b, w);
    StepLater(b, w, s);
    if s.LastWithdrawRuns? && s.id in w.requests {
      assert RequestOk(b.codec, w, w.requests[s.id]);
      SubmitsStored(b, w, s.id, s.input);
    } else {
      NothingSubmitted(b, w, s);
    }
  }

  lemma SubmitsStored(b: Backend, w: World, id: RequestId, x: Input)
    requires id in w.requests && RequestOk(b.codec, w, w.requests[id])
    ensures var w' := Advance(b, w, id, x);
            forall k :: |w.submitted| <= k < |w'.submitted| ==>
                          Stored(b.codec, w.api.rows, w'.submitted[k].row, w'.submitted[k].raw)
  {
  }

  lemma NothingSubmitted(b: Backend, w: World, s: Step)
    requires s.LastWithdrawRuns? ==> s.id !in w.requests
    ensures Next(b, w, s).submitted == w.submitted
  {
    if s.LastWithdrawArrives? {
      var _ := ArriveShape(b, w, s.id, s.user, s.wallet, s.to, s.otp, s.net);
    }
  }

  /**
   * A row is signed at most once: the raw it carries is the raw it carries in every later state, so whatever is
   * submitted for the row, then or later, is that same raw.
   */
  lemma RetriesResubmitTheSameRaw(b: Backend, w: World, steps: seq<Step>, i: nat, k: nat)
    requires BackendOk(b) && Reachable(b, w) && Admissible(b, w, steps) && IsBc(w.api.rows, i)
    requires w.api.rows[i].metadata.signedRaw.Some?
    requires k < |Run(b, w, steps).submitted| && Run(b, w, steps).submitted[k].row == i
    ensures var w' := Run(b, w, steps);
            && i < |w'.api.rows| && w'.api.rows[i].metadata == w.api.rows[i].metadata
            && Some(w'.submitted[k].raw) == w.api.rows[i].metadata.signedRaw
  {
    ReachableIsSafe(b, w);
    RunLater(b, w, steps);
    EveryRunIsSafe(b, w, steps);
    var w' := Run(b, w, steps);
    assert RowLater(w.api.rows[i], w'.api.rows[i]);
    assert Stored(b.codec, w'.api.rows, w'.submitted[k].row, w'.submitted[k].raw);
  }

  // ---- Retirement and Share C ----

  /** RETIRED exactly when Share B is gone, and then for good: the row never changes again. */
  lemma RetiredIsAbsorbing(b: Backend, w: World, steps: seq<Step>, wallet: WalletId)
    requires BackendOk(b) && Reachable(b, w) && Admissible(b, w, steps) && wallet in w.api.wallets
    ensures w.api.wallets[wallet].status == RETIRED <==> w.api.wallets[wallet].shareB.None?
    ensures w.api.wallets[wallet].status == RETIRED ==>
              wallet in Run(b, w, steps).api.wallets && Run(b, w, steps).api.wallets[wallet] == w.api.wallets[wallet]
  {
    ReachableIsSafe(b, w);
    RunLater(b, w, steps);
    assert WalletsOk(w.api.wallets, w.api.rows);
  }

  /** Every wallet has its Share C, and a live wallet always has one that Recovery can load. */
  lemma LiveWalletHasShareC(b: Backend, w: World, wallet: WalletId)
    requires BackendOk(b) && Reachable(b, w) && wallet in w.api.wallets
    ensures wallet in w.shares && Lower(w.shares[wallet].publicKey) == Lower(w.api.wallets[wallet].publicKey)
    ensures w.shares[wallet].status == SHARE_RETIRED ==> w.api.wallets[wallet].status == RETIRED
    ensures w.api.wallets[wallet].status != RETIRED ==> LoadActive(w.shares, wallet).Ok?
  {
    ReachableIsSafe(b, w);
    assert SharesOk(w);
  }

  // ---- Idempotency over runs ----

  /** Rows keep their index, key and request, and the hash of a row's only broadcast stays its hash. */
  lemma HashIsForever(b: Backend, w: World, steps: seq<Step>, i: nat, h: TxHash)
    requires BackendOk(b) && Reachable(b, w) && Admissible(b, w, steps) && IsAb(w.api.rows, i)
    requires TheHashOf(b.codec, w.api.sent, i, h)
    ensures var w' := Run(b, w, steps);
            IsAb(w'.api.rows, i) && w'.api.rows[i].key == w.api.rows[i].key && TheHashOf(b.codec, w'.api.sent, i, h)
  {
    ReachableIsSafe(b, w);
    RunLater(b, w, steps);
    EveryRunIsSafe(b, w, steps);
    HashStays(b, w.api, Run(b, w, steps).api, i, h);
  }

  lemma HashStays(b: Backend, a: Api, a': Api, i: nat, h: TxHash)
    requires RowsLater(a.rows, a'.rows) && a.sent <= a'.sent && SendsOk(b, a'.rows, a'.sessions, a'.sent)
    requires IsAb(a.rows, i) && TheHashOf(b.codec, a.sent, i, h)
    ensures IsAb(a'.rows, i) && a'.rows[i].key == a.rows[i].key && TheHashOf(b.codec, a'.sent, i, h)
  {
    assert RowLater(a.rows[i], a'.rows[i]);
    var k :| 0 <= k < |a.sent| && a.sent[k].row == i && b.codec.hash(a.sent[k].raw) == h;
    assert a'.sent[k] == a.sent[k];
  }

  /**
   * A key is answered with one hash. Once row `i` of the key was broadcast with hash `h`, every later start that
   * answers with a hash for that key, after any run and with any body, answers `h`.
   */
  lemma LaterStartRepeatsTheHash(
    b: Backend, w: World, steps: seq<Step>, i: nat, h: TxHash, l: Ledger, lost: set<SessionId>, q: StartCall)
    requires BackendOk(b) && Reachable(b, w) && Admissible(b, w, steps) && IsAb(w.api.rows, i)
    requires TheHashOf(b.codec, w.api.sent, i, h) && w.api.rows[i].key == Some(Key(q.wallet, Trim(q.key)))
    requires var w' := Run(b, w, steps);
             FreshSession(w'.api, q.session) && Start(b, w'.api, w'.now, l, lost, q).1.AlreadyBroadcast?
    ensures var w' := Run(b, w, steps); Start(b, w'.api, w'.now, l, lost, q).1.txHash == Some(h)
  {
    var w' := Run(b, w, steps);
    HashIsForever(b, w, steps, i, h);
    ReachableIsSafe(b, w);
    EveryRunIsSafe(b, w, steps);
    StartRepeatsTheHash(b, w'.api, w'.now, i, h, l, lost, q);
  }

  lemma StartRepeatsTheHash(b: Backend, a: Api, now: nat, i: nat, h: TxHash, l: Ledger, lost: set<SessionId>, q: StartCall)
    requires ApiOk(b, a, now) && BackendOk(b) && FreshSession(a, q.session) && IsAb(a.rows, i)
    requires TheHashOf(b.codec, a.sent, i, h) && a.rows[i].key == Some(Key(q.wallet, Trim(q.key)))
    requires Start(b, a, now, l, lost, q).1.AlreadyBroadcast?
    ensures Start(b, a, now, l, lost, q).1.txHash == Some(h)
  {
    var (a', r) := Start(b, a, now, l, lost, q);
    StartKeepsOk(b, a, now, l, lost, q);
    StartAnswersForTheKey(b, a, now, l, lost, q);
    assert RowEvolves(a.rows[i], a'.rows[i]);
    KeyHasOneRow(b, a', now, i, r.terminal);
    OneHash(b.codec, a.sent, a'.sent, i, h, r.txHash.value);
  }

  lemma OneHash(c: Codec, sent: seq<Sent>, sent': seq<Sent>, i: nat, h: TxHash, h': TxHash)
    requires TheHashOf(c, sent, i, h) && TheHashOf(c, sent', i, h') && |sent| <= |sent'| && sent'[..|sent|] == sent
    ensures h == h'
  {
  }

  /** A start that asks for another recipient, amount or asset than the key's row is refused, whatever its state. */
  lemma DifferentBodyIsRefused(b: Backend, w: World, l: Ledger, lost: set<SessionId>, q: StartCall, i: nat)
    requires BackendOk(b) && Reachable(b, w) && FreshSession(w.api, q.session)
    requires i < |w.api.rows| && w.api.rows[i].key == Some(Key(q.wallet, Trim(q.key))) && !Asks(b, q, w.api.rows[i])
    ensures Start(b, w.api, w.now, l, lost, q).1.StartRefused?
  {
    ReachableIsSafe(b, w);
    DifferentBodyGetsNothing(b, w.api, w.now, l, lost, q, i);
  }

  lemma DifferentBodyGetsNothing(b: Backend, a: Api, now: nat, l: Ledger, lost: set<SessionId>, q: StartCall, i: nat)
    requires ApiOk(b, a, now) && BackendOk(b) && FreshSession(a, q.session)
    requires i < |a.rows| && a.rows[i].key == Some(Key(q.wallet, Trim(q.key))) && !Asks(b, q, a.rows[i])
    ensures Start(b, a, now, l, lost, q).1.StartRefused?
  {
    StartKeepsOk(b, a, now, l, lost, q);
    StartAnswersForTheKey(b, a, now, l, lost, q);
    var (a', r) := Start(b, a, now, l, lost, q);
    assert RowEvolves(a.rows[i], a'.rows[i]);
    if r.Signing? {
      KeyHasOneRow(b, a', now, i, r.row);
    } else if r.AlreadyBroadcast? {
      KeyHasOneRow(b, a', now, i, r.terminal);
    }
  }

  /** The same for every later complete that answers with a hash for that row. */
  lemma LaterCompleteRepeatsTheHash(
    b: Backend, w: World, steps: seq<Step>, i: nat, h: TxHash, l: Ledger, lost: set<SessionId>, user: UserId,
    id: SessionId, msgs: seq<Message>, o: Outcome)
    requires BackendOk(b) && Reachable(b, w) && Admissible(b, w, steps) && IsAb(w.api.rows, i)
    requires TheHashOf(b.codec, w.api.sent, i, h)
    requires var w' := Run(b, w, steps);
             var r := Complete(b, w'.api, w'.now, l, lost, user, id, msgs, o).1;
             r.Withdrawn? && r.row == i
    ensures var w' := Run(b, w, steps); Complete(b, w'.api, w'.now, l, lost, user, id, msgs, o).1.txHash == Some(h)
  {
    var w' := Run(b, w, steps);
    HashIsForever(b, w, steps, i, h);
    ReachableIsSafe(b, w);
    EveryRunIsSafe(b, w, steps);
    CompleteReturnsTheHash(b, w'.api, w'.now, l, lost, user, id, msgs, o);
    CompleteKeepsOk(b, w'.api, w'.now, l, lost, user, id, msgs, o);
    var (a, r) := Complete(b, w'.api, w'.now, l, lost, user, id, msgs, o);
    OneHash(b.codec, w'.api.sent, a.sent, i, h, r.txHash.value);
  }

  /** In every reachable state a key has one row, and that row was broadcast at most once. */
  lemma KeyIsBroadcastAtMostOnce(b: Backend, w: World, k: nat, m: nat)
    requires BackendOk(b) && Reachable(b, w) && k < |w.api.sent| && m < |w.api.sent|
    requires w.api.sent[k].row < |w.api.rows| && w.api.sent[m].row < |w.api.rows|
    requires w.api.rows[w.api.sent[k].row].key == w.api.rows[w.api.sent[m].row].key
    ensures k == m
  {
    ReachableIsSafe(b, w);
    assert SentOk(b, w.api.rows, w.api.sent[k]) && SentOk(b, w.api.rows, w.api.sent[m]);
    KeyHasOneRow(b, w.api, w.now, w.api.sent[k].row, w.api.sent[m].row);
  }

  // ---- Intent over runs ----

  lemma {:induction false} RunJoins(b: Backend, w: World, first: seq<Step>, rest: seq<Step>)
    requires Admissible(b, w, first) && Admissible(b, Run(b, w, first), rest)
    ensures Admissible(b, w, first + rest) && Run(b, w, first + rest) == Run(b, Run(b, w, first), rest)
    decreases |first|
  {
    if first == [] {
      assert first + rest == rest;
    } else {
      assert (first + rest)[1..] == first[1..] + rest;
      RunJoins(b, Next(b, w, first[0]), first[1..], rest);
    }
  }

  lemma RunReached(b: Backend, w: World, steps: seq<Step>)
    requires Reachable(b, w) && Admissible(b, w, steps)
    ensures Reachable(b, Run(b, w, steps))
  {
    var before :| Admissible(b, Init(), before) && Run(b, Init(), before) == w;
    RunJoins(b, Init(), before, steps);
  }

  lemma StartReached(b: Backend, w: World, l: Ledger, lost: set<SessionId>, q: StartCall)
    requires Reachable(b, w) && FreshSession(w.api, q.session) && l.mined == w.chain
    ensures Reachable(b, w.(api := Start(b, w.api, w.now, l, lost, q).0))
  {
    var step := Ab(SignStart(l.down, lost, q));
    assert Ledger(w.chain, l.down) == l;
    assert [step][1..] == [];
    assert Run(b, w, [step]) == Next(b, w, step) == w.(api := Start(b, w.api, w.now, l, lost, q).0);
    RunReached(b, w, [step]);
  }

  /**
   * Once a start has answered with a session, whatever is broadcast for its row, in any later state, carries the
   * digest of that answer, which is the one an accepting browser signs, and is exactly the transfer asked for.
   */
  lemma WhatIsBroadcastWasAskedFor(
    b: Backend, w: World, l: Ledger, lost: set<SessionId>, q: StartCall, steps: seq<Step>, k: nat)
    requires BackendOk(b) && Reachable(b, w) && FreshSession(w.api, q.session) && l.mined == w.chain
    requires Start(b, w.api, w.now, l, lost, q).1.Signing?
    requires var w1 := w.(api := Start(b, w.api, w.now, l, lost, q).0);
             && Admissible(b, w1, steps)
             && k < |Run(b, w1, steps).api.sent|
             && Run(b, w1, steps).api.sent[k].row == Start(b, w.api, w.now, l, lost, q).1.row
    ensures var (a, r) := Start(b, w.api, w.now, l, lost, q);
            var tx := Run(b, w.(api := a), steps).api.sent[k].tx;
            b.codec.digest(tx) == r.digest && IsWhatIsAsked(b, q, tx)
  {
    var (a, r) := Start(b, w.api, w.now, l, lost, q);
    var w1 := w.(api := a);
    var w2 := Run(b, w1, steps);
    StartReached(b, w, l, lost, q);
    ReachableIsSafe(b, w);
    StartAnswersForTheKey(b, w.api, w.now, l, lost, q);
    ReachableIsSafe(b, w1);
    RunLater(b, w1, steps);
    EveryRunIsSafe(b, w1, steps);
    StillAsked(b, w1.api.rows, w2.api.rows, r.row, q);
    BroadcastIsTheUsersTransfer(b, w2.api, w2.now, k, q);
  }

  lemma StillAsked(b: Backend, rows: seq<Row>, rows': seq<Row>, i: nat, q: StartCall)
    requires RowsLater(rows, rows') && i < |rows| && Asks(b, q, rows[i])
    ensures Asks(b, q, rows'[i]) && rows'[i].metadata.digest == rows[i].metadata.digest
  {
    assert RowLater(rows[i], rows'[i]);
  }

  /** Any start that answers with a session answers with what the caller's own browser accepts, given the same token. */
  lemma EveryAnswerPassesTheBrowser(
    b: Backend, w: World, l: Ledger, lost: set<SessionId>, q: StartCall, asset: Asset, token: Option<string>)
    requires BackendOk(b) && Reachable(b, w) && FreshSession(w.api, q.session)
    requires Start(b, w.api, w.now, l, lost, q).1.Signing? && TypedAsset(q.asset, asset)
    requires asset.ERC20? ==> token.Some? && token.value != "" && b.codec.getAddress(token.value) == b.token
    ensures var r := Start(b, w.api, w.now, l, lost, q).1;
            AssertWysiwysDigest(b.codec, BrowserCheck(q, r, asset, token)) == Ok(r.digest)
  {
    ReachableIsSafe(b, w);
    HonestStartPassesTheBrowser(b, w.api, w.now, l, lost, q, asset, token);
  }
}
