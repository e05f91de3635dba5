/** What the caller of the A+B handlers may rely on: replies, hashes and the user's intent. */
module Idempotency {
  import opened Types
  import opened Text
  import opened SignReference
  import opened Responder
  import opened Routing
  import opened EthTransfer
  import opened Withdraws
  import opened Wysiwys
  import opened AbSigning
  import opened AbInvariant

  /** Row `i` was broadcast, once, and `h` is the hash of that broadcast. */
  ghost predicate TheHashOf(c: Codec, sent: seq<Sent>, i: nat, h: TxHash) {
    && HashSent(c, sent, i, h)
    && forall k :: 0 <= k < |sent| && sent[k].row == i ==> c.hash(sent[k].raw) == h
  }

  lemma StoredHashIsTheHash(b: Backend, a: Api, now: nat, i: nat)
    requires ApiOk(b, a, now) && IsAb(a.rows, i) && IsTerminal(a.rows[i].status)
    ensures a.rows[i].txHash.Some? && TheHashOf(b.codec, a.sent, i, a.rows[i].txHash.value)
  {
  }

  /** The row a key has, if any: there is never a second one. */
  lemma KeyHasOneRow(b: Backend, a: Api, now: nat, i: nat, j: nat)
    requires ApiOk(b, a, now) && i < |a.rows| && j < |a.rows|
    requires a.rows[i].key.Some? && a.rows[i].key == a.rows[j].key
    ensures i == j
  {
  }

  /** The request asks for what the row says. */
  predicate Asks(b: Backend, q: StartCall, r: Row) {
    && r.metadata.NormalAb?
    && r.key == Some(Key(q.wallet, Trim(q.key)))
    && b.codec.getAddress(q.to) == Some(r.to)
    && TypedAmount(b.codec, q.amount, r.amount)
    && TypedAsset(q.asset, r.metadata.asset)
  }

  /** The answer to a key that already has a row, read off the handler. */
  lemma ReuseShape(b: Backend, g: Api, q: StartCall, i: nat)
    requires i < |g.rows| && g.rows[i].key == Some(Key(q.wallet, Trim(q.key)))
    requires b.codec.getAddress(q.to).Some? && ParseWithdrawAmountToWei(b.codec, q.amount).Some? && ParseWithdrawAsset(q.asset).Some?
    ensures var (a, r) := Reuse(g, q.user, q.wallet, i, b.codec.getAddress(q.to).value,
                                ParseWithdrawAmountToWei(b.codec, q.amount).value, ParseWithdrawAsset(q.asset).value);
            && a.rows == g.rows && a.sent == g.sent
            && (r.AlreadyBroadcast? ==>
                  r.terminal == i && Asks(b, q, g.rows[i]) && IsTerminal(g.rows[i].status)
                  && r.status == g.rows[i].status && r.txHash == g.rows[i].txHash)
            && (r.Signing? ==>
                  && a == g && r.reused && r.row == i && Asks(b, q, g.rows[i]) && g.rows[i].status == PROCESSING
                  && r.session == g.rows[i].metadata.session && r.session in g.sessions && g.sessions[r.session].user == q.user
                  && r.digest == g.sessions[r.session].digest && r.amount == g.rows[i].amount && r.to == g.rows[i].to
                  && r.tx == g.sessions[r.session].tx && r.msg1 == g.sessions[r.session].party.msg1)
  {
    AmountIsTyped(b.codec, q.amount);
    AssetIsTyped(q.asset);
  }

  /** Whether the answer came from an existing row or a new one. */
  lemma StartShape(b: Backend, a0: Api, now: nat, l: Ledger, lost: set<SessionId>, q: StartCall)
    requires !Start(b, a0, now, l, lost, q).1.StartRefused?
    ensures var g := Gc(a0, now, lost);
            && b.codec.getAddress(q.to).Some? && ParseWithdrawAmountToWei(b.codec, q.amount).Some? && ParseWithdrawAsset(q.asset).Some?
            && q.wallet in g.wallets
            && var to, amount, asset :=
                 b.codec.getAddress(q.to).value, ParseWithdrawAmountToWei(b.codec, q.amount).value, ParseWithdrawAsset(q.asset).value;
               match FindByKey(g.rows, Key(q.wallet, Trim(q.key)))
               case Some(i) => Start(b, a0, now, l, lost, q) == Reuse(g, q.user, q.wallet, i, to, amount, asset)
               case None => exists p: Prepared :: Start(b, a0, now, l, lost, q) == Create(b, g, now, l, q, to, amount, asset, p)
  {
  }

  /**
   * start either refuses, or answers about the one row of the caller's key, and only when that row asks for the
   * same recipient, amount and asset: a session only while the row is PROCESSING, a hash only once it was broadcast.
   */
  ghost predicate Answers(b: Backend, a: Api, q: StartCall, r: StartReply) {
    match r
    case StartRefused(_) => true
    case AlreadyBroadcast(i, status, h) =>
      && IsAb(a.rows, i) && Asks(b, q, a.rows[i]) && status == a.rows[i].status
      && h.Some? && TheHashOf(b.codec, a.sent, i, h.value)
    case Signing(id, i, digest, msg1, amount, to, tx, _) =>
      && IsAb(a.rows, i) && Asks(b, q, a.rows[i]) && a.rows[i].status == PROCESSING
      && id in a.sessions && a.sessions[id].row == i && a.sessions[id].user == q.user
      && digest == a.rows[i].metadata.digest && amount == a.rows[i].amount && to == a.rows[i].to
      && tx == a.sessions[id].tx && msg1 == a.sessions[id].party.msg1
  }

  lemma StartAnswersForTheKey(b: Backend, a0: Api, now: nat, l: Ledger, lost: set<SessionId>, q: StartCall)
    requires ApiOk(b, a0, now)
    ensures var (a, r) := Start(b, a0, now, l, lost, q); Answers(b, a, q, r)
  {
    var g := Gc(a0, now, lost);
    GcKeepsOk(b, a0, now, lost);
    var (a, r) := Start(b, a0, now, l, lost, q);
    if !r.StartRefused? {
      StartShape(b, a0, now, l, lost, q);
      var found := FindByKey(g.rows, Key(q.wallet, Trim(q.key)));
      if found.Some? {
        ReuseShape(b, g, q, found.value);
        ReuseAnswers(b, g, now, q, found.value, a, r);
      } else {
        CreatedAnswers(b, g, now, l, q);
      }
    }
  }

  lemma ReuseAnswers(b: Backend, g: Api, now: nat, q: StartCall, i: nat, a: Api, r: StartReply)
    requires ApiOk(b, g, now) && IsAb(g.rows, i) && Asks(b, q, g.rows[i]) && a.rows == g.rows && a.sent == g.sent
    requires r.AlreadyBroadcast? ==>
               r.terminal == i && IsTerminal(g.rows[i].status) && r.status == g.rows[i].status && r.txHash == g.rows[i].txHash
    requires r.Signing? ==>
               && a == g && r.row == i && g.rows[i].status == PROCESSING
               && r.session == g.rows[i].metadata.session && r.session in g.sessions && g.sessions[r.session].user == q.user
               && r.digest == g.sessions[r.session].digest && r.amount == g.rows[i].amount && r.to == g.rows[i].to
               && r.tx == g.sessions[r.session].tx && r.msg1 == g.sessions[r.session].party.msg1
    ensures Answers(b, a, q, r)
  {
    if r.AlreadyBroadcast? {
      StoredHashIsTheHash(b, g, now, i);
    } else if r.Signing? {
      assert SessionOk(g.wallets, g.rows, r.session, g.sessions[r.session], now);
      assert IsAb(g.rows, g.sessions[r.session].row);
    }
  }

  lemma CreatedAnswers(b: Backend, g: Api, now: nat, l: Ledger, q: StartCall)
    requires b.codec.getAddress(q.to).Some? && ParseWithdrawAmountToWei(b.codec, q.amount).Some? && ParseWithdrawAsset(q.asset).Some?
    requires q.wallet in g.wallets
    ensures var to := b.codec.getAddress(q.to).value;
            var amount := ParseWithdrawAmountToWei(b.codec, q.amount).value;
            var asset := ParseWithdrawAsset(q.asset).value;
            forall p: Prepared :: var (a, r) := Create(b, g, now, l, q, to, amount, asset, p); Answers(b, a, q, r)
  {
    AmountIsTyped(b.codec, q.amount);
    AssetIsTyped(q.asset);
  }

  /** The row a hash is returned for, read off the handler. */
  lemma CompleteShape(
    b: Backend, a0: Api, now: nat, l: Ledger, lost: set<SessionId>, user: UserId, id: SessionId, msg4A: seq<Message>, o: Outcome)
    requires Complete(b, a0, now, l, lost, user, id, msg4A, o).1.Withdrawn?
    ensures var g := Gc(a0, now, lost);
            var (a, r) := Complete(b, a0, now, l, lost, user, id, msg4A, o);
            && r.row < |a.rows| && r.status == a.rows[r.row].status && IsTerminal(r.status) && r.txHash == a.rows[r.row].txHash
            && ((id in g.sessions && g.sessions[id].user == user && r.row == g.sessions[id].row)
                || FindTerminalBySession(g, user, id) == Some(r.row))
  {
  }

  /** complete returns a hash only for the caller's session, and it is the hash of its row's only broadcast. */
  lemma CompleteReturnsTheHash(
    b: Backend, a0: Api, now: nat, l: Ledger, lost: set<SessionId>, user: UserId, id: SessionId, msg4A: seq<Message>, o: Outcome)
    requires ApiOk(b, a0, now)
    ensures var (a, r) := Complete(b, a0, now, l, lost, user, id, msg4A, o);
            r.Withdrawn? ==>
              && IsAb(a.rows, r.row) && a.rows[r.row].metadata.session == id
              && a.rows[r.row].wallet in a.wallets && a.wallets[a.rows[r.row].wallet].user == user
              && r.status == a.rows[r.row].status && IsTerminal(r.status)
              && r.txHash.Some? && TheHashOf(b.codec, a.sent, r.row, r.txHash.value)
  {
    CompleteKeepsOk(b, a0, now, l, lost, user, id, msg4A, o);
    GcKeepsOk(b, a0, now, lost);
    var g := Gc(a0, now, lost);
    var (a, r) := Complete(b, a0, now, l, lost, user, id, msg4A, o);
    if r.Withdrawn? {
      CompleteShape(b, a0, now, l, lost, user, id, msg4A, o);
      CompleteFrame(b, a0, now, l, lost, user, id, msg4A, o);
      if id in g.sessions {
        assert SessionOk(g.wallets, g.rows, id, g.sessions[id], now);
      }
      assert RowEvolves(g.rows[r.row], a.rows[r.row]);
      StoredHashIsTheHash(b, a, now, r.row);
    }
  }

  /** The handler proper, after its gc, is an A+B step of its own. */
  lemma CompleteFrame(
    b: Backend, a0: Api, now: nat, l: Ledger, lost: set<SessionId>, user: UserId, id: SessionId, msg4A: seq<Message>, o: Outcome)
    requires ApiOk(b, a0, now)
    ensures AbFrame(Gc(a0, now, lost), Complete(b, a0, now, l, lost, user, id, msg4A, o).0)
  {
    GcKeepsOk(b, a0, now, lost);
    CompleteStepKeepsOk(b, Gc(a0, now, lost), a0, now, l, lost, user, id, msg4A, o);
  }

  // ---- The user's intent, end to end ----

  /** The browser's check on a start answer, with the user's own input and the same token address. */
  function BrowserCheck(q: StartCall, r: StartReply, asset: Asset, token: Option<string>): Check
    requires r.Signing?
  {
    Check(q.to, q.amount, r.digest, ToDecimal(r.amount), r.tx, "0x", asset, token)
  }

  /** An honest start answer always passes the browser's check, whether its session is new or reused. */
  lemma HonestStartPassesTheBrowser(
    b: Backend, a0: Api, now: nat, l: Ledger, lost: set<SessionId>, q: StartCall, asset: Asset, token: Option<string>)
    requires ApiOk(b, a0, now) && BackendOk(b) && FreshSession(a0, q.session)
    requires Start(b, a0, now, l, lost, q).1.Signing? && TypedAsset(q.asset, asset)
    requires asset.ERC20? ==> token.Some? && token.value != "" && b.codec.getAddress(token.value) == b.token
    ensures var r := Start(b, a0, now, l, lost, q).1;
            AssertWysiwysDigest(b.codec, BrowserCheck(q, r, asset, token)) == Ok(r.digest)
  {
    StartAnswersForTheKey(b, a0, now, l, lost, q);
    StartKeepsOk(b, a0, now, l, lost, q);
    AssetIsTyped(q.asset);
    var (a, r) := Start(b, a0, now, l, lost, q);
    assert SessionOk(a.wallets, a.rows, r.session, a.sessions[r.session], now);
    assert IntentOk(b, a.sessions[r.session], a.rows[r.row]);
    AnswerPassesTheBrowser(b.codec, b.token, a.rows[r.row], a.sessions[r.session], q, r, asset, token);
  }

  lemma AnswerIsBound(
    c: Codec, configured: Option<Address>, row: Row, s: Session, q: StartCall, r: StartReply, asset: Asset, token: Option<string>)
    requires r.Signing? && row.metadata.NormalAb? && row.metadata.asset == asset
    requires r.digest == s.digest && r.tx == s.tx && r.amount == row.amount
    requires c.getAddress(q.to) == Some(row.to) && TypedAmount(c, q.amount, row.amount)
    requires TxFromStoredFields(c, s.tx).Some?
    requires var tx := TxFromStoredFields(c, s.tx).value;
             s.tx == ResponseFields(tx) && c.digest(tx) == s.digest && IsTransfer(c, tx, asset, row.to, row.amount, configured)
    requires asset.ERC20? ==> token.Some? && token.value != "" && c.getAddress(token.value) == configured
    ensures Binds(c, BrowserCheck(q, r, asset, token), TxFromStoredFields(c, s.tx).value)
  {
    var p, tx := BrowserCheck(q, r, asset, token), TxFromStoredFields(c, r.tx).value;
    NothingNormalizes();
    TypedIsTransfer(c, p, tx, row.to, row.amount);
    assert IsTyped(c, p, tx, row.to, row.amount);
    assert TypedAmount(c, p.userAmount, row.amount) && p.amountWei == ToDecimal(row.amount);
  }

  lemma NothingNormalizes()
    ensures NormalizeTxData("0x") == Some("0x")
  {
    assert Trim("0x") == "0x";
  }

  lemma AnswerPassesTheBrowser(
    c: Codec, configured: Option<Address>, row: Row, s: Session, q: StartCall, r: StartReply, asset: Asset, token: Option<string>)
    requires r.Signing? && row.metadata.NormalAb? && row.metadata.asset == asset
    requires r.digest == s.digest && r.tx == s.tx && r.amount == row.amount
    requires c.getAddress(q.to) == Some(row.to) && TypedAmount(c, q.amount, row.amount)
    requires TxFromStoredFields(c, s.tx).Some?
    requires var tx := TxFromStoredFields(c, s.tx).value;
             s.tx == ResponseFields(tx) && c.digest(tx) == s.digest && IsTransfer(c, tx, asset, row.to, row.amount, configured)
    requires asset.ERC20? ==> token.Some? && token.value != "" && c.getAddress(token.value) == configured
    ensures AssertWysiwysDigest(c, BrowserCheck(q, r, asset, token)) == Ok(r.digest)
  {
    AnswerIsBound(c, configured, row, s, q, r, asset, token);
    AcceptsExactlyTheUsersTransfer(c, BrowserCheck(q, r, asset, token), r.digest);
  }

  /** The transaction moves the typed amount of the typed asset to the typed recipient. */
  ghost predicate IsWhatIsAsked(b: Backend, q: StartCall, tx: Tx) {
    && b.codec.getAddress(q.to).Some?
    && exists asset, wei: nat ::
         && TypedAsset(q.asset, asset) && TypedAmount(b.codec, q.amount, wei)
         && IsTransfer(b.codec, tx, asset, b.codec.getAddress(q.to).value, wei, b.token)
  }

  /**
   * Whatever the A+B flow broadcasts for a row carries the digest the browser was asked to sign for it, and is
   * exactly the transfer the user asked for when the session was started.
   */
  lemma BroadcastIsTheUsersTransfer(b: Backend, a: Api, now: nat, k: nat, q: StartCall)
    requires ApiOk(b, a, now) && k < |a.sent| && IsAb(a.rows, a.sent[k].row) && Asks(b, q, a.rows[a.sent[k].row])
    ensures var e := a.sent[k];
            b.codec.digest(e.tx) == a.rows[e.row].metadata.digest && IsWhatIsAsked(b, q, e.tx)
  {
    assert SentOk(b, a.rows, a.sent[k]);
  }
}
