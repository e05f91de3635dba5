/** Every step of a last-withdraw request, and of the OTP start and cancel, keeps both sides' invariants. */
module LastWithdrawSteps {
  import opened Types
  import opened EthTransfer
  import opened Withdraws
  import opened AbSigning
  import opened AbInvariant
  import opened LastWithdraw
  import opened BcInvariant
  import opened Shares

  /** What is asked of the outside for a step: a live signer writes BROADCASTED before its row is stale, and a
      confirmation is a success receipt. */
  predicate Honest(b: Backend, w: World, id: RequestId, x: Input)
    requires id in w.requests
  {
    match w.requests[id].pc
    case AtSign(_, i, _) =>
      x.signature.Some? && i < |w.api.rows| ==> w.now < w.api.rows[i].createdAt + STALE_EMERGENCY_PROCESSING_MS
    case AtWait(_, _, raw) => x.ok ==> MinedAs(b.codec, w.chain, raw, true)
    case _ => true
  }

  /** A row that keeps what the A+B side looks at. */
  predicate SameForAb(r: Row, r': Row) {
    if r.metadata.NormalAb? then r' == r
    else r'.metadata.EmergencyBc? && r'.wallet == r.wallet && r'.createdAt == r.createdAt && r'.key == r.key
  }

  /** Emergency steps leave the A+B side alone; a wallet stops being ACTIVE only without an open A+B row. */
  lemma ApiStays(b: Backend, a: Api, a': Api, now: nat)
    requires ApiOk(b, a, now) && a'.sessions == a.sessions && a'.sent == a.sent && |a.rows| <= |a'.rows|
    requires forall i :: 0 <= i < |a.rows| ==> SameForAb(a.rows[i], a'.rows[i])
    requires forall i :: |a.rows| <= i < |a'.rows| ==>
                           a'.rows[i].metadata.EmergencyBc? && a'.rows[i].key.None? && a'.rows[i].wallet in a'.wallets
                           && a'.rows[i].createdAt <= now
    requires forall w :: w in a.wallets ==> w in a'.wallets && a'.wallets[w].user == a.wallets[w].user
    requires forall w :: w in a.wallets && a.wallets[w].status == ACTIVE && a'.wallets[w].status != ACTIVE ==>
                           forall i :: 0 <= i < |a.rows| ==> !OpenAb(a.rows[i], w)
    ensures ApiOk(b, a', now)
  {
    forall i, j | 0 <= i < j < |a'.rows| && a'.rows[i].wallet == a'.rows[j].wallet
      ensures !(OpenAb(a'.rows[i], a'.rows[i].wallet) && OpenAb(a'.rows[j], a'.rows[j].wallet))
    {
      assert j < |a.rows| ==> SameForAb(a.rows[i], a'.rows[i]) && SameForAb(a.rows[j], a'.rows[j]);
    }
    ApiRowsStay(b, a, a', now);
    ApiSendsStay(b, a, a');
    forall id | id in a'.sessions
      ensures SessionOk(a'.wallets, a'.rows, id, a'.sessions[id], now) && IntentOk(b, a'.sessions[id], a'.rows[a'.sessions[id].row])
    {
      assert SessionOk(a.wallets, a.rows, id, a.sessions[id], now) && IntentOk(b, a.sessions[id], a.rows[a.sessions[id].row]);
      assert SameForAb(a.rows[a.sessions[id].row], a'.rows[a.sessions[id].row]);
    }
    forall i | 0 <= i < |a'.rows| && a'.rows[i].wallet in a'.wallets && OpenAb(a'.rows[i], a'.rows[i].wallet)
      ensures a'.wallets[a'.rows[i].wallet].status == ACTIVE
    {
      assert i < |a.rows| && SameForAb(a.rows[i], a'.rows[i]);
      assert OpenAb(a.rows[i], a.rows[i].wallet);
    }
  }

  lemma ApiRowsStay(b: Backend, a: Api, a': Api, now: nat)
    requires RowsOk(a.wallets, a.rows, now) && |a.rows| <= |a'.rows|
    requires forall i :: 0 <= i < |a.rows| ==> SameForAb(a.rows[i], a'.rows[i])
    requires forall i :: |a.rows| <= i < |a'.rows| ==>
                           a'.rows[i].metadata.EmergencyBc? && a'.rows[i].key.None? && a'.rows[i].wallet in a'.wallets
                           && a'.rows[i].createdAt <= now
    requires forall w :: w in a.wallets ==> w in a'.wallets
    ensures RowsOk(a'.wallets, a'.rows, now)
  {
  }

  lemma ApiSendsStay(b: Backend, a: Api, a': Api)
    requires SendsOk(b, a.rows, a.sessions, a.sent) && a'.sessions == a.sessions && a'.sent == a.sent && |a.rows| <= |a'.rows|
    requires forall i :: 0 <= i < |a.rows| ==> SameForAb(a.rows[i], a'.rows[i])
    requires forall i :: |a.rows| <= i < |a'.rows| ==> a'.rows[i].metadata.EmergencyBc?
    ensures SendsOk(b, a'.rows, a'.sessions, a'.sent)
  {
  }

  // ---- Settlement keeps everything ----

  lemma SettlementIsBcStep(c: Codec, rows: seq<Row>, rows': seq<Row>, w: WalletId, chain: map<TxHash, bool>, now: nat)
    requires BcRowsOk(c, rows, chain) && |rows'| == |rows|
    requires forall i :: 0 <= i < |rows| ==> SettleStep(rows[i], rows'[i], w, chain, now)
    ensures forall i :: 0 <= i < |rows| ==> BcStep(c, rows[i], rows'[i], chain) && SameForAb(rows[i], rows'[i])
    ensures forall i :: 0 <= i < |rows| && IsBc(rows, i) && rows[i].metadata.signedRaw.None? ==> Untouched(rows[i], rows'[i], now)
    ensures BcRowsOk(c, rows', chain)
  {
  }

  /** A claim is on an unsent row. */
  lemma ClaimIsUnsent(c: Codec, w: World, r: Request)
    requires RequestOk(c, w, r) && Claim(r.pc).Some?
    ensures var i := Claim(r.pc).value; IsBc(w.api.rows, i) && w.api.rows[i].metadata.signedRaw.None?
  {
  }

  ghost predicate SystemOk(b: Backend, w: World) {
    ApiOk(b, w.api, w.now) && BcOk(b, w)
  }

  // ---- The steps that only move the request ----

  lemma QuietKeepsOk(b: Backend, w: World, w': World, id: RequestId)
    requires SystemOk(b, w) && w'.api == w.api && w'.chain == w.chain && w'.now == w.now
    requires w'.submitted == w.submitted
             || (exists i, raw :: w'.submitted == w.submitted + [Submission(i, raw)] && Stored(b.codec, w.api.rows, i, raw))
    requires forall x :: x in w'.requests && x != id ==> x in w.requests && w'.requests[x] == w.requests[x]
    requires id in w'.requests ==>
               && RequestOk(b.codec, w, w'.requests[id])
               && (Claim(w'.requests[id].pc).Some? ==> id in w.requests && Claim(w.requests[id].pc) == Claim(w'.requests[id].pc))
    ensures SystemOk(b, w')
  {
    Assemble(b, w, w', id);
  }

  lemma RebroadcastKeepsOk(b: Backend, w: World, id: RequestId, x: Input)
    requires SystemOk(b, w) && id in w.requests && w.requests[id].pc.AtRebroadcast?
    ensures SystemOk(b, Advance(b, w, id, x))
  {
    QuietKeepsOk(b, w, Advance(b, w, id, x), id);
  }

  lemma BroadcastKeepsOk(b: Backend, w: World, id: RequestId, x: Input)
    requires SystemOk(b, w) && id in w.requests && w.requests[id].pc.AtBroadcast?
    ensures SystemOk(b, Advance(b, w, id, x))
  {
    QuietKeepsOk(b, w, Advance(b, w, id, x), id);
  }

  /** A move to a step that only needs the wallet to be leaving. */
  lemma MoveKeepsOk(b: Backend, w: World, id: RequestId, pc: Pc)
    requires SystemOk(b, w) && id in w.requests && Leaving(w.api.wallets, w.requests[id].wallet)
    requires pc.AtEth? || pc.AtCreate? || pc.AtRetire? || (pc.AtSkip? && (pc.why == ETH_DUST ==> TokenHash(pc.token).Some?))
    ensures SystemOk(b, Move(w, id, pc))
  {
    QuietKeepsOk(b, w, Move(w, id, pc), id);
  }

  /** The token step ends the request, goes on to ETH, or goes on to sign a token sweep. */
  lemma TokenShape(b: Backend, w: World, id: RequestId, x: Input) returns (pc: Pc)
    requires id in w.requests
    ensures StepToken(b, w, id, x) == End(w, id) || ((pc.AtEth? || pc.AtCreate?) && StepToken(b, w, id, x) == Move(w, id, pc))
  {
    var next := AfterToken(b, w.api, w.requests[id], x.net);
    pc := if next.Some? then next.value else AtLock;
  }

  lemma TokenKeepsOk(b: Backend, w: World, id: RequestId, x: Input)
    requires SystemOk(b, w) && id in w.requests && w.requests[id].pc.AtToken?
    ensures SystemOk(b, Advance(b, w, id, x))
  {
    var pc := TokenShape(b, w, id, x);
    if StepToken(b, w, id, x) == End(w, id) {
      EndKeepsOk(b, w, id);
    } else {
      assert RequestOk(b.codec, w, w.requests[id]);
      MoveKeepsOk(b, w, id, pc);
    }
  }

  lemma EthShape(w: World, id: RequestId, x: Input, token: Token) returns (pc: Pc)
    requires id in w.requests
    ensures StepEth(w, id, x, token) == End(w, id)
            || (StepEth(w, id, x, token) == Move(w, id, pc)
                && (pc.AtRetire? || pc.AtCreate? || (pc.AtSkip? && (pc.why == ETH_DUST ==> TokenHash(pc.token).Some?))))
  {
    var next := AfterEth(w.api, w.requests[id], x.net, token);
    pc := if next.Some? then next.value else AtLock;
  }

  lemma EthKeepsOk(b: Backend, w: World, id: RequestId, x: Input)
    requires SystemOk(b, w) && id in w.requests && w.requests[id].pc.AtEth?
    ensures SystemOk(b, Advance(b, w, id, x))
  {
    var token := w.requests[id].pc.token;
    var pc := EthShape(w, id, x, token);
    if StepEth(w, id, x, token) == End(w, id) {
      EndKeepsOk(b, w, id);
    } else {
      assert RequestOk(b.codec, w, w.requests[id]);
      MoveKeepsOk(b, w, id, pc);
    }
  }

  lemma RetireShareKeepsOk(b: Backend, w: World, id: RequestId, x: Input)
    requires SystemOk(b, w) && id in w.requests && w.requests[id].pc.AtRetireShare?
    ensures SystemOk(b, Advance(b, w, id, x))
  {
    QuietKeepsOk(b, w, Advance(b, w, id, x), id);
  }

  lemma EndKeepsOk(b: Backend, w: World, id: RequestId)
    requires SystemOk(b, w)
    ensures SystemOk(b, End(w, id))
  {
    QuietKeepsOk(b, w, End(w, id), id);
  }

  lemma ArriveShape(
    b: Backend, w: World, id: RequestId, user: UserId, wallet: WalletId, to: string, otp: Option<ErrorCode>, net: Provider)
    returns (r: Request)
    ensures r.wallet == wallet && r.pc == AtLock
    ensures Arrive(b, w, id, user, wallet, to, otp, net).0 == w
            || (wallet in w.api.wallets && Arrive(b, w, id, user, wallet, to, otp, net).0 == w.(requests := w.requests[id := r]))
  {
    var w' := Arrive(b, w, id, user, wallet, to, otp, net).0;
    r := if w' != w then w'.requests[id] else Request(wallet, to, AtLock);
  }

  /** A new request that waits for the lock. */
  lemma JoinKeepsOk(b: Backend, w: World, id: RequestId, r: Request)
    requires SystemOk(b, w) && id !in w.requests && r.pc == AtLock && r.wallet in w.api.wallets
    ensures SystemOk(b, w.(requests := w.requests[id := r]))
  {
    QuietKeepsOk(b, w, w.(requests := w.requests[id := r]), id);
  }

  // ---- The steps that change rows or the wallet ----

  /** Rows settled on the emergency side, and the wallet's status moved to RETIRING or left as it is. */
  lemma SettledKeepsOk(b: Backend, w: World, w': World, wallet: WalletId, id: RequestId)
    requires SystemOk(b, w) && id in w.requests && Claim(w.requests[id].pc).None? && wallet in w.api.wallets
    requires w'.chain == w.chain && w'.now == w.now && w'.submitted == w.submitted
    requires |w'.api.rows| == |w.api.rows|
    requires forall i :: 0 <= i < |w.api.rows| ==> SettleStep(w.api.rows[i], w'.api.rows[i], wallet, w.chain, w.now)
    requires w'.api == w.api.(rows := w'.api.rows, wallets := w'.api.wallets)
    requires w'.api.wallets == w.api.wallets
             || (w.api.wallets[wallet].status in {RECOVERY_PENDING, RETIRING}
                 && w'.api.wallets == w.api.wallets[wallet := w.api.wallets[wallet].(status := RETIRING)])
    requires forall x :: x in w'.requests && x != id ==> x in w.requests && w'.requests[x] == w.requests[x]
    requires id in w'.requests ==> RequestOk(b.codec, w', w'.requests[id]) && Claim(w'.requests[id].pc).None?
    ensures SystemOk(b, w')
  {
    SettlementIsBcStep(b.codec, w.api.rows, w'.api.rows, wallet, w.chain, w.now);
    SettledApiStays(b, w.api, w'.api, wallet, w.now);
    forall x | x in w'.requests && x != id && Claim(w.requests[x].pc).Some?
      ensures var i := Claim(w.requests[x].pc).value;
              i < |w.api.rows| && Untouched(w.api.rows[i], w'.api.rows[i], w.now)
    {
      ClaimIsUnsent(b.codec, w, w.requests[x]);
    }
    Assemble(b, w, w', id);
  }

  lemma SettledApiStays(b: Backend, a: Api, a': Api, wallet: WalletId, now: nat)
    requires ApiOk(b, a, now) && wallet in a.wallets && |a'.rows| == |a.rows|
    requires a' == a.(rows := a'.rows, wallets := a'.wallets)
    requires forall i :: 0 <= i < |a.rows| ==> SameForAb(a.rows[i], a'.rows[i])
    requires a'.wallets == a.wallets
             || (a.wallets[wallet].status in {RECOVERY_PENDING, RETIRING}
                 && a'.wallets == a.wallets[wallet := a.wallets[wallet].(status := RETIRING)])
    ensures ApiOk(b, a', now)
  {
    ApiStays(b, a, a', now);
  }

  /** An A+B step in between: emergency rows and wallets are as they were. */
  lemma AbStepKeepsBc(b: Backend, w: World, a: Api)
    requires SystemOk(b, w) && AbFrame(w.api, a) && ApiOk(b, a, w.now)
    ensures SystemOk(b, w.(api := a))
  {
    var w' := w.(api := a);
    var rows, rows' := w.api.rows, a.rows;
    forall i | 0 <= i < |rows| ensures BcStep(b.codec, rows[i], rows'[i], w.chain) && (IsBc(rows, i) ==> rows'[i] == rows[i]) {
      assert RowEvolves(rows[i], rows'[i]);
    }
    forall i | 0 <= i < |rows'| && IsBc(rows', i) ensures i < |rows| && rows'[i] == rows[i] && IsBc(rows, i) {
      assert i < |rows| ==> RowEvolves(rows[i], rows'[i]);
    }
    forall i, j | 0 <= i < j < |rows'| ensures Supersedes(rows'[i], rows'[j]) {
      assert IsBc(rows', i) && IsBc(rows', j) ==> Supersedes(rows[i], rows[j]);
    }
    forall x | x in w.requests && Claim(w.requests[x].pc).Some?
      ensures var i := Claim(w.requests[x].pc).value; i < |rows| && Untouched(rows[i], rows'[i], w.now)
    {
      ClaimIsUnsent(b.codec, w, w.requests[x]);
    }
    if 0 in w.requests {
      RequestStays(b.codec, w, w', w.requests[0]);
    }
    Assemble(b, w, w', 0);
  }

  /** What the locked transaction leads to, once both settlements are known. */
  lemma LockShape(w: World, id: RequestId, x: Input)
    requires id in w.requests
    ensures var wallet, l := w.requests[id].wallet, Ledger(w.chain, x.down);
            var ab := SettleNormalAb(w.api.rows, wallet, l);
            var w' := StepLock(w, id, x);
            || w' == End(w, id)
            || (LastWithdrawRefusal(w.api.wallets, wallet).None? && ab.Ok?
                && var s := SettleEmergency(ab.value, wallet, l, w.now);
                   && !s.Thrown?
                   && w' == Move(WithStatus(WithRows(w, s.rows), wallet, RETIRING), id,
                                 if s.Clear? then AtToken else AtRebroadcast(s.id, s.raw)))
  {
  }

  lemma LockKeepsOk(b: Backend, w: World, id: RequestId, x: Input)
    requires SystemOk(b, w) && id in w.requests && w.requests[id].pc.AtLock?
    ensures SystemOk(b, Advance(b, w, id, x))
  {
    var w' := Advance(b, w, id, x);
    LockShape(w, id, x);
    if w' == End(w, id) {
      EndKeepsOk(b, w, id);
    } else {
      LockedKeepsOk(b, w, id, x);
    }
  }

  /** Both settlements, the move to RETIRING, and where the request goes next. */
  lemma LockedKeepsOk(b: Backend, w: World, id: RequestId, x: Input)
    requires SystemOk(b, w) && id in w.requests && w.requests[id].pc.AtLock?
    requires var wallet, l := w.requests[id].wallet, Ledger(w.chain, x.down);
             && LastWithdrawRefusal(w.api.wallets, wallet).None?
             && SettleNormalAb(w.api.rows, wallet, l).Ok?
             && !SettleEmergency(SettleNormalAb(w.api.rows, wallet, l).value, wallet, l, w.now).Thrown?
    ensures var wallet, l := w.requests[id].wallet, Ledger(w.chain, x.down);
            var s := SettleEmergency(SettleNormalAb(w.api.rows, wallet, l).value, wallet, l, w.now);
            SystemOk(b, Move(WithStatus(WithRows(w, s.rows), wallet, RETIRING), id,
                             if s.Clear? then AtToken else AtRebroadcast(s.id, s.raw)))
  {
    var wallet, l := w.requests[id].wallet, Ledger(w.chain, x.down);
    SettleAbKeepsOk(b, w.api, wallet, l, w.now);
    var m := WithRows(w, SettleNormalAb(w.api.rows, wallet, l).value);
    AbStepKeepsBc(b, w, m.api);
    var s := SettleEmergency(m.api.rows, wallet, l, m.now);
    SettledRowsKeepOk(b, m, id, l);
    LeaveKeepsOk(b, WithRows(m, s.rows), id, if s.Clear? then AtToken else AtRebroadcast(s.id, s.raw));
  }

  /** The wallet goes to RETIRING and the request on to its next step. */
  lemma LeaveKeepsOk(b: Backend, w: World, id: RequestId, pc: Pc)
    requires SystemOk(b, w) && id in w.requests && LastWithdrawRefusal(w.api.wallets, w.requests[id].wallet).None?
    requires pc == AtToken || (pc.AtRebroadcast? && Stored(b.codec, w.api.rows, pc.row, pc.raw))
    ensures SystemOk(b, Move(WithStatus(w, w.requests[id].wallet, RETIRING), id, pc))
  {
    var wallet := w.requests[id].wallet;
    StatusKeepsOk(b, w, wallet, RETIRING);
    var m := WithStatus(w, wallet, RETIRING);
    QuietKeepsOk(b, m, Move(m, id, pc), id);
  }

  /** The emergency settlement alone; what it hands out for a rebroadcast is stored. */
  lemma SettledRowsKeepOk(b: Backend, m: World, id: RequestId, l: Ledger)
    requires SystemOk(b, m) && id in m.requests && m.requests[id].pc.AtLock? && l.mined == m.chain
    requires !SettleEmergency(m.api.rows, m.requests[id].wallet, l, m.now).Thrown?
    ensures var s := SettleEmergency(m.api.rows, m.requests[id].wallet, l, m.now);
            SystemOk(b, WithRows(m, s.rows)) && (s.Rebroadcast? ==> Stored(b.codec, s.rows, s.id, s.raw))
  {
    var wallet := m.requests[id].wallet;
    var s := SettleEmergency(m.api.rows, wallet, l, m.now);
    SettlementSteps(m.api.rows, wallet, l, m.now);
    assert RequestOk(b.codec, m, m.requests[id]);
    SettledKeepsOk(b, m, WithRows(m, s.rows), wallet, id);
    if s.Rebroadcast? {
      assert IsBc(m.api.rows, s.id) && BcRowOk(b.codec, m.api.rows[s.id], m.chain);
    }
  }

  /** A wallet moves on: to RECOVERY_PENDING or RETIRING once it has no open A+B row, or back to ACTIVE. */
  lemma StatusKeepsOk(b: Backend, w: World, wallet: WalletId, status: WalletStatus)
    requires SystemOk(b, w) && wallet in w.api.wallets && status != RETIRED
    requires w.api.wallets[wallet].status != RETIRED && w.api.wallets[wallet].shareB.Some?
    requires w.api.wallets[wallet].status == RETIRING ==> status == RETIRING
    requires status != ACTIVE && w.api.wallets[wallet].status == ACTIVE ==>
               forall i :: 0 <= i < |w.api.rows| ==> !OpenAb(w.api.rows[i], wallet)
    ensures SystemOk(b, WithStatus(w, wallet, status))
  {
    var w' := WithStatus(w, wallet, status);
    ApiStays(b, w.api, w'.api, w.now);
    UnmovedClaims(b, w, w');
    AssembleAll(b, w, w');
  }

  lemma UnmovedClaims(b: Backend, w: World, w': World)
    requires BcOk(b, w) && w'.api.rows == w.api.rows
    ensures forall x :: x in w.requests && Claim(w.requests[x].pc).Some? ==>
                          var i := Claim(w.requests[x].pc).value;
                          i < |w.api.rows| && Untouched(w.api.rows[i], w'.api.rows[i], w.now)
  {
  }

  lemma LatestIsSuperseded(c: Codec, rows: seq<Row>, chain: map<TxHash, bool>, row: Row)
    requires BcRowsOk(c, rows, chain) && row.metadata.EmergencyBc? && row.metadata.skipped.None?
    requires forall i :: 0 <= i < |rows| ==> !OpenBc(rows[i], row.wallet)
    requires var latest := FindLatestEmergencyBc(rows, row.wallet, row.metadata.asset);
             latest.Some? ==> rows[latest.value].status != EXECUTED
    ensures forall i :: 0 <= i < |rows| ==> Supersedes(rows[i], row)
  {
  }

  lemma CreateShape(w: World, id: RequestId, x: Input)
    requires id in w.requests && w.requests[id].pc.AtCreate?
    ensures var r := w.requests[id];
            var s := SettleEmergency(w.api.rows, r.wallet, Ledger(w.chain, x.down), w.now);
            var w' := StepCreate(w, id, x);
            || w' == End(w, id)
            || (s.Clear?
                && var m := WithRows(w, s.rows);
                   var latest := FindLatestEmergencyBc(s.rows, r.wallet, AssetOf(r.pc.leg));
                   if latest.Some? && s.rows[latest.value].status == EXECUTED then
                     w' == Move(m, id, After(r.pc.leg, s.rows[latest.value].txHash))
                   else
                     w' == Move(WithRows(m, s.rows + [NewBcRow(m.now, r, r.pc.leg, r.pc.amount)]), id, AtSign(r.pc.leg, |s.rows|, r.pc.tx)))
  {
  }

  lemma CreateRowKeepsOk(b: Backend, w: World, id: RequestId, x: Input)
    requires SystemOk(b, w) && id in w.requests && w.requests[id].pc.AtCreate?
    ensures SystemOk(b, Advance(b, w, id, x))
  {
    var r := w.requests[id];
    var w' := Advance(b, w, id, x);
    CreateShape(w, id, x);
    if w' == End(w, id) {
      EndKeepsOk(b, w, id);
    } else {
      var s := SettleEmergency(w.api.rows, r.wallet, Ledger(w.chain, x.down), w.now);
      SettlementSteps(w.api.rows, r.wallet, Ledger(w.chain, x.down), w.now);
      SettledPreserves(b, w, s.rows, r.wallet);
      var m := WithRows(w, s.rows);
      SettledKeepsOk(b, w, m, r.wallet, id);
      var latest := FindLatestEmergencyBc(s.rows, r.wallet, AssetOf(r.pc.leg));
      assert RequestOk(b.codec, m, r);
      if latest.Some? && s.rows[latest.value].status == EXECUTED {
        MoveKeepsOk(b, m, id, After(r.pc.leg, s.rows[latest.value].txHash));
      } else {
        NewRowKeepsOk(b, m, id);
      }
    }
  }

  lemma SettledPreserves(b: Backend, w: World, rows': seq<Row>, wallet: WalletId)
    requires SystemOk(b, w) && |rows'| == |w.api.rows|
    requires forall i :: 0 <= i < |rows'| ==> SettleStep(w.api.rows[i], rows'[i], wallet, w.chain, w.now)
    ensures forall x :: x in w.requests && Claim(w.requests[x].pc).None? ==> RequestOk(b.codec, WithRows(w, rows'), w.requests[x])
  {
    var w' := WithRows(w, rows');
    SettlementIsBcStep(b.codec, w.api.rows, rows', wallet, w.chain, w.now);
    forall x | x in w.requests && Claim(w.requests[x].pc).None? ensures RequestOk(b.codec, w', w.requests[x]) {
      RequestStays(b.codec, w, w', w.requests[x]);
    }
  }

  lemma NewRowKeepsOk(b: Backend, m: World, id: RequestId)
    requires SystemOk(b, m) && id in m.requests && m.requests[id].pc.AtCreate?
    requires forall i :: 0 <= i < |m.api.rows| ==> !OpenBc(m.api.rows[i], m.requests[id].wallet)
    requires var latest := FindLatestEmergencyBc(m.api.rows, m.requests[id].wallet, AssetOf(m.requests[id].pc.leg));
             latest.Some? ==> m.api.rows[latest.value].status != EXECUTED
    ensures var r := m.requests[id];
            SystemOk(b, Move(WithRows(m, m.api.rows + [NewBcRow(m.now, r, r.pc.leg, r.pc.amount)]), id,
                             AtSign(r.pc.leg, |m.api.rows|, r.pc.tx)))
  {
    var r := m.requests[id];
    var row := NewBcRow(m.now, r, r.pc.leg, r.pc.amount);
    var w' := Move(WithRows(m, m.api.rows + [row]), id, AtSign(r.pc.leg, |m.api.rows|, r.pc.tx));
    LatestIsSuperseded(b.codec, m.api.rows, m.chain, row);
    BcInvariant.AppendKeepsRows(b.codec, m.api.rows, row, m.chain);
    AppendedKeepsOk(b, m, w', id, row);
  }

  lemma AppendedApiStays(b: Backend, a: Api, row: Row, now: nat)
    requires ApiOk(b, a, now)
    requires row.metadata.EmergencyBc? && row.key.None? && row.createdAt <= now && row.wallet in a.wallets
    ensures ApiOk(b, a.(rows := a.rows + [row]), now)
  {
    ApiStays(b, a, a.(rows := a.rows + [row]), now);
  }

  /** One emergency row appended by request `id`. */
  lemma AppendedKeepsOk(b: Backend, m: World, w': World, id: RequestId, row: Row)
    requires SystemOk(b, m) && id in m.requests
    requires row.metadata.EmergencyBc? && row.key.None? && row.createdAt == m.now && Leaving(m.api.wallets, row.wallet)
    requires BcRowsOk(b.codec, m.api.rows + [row], m.chain)
    requires w' == m.(api := m.api.(rows := m.api.rows + [row]), requests := w'.requests)
    requires forall x :: x in w'.requests && x != id ==> x in m.requests && w'.requests[x] == m.requests[x]
    requires id in w'.requests && RequestOk(b.codec, w', w'.requests[id])
    requires Claim(w'.requests[id].pc).Some? ==> Claim(w'.requests[id].pc).value == |m.api.rows|
    ensures SystemOk(b, w')
  {
    AppendedApiStays(b, m.api, row, m.now);
    forall x | x in w'.requests && x != id && Claim(m.requests[x].pc).Some?
      ensures var i := Claim(m.requests[x].pc).value;
              i < |m.api.rows| && Untouched(m.api.rows[i], w'.api.rows[i], m.now)
    {
      ClaimIsUnsent(b.codec, m, m.requests[x]);
    }
    Assemble(b, m, w', id);
  }

  lemma SkipKeepsOk(b: Backend, w: World, id: RequestId, x: Input)
    requires SystemOk(b, w) && id in w.requests && w.requests[id].pc.AtSkip?
    ensures SystemOk(b, Advance(b, w, id, x))
  {
    var r := w.requests[id];
    var row := SkippedRow(w, r, r.pc.why, r.pc.token);
    BcInvariant.AppendKeepsRows(b.codec, w.api.rows, row, w.chain);
    AppendedKeepsOk(b, w, Advance(b, w, id, x), id, row);
  }

  lemma OneRowApiStays(b: Backend, a: Api, i: nat, row: Row, now: nat)
    requires ApiOk(b, a, now) && i < |a.rows| && SameForAb(a.rows[i], row)
    ensures ApiOk(b, a.(rows := a.rows[i := row]), now)
  {
    ApiStays(b, a, a.(rows := a.rows[i := row]), now);
  }

  /** One emergency row changed by the request that owns it, or to what its receipt says. */
  lemma OneRowKeepsOk(b: Backend, w: World, w': World, id: RequestId, i: nat, row: Row)
    requires SystemOk(b, w) && id in w.requests && IsBc(w.api.rows, i)
    requires w' == w.(api := w.api.(rows := w.api.rows[i := row]), requests := w'.requests)
    requires BcStep(b.codec, w.api.rows[i], row, w.chain) && row.key == w.api.rows[i].key
    requires Claim(w.requests[id].pc) == Some(i) || w.api.rows[i].metadata.signedRaw.Some?
    requires forall x :: x in w'.requests && x != id ==> x in w.requests && w'.requests[x] == w.requests[x]
    requires id in w'.requests ==> RequestOk(b.codec, w', w'.requests[id]) && Claim(w'.requests[id].pc).None?
    ensures SystemOk(b, w')
  {
    forall k | 0 <= k < |w.api.rows|
      ensures BcStep(b.codec, w.api.rows[k], w'.api.rows[k], w.chain) && SameForAb(w.api.rows[k], w'.api.rows[k])
    {
    }
    StepsKeepRows(b.codec, w.api.rows, w'.api.rows, w.chain, w.chain);
    OneRowApiStays(b, w.api, i, row, w.now);
    forall x | x in w'.requests && x != id && Claim(w.requests[x].pc).Some?
      ensures var k := Claim(w.requests[x].pc).value;
              k < |w.api.rows| && Untouched(w.api.rows[k], w'.api.rows[k], w.now)
    {
      ClaimIsUnsent(b.codec, w, w.requests[x]);
    }
    Assemble(b, w, w', id);
  }

  lemma SignKeepsOk(b: Backend, w: World, id: RequestId, x: Input)
    requires SystemOk(b, w) && id in w.requests && w.requests[id].pc.AtSign? && Honest(b, w, id, x)
    ensures SystemOk(b, Advance(b, w, id, x))
  {
    var w' := Advance(b, w, id, x);
    var i := w.requests[id].pc.row;
    ClaimIsUnsent(b.codec, w, w.requests[id]);
    if x.signature.None? {
      QuietKeepsOk(b, w, w', id);
    } else {
      assert BcRowOk(b.codec, w.api.rows[i], w.chain);
      OneRowKeepsOk(b, w, w', id, i, w'.api.rows[i]);
    }
  }

  lemma MarkFailedKeepsOk(b: Backend, w: World, id: RequestId, x: Input)
    requires SystemOk(b, w) && id in w.requests && w.requests[id].pc.AtMarkFailed?
    ensures SystemOk(b, Advance(b, w, id, x))
  {
    var w' := Advance(b, w, id, x);
    var i := w.requests[id].pc.row;
    OneRowKeepsOk(b, w, w', id, i, w'.api.rows[i]);
  }

  lemma WaitKeepsOk(b: Backend, w: World, id: RequestId, x: Input)
    requires SystemOk(b, w) && id in w.requests && w.requests[id].pc.AtWait? && Honest(b, w, id, x)
    ensures SystemOk(b, Advance(b, w, id, x))
  {
    var w' := Advance(b, w, id, x);
    EndKeepsOk(b, w, id);
    if x.ok {
      var i := w.requests[id].pc.row;
      assert BcRowOk(b.codec, w.api.rows[i], w.chain);
      OneRowKeepsOk(b, w, w', id, i, w'.api.rows[i]);
    }
  }

  lemma RetireKeepsOk(b: Backend, w: World, id: RequestId, x: Input)
    requires SystemOk(b, w) && id in w.requests && w.requests[id].pc.AtRetire?
    ensures SystemOk(b, Advance(b, w, id, x))
  {
    var wallet := w.requests[id].wallet;
    assert RequestOk(b.codec, w, w.requests[id]);
    var m := Retired(w, wallet);
    RetiredKeepsOk(b, w, m, wallet, id);
    QuietKeepsOk(b, m, Move(m, id, AtRetireShare), id);
  }

  lemma RetiredApiStays(b: Backend, w: World, wallet: WalletId)
    requires ApiOk(b, w.api, w.now) && Leaving(w.api.wallets, wallet)
    ensures ApiOk(b, Retired(w, wallet).api, w.now)
  {
    ApiStays(b, w.api, Retired(w, wallet).api, w.now);
  }

  lemma RetiredKeepsOk(b: Backend, w: World, m: World, wallet: WalletId, id: RequestId)
    requires SystemOk(b, w) && Leaving(w.api.wallets, wallet) && m == Retired(w, wallet)
    requires id in w.requests && w.requests[id].pc.AtRetire? && w.requests[id].wallet == wallet
    ensures SystemOk(b, m)
  {
    RetiredApiStays(b, w, wallet);
    forall y | y in m.requests && Claim(w.requests[y].pc).Some?
      ensures var i := Claim(w.requests[y].pc).value;
              i < |w.api.rows| && Untouched(w.api.rows[i], m.api.rows[i], w.now)
    {
      ClaimIsUnsent(b.codec, w, w.requests[y]);
    }
    Assemble(b, w, m, id);
  }

  /** Whatever a request does next, the system stays sound. */
  lemma AdvanceKeepsOk(b: Backend, w: World, id: RequestId, x: Input)
    requires SystemOk(b, w) && id in w.requests && Honest(b, w, id, x)
    ensures SystemOk(b, Advance(b, w, id, x))
  {
    match w.requests[id].pc
    case AtLock => LockKeepsOk(b, w, id, x);
    case AtRebroadcast(_, _) => RebroadcastKeepsOk(b, w, id, x);
    case AtToken => TokenKeepsOk(b, w, id, x);
    case AtCreate(_, _, _) => CreateRowKeepsOk(b, w, id, x);
    case AtSign(_, _, _) => SignKeepsOk(b, w, id, x);
    case AtMarkFailed(_) => MarkFailedKeepsOk(b, w, id, x);
    case AtBroadcast(_, _, _) => BroadcastKeepsOk(b, w, id, x);
    case AtWait(_, _, _) => WaitKeepsOk(b, w, id, x);
    case AtEth(_) => EthKeepsOk(b, w, id, x);
    case AtSkip(_, _) => SkipKeepsOk(b, w, id, x);
    case AtRetire(_) => RetireKeepsOk(b, w, id, x);
    case AtRetireShare => RetireShareKeepsOk(b, w, id, x);
  }
}
