/**
 * The browser's side of key generation (apps/web/src/lib/mpc/create-wallet.ts), party A calling the hub, and what
 * a completed run leaves in the wallet table and in Recovery.
 */
module CreateWallet {
  import opened Types
  import opened Text
  import opened Routing
  import opened DkgReference
  import opened Withdraws
  import opened Shares
  import opened AbSigning
  import opened SignOrchestrator
  import opened Dkg
  import LastWithdraw
  import System

  // ---- Runs of the hub and Recovery ----

  /**
   * What may happen to the sessions: the hub's handlers, Recovery's on their own (a call whose answer is lost, a retry),
   * and the loss of either memory.
   */
  datatype DkgStep =
    | HubStarts(
        wallets: map<WalletId, Wallet>, call: Call, user: UserId, msg1A: Message, id: SessionId, wallet: WalletId,
        seedB: KeygenState, seedC: KeygenState)
    | HubRound2(call: Call, user: UserId, id: SessionId, msgs: seq<Message>, commitment: Commitment)
    | HubRound3(call: Call, user: UserId, id: SessionId, msgs: seq<Message>)
    | HubRound4(call: Call, user: UserId, id: SessionId, msgs: seq<Message>)
    | HubCompletes(
        wallets: map<WalletId, Wallet>, shares: map<WalletId, ShareC>, call: Call, user: UserId, id: SessionId, inserted: bool)
    | HubAborts(user: UserId, id: SessionId, heard: bool)
    | HubRestarts
    | RecoveryStarts(at: nat, id: SessionId, user: UserId, wallet: WalletId, seedC: KeygenState)
    | RecoveryRound1(at: nat, id: SessionId, msgs: seq<Message>)
    | RecoveryP2P(at: nat, id: SessionId, msgs: seq<Message>, commitments: Option<seq<Commitment>>)
    | RecoveryBroadcast(at: nat, id: SessionId, msgs: seq<Message>)
    | RecoveryFinalizes(shares: map<WalletId, ShareC>, at: nat, id: SessionId)
    | RecoveryAborts(id: SessionId)
    | RecoveryRestarts

  function DkgNext(e: KeygenEngine, v: Vault, s: Sessions, step: DkgStep): Sessions {
    match step
    case HubStarts(wallets, call, user, msg1A, id, wallet, seedB, seedC) =>
      StartHub(e, s, wallets, call.at, call.lost, user, msg1A, id, wallet, seedB, seedC).0
    case HubRound2(call, user, id, msgs, commitment) => Round2Hub(e, s, call.at, call.lost, user, id, msgs, commitment).0
    case HubRound3(call, user, id, msgs) => Round3Hub(e, s, call.at, call.lost, user, id, msgs).0
    case HubRound4(call, user, id, msgs) => Round4Hub(e, s, call.at, call.lost, user, id, msgs).0
    case HubCompletes(wallets, shares, call, user, id, inserted) =>
      CompleteHub(e, v, s, wallets, shares, call.at, call.lost, user, id, inserted).sessions
    case HubAborts(user, id, heard) =>
      if id in s.hub && s.hub[id].user == user then Sessions(s.hub - {id}, if heard then s.recovery - {id} else s.recovery) else s
    case HubRestarts => s.(hub := map[])
    case RecoveryStarts(at, id, user, wallet, seedC) => s.(recovery := StartC(e, s.recovery, at, id, user, wallet, seedC).0)
    case RecoveryRound1(at, id, msgs) => s.(recovery := Round1C(e, s.recovery, at, id, msgs).0)
    case RecoveryP2P(at, id, msgs, commitments) => s.(recovery := P2PC(e, s.recovery, at, id, msgs, commitments).0)
    case RecoveryBroadcast(at, id, msgs) => s.(recovery := BroadcastC(e, s.recovery, at, id, msgs).0)
    case RecoveryFinalizes(shares, at, id) => s.(recovery := FinalizeC(e, v, s.recovery, shares, at, id).0)
    case RecoveryAborts(id) => s.(recovery := s.recovery - {id})
    case RecoveryRestarts => s.(recovery := map[])
  }

  /** A start draws an id the hub does not have. */
  predicate DkgEnabled(s: Sessions, step: DkgStep) {
    (step.HubStarts? || step.RecoveryStarts?) ==> step.id !in s.hub
  }

  function DkgRun(e: KeygenEngine, v: Vault, s: Sessions, steps: seq<DkgStep>): Sessions
    decreases |steps|
  {
    if steps == [] then s else DkgRun(e, v, DkgNext(e, v, s, steps[0]), steps[1..])
  }

  predicate DkgAdmissible(e: KeygenEngine, v: Vault, s: Sessions, steps: seq<DkgStep>)
    decreases |steps|
  {
    steps == [] || (DkgEnabled(s, steps[0]) && DkgAdmissible(e, v, DkgNext(e, v, s, steps[0]), steps[1..]))
  }

  /** Sessions some run from two freshly started services leads to. */
  ghost predicate DkgReachable(e: KeygenEngine, v: Vault, s: Sessions) {
    exists steps :: DkgAdmissible(e, v, Sessions(map[], map[]), steps) && DkgRun(e, v, Sessions(map[], map[]), steps) == s
  }

  // ---- A session both sides agree on ----

  /** The hub's session and Recovery's are of the same user and wallet. */
  ghost predicate Paired(s: Sessions) {
    forall id :: id in s.hub && id in s.recovery ==>
                   s.hub[id].user == s.recovery[id].user && s.hub[id].wallet == s.recovery[id].wallet
  }

  /** Sessions that stay keep their user and wallet, and none is new. */
  ghost predicate HubKept(hub: map<SessionId, HubSession>, hub': map<SessionId, HubSession>) {
    forall id :: id in hub' ==> id in hub && hub'[id].user == hub[id].user && hub'[id].wallet == hub[id].wallet
  }

  ghost predicate RecoveryKept(c: map<SessionId, PartyC>, c': map<SessionId, PartyC>) {
    forall id :: id in c' ==> id in c && c'[id].user == c[id].user && c'[id].wallet == c[id].wallet
  }

  ghost predicate OwnersKept(s: Sessions, s': Sessions) {
    HubKept(s.hub, s'.hub) && RecoveryKept(s.recovery, s'.recovery)
  }

  lemma KeptStaysPaired(s: Sessions, s': Sessions)
    requires Paired(s) && OwnersKept(s, s')
    ensures Paired(s')
  {
  }

  lemma OwnersKeptTrans(a: Sessions, m: Sessions, c: Sessions)
    requires OwnersKept(a, m) && OwnersKept(m, c)
    ensures OwnersKept(a, c)
  {
  }

  lemma GcKeepsOwners(s: Sessions, now: nat, lost: set<SessionId>)
    ensures OwnersKept(s, GcHub(s, now, lost))
  {
  }

  lemma Round1CKeepsOwners(e: KeygenEngine, c: map<SessionId, PartyC>, at: nat, id: SessionId, msgs: seq<Message>)
    ensures RecoveryKept(c, Round1C(e, c, at, id, msgs).0)
  {
  }

  lemma P2PCKeepsOwners(
    e: KeygenEngine, c: map<SessionId, PartyC>, at: nat, id: SessionId, msgs: seq<Message>, commitments: Option<seq<Commitment>>)
    ensures RecoveryKept(c, P2PC(e, c, at, id, msgs, commitments).0)
  {
  }

  lemma BroadcastCKeepsOwners(e: KeygenEngine, c: map<SessionId, PartyC>, at: nat, id: SessionId, msgs: seq<Message>)
    ensures RecoveryKept(c, BroadcastC(e, c, at, id, msgs).0)
  {
  }

  lemma FinalizeCKeepsOwners(
    e: KeygenEngine, v: Vault, c: map<SessionId, PartyC>, shares: map<WalletId, ShareC>, at: nat, id: SessionId)
    ensures RecoveryKept(c, FinalizeC(e, v, c, shares, at, id).0)
  {
  }

  /** One session of the hub gets a new state, and Recovery serves a call. */
  lemma RoundKeepsOwners(s: Sessions, g: Sessions, s': Sessions, id: SessionId)
    requires OwnersKept(s, g) && RecoveryKept(g.recovery, s'.recovery)
    requires s'.hub == g.hub
             || (id in g.hub && id in s'.hub && s'.hub == g.hub[id := s'.hub[id]]
                 && s'.hub[id].user == g.hub[id].user && s'.hub[id].wallet == g.hub[id].wallet)
    ensures OwnersKept(s, s')
  {
    OwnersKeptTrans(s, g, s');
  }

  lemma Round2KeepsOwners(
    e: KeygenEngine, s: Sessions, call: Call, user: UserId, id: SessionId, msgs: seq<Message>, commitment: Commitment)
    ensures OwnersKept(s, Round2Hub(e, s, call.at, call.lost, user, id, msgs, commitment).0)
  {
    GcKeepsOwners(s, call.at, call.lost);
    var g := GcHub(s, call.at, call.lost);
    if OwnedAt(g, user, id, WAIT_ROUND2) {
      P2PCKeepsOwners(e, g.recovery, call.at, id, msgs + g.hub[id].msg2B + g.hub[id].msg2C, None);
    }
    RoundKeepsOwners(s, g, Round2Hub(e, s, call.at, call.lost, user, id, msgs, commitment).0, id);
  }

  lemma Round3KeepsOwners(e: KeygenEngine, s: Sessions, call: Call, user: UserId, id: SessionId, msgs: seq<Message>)
    ensures OwnersKept(s, Round3Hub(e, s, call.at, call.lost, user, id, msgs).0)
  {
    GcKeepsOwners(s, call.at, call.lost);
    var g := GcHub(s, call.at, call.lost);
    if OwnedAt(g, user, id, WAIT_ROUND3) && g.hub[id].commitmentA.Some? {
      var h := g.hub[id];
      P2PCKeepsOwners(e, g.recovery, call.at, id, msgs + h.msg3B + h.msg3C,
                      Some([h.commitmentA.value, h.commitmentB, h.commitmentC]));
    }
    RoundKeepsOwners(s, g, Round3Hub(e, s, call.at, call.lost, user, id, msgs).0, id);
  }

  lemma Round4KeepsOwners(e: KeygenEngine, s: Sessions, call: Call, user: UserId, id: SessionId, msgs: seq<Message>)
    ensures OwnersKept(s, Round4Hub(e, s, call.at, call.lost, user, id, msgs).0)
  {
    GcKeepsOwners(s, call.at, call.lost);
    var g := GcHub(s, call.at, call.lost);
    if OwnedAt(g, user, id, WAIT_ROUND4) {
      BroadcastCKeepsOwners(e, g.recovery, call.at, id, msgs + g.hub[id].msg4B + g.hub[id].msg4C);
    }
    RoundKeepsOwners(s, g, Round4Hub(e, s, call.at, call.lost, user, id, msgs).0, id);
  }

  lemma CompleteKeepsOwners(
    e: KeygenEngine, v: Vault, s: Sessions, wallets: map<WalletId, Wallet>, shares: map<WalletId, ShareC>, call: Call,
    user: UserId, id: SessionId, inserted: bool)
    ensures OwnersKept(s, CompleteHub(e, v, s, wallets, shares, call.at, call.lost, user, id, inserted).sessions)
  {
    GcKeepsOwners(s, call.at, call.lost);
    var g := GcHub(s, call.at, call.lost);
    FinalizeCKeepsOwners(e, v, g.recovery, shares, call.at, id);
    OwnersKeptTrans(s, g, CompleteHub(e, v, s, wallets, shares, call.at, call.lost, user, id, inserted).sessions);
  }

  /** Recovery's sessions keep their owners, and at most one is new or replaced: this user's, for this wallet. */
  ghost predicate RecoveryOf(c: map<SessionId, PartyC>, c': map<SessionId, PartyC>, id: SessionId, user: UserId, wallet: WalletId) {
    forall x :: x in c' ==>
                  || (x == id && c'[x].user == user && c'[x].wallet == wallet)
                  || (x in c && c'[x].user == c[x].user && c'[x].wallet == c[x].wallet)
  }

  lemma StartCOwners(
    e: KeygenEngine, c: map<SessionId, PartyC>, now: nat, id: SessionId, user: UserId, wallet: WalletId, seed: KeygenState,
    all1: seq<Message>)
    ensures var (c1, m) := StartC(e, c, now, id, user, wallet, seed);
            && RecoveryOf(c, c1, id, user, wallet)
            && (m.Some? ==> id in c1 && c1[id].user == user && c1[id].wallet == wallet
                            && var c2 := Round1C(e, c1, now, id, all1).0;
                               id in c2 && c2[id].user == user && c2[id].wallet == wallet && RecoveryOf(c, c2, id, user, wallet))
  {
  }

  /** A start that goes through opens its session on both sides, for one user and wallet. */
  lemma StartShape(
    e: KeygenEngine, s: Sessions, wallets: map<WalletId, Wallet>, call: Call, user: UserId, msg1A: Message, id: SessionId,
    wallet: WalletId, seedB: KeygenState, seedC: KeygenState)
    ensures var g := GcHub(s, call.at, call.lost);
            var s' := StartHub(e, s, wallets, call.at, call.lost, user, msg1A, id, wallet, seedB, seedC).0;
            && RecoveryOf(g.recovery, s'.recovery, id, user, wallet)
            && (s'.hub == g.hub
                || (id in s'.hub && s'.hub == g.hub[id := s'.hub[id]] && s'.hub[id].user == user && s'.hub[id].wallet == wallet
                    && id in s'.recovery && s'.recovery[id].user == user && s'.recovery[id].wallet == wallet))
  {
    var g := GcHub(s, call.at, call.lost);
    var all1 := [msg1A, e.first(seedB).1, e.first(seedC).1];
    StartCOwners(e, g.recovery, call.at, id, user, wallet, seedC, all1);
  }

  /** A start with a new id keeps the sessions paired. */
  lemma StartKeepsPaired(
    e: KeygenEngine, s: Sessions, wallets: map<WalletId, Wallet>, call: Call, user: UserId, msg1A: Message, id: SessionId,
    wallet: WalletId, seedB: KeygenState, seedC: KeygenState)
    requires Paired(s) && id !in s.hub
    ensures Paired(StartHub(e, s, wallets, call.at, call.lost, user, msg1A, id, wallet, seedB, seedC).0)
  {
    GcKeepsOwners(s, call.at, call.lost);
    KeptStaysPaired(s, GcHub(s, call.at, call.lost));
    StartShape(e, s, wallets, call, user, msg1A, id, wallet, seedB, seedC);
  }

  lemma DkgStepKeepsPaired(e: KeygenEngine, v: Vault, s: Sessions, step: DkgStep)
    requires Paired(s) && DkgEnabled(s, step)
    ensures Paired(DkgNext(e, v, s, step))
  {
    match step
    case HubStarts(wallets, call, user, msg1A, id, wallet, seedB, seedC) =>
      StartKeepsPaired(e, s, wallets, call, user, msg1A, id, wallet, seedB, seedC);
    case RecoveryStarts(at, id, user, wallet, seedC) => StartCOwners(e, s.recovery, at, id, user, wallet, seedC, []);
    case _ =>
      OtherStepKeepsOwners(e, v, s, step);
      KeptStaysPaired(s, DkgNext(e, v, s, step));
  }

  lemma OtherStepKeepsOwners(e: KeygenEngine, v: Vault, s: Sessions, step: DkgStep)
    requires !step.HubStarts? && !step.RecoveryStarts?
    ensures OwnersKept(s, DkgNext(e, v, s, step))
  {
    match step
    case HubRound2(call, user, id, msgs, commitment) => Round2KeepsOwners(e, s, call, user, id, msgs, commitment);
    case HubRound3(call, user, id, msgs) => Round3KeepsOwners(e, s, call, user, id, msgs);
    case HubRound4(call, user, id, msgs) => Round4KeepsOwners(e, s, call, user, id, msgs);
    case HubCompletes(wallets, shares, call, user, id, inserted) =>
      CompleteKeepsOwners(e, v, s, wallets, shares, call, user, id, inserted);
    case RecoveryRound1(at, id, msgs) => Round1CKeepsOwners(e, s.recovery, at, id, msgs);
    case RecoveryP2P(at, id, msgs, commitments) => P2PCKeepsOwners(e, s.recovery, at, id, msgs, commitments);
    case RecoveryBroadcast(at, id, msgs) => BroadcastCKeepsOwners(e, s.recovery, at, id, msgs);
    case RecoveryFinalizes(shares, at, id) => FinalizeCKeepsOwners(e, v, s.recovery, shares, at, id);
    case _ =>
  }

  /** In every run the two sides agree on whose session it is. */
  lemma {:induction false} EveryDkgRunIsPaired(e: KeygenEngine, v: Vault, s: Sessions, steps: seq<DkgStep>)
    requires Paired(s) && DkgAdmissible(e, v, s, steps)
    ensures Paired(DkgRun(e, v, s, steps))
    decreases |steps|
  {
    if steps != [] {
      DkgStepKeepsPaired(e, v, s, steps[0]);
      EveryDkgRunIsPaired(e, v, DkgNext(e, v, s, steps[0]), steps[1..]);
    }
  }

  lemma ReachableIsPaired(e: KeygenEngine, v: Vault, s: Sessions)
    requires DkgReachable(e, v, s)
    ensures Paired(s)
  {
    var steps :| DkgAdmissible(e, v, Sessions(map[], map[]), steps) && DkgRun(e, v, Sessions(map[], map[]), steps) == s;
    EveryDkgRunIsPaired(e, v, Sessions(map[], map[]), steps);
  }

  // ---- Completion ----

  /** A completion changes nothing, stores Share C, or stores Share C and then the wallet row. */
  lemma CompletionShape(
    e: KeygenEngine, v: Vault, s: Sessions, wallets: map<WalletId, Wallet>, shares: map<WalletId, ShareC>, now: nat,
    lost: set<SessionId>, user: UserId, id: SessionId, inserted: bool)
    returns (wallet: WalletId, row: Wallet, publicKeyC: string, sealedC: SealedShare)
    requires DkgReachable(e, v, s)
    ensures row.status == ACTIVE && row.shareB.Some?
    ensures var r := CompleteHub(e, v, s, wallets, shares, now, lost, user, id, inserted);
            || (r.wallets == wallets && r.shares == shares)
            || (Insert(shares, wallet, row.user, publicKeyC, sealedC) == Ok(r.shares)
                && (r.wallets == wallets
                    || (r.wallets == wallets[wallet := row] && wallet !in wallets && Lower(publicKeyC) == Lower(row.publicKey))))
  {
    var g := GcHub(s, now, lost);
    ReachableIsPaired(e, v, s);
    GcKeepsOwners(s, now, lost);
    KeptStaysPaired(s, g);
    wallet, publicKeyC, sealedC := 0, "", *;
    row := Wallet(user, ACTIVE, "", "", Some(sealedC));
    if CompleteHub(e, v, s, wallets, shares, now, lost, user, id, inserted).shares != shares {
      wallet, row := g.hub[id].wallet, NewWallet(e, v, user, e.keyshare(g.hub[id].state).value);
      var kC := e.keyshare(LiveC(g.recovery, now)[id].state).value;
      publicKeyC, sealedC := e.publicKey(kC), v.sealC(kC);
    }
  }

  /**
   * Whatever becomes of a completion, the two tables change as in a run of the whole system: Recovery's insert,
   * and then the wallet's or nothing.
   */
  lemma CompletionIsARun(
    b: Backend, e: KeygenEngine, v: Vault, s: Sessions, w: LastWithdraw.World, now: nat, lost: set<SessionId>, user: UserId,
    id: SessionId, inserted: bool)
    returns (steps: seq<System.Step>)
    requires DkgReachable(e, v, s)
    ensures var r := CompleteHub(e, v, s, w.api.wallets, w.shares, now, lost, user, id, inserted);
            && System.Admissible(b, w, steps)
            && System.Run(b, w, steps).api.wallets == r.wallets
            && System.Run(b, w, steps).shares == r.shares
  {
    var wallet, row, publicKeyC, sealedC := CompletionShape(e, v, s, w.api.wallets, w.shares, now, lost, user, id, inserted);
    var r := CompleteHub(e, v, s, w.api.wallets, w.shares, now, lost, user, id, inserted);
    var finalize := System.DkgFinalize(wallet, row, publicKeyC, sealedC);
    if r.wallets == w.api.wallets && r.shares == w.shares {
      steps := [];
    } else if r.wallets == w.api.wallets {
      steps := [finalize];
      OnlyShareC(b, w, wallet, row, publicKeyC, sealedC);
    } else {
      steps := [finalize, System.DkgCreate(wallet)];
      ShareCAndWallet(b, w, wallet, row, publicKeyC, sealedC);
    }
  }

  lemma OnlyShareC(b: Backend, w: LastWithdraw.World, id: WalletId, row: Wallet, publicKeyC: string, sealedC: SealedShare)
    requires row.status == ACTIVE && row.shareB.Some? && Insert(w.shares, id, row.user, publicKeyC, sealedC).Ok?
    ensures var steps := [System.DkgFinalize(id, row, publicKeyC, sealedC)];
            && System.Admissible(b, w, steps)
            && System.Run(b, w, steps).api.wallets == w.api.wallets
            && Ok(System.Run(b, w, steps).shares) == Insert(w.shares, id, row.user, publicKeyC, sealedC)
  {
    RunOfOne(b, w, System.DkgFinalize(id, row, publicKeyC, sealedC));
  }

  lemma ShareCAndWallet(b: Backend, w: LastWithdraw.World, id: WalletId, row: Wallet, publicKeyC: string, sealedC: SealedShare)
    requires row.status == ACTIVE && row.shareB.Some? && Insert(w.shares, id, row.user, publicKeyC, sealedC).Ok?
    requires id !in w.api.wallets && Lower(publicKeyC) == Lower(row.publicKey)
    ensures var steps := [System.DkgFinalize(id, row, publicKeyC, sealedC), System.DkgCreate(id)];
            && System.Admissible(b, w, steps)
            && System.Run(b, w, steps).api.wallets == w.api.wallets[id := row]
            && Ok(System.Run(b, w, steps).shares) == Insert(w.shares, id, row.user, publicKeyC, sealedC)
  {
    RunOfTwo(b, w, System.DkgFinalize(id, row, publicKeyC, sealedC), System.DkgCreate(id));
  }

  lemma RunOfOne(b: Backend, w: LastWithdraw.World, x: System.Step)
    requires System.Enabled(b, w, x)
    ensures System.Admissible(b, w, [x]) && System.Run(b, w, [x]) == System.Next(b, w, x)
  {
  }

  lemma RunOfTwo(b: Backend, w: LastWithdraw.World, x: System.Step, y: System.Step)
    requires System.Enabled(b, w, x) && System.Enabled(b, System.Next(b, w, x), y)
    ensures System.Admissible(b, w, [x, y])
    ensures System.Run(b, w, [x, y]) == System.Next(b, System.Next(b, w, x), y)
  {
    assert [x, y][1..] == [y];
    RunOfOne(b, System.Next(b, w, x), y);
  }

  // ---- Party A ----

  /** The browser's five calls. */
  datatype DkgCalls = DkgCalls(start: Call, round2: Call, round3: Call, round4: Call, complete: Call)

  /** The call comes after the lifetime of a session started then. */
  predicate Late(start: nat, call: Call) {
    call.at > start + 900_000
  }

  predicate InTime(calls: DkgCalls) {
    && !Late(calls.start.at, calls.round2) && !Late(calls.start.at, calls.round3)
    && !Late(calls.start.at, calls.round4) && !Late(calls.start.at, calls.complete)
  }

  /** Both sides hold the session, and it is not older than `start`. */
  predicate Open(s: Sessions, id: SessionId, h: HubSession, c: PartyC, start: nat) {
    && id in s.hub && s.hub[id] == h && id in s.recovery && s.recovery[id] == c
    && h.createdAt == start && c.createdAt == start && h.user == c.user && h.wallet == c.wallet
  }

  /** A session both sides hold survives their expiry in time, and a late call drops it. */
  lemma GcKeepsOpen(s: Sessions, call: Call, id: SessionId, h: HubSession, c: PartyC, start: nat)
    requires Open(s, id, h, c, start)
    ensures var g := GcHub(s, call.at, call.lost);
            if Late(start, call) then id !in g.hub
            else Open(g, id, h, c, start) && id in LiveC(g.recovery, call.at) && LiveC(g.recovery, call.at)[id] == c
  {
  }

  /** Whoever's the session is, if it is still there. */
  predicate StillOwned(s: Sessions, user: UserId, id: SessionId) {
    id in s.hub ==> s.hub[id].user == user
  }

  /** Round 4 on an open session is the relayed run's last round for B and C. */
  method RelayRound4(
    svc: DkgOrchestratorService, user: UserId, id: SessionId, calls: DkgCalls, a4: KeygenState, msg4A: seq<Message>,
    ghost h: HubSession, ghost c: PartyC)
    returns (a5: Option<KeygenState>)
    requires Open(svc.State(), id, h, c, calls.start.at) && h.user == user && h.step == WAIT_ROUND4
    requires svc.recovery.engine == svc.engine
    modifies svc, svc.recovery
    ensures StillOwned(svc.State(), user, id)
    ensures var t := RelayFromRound4(svc.engine, Trio(a4, h.state, c.state), msg4A + h.msg4B + h.msg4C);
            if t.None? || Late(calls.start.at, calls.round4) then a5.None?
            else a5 == Some(t.value.a)
                 && Open(svc.State(), id, h.(state := t.value.b, step := WAIT_FINAL), c.(state := t.value.c), calls.start.at)
  {
    GcKeepsOpen(svc.State(), calls.round4, id, h, c, calls.start.at);
    var forA := svc.Round4(user, id, msg4A, calls.round4.at, calls.round4.lost);
    if forA.None? {
      return None;
    }
    var handled := svc.engine.handle(a4, FilterMessages(forA.value, PARTY_A), None);
    a5 := if handled.Some? then Some(handled.value.0) else None;
  }

  method RelayRound3(
    svc: DkgOrchestratorService, user: UserId, id: SessionId, calls: DkgCalls, a3: KeygenState, msg3A: seq<Message>,
    ghost h: HubSession, ghost c: PartyC)
    returns (a5: Option<KeygenState>)
    requires Open(svc.State(), id, h, c, calls.start.at) && h.user == user && h.step == WAIT_ROUND3
    requires svc.recovery.engine == svc.engine && h.commitmentA.Some?
    modifies svc, svc.recovery
    ensures StillOwned(svc.State(), user, id)
    ensures var t := RelayFromRound3(svc.engine, Trio(a3, h.state, c.state), msg3A + h.msg3B + h.msg3C,
                                     [h.commitmentA.value, h.commitmentB, h.commitmentC]);
            if t.None? || Late(calls.start.at, calls.round3) || Late(calls.start.at, calls.round4) then a5.None?
            else a5 == Some(t.value.a) && Finished(svc.State(), user, id, h.wallet, t.value, calls.start.at)
  {
    GcKeepsOpen(svc.State(), calls.round3, id, h, c, calls.start.at);
    var answer := svc.Round3(user, id, msg3A, calls.round3.at, calls.round3.lost);
    if answer.None? {
      return None;
    }
    var (forA, commitments) := answer.value;
    var handled := svc.engine.handle(a3, forA, Some(commitments));
    if handled.None? {
      return None;
    }
    var (a4, msg4A) := handled.value;
    a5 := RelayRound4(svc, user, id, calls, a4, msg4A, svc.sessions[id], svc.recovery.sessions[id]);
  }

  /** Both sides wait for completion in these states. */
  predicate Finished(s: Sessions, user: UserId, id: SessionId, wallet: WalletId, t: Trio, start: nat) {
    && id in s.hub && id in s.recovery
    && Open(s, id, s.hub[id], s.recovery[id], start)
    && s.hub[id].step == WAIT_FINAL && s.hub[id].user == user && s.hub[id].wallet == wallet
    && s.hub[id].state == t.b && s.recovery[id].state == t.c
  }

  method RelayRound2(
    svc: DkgOrchestratorService, user: UserId, id: SessionId, calls: DkgCalls, a2: KeygenState, msg2A: seq<Message>,
    ghost h: HubSession, ghost c: PartyC)
    returns (a5: Option<KeygenState>)
    requires Open(svc.State(), id, h, c, calls.start.at) && h.user == user && h.step == WAIT_ROUND2
    requires svc.recovery.engine == svc.engine
    modifies svc, svc.recovery
    ensures StillOwned(svc.State(), user, id)
    ensures var t := RelayFromRound2(svc.engine, Trio(a2, h.state, c.state), msg2A + h.msg2B + h.msg2C,
                                     [svc.engine.commit(a2), h.commitmentB, h.commitmentC]);
            if t.None? || Late(calls.start.at, calls.round2) || Late(calls.start.at, calls.round3) || Late(calls.start.at, calls.round4)
            then a5.None?
            else a5 == Some(t.value.a) && Finished(svc.State(), user, id, h.wallet, t.value, calls.start.at)
  {
    GcKeepsOpen(svc.State(), calls.round2, id, h, c, calls.start.at);
    var forA := svc.Round2(user, id, msg2A, svc.engine.commit(a2), calls.round2.at, calls.round2.lost);
    if forA.None? {
      return None;
    }
    var handled := svc.engine.handle(a2, forA.value, None);
    if handled.None? {
      return None;
    }
    var (a3, msg3A) := handled.value;
    a5 := RelayRound3(svc, user, id, calls, a3, msg3A, svc.sessions[id], svc.recovery.sessions[id]);
  }

  /** All four rounds. Party A's final state, None exactly when the user has a live wallet, a step throws or a call is late. */
  method RelayRoundsAsA(
    svc: DkgOrchestratorService, user: UserId, id: SessionId, wallet: WalletId, seedA: KeygenState, seedB: KeygenState,
    seedC: KeygenState, calls: DkgCalls)
    returns (a5: Option<KeygenState>)
    requires id !in svc.sessions && id !in svc.recovery.sessions && svc.recovery.engine == svc.engine
    requires svc.engine.first(seedA).1.from == PARTY_A
    modifies svc, svc.recovery
    ensures StillOwned(svc.State(), user, id)
    ensures var t := RelayRounds(svc.engine, seedA, seedB, seedC);
            if t.None? || HasLiveWallet(svc.db.wallets, user) || Late(calls.start.at, calls.round2)
               || Late(calls.start.at, calls.round3) || Late(calls.start.at, calls.round4)
            then a5.None?
            else a5 == Some(t.value.a) && Finished(svc.State(), user, id, wallet, t.value, calls.start.at)
  {
    var (a1, msg1A) := svc.engine.first(seedA);
    var peers := svc.Start(user, msg1A, id, wallet, seedB, seedC, calls.start.at, calls.start.lost);
    if peers.None? {
      return None;
    }
    var handled := svc.engine.handle(a1, FilterMessages(peers.value, PARTY_A), None);
    if handled.None? {
      return None;
    }
    var (a2, msg2A) := handled.value;
    a5 := RelayRound2(svc, user, id, calls, a2, msg2A, svc.sessions[id], svc.recovery.sessions[id]);
  }

  /** A wallet of the user that is not retired. */
  predicate OwnsLiveWallet(wallets: map<WalletId, Wallet>, user: UserId) {
    exists w :: w in wallets && wallets[w].user == user && wallets[w].status in {ACTIVE, RECOVERY_PENDING, RETIRING}
  }

  /** The hub looks for exactly that. */
  lemma LiveIsNotRetired(wallets: map<WalletId, Wallet>, user: UserId)
    ensures HasLiveWallet(wallets, user) <==> OwnsLiveWallet(wallets, user)
  {
    if HasLiveWallet(wallets, user) {
      var w :| w in wallets && wallets[w].user == user && wallets[w].status != RETIRED;
      assert wallets[w].status in {ACTIVE, RECOVERY_PENDING, RETIRING};
    }
  }

  /** When the hub's completion goes through for party A's run. */
  predicate Completes(
    e: KeygenEngine, wallets: map<WalletId, Wallet>, shares: map<WalletId, ShareC>, user: UserId, wallet: WalletId,
    kB: Keyshare, kC: Keyshare, inserted: bool)
  {
    && !OwnsLiveWallet(wallets, user)
    && wallet !in shares && wallet !in wallets && inserted
    && Lower(e.publicKey(kC)) == Lower(e.publicKey(kB))
  }

  lemma FinishedCompletes(
    e: KeygenEngine, v: Vault, s: Sessions, wallets: map<WalletId, Wallet>, shares: map<WalletId, ShareC>, call: Call,
    user: UserId, id: SessionId, wallet: WalletId, t: Trio, start: nat, inserted: bool)
    requires Finished(s, user, id, wallet, t, start)
    ensures var r := CompleteHub(e, v, s, wallets, shares, call.at, call.lost, user, id, inserted);
            var kB, kC := e.keyshare(t.b), e.keyshare(t.c);
            if !Late(start, call) && kB.Some? && kC.Some?
               && Completes(e, wallets, shares, user, wallet, kB.value, kC.value, inserted)
            then
              var key := e.publicKey(kB.value);
              var row := Wallet(user, ACTIVE, v.address(key), key, Some(v.sealB(kB.value)));
              && r.wallet == Some(row)
              && r.wallets == wallets[wallet := row]
              && r.shares == shares[wallet := ShareC(user, e.publicKey(kC.value), Some(v.sealC(kC.value)), SHARE_ACTIVE)]
            else r.wallet.None? && r.wallets == wallets
  {
    GcKeepsOpen(s, call, id, s.hub[id], s.recovery[id], start);
    LiveIsNotRetired(wallets, user);
  }

  /**
   * Key generation as the browser drives it. It succeeds exactly when the in-process run of the three parties gives
   * three keyshares, every call comes within the sessions' lifetime and the completion goes through; A then holds the
   * first of them, the wallet row the second and Recovery the third, and otherwise no wallet row is written.
   */
  method CreateMpcWalletViaDkg(
    svc: DkgOrchestratorService, user: UserId, id: SessionId, wallet: WalletId, seedA: KeygenState, seedB: KeygenState,
    seedC: KeygenState, calls: DkgCalls, inserted: bool)
    returns (shareA: Option<Keyshare>)
    requires id !in svc.sessions && id !in svc.recovery.sessions
    requires svc.recovery.engine == svc.engine && svc.recovery.vault == svc.vault
    requires svc.engine.first(seedA).1.from == PARTY_A
    modifies svc, svc.recovery, svc.recovery.shares, svc.db`wallets
    ensures var e, run := svc.engine, RunInProcessDkg(svc.engine, [seedA, seedB, seedC]);
            if run.Some? && InTime(calls) && Completes(e, old(svc.db.wallets), old(svc.recovery.shares.shares), user, wallet,
                                      run.value[1], run.value[2], inserted) then
              var key := e.publicKey(run.value[1]);
              && shareA == Some(run.value[0])
              && svc.db.wallets
                 == old(svc.db.wallets)[wallet := Wallet(user, ACTIVE, svc.vault.address(key), key, Some(svc.vault.sealB(run.value[1])))]
              && var shareC := ShareC(user, e.publicKey(run.value[2]), Some(svc.vault.sealC(run.value[2])), SHARE_ACTIVE);
                 svc.recovery.shares.shares == old(svc.recovery.shares.shares)[wallet := shareC]
            else shareA.None? && svc.db.wallets == old(svc.db.wallets)
  {
    RelayedRunHasKeyshares(svc.engine, seedA, seedB, seedC);
    LiveIsNotRetired(svc.db.wallets, user);
    var a5 := RelayRoundsAsA(svc, user, id, wallet, seedA, seedB, seedC, calls);
    if a5.None? {
      svc.Abort(user, id);
      return None;
    }
    shareA := svc.engine.keyshare(a5.value);
    if shareA.None? {
      svc.Abort(user, id);
      return None;
    }
    FinishedCompletes(svc.engine, svc.vault, svc.State(), svc.db.wallets, svc.recovery.shares.shares, calls.complete, user, id, wallet,
                      RelayRounds(svc.engine, seedA, seedB, seedC).value, calls.start.at, inserted);
    var completed := svc.Complete(user, id, calls.complete.at, calls.complete.lost, inserted);
    if completed.None? {
      svc.Abort(user, id);
      return None;
    }
  }

  /** The in-process run gives keyshares exactly when the relayed states do, and the same ones. */
  lemma RelayedRunHasKeyshares(e: KeygenEngine, a: KeygenState, b: KeygenState, c: KeygenState)
    requires e.first(a).1.from == PARTY_A
    ensures var run, t := RunInProcessDkg(e, [a, b, c]), RelayRounds(e, a, b, c);
            && (run.Some? <==> t.Some? && e.keyshare(t.value.a).Some? && e.keyshare(t.value.b).Some? && e.keyshare(t.value.c).Some?)
            && (run.Some? ==>
                  |run.value| == 3 && run.value[0] == e.keyshare(t.value.a).value && run.value[1] == e.keyshare(t.value.b).value
                  && run.value[2] == e.keyshare(t.value.c).value)
  {
    RelayRefinesInProcess(e, a, b, c);
    if RelayRounds(e, a, b, c).Some? {
      var t := RelayRounds(e, a, b, c).value;
      var done := [t.a, t.b, t.c];
      assert RunRounds(e, [a, b, c]) == Some(done);
      assert (forall i :: 0 <= i < 3 ==> e.keyshare(done[i]).Some?) <==>
             e.keyshare(done[0]).Some? && e.keyshare(done[1]).Some? && e.keyshare(done[2]).Some?;
    }
  }
}
