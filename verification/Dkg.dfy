/**
 * Distributed key generation across three programs: the hub with party B
 * (apps/api/src/mpc/dkg-orchestrator.service.ts), party C on Recovery (apps/recovery/src/dkg/dkg.service.ts),
 * and the state both keep in memory.
 */
module Dkg {
  import opened Types
  import opened Routing
  import opened Text
  import opened DkgReference
  import opened Withdraws
  import opened Shares
  import opened SignOrchestrator

  const DKG_TTL_MS: nat := 900_000

  datatype HubStep = WAIT_ROUND2 | WAIT_ROUND3 | WAIT_ROUND4 | WAIT_FINAL

  /** A session of the hub: party B's state, and what B and C have sent so far. */
  datatype HubSession = HubSession(
    user: UserId, wallet: WalletId, state: KeygenState, msg2B: seq<Message>, msg2C: seq<Message>,
    commitmentA: Option<Commitment>, commitmentB: Commitment, commitmentC: Commitment,
    msg3B: seq<Message>, msg3C: seq<Message>, msg4B: seq<Message>, msg4C: seq<Message>, step: HubStep, createdAt: nat)

  /** A session of Recovery: party C's state. */
  datatype PartyC = PartyC(user: UserId, wallet: WalletId, state: KeygenState, commitment: Option<Commitment>, createdAt: nat)

  datatype Sessions = Sessions(hub: map<SessionId, HubSession>, recovery: map<SessionId, PartyC>)

  // ---- Recovery ----

  function LiveC(c: map<SessionId, PartyC>, now: nat): map<SessionId, PartyC> {
    map id | id in c && now <= c[id].createdAt + DKG_TTL_MS :: c[id]
  }

  function StartC(e: KeygenEngine, c0: map<SessionId, PartyC>, now: nat, id: SessionId, user: UserId, wallet: WalletId, seed: KeygenState)
    : (map<SessionId, PartyC>, Option<Message>)
  {
    var c := LiveC(c0, now);
    if id in c then (c, None)
    else
      var (s, m) := e.first(seed);
      (c[id := PartyC(user, wallet, s, None, now)], Some(m))
  }

  function Round1C(e: KeygenEngine, c0: map<SessionId, PartyC>, now: nat, id: SessionId, all1: seq<Message>)
    : (map<SessionId, PartyC>, Option<(seq<Message>, Commitment)>)
  {
    var c := LiveC(c0, now);
    if id !in c then (c, None)
    else
      match e.handle(c[id].state, FilterMessages(all1, PARTY_C), None)
      case None => (c, None)
      case Some((s, out)) => (c[id := c[id].(state := s, commitment := Some(e.commit(s)))], Some((out, e.commit(s))))
  }

  /** Rounds two and three: messages addressed to C, with the commitment list in round three. */
  function P2PC(
    e: KeygenEngine, c0: map<SessionId, PartyC>, now: nat, id: SessionId, incoming: seq<Message>,
    commitments: Option<seq<Commitment>>)
    : (map<SessionId, PartyC>, Option<seq<Message>>)
  {
    var c := LiveC(c0, now);
    if id !in c then (c, None)
    else
      match e.handle(c[id].state, SelectMessages(incoming, PARTY_C), commitments)
      case None => (c, None)
      case Some((s, out)) => (c[id := c[id].(state := s)], Some(out))
  }

  function BroadcastC(e: KeygenEngine, c0: map<SessionId, PartyC>, now: nat, id: SessionId, incoming: seq<Message>)
    : (map<SessionId, PartyC>, bool)
  {
    var c := LiveC(c0, now);
    if id !in c then (c, false)
    else
      match e.handle(c[id].state, FilterMessages(incoming, PARTY_C), None)
      case None => (c, false)
      case Some((s, _)) => (c[id := c[id].(state := s)], true)
  }

  // ---- The hub ----

  function ExpiredHub(hub: map<SessionId, HubSession>, now: nat): set<SessionId> {
    set id | id in hub && now > hub[id].createdAt + DKG_TTL_MS
  }

  /** Expired sessions go; Recovery is told to abort them, and never hears of those in `lost`. */
  function GcHub(s: Sessions, now: nat, lost: set<SessionId>): Sessions {
    var dead := ExpiredHub(s.hub, now);
    Sessions(s.hub - dead, s.recovery - (dead - lost))
  }

  predicate OwnedAt(s: Sessions, user: UserId, id: SessionId, step: HubStep) {
    id in s.hub && s.hub[id].user == user && s.hub[id].step == step
  }

  predicate HasLiveWallet(wallets: map<WalletId, Wallet>, user: UserId) {
    exists w :: w in wallets && wallets[w].user == user && wallets[w].status != RETIRED
  }

  /** A user without a live wallet starts; what the hub stores once B and C have answered round one. */
  function StartHub(
    e: KeygenEngine, s0: Sessions, wallets: map<WalletId, Wallet>, now: nat, lost: set<SessionId>, user: UserId, msg1A: Message,
    id: SessionId, wallet: WalletId, seedB: KeygenState, seedC: KeygenState)
    : (Sessions, Option<seq<Message>>)
  {
    var s := GcHub(s0, now, lost);
    if HasLiveWallet(wallets, user) || msg1A.from != PARTY_A then (s, None)
    else
      var (b1, msg1B) := e.first(seedB);
      match StartC(e, s.recovery, now, id, user, wallet, seedC)
      case (c, None) => (s.(recovery := c), None)
      case (c, Some(msg1C)) =>
        var all1 := [msg1A, msg1B, msg1C];
        match e.handle(b1, FilterMessages(all1, PARTY_B), None)
        case None => (s.(recovery := c), None)
        case Some((b2, msg2B)) =>
          match Round1C(e, c, now, id, all1)
          case (c', None) => (s.(recovery := c'), None)
          case (c', Some((msg2C, commitmentC))) =>
            (Sessions(s.hub[id := HubSession(user, wallet, b2, msg2B, msg2C, None, e.commit(b2), commitmentC, [], [], [], [],
                                             WAIT_ROUND2, now)], c'),
             Some([msg1B, msg1C]))
  }

  /** B's new state is stored before Recovery is asked, and stays when Recovery fails. */
  function Round2Hub(
    e: KeygenEngine, s0: Sessions, now: nat, lost: set<SessionId>, user: UserId, id: SessionId, msg2A: seq<Message>,
    commitmentA: Commitment)
    : (Sessions, Option<seq<Message>>)
  {
    var s := GcHub(s0, now, lost);
    if !OwnedAt(s, user, id, WAIT_ROUND2) then (s, None)
    else
      var h := s.hub[id].(commitmentA := Some(commitmentA));
      var all2 := msg2A + h.msg2B + h.msg2C;
      match e.handle(h.state, SelectMessages(all2, PARTY_B), None)
      case None => (s.(hub := s.hub[id := h]), None)
      case Some((b3, msg3B)) =>
        var h' := h.(state := b3, msg3B := msg3B);
        match P2PC(e, s.recovery, now, id, all2, None)
        case (c, None) => (Sessions(s.hub[id := h'], c), None)
        case (c, Some(msg3C)) =>
          (Sessions(s.hub[id := h'.(msg3C := msg3C, step := WAIT_ROUND3)], c), Some(SelectMessages(all2, PARTY_A)))
  }

  function Round3Hub(
    e: KeygenEngine, s0: Sessions, now: nat, lost: set<SessionId>, user: UserId, id: SessionId, msg3A: seq<Message>)
    : (Sessions, Option<(seq<Message>, seq<Commitment>)>)
  {
    var s := GcHub(s0, now, lost);
    if !OwnedAt(s, user, id, WAIT_ROUND3) || s.hub[id].commitmentA.None? then (s, None)
    else
      var h := s.hub[id];
      var commitments := [h.commitmentA.value, h.commitmentB, h.commitmentC];
      var all3 := msg3A + h.msg3B + h.msg3C;
      match e.handle(h.state, SelectMessages(all3, PARTY_B), Some(commitments))
      case None => (s, None)
      case Some((b4, msg4B)) =>
        var h' := h.(state := b4, msg4B := msg4B);
        match P2PC(e, s.recovery, now, id, all3, Some(commitments))
        case (c, None) => (Sessions(s.hub[id := h'], c), None)
        case (c, Some(msg4C)) =>
          (Sessions(s.hub[id := h'.(msg4C := msg4C, step := WAIT_ROUND4)], c),
           Some((SelectMessages(all3, PARTY_A), commitments)))
  }

  function Round4Hub(
    e: KeygenEngine, s0: Sessions, now: nat, lost: set<SessionId>, user: UserId, id: SessionId, msg4A: seq<Message>)
    : (Sessions, Option<seq<Message>>)
  {
    var s := GcHub(s0, now, lost);
    if !OwnedAt(s, user, id, WAIT_ROUND4) then (s, None)
    else
      var h := s.hub[id];
      var all4 := msg4A + h.msg4B + h.msg4C;
      match e.handle(h.state, FilterMessages(all4, PARTY_B), None)
      case None => (s, None)
      case Some((b5, _)) =>
        var h' := h.(state := b5);
        match BroadcastC(e, s.recovery, now, id, all4)
        case (c, false) => (Sessions(s.hub[id := h'], c), None)
        case (c, true) => (Sessions(s.hub[id := h'.(step := WAIT_FINAL)], c), Some(FilterMessages(all4, PARTY_A)))
  }

  // ---- Completion ----

  /** The foreign conversions of a finished keyshare: encryption at rest and the address of a public key. */
  datatype Vault = Vault(sealB: Keyshare -> SealedShare, sealC: Keyshare -> SealedShare, address: string -> Address)

  /** Recovery stores Share C once, and forgets the session only when that worked. */
  function FinalizeC(
    e: KeygenEngine, v: Vault, c0: map<SessionId, PartyC>, shares: map<WalletId, ShareC>, now: nat, id: SessionId)
    : (map<SessionId, PartyC>, map<WalletId, ShareC>, Option<string>)
  {
    var c := LiveC(c0, now);
    if id !in c then (c, shares, None)
    else
      match e.keyshare(c[id].state)
      case None => (c, shares, None)
      case Some(k) =>
        match Insert(shares, c[id].wallet, c[id].user, e.publicKey(k), v.sealC(k))
        case Err(_) => (c, shares, None)
        case Ok(after) => (c - {id}, after, Some(e.publicKey(k)))
  }

  datatype Completed = Completed(
    sessions: Sessions, wallets: map<WalletId, Wallet>, shares: map<WalletId, ShareC>, wallet: Option<Wallet>)

  function NewWallet(e: KeygenEngine, v: Vault, user: UserId, share: Keyshare): Wallet {
    Wallet(user, ACTIVE, v.address(e.publicKey(share)), e.publicKey(share), Some(v.sealB(share)))
  }

  /** Share C first, then the key comparison, then the wallet row; the session goes only when all of it worked. */
  function CompleteHub(
    e: KeygenEngine, v: Vault, s0: Sessions, wallets: map<WalletId, Wallet>, shares: map<WalletId, ShareC>, now: nat,
    lost: set<SessionId>, user: UserId, id: SessionId, inserted: bool)
    : Completed
  {
    var s := GcHub(s0, now, lost);
    if !OwnedAt(s, user, id, WAIT_FINAL) || HasLiveWallet(wallets, user) then Completed(s, wallets, shares, None)
    else
      var h := s.hub[id];
      match e.keyshare(h.state)
      case None => Completed(s, wallets, shares, None)
      case Some(k) =>
        match FinalizeC(e, v, s.recovery, shares, now, id)
        case (c, after, None) => Completed(s.(recovery := c), wallets, after, None)
        case (c, after, Some(publicKeyC)) =>
          if Lower(publicKeyC) != Lower(e.publicKey(k)) then Completed(s.(recovery := c - {id}), wallets, after, None)
          else if !inserted || h.wallet in wallets then Completed(s.(recovery := c), wallets, after, None)
          else
            var row := NewWallet(e, v, user, k);
            Completed(Sessions(s.hub - {id}, c), wallets[h.wallet := row], after, Some(row))
  }

  // ---- Turns and lifetimes ----

  /** A session of the caller's, not older than fifteen minutes, that waits for this step. */
  predicate InTurn(s: Sessions, now: nat, user: UserId, id: SessionId, step: HubStep) {
    id in s.hub && now <= s.hub[id].createdAt + 900_000 && s.hub[id].user == user && s.hub[id].step == step
  }

  /** Only sessions older than fifteen minutes have gone, on the hub and, unless that call is lost, on Recovery. */
  ghost predicate OnlyOldGone(s: Sessions, s': Sessions, now: nat, lost: set<SessionId>) {
    && (forall id :: id in s'.hub <==> id in s.hub && now <= s.hub[id].createdAt + 900_000)
    && (forall id :: id in s'.hub ==> s'.hub[id] == s.hub[id])
    && (forall id :: id in s'.recovery <==>
          id in s.recovery && !(id in s.hub && now > s.hub[id].createdAt + 900_000 && id !in lost))
    && (forall id :: id in s'.recovery ==> s'.recovery[id] == s.recovery[id])
  }

  lemma HubExpiryMeans(s: Sessions, now: nat, lost: set<SessionId>)
    ensures OnlyOldGone(s, GcHub(s, now, lost), now, lost)
  {
  }

  /**
   * The hub starts only for a user whose wallets are all retired, on a first message of party A and a session id new to
   * Recovery; both sides then hold the session of that user and wallet. A refusal opens nothing on the hub.
   */
  lemma StartInTurn(
    e: KeygenEngine, s: Sessions, wallets: map<WalletId, Wallet>, now: nat, lost: set<SessionId>, user: UserId, msg1A: Message,
    id: SessionId, wallet: WalletId, seedB: KeygenState, seedC: KeygenState)
    ensures var (s', r) := StartHub(e, s, wallets, now, lost, user, msg1A, id, wallet, seedB, seedC);
            && (r.Some? ==>
                  && msg1A.from == 0 && (forall w :: w in wallets && wallets[w].user == user ==> wallets[w].status == RETIRED)
                  && (id in s.recovery ==>
                        || now > s.recovery[id].createdAt + 900_000
                        || (id in s.hub && now > s.hub[id].createdAt + 900_000 && id !in lost))
                  && id in s'.hub && s'.hub[id].user == user && s'.hub[id].wallet == wallet && s'.hub[id].step == WAIT_ROUND2
                  && s'.hub[id].createdAt == now && s'.hub[id].commitmentA.None?
                  && id in s'.recovery && s'.recovery[id].user == user && s'.recovery[id].wallet == wallet
                  && s'.recovery[id].createdAt == now)
            && (r.None? ==>
                  && (forall x :: x in s'.hub <==> x in s.hub && now <= s.hub[x].createdAt + 900_000)
                  && (forall x :: x in s'.hub ==> s'.hub[x] == s.hub[x]))
  {
    HubExpiryMeans(s, now, lost);
  }

  /** Each later call of the hub is answered only in its turn, and then waits for the next; out of turn nothing happens. */
  lemma Round2InTurn(
    e: KeygenEngine, s: Sessions, now: nat, lost: set<SessionId>, user: UserId, id: SessionId, msgs: seq<Message>, commitmentA: Commitment)
    ensures var (s', r) := Round2Hub(e, s, now, lost, user, id, msgs, commitmentA);
            && (!InTurn(s, now, user, id, WAIT_ROUND2) ==> r.None? && OnlyOldGone(s, s', now, lost))
            && (r.Some? ==> id in s'.hub && s'.hub[id].step == WAIT_ROUND3 && s'.hub[id].commitmentA == Some(commitmentA))
  {
    HubExpiryMeans(s, now, lost);
  }

  lemma Round3InTurn(e: KeygenEngine, s: Sessions, now: nat, lost: set<SessionId>, user: UserId, id: SessionId, msgs: seq<Message>)
    ensures var (s', r) := Round3Hub(e, s, now, lost, user, id, msgs);
            && (!InTurn(s, now, user, id, WAIT_ROUND3) ==> r.None? && OnlyOldGone(s, s', now, lost))
            && (r.Some? ==>
                  && id in s'.hub && s'.hub[id].step == WAIT_ROUND4
                  && s.hub[id].commitmentA == Some(r.value.1[0]) && r.value.1[1..] == [s.hub[id].commitmentB, s.hub[id].commitmentC])
  {
    HubExpiryMeans(s, now, lost);
  }

  lemma Round4InTurn(e: KeygenEngine, s: Sessions, now: nat, lost: set<SessionId>, user: UserId, id: SessionId, msgs: seq<Message>)
    ensures var (s', r) := Round4Hub(e, s, now, lost, user, id, msgs);
            && (!InTurn(s, now, user, id, WAIT_ROUND4) ==> r.None? && OnlyOldGone(s, s', now, lost))
            && (r.Some? ==> id in s'.hub && s'.hub[id].step == WAIT_FINAL)
  {
    HubExpiryMeans(s, now, lost);
  }

  lemma CompleteInTurn(
    e: KeygenEngine, v: Vault, s: Sessions, wallets: map<WalletId, Wallet>, shares: map<WalletId, ShareC>, now: nat,
    lost: set<SessionId>, user: UserId, id: SessionId, inserted: bool)
    ensures var done := CompleteHub(e, v, s, wallets, shares, now, lost, user, id, inserted);
            && (!InTurn(s, now, user, id, WAIT_FINAL) ==>
                  && done.wallet.None? && OnlyOldGone(s, done.sessions, now, lost)
                  && done.wallets == wallets && done.shares == shares)
            && (done.wallet.Some? ==> id !in done.sessions.hub && id !in done.sessions.recovery)
  {
    HubExpiryMeans(s, now, lost);
  }

  /** Party C's sessions after a call: old ones are gone, and others than the called one as they were. */
  ghost predicate OthersOfC(c: map<SessionId, PartyC>, c': map<SessionId, PartyC>, now: nat, id: SessionId) {
    && (forall x :: x != id ==> (x in c' <==> x in c && now <= c[x].createdAt + 900_000))
    && (forall x :: x != id && x in c' ==> c'[x] == c[x])
  }

  /** Party C answers only for a session it holds and that is not too old, and moves no other one. */
  lemma PartyCInTurn(
    e: KeygenEngine, v: Vault, c: map<SessionId, PartyC>, shares: map<WalletId, ShareC>, now: nat, id: SessionId, msgs: seq<Message>,
    commitments: Option<seq<Commitment>>)
    ensures var r1, r2, r4 := Round1C(e, c, now, id, msgs), P2PC(e, c, now, id, msgs, commitments), BroadcastC(e, c, now, id, msgs);
            var done := FinalizeC(e, v, c, shares, now, id);
            && OthersOfC(c, r1.0, now, id) && OthersOfC(c, r2.0, now, id) && OthersOfC(c, r4.0, now, id) && OthersOfC(c, done.0, now, id)
            && (!(id in c && now <= c[id].createdAt + 900_000) ==>
                  && r1.1.None? && r2.1.None? && !r4.1 && done.2.None? && done.1 == shares
                  && id !in r1.0 && id !in r2.0 && id !in r4.0 && id !in done.0)
            && (done.2.Some? ==> id !in done.0 && c[id].wallet !in shares)
  {
  }

  // ---- The objects ----

  class DkgService {
    const engine: KeygenEngine
    const vault: Vault
    const shares: SharesService
    var sessions: map<SessionId, PartyC>

    constructor (engine: KeygenEngine, vault: Vault, shares: SharesService)
      ensures this.engine == engine && this.vault == vault && this.shares == shares && sessions == map[]
    {
      this.engine, this.vault, this.shares := engine, vault, shares;
      sessions := map[];
    }

    method Finalize(now: nat, id: SessionId) returns (publicKey: Option<string>)
      modifies this, shares
      ensures (sessions, shares.shares, publicKey) == FinalizeC(engine, vault, old(sessions), old(shares.shares), now, id)
    {
      Gc(now);
      if id !in sessions {
        return None;
      }
      var c := sessions[id];
      var share := engine.keyshare(c.state);
      if share.None? {
        return None;
      }
      var refused := shares.CreateShareC(c.wallet, c.user, engine.publicKey(share.value), vault.sealC(share.value));
      if refused.Some? {
        return None;
      }
      sessions := sessions - {id};
      publicKey := Some(engine.publicKey(share.value));
    }

    method Gc(now: nat)
      modifies this
      ensures sessions == LiveC(old(sessions), now)
    {
      var todo := sessions.Keys;
      while todo != {}
        invariant todo <= old(sessions).Keys
        invariant forall id :: id in sessions <==>
                    id in old(sessions) && (id in todo || now <= old(sessions)[id].createdAt + DKG_TTL_MS)
        invariant forall id :: id in sessions ==> sessions[id] == old(sessions)[id]
        decreases |todo|
      {
        var id :| id in todo;
        todo := todo - {id};
        if now > sessions[id].createdAt + DKG_TTL_MS {
          sessions := sessions - {id};
        }
      }
    }

    method Start(now: nat, id: SessionId, user: UserId, wallet: WalletId, seed: KeygenState) returns (m: Option<Message>)
      modifies this
      ensures (sessions, m) == StartC(engine, old(sessions), now, id, user, wallet, seed)
    {
      Gc(now);
      if id in sessions {
        return None;
      }
      var (s, msg1) := engine.first(seed);
      sessions := sessions[id := PartyC(user, wallet, s, None, now)];
      m := Some(msg1);
    }

    method HandleRound1(now: nat, id: SessionId, all1: seq<Message>) returns (r: Option<(seq<Message>, Commitment)>)
      modifies this
      ensures (sessions, r) == Round1C(engine, old(sessions), now, id, all1)
    {
      Gc(now);
      if id !in sessions {
        return None;
      }
      var handled := engine.handle(sessions[id].state, FilterMessages(all1, PARTY_C), None);
      if handled.None? {
        return None;
      }
      var (s, out) := handled.value;
      var commitment := engine.commit(s);
      sessions := sessions[id := sessions[id].(state := s, commitment := Some(commitment))];
      r := Some((out, commitment));
    }

    method HandleP2P(now: nat, id: SessionId, incoming: seq<Message>, commitments: Option<seq<Commitment>>)
      returns (r: Option<seq<Message>>)
      modifies this
      ensures (sessions, r) == P2PC(engine, old(sessions), now, id, incoming, commitments)
    {
      Gc(now);
      if id !in sessions {
        return None;
      }
      var handled := engine.handle(sessions[id].state, SelectMessages(incoming, PARTY_C), commitments);
      if handled.None? {
        return None;
      }
      sessions := sessions[id := sessions[id].(state := handled.value.0)];
      r := Some(handled.value.1);
    }

    method HandleBroadcast(now: nat, id: SessionId, incoming: seq<Message>) returns (ok: bool)
      modifies this
      ensures (sessions, ok) == BroadcastC(engine, old(sessions), now, id, incoming)
    {
      Gc(now);
      if id !in sessions {
        return false;
      }
      var handled := engine.handle(sessions[id].state, FilterMessages(incoming, PARTY_C), None);
      if handled.None? {
        return false;
      }
      sessions := sessions[id := sessions[id].(state := handled.value.0)];
      ok := true;
    }

    method Abort(id: SessionId)
      modifies this
      ensures sessions == old(sessions) - {id}
    {
      sessions := sessions - {id};
    }
  }

  class DkgOrchestratorService {
    const engine: KeygenEngine
    const vault: Vault
    const db: Database
    const recovery: DkgService
    var sessions: map<SessionId, HubSession>

    constructor (db: Database, recovery: DkgService)
      ensures this.db == db && this.recovery == recovery && sessions == map[]
      ensures engine == recovery.engine && vault == recovery.vault
    {
      this.db, this.recovery, engine, vault := db, recovery, recovery.engine, recovery.vault;
      sessions := map[];
    }

    function State(): Sessions
      reads this, recovery
    {
      Sessions(sessions, recovery.sessions)
    }

    method Gc(now: nat, lost: set<SessionId>)
      modifies this, recovery
      ensures State() == GcHub(old(State()), now, lost)
    {
      ghost var hub, c, dead := sessions, recovery.sessions, ExpiredHub(sessions, now);
      var todo := sessions.Keys;
      while todo != {}
        invariant todo <= hub.Keys
        invariant forall id :: id in sessions <==> id in hub && (id in todo || id !in dead)
        invariant forall id :: id in sessions ==> sessions[id] == hub[id]
        invariant forall id :: id in recovery.sessions <==> id in c && (id in todo || id !in dead || id in lost)
        invariant forall id :: id in recovery.sessions ==> recovery.sessions[id] == c[id]
        decreases |todo|
      {
        var id :| id in todo;
        todo := todo - {id};
        if now > sessions[id].createdAt + DKG_TTL_MS {
          sessions := sessions - {id};
          if id !in lost {
            recovery.Abort(id);
          }
        }
      }
      assert sessions == hub - dead;
      assert recovery.sessions == c - (dead - lost);
    }

    /** A's first message in, B's and C's first messages out. */
    method Start(
      user: UserId, msg1A: Message, id: SessionId, wallet: WalletId, seedB: KeygenState, seedC: KeygenState, now: nat,
      lost: set<SessionId>)
      returns (r: Option<seq<Message>>)
      requires recovery.engine == engine
      modifies this, recovery
      ensures (State(), r) == StartHub(engine, old(State()), db.wallets, now, lost, user, msg1A, id, wallet, seedB, seedC)
    {
      Gc(now, lost);
      if HasLiveWallet(db.wallets, user) {
        return None;
      }
      if msg1A.from != PARTY_A {
        return None;
      }
      var (b1, msg1B) := engine.first(seedB);
      var msg1C := recovery.Start(now, id, user, wallet, seedC);
      if msg1C.None? {
        return None;
      }
      var all1 := [msg1A, msg1B, msg1C.value];
      var handled := engine.handle(b1, FilterMessages(all1, PARTY_B), None);
      if handled.None? {
        return None;
      }
      var (b2, msg2B) := handled.value;
      var round1C := recovery.HandleRound1(now, id, all1);
      if round1C.None? {
        return None;
      }
      var (msg2C, commitmentC) := round1C.value;
      sessions := sessions[id := HubSession(user, wallet, b2, msg2B, msg2C, None, engine.commit(b2), commitmentC, [], [], [], [],
                                            WAIT_ROUND2, now)];
      r := Some([msg1B, msg1C.value]);
    }

    method Round2(user: UserId, id: SessionId, msg2A: seq<Message>, commitmentA: Commitment, now: nat, lost: set<SessionId>)
      returns (r: Option<seq<Message>>)
      requires recovery.engine == engine
      modifies this, recovery
      ensures (State(), r) == Round2Hub(engine, old(State()), now, lost, user, id, msg2A, commitmentA)
    {
      Gc(now, lost);
      if id !in sessions || sessions[id].user != user || sessions[id].step != WAIT_ROUND2 {
        return None;
      }
      ghost var before := sessions;
      var h := sessions[id].(commitmentA := Some(commitmentA));
      sessions := sessions[id := h];
      var all2 := msg2A + h.msg2B + h.msg2C;
      var handled := engine.handle(h.state, SelectMessages(all2, PARTY_B), None);
      if handled.None? {
        return None;
      }
      h := h.(state := handled.value.0, msg3B := handled.value.1);
      sessions := sessions[id := h];
      assert sessions == before[id := h];
      var msg3C := recovery.HandleP2P(now, id, all2, None);
      if msg3C.None? {
        return None;
      }
      h := h.(msg3C := msg3C.value, step := WAIT_ROUND3);
      sessions := sessions[id := h];
      assert sessions == before[id := h];
      r := Some(SelectMessages(all2, PARTY_A));
    }

    method Round3(user: UserId, id: SessionId, msg3A: seq<Message>, now: nat, lost: set<SessionId>)
      returns (r: Option<(seq<Message>, seq<Commitment>)>)
      requires recovery.engine == engine
      modifies this, recovery
      ensures (State(), r) == Round3Hub(engine, old(State()), now, lost, user, id, msg3A)
    {
      Gc(now, lost);
      if id !in sessions || sessions[id].user != user || sessions[id].step != WAIT_ROUND3 || sessions[id].commitmentA.None? {
        return None;
      }
      ghost var before := sessions;
      var h := sessions[id];
      var commitments := [h.commitmentA.value, h.commitmentB, h.commitmentC];
      var all3 := msg3A + h.msg3B + h.msg3C;
      var handled := engine.handle(h.state, SelectMessages(all3, PARTY_B), Some(commitments));
      if handled.None? {
        return None;
      }
      h := h.(state := handled.value.0, msg4B := handled.value.1);
      sessions := sessions[id := h];
      var msg4C := recovery.HandleP2P(now, id, all3, Some(commitments));
      if msg4C.None? {
        return None;
      }
      h := h.(msg4C := msg4C.value, step := WAIT_ROUND4);
      sessions := sessions[id := h];
      assert sessions == before[id := h];
      r := Some((SelectMessages(all3, PARTY_A), commitments));
    }

    method Round4(user: UserId, id: SessionId, msg4A: seq<Message>, now: nat, lost: set<SessionId>) returns (r: Option<seq<Message>>)
      requires recovery.engine == engine
      modifies this, recovery
      ensures (State(), r) == Round4Hub(engine, old(State()), now, lost, user, id, msg4A)
    {
      Gc(now, lost);
      if id !in sessions || sessions[id].user != user || sessions[id].step != WAIT_ROUND4 {
        return None;
      }
      ghost var before := sessions;
      var h := sessions[id];
      var all4 := msg4A + h.msg4B + h.msg4C;
      var handled := engine.handle(h.state, FilterMessages(all4, PARTY_B), None);
      if handled.None? {
        return None;
      }
      h := h.(state := handled.value.0);
      sessions := sessions[id := h];
      var ok := recovery.HandleBroadcast(now, id, all4);
      if !ok {
        return None;
      }
      h := h.(step := WAIT_FINAL);
      sessions := sessions[id := h];
      assert sessions == before[id := h];
      r := Some(FilterMessages(all4, PARTY_A));
    }

    /** `inserted` is whether the database takes the wallet row when its id is free. */
    method Complete(user: UserId, id: SessionId, now: nat, lost: set<SessionId>, inserted: bool) returns (r: Option<Wallet>)
      requires recovery.engine == engine && recovery.vault == vault
      modifies this, recovery, recovery.shares, db`wallets
      ensures Completed(State(), db.wallets, recovery.shares.shares, r)
              == CompleteHub(engine, vault, old(State()), old(db.wallets), old(recovery.shares.shares), now, lost, user, id, inserted)
    {
      Gc(now, lost);
      if id !in sessions || sessions[id].user != user || sessions[id].step != WAIT_FINAL || HasLiveWallet(db.wallets, user) {
        return None;
      }
      var h := sessions[id];
      var shareB := engine.keyshare(h.state);
      if shareB.None? {
        return None;
      }
      var publicKey := engine.publicKey(shareB.value);
      var publicKeyC := recovery.Finalize(now, id);
      if publicKeyC.None? {
        return None;
      }
      if Lower(publicKeyC.value) != Lower(publicKey) {
        recovery.Abort(id);
        return None;
      }
      if !inserted || h.wallet in db.wallets {
        return None;
      }
      var row := Wallet(user, ACTIVE, vault.address(publicKey), publicKey, Some(vault.sealB(shareB.value)));
      db.wallets := db.wallets[h.wallet := row];
      sessions := sessions - {id};
      r := Some(row);
    }

    method Abort(user: UserId, id: SessionId)
      modifies this, recovery
      ensures var owned := id in old(sessions) && old(sessions)[id].user == user;
              && sessions == (if owned then old(sessions) - {id} else old(sessions))
              && recovery.sessions == (if owned then old(recovery.sessions) - {id} else old(recovery.sessions))
    {
      if id in sessions && sessions[id].user == user {
        sessions := sessions - {id};
        recovery.Abort(id);
      }
    }
  }
}
