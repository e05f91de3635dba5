/**
 * Distributed key generation as one process runs it (packages/mpc-crypto/src/protocol.ts), and the relayed
 * run of three parties as one composition.
 */
module DkgReference {
  import opened Types
  import opened Routing
  import opened Rounds

  type KeygenState(==, !new, 0)
  type Commitment(==, !new, 0)
  type Keyshare(==, !new, 0)

  datatype KeygenEngine = KeygenEngine(
    first: KeygenState -> (KeygenState, Message),
    handle: (KeygenState, seq<Message>, Option<seq<Commitment>>) -> Option<(KeygenState, seq<Message>)>,
    commit: KeygenState -> Commitment,
    keyshare: KeygenState -> Option<Keyshare>,
    publicKey: Keyshare -> string)

  function Inbox(pool: seq<Message>, party: nat, direct: bool): seq<Message> {
    if direct then SelectMessages(pool, party) else FilterMessages(pool, party)
  }

  /** One round over the parties from `party` on. */
  function HandleAll(
    e: KeygenEngine, parties: seq<KeygenState>, party: nat, pool: seq<Message>, direct: bool,
    commitments: Option<seq<Commitment>>)
    : (r: Option<Round<KeygenState>>)
    ensures r.Some? ==> |r.value.states| == |parties|
  {
    if parties == [] then Some(Round([], []))
    else
      match e.handle(parties[0], Inbox(pool, party, direct), commitments)
      case None => None
      case Some((s, out)) =>
        match HandleAll(e, parties[1..], party + 1, pool, direct, commitments)
        case None => None
        case Some(rest) => Some(Round([s] + rest.states, out + rest.out))
  }

  function CommitAll(e: KeygenEngine, parties: seq<KeygenState>): seq<Commitment> {
    seq(|parties|, i requires 0 <= i < |parties| => e.commit(parties[i]))
  }

  /** The parties after all rounds; None when a step throws. */
  function RunRounds(e: KeygenEngine, parties: seq<KeygenState>): (r: Option<seq<KeygenState>>)
    ensures r.Some? ==> |r.value| == |parties|
  {
    var r1 := FirstAll(e.first, parties);
    match HandleAll(e, r1.states, 0, r1.out, false, None)
    case None => None
    case Some(r2) =>
      var commitments := CommitAll(e, r2.states);
      match HandleAll(e, r2.states, 0, r2.out, true, None)
      case None => None
      case Some(r3) =>
        match HandleAll(e, r3.states, 0, r3.out, true, Some(commitments))
        case None => None
        case Some(r4) =>
          match HandleAll(e, r4.states, 0, r4.out, false, None)
          case None => None
          case Some(r5) => Some(r5.states)
  }

  /** Every party's keyshare, or a throw. */
  function KeyshareAll(e: KeygenEngine, parties: seq<KeygenState>): Option<seq<Keyshare>> {
    if forall i :: 0 <= i < |parties| ==> e.keyshare(parties[i]).Some? then
      Some(seq(|parties|, i requires 0 <= i < |parties| => e.keyshare(parties[i]).value))
    else None
  }

  /** runInProcessDkg. */
  function RunInProcessDkg(e: KeygenEngine, parties: seq<KeygenState>): Option<seq<Keyshare>> {
    match RunRounds(e, parties)
    case None => None
    case Some(done) => KeyshareAll(e, done)
  }

  // ---- The run over live sessions, each advanced in place ----

  method MiddleMessages(
    e: KeygenEngine, parties: array<KeygenState>, pool: seq<Message>, direct: bool, commitments: Option<seq<Commitment>>)
    returns (out: Option<seq<Message>>)
    modifies parties
    ensures var r := HandleAll(e, old(parties[..]), 0, pool, direct, commitments);
            if r.None? then out.None? else out == Some(r.value.out) && parties[..] == r.value.states
  {
    ghost var whole := HandleAll(e, parties[..], 0, pool, direct, commitments);
    var sent: seq<Message> := [];
    JoinedEnds([], [], whole);
    assert parties[0..] == parties[..];
    for i := 0 to parties.Length
      invariant parties[i..] == old(parties[i..])
      invariant whole == Joined(parties[..i], sent, HandleAll(e, parties[i..], i, pool, direct, commitments))
    {
      ghost var live, done := parties[i..], parties[..i];
      assert live[0] == parties[i] && live[1..] == parties[i + 1..];
      var handled := e.handle(parties[i], Inbox(pool, i, direct), commitments);
      if handled.None? {
        return None;
      }
      var (s, m) := handled.value;
      JoinedOneMore(done, sent, s, m, HandleAll(e, live[1..], i + 1, pool, direct, commitments));
      parties[i] := s;
      assert parties[..i + 1] == done + [s];
      sent := sent + m;
    }
    JoinedEnds(parties[..], sent, whole);
    assert parties[parties.Length..] == [] && parties[..parties.Length] == parties[..];
    out := Some(sent);
  }

  /** runInProcessDkg on live sessions: every party's keyshare, or a throw. */
  method RunSessions(e: KeygenEngine, parties: array<KeygenState>) returns (shares: Option<seq<Keyshare>>)
    modifies parties
    ensures shares == RunInProcessDkg(e, old(parties[..]))
  {
    var msg1 := FirstMessages(e.first, parties);
    var msg2 := MiddleMessages(e, parties, msg1, false, None);
    if msg2.None? {
      return None;
    }
    var commitments: seq<Commitment> := [];
    for i := 0 to parties.Length
      invariant |commitments| == i && forall k :: 0 <= k < i ==> commitments[k] == e.commit(parties[k])
    {
      commitments := commitments + [e.commit(parties[i])];
    }
    assert commitments == CommitAll(e, parties[..]);
    var msg3 := MiddleMessages(e, parties, msg2.value, true, None);
    if msg3.None? {
      return None;
    }
    var msg4 := MiddleMessages(e, parties, msg3.value, true, Some(commitments));
    if msg4.None? {
      return None;
    }
    var last := MiddleMessages(e, parties, msg4.value, false, None);
    if last.None? {
      return None;
    }
    shares := Keyshares(e, parties);
  }

  method Keyshares(e: KeygenEngine, parties: array<KeygenState>) returns (shares: Option<seq<Keyshare>>)
    ensures shares == KeyshareAll(e, parties[..])
  {
    ghost var done := parties[..];
    var found: seq<Keyshare> := [];
    for i := 0 to parties.Length
      invariant |found| == i && forall k :: 0 <= k < i ==> e.keyshare(done[k]) == Some(found[k])
    {
      assert parties[i] == done[i];
      var share := e.keyshare(parties[i]);
      if share.None? {
        return None;
      }
      found := found + [share.value];
    }
    assert found == seq(|done|, i requires 0 <= i < |done| => e.keyshare(done[i]).value);
    shares := Some(found);
  }

  // ---- Three parties ----

  lemma FirstThree(e: KeygenEngine, a: KeygenState, b: KeygenState, c: KeygenState)
    ensures FirstAll(e.first, [a, b, c]) ==
            Round([e.first(a).0, e.first(b).0, e.first(c).0], [e.first(a).1, e.first(b).1, e.first(c).1])
  {
    assert [a, b, c][1..] == [b, c] && [b, c][1..] == [c] && [c][1..] == [];
    assert FirstAll(e.first, [c]) == Round([e.first(c).0], [e.first(c).1]);
    assert FirstAll(e.first, [b, c]) == Round([e.first(b).0, e.first(c).0], [e.first(b).1, e.first(c).1]);
  }

  /** The three steps of a round side by side. */
  function HandleEach(
    e: KeygenEngine, a: KeygenState, b: KeygenState, c: KeygenState, pool: seq<Message>, direct: bool,
    commitments: Option<seq<Commitment>>)
    : Option<Round<KeygenState>>
  {
    match (e.handle(a, Inbox(pool, 0, direct), commitments), e.handle(b, Inbox(pool, 1, direct), commitments),
           e.handle(c, Inbox(pool, 2, direct), commitments))
    case (Some(x), Some(y), Some(z)) => Some(Round([x.0, y.0, z.0], x.1 + y.1 + z.1))
    case _ => None
  }

  lemma HandleOne(
    e: KeygenEngine, a: KeygenState, party: nat, pool: seq<Message>, direct: bool, commitments: Option<seq<Commitment>>)
    ensures HandleAll(e, [a], party, pool, direct, commitments) ==
            match e.handle(a, Inbox(pool, party, direct), commitments)
            case None => None
            case Some((s, out)) => Some(Round([s], out))
  {
    assert [a][1..] == [];
    if e.handle(a, Inbox(pool, party, direct), commitments).Some? {
      var (s, out) := e.handle(a, Inbox(pool, party, direct), commitments).value;
      assert [s] + [] == [s] && out + [] == out;
    }
  }

  lemma HandleThree(
    e: KeygenEngine, a: KeygenState, b: KeygenState, c: KeygenState, pool: seq<Message>, direct: bool,
    commitments: Option<seq<Commitment>>)
    ensures HandleAll(e, [a, b, c], 0, pool, direct, commitments) == HandleEach(e, a, b, c, pool, direct, commitments)
  {
    assert [a, b, c][1..] == [b, c] && [b, c][1..] == [c];
    HandleOne(e, c, 2, pool, direct, commitments);
    var hb, hc := e.handle(b, Inbox(pool, 1, direct), commitments), e.handle(c, Inbox(pool, 2, direct), commitments);
    var two := HandleAll(e, [b, c], 1, pool, direct, commitments);
    if hb.Some? && hc.Some? {
      assert [hb.value.0] + [hc.value.0] == [hb.value.0, hc.value.0];
      assert two == Some(Round([hb.value.0, hc.value.0], hb.value.1 + hc.value.1));
      assert forall s: KeygenState :: [s] + [hb.value.0, hc.value.0] == [s, hb.value.0, hc.value.0];
      assert forall m: seq<Message> :: m + (hb.value.1 + hc.value.1) == m + hb.value.1 + hc.value.1;
    }
  }

  // ---- The relayed run ----

  datatype Trio = Trio(a: KeygenState, b: KeygenState, c: KeygenState)

  /** The relay as the browser, the API and Recovery run it, on one success path. */
  function RelayRounds(e: KeygenEngine, a: KeygenState, b: KeygenState, c: KeygenState): Option<Trio> {
    var (a1, m1A) := e.first(a);
    var (b1, m1B) := e.first(b);
    var (c1, m1C) := e.first(c);
    var all1 := [m1A, m1B, m1C];
    match (e.handle(a1, FilterMessages([m1B, m1C], PARTY_A), None), e.handle(b1, FilterMessages(all1, PARTY_B), None),
           e.handle(c1, FilterMessages(all1, PARTY_C), None))
    case (Some((a2, m2A)), Some((b2, m2B)), Some((c2, m2C))) =>
      RelayFromRound2(e, Trio(a2, b2, c2), m2A + m2B + m2C, [e.commit(a2), e.commit(b2), e.commit(c2)])
    case _ => None
  }

  function RelayFromRound2(e: KeygenEngine, t: Trio, all2: seq<Message>, commitments: seq<Commitment>): Option<Trio> {
    match (e.handle(t.a, SelectMessages(all2, PARTY_A), None), e.handle(t.b, SelectMessages(all2, PARTY_B), None),
           e.handle(t.c, SelectMessages(all2, PARTY_C), None))
    case (Some((a3, m3A)), Some((b3, m3B)), Some((c3, m3C))) =>
      RelayFromRound3(e, Trio(a3, b3, c3), m3A + m3B + m3C, commitments)
    case _ => None
  }

  function RelayFromRound3(e: KeygenEngine, t: Trio, all3: seq<Message>, commitments: seq<Commitment>): Option<Trio> {
    var cs := Some(commitments);
    match (e.handle(t.a, SelectMessages(all3, PARTY_A), cs), e.handle(t.b, SelectMessages(all3, PARTY_B), cs),
           e.handle(t.c, SelectMessages(all3, PARTY_C), cs))
    case (Some((a4, m4A)), Some((b4, m4B)), Some((c4, m4C))) => RelayFromRound4(e, Trio(a4, b4, c4), m4A + m4B + m4C)
    case _ => None
  }

  /** The hub drops A's own broadcasts before A filters again. */
  function RelayFromRound4(e: KeygenEngine, t: Trio, all4: seq<Message>): Option<Trio> {
    match (e.handle(t.a, FilterMessages(FilterMessages(all4, PARTY_A), PARTY_A), None),
           e.handle(t.b, FilterMessages(all4, PARTY_B), None), e.handle(t.c, FilterMessages(all4, PARTY_C), None))
    case (Some((a5, _)), Some((b5, _)), Some((c5, _))) => Some(Trio(a5, b5, c5))
    case _ => None
  }

  /**
   * The relay leaves the three parties in exactly the states of the in-process run, and fails exactly when it
   * throws: each party was handed the same ordered messages and the same commitment list in every round. The
   * only thing asked of the step function is that A's first message is marked as A's.
   */
  lemma RelayRefinesInProcess(e: KeygenEngine, a: KeygenState, b: KeygenState, c: KeygenState)
    requires e.first(a).1.from == PARTY_A
    ensures RunRounds(e, [a, b, c]) ==
            match RelayRounds(e, a, b, c) case None => None case Some(t) => Some([t.a, t.b, t.c])
  {
    FirstThree(e, a, b, c);
    var (a1, m1A) := e.first(a);
    var (b1, m1B) := e.first(b);
    var (c1, m1C) := e.first(c);
    var all1 := [m1A, m1B, m1C];
    assert FilterMessages(all1, PARTY_A) == FilterMessages([m1B, m1C], PARTY_A) by {
      assert all1[1..] == [m1B, m1C];
      assert [] + FilterMessages([m1B, m1C], PARTY_A) == FilterMessages([m1B, m1C], PARTY_A);
    }
    HandleThree(e, a1, b1, c1, all1, false, None);
    var r2 := HandleEach(e, a1, b1, c1, all1, false, None);
    if r2.Some? {
      var s := r2.value.states;
      var cs := [e.commit(s[0]), e.commit(s[1]), e.commit(s[2])];
      assert CommitAll(e, s) == cs;
      assert s == [s[0], s[1], s[2]];
      FromRound2(e, Trio(s[0], s[1], s[2]), r2.value.out, cs);
      var done := RunRounds(e, [a, b, c]);
      if done.Some? {
        assert done.value == [done.value[0], done.value[1], done.value[2]];
      }
    }
  }

  lemma FromRound2(e: KeygenEngine, t: Trio, all2: seq<Message>, cs: seq<Commitment>)
    ensures RelayFromRound2(e, t, all2, cs) ==
            match HandleAll(e, [t.a, t.b, t.c], 0, all2, true, None)
            case None => None
            case Some(r3) =>
              match HandleAll(e, r3.states, 0, r3.out, true, Some(cs))
              case None => None
              case Some(r4) =>
                match HandleAll(e, r4.states, 0, r4.out, false, None)
                case None => None
                case Some(r5) => Some(Trio(r5.states[0], r5.states[1], r5.states[2]))
  {
    HandleThree(e, t.a, t.b, t.c, all2, true, None);
    var r3 := HandleEach(e, t.a, t.b, t.c, all2, true, None);
    if r3.Some? {
      var s := r3.value.states;
      assert s == [s[0], s[1], s[2]];
      HandleThree(e, s[0], s[1], s[2], r3.value.out, true, Some(cs));
      var r4 := HandleEach(e, s[0], s[1], s[2], r3.value.out, true, Some(cs));
      if r4.Some? {
        var u := r4.value.states;
        assert u == [u[0], u[1], u[2]];
        HandleThree(e, u[0], u[1], u[2], r4.value.out, false, None);
        FilterTwice(r4.value.out, PARTY_A);
      }
    }
  }

  /** All three final keyshares are the in-process ones. */
  lemma RelayedKeysharesAreInProcess(e: KeygenEngine, a: KeygenState, b: KeygenState, c: KeygenState)
    requires e.first(a).1.from == PARTY_A
    requires RunInProcessDkg(e, [a, b, c]).Some?
    ensures RelayRounds(e, a, b, c).Some?
    ensures var t := RelayRounds(e, a, b, c).value;
            var shares := RunInProcessDkg(e, [a, b, c]).value;
            |shares| == 3 && e.keyshare(t.a) == Some(shares[0]) && e.keyshare(t.b) == Some(shares[1])
            && e.keyshare(t.c) == Some(shares[2])
  {
    RelayRefinesInProcess(e, a, b, c);
  }
}
