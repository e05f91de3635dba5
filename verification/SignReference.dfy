/**
 * Threshold signing as one process runs it (packages/mpc-crypto/src/protocol.ts). The party step is any
 * deterministic function that may throw; a party's randomness is part of its initial state.
 */
module SignReference {
  import opened Types
  import opened Routing
  import opened Rounds

  type SignState(==, !new, 0)
  type RS(==, !new, 0)  // the pair [r, s]

  datatype SignEngine = SignEngine(
    first: SignState -> (SignState, Message),
    handle: (SignState, seq<Message>) -> Option<(SignState, seq<Message>)>,
    last: (SignState, Digest) -> Option<(SignState, Message)>,
    combine: (SignState, seq<Message>) -> Option<RS>)

  /** One round: every party, in order, handles what `pool` holds for its real party id. */
  function HandleAll(e: SignEngine, parties: seq<SignState>, ids: seq<nat>, pool: seq<Message>, direct: bool)
    : (r: Option<Round<SignState>>)
    requires |ids| == |parties|
    ensures r.Some? ==> |r.value.states| == |parties|
  {
    if parties == [] then Some(Round([], []))
    else
      var inbox := if direct then SelectMessages(pool, ids[0]) else FilterMessages(pool, ids[0]);
      match e.handle(parties[0], inbox)
      case None => None
      case Some((s, out)) =>
        match HandleAll(e, parties[1..], ids[1..], pool, direct)
        case None => None
        case Some(rest) => Some(Round([s] + rest.states, out + rest.out))
  }

  function LastAll(e: SignEngine, parties: seq<SignState>, digest: Digest): (r: Option<Round<SignState>>)
    ensures r.Some? ==> |r.value.states| == |parties|
  {
    if parties == [] then Some(Round([], []))
    else
      match e.last(parties[0], digest)
      case None => None
      case Some((s, m)) =>
        match LastAll(e, parties[1..], digest)
        case None => None
        case Some(rest) => Some(Round([s] + rest.states, [m] + rest.out))
  }

  /** Everything up to the exchange of last messages. */
  function RunToLast(e: SignEngine, parties: seq<SignState>, ids: seq<nat>, digest: Digest): (r: Option<Round<SignState>>)
    requires |ids| == |parties|
    ensures r.Some? ==> |r.value.states| == |parties|
  {
    var r1 := FirstAll(e.first, parties);
    match HandleAll(e, r1.states, ids, r1.out, false)
    case None => None
    case Some(r2) =>
      match HandleAll(e, r2.states, ids, r2.out, true)
      case None => None
      case Some(r3) =>
        match HandleAll(e, r3.states, ids, r3.out, true)
        case None => None
        case Some(r4) => LastAll(e, r4.states, digest)
  }

  /** The signature party `i` of the run combines. */
  function CombineAt(e: SignEngine, run: Round<SignState>, ids: seq<nat>, i: nat): Option<RS>
    requires i < |run.states| == |ids|
  {
    e.combine(run.states[i], FilterMessages(run.out, ids[i]))
  }

  /** Every party's signature, or a throw. */
  function CombineAll(e: SignEngine, run: Round<SignState>, ids: seq<nat>): Option<seq<RS>>
    requires |run.states| == |ids|
  {
    if forall i :: 0 <= i < |ids| ==> CombineAt(e, run, ids, i).Some? then
      Some(seq(|ids|, i requires 0 <= i < |ids| => CombineAt(e, run, ids, i).value))
    else None
  }

  /** The in-process run: one signature per party, or a throw. */
  function RunInProcessSign(e: SignEngine, parties: seq<SignState>, ids: seq<nat>, digest: Digest): Option<seq<RS>>
    requires |ids| == |parties|
  {
    match RunToLast(e, parties, ids, digest)
    case None => None
    case Some(run) => CombineAll(e, run, ids)
  }

  // ---- The run over live sessions, each advanced in place ----

  method MiddleMessages(e: SignEngine, parties: array<SignState>, ids: seq<nat>, pool: seq<Message>, direct: bool)
    returns (out: Option<seq<Message>>)
    requires |ids| == parties.Length
    modifies parties
    ensures var r := HandleAll(e, old(parties[..]), ids, pool, direct);
            if r.None? then out.None? else out == Some(r.value.out) && parties[..] == r.value.states
  {
    ghost var whole := HandleAll(e, parties[..], ids, pool, direct);
    var sent: seq<Message> := [];
    JoinedEnds([], [], whole);
    assert parties[0..] == parties[..] && ids[0..] == ids;
    for i := 0 to parties.Length
      invariant parties[i..] == old(parties[i..])
      invariant whole == Joined(parties[..i], sent, HandleAll(e, parties[i..], ids[i..], pool, direct))
    {
      ghost var live, done := parties[i..], parties[..i];
      assert live[0] == parties[i] && live[1..] == parties[i + 1..] && ids[i..][0] == ids[i] && ids[i..][1..] == ids[i + 1..];
      var handled := e.handle(parties[i], if direct then SelectMessages(pool, ids[i]) else FilterMessages(pool, ids[i]));
      if handled.None? {
        return None;
      }
      var (s, m) := handled.value;
      JoinedOneMore(done, sent, s, m, HandleAll(e, live[1..], ids[i + 1..], pool, direct));
      parties[i] := s;
      assert parties[..i + 1] == done + [s];
      sent := sent + m;
    }
    JoinedEnds(parties[..], sent, whole);
    assert parties[parties.Length..] == [] && parties[..parties.Length] == parties[..];
    out := Some(sent);
  }

  method LastMessages(e: SignEngine, parties: array<SignState>, digest: Digest) returns (out: Option<seq<Message>>)
    modifies parties
    ensures var r := LastAll(e, old(parties[..]), digest);
            if r.None? then out.None? else out == Some(r.value.out) && parties[..] == r.value.states
  {
    ghost var whole := LastAll(e, parties[..], digest);
    var sent: seq<Message> := [];
    JoinedEnds([], [], whole);
    assert parties[0..] == parties[..];
    for i := 0 to parties.Length
      invariant parties[i..] == old(parties[i..])
      invariant whole == Joined(parties[..i], sent, LastAll(e, parties[i..], digest))
    {
      ghost var live, done := parties[i..], parties[..i];
      assert live[0] == parties[i] && live[1..] == parties[i + 1..];
      var last := e.last(parties[i], digest);
      if last.None? {
        return None;
      }
      var (s, m) := last.value;
      JoinedOneMore(done, sent, s, [m], LastAll(e, live[1..], digest));
      parties[i] := s;
      assert parties[..i + 1] == done + [s];
      sent := sent + [m];
    }
    JoinedEnds(parties[..], sent, whole);
    assert parties[parties.Length..] == [] && parties[..parties.Length] == parties[..];
    out := Some(sent);
  }

  /** runInProcessSign on live sessions, routed by real party id: one signature per party, or a throw. */
  method RunSessions(e: SignEngine, parties: array<SignState>, ids: seq<nat>, digest: Digest) returns (signatures: Option<seq<RS>>)
    requires |ids| == parties.Length
    modifies parties
    ensures signatures == RunInProcessSign(e, old(parties[..]), ids, digest)
  {
    var msg1 := FirstMessages(e.first, parties);
    var msg2 := MiddleMessages(e, parties, ids, msg1, false);
    if msg2.None? {
      return None;
    }
    var msg3 := MiddleMessages(e, parties, ids, msg2.value, true);
    if msg3.None? {
      return None;
    }
    var msg4 := MiddleMessages(e, parties, ids, msg3.value, true);
    if msg4.None? {
      return None;
    }
    var last := LastMessages(e, parties, digest);
    if last.None? {
      return None;
    }
    signatures := CombineEach(e, parties, ids, last.value);
  }

  /** Every party combines what the others sent last. */
  method CombineEach(e: SignEngine, parties: array<SignState>, ids: seq<nat>, msg4: seq<Message>) returns (signatures: Option<seq<RS>>)
    requires |ids| == parties.Length
    ensures signatures == CombineAll(e, Round(parties[..], msg4), ids)
  {
    ghost var run := Round(parties[..], msg4);
    var combined: seq<RS> := [];
    for i := 0 to parties.Length
      invariant |combined| == i
      invariant forall k :: 0 <= k < i ==> CombineAt(e, run, ids, k) == Some(combined[k])
    {
      var rs := e.combine(parties[i], FilterMessages(msg4, ids[i]));
      assert rs == CombineAt(e, run, ids, i);
      if rs.None? {
        return None;
      }
      combined := combined + [rs.value];
    }
    assert combined == seq(|ids|, i requires 0 <= i < |ids| => CombineAt(e, run, ids, i).value);
    signatures := Some(combined);
  }

  /** What party `i` of the in-process run ends with; None when the run throws before that. */
  function SignatureOf(e: SignEngine, parties: seq<SignState>, ids: seq<nat>, digest: Digest, i: nat): Option<RS>
    requires i < |ids| == |parties|
  {
    match RunToLast(e, parties, ids, digest)
    case None => None
    case Some(run) => CombineAt(e, run, ids, i)
  }

  /** A full in-process run gives every party its own signature. */
  lemma InProcessGivesEachItsSignature(e: SignEngine, parties: seq<SignState>, ids: seq<nat>, digest: Digest, i: nat)
    requires i < |ids| == |parties|
    requires RunInProcessSign(e, parties, ids, digest).Some?
    ensures SignatureOf(e, parties, ids, digest, i) == Some(RunInProcessSign(e, parties, ids, digest).value[i])
  {
  }

  // ---- Two parties ----

  lemma FirstTwo(e: SignEngine, a: SignState, b: SignState)
    ensures FirstAll(e.first, [a, b]) == Round([e.first(a).0, e.first(b).0], [e.first(a).1, e.first(b).1])
  {
    assert [a, b][1..] == [b];
    assert FirstAll(e.first, [b]) == Round([e.first(b).0], [e.first(b).1]);
  }

  lemma HandleTwo(e: SignEngine, a: SignState, b: SignState, ids: seq<nat>, pool: seq<Message>, direct: bool)
    requires |ids| == 2
    ensures var inA := if direct then SelectMessages(pool, ids[0]) else FilterMessages(pool, ids[0]);
            var inB := if direct then SelectMessages(pool, ids[1]) else FilterMessages(pool, ids[1]);
            HandleAll(e, [a, b], ids, pool, direct) ==
            match (e.handle(a, inA), e.handle(b, inB))
            case (Some(x), Some(y)) => Some(Round([x.0, y.0], x.1 + y.1))
            case _ => None
  {
    assert [a, b][1..] == [b];
    assert ids[1..][0] == ids[1];
    var inB := if direct then SelectMessages(pool, ids[1]) else FilterMessages(pool, ids[1]);
    var tail := HandleAll(e, [b], ids[1..], pool, direct);
    assert [b][1..] == [] && HandleAll(e, [], ids[1..][1..], pool, direct) == Some(Round([], []));
    if e.handle(b, inB).Some? {
      var (s, out) := e.handle(b, inB).value;
      assert [s] + [] == [s] && out + [] == out;
      assert tail == Some(Round([s], out));
      assert forall x: SignState :: [x] + [s] == [x, s];
    }
  }

  lemma LastTwo(e: SignEngine, a: SignState, b: SignState, digest: Digest)
    ensures LastAll(e, [a, b], digest) ==
            match (e.last(a, digest), e.last(b, digest))
            case (Some(x), Some(y)) => Some(Round([x.0, y.0], [x.1, y.1]))
            case _ => None
  {
    assert [a, b][1..] == [b];
    assert [b][1..] == [] && LastAll(e, [], digest) == Some(Round([], []));
    if e.last(b, digest).Some? {
      var (s, m) := e.last(b, digest).value;
      assert [s] + [] == [s] && [m] + [] == [m];
      assert LastAll(e, [b], digest) == Some(Round([s], [m]));
      assert forall x: SignState :: [x] + [s] == [x, s];
      assert forall x: Message :: [x] + [m] == [x, m];
    }
  }
}
