/**
 * The party a signing relay calls: party B in sign-orchestrator.service.ts, party C in the Recovery
 * sign.service.ts. Both keep the serialized session, their own messages and the round they wait for.
 */
module Responder {
  import opened Types
  import opened Routing
  import opened Rounds
  import opened SignReference

  datatype Stage = WAIT_MSG1 | WAIT_MSG2 | WAIT_MSG3 | WAIT_LAST

  datatype Party = Party(
    id: nat, state: SignState, msg1: Message, msg2: Option<seq<Message>>, msg3: Option<seq<Message>>, stage: Stage)

  datatype Refusal = UnexpectedStep | MissingMessage | Threw

  /** A fresh SignSession and its first message. */
  function Open(e: SignEngine, id: nat, seed: SignState): Party {
    var (s, m) := e.first(seed);
    Party(id, s, m, None, None, WAIT_MSG1)
  }

  /** msg1 of the caller in, msg2 out. */
  function Round1(e: SignEngine, p: Party, msg1: seq<Message>): Result<(Party, seq<Message>), Refusal> {
    if p.stage != WAIT_MSG1 then Err(UnexpectedStep)
    else
      match e.handle(p.state, FilterMessages([p.msg1] + msg1, p.id))
      case None => Err(Threw)
      case Some((s, out)) => Ok((p.(state := s, msg2 := Some(out), stage := WAIT_MSG2), out))
  }

  /** msg2 of the caller in, msg3 out. */
  function Round2(e: SignEngine, p: Party, msg2: seq<Message>): Result<(Party, seq<Message>), Refusal> {
    if p.stage != WAIT_MSG2 || p.msg2.None? then Err(UnexpectedStep)
    else
      match e.handle(p.state, SelectMessages(msg2 + p.msg2.value, p.id))
      case None => Err(Threw)
      case Some((s, out)) => Ok((p.(state := s, msg3 := Some(out), stage := WAIT_MSG3), out))
  }

  /** msg3 of the caller in, nothing out. */
  function Round3(e: SignEngine, p: Party, msg3: seq<Message>): Result<Party, Refusal> {
    if p.stage != WAIT_MSG3 || p.msg3.None? then Err(UnexpectedStep)
    else
      match e.handle(p.state, SelectMessages(msg3 + p.msg3.value, p.id))
      case None => Err(Threw)
      case Some((s, _)) => Ok(p.(state := s, stage := WAIT_LAST))
  }

  // ---- The relay: one calling party and one responder ----

  /** Both parties just before the last messages. */
  datatype Meeting = Meeting(caller: SignState, responder: Party)

  /** The three rounds as the calling party drives them. */
  function Meet(e: SignEngine, callerId: nat, caller: SignState, responder: Party): Option<Meeting> {
    var (c1, m1) := e.first(caller);
    match e.handle(c1, FilterMessages([responder.msg1, m1], callerId))
    case None => None
    case Some((c2, m2)) =>
      match Round1(e, responder, [m1])
      case Err(_) => None
      case Ok((p1, out1)) => MeetFromRound2(e, callerId, c2, m2, p1, out1)
  }

  /** Rounds two and three. */
  function MeetFromRound2(
    e: SignEngine, callerId: nat, caller: SignState, msg2: seq<Message>, responder: Party, out1: seq<Message>)
    : Option<Meeting>
  {
    match e.handle(caller, SelectMessages(msg2 + out1, callerId))
    case None => None
    case Some((c3, m3)) =>
      match Round2(e, responder, msg2)
      case Err(_) => None
      case Ok((p2, out2)) => MeetFromRound3(e, callerId, c3, m3, p2, out2)
  }

  function MeetFromRound3(
    e: SignEngine, callerId: nat, caller: SignState, msg3: seq<Message>, responder: Party, out2: seq<Message>)
    : Option<Meeting>
  {
    match e.handle(caller, SelectMessages(msg3 + out2, callerId))
    case None => None
    case Some((c4, _)) =>
      match Round3(e, responder, msg3)
      case Err(_) => None
      case Ok(p3) => Some(Meeting(c4, p3))
  }

  // ---- Round by round, against the run in one process ----

  /** The in-process run from its third round on, and from its second. */
  function RunFromRound3(e: SignEngine, parties: seq<SignState>, ids: seq<nat>, pool: seq<Message>, digest: Digest)
    : Option<Round<SignState>>
    requires |ids| == |parties|
  {
    match HandleAll(e, parties, ids, pool, true) case None => None case Some(r) => LastAll(e, r.states, digest)
  }

  function RunFromRound2(e: SignEngine, parties: seq<SignState>, ids: seq<nat>, pool: seq<Message>, digest: Digest)
    : Option<Round<SignState>>
    requires |ids| == |parties|
  {
    match HandleAll(e, parties, ids, pool, true) case None => None case Some(r) => RunFromRound3(e, r.states, ids, r.out, digest)
  }

  /** What a meeting leads to: the last messages of both parties. */
  function LastOf(e: SignEngine, met: Option<Meeting>, digest: Digest): Option<Round<SignState>> {
    if met.None? then None else LastAll(e, [met.value.caller, met.value.responder.state], digest)
  }

  /** A responder at the end of the rounds, if there was a meeting. */
  predicate Arrived(met: Option<Meeting>, id: nat) {
    met.Some? ==> met.value.responder.stage == WAIT_LAST && met.value.responder.id == id
  }

  lemma ThirdRoundRefines(
    e: SignEngine, callerId: nat, c: SignState, msg3: seq<Message>, p: Party, out2: seq<Message>, digest: Digest)
    requires p.stage == WAIT_MSG3 && p.msg3 == Some(out2)
    ensures RunFromRound3(e, [c, p.state], [callerId, p.id], msg3 + out2, digest)
            == LastOf(e, MeetFromRound3(e, callerId, c, msg3, p, out2), digest)
    ensures Arrived(MeetFromRound3(e, callerId, c, msg3, p, out2), p.id)
  {
    HandleTwo(e, c, p.state, [callerId, p.id], msg3 + out2, true);
  }

  lemma SecondRoundRefines(
    e: SignEngine, callerId: nat, c: SignState, msg2: seq<Message>, p: Party, out1: seq<Message>, digest: Digest)
    requires p.stage == WAIT_MSG2 && p.msg2 == Some(out1)
    ensures RunFromRound2(e, [c, p.state], [callerId, p.id], msg2 + out1, digest)
            == LastOf(e, MeetFromRound2(e, callerId, c, msg2, p, out1), digest)
    ensures Arrived(MeetFromRound2(e, callerId, c, msg2, p, out1), p.id)
  {
    HandleTwo(e, c, p.state, [callerId, p.id], msg2 + out1, true);
    var a := e.handle(c, SelectMessages(msg2 + out1, callerId));
    var r := Round2(e, p, msg2);
    if a.Some? && r.Ok? {
      ThirdRoundRefines(e, callerId, a.value.0, a.value.1, r.value.0, r.value.1, digest);
    }
  }

  /**
   * The relayed rounds leave both parties in exactly the states of the in-process run on the same two
   * shares, and fail exactly when it throws. Since the step function is arbitrary, one that records its
   * inputs shows that each party was handed the same message sequence in every round.
   */
  lemma MeetingRefinesInProcess(e: SignEngine, callerId: nat, caller: SignState, id: nat, seed: SignState, digest: Digest)
    requires callerId != id
    requires e.first(caller).1.from == callerId && e.first(seed).1.from == id
    ensures RunToLast(e, [caller, seed], [callerId, id], digest) == LastOf(e, Meet(e, callerId, caller, Open(e, id, seed)), digest)
    ensures Arrived(Meet(e, callerId, caller, Open(e, id, seed)), id)
  {
    var (c1, m1) := e.first(caller);
    var p0 := Open(e, id, seed);
    FirstTwo(e, caller, seed);
    FirstInboxes(m1, p0.msg1, callerId, id);
    HandleTwo(e, c1, p0.state, [callerId, id], [m1, p0.msg1], false);
    var a, r := e.handle(c1, [p0.msg1]), Round1(e, p0, [m1]);
    if a.Some? && r.Ok? {
      SecondRoundRefines(e, callerId, a.value.0, a.value.1, r.value.0, r.value.1, digest);
    }
  }

  /** Each side drops its own first message, in whatever order the relay lists the two. */
  lemma FirstInboxes(m: Message, r: Message, callerId: nat, id: nat)
    requires m.from == callerId && r.from == id && callerId != id
    ensures FilterMessages([m, r], callerId) == [r] == FilterMessages([r, m], callerId)
    ensures FilterMessages([m, r], id) == [m] == FilterMessages([r] + [m], id)
  {
    assert [m, r][1..] == [r] && [r, m][1..] == [m] && [r] + [m] == [r, m];
    assert FilterMessages([r], callerId) == [r] && FilterMessages([m], id) == [m];
    assert FilterMessages([m], callerId) == [] && FilterMessages([r], id) == [];
  }

  /** The caller combines: party B against Recovery's party C. */
  function CallerSignature(e: SignEngine, callerId: nat, caller: SignState, responder: Party, digest: Digest): Option<RS> {
    match Meet(e, callerId, caller, responder)
    case None => None
    case Some(met) =>
      match (e.last(met.caller, digest), e.last(met.responder.state, digest))
      case (Some(x), Some(y)) => e.combine(x.0, FilterMessages([x.1] + [y.1], callerId))
      case _ => None
  }

  /** The responder combines: party B for the browser's party A. */
  function ResponderSignature(e: SignEngine, callerId: nat, caller: SignState, responder: Party, digest: Digest): Option<RS> {
    match Meet(e, callerId, caller, responder)
    case None => None
    case Some(met) =>
      match (e.last(met.caller, digest), e.last(met.responder.state, digest))
      case (Some(x), Some(y)) => e.combine(y.0, FilterMessages([x.1] + [y.1], met.responder.id))
      case _ => None
  }

  /** Whichever side combines, it gets its signature of the in-process run, and fails when that run does. */
  lemma RelaySignatureIsInProcess(e: SignEngine, callerId: nat, caller: SignState, id: nat, seed: SignState, digest: Digest)
    requires callerId != id
    requires e.first(caller).1.from == callerId && e.first(seed).1.from == id
    ensures CallerSignature(e, callerId, caller, Open(e, id, seed), digest)
            == SignatureOf(e, [caller, seed], [callerId, id], digest, 0)
    ensures ResponderSignature(e, callerId, caller, Open(e, id, seed), digest)
            == SignatureOf(e, [caller, seed], [callerId, id], digest, 1)
  {
    MeetingRefinesInProcess(e, callerId, caller, id, seed, digest);
    var meeting := Meet(e, callerId, caller, Open(e, id, seed));
    if meeting.Some? {
      LastTwo(e, meeting.value.caller, meeting.value.responder.state, digest);
      assert forall x: Message, y: Message :: [x] + [y] == [x, y];
    }
  }
}
