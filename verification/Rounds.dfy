/** One round of a protocol run by one process over several parties, and the loop that runs it on live sessions. */
module Rounds {
  import opened Types
  import opened Routing

  /** The parties after a step, and what they sent, in party order. */
  datatype Round<S> = Round(states: seq<S>, out: seq<Message>)

  function FirstAll<S>(first: S -> (S, Message), parties: seq<S>): (r: Round<S>)
    ensures |r.states| == |parties|
  {
    if parties == [] then Round([], [])
    else
      var (s, m) := first(parties[0]);
      var rest := FirstAll(first, parties[1..]);
      Round([s] + rest.states, [m] + rest.out)
  }

  /** What is done so far, with what the rest of the round will come to. */
  function Joined<S>(states: seq<S>, sent: seq<Message>, rest: Option<Round<S>>): Option<Round<S>> {
    if rest.None? then None else Some(Round(states + rest.value.states, sent + rest.value.out))
  }

  lemma JoinedOneMore<S>(states: seq<S>, sent: seq<Message>, s: S, m: seq<Message>, rest: Option<Round<S>>)
    ensures Joined(states, sent, if rest.None? then None else Some(Round([s] + rest.value.states, m + rest.value.out)))
            == Joined(states + [s], sent + m, rest)
  {
    if rest.Some? {
      assert states + ([s] + rest.value.states) == (states + [s]) + rest.value.states;
      assert sent + (m + rest.value.out) == (sent + m) + rest.value.out;
    }
  }

  lemma JoinedEnds<S>(states: seq<S>, sent: seq<Message>, whole: Option<Round<S>>)
    ensures Joined([], [], whole) == whole
    ensures Joined(states, sent, Some(Round([], []))) == Some(Round(states, sent))
  {
    assert states + [] == states && sent + [] == sent;
    if whole.Some? {
      assert [] + whole.value.states == whole.value.states && [] + whole.value.out == whole.value.out;
    }
  }

  /** createFirstMessage of every live party. */
  method FirstMessages<S>(first: S -> (S, Message), parties: array<S>) returns (out: seq<Message>)
    modifies parties
    ensures Round(parties[..], out) == FirstAll(first, old(parties[..]))
  {
    ghost var whole := Some(FirstAll(first, parties[..]));
    out := [];
    JoinedEnds([], [], whole);
    assert parties[0..] == parties[..];
    for i := 0 to parties.Length
      invariant parties[i..] == old(parties[i..])
      invariant whole == Joined(parties[..i], out, Some(FirstAll(first, parties[i..])))
    {
      ghost var live, done := parties[i..], parties[..i];
      assert live[0] == parties[i] && live[1..] == parties[i + 1..];
      var (s, m) := first(parties[i]);
      JoinedOneMore(done, out, s, [m], Some(FirstAll(first, live[1..])));
      parties[i] := s;
      assert parties[..i + 1] == done + [s];
      out := out + [m];
    }
    JoinedEnds(parties[..], out, whole);
    assert parties[parties.Length..] == [] && parties[..parties.Length] == parties[..];
  }
}
