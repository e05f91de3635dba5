/** Protocol messages and who receives them (packages/mpc-crypto/src/routing.ts). */
module Routing {
  import opened Types

  const PARTY_A: nat := 0
  const PARTY_B: nat := 1
  const PARTY_C: nat := 2

  /** A message without a recipient is a broadcast. */
  datatype Message = Message(from: nat, to: Option<nat>, payload: Payload)

  /** Everything the other parties wrote. */
  function FilterMessages(msgs: seq<Message>, party: nat): seq<Message> {
    if msgs == [] then []
    else (if msgs[0].from != party then [msgs[0]] else []) + FilterMessages(msgs[1..], party)
  }

  /** Everything addressed to the party. */
  function SelectMessages(msgs: seq<Message>, party: nat): seq<Message> {
    if msgs == [] then []
    else (if msgs[0].to == Some(party) then [msgs[0]] else []) + SelectMessages(msgs[1..], party)
  }

  lemma {:induction false} FilterConcat(a: seq<Message>, b: seq<Message>, party: nat)
    ensures FilterMessages(a + b, party) == FilterMessages(a, party) + FilterMessages(b, party)
  {
    if a == [] {
      assert a + b == b;
    } else {
      FilterConcat(a[1..], b, party);
      assert (a + b)[1..] == a[1..] + b;
      Associate(if a[0].from != party then [a[0]] else [], FilterMessages(a[1..], party), FilterMessages(b, party));
    }
  }

  lemma Associate(x: seq<Message>, y: seq<Message>, z: seq<Message>)
    ensures (x + y) + z == x + (y + z)
  {
  }

  lemma {:induction false} SelectConcat(a: seq<Message>, b: seq<Message>, party: nat)
    ensures SelectMessages(a + b, party) == SelectMessages(a, party) + SelectMessages(b, party)
  {
    if a == [] {
      assert a + b == b;
    } else {
      SelectConcat(a[1..], b, party);
      assert (a + b)[1..] == a[1..] + b;
      Associate(if a[0].to == Some(party) then [a[0]] else [], SelectMessages(a[1..], party), SelectMessages(b, party));
    }
  }

  /**
   * A list is routed message by message, in order: a broadcast reaches everyone but its sender, and a direct message its
   * addressee alone.
   */
  lemma RoutesInOrder(before: seq<Message>, m: Message, party: nat)
    ensures FilterMessages(before + [m], party) == FilterMessages(before, party) + if m.from == party then [] else [m]
    ensures SelectMessages(before + [m], party) == SelectMessages(before, party) + if m.to == Some(party) then [m] else []
    ensures FilterMessages([], party) == [] && SelectMessages([], party) == []
  {
    FilterConcat(before, [m], party);
    SelectConcat(before, [m], party);
    assert [m][1..] == [];
  }

  /** Filtering twice is filtering once: a relay may filter for the receiver before it does so itself. */
  lemma {:induction false} FilterTwice(a: seq<Message>, party: nat)
    ensures FilterMessages(FilterMessages(a, party), party) == FilterMessages(a, party)
  {
    if a != [] {
      FilterTwice(a[1..], party);
      FilterConcat(if a[0].from != party then [a[0]] else [], FilterMessages(a[1..], party), party);
    }
  }
}
