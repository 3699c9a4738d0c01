/** bitcoin_client.cpp: a block submission is retried a bounded number of times, and every attempt fails over
    through the configured nodes.  The network is a function giving the outcome of each contact in turn. */
module RpcRetry {
  const MAX_ATTEMPTS := 5

  // A node's own answer, accepting or not, or no valid response at all.
  datatype Outcome = Answer(body: int) | NoResponse(error: int)

  type Network = nat -> Outcome

  // The nodes contacted so far in order, and the one that answered last.
  datatype State = State(contacts: seq<nat>, current: nat)

  // ----- what one round over the nodes does -----

  // The node after idx, and the one k places after it, going round.
  function After(idx: nat, nodes: nat): (next: nat)
    requires idx < nodes
    ensures next < nodes
  {
    if idx + 1 < nodes then idx + 1 else 0
  }

  function Place(idx: nat, k: nat, nodes: nat): int {
    if idx + k < nodes then idx + k else idx + k - nodes
  }

  lemma AfterIsModulo(idx: nat, nodes: nat)
    requires idx < nodes
    ensures (idx + 1) % nodes == After(idx, nodes)
  {}

  // From node idx, with tried nodes already without response: the contacts made, the outcome and its node.
  function Round(net: Network, nodes: nat, idx: nat, tried: nat, made: nat): (seq<nat>, Outcome)
    requires idx < nodes && tried < nodes
    decreases nodes - tried
  {
    var o := net(made);
    if o.Answer? || tried + 1 >= nodes then ([idx], o)
    else
      var (rest, last) := Round(net, nodes, After(idx, nodes), tried + 1, made + 1);
      ([idx] + rest, last)
  }

  function AfterRound(s: State, contacts: seq<nat>, o: Outcome): State
    requires contacts != []
  {
    State(s.contacts + contacts, if o.Answer? then contacts[|contacts| - 1] else s.current)
  }

  // No contact in this range was answered.
  ghost predicate Unanswered(net: Network, from: nat, to: nat) {
    forall k :: from <= k < to ==> net(k).NoResponse?
  }

  ghost predicate Cyclic(contacts: seq<nat>, idx: nat, nodes: nat) {
    forall k :: 0 <= k < |contacts| ==> contacts[k] == Place(idx, k, nodes)
  }

  /** A round contacts the nodes one after another in cyclic order, each at most once, and stops at the first
      answer; without one it has contacted all that were left. */
  lemma {:induction false} RoundIsCyclic(net: Network, nodes: nat, idx: nat, tried: nat, made: nat)
    requires idx < nodes && tried < nodes
    ensures var (contacts, o) := Round(net, nodes, idx, tried, made);
            && 1 <= |contacts| <= nodes - tried && Cyclic(contacts, idx, nodes)
            && Unanswered(net, made, made + |contacts| - 1) && o == net(made + |contacts| - 1)
            && (o.NoResponse? ==> |contacts| == nodes - tried)
    decreases nodes - tried
  {
    var o := net(made);
    if !(o.Answer? || tried + 1 >= nodes) {
      var next := After(idx, nodes);
      RoundIsCyclic(net, nodes, next, tried + 1, made + 1);
      var (rest, last) := Round(net, nodes, next, tried + 1, made + 1);
      FirstOfRound(idx, rest, nodes);
    }
  }

  lemma FirstOfRound(idx: nat, rest: seq<nat>, nodes: nat)
    requires idx < nodes && |rest| < nodes && Cyclic(rest, After(idx, nodes), nodes)
    ensures Cyclic([idx] + rest, idx, nodes)
  {
    var contacts := [idx] + rest;
    forall k | 0 <= k < |contacts|
      ensures contacts[k] == Place(idx, k, nodes)
    {
      if k > 0 {
        assert rest[k - 1] == Place(After(idx, nodes), k - 1, nodes);
      }
    }
  }

  // ----- what a submission does -----

  function Contacts(rounds: nat, nodes: nat): nat {
    if rounds == 0 then 0 else nodes + Contacts(rounds - 1, nodes)
  }

  // The state afterwards and the one outcome delivered, with so many rounds left.
  function Submission(net: Network, nodes: nat, s: State, rounds: nat): (State, Outcome)
    requires s.current < nodes && rounds >= 1
    decreases rounds
  {
    RoundIsCyclic(net, nodes, s.current, 0, |s.contacts|);
    var (contacts, o) := Round(net, nodes, s.current, 0, |s.contacts|);
    var t := AfterRound(s, contacts, o);
    if o.Answer? || rounds == 1 then (t, o) else Submission(net, nodes, t, rounds - 1)
  }

  // How a submission ended.
  ghost predicate Delivered(net: Network, nodes: nat, s: State, t: State, o: Outcome, most: nat) {
    && s.contacts < t.contacts && t.current < nodes && |t.contacts| - |s.contacts| <= most
    && o == net(|t.contacts| - 1) && Unanswered(net, |s.contacts|, |t.contacts| - 1)
    && (o.NoResponse? ==> |t.contacts| - |s.contacts| == most && t.current == s.current)
    && (o.Answer? ==> t.current == t.contacts[|t.contacts| - 1])
  }

  /** A submission delivers the first answer any node gives, after at most so many rounds over all the nodes; it
      reports failure only when every node was contacted in every round without an answer. */
  lemma {:induction false} SubmissionDelivers(net: Network, nodes: nat, s: State, rounds: nat)
    requires s.current < nodes && rounds >= 1
    ensures var (t, o) := Submission(net, nodes, s, rounds);
            Delivered(net, nodes, s, t, o, Contacts(rounds, nodes))
    decreases rounds
  {
    RoundDelivers(net, nodes, s);
    var (contacts, o) := Round(net, nodes, s.current, 0, |s.contacts|);
    var t := AfterRound(s, contacts, o);
    if o.NoResponse? && rounds > 1 {
      SubmissionDelivers(net, nodes, t, rounds - 1);
    }
  }

  lemma RoundDelivers(net: Network, nodes: nat, s: State)
    requires s.current < nodes
    ensures Round(net, nodes, s.current, 0, |s.contacts|).0 != []
    ensures var (contacts, o) := Round(net, nodes, s.current, 0, |s.contacts|);
            Delivered(net, nodes, s, AfterRound(s, contacts, o), o, nodes)
  {
    RoundIsCyclic(net, nodes, s.current, 0, |s.contacts|);
    var contacts := Round(net, nodes, s.current, 0, |s.contacts|).0;
    assert contacts[|contacts| - 1] == Place(s.current, |contacts| - 1, nodes);
  }

  // ----- the client -----

  class BitcoinClient {
    const nodes: nat
    const net: Network
    var contacts: seq<nat>
    var current: nat
    // The callback: every outcome handed to the caller.
    var delivered: seq<Outcome>

    ghost predicate Valid()
      reads this
    {
      current < nodes
    }

    ghost function Now(): State
      reads this
    {
      State(contacts, current)
    }

    constructor (n: nat, network: Network)
      requires n > 0
      ensures Valid() && nodes == n && net == network && Now() == State([], 0) && delivered == []
    {
      nodes, net, contacts, current, delivered := n, network, [], 0, [];
    }

    /** rpcTryEndpoint: contact a node; on no response go on to the next. */
    method RpcTryEndpoint(idx: nat, tried: nat) returns (o: Outcome)
      requires Valid() && idx < nodes && tried < nodes
      modifies this`contacts, this`current
      ensures Valid()
      ensures var (made, outcome) := Round(net, nodes, idx, tried, |old(contacts)|);
              made != [] && o == outcome && Now() == AfterRound(old(Now()), made, outcome)
      decreases nodes - tried
    {
      o := net(|contacts|);
      contacts := contacts + [idx];
      if o.Answer? {
        current := idx;
        return;
      }
      if tried + 1 >= nodes {
        return;
      }
      ghost var before := old(contacts);
      AfterIsModulo(idx, nodes);
      o := RpcTryEndpoint((idx + 1) % nodes, tried + 1);
      ghost var rest := Round(net, nodes, After(idx, nodes), tried + 1, |before| + 1).0;
      assert before + [idx] + rest == before + ([idx] + rest);
    }

    method SubmitAttempt(attempt: nat)
      requires Valid() && 1 <= attempt <= MAX_ATTEMPTS
      modifies this
      ensures Valid()
      ensures var (t, o) := Submission(net, nodes, old(Now()), MAX_ATTEMPTS - attempt + 1);
              Now() == t && delivered == old(delivered) + [o]
      decreases MAX_ATTEMPTS - attempt
    {
      var o := RpcTryEndpoint(current, 0);
      if o.Answer? || attempt >= MAX_ATTEMPTS {
        delivered := delivered + [o];
        return;
      }
      SubmitAttempt(attempt + 1);
    }

    /** Exactly one outcome is delivered for a submission. */
    method SubmitWithRetry()
      requires Valid()
      modifies this
      ensures Valid()
      ensures var (t, o) := Submission(net, nodes, old(Now()), 5);
              Now() == t && delivered == old(delivered) + [o]
    {
      SubmitAttempt(1);
    }
  }
}
