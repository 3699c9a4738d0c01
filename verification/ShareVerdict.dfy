/** client_session.cpp and stratifier.cpp: judging submitted shares.  All submit handlers share one table of
    sighted hashes that is cleared when the chain tip changes, and again whenever it grows too large.  Handling
    one share is one step. */
module ShareVerdict {
  type Hash = nat

  const TABLE_CAP := 1000000

  // A share once its header is hashed: meets says whether it meets its job's network target, timely whether the
  // chain tip has not moved past its job, rttOk whether an eCash block may be sent now (true elsewhere).
  datatype Share = Share(hash: Hash, meets: bool, timely: bool, difficulty: real, rttOk: bool, ntimeOk: bool)

  // The session's difficulty state when the share is judged.
  datatype Vardiff = Vardiff(current: real, last: real, age: real, tolerance: real)

  datatype Verdict = Stale | LowDifficulty | Duplicate | BadTime | Accepted

  datatype Sighting = Sighting(hash: Hash, epoch: nat, floods: nat)

  // submitted and withheld: every block candidate sent to the node or held back by the eCash guard; accepted:
  // the shares counted over V1, with the state of the table at that time.
  datatype State = State(seen: set<Hash>, epoch: nat, floods: nat, submitted: set<Hash>, withheld: set<Hash>,
                         accepted: seq<Sighting>)

  // ----- the table -----

  function Flooded(s: State): State {
    if |s.seen| > TABLE_CAP then s.(seen := {}, floods := s.floods + 1) else s
  }

  // register_share: whether this is the first sighting.
  function Register(s: State, h: Hash): (State, bool) {
    var t := Flooded(s);
    (t.(seen := t.seen + {h}), h !in t.seen)
  }

  function NewTip(s: State): State {
    s.(seen := {}, epoch := s.epoch + 1)
  }

  // submit_block_candidate and submit_block_sv2.
  function SubmitBlock(s: State, share: Share): State {
    if share.rttOk then s.(submitted := s.submitted + {share.hash}) else s.(withheld := s.withheld + {share.hash})
  }

  function SubmitIf(s: State, share: Share, wanted: bool): State {
    if wanted then SubmitBlock(s, share) else s
  }

  // ----- difficulty -----

  function Scale(x: real, tolerance: real): real {
    x * tolerance
  }

  // The target after the grace for shares mined under the previous difficulty.
  function GraceTarget(d: real, v: Vardiff, window: real, slack: real): real {
    if d < v.current && v.age < window && d >= Scale(v.last, slack) then v.last else v.current
  }

  predicate LowV1(share: Share, v: Vardiff) {
    share.difficulty < Scale(GraceTarget(share.difficulty, v, 40.0, v.tolerance), v.tolerance)
  }

  predicate LowStandard(share: Share, v: Vardiff) {
    share.difficulty < Scale(GraceTarget(share.difficulty, v, 40.0, 0.99), 0.99)
  }

  predicate LowExtended(share: Share, v: Vardiff) {
    share.difficulty < GraceTarget(share.difficulty, v, 15.0, 1.0)
  }

  // ----- the three handlers -----

  function HandleV1(s: State, share: Share, v: Vardiff): (State, Verdict) {
    if !share.timely then
      var (t, first) := Register(s, share.hash);
      (SubmitIf(t, share, first && share.meets), Stale)
    else if LowV1(share, v) then
      (SubmitIf(s, share, share.meets), LowDifficulty)
    else CountV1(s, share)
  }

  // A share in time and at its difficulty counts on its first sighting.
  function CountV1(s: State, share: Share): (State, Verdict) {
    var (t, first) := Register(s, share.hash);
    if !first then (t, Duplicate)
    else
      var counted := t.(accepted := t.accepted + [Sighting(share.hash, t.epoch, t.floods)]);
      (SubmitIf(counted, share, share.meets), Accepted)
  }

  // Both SV2 handlers submit a solve before anything else is judged.
  function SubmitFirst(s: State, share: Share): State {
    if !share.meets then s
    else
      var (t, first) := Register(s, share.hash);
      SubmitIf(t, share, first)
  }

  function HandleStandard(s: State, share: Share, v: Vardiff): (State, Verdict) {
    (SubmitFirst(s, share), if LowStandard(share, v) then LowDifficulty else Accepted)
  }

  function HandleExtended(s: State, share: Share, v: Vardiff): (State, Verdict) {
    (SubmitFirst(s, share),
     if LowExtended(share, v) then LowDifficulty else if !share.ntimeOk then BadTime else Accepted)
  }

  datatype Action = TipChanges | V1(share: Share, v: Vardiff) | Standard(share: Share, v: Vardiff)
                  | Extended(share: Share, v: Vardiff)

  function Step(s: State, a: Action): State {
    match a
    case TipChanges => NewTip(s)
    case V1(share, v) => HandleV1(s, share, v).0
    case Standard(share, v) => HandleStandard(s, share, v).0
    case Extended(share, v) => HandleExtended(s, share, v).0
  }

  function Start(): State {
    State({}, 0, 0, {}, {}, [])
  }

  function Run(actions: seq<Action>): State {
    if actions == [] then Start() else Step(Run(actions[..|actions| - 1]), actions[|actions| - 1])
  }

  // ----- no solve is lost -----

  // The header fixes the network target, so equal hashes agree on meeting it.
  ghost predicate Agrees(share: Share, solves: Hash -> bool) {
    share.meets == solves(share.hash)
  }

  function Dealt(s: State): set<Hash> {
    s.submitted + s.withheld
  }

  // Every sighted solve was dealt with.
  ghost predicate SolvesDealt(s: State, solves: Hash -> bool) {
    forall h :: h in s.seen && solves(h) ==> h in Dealt(s)
  }

  /** One share: when its hash is a solve it has been sent to the node (or held back by the eCash guard) once
      handling ends, whatever the verdict; nothing sent before is forgotten. */
  lemma StepDeals(s: State, a: Action, solves: Hash -> bool)
    requires SolvesDealt(s, solves) && (a.TipChanges? || Agrees(a.share, solves))
    ensures SolvesDealt(Step(s, a), solves) && s.submitted <= Step(s, a).submitted && s.withheld <= Step(s, a).withheld
    ensures !a.TipChanges? && a.share.meets ==> a.share.hash in Dealt(Step(s, a))
    ensures !a.TipChanges? && a.share.rttOk ==> Step(s, a).withheld == s.withheld
  {
    StepWithholds(s, a);
  }

  ghost predicate AllAgree(actions: seq<Action>, solves: Hash -> bool) {
    forall n :: 0 <= n < |actions| && !actions[n].TipChanges? ==> Agrees(actions[n].share, solves)
  }

  lemma AgreeBefore(actions: seq<Action>, solves: Hash -> bool)
    requires actions != [] && AllAgree(actions, solves)
    ensures var m := |actions| - 1;
            AllAgree(actions[..m], solves) && (actions[m].TipChanges? || Agrees(actions[m].share, solves))
  {}

  lemma {:induction false} RunDeals(actions: seq<Action>, solves: Hash -> bool)
    requires AllAgree(actions, solves)
    ensures SolvesDealt(Run(actions), solves)
  {
    if actions != [] {
      AgreeBefore(actions, solves);
      RunDeals(actions[..|actions| - 1], solves);
      StepDeals(Run(actions[..|actions| - 1]), actions[|actions| - 1], solves);
    }
  }

  lemma {:induction false} RunDealsAt(actions: seq<Action>, solves: Hash -> bool, n: nat)
    requires AllAgree(actions, solves) && n < |actions| && !actions[n].TipChanges? && actions[n].share.meets
    ensures actions[n].share.hash in Dealt(Run(actions))
  {
    var m := |actions| - 1;
    AgreeBefore(actions, solves);
    RunDeals(actions[..m], solves);
    StepDeals(Run(actions[..m]), actions[m], solves);
    if n < m {
      RunDealsAt(actions[..m], solves, n);
    }
  }

  lemma {:induction false} NothingWithheld(actions: seq<Action>)
    requires forall k :: 0 <= k < |actions| && !actions[k].TipChanges? ==> actions[k].share.rttOk
    ensures Run(actions).withheld == {}
  {
    if actions != [] {
      NothingWithheld(actions[..|actions| - 1]);
      StepWithholds(Run(actions[..|actions| - 1]), actions[|actions| - 1]);
    }
  }

  lemma StepWithholds(s: State, a: Action)
    ensures Step(s, a).withheld == s.withheld || (!a.TipChanges? && !a.share.rttOk)
  {}

  /** Over every run in which the eCash guard never holds back, every hashed share that meets its network target
      has been submitted, whether judged stale, low, duplicate, late or accepted. */
  lemma NoSolveLost(actions: seq<Action>, solves: Hash -> bool, n: nat)
    requires AllAgree(actions, solves) && n < |actions| && !actions[n].TipChanges? && actions[n].share.meets
    requires forall k :: 0 <= k < |actions| && !actions[k].TipChanges? ==> actions[k].share.rttOk
    ensures actions[n].share.hash in Run(actions).submitted
  {
    RunDealsAt(actions, solves, n);
    NothingWithheld(actions);
  }

  // The handler consults the table for this share.
  predicate UsesTable(a: Action) {
    match a
    case TipChanges => false
    case V1(share, v) => !share.timely || !LowV1(share, v)
    case _ => true
  }

  predicate Solves(a: Action) {
    !a.TipChanges? && a.share.meets
  }

  // Exactly when a step leaves a solve unsubmitted.
  lemma LostExactly(s: State, a: Action)
    requires Solves(a)
    ensures a.share.hash !in Dealt(Step(s, a))
            <==> a.share.hash in Flooded(s).seen && a.share.hash !in Dealt(s) && UsesTable(a)
  {}

  lemma StepDealsOnly(s: State, a: Action)
    ensures Dealt(s) <= Dealt(Step(s, a)) <= Dealt(s) + if Solves(a) then {a.share.hash} else {}
  {}

  // Once handled, the solve at n has been submitted or held back by the eCash guard.
  ghost predicate DealtAt(actions: seq<Action>, n: nat)
    requires n < |actions| && Solves(actions[n])
  {
    actions[n].share.hash in Dealt(Run(actions[..n + 1]))
  }

  predicate SolvedBy(a: Action, h: Hash) {
    Solves(a) && a.share.hash == h
  }

  // If the handler asks the table for the solve at n and finds its hash there, an earlier solve put it there.
  ghost predicate Unshadowed(actions: seq<Action>, n: nat)
    requires n < |actions| && Solves(actions[n])
  {
    UsesTable(actions[n]) && actions[n].share.hash in Flooded(Run(actions[..n])).seen ==>
      exists k :: 0 <= k < n && SolvedBy(actions[k], actions[n].share.hash)
  }

  lemma OneStep(actions: seq<Action>, n: nat)
    requires n < |actions|
    ensures Run(actions[..n + 1]) == Step(Run(actions[..n]), actions[n])
  {
    assert actions[..n + 1][..n] == actions[..n];
  }

  lemma {:induction false} DealtBySolve(actions: seq<Action>, n: nat, h: Hash)
    requires n <= |actions| && h in Dealt(Run(actions[..n]))
    ensures exists k :: 0 <= k < n && SolvedBy(actions[k], h)
  {
    if n != 0 {
      OneStep(actions, n - 1);
      StepDealsOnly(Run(actions[..n - 1]), actions[n - 1]);
      if h in Dealt(Run(actions[..n - 1])) {
        DealtBySolve(actions, n - 1, h);
      } else {
        assert SolvedBy(actions[n - 1], h);
      }
    }
  }

  lemma {:induction false} StaysDealt(actions: seq<Action>, m: nat, n: nat)
    requires m <= n <= |actions|
    ensures Dealt(Run(actions[..m])) <= Dealt(Run(actions[..n]))
  {
    if m < n {
      StaysDealt(actions, m, n - 1);
      OneStep(actions, n - 1);
      StepDealsOnly(Run(actions[..n - 1]), actions[n - 1]);
    }
  }

  lemma {:induction false} UnshadowedDealt(actions: seq<Action>, n: nat)
    requires n < |actions| && Solves(actions[n])
    requires forall k :: 0 <= k <= n && Solves(actions[k]) ==> Unshadowed(actions, k)
    ensures DealtAt(actions, n)
  {
    OneStep(actions, n);
    LostExactly(Run(actions[..n]), actions[n]);
    if !DealtAt(actions, n) {
      var k :| 0 <= k < n && SolvedBy(actions[k], actions[n].share.hash);
      UnshadowedDealt(actions, k);
      StaysDealt(actions, k + 1, n);
    }
  }

  /** In any run, whatever the shares say of their targets and whenever the eCash guard holds back: every solve is
      submitted or held back when it is handled, exactly when none finds its hash in the table unless an earlier solve
      put it there. */
  lemma NoneLostExactly(actions: seq<Action>)
    ensures (forall n :: 0 <= n < |actions| && Solves(actions[n]) ==> DealtAt(actions, n))
            <==> (forall n :: 0 <= n < |actions| && Solves(actions[n]) ==> Unshadowed(actions, n))
  {
    forall n | 0 <= n < |actions| && Solves(actions[n]) && DealtAt(actions, n)
      ensures Unshadowed(actions, n)
    {
      OneStep(actions, n);
      LostExactly(Run(actions[..n]), actions[n]);
      if actions[n].share.hash in Dealt(Run(actions[..n])) {
        DealtBySolve(actions, n, actions[n].share.hash);
      }
    }
    if forall n :: 0 <= n < |actions| && Solves(actions[n]) ==> Unshadowed(actions, n) {
      forall n | 0 <= n < |actions| && Solves(actions[n])
        ensures DealtAt(actions, n)
      {
        UnshadowedDealt(actions, n);
      }
    }
  }

  // ----- V1 verdicts -----

  // A stale share is never counted; a share is counted only on its first sighting and at its difficulty.
  lemma V1Verdicts(s: State, share: Share, v: Vardiff)
    ensures var (t, verdict) := HandleV1(s, share, v);
            && (verdict == Accepted <==> share.timely && !LowV1(share, v) && share.hash !in Flooded(s).seen)
            && (verdict == Accepted <==> |t.accepted| == |s.accepted| + 1)
            && (verdict != Accepted ==> t.accepted == s.accepted)
            && (verdict == Duplicate ==> t.submitted == s.submitted && t.withheld == s.withheld)
  {}

  // At a fraction of the current difficulty, or of the previous one in the seconds after a change.
  ghost predicate AtDifficulty(d: real, v: Vardiff, fraction: real, seconds: real) {
    d >= Scale(v.current, fraction) || (v.age < seconds && d >= Scale(v.last, fraction))
  }

  // A difficulty and a fraction of it that make sense.
  ghost predicate Sensible(v: Vardiff) {
    v.current >= 0.0 && 0.0 < v.tolerance <= 1.0
  }

  lemma Fraction(x: real, fraction: real)
    requires x >= 0.0 && fraction <= 1.0
    ensures Scale(x, fraction) <= x
  {
    assert x * (1.0 - fraction) >= 0.0;
  }

  /** When a share is low: over V1 below the tolerated fraction of the difficulty, or of the previous one up to 40
      seconds after a change; over a standard SV2 channel likewise at 99 percent; over an extended one below the
      difficulty itself, or the previous one up to 15 seconds after a change. */
  lemma LowExactly(share: Share, v: Vardiff)
    requires Sensible(v)
    ensures LowV1(share, v) <==> !AtDifficulty(share.difficulty, v, v.tolerance, 40.0)
    ensures LowStandard(share, v) <==> !AtDifficulty(share.difficulty, v, 0.99, 40.0)
    ensures LowExtended(share, v) <==> !AtDifficulty(share.difficulty, v, 1.0, 15.0)
  {
    Fraction(v.current, v.tolerance);
    Fraction(v.current, 0.99);
  }

  // A solve sighted for the first time is sent to the node, or held back by the eCash guard; nothing else is.
  ghost predicate Sends(s: State, share: Share, t: State) {
    var sent := if share.meets && share.hash !in Flooded(s).seen then {share.hash} else {};
    && t.submitted == s.submitted + (if share.rttOk then sent else {})
    && t.withheld == s.withheld + (if share.rttOk then {} else sent) && t.accepted == s.accepted
  }

  /** Over SV2 a solve goes out whatever the verdict, and the verdict is about difficulty alone, and on an extended
      channel the share's time: neither staleness nor a second sighting is looked at. */
  lemma Sv2Verdicts(s: State, share: Share, v: Vardiff)
    requires Sensible(v)
    ensures var (t, verdict) := HandleStandard(s, share, v);
            && Sends(s, share, t)
            && verdict == if AtDifficulty(share.difficulty, v, 0.99, 40.0) then Accepted else LowDifficulty
    ensures var (t, verdict) := HandleExtended(s, share, v);
            && Sends(s, share, t)
            && verdict == if !AtDifficulty(share.difficulty, v, 1.0, 15.0) then LowDifficulty
                          else if share.ntimeOk then Accepted else BadTime
  {
    LowExactly(share, v);
    SolveSent(s, share);
  }

  lemma SolveSent(s: State, share: Share)
    ensures Sends(s, share, SubmitFirst(s, share))
  {}

  // What is counted since the table was last cleared is in it, and nothing twice.
  ghost predicate CountedOnce(s: State) {
    && (forall i :: 0 <= i < |s.accepted| ==>
          s.accepted[i].epoch < s.epoch || (s.accepted[i].epoch == s.epoch && s.accepted[i].floods <= s.floods))
    && (forall i :: 0 <= i < |s.accepted| && s.accepted[i].epoch == s.epoch && s.accepted[i].floods == s.floods ==>
          s.accepted[i].hash in s.seen)
    && (forall i, j :: 0 <= i < j < |s.accepted| ==> s.accepted[i] != s.accepted[j])
  }

  lemma StepCounts(s: State, a: Action)
    requires CountedOnce(s)
    ensures CountedOnce(Step(s, a))
  {
    if !a.TipChanges? {
      RegisterCounts(s, a.share.hash);
      if a.V1? && HandleV1(s, a.share, a.v).1 == Accepted {
        FirstCounts(s, a.share.hash);
      }
    }
  }

  lemma RegisterCounts(s: State, h: Hash)
    requires CountedOnce(s)
    ensures CountedOnce(Register(s, h).0)
  {}

  // A first sighting was not counted since the table was last cleared.
  lemma FirstCounts(s: State, h: Hash)
    requires CountedOnce(s) && Register(s, h).1
    ensures var t := Register(s, h).0;
            CountedOnce(t.(accepted := t.accepted + [Sighting(h, t.epoch, t.floods)]))
  {
    var t := Register(s, h).0;
    RegisterCounts(s, h);
    forall i | 0 <= i < |s.accepted|
      ensures s.accepted[i] != Sighting(h, t.epoch, t.floods)
    {
    }
  }

  /** In every run V1 counts no hash twice between two clearings of the table. */
  lemma {:induction false} RunCountsOnce(actions: seq<Action>)
    ensures CountedOnce(Run(actions))
  {
    if actions != [] {
      RunCountsOnce(actions[..|actions| - 1]);
      StepCounts(Run(actions[..|actions| - 1]), actions[|actions| - 1]);
    }
  }

  // What V1 counts: a share in time and at its difficulty.
  predicate Earns(a: Action, h: Hash) {
    a.V1? && a.share.hash == h && a.share.timely && !LowV1(a.share, a.v)
  }

  /** In every run each counted hash was submitted by a share that was in time and met its difficulty. */
  lemma {:induction false} RunCountsEarned(actions: seq<Action>, i: nat)
    requires i < |Run(actions).accepted|
    ensures exists n :: 0 <= n < |actions| && Earns(actions[n], Run(actions).accepted[i].hash)
  {
    var before, a := actions[..|actions| - 1], actions[|actions| - 1];
    StepEarns(Run(before), a, i);
    if i < |Run(before).accepted| {
      RunCountsEarned(before, i);
      var n :| 0 <= n < |before| && Earns(before[n], Run(before).accepted[i].hash);
      assert actions[n] == before[n];
    }
  }

  lemma StepEarns(s: State, a: Action, i: nat)
    requires i < |Step(s, a).accepted|
    ensures if i < |s.accepted| then Step(s, a).accepted[i] == s.accepted[i] else Earns(a, Step(s, a).accepted[i].hash)
  {}

  // The shares that were in time, at their difficulty and sighted for the first time.
  function Earnings(actions: seq<Action>): nat {
    if actions == [] then 0
    else
      var before, a := actions[..|actions| - 1], actions[|actions| - 1];
      Earnings(before)
      + if a.V1? && Earns(a, a.share.hash) && a.share.hash !in Flooded(Run(before)).seen then 1 else 0
  }

  /** In every run V1 counts exactly the shares that were in time, met their difficulty and were sighted for the first
      time since the table was cleared. */
  lemma {:induction false} RunCountsAll(actions: seq<Action>)
    ensures |Run(actions).accepted| == Earnings(actions)
  {
    if actions != [] {
      var before, a := actions[..|actions| - 1], actions[|actions| - 1];
      RunCountsAll(before);
      if a.V1? {
        V1Verdicts(Run(before), a.share, a.v);
      }
    }
  }

  // Shares handled since the tip last changed.
  function SinceTip(actions: seq<Action>): nat {
    if actions == [] || actions[|actions| - 1].TipChanges? then 0 else SinceTip(actions[..|actions| - 1]) + 1
  }

  ghost predicate Calm(actions: seq<Action>) {
    forall n :: 0 <= n <= |actions| ==> SinceTip(actions[..n]) <= 1000000
  }

  lemma SetGrows(s: set<Hash>, h: Hash)
    ensures |s + {h}| <= |s| + 1
  {
    if h in s {
      assert s + {h} == s;
    }
  }

  lemma SeenGrows(s: State, a: Action)
    requires |s.seen| <= TABLE_CAP
    ensures Step(s, a).floods == s.floods
    ensures |Step(s, a).seen| <= if a.TipChanges? then 0 else |s.seen| + 1
  {
    if !a.TipChanges? {
      SetGrows(s.seen, a.share.hash);
    }
  }

  lemma {:induction false} CalmRuns(actions: seq<Action>)
    requires Calm(actions)
    ensures Run(actions).floods == 0 && |Run(actions).seen| <= SinceTip(actions)
  {
    if actions != [] {
      var before := actions[..|actions| - 1];
      assert forall n :: 0 <= n <= |before| ==> before[..n] == actions[..n];
      CalmRuns(before);
      assert actions[..|before|] == before;
      SeenGrows(Run(before), actions[|actions| - 1]);
    }
  }

  lemma {:induction false} NoFloodsCounted(actions: seq<Action>)
    requires Calm(actions)
    ensures forall i :: 0 <= i < |Run(actions).accepted| ==> Run(actions).accepted[i].floods == 0
  {
    if actions != [] {
      var before := actions[..|actions| - 1];
      assert forall n :: 0 <= n <= |before| ==> before[..n] == actions[..n];
      NoFloodsCounted(before);
      CalmRuns(before);
      assert actions[..|before|] == before;
      SeenGrows(Run(before), actions[|actions| - 1]);
    }
  }

  /** As long as no more than a million shares arrive between two changes of the tip, V1 counts no hash twice
      for the same tip. */
  lemma NoneTwicePerTip(actions: seq<Action>, i: nat, j: nat)
    requires Calm(actions) && i < j < |Run(actions).accepted|
    ensures var accepted := Run(actions).accepted;
            accepted[i].epoch == accepted[j].epoch ==> accepted[i].hash != accepted[j].hash
  {
    RunCountsOnce(actions);
    NoFloodsCounted(actions);
    var accepted := Run(actions).accepted;
    assert accepted[i] != accepted[j];
  }

  // ----- the objects -----

  class Stratifier {
    var seenShares: set<Hash>
    ghost var epoch: nat
    ghost var floods: nat

    constructor ()
      ensures seenShares == {} && epoch == 0 && floods == 0
    {
      seenShares, epoch, floods := {}, 0, 0;
    }

    method RegisterShare(h: Hash) returns (first: bool)
      modifies this
      ensures epoch == old(epoch)
      ensures var cleared := |old(seenShares)| > TABLE_CAP;
              && seenShares == (if cleared then {} else old(seenShares)) + {h}
              && floods == (if cleared then old(floods) + 1 else old(floods))
              && first == (cleared || h !in old(seenShares))
    {
      if |seenShares| > TABLE_CAP {
        seenShares := {};
        floods := floods + 1;
      }
      first := h !in seenShares;
      seenShares := seenShares + {h};
    }

    method OnNewTip()
      modifies this
      ensures seenShares == {} && epoch == old(epoch) + 1 && floods == old(floods)
    {
      seenShares, epoch := {}, epoch + 1;
    }
  }

  class ClientSession {
    const strat: Stratifier
    // What reached the node or was held back, and what was counted.
    var submitted: set<Hash>
    var withheld: set<Hash>
    var sharesAccepted: nat
    var sharesRejected: nat
    ghost var accepted: seq<Sighting>

    constructor (s: Stratifier)
      ensures strat == s && submitted == {} && withheld == {} && accepted == [] && sharesAccepted == sharesRejected == 0
    {
      strat := s;
      submitted, withheld, accepted, sharesAccepted, sharesRejected := {}, {}, [], 0, 0;
    }

    ghost function Now(): State
      reads this, strat
    {
      State(strat.seenShares, strat.epoch, strat.floods, submitted, withheld, accepted)
    }

    method SubmitCandidate(share: Share)
      modifies this`submitted, this`withheld
      ensures Now() == SubmitBlock(old(Now()), share)
    {
      if !share.rttOk {
        withheld := withheld + {share.hash};
        return;
      }
      submitted := submitted + {share.hash};
    }

    method HandleSubmit(share: Share, v: Vardiff) returns (verdict: Verdict)
      modifies this, strat
      ensures (Now(), verdict) == HandleV1(old(Now()), share, v)
      ensures sharesAccepted == old(sharesAccepted) + if verdict == Accepted then 1 else 0
      ensures sharesRejected == old(sharesRejected) + if verdict == Accepted then 0 else 1
    {
      if !share.timely {
        var first := strat.RegisterShare(share.hash);
        if first && share.meets {
          SubmitCandidate(share);
        }
        sharesRejected := sharesRejected + 1;
        return Stale;
      }
      var target := v.current;
      if share.difficulty < target {
        if v.age < 40.0 && share.difficulty >= Scale(v.last, v.tolerance) {
          target := v.last;
        }
      }
      if share.difficulty < Scale(target, v.tolerance) {
        if share.meets {
          SubmitCandidate(share);
        }
        sharesRejected := sharesRejected + 1;
        return LowDifficulty;
      }
      verdict := CountShare(share);
    }

    method CountShare(share: Share) returns (verdict: Verdict)
      modifies this, strat
      ensures (Now(), verdict) == CountV1(old(Now()), share)
      ensures sharesAccepted == old(sharesAccepted) + if verdict == Accepted then 1 else 0
      ensures sharesRejected == old(sharesRejected) + if verdict == Accepted then 0 else 1
    {
      var first := strat.RegisterShare(share.hash);
      if !first {
        sharesRejected := sharesRejected + 1;
        return Duplicate;
      }
      sharesAccepted := sharesAccepted + 1;
      accepted := accepted + [Sighting(share.hash, strat.epoch, strat.floods)];
      if share.meets {
        SubmitCandidate(share);
      }
      return Accepted;
    }

    method SubmitSolve(share: Share)
      modifies this`submitted, this`withheld, strat
      ensures Now() == SubmitFirst(old(Now()), share)
    {
      if share.meets {
        var first := strat.RegisterShare(share.hash);
        if first {
          SubmitCandidate(share);
        }
      }
    }

    method HandleSubmitSharesV2(share: Share, v: Vardiff) returns (verdict: Verdict)
      modifies this, strat
      ensures (Now(), verdict) == HandleStandard(old(Now()), share, v)
      ensures sharesAccepted == old(sharesAccepted) + if verdict == Accepted then 1 else 0
    {
      SubmitSolve(share);
      var target := v.current;
      if share.difficulty < target {
        if v.age < 40.0 && share.difficulty >= Scale(v.last, 0.99) {
          target := v.last;
        }
      }
      if share.difficulty < Scale(target, 0.99) {
        sharesRejected := sharesRejected + 1;
        return LowDifficulty;
      }
      sharesAccepted := sharesAccepted + 1;
      return Accepted;
    }

    method HandleSubmitSharesExtendedV2(share: Share, v: Vardiff) returns (verdict: Verdict)
      modifies this, strat
      ensures (Now(), verdict) == HandleExtended(old(Now()), share, v)
      ensures sharesAccepted == old(sharesAccepted) + if verdict == Accepted then 1 else 0
    {
      SubmitSolve(share);
      var target := v.current;
      if share.difficulty < target {
        if v.age < 15.0 && share.difficulty >= v.last {
          target := v.last;
        }
      }
      if share.difficulty < target {
        sharesRejected := sharesRejected + 1;
        return LowDifficulty;
      }
      if !share.ntimeOk {
        sharesRejected := sharesRejected + 1;
        return BadTime;
      }
      sharesAccepted := sharesAccepted + 1;
      return Accepted;
    }
  }
}
