/** cluster_trunk.cpp and cluster_ingest.cpp: nothing is skipped while the trunk stays up.  After any earlier run
    with losses, a new connection is made; from then on the trunk, the origin's session and the miner's loopback
    stay and the two caps are not hit.  That the opening frame goes first, that frames flow only after the welcome
    and that the bridge is there when data arrives is proved of the protocol. */
module TrunkSteady {
  import opened Options
  import opened Subsequence
  import opened Trunk

  // ----- what the surroundings do -----

  // The edge has room for the frame at the head of its strand.
  predicate RoomAtEdge(e: Edge) {
    (e.welcomed && e.conn.Some?) || |e.pendingOut| < PENDING_CAP
  }

  // The miner's bridge has room for the next line while its loopback connects.
  predicate RoomAtOrigin(l: Link, cid: nat) {
    cid in l.clients && !l.clients[cid].connected ==> |l.clients[cid].pending| < LOOPBACK_CAP
  }

  /** The trunk is not lost, stopped or replaced, its origin does not close, its greeting is good, connections lost
      earlier deliver nothing any more, the miner stays, its loopback stays, and both caps leave room. */
  predicate Calm(s: State, a: Action, g: nat, cid: nat) {
    match a
    case TrunkLost => false
    case Stops => false
    case Connects => s.edge.conn.None?
    case Hellos(role, auth) => role && auth
    case EdgeReceives(h) => h == g
    case OriginCloses(h) => h != g
    case MinerLeaves(c) => c != cid
    case LoopbackDown(h, c) => h != g || c != cid
    case RunStrand => RoomAtEdge(s.edge)
    case OriginReceives(h) => h == g && g < |s.net.links| ==> RoomAtOrigin(s.net.links[g], cid)
    case _ => true
  }

  // Before the calm the trunk is down and the miner has not connected.
  predicate Down(s: State, cid: nat) {
    s.edge.running && s.edge.conn.None? && cid >= s.edge.nextCid
  }

  ghost predicate CalmRun(before: seq<Action>, after: seq<Action>, cid: nat) {
    var g := |Run(before).net.links|;
    && Down(Run(before), cid)
    && forall n :: 0 <= n < |after| ==> Calm(Run(before + after[..n]), after[n], g, cid)
  }

  // ----- the invariant of the calm -----

  predicate Greets(f: Frame) {
    f.Hello? && f.role && f.auth
  }

  // Before the greeting is taken nothing else is on the way; afterwards nothing ends the session or the miner's bridge.
  ghost predicate LinkCalm(l: Link, cid: nat) {
    && !l.edgeClosed && !l.originClosed
    && (!l.helloOk ==> l.down == [] && l.clients == map[] && l.bridged == {}
                       && forall i :: 0 <= i < |l.up| ==> Greets(l.up[i]))
    && (forall i :: 0 <= i < |l.up| ==> l.up[i] != Close(cid))
    && (forall i :: 0 <= i < |l.down| ==> l.down[i] != Close(cid) && !l.down[i].Bye? && !l.down[i].Ping?)
  }

  // The miner's opening frame is on the wire before anything of it, or has been taken.
  ghost predicate Bridged(l: Link, cid: nat) {
    cid in l.clients
    || (Open(cid) in l.up && forall i, j :: 0 <= i < j < |l.up| && l.up[j] == Open(cid) ==> !Concerns(l.up[i], cid))
  }

  ghost predicate TrunkCalm(s: State, g: nat, cid: nat) {
    && s.edge.running
    && if s.edge.conn.None? then |s.net.links| == g
       else && s.edge.conn == Some(g) && |s.net.links| == g + 1 && LinkCalm(s.net.links[g], cid)
            && (s.edge.welcomed ==> s.net.links[g].helloOk)
  }

  // Where the miner's opening frame is: still waiting at the edge, or gone out over this connection.
  ghost predicate OpenedBy(n: Net, q: seq<Frame>, g: nat, cid: nat) {
    Open(cid) in q || (g < |n.links| && HomeIs(n.home, cid, g) && Bridged(n.links[g], cid))
  }

  ghost predicate QueueCalm(q: seq<Frame>, cid: nat) {
    forall i :: 0 <= i < |q| ==> q[i] != Close(cid)
  }

  ghost predicate MinerCalm(s: State, g: nat, cid: nat) {
    && cid >= 1 && QueueCalm(Queue(s.edge), cid)
    && (cid < s.edge.nextCid ==> cid in s.edge.sessions && OpenedBy(s.net, Queue(s.edge), g, cid))
  }

  ghost predicate AllCalm(s: State, g: nat, cid: nat) {
    Valid(s) && TrunkCalm(s, g, cid) && MinerCalm(s, g, cid)
  }

  lemma CalmBegins(s: State, cid: nat)
    requires Valid(s) && Down(s, cid)
    ensures AllCalm(s, |s.net.links|, cid)
  {
    var q := Queue(s.edge);
    assert Silent(q, cid);
    forall i | 0 <= i < |q|
      ensures q[i] != Close(cid)
    {
      assert !Concerns(q[i], cid);
    }
  }

  lemma QueueParts(a: seq<Frame>, b: seq<Frame>, cid: nat)
    ensures QueueCalm(a + b, cid) ==> QueueCalm(a, cid) && QueueCalm(b, cid)
    ensures Silent(a + b, cid) ==> Silent(a, cid) && Silent(b, cid)
  {
    var q := a + b;
    assert forall i :: 0 <= i < |a| ==> a[i] == q[i];
    assert forall i :: 0 <= i < |b| ==> b[i] == q[|a| + i];
  }

  // ----- sending -----

  // A frame that goes out over the greeted connection.
  ghost predicate Sendable(n: Net, g: nat, f: Frame, cid: nat) {
    |n.links| == g + 1 && LinkCalm(n.links[g], cid) && n.links[g].helloOk && f != Close(cid)
  }

  lemma SentLink(n: Net, g: nat, f: Frame, cid: nat)
    requires Sendable(n, g, f, cid)
    ensures var m := Send(n, Some(g), f);
            && |m.links| == g + 1 && LinkCalm(m.links[g], cid) && m.links[g].helloOk
            && m.links[g].up == n.links[g].up + [f] && m.links[g].clients == n.links[g].clients
  {}

  lemma OpeningSent(n: Net, g: nat, rest: seq<Frame>, cid: nat)
    requires Sendable(n, g, Open(cid), cid) && QueueOk(n, [Open(cid)] + rest)
    ensures OpenedBy(Send(n, Some(g), Open(cid)), rest, g, cid)
  {
    assert ([Open(cid)] + rest)[0] == Open(cid);
    assert Unsent(n, cid);
    SentLink(n, g, Open(cid), cid);
    var up := n.links[g].up;
    assert (up + [Open(cid)])[|up|] == Open(cid);
    assert Silent(up, cid);
  }

  lemma OtherSent(n: Net, g: nat, f: Frame, rest: seq<Frame>, cid: nat)
    requires Sendable(n, g, f, cid) && f != Open(cid) && OpenedBy(n, [f] + rest, g, cid)
    ensures OpenedBy(Send(n, Some(g), f), rest, g, cid)
  {
    if Open(cid) !in rest {
      SentLink(n, g, f, cid);
      var up := n.links[g].up;
      if cid !in n.links[g].clients {
        var k :| 0 <= k < |up| && up[k] == Open(cid);
        assert (up + [f])[k] == Open(cid);
      }
    }
  }

  // Data at the head of the queue finds its bridge: the opening frame went before it.
  lemma DataIsHome(n: Net, g: nat, f: Frame, rest: seq<Frame>, cid: nat)
    requires Sendable(n, g, f, cid) && QueueOk(n, [f] + rest) && OpenedBy(n, [f] + rest, g, cid)
    ensures !LosesFrame(n, Some(g), f, cid)
  {
    if f.Data? && f.cid == cid && Open(cid) in rest {
      var k :| 0 <= k < |rest| && rest[k] == Open(cid);
      assert ([f] + rest)[0] == f && ([f] + rest)[k + 1] == Open(cid);
    }
  }

  lemma SendCalm(n: Net, g: nat, f: Frame, rest: seq<Frame>, cid: nat)
    requires Sendable(n, g, f, cid) && QueueOk(n, [f] + rest) && OpenedBy(n, [f] + rest, g, cid)
    ensures OpenedBy(Send(n, Some(g), f), rest, g, cid) && !LosesFrame(n, Some(g), f, cid)
  {
    DataIsHome(n, g, f, rest, cid);
    if f == Open(cid) {
      OpeningSent(n, g, rest, cid);
    } else {
      OtherSent(n, g, f, rest, cid);
    }
  }

  // The miner is known and opened, or not yet known at all.
  ghost predicate Followed(n: Net, q: seq<Frame>, g: nat, next: nat, cid: nat) {
    if cid < next then OpenedBy(n, q, g, cid) else Silent(q, cid)
  }

  lemma SendFollows(n: Net, g: nat, f: Frame, rest: seq<Frame>, next: nat, cid: nat)
    requires Sendable(n, g, f, cid) && QueueOk(n, [f] + rest) && Followed(n, [f] + rest, g, next, cid)
    ensures Followed(Send(n, Some(g), f), rest, g, next, cid) && !LosesFrame(n, Some(g), f, cid)
  {
    if cid < next {
      SendCalm(n, g, f, rest, cid);
    } else {
      SilentTail(f, rest, cid);
    }
  }

  lemma {:induction false} SendAllFollows(n: Net, g: nat, fs: seq<Frame>, rest: seq<Frame>, next: nat, cid: nat)
    requires |n.links| == g + 1 && LinkCalm(n.links[g], cid) && n.links[g].helloOk && QueueCalm(fs, cid)
    requires NetOk(n) && QueueOk(n, fs + rest) && Known(n, fs + rest, next) && Followed(n, fs + rest, g, next, cid)
    ensures var m := SendAll(n, Some(g), fs);
            && |m.links| == g + 1 && LinkCalm(m.links[g], cid) && m.links[g].helloOk && Followed(m, rest, g, next, cid)
    ensures !LosesSome(n, Some(g), fs, cid)
    decreases fs
  {
    if fs == [] {
      assert fs + rest == rest;
    } else {
      var f, tail := fs[0], fs[1..] + rest;
      assert fs + rest == [f] + tail;
      SendFollows(n, g, f, tail, next, cid);
      SendOk(n, Some(g), f, tail, next);
      SentLink(n, g, f, cid);
      SendAllFollows(Send(n, Some(g), f), g, fs[1..], rest, next, cid);
    }
  }

  // ----- steps of the edge -----

  lemma MinerKeeps(s: State, a: Action, g: nat, cid: nat)
    requires AllCalm(s, g, cid) && Calm(s, a, g, cid) && (a.MinerConnects? || a.MinerSends? || a.MinerLeaves?)
    ensures TrunkCalm(Step(s, a), g, cid) && MinerCalm(Step(s, a), g, cid)
  {
    var q, t := Queue(s.edge), Step(s, a);
    if Queue(t.edge) != q {
      var f := t.edge.mailbox[|t.edge.mailbox| - 1];
      assert Queue(t.edge) == q + [f];
      assert f in Queue(t.edge);
    }
  }

  lemma Following(s: State, g: nat, cid: nat)
    requires AllCalm(s, g, cid)
    ensures Followed(s.net, Queue(s.edge), g, s.edge.nextCid, cid)
  {}

  lemma StrandKeeps(s: State, g: nat, cid: nat)
    requires AllCalm(s, g, cid) && Calm(s, RunStrand, g, cid)
    ensures TrunkCalm(Step(s, RunStrand), g, cid) && MinerCalm(Step(s, RunStrand), g, cid)
    ensures !LostAtEdge(s, cid)
  {
    if s.edge.mailbox != [] {
      var f, rest := s.edge.mailbox[0], s.edge.mailbox[1..];
      if s.edge.welcomed && s.edge.conn.Some? {
        assert Queue(s.edge) == [f] + rest && Queue(RunPosted(s).edge) == rest;
        assert ([f] + rest)[0] == f;
        Following(s, g, cid);
        SentLink(s.net, g, f, cid);
        SendFollows(s.net, g, f, rest, s.edge.nextCid, cid);
        RestCalm(f, rest, cid);
      } else {
        assert Queue(RunPosted(s).edge) == Queue(s.edge);
      }
    }
  }

  lemma RestCalm(f: Frame, rest: seq<Frame>, cid: nat)
    requires QueueCalm([f] + rest, cid)
    ensures QueueCalm(rest, cid) && f != Close(cid)
  {
    assert ([f] + rest)[0] == f;
    forall i | 0 <= i < |rest|
      ensures rest[i] != Close(cid)
    {
      assert ([f] + rest)[i + 1] == rest[i];
    }
  }

  lemma ConnectKeeps(s: State, g: nat, cid: nat)
    requires AllCalm(s, g, cid) && s.edge.conn.None?
    ensures TrunkCalm(Connect(s), g, cid) && MinerCalm(Connect(s), g, cid)
  {
    assert Queue(Connect(s).edge) == Queue(s.edge);
  }

  lemma HelloKeeps(s: State, g: nat, cid: nat)
    requires AllCalm(s, g, cid)
    ensures TrunkCalm(Step(s, Hellos(true, true)), g, cid) && MinerCalm(Step(s, Hellos(true, true)), g, cid)
  {
    var f := Hello(true, true);
    if s.edge.conn.Some? {
      var up := s.net.links[g].up;
      if cid < s.edge.nextCid && Open(cid) !in Queue(s.edge) {
        BridgedLonger(s.net.links[g], f, cid);
      }
    }
  }

  lemma BridgedLonger(l: Link, f: Frame, cid: nat)
    requires Bridged(l, cid) && !f.Open?
    ensures Bridged(l.(up := l.up + [f]), cid)
  {
    if cid !in l.clients {
      var k :| 0 <= k < |l.up| && l.up[k] == Open(cid);
      assert (l.up + [f])[k] == Open(cid);
    }
  }

  // ----- steps at the connection -----

  lemma Tail(l: Link, cid: nat)
    requires l.up != [] && LinkCalm(l, cid)
    ensures forall i :: 0 <= i < |Taken(l).up| ==> Taken(l).up[i] == l.up[i + 1]
    ensures LinkCalm(Taken(l), cid)
  {}

  lemma GreetKeeps(l: Link, cid: nat)
    requires l.up != [] && LinkCalm(l, cid) && !l.helloOk
    ensures LinkCalm(OnLine(Taken(l), l.up[0]), cid) && OnLine(Taken(l), l.up[0]).helloOk
  {
    Tail(l, cid);
    assert Greets(l.up[0]);
  }

  lemma OnLineCalm(l: Link, cid: nat)
    requires l.up != [] && LinkCalm(l, cid) && l.helloOk && cid >= 1
    ensures LinkCalm(OnLine(Taken(l), l.up[0]), cid) && OnLine(Taken(l), l.up[0]).helloOk
  {
    Tail(l, cid);
  }

  // Taking a frame off the wire keeps the miner's bridge, or builds it.
  lemma BridgeKept(l: Link, cid: nat)
    requires l.up != [] && LinkCalm(l, cid) && l.helloOk && cid >= 1 && Bridged(l, cid)
    ensures Bridged(OnLine(Taken(l), l.up[0]), cid)
    ensures l.up[0].Data? && l.up[0].cid == cid ==> cid in l.clients
  {
    var f, m := l.up[0], OnLine(Taken(l), l.up[0]);
    if cid in l.clients {
      assert f != Close(cid);
    } else {
      var k :| 0 <= k < |l.up| && l.up[k] == Open(cid);
      if k > 0 {
        assert m.up[k - 1] == Open(cid);
        assert !Concerns(l.up[0], cid);
      }
    }
  }

  lemma NotLostAtOrigin(l: Link, cid: nat)
    requires l.up != [] && LinkCalm(l, cid) && cid >= 1 && Bridged(l, cid) && RoomAtOrigin(l, cid)
    ensures !LostAtOrigin(l, l.up[0], cid)
  {
    if l.helloOk {
      BridgeKept(l, cid);
    }
  }

  // ----- steps at one end of a connection -----

  lemma Unopened(n: Net, q: seq<Frame>, cid: nat)
    requires QueueOk(n, q)
    ensures Open(cid) in q ==> cid !in n.home
  {
    if Open(cid) in q {
      var k :| 0 <= k < |q| && q[k] == Open(cid);
      assert Unsent(n, q[k].cid);
    }
  }

  // The miner's frames are at home on this connection only.
  lemma NotElsewhere(s: State, g: nat, h: nat, cid: nat)
    requires AllCalm(s, g, cid) && h != g
    ensures !HomeIs(s.net.home, cid, h)
  {
    if cid in s.net.home {
      assert cid < s.edge.nextCid;
      Unopened(s.net, Queue(s.edge), cid);
    }
  }

  lemma OtherLink(s: State, g: nat, h: nat, m: Link, cid: nat)
    requires AllCalm(s, g, cid) && h != g && h < |s.net.links|
    ensures TrunkCalm(OnLink(s, h, m), g, cid) && MinerCalm(OnLink(s, h, m), g, cid)
  {}

  // What a step at the connection must keep.
  lemma ThisLink(s: State, g: nat, m: Link, cid: nat)
    requires AllCalm(s, g, cid) && g < |s.net.links| && LinkCalm(m, cid)
    requires s.net.links[g].helloOk ==> m.helloOk
    requires HomeIs(s.net.home, cid, g) && Bridged(s.net.links[g], cid) ==> Bridged(m, cid)
    ensures TrunkCalm(OnLink(s, g, m), g, cid) && MinerCalm(OnLink(s, g, m), g, cid)
  {}

  // Once the miner's opening frame is out, the bridge is there or on its way.
  lemma HomeIsBridged(s: State, g: nat, cid: nat)
    requires AllCalm(s, g, cid) && HomeIs(s.net.home, cid, g)
    ensures g < |s.net.links| && LinkCalm(s.net.links[g], cid) && Bridged(s.net.links[g], cid)
  {
    assert cid < s.edge.nextCid;
    Unopened(s.net, Queue(s.edge), cid);
  }

  lemma OriginReceivesKeeps(s: State, h: nat, g: nat, cid: nat)
    requires AllCalm(s, g, cid) && Calm(s, OriginReceives(h), g, cid)
    ensures TrunkCalm(Step(s, OriginReceives(h)), g, cid) && MinerCalm(Step(s, OriginReceives(h)), g, cid)
    ensures !Loses(s, OriginReceives(h), cid)
  {
    if h < |s.net.links| && s.net.links[h].up != [] {
      var l := s.net.links[h];
      var m := OnLine(Taken(l), l.up[0]);
      if h != g {
        NotElsewhere(s, g, h, cid);
        OtherLink(s, g, h, m, cid);
      } else {
        ReceivedCalm(s, g, cid);
        ThisLink(s, g, m, cid);
      }
    }
  }

  lemma ReceivedCalm(s: State, g: nat, cid: nat)
    requires AllCalm(s, g, cid) && g < |s.net.links| && s.net.links[g].up != [] && RoomAtOrigin(s.net.links[g], cid)
    ensures var l := s.net.links[g];
            var m := OnLine(Taken(l), l.up[0]);
            && LinkCalm(m, cid) && m.helloOk && (Bridged(l, cid) ==> Bridged(m, cid))
            && (HomeIs(s.net.home, cid, g) ==> !LostAtOrigin(l, l.up[0], cid))
  {
    var l := s.net.links[g];
    if l.helloOk {
      OnLineCalm(l, cid);
      if Bridged(l, cid) {
        BridgeKept(l, cid);
      }
    } else {
      GreetKeeps(l, cid);
    }
    if HomeIs(s.net.home, cid, g) {
      HomeIsBridged(s, g, cid);
      NotLostAtOrigin(l, cid);
    }
  }

  lemma LoopbackKeeps(s: State, a: Action, g: nat, cid: nat)
    requires AllCalm(s, g, cid) && Calm(s, a, g, cid)
    requires a.OriginCloses? || a.LoopbackUp? || a.LoopbackDown? || a.LoopbackSends?
    ensures TrunkCalm(Step(s, a), g, cid) && MinerCalm(Step(s, a), g, cid)
    ensures !Loses(s, a, cid) && !DownLoses(s, a, cid)
  {
    if a.g < |s.net.links| {
      var l := s.net.links[a.g];
      assert AtHome(l, a.g, s.net.home);
      var m := match a
        case OriginCloses(_) => CloseOrigin(l)
        case LoopbackUp(_, c) => LoopbackConnected(l, c)
        case LoopbackDown(_, c) => CloseClient(l, c, true)
        case LoopbackSends(_, c, line) => if c in l.bridged then Reply(l, Data(c, line)) else l
        case _ => l;
      assert Step(s, a) == OnLink(s, a.g, m) || Step(s, a) == s;
      if a.g != g {
        NotElsewhere(s, g, a.g, cid);
        OtherLink(s, g, a.g, m, cid);
      } else {
        LoopbackCalm(l, a, m, cid);
        ThisLink(s, g, m, cid);
      }
    }
  }

  lemma LoopbackCalm(l: Link, a: Action, m: Link, cid: nat)
    requires LinkCalm(l, cid) && (forall c :: c in l.clients ==> c in l.bridged)
    requires match a
             case LoopbackUp(_, c) => m == LoopbackConnected(l, c)
             case LoopbackDown(_, c) => c != cid && m == CloseClient(l, c, true)
             case LoopbackSends(_, c, line) => m == if c in l.bridged then Reply(l, Data(c, line)) else l
             case _ => false
    ensures LinkCalm(m, cid) && (l.helloOk ==> m.helloOk) && (Bridged(l, cid) ==> Bridged(m, cid))
  {}

  // ----- what the edge receives -----

  lemma PopCalm(s: State, g: nat, cid: nat)
    requires AllCalm(s, g, cid) && g < |s.net.links| && s.net.links[g].down != []
    ensures var l := s.net.links[g];
            var t := OnLink(s, g, l.(down := l.down[1..]));
            AllCalm(t, g, cid) && t.net.links[g].helloOk && t.edge == s.edge
  {
    var l := s.net.links[g];
    PopDown(s, g);
    ThisLink(s, g, l.(down := l.down[1..]), cid);
  }

  lemma WelcomeKeeps(s: State, g: nat, cid: nat)
    requires AllCalm(s, g, cid) && s.edge.conn == Some(g) && s.net.links[g].helloOk
    ensures TrunkCalm(OnFrame(s, Welcome), g, cid) && MinerCalm(OnFrame(s, Welcome), g, cid)
    ensures !LosesSome(s.net, s.edge.conn, s.edge.pendingOut, cid)
  {
    var t := OnFrame(s, Welcome);
    Following(s, g, cid);
    QueueParts(s.edge.pendingOut, s.edge.mailbox, cid);
    SendAllFollows(s.net, g, s.edge.pendingOut, s.edge.mailbox, s.edge.nextCid, cid);
    assert Queue(t.edge) == s.edge.mailbox;
  }

  lemma FrameKeeps(s: State, f: Frame, g: nat, cid: nat)
    requires AllCalm(s, g, cid) && s.edge.conn == Some(g) && s.net.links[g].helloOk
    requires f != Close(cid) && !f.Bye? && !f.Ping?
    ensures TrunkCalm(OnFrame(s, f), g, cid) && MinerCalm(OnFrame(s, f), g, cid)
    ensures f == Welcome ==> !LosesSome(s.net, s.edge.conn, s.edge.pendingOut, cid)
  {
    if f == Welcome {
      WelcomeKeeps(s, g, cid);
    } else {
      assert Queue(OnFrame(s, f).edge) == Queue(s.edge);
    }
  }

  lemma EdgeReceivesKeeps(s: State, g: nat, cid: nat)
    requires AllCalm(s, g, cid)
    ensures TrunkCalm(Step(s, EdgeReceives(g)), g, cid) && MinerCalm(Step(s, EdgeReceives(g)), g, cid)
    ensures !Loses(s, EdgeReceives(g), cid) && !DownLoses(s, EdgeReceives(g), cid)
  {
    if g < |s.net.links| && s.net.links[g].down != [] {
      var l := s.net.links[g];
      PopCalm(s, g, cid);
      FrameKeeps(OnLink(s, g, l.(down := l.down[1..])), l.down[0], g, cid);
      assert AtHome(l, g, s.net.home);
    }
  }

  // ----- every step, every run -----

  lemma StepKeeps(s: State, a: Action, g: nat, cid: nat)
    requires AllCalm(s, g, cid) && Calm(s, a, g, cid)
    ensures AllCalm(Step(s, a), g, cid) && !Loses(s, a, cid) && !DownLoses(s, a, cid)
  {
    StepFlows(s, a, cid);
    match a {
      case MinerConnects => MinerKeeps(s, a, g, cid);
      case MinerSends(_, _) => MinerKeeps(s, a, g, cid);
      case MinerLeaves(_) => MinerKeeps(s, a, g, cid);
      case RunStrand => StrandKeeps(s, g, cid);
      case Connects => ConnectKeeps(s, g, cid);
      case Hellos(_, _) => HelloKeeps(s, g, cid);
      case EdgeReceives(_) => EdgeReceivesKeeps(s, g, cid);
      case OriginReceives(h) => OriginReceivesKeeps(s, h, g, cid);
      case _ => LoopbackKeeps(s, a, g, cid);
    }
  }

  // A miner that has not connected has nothing to lose.
  lemma {:induction false} NothingLost(n: Net, conn: Option<nat>, fs: seq<Frame>, cid: nat)
    requires Silent(fs, cid)
    ensures !LosesSome(n, conn, fs, cid)
    decreases fs
  {
    if fs != [] {
      SilentTail(fs[0], fs[1..], cid);
      assert fs == [fs[0]] + fs[1..];
      NothingLost(Send(n, conn, fs[0]), conn, fs[1..], cid);
    }
  }

  lemma UnknownSilent(s: State, cid: nat)
    requires Valid(s) && cid >= s.edge.nextCid
    ensures Silent(s.edge.mailbox, cid) && Silent(s.edge.pendingOut, cid) && LinesOf(s.edge.pendingOut, cid) == []
    ensures cid !in s.net.home
  {
    assert Silent(Queue(s.edge), cid);
    QueueParts(s.edge.pendingOut, s.edge.mailbox, cid);
    SilentLines(s.edge.pendingOut, cid);
  }

  lemma UnknownSafe(s: State, a: Action, cid: nat)
    requires Valid(s) && cid >= s.edge.nextCid
    ensures !Loses(s, a, cid) && !DownLoses(s, a, cid)
  {
    UnknownSilent(s, cid);
    match a {
      case EdgeReceives(g) =>
        if g < |s.net.links| && s.net.links[g].down != [] {
          var t := OnLink(s, g, s.net.links[g].(down := s.net.links[g].down[1..]));
          NothingLost(t.net, s.edge.conn, s.edge.pendingOut, cid);
          assert AtHome(s.net.links[g], g, s.net.home);
        }
      case LoopbackSends(g, _, _) =>
        if g < |s.net.links| {
          assert AtHome(s.net.links[g], g, s.net.home);
        }
      case _ =>
    }
  }

  lemma CidsKeep(s: State, a: Action)
    ensures s.edge.nextCid <= Step(s, a).edge.nextCid
  {}

  lemma {:induction false} CidsGrow(actions: seq<Action>, m: nat)
    requires m <= |actions|
    ensures Run(actions[..m]).edge.nextCid <= Run(actions).edge.nextCid
    decreases |actions|
  {
    if m == |actions| {
      assert actions[..m] == actions;
    } else {
      var t := actions[..|actions| - 1];
      CidsGrow(t, m);
      CidsKeep(Run(t), actions[|actions| - 1]);
      assert t[..m] == actions[..m];
    }
  }

  lemma LastOf<T>(x: seq<T>, y: seq<T>)
    requires y != []
    ensures x + y == x + y[..|y| - 1] + [y[|y| - 1]]
  {}

  lemma OneMore(actions: seq<Action>, a: Action)
    ensures Run(actions + [a]) == Step(Run(actions), a)
  {
    assert (actions + [a])[..|actions|] == actions;
  }

  // The last action of the calm.
  lemma LastAction(before: seq<Action>, after: seq<Action>)
    requires after != []
    ensures var m := |after| - 1;
            && Run(before + after) == Step(Run(before + after[..m]), after[m])
            && before + after == before + after[..m] + [after[m]]
  {
    LastOf(before, after);
    OneMore(before + after[..|after| - 1], after[|after| - 1]);
  }

  lemma CalmBefore(before: seq<Action>, after: seq<Action>, cid: nat)
    requires after != [] && CalmRun(before, after, cid)
    ensures var m := |after| - 1;
            CalmRun(before, after[..m], cid) && Calm(Run(before + after[..m]), after[m], |Run(before).net.links|, cid)
  {
    var m, g := |after| - 1, |Run(before).net.links|;
    forall n | 0 <= n < m
      ensures Calm(Run(before + after[..m][..n]), after[..m][n], g, cid)
    {
      assert after[..m][..n] == after[..n];
    }
  }

  lemma {:induction false} RunCalm(before: seq<Action>, after: seq<Action>, cid: nat)
    requires CalmRun(before, after, cid)
    ensures AllCalm(Run(before + after), |Run(before).net.links|, cid)
    decreases |after|
  {
    if after == [] {
      assert before + after == before;
      RunFlows(before, cid);
      CalmBegins(Run(before), cid);
    } else {
      var m := |after| - 1;
      CalmBefore(before, after, cid);
      LastAction(before, after);
      RunCalm(before, after[..m], cid);
      StepKeeps(Run(before + after[..m]), after[m], |Run(before).net.links|, cid);
    }
  }

  lemma QuietBefore(before: seq<Action>, cid: nat)
    requires Run(before).edge.nextCid <= cid
    ensures Undisturbed(before, cid) && DownUndisturbed(before, cid)
  {
    forall n | 0 <= n < |before|
      ensures !Loses(Run(before[..n]), before[n], cid) && !DownLoses(Run(before[..n]), before[n], cid)
    {
      RunFlows(before[..n], cid);
      CidsGrow(before, n);
      UnknownSafe(Run(before[..n]), before[n], cid);
    }
  }

  /** In a calm no step drops a line of the miner, in either direction. */
  lemma {:induction false} NeverDisturbed(before: seq<Action>, after: seq<Action>, cid: nat)
    requires CalmRun(before, after, cid)
    ensures Undisturbed(before + after, cid) && DownUndisturbed(before + after, cid)
    decreases |after|
  {
    if after == [] {
      assert before + after == before;
      QuietBefore(before, cid);
    } else {
      var m := |after| - 1;
      CalmBefore(before, after, cid);
      NeverDisturbed(before, after[..m], cid);
      RunCalm(before, after[..m], cid);
      StepKeeps(Run(before + after[..m]), after[m], |Run(before).net.links|, cid);
      Longer(before + after[..m], after[m], cid);
      LastAction(before, after);
    }
  }

  lemma Longer(actions: seq<Action>, a: Action, cid: nat)
    requires Undisturbed(actions, cid) && DownUndisturbed(actions, cid)
    requires !Loses(Run(actions), a, cid) && !DownLoses(Run(actions), a, cid)
    ensures Undisturbed(actions + [a], cid) && DownUndisturbed(actions + [a], cid)
  {
    var all := actions + [a];
    forall n | 0 <= n < |all|
      ensures !Loses(Run(all[..n]), all[n], cid) && !DownLoses(Run(all[..n]), all[n], cid)
    {
      if n < |actions| {
        assert all[..n] == actions[..n];
      } else {
        assert all[..n] == actions;
      }
    }
  }

  // What is between the miner and its loopback, and all of it.
  ghost predicate Holds(s: State, g: nat, cid: nat, sent: seq<Line>) {
    if cid in s.net.home then
      && s.net.home[cid] == g < |s.net.links|
      && sent == Log(s.net.links[g].reached, cid) + Waiting(s.net.links[g], cid) + LinesOf(s.net.links[g].up, cid)
                 + LinesOf(Queue(s.edge), cid)
    else sent == LinesOf(Queue(s.edge), cid)
  }

  lemma PipeHolds(s: State, g: nat, cid: nat)
    requires AllCalm(s, g, cid)
    ensures Holds(s, g, cid, PipeOf(s, cid))
  {
    if cid in s.net.home {
      HomeKnown(s, g, cid);
    } else {
      assert [] + LinesOf(Queue(s.edge), cid) == LinesOf(Queue(s.edge), cid);
    }
  }

  /** After any run, while a new trunk, the origin's session and the miner's loopback stay and neither cap is hit,
      nothing the miner sends is skipped: what reached its loopback, what waits for it, what is on the wire and
      what waits at the edge are, in this order, exactly what the miner sent. */
  lemma RunComplete(before: seq<Action>, after: seq<Action>, cid: nat)
    requires CalmRun(before, after, cid)
    ensures Holds(Run(before + after), |Run(before).net.links|, cid, Sent(before + after, cid))
  {
    NeverDisturbed(before, after, cid);
    RunFlows(before + after, cid);
    RunCalm(before, after, cid);
    PipeHolds(Run(before + after), |Run(before).net.links|, cid);
  }

  lemma HomeKnown(s: State, g: nat, cid: nat)
    requires AllCalm(s, g, cid) && cid in s.net.home
    ensures s.net.home[cid] == g < |s.net.links|
  {
    if s.net.home[cid] != g {
      NotElsewhere(s, g, s.net.home[cid], cid);
    }
    HomeIsBridged(s, g, cid);
  }

  /** In the same calm nothing for the miner is skipped either: what was delivered to it and what is on the wire are
      exactly what its loopback sent. */
  lemma RunDownComplete(before: seq<Action>, after: seq<Action>, cid: nat)
    requires CalmRun(before, after, cid)
    ensures var s := Run(before + after);
            var g := |Run(before).net.links|;
            LoopbackSent(before + after, cid)
            == Log(s.delivered, cid)
               + if cid in s.net.home && g < |s.net.links| then LinesOf(s.net.links[g].down, cid) else []
  {
    var s := Run(before + after);
    NeverDisturbed(before, after, cid);
    RunDownFlows(before + after, cid);
    RunCalm(before, after, cid);
    if cid in s.net.home {
      HomeKnown(s, |Run(before).net.links|, cid);
    }
  }
}
