/** cluster_trunk.cpp and cluster_ingest.cpp: the edge's sessions and the origin's bridges follow each other.  While a
    trunk connection is up, a bridge without a session has its closing frame on the way to the origin, and a session
    without a bridge has its opening frame on the way there or the origin's closing frame on the way back. */
module TrunkDepartures {
  import opened Options
  import opened Trunk

  // ----- one connection -----

  predicate Up(l: Link) {
    !l.edgeClosed && !l.originClosed
  }

  predicate StandsAt(l: Link, cid: nat) {
    Open(cid) in l.up || cid in l.clients
  }

  // The miner's opening frame comes once and first; the origin says that a bridge is gone only when it is.
  ghost predicate Once(l: Link, cid: nat) {
    && (cid in l.bridged ==> Open(cid) !in l.up)
    && (cid in l.clients ==> cid in l.bridged)
    && (forall i, j :: 0 <= i < j < |l.up| && l.up[j] == Open(cid) ==> !Concerns(l.up[i], cid))
    && (Close(cid) in l.down ==> cid in l.bridged && cid !in l.clients)
  }

  // What a step at the connection may do with the miner's bridge.
  ghost predicate Moves(l: Link, m: Link, cid: nat) {
    && m.edgeClosed == l.edgeClosed && (Up(m) ==> Up(l)) && Once(m, cid)
    && (Up(m) && StandsAt(m, cid) ==> StandsAt(l, cid) && (Close(cid) in l.up ==> Close(cid) in m.up))
    && (Up(m) && StandsAt(l, cid) ==> StandsAt(m, cid) || Close(cid) in l.up || Close(cid) in m.down)
    && (Close(cid) in l.down ==> Close(cid) in m.down) && (Close(cid) in m.up ==> Close(cid) in l.up)
  }

  lemma ReplyMoves(l: Link, f: Frame, cid: nat)
    requires Once(l, cid) && f != Close(cid)
    ensures Moves(l, Reply(l, f), cid)
  {}

  lemma CloseOriginMoves(l: Link, cid: nat)
    requires Once(l, cid)
    ensures Moves(l, CloseOrigin(l), cid)
  {}

  lemma LoopbackUpMoves(l: Link, c: nat, cid: nat)
    requires Once(l, cid)
    ensures Moves(l, LoopbackConnected(l, c), cid)
  {}

  lemma LoopbackDownMoves(l: Link, c: nat, cid: nat)
    requires Once(l, cid)
    ensures Moves(l, CloseClient(l, c, true), cid)
  {
    var m := CloseClient(l, c, true);
    if c == cid && cid in l.clients && !l.originClosed {
      assert m.down[|l.down|] == Close(cid);
    }
  }

  lemma TakenIs(l: Link, cid: nat)
    requires l.up != [] && Once(l, cid)
    ensures forall f :: f in l.up <==> f == l.up[0] || f in Taken(l).up
    ensures Once(Taken(l), cid)
    ensures Open(cid) in Taken(l).up ==> !Concerns(l.up[0], cid)
  {
    var f, t := l.up[0], l.up[1..];
    assert l.up == [f] + t;
    assert forall i :: 0 <= i < |t| ==> t[i] == l.up[i + 1];
    if Open(cid) in t {
      var j :| 0 <= j < |t| && t[j] == Open(cid);
      assert l.up[j + 1] == Open(cid);
    }
  }

  // What the origin does with a frame f it has just taken, when nothing of the miner is to be opened after it.
  lemma GreetingMoves(t: Link, f: Frame, cid: nat)
    requires Once(t, cid) && !t.helloOk
    ensures Moves(t, OnLine(t, f), cid)
  {}

  lemma OpenMoves(t: Link, c: nat, cid: nat)
    requires Once(t, cid) && (c == cid ==> Open(cid) !in t.up && Close(cid) !in t.down)
    ensures Once(OpenClient(t, c), cid) && (c == cid ==> cid in OpenClient(t, c).clients)
    ensures c != cid ==> Moves(t, OpenClient(t, c), cid)
  {}

  lemma DataMoves(t: Link, c: nat, line: Line, cid: nat)
    requires Once(t, cid)
    ensures Moves(t, ClientData(t, c, line), cid)
  {}

  lemma CloseMoves(t: Link, c: nat, cid: nat)
    requires Once(t, cid)
    ensures Once(CloseClient(t, c, false), cid) && (c == cid ==> cid !in CloseClient(t, c, false).clients)
    ensures c != cid ==> Moves(t, CloseClient(t, c, false), cid)
  {}

  // Taking a frame that does not open or close the miner changes nothing more for it than the rest of the step does.
  lemma OtherHead(l: Link, m: Link, cid: nat)
    requires l.up != [] && Once(l, cid) && l.up[0] != Open(cid) && l.up[0] != Close(cid) && Moves(Taken(l), m, cid)
    ensures Moves(l, m, cid)
  {
    TakenIs(l, cid);
  }

  lemma OpenHead(l: Link, cid: nat)
    requires l.up != [] && Once(l, cid) && l.up[0] == Open(cid)
    ensures Moves(l, OpenClient(Taken(l), cid), cid)
  {
    TakenIs(l, cid);
    assert l.up[0] in l.up;
    OpenMoves(Taken(l), cid, cid);
  }

  lemma CloseHead(l: Link, cid: nat)
    requires l.up != [] && Once(l, cid) && l.up[0] == Close(cid)
    ensures Moves(l, CloseClient(Taken(l), cid, false), cid)
  {
    TakenIs(l, cid);
    assert l.up[0] in l.up;
    CloseMoves(Taken(l), cid, cid);
  }

  lemma FrameMoves(t: Link, f: Frame, cid: nat)
    requires Once(t, cid) && f != Open(cid) && f != Close(cid) && t.helloOk
    ensures Moves(t, OnLine(t, f), cid)
  {
    if !t.originClosed {
      match f {
        case Open(c) => OpenMoves(t, c, cid);
        case Data(c, line) => DataMoves(t, c, line, cid);
        case Close(c) => CloseMoves(t, c, cid);
        case Ping => ReplyMoves(t, Pong, cid);
        case _ =>
      }
    }
  }

  // Before its hello is good, or once it is closed, the connection's origin builds no bridge.
  lemma RefusedHead(l: Link, cid: nat)
    requires l.up != [] && Once(l, cid) && (l.originClosed || !l.helloOk)
    requires l.up[0] == Open(cid) || l.up[0] == Close(cid)
    ensures Moves(l, OnLine(Taken(l), l.up[0]), cid)
  {
    TakenIs(l, cid);
  }

  lemma LineMoves(l: Link, cid: nat)
    requires l.up != [] && Once(l, cid) && cid >= 1
    ensures Moves(l, OnLine(Taken(l), l.up[0]), cid)
  {
    var f, t := l.up[0], Taken(l);
    TakenIs(l, cid);
    if f != Open(cid) && f != Close(cid) {
      if t.helloOk {
        FrameMoves(t, f, cid);
      } else {
        GreetingMoves(t, f, cid);
      }
      OtherHead(l, OnLine(t, f), cid);
    } else if l.originClosed || !l.helloOk {
      RefusedHead(l, cid);
    } else if f == Open(cid) {
      OpenHead(l, cid);
    } else {
      CloseHead(l, cid);
    }
  }

  // ----- the whole trunk -----

  // The current connection is up at both ends.
  predicate Live(s: State) {
    s.edge.conn.Some? && s.edge.conn.value < |s.net.links| && Up(s.net.links[s.edge.conn.value])
  }

  function Current(s: State): Link
    requires Live(s)
  {
    s.net.links[s.edge.conn.value]
  }

  // The miner's bridge stands at the origin, or will.
  ghost predicate Standing(s: State, cid: nat) {
    Open(cid) in Queue(s.edge) || (Live(s) && StandsAt(Current(s), cid))
  }

  // The miner's closing frame is on its way to the origin.
  ghost predicate Closing(s: State, cid: nat) {
    Close(cid) in Queue(s.edge) || (Live(s) && Close(cid) in Current(s).up)
  }

  /** A bridge belongs to a session or is about to be closed. */
  ghost predicate Claimed(s: State, cid: nat) {
    Standing(s, cid) ==> cid in s.edge.sessions || Closing(s, cid)
  }

  /** A session has its bridge, or will have, or is about to hear that it is gone. */
  ghost predicate Served(s: State, cid: nat) {
    Live(s) && cid in s.edge.sessions ==> Standing(s, cid) || Close(cid) in Current(s).down
  }

  ghost predicate Orderly(s: State, cid: nat) {
    && Valid(s) && cid >= 1
    && (forall g :: 0 <= g < |s.net.links| ==>
          Once(s.net.links[g], cid) && (cid in s.edge.sessions ==> Close(cid) !in s.net.links[g].up))
    && (cid in s.edge.sessions ==> Close(cid) !in Queue(s.edge))
    && (!s.edge.running ==> s.edge.pendingOut == [] && s.edge.conn.None?)
  }

  // From s to t nothing is left behind.
  ghost predicate Keeps(s: State, t: State, cid: nat) {
    Orderly(t, cid) && (Claimed(s, cid) ==> Claimed(t, cid)) && (Served(s, cid) ==> Served(t, cid))
  }

  lemma ValidStep(s: State, a: Action)
    requires Valid(s)
    ensures Valid(Step(s, a))
  {
    StepFlows(s, a, 0);
  }

  // ----- steps at a connection -----

  lemma OnLinkKeeps(s: State, g: nat, m: Link, cid: nat)
    requires Orderly(s, cid) && g < |s.net.links| && Moves(s.net.links[g], m, cid) && Valid(OnLink(s, g, m))
    ensures Keeps(s, OnLink(s, g, m), cid)
  {
    var t := OnLink(s, g, m);
    assert t.edge == s.edge;
    forall h | 0 <= h < |t.net.links|
      ensures Once(t.net.links[h], cid) && (cid in t.edge.sessions ==> Close(cid) !in t.net.links[h].up)
    {
      assert Once(s.net.links[h], cid);
    }
  }

  lemma OriginReceivesKeeps(s: State, g: nat, cid: nat)
    requires Orderly(s, cid) && g < |s.net.links|
    ensures Keeps(s, Step(s, OriginReceives(g)), cid)
  {
    ValidStep(s, OriginReceives(g));
    var l := s.net.links[g];
    if l.up != [] {
      LineMoves(l, cid);
      OnLinkKeeps(s, g, OnLine(Taken(l), l.up[0]), cid);
    }
  }

  lemma OriginClosesKeeps(s: State, g: nat, cid: nat)
    requires Orderly(s, cid) && g < |s.net.links|
    ensures Keeps(s, Step(s, OriginCloses(g)), cid)
  {
    ValidStep(s, OriginCloses(g));
    CloseOriginMoves(s.net.links[g], cid);
    OnLinkKeeps(s, g, CloseOrigin(s.net.links[g]), cid);
  }

  lemma LoopbackUpKeeps(s: State, g: nat, c: nat, cid: nat)
    requires Orderly(s, cid) && g < |s.net.links|
    ensures Keeps(s, Step(s, LoopbackUp(g, c)), cid)
  {
    ValidStep(s, LoopbackUp(g, c));
    LoopbackUpMoves(s.net.links[g], c, cid);
    OnLinkKeeps(s, g, LoopbackConnected(s.net.links[g], c), cid);
  }

  lemma LoopbackDownKeeps(s: State, g: nat, c: nat, cid: nat)
    requires Orderly(s, cid) && g < |s.net.links|
    ensures Keeps(s, Step(s, LoopbackDown(g, c)), cid)
  {
    ValidStep(s, LoopbackDown(g, c));
    LoopbackDownMoves(s.net.links[g], c, cid);
    OnLinkKeeps(s, g, CloseClient(s.net.links[g], c, true), cid);
  }

  lemma LoopbackSendsKeeps(s: State, g: nat, c: nat, line: Line, cid: nat)
    requires Orderly(s, cid) && g < |s.net.links|
    ensures Keeps(s, Step(s, LoopbackSends(g, c, line)), cid)
  {
    ValidStep(s, LoopbackSends(g, c, line));
    if c in s.net.links[g].bridged {
      ReplyMoves(s.net.links[g], Data(c, line), cid);
      OnLinkKeeps(s, g, Reply(s.net.links[g], Data(c, line)), cid);
    }
  }

  lemma OriginKeeps(s: State, a: Action, cid: nat)
    requires Orderly(s, cid)
    requires a.OriginReceives? || a.OriginCloses? || a.LoopbackUp? || a.LoopbackDown? || a.LoopbackSends?
    ensures Keeps(s, Step(s, a), cid)
  {
    if a.g < |s.net.links| {
      match a {
        case OriginReceives(g) => OriginReceivesKeeps(s, g, cid);
        case OriginCloses(g) => OriginClosesKeeps(s, g, cid);
        case LoopbackUp(g, c) => LoopbackUpKeeps(s, g, c, cid);
        case LoopbackDown(g, c) => LoopbackDownKeeps(s, g, c, cid);
        case LoopbackSends(g, c, line) => LoopbackSendsKeeps(s, g, c, line, cid);
      }
    }
  }

  // ----- sending -----

  // Where an opening frame waits, nothing else of the miner is anywhere.
  lemma WaitingIsFirst(s: State, cid: nat)
    requires Orderly(s, cid) && Open(cid) in Queue(s.edge)
    ensures forall g :: 0 <= g < |s.net.links| ==>
              Silent(s.net.links[g].up, cid) && cid !in s.net.links[g].bridged && !StandsAt(s.net.links[g], cid)
              && Close(cid) !in s.net.links[g].up && Close(cid) !in s.net.links[g].down
  {
    var q := Queue(s.edge);
    var j :| 0 <= j < |q| && q[j] == Open(cid);
    assert Unsent(s.net, q[j].cid);
    forall g | 0 <= g < |s.net.links|
      ensures cid !in s.net.links[g].bridged && Silent(s.net.links[g].up, cid)
    {
      assert AtHome(s.net.links[g], g, s.net.home);
    }
  }

  // The head of the queue is not the miner's closing frame while its opening frame waits behind it.
  lemma HeadOrder(s: State, f: Frame, rest: seq<Frame>, cid: nat)
    requires Orderly(s, cid) && Queue(s.edge) == [f] + rest
    ensures forall x :: x in Queue(s.edge) <==> x == f || x in rest
    ensures Open(cid) in rest ==> !Concerns(f, cid)
  {
    var q := Queue(s.edge);
    if Open(cid) in rest {
      var j :| 0 <= j < |rest| && rest[j] == Open(cid);
      assert q[j + 1] == Open(cid) && q[0] == f;
    }
  }

  lemma LongerOnce(l: Link, f: Frame, cid: nat)
    requires Once(l, cid) && (f == Open(cid) ==> cid !in l.bridged && Silent(l.up, cid))
    ensures var m := l.(up := l.up + [f]);
            && Once(m, cid) && (forall x :: x in m.up <==> x in l.up || x == f)
  {
    var m := l.(up := l.up + [f]);
    assert forall x :: x in m.up <==> x in l.up || x == f;
  }

  // t is s with the frame at the head of the queue sent.
  ghost predicate HeadSent(s: State, t: State, f: Frame) {
    && Queue(s.edge) == [f] + Queue(t.edge) && t.net == Send(s.net, s.edge.conn, f)
    && t.edge.sessions == s.edge.sessions && t.edge.conn == s.edge.conn && t.edge.running == s.edge.running
    && s.edge.running
  }

  lemma SentOnce(s: State, t: State, f: Frame, g: nat, cid: nat)
    requires Orderly(s, cid) && HeadSent(s, t, f) && g < |s.net.links|
    ensures |t.net.links| == |s.net.links| && Once(t.net.links[g], cid)
    ensures cid in s.edge.sessions ==> Close(cid) !in t.net.links[g].up
  {
    var l := s.net.links[g];
    HeadOrder(s, f, Queue(t.edge), cid);
    if f == Open(cid) {
      WaitingIsFirst(s, cid);
    }
    LongerOnce(l, f, cid);
  }

  lemma SentKeeps(s: State, t: State, f: Frame, cid: nat)
    requires Orderly(s, cid) && HeadSent(s, t, f) && Valid(t)
    ensures Keeps(s, t, cid)
  {
    forall g | 0 <= g < |t.net.links|
      ensures Once(t.net.links[g], cid) && (cid in t.edge.sessions ==> Close(cid) !in t.net.links[g].up)
    {
      SentOnce(s, t, f, g, cid);
    }
    HeadOrder(s, f, Queue(t.edge), cid);
    if Live(s) {
      LongerOnce(Current(s), f, cid);
    }
  }

  // A frame that belongs to no miner.
  lemma NeutralKeeps(s: State, f: Frame, cid: nat)
    requires Orderly(s, cid) && (f.Hello? || f.Pong?) && Valid(s.(net := Send(s.net, s.edge.conn, f)))
    ensures Keeps(s, s.(net := Send(s.net, s.edge.conn, f)), cid)
  {
    var t := s.(net := Send(s.net, s.edge.conn, f));
    forall g | 0 <= g < |t.net.links|
      ensures Once(t.net.links[g], cid) && (cid in t.edge.sessions ==> Close(cid) !in t.net.links[g].up)
    {
      LongerOnce(s.net.links[g], f, cid);
    }
    if Live(s) {
      LongerOnce(Current(s), f, cid);
    }
  }

  // ----- the strand -----

  // Not yet welcomed, and what waits for the welcome is at its cap.
  predicate Drops(e: Edge) {
    e.running && e.mailbox != [] && !(e.welcomed && e.conn.Some?) && |e.pendingOut| >= PENDING_CAP
  }

  // The closing frame that is dropped is the last one of a bridge.
  ghost predicate LastClose(s: State, cid: nat) {
    && Drops(s.edge) && s.edge.mailbox[0] == Close(cid) && Standing(s, cid)
    && Close(cid) !in s.edge.pendingOut + s.edge.mailbox[1..] && !(Live(s) && Close(cid) in Current(s).up)
  }

  lemma DroppedKeeps(s: State, cid: nat)
    requires Orderly(s, cid) && Drops(s.edge) && Valid(RunPosted(s))
    ensures Orderly(RunPosted(s), cid)
    ensures Claimed(s, cid) ==> (Claimed(RunPosted(s), cid) <==> !LastClose(s, cid))
    ensures Served(s, cid) ==>
              (Served(RunPosted(s), cid) <==> !(s.edge.mailbox[0] == Open(cid) && cid in s.edge.sessions && Live(s)))
  {
    var t, f, rest := RunPosted(s), s.edge.mailbox[0], s.edge.mailbox[1..];
    var q := Queue(s.edge);
    assert q == s.edge.pendingOut + [f] + rest && Queue(t.edge) == s.edge.pendingOut + rest;
    assert forall x :: x in q <==> x == f || x in Queue(t.edge);
    if f == Open(cid) {
      WaitingIsFirst(s, cid);
      FirstOnly(s, cid);
    }
  }

  // The opening frame waits once.
  lemma FirstOnly(s: State, cid: nat)
    requires Orderly(s, cid) && s.edge.mailbox != [] && s.edge.mailbox[0] == Open(cid)
    ensures Open(cid) !in s.edge.pendingOut + s.edge.mailbox[1..]
  {
    var q, p, rest := Queue(s.edge), s.edge.pendingOut, s.edge.mailbox[1..];
    assert q[|p|] == Open(cid) && Concerns(q[|p|], cid);
    assert forall i :: 0 <= i < |p| ==> p[i] == q[i];
    assert forall i :: 0 <= i < |rest| ==> rest[i] == q[|p| + 1 + i];
  }

  lemma StoppedKeeps(s: State, cid: nat)
    requires Orderly(s, cid) && !s.edge.running && s.edge.mailbox != [] && Valid(RunPosted(s))
    ensures Orderly(RunPosted(s), cid) && (Claimed(s, cid) ==> Claimed(RunPosted(s), cid)) && Served(RunPosted(s), cid)
  {
    var f, rest := s.edge.mailbox[0], s.edge.mailbox[1..];
    assert Queue(s.edge) == [f] + rest && Queue(RunPosted(s).edge) == rest;
    HeadOrder(s, f, rest, cid);
  }

  lemma StrandKeeps(s: State, cid: nat)
    requires Orderly(s, cid) && s.edge.mailbox != []
    ensures Orderly(RunPosted(s), cid)
    ensures Claimed(s, cid) ==> (Claimed(RunPosted(s), cid) <==> !LastClose(s, cid))
    ensures Served(s, cid) ==>
              (Served(RunPosted(s), cid) <==>
               !(Drops(s.edge) && s.edge.mailbox[0] == Open(cid) && cid in s.edge.sessions && Live(s)))
  {
    ValidStep(s, RunStrand);
    if !s.edge.running {
      StoppedKeeps(s, cid);
    } else if Drops(s.edge) {
      DroppedKeeps(s, cid);
    } else {
      PassedKeeps(s, cid);
    }
  }

  // The frame is sent, or waits for the welcome.
  lemma PassedKeeps(s: State, cid: nat)
    requires Orderly(s, cid) && s.edge.running && s.edge.mailbox != [] && !Drops(s.edge) && Valid(RunPosted(s))
    ensures Keeps(s, RunPosted(s), cid)
  {
    var f, rest := s.edge.mailbox[0], s.edge.mailbox[1..];
    if s.edge.welcomed && s.edge.conn.Some? {
      assert Queue(s.edge) == [f] + rest && Queue(RunPosted(s).edge) == rest;
      SentKeeps(s, RunPosted(s), f, cid);
    } else {
      assert Queue(RunPosted(s).edge) == Queue(s.edge);
      SameKeeps(s, RunPosted(s), cid);
    }
  }

  lemma SameKeeps(s: State, t: State, cid: nat)
    requires Orderly(s, cid) && Valid(t) && t.net == s.net && Queue(t.edge) == Queue(s.edge)
    requires t.edge.sessions == s.edge.sessions && t.edge.conn == s.edge.conn && t.edge.running && s.edge.running
    ensures Keeps(s, t, cid)
  {}

  // ----- the welcome -----

  // Everything that waited for the welcome goes out.
  function Flushed(s: State): State {
    s.(edge := s.edge.(pendingOut := []), net := SendAll(s.net, s.edge.conn, s.edge.pendingOut))
  }

  lemma {:induction false} FlushKeeps(s: State, cid: nat)
    requires Orderly(s, cid) && s.edge.running && !(s.edge.welcomed && s.edge.conn.Some?)
    ensures Keeps(s, Flushed(s), cid)
    decreases |s.edge.pendingOut|
  {
    if s.edge.pendingOut == [] {
      assert Flushed(s) == s;
    } else {
      var f, fs := s.edge.pendingOut[0], s.edge.pendingOut[1..];
      var t := s.(edge := s.edge.(pendingOut := fs), net := Send(s.net, s.edge.conn, f));
      assert Queue(s.edge) == [f] + Queue(t.edge);
      SendOk(s.net, s.edge.conn, f, Queue(t.edge), s.edge.nextCid);
      SentKeeps(s, t, f, cid);
      FlushKeeps(t, cid);
    }
  }

  // ----- miners and connections -----

  lemma PostedLast(e: Edge, f: Frame)
    ensures forall x :: x in Queue(Post(e, f)) <==> x in Queue(e) || x == f
  {
    assert Queue(Post(e, f)) == Queue(e) + [f];
  }

  lemma AttachKeeps(s: State, cid: nat)
    requires Orderly(s, cid) && Valid(s.(edge := Attach(s.edge)))
    ensures Keeps(s, s.(edge := Attach(s.edge)), cid)
  {
    PostedLast(s.edge, Open(s.edge.nextCid));
    if cid >= s.edge.nextCid {
      NotYetKnown(s, cid);
    }
  }

  lemma DataKeeps(s: State, f: Frame, cid: nat)
    requires Orderly(s, cid) && f.Data? && Valid(s.(edge := Post(s.edge, f)))
    ensures Keeps(s, s.(edge := Post(s.edge, f)), cid)
  {
    PostedLast(s.edge, f);
  }

  lemma DetachKeeps(s: State, c: nat, cid: nat)
    requires Orderly(s, cid) && Valid(s.(edge := Detach(s.edge, c)))
    ensures Keeps(s, s.(edge := Detach(s.edge, c)), cid)
  {
    PostedLast(s.edge, Close(c));
  }

  lemma PostKeeps(s: State, a: Action, cid: nat)
    requires Orderly(s, cid) && (a.MinerConnects? || a.MinerSends? || a.MinerLeaves?)
    ensures Keeps(s, Step(s, a), cid)
  {
    ValidStep(s, a);
    match a {
      case MinerConnects => AttachKeeps(s, cid);
      case MinerSends(c, line) =>
        if 0 < c < s.edge.nextCid {
          DataKeeps(s, Data(c, line), cid);
        }
      case MinerLeaves(c) => DetachKeeps(s, c, cid);
    }
  }

  lemma NotYetKnown(s: State, cid: nat)
    requires Orderly(s, cid) && cid >= s.edge.nextCid
    ensures Close(cid) !in Queue(s.edge)
    ensures forall g :: 0 <= g < |s.net.links| ==> Close(cid) !in s.net.links[g].up
  {
    assert Silent(Queue(s.edge), cid);
    forall g | 0 <= g < |s.net.links|
      ensures Close(cid) !in s.net.links[g].up
    {
      assert Silent(s.net.links[g].up, cid);
    }
  }

  // The session's opening frame does not wait, so a new connection will not carry it.
  ghost predicate LeftBehind(s: State, cid: nat) {
    s.edge.running && cid in s.edge.sessions && Open(cid) !in Queue(s.edge)
  }

  lemma ConnectKeeps(s: State, cid: nat)
    requires Orderly(s, cid)
    ensures Orderly(Connect(s), cid) && (Claimed(s, cid) ==> Claimed(Connect(s), cid))
    ensures Served(s, cid) ==> (Served(Connect(s), cid) <==> !LeftBehind(s, cid))
  {
    ValidStep(s, Connects);
    var t := Connect(s);
    assert Queue(t.edge) == Queue(s.edge);
    if Open(cid) in Queue(s.edge) {
      WaitingIsFirst(s, cid);
    }
  }

  // The session's opening frame has been posted but the strand has not handled it, nor a closing frame after it.
  ghost predicate PostedOnly(s: State, cid: nat) {
    Open(cid) in s.edge.mailbox && Close(cid) !in s.edge.mailbox
  }

  lemma ClosedEdge(n: Net, conn: Option<nat>)
    ensures var m := CloseEdge(n, conn);
            && |m.links| == |n.links|
            && forall g :: 0 <= g < |n.links| ==>
                 m.links[g] == n.links[g].(edgeClosed := m.links[g].edgeClosed)
                 && (conn == Some(g) ==> m.links[g].edgeClosed)
  {}

  lemma ClosedOnce(s: State, t: State, cid: nat)
    requires Orderly(s, cid) && t.net == CloseEdge(s.net, s.edge.conn) && t.edge.sessions <= s.edge.sessions
    ensures forall g :: 0 <= g < |t.net.links| ==>
              Once(t.net.links[g], cid) && (cid in t.edge.sessions ==> Close(cid) !in t.net.links[g].up)
  {
    ClosedEdge(s.net, s.edge.conn);
    forall g | 0 <= g < |t.net.links|
      ensures Once(t.net.links[g], cid) && (cid in t.edge.sessions ==> Close(cid) !in t.net.links[g].up)
    {
      assert Once(s.net.links[g], cid);
    }
  }

  lemma LoseKeeps(s: State, a: Action, cid: nat)
    requires Orderly(s, cid) && (a.TrunkLost? || a.Stops?)
    ensures Orderly(Step(s, a), cid) && Served(Step(s, a), cid)
    ensures Claimed(Step(s, a), cid) <==> !PostedOnly(s, cid)
  {
    ValidStep(s, a);
    ClosedOnce(s, Step(s, a), cid);
    assert Queue(Step(s, a).edge) == s.edge.mailbox;
  }

  // ----- frames from the origin -----

  // The frame has left the wire.
  lemma PopKeeps(s: State, g: nat, cid: nat)
    requires Orderly(s, cid) && g < |s.net.links| && s.net.links[g].down != []
    ensures var l := s.net.links[g];
            var t := OnLink(s, g, l.(down := l.down[1..]));
            && Orderly(t, cid) && (Claimed(s, cid) ==> Claimed(t, cid))
            && (Served(s, cid) && l.down[0] != Close(cid) ==> Served(t, cid))
            && (l.down[0] == Close(cid) ==> cid in l.bridged && !StandsAt(l, cid))
  {
    var l := s.net.links[g];
    assert l.down == [l.down[0]] + l.down[1..];
    assert l.down[0] in l.down;
    PopDown(s, g);
    var t := OnLink(s, g, l.(down := l.down[1..]));
    forall h | 0 <= h < |t.net.links|
      ensures Once(t.net.links[h], cid) && (cid in t.edge.sessions ==> Close(cid) !in t.net.links[h].up)
    {
      assert Once(s.net.links[h], cid);
    }
  }

  lemma ByeKeeps(s: State, cid: nat)
    requires Orderly(s, cid) && Valid(OnFrame(s, Bye))
    ensures var t := OnFrame(s, Bye);
            Orderly(t, cid) && (Claimed(s, cid) ==> Claimed(t, cid)) && Served(t, cid)
  {
    var t := OnFrame(s, Bye);
    ClosedEdge(s.net, s.edge.conn);
    ClosedOnce(s, t, cid);
    if Open(cid) in Queue(s.edge) {
      WaitingIsFirst(s, cid);
    }
  }

  lemma WelcomeKeeps(s: State, cid: nat)
    requires Orderly(s, cid)
    ensures Keeps(s, OnFrame(s, Welcome), cid)
  {
    WelcomeValid(s);
    var t, u := OnFrame(s, Welcome), Flushed(s);
    if s.edge.pendingOut == [] {
      assert t == s.(edge := s.edge.(welcomed := true));
    } else {
      FlushKeeps(s, cid);
      assert t == u.(edge := u.edge.(welcomed := true));
    }
  }

  // The frame says that the miner's bridge, of a connection that carried its opening frame, is gone.
  lemma CloseKeeps(s: State, c: nat, g: nat, cid: nat)
    requires Orderly(s, cid) && g < |s.net.links|
    requires c == cid ==> cid in s.net.links[g].bridged && !StandsAt(s.net.links[g], cid)
    ensures var t := OnFrame(s, Close(c));
            && Orderly(t, cid) && (Claimed(s, cid) ==> Claimed(t, cid))
            && (c == cid || Served(s, cid) ==> Served(t, cid))
  {
    if c == cid {
      NoneStands(s, g, cid);
    }
  }

  lemma NoneStands(s: State, g: nat, cid: nat)
    requires Orderly(s, cid) && g < |s.net.links|
    requires cid in s.net.links[g].bridged && !StandsAt(s.net.links[g], cid)
    ensures !Standing(s, cid)
  {
    assert AtHome(s.net.links[g], g, s.net.home);
    if Open(cid) in Queue(s.edge) {
      WaitingIsFirst(s, cid);
    }
    if Live(s) {
      assert AtHome(Current(s), s.edge.conn.value, s.net.home);
    }
  }

  lemma ReceiveKeeps(s: State, g: nat, cid: nat)
    requires Orderly(s, cid)
    ensures Keeps(s, Step(s, EdgeReceives(g)), cid)
  {
    ValidStep(s, EdgeReceives(g));
    if g < |s.net.links| && s.net.links[g].down != [] {
      var l := s.net.links[g];
      var u := OnLink(s, g, l.(down := l.down[1..]));
      PopKeeps(s, g, cid);
      ReceiveIs(s, g, cid);
      match l.down[0] {
        case Welcome => WelcomeKeeps(u, cid);
        case Bye => ByeKeeps(u, cid);
        case Ping => NeutralKeeps(u, Pong, cid);
        case Close(c) => CloseKeeps(u, c, g, cid);
        case _ => assert OnFrame(u, l.down[0]).edge == u.edge && OnFrame(u, l.down[0]).net == u.net;
      }
    }
  }

  // ----- every step -----

  /** The steps that leave a bridge behind: the connection goes while the opening frame is posted but not handled, or
      the bridge's closing frame is dropped at the cap. */
  ghost predicate Strands(s: State, a: Action, cid: nat) {
    match a
    case TrunkLost => PostedOnly(s, cid)
    case Stops => PostedOnly(s, cid)
    case RunStrand => LastClose(s, cid)
    case _ => false
  }

  /** The steps that leave a session behind: a connection is made that will not carry its opening frame, or that
      frame is dropped at the cap. */
  ghost predicate Orphans(s: State, a: Action, cid: nat) {
    match a
    case Connects => LeftBehind(s, cid)
    case RunStrand => Drops(s.edge) && s.edge.mailbox[0] == Open(cid) && cid in s.edge.sessions && Live(s)
    case _ => false
  }

  /** Whatever happens next, a bridge stays claimed unless the step strands it, and exactly then; and a session stays
      served unless the step orphans it, and exactly then. */
  lemma StepDeparts(s: State, a: Action, cid: nat)
    requires Orderly(s, cid)
    ensures Orderly(Step(s, a), cid)
    ensures Claimed(s, cid) ==> (Claimed(Step(s, a), cid) <==> !Strands(s, a, cid))
    ensures Served(s, cid) ==> (Served(Step(s, a), cid) <==> !Orphans(s, a, cid))
  {
    match a {
      case MinerConnects => PostKeeps(s, a, cid);
      case MinerSends(_, _) => PostKeeps(s, a, cid);
      case MinerLeaves(_) => PostKeeps(s, a, cid);
      case RunStrand =>
        if s.edge.mailbox != [] {
          StrandKeeps(s, cid);
        }
      case Connects => ConnectKeeps(s, cid);
      case Hellos(role, auth) =>
        ValidStep(s, a);
        NeutralKeeps(s, Hello(role, auth), cid);
      case EdgeReceives(g) => ReceiveKeeps(s, g, cid);
      case TrunkLost => LoseKeeps(s, a, cid);
      case Stops => LoseKeeps(s, a, cid);
      case _ => OriginKeeps(s, a, cid);
    }
  }

  // ----- whole runs -----

  ghost predicate NeverStrands(actions: seq<Action>, cid: nat) {
    forall n :: 0 <= n < |actions| ==> !Strands(Run(actions[..n]), actions[n], cid)
  }

  ghost predicate NeverOrphans(actions: seq<Action>, cid: nat) {
    forall n :: 0 <= n < |actions| ==> !Orphans(Run(actions[..n]), actions[n], cid)
  }

  lemma Earlier(actions: seq<Action>, cid: nat)
    requires actions != []
    ensures var m := |actions| - 1;
            && (NeverStrands(actions, cid) ==>
                  NeverStrands(actions[..m], cid) && !Strands(Run(actions[..m]), actions[m], cid))
            && (NeverOrphans(actions, cid) ==>
                  NeverOrphans(actions[..m], cid) && !Orphans(Run(actions[..m]), actions[m], cid))
  {
    var m := |actions| - 1;
    assert forall n :: 0 <= n < m ==> actions[..m][..n] == actions[..n] && actions[..m][n] == actions[n];
  }

  lemma {:induction false} RunDeparts(actions: seq<Action>, cid: nat)
    requires cid >= 1
    ensures Orderly(Run(actions), cid)
    ensures NeverStrands(actions, cid) ==> Claimed(Run(actions), cid)
    ensures NeverOrphans(actions, cid) ==> Served(Run(actions), cid)
  {
    if actions != [] {
      var before, a := actions[..|actions| - 1], actions[|actions| - 1];
      RunDeparts(before, cid);
      StepDeparts(Run(before), a, cid);
      Earlier(actions, cid);
    }
  }

  /** In a run that strands no bridge of the miner: while its bridge stands on a connection that is up, either the
      miner is attached or a closing frame for it waits at the edge or is on the wire.  So once everything posted has
      been taken, no bridge of a departed miner is left. */
  lemma BridgeClaimed(actions: seq<Action>, cid: nat)
    requires cid >= 1 && NeverStrands(actions, cid)
    ensures var s := Run(actions);
            Live(s) && cid in Current(s).clients ==>
              && (cid in s.edge.sessions || Close(cid) in Queue(s.edge) || Close(cid) in Current(s).up)
              && (Queue(s.edge) == [] && Current(s).up == [] ==> cid in s.edge.sessions)
  {
    RunDeparts(actions, cid);
  }

  /** Once every frame has been taken, exactly the attached miners have a bridge. */
  lemma SessionsAreBridges(actions: seq<Action>, cid: nat)
    requires cid >= 1 && NeverStrands(actions, cid) && NeverOrphans(actions, cid)
    ensures var s := Run(actions);
            Live(s) && Queue(s.edge) == [] && Current(s).up == [] && Current(s).down == [] ==>
              (cid in s.edge.sessions <==> cid in Current(s).clients)
  {
    RunDeparts(actions, cid);
  }

  lemma RunMore(actions: seq<Action>, a: Action)
    ensures Run(actions + [a]) == Step(Run(actions), a)
  {
    assert (actions + [a])[..|actions|] == actions;
  }

  // A new connection, greeted and welcomed.
  function Greeted(up: seq<Frame>, down: seq<Frame>, helloOk: bool): Link {
    Link(up, down, false, helloOk, false, map[], map[], {})
  }

  lemma Reconnected()
    ensures var e := Edge([Open(1)], {}, [], false, Some(0), 2, true);
            Run([MinerConnects] + [TrunkLost] + [Connects] + [Hellos(true, true)])
            == State(e, Net([Greeted([Hello(true, true)], [], false)], map[]), map[])
  {
    RunMore([], MinerConnects);
    assert [] + [MinerConnects] == [MinerConnects];
    RunMore([MinerConnects], TrunkLost);
    RunMore([MinerConnects] + [TrunkLost], Connects);
    RunMore([MinerConnects] + [TrunkLost] + [Connects], Hellos(true, true));
    var e := Edge([Open(1)], {}, [], false, None, 2, true);
    assert Run([MinerConnects]).edge.mailbox == [Open(1)];
    assert Run([MinerConnects] + [TrunkLost]) == State(e, Net([], map[]), map[]);
    var s := Run([MinerConnects] + [TrunkLost] + [Connects]);
    assert s == State(e.(conn := Some(0)), Net([Greeted([], [], false)], map[]), map[]);
    assert Send(s.net, Some(0), Hello(true, true)).links[0] == Greeted([Hello(true, true)], [], false);
  }

  lemma WelcomedAgain(s: State)
    requires s == State(Edge([Open(1)], {}, [], false, Some(0), 2, true),
                        Net([Greeted([Hello(true, true)], [], false)], map[]), map[])
    ensures Step(Step(s, RunStrand), OriginReceives(0))
            == State(Edge([], {}, [Open(1)], false, Some(0), 2, true), Net([Greeted([], [Welcome], true)], map[]),
                     map[])
  {
    var l, u := s.net.links[0], Step(s, RunStrand);
    assert u.edge.pendingOut == [Open(1)] && u.edge.mailbox == [] && u.net == s.net;
    assert OnLine(l.(up := l.up[1..]), l.up[0]) == Greeted([], [Welcome], true);
  }

  lemma BridgedAgain(s: State)
    requires s == State(Edge([], {}, [Open(1)], false, Some(0), 2, true), Net([Greeted([], [Welcome], true)], map[]),
                        map[])
    ensures var t := Step(Step(s, EdgeReceives(0)), OriginReceives(0));
            && Live(t) && 1 in Current(t).clients && 1 !in t.edge.sessions && Queue(t.edge) == []
            && Current(t).up == []
  {
    var l, u := s.net.links[0], Step(s, EdgeReceives(0));
    var p := OnLink(s, 0, l.(down := l.down[1..]));
    assert l.down[1..] == [] && p.net.links[0] == Greeted([], [], true);
    assert SendAll(p.net, Some(0), [Open(1)]) == Send(p.net, Some(0), Open(1));
    assert Send(p.net, Some(0), Open(1)).links[0] == Greeted([Open(1)], [], true);
    assert u == State(Edge([], {}, [], true, Some(0), 2, true), Net([Greeted([Open(1)], [], true)], map[1 := 0]),
                      map[]);
  }

  /** A bridge is left for good when the trunk is lost between a miner's arrival and the strand's handling of its
      opening frame: the session is dropped, the frame goes out over the next connection and no closing frame
      follows. */
  lemma StrandedBridge() returns (actions: seq<Action>)
    ensures var s := Run(actions);
            Live(s) && 1 in Current(s).clients && 1 !in s.edge.sessions && Queue(s.edge) == [] && Current(s).up == []
  {
    Reconnected();
    actions := [MinerConnects] + [TrunkLost] + [Connects] + [Hellos(true, true)];
    WelcomedAgain(Run(actions));
    RunMore(actions, RunStrand);
    RunMore(actions + [RunStrand], OriginReceives(0));
    actions := actions + [RunStrand] + [OriginReceives(0)];
    BridgedAgain(Run(actions));
    RunMore(actions, EdgeReceives(0));
    RunMore(actions + [EdgeReceives(0)], OriginReceives(0));
    actions := actions + [EdgeReceives(0)] + [OriginReceives(0)];
  }
}
