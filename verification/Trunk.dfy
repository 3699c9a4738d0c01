/** cluster_trunk.cpp and cluster_ingest.cpp: many miners multiplexed over one trunk connection to an origin
    that bridges each of them to a loopback connection.  The model keeps every trunk connection there ever was
    (a lost one may still hold frames), the frames posted to the edge's strand, and what each end received. */
module Trunk {
  import opened Options
  import opened Subsequence
  import Sequences

  type Line = string

  datatype Frame = Hello(role: bool, auth: bool) | Open(cid: nat) | Data(cid: nat, line: Line) | Close(cid: nat)
                 | Ping | Pong | Welcome | Bye

  const PENDING_CAP := 100000
  const LOOPBACK_CAP := 64

  // One bridged miner at the origin.
  datatype Client = Client(connected: bool, pending: seq<Line>)

  // One trunk connection: frames on the way in both directions, whether the edge closed it, and the origin's
  // session: reached and bridged keep what each loopback received and which ones ever existed.
  datatype Link = Link(up: seq<Frame>, down: seq<Frame>, edgeClosed: bool, helloOk: bool, originClosed: bool,
                       clients: map<nat, Client>, reached: map<nat, seq<Line>>, bridged: set<nat>)

  // home tells over which connection the opening frame of a miner went out.
  datatype Net = Net(links: seq<Link>, home: map<nat, nat>)

  datatype Edge = Edge(mailbox: seq<Frame>, sessions: set<nat>, pendingOut: seq<Frame>, welcomed: bool,
                       conn: Option<nat>, nextCid: nat, running: bool)

  datatype State = State(edge: Edge, net: Net, delivered: map<nat, seq<Line>>)

  // ----- the lines of one miner among frames -----

  function LinesOf(frames: seq<Frame>, cid: nat): seq<Line> {
    if frames == [] then []
    else
      var f, before := frames[|frames| - 1], LinesOf(frames[..|frames| - 1], cid);
      if f.Data? && f.cid == cid then before + [f.line] else before
  }

  lemma {:induction false} LinesConcat(a: seq<Frame>, b: seq<Frame>, cid: nat)
    ensures LinesOf(a + b, cid) == LinesOf(a, cid) + LinesOf(b, cid)
  {
    if b == [] {
      assert a + b == a;
    } else {
      var b', f := b[..|b| - 1], b[|b| - 1];
      LinesConcat(a, b', cid);
      assert (a + b)[..|a + b| - 1] == a + b';
    }
  }

  lemma LinesFirst(f: Frame, rest: seq<Frame>, cid: nat)
    ensures LinesOf([f] + rest, cid)
            == (if f.Data? && f.cid == cid then [f.line] else []) + LinesOf(rest, cid)
  {
    LinesConcat([f], rest, cid);
    assert [f][..0] == [];
  }

  predicate Concerns(f: Frame, cid: nat) {
    (f.Open? || f.Data? || f.Close?) && f.cid == cid
  }

  ghost predicate Silent(frames: seq<Frame>, cid: nat) {
    forall i :: 0 <= i < |frames| ==> !Concerns(frames[i], cid)
  }

  lemma {:induction false} SilentLines(frames: seq<Frame>, cid: nat)
    requires Silent(frames, cid)
    ensures LinesOf(frames, cid) == []
  {
    if frames != [] {
      SilentLines(frames[..|frames| - 1], cid);
    }
  }

  // ----- the edge: cluster_trunk.cpp -----

  function Log(m: map<nat, seq<Line>>, cid: nat): seq<Line> {
    if cid in m then m[cid] else []
  }

  // A frame handed to the current connection; a closed one drops it.
  function Send(n: Net, conn: Option<nat>, f: Frame): Net {
    if conn.None? || conn.value >= |n.links| || n.links[conn.value].edgeClosed then n
    else
      var g := conn.value;
      Net(n.links[g := n.links[g].(up := n.links[g].up + [f])], if f.Open? then n.home[f.cid := g] else n.home)
  }

  function SendAll(n: Net, conn: Option<nat>, fs: seq<Frame>): Net
    decreases fs
  {
    if fs == [] then n else SendAll(Send(n, conn, fs[0]), conn, fs[1..])
  }

  // The frame at the head of the strand's queue: send_frame's body.
  function RunPosted(s: State): State
    requires s.edge.mailbox != []
  {
    var f, e := s.edge.mailbox[0], s.edge.(mailbox := s.edge.mailbox[1..]);
    if !e.running then s.(edge := e)
    else if e.welcomed && e.conn.Some? then s.(edge := e, net := Send(s.net, e.conn, f))
    else if |e.pendingOut| < PENDING_CAP then s.(edge := e.(pendingOut := e.pendingOut + [f]))
    else s.(edge := e)
  }

  function Post(e: Edge, f: Frame): Edge {
    e.(mailbox := e.mailbox + [f])
  }

  function Attach(e: Edge): Edge {
    Post(e.(nextCid := e.nextCid + 1, sessions := e.sessions + {e.nextCid}), Open(e.nextCid))
  }

  function Detach(e: Edge, cid: nat): Edge {
    if cid in e.sessions then Post(e.(sessions := e.sessions - {cid}), Close(cid)) else e
  }

  function CloseEdge(n: Net, conn: Option<nat>): Net {
    if conn.None? || conn.value >= |n.links| then n
    else n.(links := n.links[conn.value := n.links[conn.value].(edgeClosed := true)])
  }

  // The connection goes, with everything buffered and every session.
  function LoseConn(s: State, running: bool, welcomed: bool): State {
    State(s.edge.(welcomed := welcomed, conn := None, pendingOut := [], sessions := {}, running := running),
          CloseEdge(s.net, s.edge.conn), s.delivered)
  }

  // A new connection replaces whatever there was.
  function Connect(s: State): State {
    if !s.edge.running then s
    else s.(edge := s.edge.(welcomed := false, conn := Some(|s.net.links|)),
            net := s.net.(links := s.net.links + [Link([], [], false, false, false, map[], map[], {})]))
  }

  // A frame from the origin: on_frame.
  function OnFrame(s: State, f: Frame): State {
    match f
    case Welcome =>
      s.(edge := s.edge.(welcomed := true, pendingOut := []), net := SendAll(s.net, s.edge.conn, s.edge.pendingOut))
    case Bye => s.(net := CloseEdge(s.net, s.edge.conn))
    case Data(cid, line) =>
      if cid in s.edge.sessions then s.(delivered := s.delivered[cid := Log(s.delivered, cid) + [line]]) else s
    case Close(cid) => s.(edge := s.edge.(sessions := s.edge.sessions - {cid}))
    case Ping => s.(net := Send(s.net, s.edge.conn, Pong))
    case _ => s
  }

  // ----- the origin: cluster_ingest.cpp -----

  function Reply(l: Link, f: Frame): Link {
    if l.originClosed then l else l.(down := l.down + [f])
  }

  function CloseOrigin(l: Link): Link {
    l.(originClosed := true, clients := map[])
  }

  function ToLoopback(l: Link, cid: nat, lines: seq<Line>): Link {
    l.(reached := l.reached[cid := Log(l.reached, cid) + lines])
  }

  function OpenClient(l: Link, cid: nat): Link {
    if cid in l.clients then l else l.(clients := l.clients[cid := Client(false, [])], bridged := l.bridged + {cid})
  }

  function ClientData(l: Link, cid: nat, line: Line): Link {
    if cid !in l.clients then l
    else if l.clients[cid].connected then ToLoopback(l, cid, [line])
    else if |l.clients[cid].pending| < LOOPBACK_CAP
    then l.(clients := l.clients[cid := l.clients[cid].(pending := l.clients[cid].pending + [line])])
    else l
  }

  function LoopbackConnected(l: Link, cid: nat): Link {
    if cid !in l.clients then l
    else ToLoopback(l.(clients := l.clients[cid := Client(true, [])]), cid, l.clients[cid].pending)
  }

  function CloseClient(l: Link, cid: nat, tellEdge: bool): Link {
    if cid !in l.clients then l
    else
      var m := l.(clients := l.clients - {cid});
      if tellEdge then Reply(m, Close(cid)) else m
  }

  // One frame from the edge: on_line.
  function OnLine(l: Link, f: Frame): Link {
    if l.originClosed then l
    else if !l.helloOk then
      if f.Hello? && f.auth && f.role then Reply(l.(helloOk := true), Welcome) else CloseOrigin(Reply(l, Bye))
    else match f
      case Open(cid) => if cid != 0 then OpenClient(l, cid) else l
      case Data(cid, line) => if cid != 0 then ClientData(l, cid, line) else l
      case Close(cid) => if cid != 0 then CloseClient(l, cid, false) else l
      case Ping => Reply(l, Pong)
      case _ => l
  }

  // ----- the protocol -----

  datatype Action = MinerConnects | MinerSends(cid: nat, line: Line) | MinerLeaves(cid: nat)
                  | RunStrand | Connects | Hellos(role: bool, auth: bool) | EdgeReceives(g: nat) | TrunkLost | Stops
                  | OriginReceives(g: nat) | OriginCloses(g: nat) | LoopbackUp(g: nat, cid: nat)
                  | LoopbackDown(g: nat, cid: nat) | LoopbackSends(g: nat, cid: nat, line: Line)

  function OnLink(s: State, g: nat, l: Link): State
    requires g < |s.net.links|
  {
    s.(net := s.net.(links := s.net.links[g := l]))
  }

  /** Any interleaving of the edge's strand, both ends of every connection and the loopbacks. */
  function Step(s: State, a: Action): State {
    match a
    case MinerConnects => s.(edge := Attach(s.edge))
    case MinerSends(cid, line) => if 0 < cid < s.edge.nextCid then s.(edge := Post(s.edge, Data(cid, line))) else s
    case MinerLeaves(cid) => s.(edge := Detach(s.edge, cid))
    case RunStrand => if s.edge.mailbox == [] then s else RunPosted(s)
    case Connects => Connect(s)
    case Hellos(role, auth) => s.(net := Send(s.net, s.edge.conn, Hello(role, auth)))
    case EdgeReceives(g) =>
      if g >= |s.net.links| || s.net.links[g].down == [] then s
      else
        var l := s.net.links[g];
        OnFrame(OnLink(s, g, l.(down := l.down[1..])), l.down[0])
    case TrunkLost => LoseConn(s, s.edge.running, false)
    case Stops => LoseConn(s, false, s.edge.welcomed)
    case OriginReceives(g) =>
      if g >= |s.net.links| || s.net.links[g].up == [] then s
      else
        var l := s.net.links[g];
        OnLink(s, g, OnLine(l.(up := l.up[1..]), l.up[0]))
    case OriginCloses(g) => if g >= |s.net.links| then s else OnLink(s, g, CloseOrigin(s.net.links[g]))
    case LoopbackUp(g, cid) => if g >= |s.net.links| then s else OnLink(s, g, LoopbackConnected(s.net.links[g], cid))
    case LoopbackDown(g, cid) => if g >= |s.net.links| then s else OnLink(s, g, CloseClient(s.net.links[g], cid, true))
    case LoopbackSends(g, cid, line) =>
      if g >= |s.net.links| || cid !in s.net.links[g].bridged then s
      else OnLink(s, g, Reply(s.net.links[g], Data(cid, line)))
  }

  function Start(): State {
    State(Edge([], {}, [], false, None, 1, true), Net([], map[]), map[])
  }

  function Run(actions: seq<Action>): State {
    if actions == [] then Start() else Step(Run(actions[..|actions| - 1]), actions[|actions| - 1])
  }

  // ----- what always holds of the connections -----

  // Everything a connection knows of a miner went out over it.
  ghost predicate AtHome(l: Link, g: nat, home: map<nat, nat>) {
    && (forall i :: 0 <= i < |l.up| && l.up[i].Open? ==> HomeIs(home, l.up[i].cid, g))
    && (forall cid :: cid in l.bridged ==> HomeIs(home, cid, g))
    && (forall cid :: cid in l.clients ==>
          cid in l.bridged && (l.clients[cid].connected ==> l.clients[cid].pending == []))
    && (forall cid :: cid in l.reached ==> cid in l.bridged)
    && (forall i :: 0 <= i < |l.down| && l.down[i].Data? ==> l.down[i].cid in l.bridged)
  }

  predicate HomeIs(home: map<nat, nat>, cid: nat, g: nat) {
    cid in home && home[cid] == g
  }

  ghost predicate NetOk(n: Net) {
    && (forall g :: 0 <= g < |n.links| ==> AtHome(n.links[g], g, n.home))
    && (forall cid :: cid in n.home ==> n.home[cid] < |n.links|)
  }

  // A miner's opening frame is still to be sent: nothing of that miner was sent before it.
  ghost predicate Unsent(n: Net, cid: nat) {
    cid !in n.home && forall g :: 0 <= g < |n.links| ==> Silent(n.links[g].up, cid)
  }

  // Frames waiting at the edge: a miner's opening frame comes first of that miner's, and once.
  ghost predicate QueueOk(n: Net, q: seq<Frame>) {
    && (forall i, j :: 0 <= i < j < |q| && q[j].Open? ==> !Concerns(q[i], q[j].cid))
    && (forall j :: 0 <= j < |q| && q[j].Open? ==> Unsent(n, q[j].cid))
  }

  // No frame speaks of a miner that did not connect yet.
  ghost predicate Known(n: Net, q: seq<Frame>, next: nat) {
    && (forall cid :: cid in n.home ==> cid < next)
    && (forall cid :: cid >= next ==> Silent(q, cid))
    && (forall cid, g :: cid >= next && 0 <= g < |n.links| ==> Silent(n.links[g].up, cid))
  }

  function Queue(e: Edge): seq<Frame> {
    e.pendingOut + e.mailbox
  }

  ghost predicate Valid(s: State) {
    && NetOk(s.net) && QueueOk(s.net, Queue(s.edge)) && Known(s.net, Queue(s.edge), s.edge.nextCid)
    && (s.edge.welcomed && s.edge.conn.Some? ==> s.edge.pendingOut == [])
    && (s.edge.conn.Some? ==> s.edge.conn.value < |s.net.links|)
    && (forall cid :: cid in s.edge.sessions ==> cid < s.edge.nextCid) && s.edge.nextCid >= 1
  }

  // ----- sending keeps it -----

  lemma SendOk(n: Net, conn: Option<nat>, f: Frame, rest: seq<Frame>, next: nat)
    requires NetOk(n) && QueueOk(n, [f] + rest) && Known(n, [f] + rest, next)
    ensures NetOk(Send(n, conn, f)) && QueueOk(Send(n, conn, f), rest) && Known(Send(n, conn, f), rest, next)
  {
    SendNetOk(n, conn, f, rest);
    SendQueueOk(n, conn, f, rest);
    forall cid | cid >= next
      ensures !Concerns(f, cid) && Silent(rest, cid)
    {
      SilentTail(f, rest, cid);
    }
    assert f.Open? ==> Concerns(f, f.cid);
    var m := Send(n, conn, f);
    forall cid, g | cid >= next && 0 <= g < |m.links|
      ensures Silent(m.links[g].up, cid)
    {
      assert Silent(n.links[g].up, cid) && !Concerns(f, cid);
    }
  }

  lemma SilentTail(f: Frame, rest: seq<Frame>, cid: nat)
    requires Silent([f] + rest, cid)
    ensures !Concerns(f, cid) && Silent(rest, cid)
  {
    var q := [f] + rest;
    assert q[0] == f && !Concerns(q[0], cid);
    forall i | 0 <= i < |rest|
      ensures !Concerns(rest[i], cid)
    {
      assert rest[i] == q[i + 1];
    }
  }

  lemma SendNetOk(n: Net, conn: Option<nat>, f: Frame, rest: seq<Frame>)
    requires NetOk(n) && QueueOk(n, [f] + rest)
    ensures NetOk(Send(n, conn, f))
  {
    var q := [f] + rest;
    assert q[0] == f;
    var m := Send(n, conn, f);
    if f.Open? {
      assert f.cid !in n.home;
    }
    forall g | 0 <= g < |m.links|
      ensures AtHome(m.links[g], g, m.home)
    {
      assert AtHome(n.links[g], g, n.home);
    }
  }

  lemma SendQueueOk(n: Net, conn: Option<nat>, f: Frame, rest: seq<Frame>)
    requires QueueOk(n, [f] + rest)
    ensures QueueOk(Send(n, conn, f), rest)
  {
    var q, m := [f] + rest, Send(n, conn, f);
    assert q[0] == f && forall i :: 0 <= i < |rest| ==> rest[i] == q[i + 1];
    forall j | 0 <= j < |rest| && rest[j].Open?
      ensures Unsent(m, rest[j].cid)
    {
      assert Unsent(n, q[j + 1].cid) && !Concerns(q[0], q[j + 1].cid);
    }
    forall i, j | 0 <= i < j < |rest| && rest[j].Open?
      ensures !Concerns(rest[i], rest[j].cid)
    {
      assert !Concerns(q[i + 1], q[j + 1].cid);
    }
  }

  lemma {:induction false} SendAllOk(n: Net, conn: Option<nat>, fs: seq<Frame>, rest: seq<Frame>, next: nat)
    requires NetOk(n) && QueueOk(n, fs + rest) && Known(n, fs + rest, next)
    ensures var m := SendAll(n, conn, fs);
            NetOk(m) && QueueOk(m, rest) && Known(m, rest, next) && |m.links| == |n.links|
    decreases fs
  {
    if fs == [] {
      assert fs + rest == rest;
    } else {
      assert fs + rest == [fs[0]] + (fs[1..] + rest);
      SendOk(n, conn, fs[0], fs[1..] + rest, next);
      SendAllOk(Send(n, conn, fs[0]), conn, fs[1..], rest, next);
    }
  }

  // ----- the pipeline of one miner -----

  function Waiting(l: Link, cid: nat): seq<Line> {
    if cid in l.clients then l.clients[cid].pending else []
  }

  // What the connection holds of the miner: arrived, waiting for the loopback, on the wire.
  function Held(l: Link, cid: nat): seq<Line> {
    Log(l.reached, cid) + Waiting(l, cid) + LinesOf(l.up, cid)
  }

  function Bridge(n: Net, cid: nat): seq<Line> {
    if cid in n.home && n.home[cid] < |n.links| then Held(n.links[n.home[cid]], cid) else []
  }

  /** Every line of a miner between its socket and its loopback: what arrived there, what waits for the loopback,
      what is on the wire and what waits at the edge. */
  function Pipe(n: Net, q: seq<Frame>, cid: nat): seq<Line> {
    Bridge(n, cid) + LinesOf(q, cid)
  }

  // Handing over this frame drops a line of the miner.
  predicate LosesFrame(n: Net, conn: Option<nat>, f: Frame, cid: nat) {
    f.Data? && f.cid == cid && (conn.None? || conn.value >= |n.links| || n.links[conn.value].edgeClosed
                                || !HomeIs(n.home, cid, conn.value))
  }

  lemma SendPipe(n: Net, conn: Option<nat>, f: Frame, rest: seq<Frame>, cid: nat)
    requires NetOk(n) && QueueOk(n, [f] + rest)
    ensures Sub(Pipe(Send(n, conn, f), rest, cid), Pipe(n, [f] + rest, cid))
    ensures !LosesFrame(n, conn, f, cid) ==> Pipe(Send(n, conn, f), rest, cid) == Pipe(n, [f] + rest, cid)
  {
    LinesFirst(f, rest, cid);
    assert ([f] + rest)[0] == f;
    if LosesFrame(n, conn, f, cid) {
      LostLine(n, conn, f, rest, cid);
    } else {
      KeptFrame(n, conn, f, rest, cid);
      Refl(Pipe(n, [f] + rest, cid));
    }
  }

  lemma LostLine(n: Net, conn: Option<nat>, f: Frame, rest: seq<Frame>, cid: nat)
    requires NetOk(n) && LosesFrame(n, conn, f, cid)
    ensures Sub(Pipe(Send(n, conn, f), rest, cid), Pipe(n, [f] + rest, cid))
  {
    LinesFirst(f, rest, cid);
    Without(Bridge(n, cid), [f.line], LinesOf(rest, cid));
    Sequences.Associates(Bridge(n, cid), [f.line], LinesOf(rest, cid));
    LostAway(n, conn, f, cid);
  }

  lemma LostAway(n: Net, conn: Option<nat>, f: Frame, cid: nat)
    requires NetOk(n) && LosesFrame(n, conn, f, cid)
    ensures Bridge(Send(n, conn, f), cid) == Bridge(n, cid)
  {}

  // A bridge that was never opened holds nothing.
  lemma UnsentBridge(n: Net, conn: Option<nat>, cid: nat)
    requires NetOk(n) && Unsent(n, cid)
    ensures Bridge(Send(n, conn, Open(cid)), cid) == []
  {
    var m := Send(n, conn, Open(cid));
    if cid in m.home {
      var g := conn.value;
      var l := n.links[g];
      assert AtHome(l, g, n.home);
      SilentLines(l.up, cid);
      LinesConcat(l.up, [Open(cid)], cid);
      assert [Open(cid)][..0] == [];
    }
  }

  lemma KeptFrame(n: Net, conn: Option<nat>, f: Frame, rest: seq<Frame>, cid: nat)
    requires NetOk(n) && QueueOk(n, [f] + rest) && !LosesFrame(n, conn, f, cid)
    ensures Pipe(Send(n, conn, f), rest, cid) == Pipe(n, [f] + rest, cid)
  {
    LinesFirst(f, rest, cid);
    assert ([f] + rest)[0] == f;
    if f.Open? && f.cid == cid {
      assert Unsent(n, cid);
      UnsentBridge(n, conn, cid);
    } else {
      BridgeGrows(n, conn, f, cid);
      Sequences.Regroups(Bridge(n, cid), Own(f, cid), [], LinesOf(rest, cid));
      Sequences.Associates(Bridge(n, cid), Own(f, cid), LinesOf(rest, cid));
    }
  }

  lemma BridgeGrows(n: Net, conn: Option<nat>, f: Frame, cid: nat)
    requires NetOk(n) && !LosesFrame(n, conn, f, cid) && f != Open(cid)
    ensures Bridge(Send(n, conn, f), cid) == Bridge(n, cid) + Own(f, cid)
  {
    if Send(n, conn, f) != n && HomeIs(n.home, cid, conn.value) {
      WireGrows(n.links[conn.value], f, cid);
    } else {
      assert Own(f, cid) == [];
    }
  }

  lemma WireGrows(l: Link, f: Frame, cid: nat)
    ensures Held(l.(up := l.up + [f]), cid) == Held(l, cid) + Own(f, cid)
  {
    LinesConcat(l.up, [f], cid);
    OneLine(f, cid);
    var a := Log(l.reached, cid) + Waiting(l, cid);
    assert a + (LinesOf(l.up, cid) + Own(f, cid)) == a + LinesOf(l.up, cid) + Own(f, cid);
  }

  // Sending several frames drops a line of the miner.
  predicate LosesSome(n: Net, conn: Option<nat>, fs: seq<Frame>, cid: nat)
    decreases fs
  {
    fs != [] && (LosesFrame(n, conn, fs[0], cid) || LosesSome(Send(n, conn, fs[0]), conn, fs[1..], cid))
  }

  lemma {:induction false} SendAllPipe(n: Net, conn: Option<nat>, fs: seq<Frame>, rest: seq<Frame>, next: nat, cid: nat)
    requires NetOk(n) && QueueOk(n, fs + rest) && Known(n, fs + rest, next)
    ensures Sub(Pipe(SendAll(n, conn, fs), rest, cid), Pipe(n, fs + rest, cid))
    ensures !LosesSome(n, conn, fs, cid) ==> Pipe(SendAll(n, conn, fs), rest, cid) == Pipe(n, fs + rest, cid)
    decreases fs
  {
    if fs == [] {
      assert fs + rest == rest;
      Refl(Pipe(n, rest, cid));
    } else {
      var m := Send(n, conn, fs[0]);
      assert fs + rest == [fs[0]] + (fs[1..] + rest);
      SendOk(n, conn, fs[0], fs[1..] + rest, next);
      SendPipe(n, conn, fs[0], fs[1..] + rest, cid);
      SendAllPipe(m, conn, fs[1..], rest, next, cid);
      Trans(Pipe(SendAll(n, conn, fs), rest, cid), Pipe(m, fs[1..] + rest, cid), Pipe(n, fs + rest, cid));
    }
  }

  // ----- one step: the invariant -----

  // A step of the edge that only takes frames out of its queue.
  lemma DropOk(n: Net, a: seq<Frame>, b: seq<Frame>, c: seq<Frame>, next: nat)
    requires QueueOk(n, a + b + c) && Known(n, a + b + c, next)
    ensures QueueOk(n, a + c) && Known(n, a + c, next)
  {
    var q, r := a + b + c, a + c;
    forall i | 0 <= i < |r|
      ensures r[i] == q[Place(|a|, |b|, i)]
    {
    }
    forall j | 0 <= j < |r| && r[j].Open?
      ensures Unsent(n, r[j].cid)
    {
      assert r[j] == q[Place(|a|, |b|, j)];
    }
    forall i, j | 0 <= i < j < |r| && r[j].Open?
      ensures !Concerns(r[i], r[j].cid)
    {
      assert r[i] == q[Place(|a|, |b|, i)] && r[j] == q[Place(|a|, |b|, j)];
    }
    forall cid | cid >= next
      ensures Silent(r, cid)
    {
      assert Silent(q, cid);
      forall i | 0 <= i < |r|
        ensures !Concerns(r[i], cid)
      {
        assert r[i] == q[Place(|a|, |b|, i)];
      }
    }
  }

  function Place(a: nat, b: nat, i: nat): nat {
    if i < a then i else i + b
  }

  lemma Spread(p: seq<Line>, x: seq<Line>, y: seq<Line>, z: seq<Line>)
    ensures p + (x + z) == (p + x) + z && p + (x + y + z) == (p + x) + y + z
  {}

  lemma DropPipe(n: Net, a: seq<Frame>, b: seq<Frame>, c: seq<Frame>, cid: nat)
    ensures Sub(Pipe(n, a + c, cid), Pipe(n, a + b + c, cid))
    ensures LinesOf(b, cid) == [] ==> Pipe(n, a + c, cid) == Pipe(n, a + b + c, cid)
  {
    LinesConcat(a, c, cid);
    LinesConcat(a + b, c, cid);
    LinesConcat(a, b, cid);
    var x, y, z := LinesOf(a, cid), LinesOf(b, cid), LinesOf(c, cid);
    Spread(Bridge(n, cid), x, y, z);
    Without(Bridge(n, cid) + x, y, z);
    if y == [] {
      assert x + y + z == x + z;
    }
  }

  // A frame added at the end of the queue.
  lemma PostOk(n: Net, q: seq<Frame>, f: Frame, next: nat)
    requires QueueOk(n, q) && Known(n, q, next) && !f.Open? && (f.Data? || f.Close? ==> f.cid < next)
    ensures QueueOk(n, q + [f]) && Known(n, q + [f], next)
  {
    forall cid | cid >= next
      ensures Silent(q + [f], cid)
    {
      assert Silent(q, cid);
    }
  }

  function Own(f: Frame, cid: nat): seq<Line> {
    if f.Data? && f.cid == cid then [f.line] else []
  }

  lemma PostPipe(n: Net, q: seq<Frame>, f: Frame, cid: nat)
    ensures Pipe(n, q + [f], cid) == Pipe(n, q, cid) + Own(f, cid)
  {
    LinesConcat(q, [f], cid);
    assert [f][..0] == [];
    assert LinesOf([f], cid) == Own(f, cid);
    Sequences.Regroups(Bridge(n, cid), LinesOf(q, cid), Own(f, cid), []);
    assert Bridge(n, cid) + (LinesOf(q, cid) + Own(f, cid)) + [] == Bridge(n, cid) + (LinesOf(q, cid) + Own(f, cid));
    assert Bridge(n, cid) + LinesOf(q, cid) + (Own(f, cid) + []) == Bridge(n, cid) + LinesOf(q, cid) + Own(f, cid);
  }

  // ----- what may lose a line -----

  // The edge drops the frame at the head of its strand.
  predicate LostAtEdge(s: State, cid: nat) {
    && s.edge.mailbox != [] && s.edge.mailbox[0].Data? && s.edge.mailbox[0].cid == cid
    && (!s.edge.running
        || (if s.edge.welcomed && s.edge.conn.Some? then LosesFrame(s.net, s.edge.conn, s.edge.mailbox[0], cid)
            else |s.edge.pendingOut| >= PENDING_CAP))
  }

  // The origin cannot hand the frame to the loopback, or gives up what waits for it.
  predicate LostAtOrigin(l: Link, f: Frame, cid: nat) {
    || (f.Data? && f.cid == cid
        && (l.originClosed || !l.helloOk || cid == 0 || cid !in l.clients
            || (!l.clients[cid].connected && |l.clients[cid].pending| >= LOOPBACK_CAP)))
    || (Waiting(l, cid) != [] && !l.originClosed
        && (if l.helloOk then f == Close(cid) else !(f.Hello? && f.auth && f.role)))
  }

  /** The steps that can drop a line of this miner: the trunk or the loopback goes, one of the two caps is hit, or
      the frame meets a connection or bridge that is not (or no longer) the miner's. */
  predicate Loses(s: State, a: Action, cid: nat) {
    match a
    case RunStrand => LostAtEdge(s, cid)
    case EdgeReceives(g) =>
      g < |s.net.links| && s.net.links[g].down != [] && s.net.links[g].down[0] == Welcome
      && LosesSome(OnLink(s, g, s.net.links[g].(down := s.net.links[g].down[1..])).net, s.edge.conn,
                   s.edge.pendingOut, cid)
    case TrunkLost => LinesOf(s.edge.pendingOut, cid) != []
    case Stops => LinesOf(s.edge.pendingOut, cid) != []
    case OriginReceives(g) =>
      g < |s.net.links| && s.net.links[g].up != [] && HomeIs(s.net.home, cid, g)
      && LostAtOrigin(s.net.links[g], s.net.links[g].up[0], cid)
    case OriginCloses(g) => g < |s.net.links| && HomeIs(s.net.home, cid, g) && Waiting(s.net.links[g], cid) != []
    case LoopbackDown(g, c) =>
      g < |s.net.links| && c == cid && HomeIs(s.net.home, cid, g) && Waiting(s.net.links[g], cid) != []
    case _ => false
  }

  // What the miner adds in this step.
  function Adds(s: State, a: Action, cid: nat): seq<Line> {
    if a.MinerSends? && a.cid == cid && 0 < cid < s.edge.nextCid then [a.line] else []
  }

  function PipeOf(s: State, cid: nat): seq<Line> {
    Pipe(s.net, Queue(s.edge), cid)
  }

  // What one step does to the pipeline of a miner.
  ghost predicate Flows(before: seq<Line>, after: seq<Line>, added: seq<Line>, loses: bool) {
    Sub(after, before + added) && (!loses ==> after == before + added)
  }

  lemma SameFlows(p: seq<Line>, loses: bool)
    ensures Flows(p, p, [], loses)
  {
    assert p + [] == p;
    Refl(p);
  }

  lemma SubFlows(before: seq<Line>, after: seq<Line>, loses: bool)
    requires Sub(after, before) && (!loses ==> after == before)
    ensures Flows(before, after, [], loses)
  {
    assert before + [] == before;
  }

  // ----- steps of the edge -----

  lemma ConnectStep(s: State, cid: nat)
    requires Valid(s)
    ensures Valid(s.(edge := Attach(s.edge))) && PipeOf(s.(edge := Attach(s.edge)), cid) == PipeOf(s, cid)
  {
    var q, next := Queue(s.edge), s.edge.nextCid;
    var t := s.(edge := Attach(s.edge));
    assert Queue(t.edge) == q + [Open(next)];
    assert Silent(q, next);
    forall c | c >= next + 1
      ensures Silent(q + [Open(next)], c)
    {
      assert Silent(q, c);
    }
    forall g | 0 <= g < |s.net.links|
      ensures Silent(s.net.links[g].up, next)
    {
    }
    assert Unsent(s.net, next);
    PostPipe(s.net, q, Open(next), cid);
    assert PipeOf(s, cid) + [] == PipeOf(s, cid);
  }

  lemma PostStep(s: State, f: Frame, cid: nat)
    requires Valid(s) && !f.Open? && (f.Data? || f.Close? ==> f.cid < s.edge.nextCid)
    ensures var t := s.(edge := Post(s.edge, f));
            Valid(t) && PipeOf(t, cid) == PipeOf(s, cid) + Own(f, cid)
  {
    var q := Queue(s.edge);
    assert Queue(Post(s.edge, f)) == q + [f];
    PostOk(s.net, q, f, s.edge.nextCid);
    PostPipe(s.net, q, f, cid);
  }

  lemma StrandQueue(s: State)
    requires s.edge.mailbox != [] && s.edge.running && s.edge.welcomed && s.edge.conn.Some?
    requires s.edge.pendingOut == []
    ensures Queue(s.edge) == [s.edge.mailbox[0]] + s.edge.mailbox[1..]
    ensures Queue(RunPosted(s).edge) == s.edge.mailbox[1..]
  {}

  lemma StrandValid(s: State)
    requires Valid(s) && s.edge.mailbox != [] && s.edge.running && s.edge.welcomed && s.edge.conn.Some?
    ensures Valid(RunPosted(s))
  {
    StrandQueue(s);
    SendOk(s.net, s.edge.conn, s.edge.mailbox[0], s.edge.mailbox[1..], s.edge.nextCid);
  }

  lemma StrandSends(s: State, cid: nat)
    requires Valid(s) && s.edge.mailbox != [] && s.edge.running && s.edge.welcomed && s.edge.conn.Some?
    ensures Valid(RunPosted(s)) && Flows(PipeOf(s, cid), PipeOf(RunPosted(s), cid), [], LostAtEdge(s, cid))
  {
    var f, rest := s.edge.mailbox[0], s.edge.mailbox[1..];
    StrandQueue(s);
    StrandValid(s);
    SendPipe(s.net, s.edge.conn, f, rest, cid);
    SubFlows(PipeOf(s, cid), PipeOf(RunPosted(s), cid), LostAtEdge(s, cid));
  }

  lemma OneLine(f: Frame, cid: nat)
    ensures LinesOf([f], cid) == Own(f, cid)
  {
    assert [f][..0] == [];
  }

  lemma StrandDrops(s: State, cid: nat)
    requires Valid(s) && s.edge.mailbox != []
    requires !s.edge.running || (!(s.edge.welcomed && s.edge.conn.Some?) && |s.edge.pendingOut| >= PENDING_CAP)
    ensures Valid(RunPosted(s)) && Flows(PipeOf(s, cid), PipeOf(RunPosted(s), cid), [], LostAtEdge(s, cid))
  {
    var f, rest, p := s.edge.mailbox[0], s.edge.mailbox[1..], s.edge.pendingOut;
    assert Queue(s.edge) == p + [f] + rest;
    assert Queue(RunPosted(s).edge) == p + rest;
    DropOk(s.net, p, [f], rest, s.edge.nextCid);
    DropPipe(s.net, p, [f], rest, cid);
    OneLine(f, cid);
    SubFlows(PipeOf(s, cid), PipeOf(RunPosted(s), cid), LostAtEdge(s, cid));
  }

  lemma StrandStep(s: State, cid: nat)
    requires Valid(s) && s.edge.mailbox != []
    ensures Valid(RunPosted(s)) && Flows(PipeOf(s, cid), PipeOf(RunPosted(s), cid), [], LostAtEdge(s, cid))
  {
    if s.edge.running && s.edge.welcomed && s.edge.conn.Some? {
      StrandSends(s, cid);
    } else if s.edge.running && |s.edge.pendingOut| < PENDING_CAP {
      assert Queue(RunPosted(s).edge) == Queue(s.edge);
      SameFlows(PipeOf(s, cid), LostAtEdge(s, cid));
    } else {
      StrandDrops(s, cid);
    }
  }

  lemma LoseStep(s: State, running: bool, welcomed: bool, cid: nat)
    requires Valid(s)
    ensures Valid(LoseConn(s, running, welcomed))
    ensures Flows(PipeOf(s, cid), PipeOf(LoseConn(s, running, welcomed), cid), [],
                  LinesOf(s.edge.pendingOut, cid) != [])
  {
    var t := LoseConn(s, running, welcomed);
    CloseEdgeSame(s.net, s.edge.conn, Queue(s.edge), s.edge.nextCid, cid);
    assert [] + s.edge.pendingOut + s.edge.mailbox == Queue(s.edge);
    assert Queue(t.edge) == [] + s.edge.mailbox;
    DropOk(t.net, [], s.edge.pendingOut, s.edge.mailbox, s.edge.nextCid);
    DropPipe(t.net, [], s.edge.pendingOut, s.edge.mailbox, cid);
    SubFlows(PipeOf(s, cid), PipeOf(t, cid), LinesOf(s.edge.pendingOut, cid) != []);
  }

  // Closing the edge's side changes nothing that counts.
  lemma CloseEdgeSame(n: Net, conn: Option<nat>, q: seq<Frame>, next: nat, cid: nat)
    requires NetOk(n) && QueueOk(n, q) && Known(n, q, next)
    ensures var m := CloseEdge(n, conn);
            NetOk(m) && QueueOk(m, q) && Known(m, q, next) && Bridge(m, cid) == Bridge(n, cid) && |m.links| == |n.links|
  {
    var m := CloseEdge(n, conn);
    assert forall g :: 0 <= g < |n.links| ==> m.links[g].up == n.links[g].up;
    forall g | 0 <= g < |m.links|
      ensures AtHome(m.links[g], g, m.home)
    {
      assert AtHome(n.links[g], g, n.home);
    }
    UpsSame(n, m, q, next);
  }

  // Connections with the same frames on the way up and the same homes are as good.
  lemma UpsSame(n: Net, m: Net, q: seq<Frame>, next: nat)
    requires QueueOk(n, q) && Known(n, q, next) && m.home == n.home && |m.links| == |n.links|
    requires forall g :: 0 <= g < |n.links| ==> m.links[g].up == n.links[g].up
    ensures QueueOk(m, q) && Known(m, q, next)
  {
    forall j | 0 <= j < |q| && q[j].Open?
      ensures Unsent(m, q[j].cid)
    {
      assert Unsent(n, q[j].cid);
    }
  }

  lemma NewLinkStep(s: State, cid: nat)
    requires Valid(s)
    ensures Valid(Connect(s)) && PipeOf(Connect(s), cid) == PipeOf(s, cid)
  {
    if s.edge.running {
      var n, m := s.net, Connect(s).net;
      forall g | 0 <= g < |m.links|
        ensures AtHome(m.links[g], g, m.home)
      {
        assert g < |n.links| ==> AtHome(n.links[g], g, n.home);
      }
      var q := Queue(s.edge);
      forall j | 0 <= j < |q| && q[j].Open?
        ensures Unsent(m, q[j].cid)
      {
        assert Unsent(n, q[j].cid);
      }
      assert Queue(Connect(s).edge) == q;
      forall c, g | c >= s.edge.nextCid && 0 <= g < |m.links|
        ensures Silent(m.links[g].up, c)
      {
        assert g < |n.links| ==> Silent(n.links[g].up, c);
      }
    }
  }

  // Hello, pong: frames of no miner sent past the queue.
  lemma NeutralStep(s: State, f: Frame, cid: nat)
    requires Valid(s) && (f.Hello? || f.Pong?)
    ensures var t := s.(net := Send(s.net, s.edge.conn, f));
            Valid(t) && PipeOf(t, cid) == PipeOf(s, cid)
  {
    var q := Queue(s.edge);
    NeutralQueue(s.net, q, f, s.edge.nextCid);
    SendOk(s.net, s.edge.conn, f, q, s.edge.nextCid);
    SendPipe(s.net, s.edge.conn, f, q, cid);
    LinesFirst(f, q, cid);
    assert [] + LinesOf(q, cid) == LinesOf(q, cid);
  }

  lemma NeutralQueue(n: Net, q: seq<Frame>, f: Frame, next: nat)
    requires QueueOk(n, q) && Known(n, q, next) && (f.Hello? || f.Pong?)
    ensures QueueOk(n, [f] + q) && Known(n, [f] + q, next)
  {
    var r := [f] + q;
    assert forall i :: 0 <= i < |r| ==> r[i] == if i == 0 then f else q[i - 1];
    forall j | 0 <= j < |r| && r[j].Open?
      ensures Unsent(n, r[j].cid)
    {
      assert Unsent(n, q[j - 1].cid);
    }
    forall cid | cid >= next
      ensures Silent(r, cid)
    {
      assert Silent(q, cid);
    }
  }

  // ----- steps at one connection -----

  // What a step at one connection must keep for the invariant.
  ghost predicate LinkStep(l: Link, m: Link, g: nat, home: map<nat, nat>) {
    && AtHome(m, g, home)
    && (forall cid :: Silent(l.up, cid) ==> Silent(m.up, cid))
  }

  lemma OnLinkOk(s: State, g: nat, m: Link)
    requires Valid(s) && g < |s.net.links| && LinkStep(s.net.links[g], m, g, s.net.home)
    ensures Valid(OnLink(s, g, m))
  {
    var n, t := s.net, OnLink(s, g, m);
    forall h | 0 <= h < |t.net.links|
      ensures AtHome(t.net.links[h], h, t.net.home)
    {
      assert AtHome(n.links[h], h, n.home);
    }
    var q := Queue(s.edge);
    forall j | 0 <= j < |q| && q[j].Open?
      ensures Unsent(t.net, q[j].cid)
    {
      assert Unsent(n, q[j].cid);
    }
  }

  lemma OnLinkFlows(s: State, g: nat, m: Link, cid: nat, loses: bool)
    requires Valid(s) && g < |s.net.links|
    requires HomeIs(s.net.home, cid, g) ==> Flows(Held(s.net.links[g], cid), Held(m, cid), [], loses)
    ensures Flows(PipeOf(s, cid), PipeOf(OnLink(s, g, m), cid), [], HomeIs(s.net.home, cid, g) && loses)
  {
    var rest := LinesOf(Queue(s.edge), cid);
    if HomeIs(s.net.home, cid, g) {
      var l := s.net.links[g];
      assert Held(l, cid) + [] == Held(l, cid);
      Refl(rest);
      Concat(Held(m, cid), Held(l, cid), rest, rest);
      SubFlows(Held(l, cid) + rest, Held(m, cid) + rest, loses);
    } else {
      SameFlows(PipeOf(s, cid), false);
    }
  }

  lemma ReplyOk(l: Link, f: Frame, g: nat, home: map<nat, nat>)
    requires AtHome(l, g, home) && (f.Data? ==> f.cid in l.bridged)
    ensures LinkStep(l, Reply(l, f), g, home) && forall cid :: Held(Reply(l, f), cid) == Held(l, cid)
  {}

  lemma CloseOriginOk(l: Link, g: nat, home: map<nat, nat>, cid: nat)
    requires AtHome(l, g, home)
    ensures LinkStep(l, CloseOrigin(l), g, home)
    ensures Flows(Held(l, cid), Held(CloseOrigin(l), cid), [], Waiting(l, cid) != [])
  {
    WaitingLost(l, CloseOrigin(l), cid);
  }

  // Forgetting a client loses what waits for its loopback.
  lemma WaitingLost(l: Link, m: Link, cid: nat)
    requires m.up == l.up && Log(m.reached, cid) == Log(l.reached, cid)
    requires Waiting(m, cid) == [] || Waiting(m, cid) == Waiting(l, cid)
    ensures Flows(Held(l, cid), Held(m, cid), [], Waiting(l, cid) != [])
  {
    if Waiting(m, cid) == Waiting(l, cid) {
      SameFlows(Held(l, cid), Waiting(l, cid) != []);
    } else {
      var a, b, c := Log(l.reached, cid), Waiting(l, cid), LinesOf(l.up, cid);
      Without(a, b, c);
      assert a + [] + c == a + c;
      SubFlows(a + b + c, a + [] + c, b != []);
    }
  }

  lemma CloseClientOk(l: Link, c: nat, tellEdge: bool, g: nat, home: map<nat, nat>, cid: nat)
    requires AtHome(l, g, home)
    ensures LinkStep(l, CloseClient(l, c, tellEdge), g, home)
    ensures Flows(Held(l, cid), Held(CloseClient(l, c, tellEdge), cid), [], c == cid && Waiting(l, cid) != [])
  {
    var m := CloseClient(l, c, tellEdge);
    if c == cid {
      WaitingLost(l, m, cid);
    } else {
      assert Held(m, cid) == Held(l, cid);
      SameFlows(Held(l, cid), false);
    }
  }

  lemma LoopbackUpOk(l: Link, c: nat, g: nat, home: map<nat, nat>, cid: nat)
    requires AtHome(l, g, home)
    ensures LinkStep(l, LoopbackConnected(l, c), g, home) && Held(LoopbackConnected(l, c), cid) == Held(l, cid)
  {
    if c in l.clients && c == cid {
      var p := l.clients[c].pending;
      assert Log(l.reached, cid) + p + [] == Log(l.reached, cid) + p;
    }
  }

  // Taking the first frame off the wire and passing its line on.
  lemma HeadMoves(l: Link, m: Link, cid: nat)
    requires l.up != [] && m.up == l.up[1..]
    requires Log(m.reached, cid) + Waiting(m, cid) == Log(l.reached, cid) + Waiting(l, cid) + Own(l.up[0], cid)
    ensures Held(m, cid) == Held(l, cid)
  {
    var f, rest := l.up[0], l.up[1..];
    assert l.up == [f] + rest;
    LinesFirst(f, rest, cid);
    var a := Log(l.reached, cid) + Waiting(l, cid);
    assert a + Own(f, cid) + LinesOf(rest, cid) == a + (Own(f, cid) + LinesOf(rest, cid));
  }

  lemma TwoLost(r: seq<Line>, w: seq<Line>, own: seq<Line>, tail: seq<Line>)
    ensures Sub(r + w + tail, r + w + (own + tail)) && Sub(r + [] + tail, r + w + (own + tail))
  {
    Without(r + w, own, tail);
    assert r + w + own + tail == r + w + (own + tail);
    Without(r, w, tail);
    assert r + [] + tail == r + tail;
    Trans(r + tail, r + w + tail, r + w + (own + tail));
  }

  // Taking the first frame off the wire and dropping it, and perhaps what waits.
  lemma HeadDrops(l: Link, m: Link, cid: nat)
    requires l.up != [] && m.up == l.up[1..] && Log(m.reached, cid) == Log(l.reached, cid)
    requires Waiting(m, cid) == [] || Waiting(m, cid) == Waiting(l, cid)
    ensures Flows(Held(l, cid), Held(m, cid), [],
                  Own(l.up[0], cid) != [] || (Waiting(l, cid) != [] && Waiting(m, cid) == []))
  {
    var f, rest := l.up[0], l.up[1..];
    var own, tail := Own(f, cid), LinesOf(rest, cid);
    assert l.up == [f] + rest;
    LinesFirst(f, rest, cid);
    var r, w := Log(l.reached, cid), Waiting(l, cid);
    TwoLost(r, w, own, tail);
    if own == [] {
      assert own + tail == tail;
    }
    SubFlows(Held(l, cid), Held(m, cid), own != [] || (w != [] && Waiting(m, cid) == []));
  }

  function Taken(l: Link): Link
    requires l.up != []
  {
    l.(up := l.up[1..])
  }

  lemma TakenOk(l: Link, g: nat, home: map<nat, nat>)
    requires AtHome(l, g, home) && l.up != []
    ensures LinkStep(l, Taken(l), g, home)
  {
    forall cid | Silent(l.up, cid)
      ensures Silent(Taken(l).up, cid)
    {
      assert l.up == [l.up[0]] + l.up[1..];
      SilentTail(l.up[0], l.up[1..], cid);
    }
  }

  lemma OnLineKeeps(l: Link, g: nat, home: map<nat, nat>)
    requires AtHome(l, g, home) && l.up != []
    ensures LinkStep(l, OnLine(Taken(l), l.up[0]), g, home)
  {
    TakenOk(l, g, home);
    LineKeeps(Taken(l), l.up[0], g, home);
  }

  // One frame at an origin that has taken it from the wire.
  lemma LineKeeps(t: Link, f: Frame, g: nat, home: map<nat, nat>)
    requires AtHome(t, g, home) && (f.Open? ==> HomeIs(home, f.cid, g))
    ensures AtHome(OnLine(t, f), g, home) && OnLine(t, f).up == t.up
  {
    if !t.originClosed && t.helloOk {
      match f {
        case Open(_) => OpenKeeps(t, f.cid, g, home);
        case Data(_, line) => DataKeeps(t, f.cid, line, g, home);
        case Close(_) => CloseKeeps(t, f.cid, g, home);
        case _ =>
      }
    }
  }

  lemma OpenKeeps(t: Link, c: nat, g: nat, home: map<nat, nat>)
    requires AtHome(t, g, home) && HomeIs(home, c, g)
    ensures AtHome(OpenClient(t, c), g, home)
  {}

  lemma DataKeeps(t: Link, c: nat, line: Line, g: nat, home: map<nat, nat>)
    requires AtHome(t, g, home)
    ensures AtHome(ClientData(t, c, line), g, home)
  {}

  lemma CloseKeeps(t: Link, c: nat, g: nat, home: map<nat, nat>)
    requires AtHome(t, g, home)
    ensures AtHome(CloseClient(t, c, false), g, home)
  {}

  lemma OnLineFlows(l: Link, g: nat, home: map<nat, nat>, cid: nat)
    requires AtHome(l, g, home) && l.up != []
    ensures Flows(Held(l, cid), Held(OnLine(Taken(l), l.up[0]), cid), [], LostAtOrigin(l, l.up[0], cid))
  {
    var f, t := l.up[0], Taken(l);
    var m := OnLine(t, f);
    if f.Data? && f.cid == cid && !LostAtOrigin(l, f, cid) {
      DataArrives(l, cid);
      SameFlows(Held(l, cid), false);
    } else {
      DropsAtOrigin(l, cid);
    }
  }

  lemma DataArrives(l: Link, cid: nat)
    requires l.up != [] && l.up[0].Data? && l.up[0].cid == cid && !LostAtOrigin(l, l.up[0], cid)
    requires cid in l.clients ==> (l.clients[cid].connected ==> l.clients[cid].pending == [])
    ensures Held(OnLine(Taken(l), l.up[0]), cid) == Held(l, cid)
  {
    var f, m := l.up[0], OnLine(Taken(l), l.up[0]);
    var r, w := Log(l.reached, cid), Waiting(l, cid);
    assert r + w + [f.line] == r + (w + [f.line]);
    if l.clients[cid].connected {
      assert r + [f.line] + [] == r + [] + [f.line];
    }
    HeadMoves(l, m, cid);
  }

  lemma DropsAtOrigin(l: Link, cid: nat)
    requires l.up != [] && (l.up[0].Data? && l.up[0].cid == cid ==> LostAtOrigin(l, l.up[0], cid))
    ensures Flows(Held(l, cid), Held(OnLine(Taken(l), l.up[0]), cid), [], LostAtOrigin(l, l.up[0], cid))
  {
    var f, m := l.up[0], OnLine(Taken(l), l.up[0]);
    if f.Data? && f.cid == cid {
      if l.originClosed || !l.helloOk || cid == 0 || cid !in l.clients
         || (!l.clients[cid].connected && |l.clients[cid].pending| >= LOOPBACK_CAP) {
        HeadDrops(l, m, cid);
      }
    } else {
      HeadDrops(l, m, cid);
    }
  }

  // ----- every step -----

  lemma PopDown(s: State, g: nat)
    requires Valid(s) && g < |s.net.links| && s.net.links[g].down != []
    ensures var l := s.net.links[g];
            var t := OnLink(s, g, l.(down := l.down[1..]));
            Valid(t) && forall cid :: PipeOf(t, cid) == PipeOf(s, cid)
  {
    var l := s.net.links[g];
    var m := l.(down := l.down[1..]);
    assert AtHome(l, g, s.net.home);
    OnLinkOk(s, g, m);
    forall cid
      ensures PipeOf(OnLink(s, g, m), cid) == PipeOf(s, cid)
    {
      assert Held(m, cid) == Held(l, cid);
    }
  }

  lemma WelcomeValid(s: State)
    requires Valid(s)
    ensures Valid(OnFrame(s, Welcome)) && Queue(OnFrame(s, Welcome).edge) == s.edge.mailbox
  {
    SendAllOk(s.net, s.edge.conn, s.edge.pendingOut, s.edge.mailbox, s.edge.nextCid);
    assert [] + s.edge.mailbox == s.edge.mailbox;
  }

  lemma WelcomeStep(s: State, cid: nat)
    requires Valid(s)
    ensures Valid(OnFrame(s, Welcome))
    ensures Flows(PipeOf(s, cid), PipeOf(OnFrame(s, Welcome), cid), [],
                  LosesSome(s.net, s.edge.conn, s.edge.pendingOut, cid))
  {
    WelcomeValid(s);
    SendAllPipe(s.net, s.edge.conn, s.edge.pendingOut, s.edge.mailbox, s.edge.nextCid, cid);
    SubFlows(PipeOf(s, cid), PipeOf(OnFrame(s, Welcome), cid),
             LosesSome(s.net, s.edge.conn, s.edge.pendingOut, cid));
  }

  lemma ByeStep(s: State, cid: nat)
    requires Valid(s)
    ensures Valid(OnFrame(s, Bye)) && PipeOf(OnFrame(s, Bye), cid) == PipeOf(s, cid)
  {
    CloseEdgeSame(s.net, s.edge.conn, Queue(s.edge), s.edge.nextCid, cid);
  }

  lemma FrameStep(s: State, f: Frame, cid: nat)
    requires Valid(s)
    ensures Valid(OnFrame(s, f))
    ensures Flows(PipeOf(s, cid), PipeOf(OnFrame(s, f), cid), [],
                  f == Welcome && LosesSome(s.net, s.edge.conn, s.edge.pendingOut, cid))
  {
    SameFlows(PipeOf(s, cid), false);
    match f {
      case Welcome => WelcomeStep(s, cid);
      case Bye => ByeStep(s, cid);
      case Ping => NeutralStep(s, Pong, cid);
      case _ =>
    }
  }

  lemma ReceiveIs(s: State, g: nat, cid: nat)
    requires g < |s.net.links| && s.net.links[g].down != []
    ensures var l := s.net.links[g];
            var t := OnLink(s, g, l.(down := l.down[1..]));
            && Step(s, EdgeReceives(g)) == OnFrame(t, l.down[0])
            && (Loses(s, EdgeReceives(g), cid) <==>
                  l.down[0] == Welcome && LosesSome(t.net, t.edge.conn, t.edge.pendingOut, cid))
  {}

  lemma ReceiveStep(s: State, g: nat, cid: nat)
    requires Valid(s)
    ensures Valid(Step(s, EdgeReceives(g)))
    ensures Flows(PipeOf(s, cid), PipeOf(Step(s, EdgeReceives(g)), cid), [], Loses(s, EdgeReceives(g), cid))
  {
    if g < |s.net.links| && s.net.links[g].down != [] {
      var l := s.net.links[g];
      var t, f := OnLink(s, g, l.(down := l.down[1..])), l.down[0];
      PopDown(s, g);
      ReceiveIs(s, g, cid);
      FrameStep(t, f, cid);
    } else {
      SameFlows(PipeOf(s, cid), false);
    }
  }

  lemma LinkStepFlows(s: State, g: nat, m: Link, cid: nat, loses: bool)
    requires Valid(s) && g < |s.net.links| && LinkStep(s.net.links[g], m, g, s.net.home)
    requires Flows(Held(s.net.links[g], cid), Held(m, cid), [], loses)
    ensures Valid(OnLink(s, g, m))
    ensures Flows(PipeOf(s, cid), PipeOf(OnLink(s, g, m), cid), [], HomeIs(s.net.home, cid, g) && loses)
  {
    OnLinkOk(s, g, m);
    OnLinkFlows(s, g, m, cid, loses);
  }

  lemma OriginReceivesStep(s: State, g: nat, cid: nat)
    requires Valid(s)
    ensures Valid(Step(s, OriginReceives(g)))
    ensures Flows(PipeOf(s, cid), PipeOf(Step(s, OriginReceives(g)), cid), [], Loses(s, OriginReceives(g), cid))
  {
    SameFlows(PipeOf(s, cid), Loses(s, OriginReceives(g), cid));
    if g < |s.net.links| && s.net.links[g].up != [] {
      var l, home := s.net.links[g], s.net.home;
      assert AtHome(l, g, home);
      OnLineKeeps(l, g, home);
      OnLineFlows(l, g, home, cid);
      LinkStepFlows(s, g, OnLine(Taken(l), l.up[0]), cid, LostAtOrigin(l, l.up[0], cid));
    }
  }

  lemma OriginStep(s: State, a: Action, cid: nat)
    requires Valid(s)
    requires a.OriginReceives? || a.OriginCloses? || a.LoopbackUp? || a.LoopbackDown? || a.LoopbackSends?
    ensures Valid(Step(s, a)) && Flows(PipeOf(s, cid), PipeOf(Step(s, a), cid), [], Loses(s, a, cid))
  {
    match a {
      case OriginReceives(g) => OriginReceivesStep(s, g, cid);
      case OriginCloses(g) => OriginClosesStep(s, g, cid);
      case LoopbackUp(g, c) => LoopbackUpStep(s, g, c, cid);
      case LoopbackDown(g, c) => LoopbackDownStep(s, g, c, cid);
      case LoopbackSends(g, c, line) => LoopbackSendsStep(s, g, c, line, cid);
    }
  }

  lemma OriginClosesStep(s: State, g: nat, cid: nat)
    requires Valid(s)
    ensures Valid(Step(s, OriginCloses(g)))
    ensures Flows(PipeOf(s, cid), PipeOf(Step(s, OriginCloses(g)), cid), [], Loses(s, OriginCloses(g), cid))
  {
    SameFlows(PipeOf(s, cid), false);
    if g < |s.net.links| {
      var l := s.net.links[g];
      CloseOriginOk(l, g, s.net.home, cid);
      LinkStepFlows(s, g, CloseOrigin(l), cid, Waiting(l, cid) != []);
    }
  }

  lemma LoopbackUpStep(s: State, g: nat, c: nat, cid: nat)
    requires Valid(s)
    ensures Valid(Step(s, LoopbackUp(g, c)))
    ensures Flows(PipeOf(s, cid), PipeOf(Step(s, LoopbackUp(g, c)), cid), [], false)
  {
    SameFlows(PipeOf(s, cid), false);
    if g < |s.net.links| {
      var l := s.net.links[g];
      SameFlows(Held(l, cid), false);
      LoopbackUpOk(l, c, g, s.net.home, cid);
      LinkStepFlows(s, g, LoopbackConnected(l, c), cid, false);
    }
  }

  lemma LoopbackDownStep(s: State, g: nat, c: nat, cid: nat)
    requires Valid(s)
    ensures Valid(Step(s, LoopbackDown(g, c)))
    ensures Flows(PipeOf(s, cid), PipeOf(Step(s, LoopbackDown(g, c)), cid), [], Loses(s, LoopbackDown(g, c), cid))
  {
    SameFlows(PipeOf(s, cid), false);
    if g < |s.net.links| {
      var l := s.net.links[g];
      CloseClientOk(l, c, true, g, s.net.home, cid);
      LinkStepFlows(s, g, CloseClient(l, c, true), cid, c == cid && Waiting(l, cid) != []);
    }
  }

  lemma LoopbackSendsStep(s: State, g: nat, c: nat, line: Line, cid: nat)
    requires Valid(s)
    ensures Valid(Step(s, LoopbackSends(g, c, line)))
    ensures Flows(PipeOf(s, cid), PipeOf(Step(s, LoopbackSends(g, c, line)), cid), [], false)
  {
    if g < |s.net.links| && c in s.net.links[g].bridged {
      ReplyStep(s, g, Data(c, line), cid);
    } else {
      assert Step(s, LoopbackSends(g, c, line)) == s;
      SameFlows(PipeOf(s, cid), false);
    }
  }

  lemma ReplyStep(s: State, g: nat, f: Frame, cid: nat)
    requires Valid(s) && g < |s.net.links| && (f.Data? ==> f.cid in s.net.links[g].bridged)
    ensures Valid(OnLink(s, g, Reply(s.net.links[g], f)))
    ensures Flows(PipeOf(s, cid), PipeOf(OnLink(s, g, Reply(s.net.links[g], f)), cid), [], false)
  {
    var l := s.net.links[g];
    SameFlows(Held(l, cid), false);
    ReplyOk(l, f, g, s.net.home);
    LinkStepFlows(s, g, Reply(l, f), cid, false);
  }

  lemma MinerStep(s: State, a: Action, cid: nat)
    requires Valid(s) && (a.MinerConnects? || a.MinerSends? || a.MinerLeaves?)
    ensures Valid(Step(s, a))
    ensures Flows(PipeOf(s, cid), PipeOf(Step(s, a), cid), Adds(s, a, cid), false)
  {
    SameFlows(PipeOf(s, cid), false);
    match a {
      case MinerConnects => ConnectStep(s, cid);
      case MinerSends(c, line) =>
        if 0 < c < s.edge.nextCid {
          PostStep(s, Data(c, line), cid);
          Refl(PipeOf(s, cid) + Own(Data(c, line), cid));
        }
      case MinerLeaves(c) =>
        if c in s.edge.sessions {
          var t := s.(edge := s.edge.(sessions := s.edge.sessions - {c}));
          PostStep(t, Close(c), cid);
          assert PipeOf(s, cid) + [] == PipeOf(s, cid);
        }
    }
  }

  lemma EdgeStep(s: State, a: Action, cid: nat)
    requires Valid(s) && (a.RunStrand? || a.Connects? || a.Hellos? || a.TrunkLost? || a.Stops?)
    ensures Valid(Step(s, a))
    ensures Flows(PipeOf(s, cid), PipeOf(Step(s, a), cid), [], Loses(s, a, cid))
  {
    SameFlows(PipeOf(s, cid), Loses(s, a, cid));
    match a {
      case RunStrand =>
        if s.edge.mailbox != [] {
          StrandStep(s, cid);
        }
      case Connects => NewLinkStep(s, cid);
      case Hellos(role, auth) => NeutralStep(s, Hello(role, auth), cid);
      case TrunkLost => LoseStep(s, s.edge.running, false, cid);
      case Stops => LoseStep(s, false, s.edge.welcomed, cid);
    }
  }

  /** Every step, in any state: a miner's lines stay in order, nothing foreign enters, what the miner sends is
      added at the end, and nothing goes missing except in the steps that Loses names. */
  lemma StepFlows(s: State, a: Action, cid: nat)
    requires Valid(s)
    ensures Valid(Step(s, a))
    ensures Flows(PipeOf(s, cid), PipeOf(Step(s, a), cid), Adds(s, a, cid), Loses(s, a, cid))
  {
    if a.MinerConnects? || a.MinerSends? || a.MinerLeaves? {
      MinerStep(s, a, cid);
    } else if a.RunStrand? || a.Connects? || a.Hellos? || a.TrunkLost? || a.Stops? {
      EdgeStep(s, a, cid);
    } else if a.EdgeReceives? {
      ReceiveStep(s, a.g, cid);
    } else {
      OriginStep(s, a, cid);
    }
  }

  // ----- whole runs: miner to pool -----

  // The lines a miner sent during a run.
  function Sent(actions: seq<Action>, cid: nat): seq<Line> {
    if actions == [] then []
    else
      var before := actions[..|actions| - 1];
      Sent(before, cid) + Adds(Run(before), actions[|actions| - 1], cid)
  }

  // No step of the run drops a line of the miner.
  ghost predicate Undisturbed(actions: seq<Action>, cid: nat) {
    forall n :: 0 <= n < |actions| ==> !Loses(Run(actions[..n]), actions[n], cid)
  }

  lemma UndisturbedBefore(actions: seq<Action>, cid: nat)
    requires actions != [] && Undisturbed(actions, cid)
    ensures var m := |actions| - 1;
            Undisturbed(actions[..m], cid) && !Loses(Run(actions[..m]), actions[m], cid)
  {
    var m := |actions| - 1;
    forall n | 0 <= n < m
      ensures !Loses(Run(actions[..m][..n]), actions[..m][n], cid)
    {
      assert actions[..m][..n] == actions[..n];
    }
  }

  // What a step adds to a pipeline that follows what was sent.
  lemma FlowsOn(before: seq<Line>, after: seq<Line>, sent: seq<Line>, added: seq<Line>, loses: bool)
    requires Sub(before, sent) && Flows(before, after, added, loses)
    ensures Sub(after, sent + added) && (!loses && before == sent ==> after == sent + added)
  {
    Refl(added);
    Concat(before, sent, added, added);
    Trans(after, before + added, sent + added);
  }

  lemma {:induction false} RunFlows(actions: seq<Action>, cid: nat)
    ensures Valid(Run(actions)) && Sub(PipeOf(Run(actions), cid), Sent(actions, cid))
    ensures Undisturbed(actions, cid) ==> PipeOf(Run(actions), cid) == Sent(actions, cid)
  {
    if actions != [] {
      var before, a := actions[..|actions| - 1], actions[|actions| - 1];
      RunFlows(before, cid);
      var s := Run(before);
      StepFlows(s, a, cid);
      FlowsOn(PipeOf(s, cid), PipeOf(Step(s, a), cid), Sent(before, cid), Adds(s, a, cid), Loses(s, a, cid));
      if Undisturbed(actions, cid) {
        UndisturbedBefore(actions, cid);
      }
    }
  }

  lemma FrontSub(a: seq<Line>, b: seq<Line>, c: seq<Line>, d: seq<Line>)
    ensures Sub(a, a + b + c + d)
  {
    Refl(a);
    Nothing(b + c + d);
    Concat(a, a, [], b + c + d);
    assert a + [] == a && a + (b + c + d) == a + b + c + d;
  }

  /** In every run, with connections lost and made again, the lines that reached a miner's loopback over any
      connection are an in-order subsequence of what that miner sent, every one of them was sent by it, and only
      the connection that carried its opening frame ever has any. */
  lemma RunSafe(actions: seq<Action>, g: nat, cid: nat)
    requires g < |Run(actions).net.links|
    ensures Sub(Log(Run(actions).net.links[g].reached, cid), Sent(actions, cid))
    ensures forall line :: line in Log(Run(actions).net.links[g].reached, cid) ==> line in Sent(actions, cid)
    ensures Log(Run(actions).net.links[g].reached, cid) != [] ==> HomeIs(Run(actions).net.home, cid, g)
  {
    RunFlows(actions, cid);
    var s := Run(actions);
    var l := s.net.links[g];
    assert AtHome(l, g, s.net.home);
    var r := Log(l.reached, cid);
    if r != [] {
      assert HomeIs(s.net.home, cid, g);
      FrontSub(r, Waiting(l, cid), LinesOf(l.up, cid), LinesOf(Queue(s.edge), cid));
      Trans(r, PipeOf(s, cid), Sent(actions, cid));
      forall line | line in r
        ensures line in Sent(actions, cid)
      {
        Members(r, Sent(actions, cid), line);
      }
    }
  }

  // ----- whole runs: pool to miner -----

  /** Every line for a miner between its loopback and its socket. */
  function DownPipe(s: State, cid: nat): seq<Line> {
    Log(s.delivered, cid)
    + if cid in s.net.home && s.net.home[cid] < |s.net.links|
      then LinesOf(s.net.links[s.net.home[cid]].down, cid) else []
  }

  function LoopbackAdds(s: State, a: Action, cid: nat): seq<Line> {
    if a.LoopbackSends? && a.cid == cid && a.g < |s.net.links| && cid in s.net.links[a.g].bridged then [a.line] else []
  }

  // The edge no longer knows the miner, or the origin's session is closed.
  predicate DownLoses(s: State, a: Action, cid: nat) {
    match a
    case EdgeReceives(g) =>
      g < |s.net.links| && s.net.links[g].down != [] && Own(s.net.links[g].down[0], cid) != []
      && cid !in s.edge.sessions
    case LoopbackSends(g, c, line) =>
      c == cid && g < |s.net.links| && cid in s.net.links[g].bridged && s.net.links[g].originClosed
    case _ => false
  }

  // Nothing changes on the way down.
  ghost predicate DownKept(n: Net, m: Net, cid: nat) {
    && |n.links| <= |m.links|
    && (forall g :: 0 <= g < |n.links| ==> LinesOf(m.links[g].down, cid) == LinesOf(n.links[g].down, cid))
    && (forall g :: |n.links| <= g < |m.links| ==> m.links[g].down == [])
    && (cid in n.home ==> cid in m.home && m.home[cid] == n.home[cid])
  }

  lemma {:induction false} NoLines(frames: seq<Frame>, cid: nat)
    requires forall i :: 0 <= i < |frames| && frames[i].Data? ==> frames[i].cid != cid
    ensures LinesOf(frames, cid) == []
  {
    if frames != [] {
      NoLines(frames[..|frames| - 1], cid);
    }
  }

  // Nothing comes down for a miner whose opening frame was never sent.
  lemma UnopenedIsQuiet(n: Net, g: nat, cid: nat)
    requires NetOk(n) && g < |n.links| && !HomeIs(n.home, cid, g)
    ensures LinesOf(n.links[g].down, cid) == []
  {
    assert AtHome(n.links[g], g, n.home);
    NoLines(n.links[g].down, cid);
  }

  lemma DownSame(s: State, t: State, cid: nat)
    requires NetOk(s.net) && DownKept(s.net, t.net, cid) && Log(t.delivered, cid) == Log(s.delivered, cid)
    ensures DownPipe(t, cid) == DownPipe(s, cid)
  {
    if cid !in s.net.home && cid in t.net.home && t.net.home[cid] < |s.net.links| {
      UnopenedIsQuiet(s.net, t.net.home[cid], cid);
    }
  }

  lemma SendDown(n: Net, conn: Option<nat>, f: Frame, cid: nat)
    requires f.Open? ==> f.cid !in n.home
    ensures DownKept(n, Send(n, conn, f), cid)
  {}

  lemma {:induction false} SendAllDown(n: Net, conn: Option<nat>, fs: seq<Frame>, rest: seq<Frame>, next: nat, cid: nat)
    requires NetOk(n) && QueueOk(n, fs + rest) && Known(n, fs + rest, next)
    ensures DownKept(n, SendAll(n, conn, fs), cid)
    decreases fs
  {
    if fs != [] {
      assert fs + rest == [fs[0]] + (fs[1..] + rest);
      assert ([fs[0]] + (fs[1..] + rest))[0] == fs[0];
      SendOk(n, conn, fs[0], fs[1..] + rest, next);
      SendDown(n, conn, fs[0], cid);
      SendAllDown(Send(n, conn, fs[0]), conn, fs[1..], rest, next, cid);
    }
  }

  lemma LinkDown(s: State, g: nat, m: Link, cid: nat)
    requires g < |s.net.links| && LinesOf(m.down, cid) == LinesOf(s.net.links[g].down, cid)
    ensures DownKept(s.net, OnLink(s, g, m).net, cid)
  {}

  lemma ReplyDown(l: Link, f: Frame, cid: nat)
    ensures LinesOf(Reply(l, f).down, cid) == LinesOf(l.down, cid) + if l.originClosed then [] else Own(f, cid)
  {
    LinesConcat(l.down, [f], cid);
    OneLine(f, cid);
  }

  lemma OriginDown(l: Link, f: Frame, cid: nat)
    ensures LinesOf(OnLine(l, f).down, cid) == LinesOf(l.down, cid)
  {
    if !l.originClosed && !l.helloOk {
      var ok := l.(helloOk := true);
      ReplyDown(ok, Welcome, cid);
      ReplyDown(l, Bye, cid);
      assert LinesOf(l.down, cid) + [] == LinesOf(l.down, cid);
    } else if !l.originClosed && f.Ping? {
      ReplyDown(l, Pong, cid);
      assert LinesOf(l.down, cid) + [] == LinesOf(l.down, cid);
    } else {
      assert OnLine(l, f).down == l.down;
    }
  }

  // The edge takes the next frame down.
  lemma EdgeReceivesDown(s: State, g: nat, cid: nat)
    requires Valid(s)
    ensures Flows(DownPipe(s, cid), DownPipe(Step(s, EdgeReceives(g)), cid), [], DownLoses(s, EdgeReceives(g), cid))
  {
    SameFlows(DownPipe(s, cid), false);
    if g < |s.net.links| && s.net.links[g].down != [] {
      var l := s.net.links[g];
      var f, rest := l.down[0], l.down[1..];
      var t := OnLink(s, g, l.(down := rest));
      PopDown(s, g);
      assert l.down == [f] + rest;
      LinesFirst(f, rest, cid);
      if Own(f, cid) != [] {
        LineDown(s, g, cid);
      } else {
        assert [] + LinesOf(rest, cid) == LinesOf(rest, cid);
        LinkDown(s, g, l.(down := rest), cid);
        DownSame(s, t, cid);
        OtherDown(t, f, cid);
      }
    }
  }

  lemma LineDown(s: State, g: nat, cid: nat)
    requires Valid(s) && g < |s.net.links| && s.net.links[g].down != [] && Own(s.net.links[g].down[0], cid) != []
    ensures Flows(DownPipe(s, cid), DownPipe(Step(s, EdgeReceives(g)), cid), [], DownLoses(s, EdgeReceives(g), cid))
  {
    var l := s.net.links[g];
    var line, rest := l.down[0].line, l.down[1..];
    assert AtHome(l, g, s.net.home);
    assert HomeIs(s.net.home, cid, g);
    assert l.down == [l.down[0]] + rest;
    LinesFirst(l.down[0], rest, cid);
    var d, tail := Log(s.delivered, cid), LinesOf(rest, cid);
    var t := Step(s, EdgeReceives(g));
    if cid in s.edge.sessions {
      assert d + [line] + tail == d + ([line] + tail);
      SameFlows(DownPipe(s, cid), false);
    } else {
      Without(d, [line], tail);
      assert d + [line] + tail == d + ([line] + tail);
      SubFlows(DownPipe(s, cid), DownPipe(t, cid), true);
    }
  }

  lemma WelcomeDown(s: State, cid: nat)
    requires Valid(s)
    ensures DownPipe(OnFrame(s, Welcome), cid) == DownPipe(s, cid)
  {
    SendAllDown(s.net, s.edge.conn, s.edge.pendingOut, s.edge.mailbox, s.edge.nextCid, cid);
    DownSame(s, OnFrame(s, Welcome), cid);
  }

  lemma OtherDown(s: State, f: Frame, cid: nat)
    requires Valid(s) && Own(f, cid) == []
    ensures DownPipe(OnFrame(s, f), cid) == DownPipe(s, cid)
  {
    match f {
      case Welcome => WelcomeDown(s, cid);
      case Bye =>
      case Ping =>
        SendDown(s.net, s.edge.conn, Pong, cid);
        DownSame(s, OnFrame(s, f), cid);
      case _ =>
    }
  }

  lemma StrandDown(s: State, cid: nat)
    requires Valid(s) && s.edge.mailbox != []
    ensures DownPipe(RunPosted(s), cid) == DownPipe(s, cid)
  {
    var f := s.edge.mailbox[0];
    if s.edge.running && s.edge.welcomed && s.edge.conn.Some? {
      assert Queue(s.edge)[0] == f;
      SendDown(s.net, s.edge.conn, f, cid);
      DownSame(s, RunPosted(s), cid);
    }
  }

  lemma OneMoreDown(d: seq<Line>, x: seq<Line>, line: Line, closed: bool)
    ensures Flows(d + x, d + (x + if closed then [] else [line]), [line], closed)
  {
    Sequences.Associates(d, x, [line]);
    if closed {
      assert x + [] == x;
      Refl(d + x);
      Skip(d + x, d + x, line);
    } else {
      Refl(d + x + [line]);
    }
  }

  lemma LoopbackDownward(s: State, a: Action, cid: nat)
    requires Valid(s) && a.LoopbackSends?
    ensures Flows(DownPipe(s, cid), DownPipe(Step(s, a), cid), LoopbackAdds(s, a, cid), DownLoses(s, a, cid))
  {
    SameFlows(DownPipe(s, cid), false);
    if a.g < |s.net.links| && a.cid in s.net.links[a.g].bridged {
      var l := s.net.links[a.g];
      var m := Reply(l, Data(a.cid, a.line));
      ReplyDown(l, Data(a.cid, a.line), cid);
      if a.cid == cid {
        assert AtHome(l, a.g, s.net.home);
        assert HomeIs(s.net.home, cid, a.g);
        OneMoreDown(Log(s.delivered, cid), LinesOf(l.down, cid), a.line, l.originClosed);
      } else {
        LinkDown(s, a.g, m, cid);
        DownSame(s, OnLink(s, a.g, m), cid);
      }
    }
  }

  lemma LinkSame(s: State, g: nat, m: Link, cid: nat)
    requires Valid(s) && g < |s.net.links| && LinesOf(m.down, cid) == LinesOf(s.net.links[g].down, cid)
    ensures DownPipe(OnLink(s, g, m), cid) == DownPipe(s, cid)
  {
    LinkDown(s, g, m, cid);
    DownSame(s, OnLink(s, g, m), cid);
  }

  lemma LineSame(s: State, g: nat, cid: nat)
    requires Valid(s) && g < |s.net.links| && s.net.links[g].up != []
    ensures DownPipe(Step(s, OriginReceives(g)), cid) == DownPipe(s, cid)
  {
    var l := s.net.links[g];
    OriginDown(Taken(l), l.up[0], cid);
    LinkSame(s, g, OnLine(Taken(l), l.up[0]), cid);
  }

  lemma CloseDown(l: Link, c: nat, cid: nat)
    ensures LinesOf(CloseClient(l, c, true).down, cid) == LinesOf(l.down, cid)
  {
    ReplyDown(l.(clients := l.clients - {c}), Close(c), cid);
    assert LinesOf(l.down, cid) + [] == LinesOf(l.down, cid);
  }

  lemma LoopbackUpSame(s: State, g: nat, c: nat, cid: nat)
    requires Valid(s) && g < |s.net.links|
    ensures DownPipe(Step(s, LoopbackUp(g, c)), cid) == DownPipe(s, cid)
  {
    LinkSame(s, g, LoopbackConnected(s.net.links[g], c), cid);
  }

  lemma LoopbackDownSame(s: State, g: nat, c: nat, cid: nat)
    requires Valid(s) && g < |s.net.links|
    ensures DownPipe(Step(s, LoopbackDown(g, c)), cid) == DownPipe(s, cid)
  {
    CloseDown(s.net.links[g], c, cid);
    LinkSame(s, g, CloseClient(s.net.links[g], c, true), cid);
  }

  lemma OriginDownward(s: State, a: Action, cid: nat)
    requires Valid(s) && (a.OriginReceives? || a.OriginCloses? || a.LoopbackUp? || a.LoopbackDown?)
    ensures DownPipe(Step(s, a), cid) == DownPipe(s, cid)
  {
    if a.g < |s.net.links| {
      var l := s.net.links[a.g];
      match a {
        case OriginReceives(g) =>
          if l.up != [] {
            LineSame(s, g, cid);
          }
        case OriginCloses(g) => LinkSame(s, g, CloseOrigin(l), cid);
        case LoopbackUp(g, c) => LoopbackUpSame(s, g, c, cid);
        case LoopbackDown(g, c) => LoopbackDownSame(s, g, c, cid);
      }
    }
  }

  // What happens to the trunk itself touches no line on the way down.
  lemma TrunkDown(s: State, a: Action, cid: nat)
    requires Valid(s) && (a.Connects? || a.Hellos? || a.TrunkLost? || a.Stops?)
    ensures DownPipe(Step(s, a), cid) == DownPipe(s, cid)
  {
    if a.Hellos? {
      SendDown(s.net, s.edge.conn, Hello(a.role, a.auth), cid);
    }
    DownSame(s, Step(s, a), cid);
  }

  /** Every step, on the way from the loopback to the miner. */
  lemma StepDown(s: State, a: Action, cid: nat)
    requires Valid(s)
    ensures Flows(DownPipe(s, cid), DownPipe(Step(s, a), cid), LoopbackAdds(s, a, cid), DownLoses(s, a, cid))
  {
    SameFlows(DownPipe(s, cid), DownLoses(s, a, cid));
    match a {
      case MinerConnects =>
      case MinerSends(_, _) =>
      case MinerLeaves(_) =>
      case RunStrand =>
        if s.edge.mailbox != [] {
          StrandDown(s, cid);
        }
      case Connects => TrunkDown(s, a, cid);
      case Hellos(_, _) => TrunkDown(s, a, cid);
      case EdgeReceives(g) => EdgeReceivesDown(s, g, cid);
      case TrunkLost => TrunkDown(s, a, cid);
      case Stops => TrunkDown(s, a, cid);
      case LoopbackSends(_, _, _) => LoopbackDownward(s, a, cid);
      case _ => OriginDownward(s, a, cid);
    }
  }

  // The lines the miner's loopback sent during a run.
  function LoopbackSent(actions: seq<Action>, cid: nat): seq<Line> {
    if actions == [] then []
    else
      var before := actions[..|actions| - 1];
      LoopbackSent(before, cid) + LoopbackAdds(Run(before), actions[|actions| - 1], cid)
  }

  ghost predicate DownUndisturbed(actions: seq<Action>, cid: nat) {
    forall n :: 0 <= n < |actions| ==> !DownLoses(Run(actions[..n]), actions[n], cid)
  }

  lemma DownUndisturbedBefore(actions: seq<Action>, cid: nat)
    requires actions != [] && DownUndisturbed(actions, cid)
    ensures var m := |actions| - 1;
            DownUndisturbed(actions[..m], cid) && !DownLoses(Run(actions[..m]), actions[m], cid)
  {
    var m := |actions| - 1;
    forall n | 0 <= n < m
      ensures !DownLoses(Run(actions[..m][..n]), actions[..m][n], cid)
    {
      assert actions[..m][..n] == actions[..n];
    }
  }

  lemma {:induction false} RunDownFlows(actions: seq<Action>, cid: nat)
    ensures Sub(DownPipe(Run(actions), cid), LoopbackSent(actions, cid))
    ensures DownUndisturbed(actions, cid) ==> DownPipe(Run(actions), cid) == LoopbackSent(actions, cid)
  {
    if actions != [] {
      var before, a := actions[..|actions| - 1], actions[|actions| - 1];
      RunDownFlows(before, cid);
      RunFlows(before, cid);
      var s := Run(before);
      StepDown(s, a, cid);
      FlowsOn(DownPipe(s, cid), DownPipe(Step(s, a), cid), LoopbackSent(before, cid), LoopbackAdds(s, a, cid),
              DownLoses(s, a, cid));
      if DownUndisturbed(actions, cid) {
        DownUndisturbedBefore(actions, cid);
      }
    }
  }

  /** In every run the lines delivered to a miner are an in-order subsequence of what its own loopback sent. */
  lemma RunDown(actions: seq<Action>, cid: nat)
    ensures Sub(Log(Run(actions).delivered, cid), LoopbackSent(actions, cid))
  {
    RunDownFlows(actions, cid);
    DeliveredFirst(Run(actions), cid);
    Trans(Log(Run(actions).delivered, cid), DownPipe(Run(actions), cid), LoopbackSent(actions, cid));
  }

  lemma DeliveredFirst(s: State, cid: nat)
    ensures Sub(Log(s.delivered, cid), DownPipe(s, cid))
  {
    var d := Log(s.delivered, cid);
    var rest := if cid in s.net.home && s.net.home[cid] < |s.net.links|
                then LinesOf(s.net.links[s.net.home[cid]].down, cid) else [];
    FrontSub(d, rest, [], []);
    assert d + rest + [] + [] == DownPipe(s, cid);
  }
}
