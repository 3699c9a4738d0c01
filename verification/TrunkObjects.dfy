/** cluster_trunk.cpp and cluster_ingest.cpp: the two objects of the trunk protocol, each proved to take the
    steps of the protocol model. */
module TrunkObjects {
  import opened Options
  import opened Trunk

  // The edge's end.  net stands for the connections it was ever given.
  class ClusterTrunk {
    var mailbox: seq<Frame>
    var sessions: set<nat>
    var pendingOut: seq<Frame>
    var welcomed: bool
    var conn: Option<nat>
    var nextCid: nat
    var running: bool
    var net: Net
    var delivered: map<nat, seq<Line>>

    ghost function Now(): State
      reads this
    {
      State(Edge(mailbox, sessions, pendingOut, welcomed, conn, nextCid, running), net, delivered)
    }

    constructor ()
      ensures Now() == Start()
    {
      mailbox, sessions, pendingOut, welcomed, conn, nextCid, running := [], {}, [], false, None, 1, true;
      net, delivered := Net([], map[]), map[];
    }

    method Attach() returns (cid: nat)
      modifies this
      ensures Now() == Step(old(Now()), MinerConnects) && cid == old(nextCid)
    {
      cid := nextCid;
      nextCid := nextCid + 1;
      sessions := sessions + {cid};
      mailbox := mailbox + [Open(cid)];
    }

    method ClientLine(cid: nat, line: Line)
      requires 0 < cid < nextCid
      modifies this
      ensures Now() == Step(old(Now()), MinerSends(cid, line))
    {
      mailbox := mailbox + [Data(cid, line)];
    }

    method Detach(cid: nat)
      modifies this
      ensures Now() == Step(old(Now()), MinerLeaves(cid))
    {
      if cid in sessions {
        sessions := sessions - {cid};
        mailbox := mailbox + [Close(cid)];
      }
    }

    /** send_frame's body, run on the strand. */
    method RunStrandOnce()
      modifies this
      ensures Now() == Step(old(Now()), RunStrand)
    {
      if mailbox == [] {
        return;
      }
      var f := mailbox[0];
      mailbox := mailbox[1..];
      if !running {
        return;
      }
      if welcomed && conn.Some? {
        net := Send(net, conn, f);
      } else if |pendingOut| < PENDING_CAP {
        pendingOut := pendingOut + [f];
      }
    }

    method ConnectAgain()
      modifies this
      ensures Now() == Step(old(Now()), Connects)
    {
      if running {
        welcomed := false;
        conn := Some(|net.links|);
        net := net.(links := net.links + [Link([], [], false, false, false, map[], map[], {})]);
      }
    }

    /** welcome: everything buffered goes out, oldest first. */
    method Flush()
      modifies this
      ensures Now() == OnFrame(old(Now()), Welcome)
    {
      welcomed := true;
      ghost var start := net;
      var left := pendingOut;
      while left != []
        invariant SendAll(start, conn, pendingOut) == SendAll(net, conn, left)
        invariant mailbox == old(mailbox) && sessions == old(sessions) && pendingOut == old(pendingOut) && welcomed
        invariant conn == old(conn) && nextCid == old(nextCid) && running == old(running) && delivered == old(delivered)
        decreases left
      {
        net := Send(net, conn, left[0]);
        left := left[1..];
      }
      pendingOut := [];
    }

    method OnFrameFrom(f: Frame)
      modifies this
      ensures Now() == OnFrame(old(Now()), f)
    {
      match f {
        case Welcome => Flush();
        case Bye => net := CloseEdge(net, conn);
        case Data(cid, line) =>
          if cid in sessions {
            delivered := delivered[cid := Log(delivered, cid) + [line]];
          }
        case Close(cid) => sessions := sessions - {cid};
        case Ping => net := Send(net, conn, Pong);
        case _ =>
      }
    }

    method OnClose()
      modifies this
      ensures Now() == Step(old(Now()), TrunkLost)
    {
      net := CloseEdge(net, conn);
      welcomed := false;
      conn := None;
      pendingOut := [];
      sessions := {};
    }
  }

  // The origin's end of one connection, with what it wrote back and what each loopback received.
  class ClusterIngestSession {
    var up: seq<Frame>
    var edgeClosed: bool
    var helloOk: bool
    var closed: bool
    var clients: map<nat, Client>
    var down: seq<Frame>
    var reached: map<nat, seq<Line>>
    var bridged: set<nat>

    ghost function Now(): Link
      reads this
    {
      Link(up, down, edgeClosed, helloOk, closed, clients, reached, bridged)
    }

    method SendLine(f: Frame)
      modifies this`down
      ensures Now() == Reply(old(Now()), f)
    {
      if !closed {
        down := down + [f];
      }
    }

    method CloseSession()
      modifies this`closed, this`clients
      ensures Now() == CloseOrigin(old(Now()))
    {
      closed := true;
      clients := map[];
    }

    method OpenBridge(cid: nat)
      modifies this
      ensures Now() == OpenClient(old(Now()), cid)
    {
      if cid in clients {
        return;
      }
      clients := clients[cid := Client(false, [])];
      bridged := bridged + {cid};
    }

    /** The loopback is up: flush what came before. */
    method OnLoopbackConnected(cid: nat)
      modifies this
      ensures Now() == LoopbackConnected(old(Now()), cid)
    {
      if cid !in clients {
        return;
      }
      var pending := clients[cid].pending;
      clients := clients[cid := clients[cid].(connected := true)];
      ghost var before := Log(reached, cid);
      ghost var rest := reached;
      reached := reached[cid := Log(reached, cid)];
      assert before + pending[..0] == before;
      for i := 0 to |pending|
        invariant reached == rest[cid := before + pending[..i]]
        invariant clients == old(clients)[cid := Client(true, pending)]
        invariant up == old(up) && edgeClosed == old(edgeClosed) && helloOk == old(helloOk) && closed == old(closed)
        invariant down == old(down) && bridged == old(bridged)
      {
        reached := reached[cid := reached[cid] + [pending[i]]];
        assert before + pending[..i] + [pending[i]] == before + pending[..i + 1];
      }
      assert pending[..|pending|] == pending;
      clients := clients[cid := clients[cid].(pending := [])];
    }

    method OnClientData(cid: nat, line: Line)
      modifies this
      ensures Now() == ClientData(old(Now()), cid, line)
    {
      if cid !in clients {
        return;
      }
      if clients[cid].connected {
        reached := reached[cid := Log(reached, cid) + [line]];
      } else if |clients[cid].pending| < LOOPBACK_CAP {
        clients := clients[cid := clients[cid].(pending := clients[cid].pending + [line])];
      }
    }

    method CloseBridge(cid: nat, tellEdge: bool)
      modifies this
      ensures Now() == CloseClient(old(Now()), cid, tellEdge)
    {
      if cid !in clients {
        return;
      }
      clients := clients - {cid};
      if tellEdge {
        SendLine(Close(cid));
      }
    }

    /** on_line: one frame from the edge. */
    method OnFrameFrom(f: Frame)
      requires !closed
      modifies this
      ensures Now() == OnLine(old(Now()), f)
    {
      if !helloOk {
        if f.Hello? && f.auth && f.role {
          helloOk := true;
          SendLine(Welcome);
        } else {
          SendLine(Bye);
          CloseSession();
        }
        return;
      }
      match f {
        case Open(cid) =>
          if cid != 0 {
            OpenBridge(cid);
          }
        case Data(cid, line) =>
          if cid != 0 {
            OnClientData(cid, line);
          }
        case Close(cid) =>
          if cid != 0 {
            CloseBridge(cid, false);
          }
        case Ping => SendLine(Pong);
        case _ =>
      }
    }
  }
}
