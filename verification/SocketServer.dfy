/**
 The socket server as it runs: connections with bounded queues, the sets of open
 connections and of subscribers, and the loops over them. What a method does to a connection
 is stated with the functions that make up the steps of the replication protocol.
 */
module SocketServers {
  import opened Basics
  import opened Replication

  class SocketConn {
    var queue: seq<Frame>
    var done: bool
    var phase: Phase
    /** What the writer has taken out of the queue so far. */
    ghost var written: seq<Frame>
    ghost var silent: set<Path>

    constructor ()
      ensures View() == Conn([], 0, false, Serving, {})
    {
      queue, done, phase, written, silent := [], false, Serving, [], {};
    }

    ghost function View(): (k: Conn)
      reads this
      ensures |k.sent| - k.taken == |queue|
    {
      Conn(written + queue, |written|, done, phase, silent)
    }

    /** Closing twice is closing once. */
    method Close()
      modifies this`done
      ensures View() == old(View()).(closed := true)
    {
      if !done {
        done := true;
      }
    }

    /** Never blocks: a closed connection refuses, a full queue closes it. */
    method Send(frame: Frame) returns (ok: bool)
      modifies this`queue, this`done
      ensures View() == Replication.Send(old(View()), frame)
      ensures ok == Accepts(old(View()))
    {
      if done {
        return false;
      }
      if |queue| < QUEUE_SIZE {
        queue := queue + [frame];
        assert written + queue == old(written + queue) + [frame];
        return true;
      }
      Close();
      return false;
    }

    /** Closes the queue; nothing may send on it after this. */
    method Finish()
      requires phase == Leaving
      modifies this`phase
      ensures View() == old(View()).(phase := Finished)
    {
      phase := Finished;
    }

    /** One round of the writer; a failed write closes the connection. */
    method WriteOne(writeFails: bool) returns (more: bool)
      modifies this
      ensures more == (!old(done) && old(queue) != [] && !writeFails)
      ensures old(done) || old(queue) == [] ==> View() == old(View())
      ensures !old(done) && old(queue) != [] ==>
                View() == old(View()).(taken := old(View()).taken + 1, closed := writeFails)
    {
      if done || queue == [] {
        return false;
      }
      written, queue := written + [queue[0]], queue[1..];
      assert written + queue == old(written + queue);
      if writeFails {
        Close();
        return false;
      }
      return true;
    }
  }

  class SocketServer {
    var conns: set<SocketConn>
    var subs: set<SocketConn>
    var lastEvent: nat
    var closed: bool

    ghost predicate Valid()
      reads this
    {
      subs <= conns && (closed ==> conns == {})
    }

    constructor (lastEvent: nat)
      ensures Valid() && conns == {} && !closed && this.lastEvent == lastEvent
    {
      conns, subs, this.lastEvent, closed := {}, {}, lastEvent, false;
    }

    /** A subscriber whose connection was `k` before a push that may still be pending. */
    static ghost predicate Reached(c: SocketConn, pending: bool, subscribed: bool, k: Conn, frame: Frame)
      reads c
    {
      if pending then subscribed && c.View() == k
      else c.View() == Replication.Send(k, frame) && (subscribed <==> Accepts(k))
    }

    method PushTo(c: SocketConn, ghost k: Conn, frame: Frame)
      requires Reached(c, true, c in subs, k, frame)
      modifies this`subs, c`queue, c`done
      ensures Reached(c, false, c in subs, k, frame)
      ensures subs == old(subs) || subs == old(subs) - {c}
    {
      var ok := c.Send(frame);
      if !ok {
        subs := subs - {c};
      }
    }

    /** To every subscriber, in any order; whoever cannot take the frame stops being one. */
    method PushLocked(frame: Frame)
      requires Valid()
      modifies this`subs, subs`queue, subs`done
      ensures Valid()
      ensures forall c <- old(subs) :: c.View() == Replication.Send(old(c.View()), frame)
      ensures subs == set c <- old(subs) | old(Accepts(c.View()))
    {
      var pending := subs;
      ghost var all, before := subs, map c <- subs :: c.View();
      while pending != {}
        invariant pending <= subs <= all
        invariant forall c <- all :: Reached(c, c in pending, c in subs, before[c], frame)
        decreases |pending|
      {
        var c :| c in pending;
        pending := pending - {c};
        label L:
        PushTo(c, before[c], frame);
        forall d <- all
          ensures Reached(d, d in pending, d in subs, before[d], frame)
        {
          if d != c {
            assert d.View() == old@L(d.View());
          }
        }
      }
      forall c <- all
        ensures c.View() == Replication.Send(before[c], frame) && (c in subs <==> Accepts(before[c]))
      {
        assert Reached(c, false, c in subs, before[c], frame);
      }
    }

    method Broadcast(frame: Frame)
      requires Valid()
      modifies this`subs, subs`queue, subs`done
      ensures Valid()
      ensures forall c <- old(subs) :: c.View() == Replication.Send(old(c.View()), frame)
      ensures subs == set c <- old(subs) | old(Accepts(c.View()))
    {
      PushLocked(frame);
    }

    /** The event gets the next id and reaches the subscribers under one lock. */
    method Emit()
      requires Valid()
      modifies this`lastEvent, this`subs, subs`queue, subs`done
      ensures Valid() && lastEvent == old(lastEvent) + 1
      ensures forall c <- old(subs) :: c.View() == Replication.Send(old(c.View()), EventFrame(old(lastEvent) + 1))
      ensures subs == set c <- old(subs) | old(Accepts(c.View()))
    {
      lastEvent := lastEvent + 1;
      PushLocked(EventFrame(lastEvent));
    }

    /**
     The second half of a subscription, under the lock: reply and hello go out, and only if both were
     taken is the connection registered, knowing what the snapshot knew.
     */
    method Subscribe(c: SocketConn, repos: map<Path, StoreEntry>, ghost silent: set<Path>) returns (ok: bool)
      requires Valid() && c in conns
      modifies this`subs, c`queue, c`done, c`silent
      ensures Valid() && ok == Answers(old(c.View()))
      ensures c.View() == Answered(old(c.View()), repos, lastEvent, silent)
      ensures subs == if ok then old(subs) + {c} else old(subs)
    {
      ok := c.Send(Response);
      if !ok {
        return;
      }
      ok := c.Send(Hello(repos, lastEvent));
      if ok {
        c.silent := silent;
        subs := subs + {c};
      }
    }

    /** A connection that arrives after the server was closed is turned away. */
    method Accept(c: SocketConn)
      requires Valid()
      modifies this`conns, c`done
      ensures Valid()
      ensures closed ==> conns == {} && c.View() == old(c.View()).(closed := true)
      ensures !closed ==> conns == old(conns) + {c} && c.View() == old(c.View())
    {
      if closed {
        c.Close();
        return;
      }
      conns := conns + {c};
    }

    /** The locked half of a handler's end: nobody can reach the connection any more. */
    method TearDownLocked(c: SocketConn)
      requires Valid()
      modifies this`conns, this`subs, c`phase
      ensures Valid() && conns == old(conns) - {c} && subs == old(subs) - {c}
      ensures c.View() == old(c.View()).(phase := Leaving)
    {
      conns, subs := conns - {c}, subs - {c};
      c.phase := Leaving;
    }

    /** The end of a connection's handler: out of both sets first, then the queue is closed. */
    method TearDown(c: SocketConn)
      requires Valid()
      modifies this`conns, this`subs, c`phase
      ensures Valid() && conns == old(conns) - {c} && subs == old(subs) - {c}
      ensures c.View() == old(c.View()).(phase := Finished)
    {
      TearDownLocked(c);
      c.Finish();
    }

    /** Closing the server closes every connection. */
    method Close()
      requires Valid()
      modifies this, conns`done
      ensures Valid() && closed && conns == {} && subs == {} && lastEvent == old(lastEvent)
      ensures old(closed) ==> forall c <- old(conns) :: c.View() == old(c.View())
      ensures !old(closed) ==> forall c <- old(conns) :: c.View() == old(c.View()).(closed := true)
    {
      if closed {
        return;
      }
      closed := true;
      var pending := conns;
      while pending != {}
        invariant conns == old(conns) && subs == old(subs) && closed && lastEvent == old(lastEvent)
        invariant pending <= conns
        invariant forall c <- pending :: c.View() == old(c.View())
        invariant forall c <- conns - pending :: c.View() == old(c.View()).(closed := true)
        decreases |pending|
      {
        var c :| c in pending;
        pending := pending - {c};
        c.Close();
      }
      conns, subs := {}, {};
    }
  }

  /** Both the reply and the hello find room. */
  predicate Answers(k: Conn) {
    Accepts(k) && Accepts(Replication.Send(k, Response))
  }

  /** What answering a subscription makes of the connection. */
  function Answered(k: Conn, repos: map<Path, StoreEntry>, lastEvent: nat, silent: set<Path>): Conn {
    var replied := Replication.Send(k, Response);
    if !Accepts(k) then replied
    else
      var greeted := Replication.Send(replied, Hello(repos, lastEvent));
      if Answers(k) then greeted.(silent := silent) else greeted
  }

  /** Which is what the protocol's step makes of it. */
  lemma AnsweredIsRegistered(s: Server)
    requires s.subscribing.Some? && s.subscribing.value.conn in s.conns
    ensures var Subscribing(c, repos, silent) := s.subscribing.value;
            && Register(s).conns == s.conns[c := Answered(s.conns[c], repos, s.lastEvent, silent)]
            && Register(s).subs == if Answers(s.conns[c]) then s.subs + {c} else s.subs
  {
  }
}
