/** backend/websocket_manager.py: the set of open WebSocket clients and the fan-out of
    every event to all of them. Sockets are opaque identities; whether a send raises is
    a parameter (`failing`, the clients whose `send_text` throws this time). */
module Broadcaster {
  import opened Models

  /** A connected client, by identity. */
  type Conn = nat

  /** The JSON envelope `{"event": ..., "data": ...}` sent to every client. */
  datatype Message = Message(event: string, data: Data)

  /** One successful `send_text`: who received which message. */
  datatype Delivery = Delivery(conn: Conn, message: Message)

  /** The envelope of `broadcast(event, data)`: a missing payload is sent as `{}`. */
  function Envelope(event: string, data: Option<Data>): (m: Message)
    ensures m.event == event
    ensures data.None? ==> m.data == Empty
    ensures data.Some? ==> m.data == data.value
  {
    Message(event, data.GetOr(Empty))
  }

  /** The clients that received something in `ds`. */
  function Recipients(ds: seq<Delivery>): set<Conn> {
    set i | 0 <= i < |ds| :: ds[i].conn
  }

  lemma RecipientsAppend(ds: seq<Delivery>, d: Delivery)
    ensures Recipients(ds + [d]) == Recipients(ds) + {d.conn}
  {
    var both := ds + [d];
    forall c | c in Recipients(both)
      ensures c in Recipients(ds) + {d.conn}
    {
      var i :| 0 <= i < |both| && both[i].conn == c;
      assert c == both[i].conn;
      if i < |ds| {
        assert ds[i].conn == c;
      }
    }
    forall c | c in Recipients(ds)
      ensures c in Recipients(both)
    {
      var i :| 0 <= i < |ds| && ds[i].conn == c;
      assert both[i].conn == c;
    }
    assert both[|ds|].conn == d.conn;
  }

  /** No more recipients than deliveries. */
  lemma {:induction false} RecipientsBound(ds: seq<Delivery>)
    ensures |Recipients(ds)| <= |ds|
  {
    if ds != [] {
      var init := ds[..|ds| - 1];
      assert ds == init + [ds[|ds| - 1]];
      RecipientsAppend(init, ds[|ds| - 1]);
      RecipientsBound(init);
    }
  }

  /** As many recipients as deliveries means nobody got the message twice. */
  lemma {:induction false} RecipientsDistinct(ds: seq<Delivery>)
    requires |Recipients(ds)| == |ds|
    ensures forall i, j :: 0 <= i < j < |ds| ==> ds[i].conn != ds[j].conn
  {
    if ds != [] {
      var init := ds[..|ds| - 1];
      var last := ds[|ds| - 1];
      assert ds == init + [last];
      RecipientsAppend(init, last);
      RecipientsBound(init);
      assert last.conn !in Recipients(init);
      RecipientsDistinct(init);
      forall i | 0 <= i < |init|
        ensures init[i].conn != last.conn
      {
      }
    }
  }

  /** The state of the first loop of `broadcast` once the clients of `targets` outside
      `remaining` have been tried. */
  predicate Progress(targets: set<Conn>, message: Message, failing: set<Conn>,
                     remaining: set<Conn>, sent: seq<Delivery>, dead: set<Conn>)
  {
    && remaining <= targets
    && dead == (targets - remaining) * failing
    && (forall i :: 0 <= i < |sent| ==> sent[i].message == message)
    && Recipients(sent) == (targets - remaining) - failing
    && |sent| == |(targets - remaining) - failing|
  }

  /** Trying one more client keeps the loop state. */
  lemma ProgressStep(targets: set<Conn>, message: Message, failing: set<Conn>,
                     remaining: set<Conn>, sent: seq<Delivery>, dead: set<Conn>, ws: Conn)
    requires Progress(targets, message, failing, remaining, sent, dead) && ws in remaining
    ensures ws in failing ==> Progress(targets, message, failing, remaining - {ws}, sent, dead + {ws})
    ensures ws !in failing ==>
              Progress(targets, message, failing, remaining - {ws}, sent + [Delivery(ws, message)], dead)
  {
    var before, after := targets - remaining, targets - (remaining - {ws});
    assert after == before + {ws};
    if ws in failing {
      assert after - failing == before - failing;
    } else {
      assert after - failing == (before - failing) + {ws};
      RecipientsAppend(sent, Delivery(ws, message));
    }
  }

  /** The first loop of `broadcast`: try every client of `targets`, collect the ones
      whose send fails. */
  method SendAll(targets: set<Conn>, message: Message, failing: set<Conn>)
    returns (sent: seq<Delivery>, dead: set<Conn>)
    ensures dead == targets * failing
    ensures forall i :: 0 <= i < |sent| ==> sent[i].message == message
    ensures Recipients(sent) == targets - failing && |sent| == |targets - failing|
  {
    dead := {};
    var remaining := targets;
    sent := [];
    while remaining != {}
      invariant Progress(targets, message, failing, remaining, sent, dead)
      decreases |remaining|
    {
      var ws :| ws in remaining;
      ProgressStep(targets, message, failing, remaining, sent, dead, ws);
      if ws in failing {
        dead := dead + {ws};
      } else {
        sent := sent + [Delivery(ws, message)];
      }
      remaining := remaining - {ws};
    }
    assert targets - remaining == targets;
  }

  class ConnectionManager {
    /** `active_connections`. */
    var active: set<Conn>
    /** Every message a client has received, in order. */
    var delivered: seq<Delivery>

    constructor()
      ensures active == {} && delivered == []
    {
      active, delivered := {}, [];
    }

    /** `connect`: the accepted socket joins the set. */
    method Connect(ws: Conn)
      modifies this`active
      ensures active == old(active) + {ws}
    {
      active := active + {ws};
    }

    /** `disconnect`: `discard`, so a socket that is not there is no error. */
    method Disconnect(ws: Conn)
      modifies this`active
      ensures active == old(active) - {ws}
    {
      active := active - {ws};
    }

    /** `broadcast(event, data)`: the envelope goes once to every client connected when
        the call starts, in the set's iteration order; a client whose send fails does
        not stop the others and is dropped afterwards. */
    method Broadcast(event: string, data: Option<Data>, failing: set<Conn>)
      modifies this
      ensures active == old(active) - failing
      ensures |delivered| >= |old(delivered)| && delivered[..|old(delivered)|] == old(delivered)
      ensures var sent := delivered[|old(delivered)|..];
        && (forall i :: 0 <= i < |sent| ==> sent[i].message == Envelope(event, data))
        && Recipients(sent) == old(active) - failing
        && |sent| == |old(active) - failing|
    {
      var sent, dead := SendAll(active, Envelope(event, data), failing);
      delivered := delivered + sent;
      assert delivered[|old(delivered)|..] == sent;
      DropAll(dead);
      assert old(active) - dead == old(active) - failing;
    }

    /** The second loop of `broadcast`: discard every dead client. */
    method DropAll(dead: set<Conn>)
      modifies this`active
      ensures active == old(active) - dead
    {
      var toDrop := dead;
      while toDrop != {}
        invariant toDrop <= dead
        invariant active == old(active) - (dead - toDrop)
        decreases |toDrop|
      {
        var ws :| ws in toDrop;
        active := active - {ws};
        toDrop := toDrop - {ws};
      }
    }

    /** `send_alert(type, message, severity, entity_id)`: an `alert` broadcast whose
        payload carries exactly those four fields. */
    method SendAlert(a: Alert, failing: set<Conn>)
      modifies this
      ensures active == old(active) - failing
      ensures |delivered| >= |old(delivered)| && delivered[..|old(delivered)|] == old(delivered)
      ensures var sent := delivered[|old(delivered)|..];
        && (forall i :: 0 <= i < |sent| ==> sent[i].message == Message(AlertEvent, AlertData(a)))
        && Recipients(sent) == old(active) - failing
        && |sent| == |old(active) - failing|
    {
      Broadcast(AlertEvent, Some(AlertData(a)), failing);
    }
  }

  /** A broadcast reaches each surviving client exactly once. */
  lemma BroadcastOncePerClient(sent: seq<Delivery>, targets: set<Conn>)
    requires Recipients(sent) == targets && |sent| == |targets|
    ensures forall c :: c in targets <==> exists i :: 0 <= i < |sent| && sent[i].conn == c
    ensures forall i, j :: 0 <= i < j < |sent| ==> sent[i].conn != sent[j].conn
  {
    RecipientsDistinct(sent);
  }
}
