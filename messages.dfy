/**
 * The messages store: a bounded history of the last MAX_MESSAGES messages with their
 * delivery status, the per-pair connection activity map, and the set of connections with a
 * message in flight. Each send arms an 800 ms delivery callback; callbacks with the same
 * delay fire in the order they were armed, so they are a FIFO queue here and `FireDelivery`
 * is the oldest one expiring.
 */
module Messages {
  import opened Wrappers
  import Contracts
  import opened Slices

  const MAX_MESSAGES: nat := 100
  const RECENT: nat := 20
  const DEFAULT_MAX_AGE: int := 5000

  datatype DeliveryStatus = Sending | Delivered | Acked

  datatype Message = Message(
    id: string,
    from: string,
    to: string,
    content: string,
    channel: Option<string>,
    thread: Option<string>,
    timestamp: int,
    status: DeliveryStatus)

  /** What a caller hands to `sendMessage`: a message without timestamp and status. */
  datatype Outgoing = Outgoing(
    id: string,
    from: string,
    to: string,
    content: string,
    channel: Option<string>,
    thread: Option<string>)

  datatype Connection = Connection(
    id: string,
    from: string,
    to: string,
    messageCount: int,
    lastActivity: int,
    active: bool)

  /** An armed delivery callback: the connection it clears and the message it delivers. */
  datatype Delivery = Delivery(connId: string, messageId: string)

  function ConnectionId(from: string, to: string): string {
    from + "->" + to
  }

  lemma FirstArrowEnd(from: string, to: string)
    requires '>' !in from
    ensures '>' in ConnectionId(from, to)
    ensures Contracts.IndexOf(ConnectionId(from, to), '>') == |from| + 1
  {
    var s := ConnectionId(from, to);
    assert s[..|from| + 1] == from + "-";
    assert s[|from| + 1] == '>';
    assert '>' !in s[..|from| + 1];
  }

  /** Two pairs share a connection id only if they are the same pair, provided senders never
      contain `>`. */
  lemma ConnectionIdInjective(f1: string, t1: string, f2: string, t2: string)
    requires '>' !in f1 && '>' !in f2
    requires ConnectionId(f1, t1) == ConnectionId(f2, t2)
    ensures f1 == f2 && t1 == t2
  {
    var s := ConnectionId(f1, t1);
    FirstArrowEnd(f1, t1);
    FirstArrowEnd(f2, t2);
    assert f1 == s[..|f1|];
    assert f2 == s[..|f2|];
    assert t1 == s[|f1| + 2..];
    assert t2 == s[|f2| + 2..];
  }

  /** Without that proviso two different pairs can share one connection entry. */
  lemma ConnectionIdCollides()
    ensures ConnectionId("a->b", "c") == ConnectionId("a", "b->c")
  {
  }

  /** `msgs.map(m => m.id === id ? { ...m, status } : m)` */
  function MarkStatus(msgs: seq<Message>, id: string, status: DeliveryStatus): (r: seq<Message>)
    ensures |r| == |msgs|
    ensures forall i :: 0 <= i < |msgs| ==>
      r[i] == if msgs[i].id == id then msgs[i].(status := status) else msgs[i]
  {
    if msgs == [] then []
    else
      var head := if msgs[0].id == id then msgs[0].(status := status) else msgs[0];
      [head] + MarkStatus(msgs[1..], id, status)
  }

  /** Marking is idempotent, and a later mark of the same id overrides an earlier one: a
      delivery that arrives after an acknowledgement turns it back into `delivered`. */
  lemma MarkStatusOverrides(msgs: seq<Message>, id: string, s1: DeliveryStatus, s2: DeliveryStatus)
    ensures MarkStatus(MarkStatus(msgs, id, s1), id, s2) == MarkStatus(msgs, id, s2)
  {
  }

  /** Whether a connection has been idle for longer than `maxAge` at time `now`. */
  predicate Stale(c: Connection, now: int, maxAge: int) {
    now - c.lastActivity > maxAge
  }

  /** The result of `deactivateStaleConnections` on a connection map. */
  function Deactivated(conns: map<string, Connection>, now: int, maxAge: int): map<string, Connection> {
    map k | k in conns :: if Stale(conns[k], now, maxAge) then conns[k].(active := false) else conns[k]
  }

  /** Deactivation keeps the key set, clears `active` exactly on the stale entries, changes no
      other field, and a second sweep at the same time changes nothing. */
  lemma DeactivatedSpec(conns: map<string, Connection>, now: int, maxAge: int)
    ensures Deactivated(conns, now, maxAge).Keys == conns.Keys
    ensures forall k :: k in conns ==>
      Deactivated(conns, now, maxAge)[k].active == (conns[k].active && !Stale(conns[k], now, maxAge))
    ensures forall k :: k in conns ==>
      Deactivated(conns, now, maxAge)[k].(active := conns[k].active) == conns[k]
    ensures Deactivated(Deactivated(conns, now, maxAge), now, maxAge) == Deactivated(conns, now, maxAge)
  {
    var d := Deactivated(conns, now, maxAge);
    assert Deactivated(d, now, maxAge) == d;
  }

  /** The group key of `messagesByChannel`: the channel when truthy, else `direct`. */
  function ChannelKey(m: Message): string {
    if m.channel.Some? && m.channel.value != "" then m.channel.value else "direct"
  }

  /** The messages of group `c`, in history order. */
  function InGroup(msgs: seq<Message>, c: string): seq<Message> {
    if msgs == [] then []
    else InGroup(msgs[..|msgs| - 1], c) + (if ChannelKey(msgs[|msgs| - 1]) == c then [msgs[|msgs| - 1]] else [])
  }

  /** A group holds exactly the messages with its key. */
  lemma {:induction false} InGroupMembers(msgs: seq<Message>, c: string, m: Message)
    ensures m in InGroup(msgs, c) <==> m in msgs && ChannelKey(m) == c
  {
    if msgs != [] {
      var p := msgs[..|msgs| - 1];
      InGroupMembers(p, c, m);
      assert msgs == p + [msgs[|msgs| - 1]];
    }
  }

  /** `messagesByChannel`: group the history by channel key, keeping order within groups;
      only keys that occur get an entry. */
  method MessagesByChannel(msgs: seq<Message>) returns (grouped: map<string, seq<Message>>)
    ensures forall c :: c in grouped <==> exists i :: 0 <= i < |msgs| && ChannelKey(msgs[i]) == c
    ensures forall c :: c in grouped ==> grouped[c] == InGroup(msgs, c)
  {
    grouped := map[];
    for i := 0 to |msgs|
      invariant forall c :: c in grouped <==> exists j :: 0 <= j < i && ChannelKey(msgs[j]) == c
      invariant forall c :: c in grouped ==> grouped[c] == InGroup(msgs[..i], c)
    {
      assert msgs[..i + 1][..i] == msgs[..i];
      var channel := ChannelKey(msgs[i]);
      if channel !in grouped {
        assert InGroup(msgs[..i], channel) == [] by {
          InGroupEmpty(msgs[..i], channel);
        }
        grouped := grouped[channel := []];
      }
      grouped := grouped[channel := grouped[channel] + [msgs[i]]];
    }
    assert msgs[..|msgs|] == msgs;
  }

  lemma {:induction false} InGroupEmpty(msgs: seq<Message>, c: string)
    requires forall j :: 0 <= j < |msgs| ==> ChannelKey(msgs[j]) != c
    ensures InGroup(msgs, c) == []
  {
    if msgs != [] {
      InGroupEmpty(msgs[..|msgs| - 1], c);
    }
  }

  /** `recentMessages`: the newest RECENT messages, oldest first. */
  function Recent(msgs: seq<Message>): (r: seq<Message>)
    ensures |r| == Min(|msgs|, RECENT)
    ensures r == msgs[|msgs| - |r|..]
  {
    Last(msgs, RECENT)
  }

  /** The history entry `sendMessage` builds: stamped with `now`, status `sending`. */
  function Stamped(msg: Outgoing, now: int): Message {
    Message(msg.id, msg.from, msg.to, msg.content, msg.channel, msg.thread, now, Sending)
  }

  /** The connection map after a send: the pair's entry is (re)written as active at `now`
      with its count raised by one (from 0 when new); every other entry is unchanged. */
  function Bumped(conns: map<string, Connection>, msg: Outgoing, now: int): (r: map<string, Connection>)
    ensures r.Keys == conns.Keys + {ConnectionId(msg.from, msg.to)}
    ensures forall k :: k in conns && k != ConnectionId(msg.from, msg.to) ==> r[k] == conns[k]
    ensures var cid := ConnectionId(msg.from, msg.to);
      && r[cid].active && r[cid].lastActivity == now && r[cid].id == cid
      && r[cid].from == msg.from && r[cid].to == msg.to
      && r[cid].messageCount == (if cid in conns then conns[cid].messageCount else 0) + 1
  {
    var cid := ConnectionId(msg.from, msg.to);
    var count := if cid in conns then conns[cid].messageCount else 0;
    conns[cid := Connection(cid, msg.from, msg.to, count + 1, now, true)]
  }

  class MessageStore {
    var messages: seq<Message>
    var connections: map<string, Connection>
    var inFlight: set<string>
    /** The armed delivery callbacks, oldest first. */
    var deliveries: seq<Delivery>

    ghost predicate Valid()
      reads this
    {
      && |messages| <= MAX_MESSAGES
      && inFlight <= connections.Keys
      && forall k :: k in connections ==>
           && connections[k].id == k
           && k == ConnectionId(connections[k].from, connections[k].to)
           && connections[k].messageCount >= 1
    }

    constructor ()
      ensures Valid()
      ensures messages == [] && connections == map[] && inFlight == {} && deliveries == []
    {
      messages, connections, inFlight, deliveries := [], map[], {}, [];
    }

    /** `sendMessage`: append as `sending` keeping the newest MAX_MESSAGES, bump the pair's
        connection, mark it in flight and arm its delivery. */
    method Send(msg: Outgoing, now: int)
      requires Valid()
      modifies this
      ensures Valid()
      ensures messages == Last(old(messages) + [Stamped(msg, now)], MAX_MESSAGES)
      ensures connections == Bumped(old(connections), msg, now)
      ensures inFlight == old(inFlight) + {ConnectionId(msg.from, msg.to)}
      ensures deliveries == old(deliveries) + [Delivery(ConnectionId(msg.from, msg.to), msg.id)]
    {
      var full := Message(msg.id, msg.from, msg.to, msg.content, msg.channel, msg.thread, now, Sending);
      messages := Last(messages + [full], MAX_MESSAGES);
      var connId := ConnectionId(msg.from, msg.to);
      var count := if connId in connections then connections[connId].messageCount else 0;
      connections := connections[connId := Connection(connId, msg.from, msg.to, count + 1, now, true)];
      inFlight := inFlight + {connId};
      deliveries := deliveries + [Delivery(connId, msg.id)];
    }

    /** The oldest armed delivery callback runs: the connection leaves the in-flight set and
        every message with the id becomes `delivered`, whatever its status was. */
    method FireDelivery()
      requires Valid() && |deliveries| > 0
      modifies this
      ensures Valid()
      ensures var d := old(deliveries[0]);
        && inFlight == old(inFlight) - {d.connId}
        && messages == MarkStatus(old(messages), d.messageId, Delivered)
        && deliveries == old(deliveries[1..])
        && connections == old(connections)
    {
      var d := deliveries[0];
      inFlight := inFlight - {d.connId};
      messages := MarkStatus(messages, d.messageId, Delivered);
      deliveries := deliveries[1..];
    }

    /** `ackMessage` */
    method Ack(messageId: string)
      requires Valid()
      modifies this`messages
      ensures Valid()
      ensures messages == MarkStatus(old(messages), messageId, Acked)
    {
      messages := MarkStatus(messages, messageId, Acked);
    }

    /** `deactivateStaleConnections(maxAge = 5000)`: one pass over the entries. */
    method DeactivateStale(now: int, maxAge: int := DEFAULT_MAX_AGE)
      requires Valid()
      modifies this`connections
      ensures Valid()
      ensures connections == Deactivated(old(connections), now, maxAge)
    {
      var keys := connections.Keys;
      ghost var original := connections;
      while keys != {}
        invariant keys <= original.Keys && connections.Keys == original.Keys
        invariant forall k :: k in keys ==> connections[k] == original[k]
        invariant forall k :: k in original && k !in keys ==>
          connections[k] == Deactivated(original, now, maxAge)[k]
        decreases |keys|
      {
        var id :| id in keys;
        var conn := connections[id];
        if now - conn.lastActivity > maxAge {
          connections := connections[id := conn.(active := false)];
        }
        keys := keys - {id};
      }
    }

    /** `clearMessages`; delivery callbacks already armed stay armed. */
    method Clear()
      requires Valid()
      modifies this`messages, this`connections, this`inFlight
      ensures Valid()
      ensures messages == [] && connections == map[] && inFlight == {}
    {
      messages, connections, inFlight := [], map[], {};
    }

    /** `getConnection` */
    function GetConnection(from: string, to: string): (r: Option<Connection>)
      reads this
      ensures r.Some? <==> ConnectionId(from, to) in connections
      ensures r.Some? ==> r.value == connections[ConnectionId(from, to)]
    {
      var id := ConnectionId(from, to);
      if id in connections then Some(connections[id]) else None
    }
  }
}
