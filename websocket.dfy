/** The real-time chat server: a registry from user id to connection, one
    `userId` slot per connection, and the handlers for `message` and `close`
    events, plus the notification push. Each event is one atomic step over
    the registry, the per-connection slots and the message table, and appends
    what it sends to an outbox. */
module ChatServer {
  import opened Wrappers
  import opened Schema
  import opened Storage
  import opened Seqs

  /** A connection, named by the order in which the server accepted it. */
  type ConnId = nat

  /** An inbound frame after `JSON.parse`: either the parse (or reading a
      field of a non-object) threw, or an envelope whose `type` is `kind`. */
  datatype Inbound =
    | Unparsable
    | Envelope(kind: string, userId: Option<int>, content: string,
               recipientId: Option<int>, chamaId: Option<int>)

  /** The notification pushed by `broadcastNotification`. */
  datatype Notice = Notice(userId: int, title: string, content: string, notificationType: string, timestamp: int)

  datatype Outbound =
    | ErrorEnvelope(message: string)
    | ChatEnvelope(senderId: int, senderName: string, recipientId: Option<int>,
                   chamaId: Option<int>, content: string, timestamp: int)
    | NotificationEnvelope(notice: Notice)

  /** One `ws.send`: which connection, what envelope. */
  datatype Send = Send(to: ConnId, envelope: Outbound)

  /** Where an accepted chat goes. */
  datatype Route = Direct(recipientId: int) | Group(chamaId: int) | NoTarget

  const AuthRequired := "Authentication required"
  const NeedTarget := "Message must have either recipientId or chamaId"
  const UnknownSender := "User not found"
  const BadFormat := "Invalid message format"

  /** The user id an `auth` frame binds: only a truthy `userId` binds. */
  function AuthTarget(frame: Inbound): (r: Option<int>)
    ensures r.Some? <==> frame.Envelope? && frame.kind == "auth" && Truthy(frame.userId)
    ensures r.Some? ==> r.value == frame.userId.value && r.value != 0
  {
    if frame.Envelope? && frame.kind == "auth" && Truthy(frame.userId) then frame.userId else None
  }

  /** A truthy `recipientId` makes the chat direct, whatever `chamaId` says;
      otherwise a truthy `chamaId` makes it a group chat. */
  function RouteOf(frame: Inbound): (r: Route)
    requires frame.Envelope?
    ensures Truthy(frame.recipientId) ==> r == Direct(frame.recipientId.value)
    ensures !Truthy(frame.recipientId) && Truthy(frame.chamaId) ==> r == Group(frame.chamaId.value)
    ensures r == NoTarget <==> !Truthy(frame.recipientId) && !Truthy(frame.chamaId)
  {
    if Truthy(frame.recipientId) then Direct(frame.recipientId.value)
    else if Truthy(frame.chamaId) then Group(frame.chamaId.value)
    else NoTarget
  }

  /** True when the handler reaches the chat branch with a target and a known
      sender, that is, when it stores a message. */
  predicate Accepted(frame: Inbound, session: Option<int>, sender: Option<User>) {
    frame.Envelope? && frame.kind == "chat" && session.Some? && RouteOf(frame) != NoTarget && sender.Some?
  }

  /** The message handed to `createMessage` for an accepted chat. */
  function Draft(frame: Inbound, senderId: int): Message
    requires frame.Envelope?
  {
    var route := RouteOf(frame);
    Message(0, senderId,
            if route.Direct? then Some(route.recipientId) else None,
            if route.Group? then Some(route.chamaId) else None,
            frame.content, 0, false)
  }

  /** The envelope fanned out for an accepted chat. */
  function Outgoing(frame: Inbound, senderId: int, sender: User, now: int): Outbound
    requires frame.Envelope?
  {
    var d := Draft(frame, senderId);
    ChatEnvelope(senderId, sender.fullName, d.recipientId, d.chamaId, d.content, now)
  }

  /** `clients.get(u)` is a connection whose `readyState` is OPEN. */
  predicate Reachable(u: int, clients: map<int, ConnId>, open: set<ConnId>) {
    u in clients && clients[u] in open
  }

  /** The sends of the `for` loop over the chama's members, one per member
      whose user is registered on an open connection. */
  function GroupDeliveries(members: seq<MemberWithUser>, clients: map<int, ConnId>, open: set<ConnId>, env: Outbound): seq<Send>
    decreases |members|
  {
    if members == [] then []
    else
      var last := members[|members| - 1];
      GroupDeliveries(members[..|members| - 1], clients, open, env) +
      (if Reachable(last.member.userId, clients, open) then [Send(clients[last.member.userId], env)] else [])
  }

  /** Everything the `message` handler sends for one frame on connection
      `conn`, given the connection's `userId` slot (`session`), the sender's
      user row, the chama members as `getChamaMembers` returns them (used
      only for group chats) and the registry. */
  function FrameReply(conn: ConnId, frame: Inbound, session: Option<int>, sender: Option<User>,
                      members: Result<seq<MemberWithUser>, string>,
                      clients: map<int, ConnId>, open: set<ConnId>, now: int): seq<Send>
  {
    if frame.Unparsable? then [Send(conn, ErrorEnvelope(BadFormat))]
    else if frame.kind == "auth" then []
    else if session.None? then [Send(conn, ErrorEnvelope(AuthRequired))]
    else if frame.kind != "chat" then []
    else if RouteOf(frame) == NoTarget then [Send(conn, ErrorEnvelope(NeedTarget))]
    else if sender.None? then [Send(conn, ErrorEnvelope(UnknownSender))]
    else
      ChatSends(conn, RouteOf(frame), Outgoing(frame, session.value, sender.value, now), members, clients, open)
  }

  /** The sends of an accepted chat: a direct chat goes to the recipient's
      open connection, if any, and then back to the sender; a group chat goes
      to every member registered on an open connection, or, when
      `getChamaMembers` throws, becomes a format error for the sender. */
  function ChatSends(conn: ConnId, route: Route, env: Outbound, members: Result<seq<MemberWithUser>, string>,
                     clients: map<int, ConnId>, open: set<ConnId>): seq<Send>
  {
    match route
    case Direct(r) =>
      (if Reachable(r, clients, open) then [Send(clients[r], env)] else []) + [Send(conn, env)]
    case Group(_) =>
      if members.Err? then [Send(conn, ErrorEnvelope(BadFormat))]
      else GroupDeliveries(members.value, clients, open, env)
    case NoTarget => []
  }

  /** How many of the sends go to connection `c`. */
  function CountTo(sends: seq<Send>, c: ConnId): nat {
    if sends == [] then 0 else (if sends[0].to == c then 1 else 0) + CountTo(sends[1..], c)
  }

  class Server {
    /** The process-wide `clients` map. */
    var clients: map<int, ConnId>
    /** Each connection's `userId` variable; absent while it is null. */
    var sessionUser: map<ConnId, int>
    /** The connections whose `readyState` is OPEN. */
    var open: set<ConnId>
    /** How many connections have been accepted; their ids are 0 .. connections-1. */
    var connections: nat
    /** Every `send`, in order. */
    var outbox: seq<Send>
    const store: MemStorage

    ghost predicate Valid() reads this, store {
      store.Valid() &&
      (forall c :: c in sessionUser ==> c < connections && sessionUser[c] != 0) &&
      (forall u :: u in clients ==> clients[u] < connections) &&
      (forall c :: c in open ==> c < connections)
    }

    constructor (store: MemStorage)
      requires store.Valid()
      ensures Valid() && this.store == store
      ensures clients == map[] && sessionUser == map[] && open == {} && connections == 0 && outbox == []
    {
      this.store := store;
      clients, sessionUser, open, connections, outbox := map[], map[], {}, 0, [];
    }

    /** The `connection` event: a new, open, unauthenticated connection. */
    method Connect() returns (c: ConnId)
      requires Valid()
      modifies this`open, this`connections
      ensures Valid()
      ensures c == old(connections) && connections == old(connections) + 1
      ensures open == old(open) + {c} && c !in sessionUser
    {
      c := connections;
      connections := connections + 1;
      open := open + {c};
    }

    function Session(c: ConnId): Option<int> reads this`sessionUser {
      if c in sessionUser then Some(sessionUser[c]) else None
    }

    function SenderOf(c: ConnId): Option<User> reads this`sessionUser, store`users {
      if c in sessionUser then store.GetUser(sessionUser[c]) else None
    }

    /** What `getChamaMembers` returns for a group chat (nothing is read otherwise). */
    function MembersFor(frame: Inbound): Result<seq<MemberWithUser>, string>
      reads store`users, store`chamaMembers, store`nextChamaMemberId
      requires store.MembersOk()
    {
      if frame.Envelope? && RouteOf(frame).Group? then store.GetChamaMembers(RouteOf(frame).chamaId) else Ok([])
    }

    function Reply(c: ConnId, frame: Inbound, now: int): seq<Send>
      reads this`sessionUser, this`clients, this`open, store`users, store`chamaMembers, store`nextChamaMemberId
      requires store.MembersOk()
    {
      FrameReply(c, frame, Session(c), SenderOf(c), MembersFor(frame), clients, open, now)
    }

    /** The `message` event on connection `c`. */
    method OnMessage(c: ConnId, frame: Inbound, now: int)
      requires Valid() && c < connections
      modifies this`clients, this`sessionUser, this`outbox, store`messages, store`nextMessageId
      ensures Valid()
      ensures outbox == old(outbox) + old(Reply(c, frame, now))
      ensures AuthTarget(frame).Some? ==>
        sessionUser == old(sessionUser)[c := AuthTarget(frame).value] &&
        clients == old(clients)[AuthTarget(frame).value := c]
      ensures AuthTarget(frame).None? ==> sessionUser == old(sessionUser) && clients == old(clients)
      ensures old(Accepted(frame, Session(c), SenderOf(c))) ==>
        var id := old(store.nextMessageId);
        store.messages == old(store.messages)[id := Draft(frame, old(sessionUser[c])).(id := id, sentAt := now)] &&
        store.nextMessageId == id + 1
      ensures !old(Accepted(frame, Session(c), SenderOf(c))) ==>
        store.messages == old(store.messages) && store.nextMessageId == old(store.nextMessageId)
    {
      if frame.Unparsable? {
        outbox := outbox + [Send(c, ErrorEnvelope(BadFormat))];
        return;
      }
      if frame.kind == "auth" {
        if Truthy(frame.userId) {
          sessionUser := sessionUser[c := frame.userId.value];
          clients := clients[frame.userId.value := c];
        }
        return;
      }
      if c !in sessionUser {
        outbox := outbox + [Send(c, ErrorEnvelope(AuthRequired))];
        return;
      }
      if frame.kind != "chat" {
        return;
      }
      var userId := sessionUser[c];
      var route := RouteOf(frame);
      if route == NoTarget {
        outbox := outbox + [Send(c, ErrorEnvelope(NeedTarget))];
        return;
      }
      var sender := store.GetUser(userId);
      if sender.None? {
        outbox := outbox + [Send(c, ErrorEnvelope(UnknownSender))];
        return;
      }
      Relay(c, frame, userId, sender.value, now);
    }

    /** The accepted-chat branch: store the message, then fan it out. */
    method Relay(c: ConnId, frame: Inbound, userId: int, sender: User, now: int)
      requires Valid() && frame.Envelope? && RouteOf(frame) != NoTarget
      modifies this`outbox, store`messages, store`nextMessageId
      ensures Valid()
      ensures outbox == old(outbox) + ChatSends(c, RouteOf(frame), Outgoing(frame, userId, sender, now), old(MembersFor(frame)), clients, open)
      ensures store.messages == old(store.messages)[old(store.nextMessageId) := Draft(frame, userId).(id := old(store.nextMessageId), sentAt := now)]
      ensures store.nextMessageId == old(store.nextMessageId) + 1
    {
      var saved := store.CreateMessage(Draft(frame, userId), now);
      Deliver(c, RouteOf(frame), Outgoing(frame, userId, sender, now));
    }

    /** The sends of an accepted chat on connection `c`. */
    method Deliver(c: ConnId, route: Route, env: Outbound)
      requires store.MembersOk() && route != NoTarget
      modifies this`outbox
      ensures outbox == old(outbox) + ChatSends(c, route, env, if route.Group? then store.GetChamaMembers(route.chamaId) else Ok([]), clients, open)
    {
      if route.Direct? {
        var r := route.recipientId;
        if r in clients && clients[r] in open {
          outbox := outbox + [Send(clients[r], env)];
        }
        outbox := outbox + [Send(c, env)];
      } else {
        var members := store.GetChamaMembers(route.chamaId);
        if members.Err? {
          outbox := outbox + [Send(c, ErrorEnvelope(BadFormat))];
        } else {
          FanOut(members.value, env);
        }
      }
    }

    /** The `for` loop over the chama's members. */
    method FanOut(ms: seq<MemberWithUser>, env: Outbound)
      modifies this`outbox
      ensures outbox == old(outbox) + GroupDeliveries(ms, clients, open, env)
    {
      var i := 0;
      while i < |ms|
        invariant 0 <= i <= |ms|
        invariant outbox == old(outbox) + GroupDeliveries(ms[..i], clients, open, env)
      {
        assert ms[..i + 1][..i] == ms[..i];
        var u := ms[i].member.userId;
        if u in clients && clients[u] in open {
          outbox := outbox + [Send(clients[u], env)];
        }
        i := i + 1;
      }
      assert ms[..|ms|] == ms;
    }

    /** The `close` event: the connection stops being open and, if it had
        authenticated, the registry entry of its user is deleted, whichever
        connection that entry points at. */
    method OnClose(c: ConnId)
      requires Valid()
      modifies this`clients, this`open
      ensures Valid()
      ensures open == old(open) - {c}
      ensures c in sessionUser ==> clients == old(clients) - {sessionUser[c]}
      ensures c !in sessionUser ==> clients == old(clients)
    {
      open := open - {c};
      if c in sessionUser {
        clients := clients - {sessionUser[c]};
      }
    }

    /** `broadcastNotification`: one send iff the user is registered on an
        open connection. */
    method BroadcastNotification(n: Notice)
      requires Valid()
      modifies this`outbox
      ensures Valid()
      ensures Reachable(n.userId, clients, open) ==> outbox == old(outbox) + [Send(clients[n.userId], NotificationEnvelope(n))]
      ensures !Reachable(n.userId, clients, open) ==> outbox == old(outbox)
    {
      if n.userId in clients && clients[n.userId] in open {
        outbox := outbox + [Send(clients[n.userId], NotificationEnvelope(n))];
      }
    }
  }
}

module ChatServerFacts {
  import opened Wrappers
  import opened Schema
  import opened Storage
  import opened Seqs
  import opened ChatServer

  lemma {:induction false} CountToConcat(a: seq<Send>, b: seq<Send>, c: ConnId)
    ensures CountTo(a + b, c) == CountTo(a, c) + CountTo(b, c)
    decreases |a|
  {
    if a != [] {
      assert (a + b)[0] == a[0] && (a + b)[1..] == a[1..] + b;
      CountToConcat(a[1..], b, c);
    } else {
      assert a + b == b;
    }
  }

  /** A direct chat reaches the sender exactly once more than any other
      connection it reaches: once as the echo, and once more when the
      recipient's registered open connection is the sender's own. Every other
      connection gets a copy only if it is the recipient's open connection. */
  lemma DirectCopies(conn: ConnId, r: int, env: Outbound, members: Result<seq<MemberWithUser>, string>,
                     clients: map<int, ConnId>, open: set<ConnId>, x: ConnId)
    ensures CountTo(ChatSends(conn, Direct(r), env, members, clients, open), x) ==
      (if x == conn then 1 else 0) + (if Reachable(r, clients, open) && clients[r] == x then 1 else 0)
    ensures forall s :: s in ChatSends(conn, Direct(r), env, members, clients, open) ==> s.envelope == env
  {
    var first := if Reachable(r, clients, open) then [Send(clients[r], env)] else [];
    CountToConcat(first, [Send(conn, env)], x);
  }

  /** The group fan-out sends one copy per member registered on an open
      connection, nothing else, and always the same envelope. */
  lemma {:induction false} GroupDeliveriesExact(ms: seq<MemberWithUser>, clients: map<int, ConnId>, open: set<ConnId>, env: Outbound)
    ensures |GroupDeliveries(ms, clients, open, env)| == |Filter(ms, (m: MemberWithUser) => Reachable(m.member.userId, clients, open))|
    ensures forall s :: s in GroupDeliveries(ms, clients, open, env) ==>
      s.envelope == env && s.to in open &&
      exists m :: m in ms && Reachable(m.member.userId, clients, open) && clients[m.member.userId] == s.to
    ensures forall m :: m in ms && Reachable(m.member.userId, clients, open) ==>
      Send(clients[m.member.userId], env) in GroupDeliveries(ms, clients, open, env)
    decreases |ms|
  {
    var p := (m: MemberWithUser) => Reachable(m.member.userId, clients, open);
    if ms != [] {
      var init, last := ms[..|ms| - 1], ms[|ms| - 1];
      assert ms == init + [last];
      GroupDeliveriesExact(init, clients, open, env);
      FilterConcat(init, [last], p);
      forall m | m in ms && Reachable(m.member.userId, clients, open)
        ensures Send(clients[m.member.userId], env) in GroupDeliveries(ms, clients, open, env)
      {
        if m != last { assert m in init; }
      }
    }
  }

  /** Counting form of the fan-out: connection `x` receives one copy per
      member whose registry entry points at `x`, provided `x` is open. */
  lemma {:induction false} GroupCopies(ms: seq<MemberWithUser>, clients: map<int, ConnId>, open: set<ConnId>, env: Outbound, x: ConnId)
    ensures CountTo(GroupDeliveries(ms, clients, open, env), x) ==
      |Filter(ms, (m: MemberWithUser) => Reachable(m.member.userId, clients, open) && clients[m.member.userId] == x)|
    decreases |ms|
  {
    var p := (m: MemberWithUser) => Reachable(m.member.userId, clients, open) && clients[m.member.userId] == x;
    if ms != [] {
      var init, last := ms[..|ms| - 1], ms[|ms| - 1];
      assert ms == init + [last];
      GroupCopies(init, clients, open, env, x);
      FilterConcat(init, [last], p);
      var tail := if Reachable(last.member.userId, clients, open) then [Send(clients[last.member.userId], env)] else [];
      CountToConcat(GroupDeliveries(init, clients, open, env), tail, x);
    }
  }

  /** A group member who is the sender gets the message back through the
      fan-out like anyone else (there is no echo of its own). */
  lemma SenderInGroupGetsItsCopy(conn: ConnId, cid: int, env: Outbound, ms: seq<MemberWithUser>,
                                 clients: map<int, ConnId>, open: set<ConnId>, senderId: int)
    requires exists m :: m in ms && m.member.userId == senderId
    requires senderId in clients && clients[senderId] == conn && conn in open
    ensures Send(conn, env) in ChatSends(conn, Group(cid), env, Ok(ms), clients, open)
  {
    GroupDeliveriesExact(ms, clients, open, env);
  }

  /** A frame that is not an accepted chat sends nothing to any connection
      but its own, and at most one envelope, which is an error. */
  lemma RejectedFramesAnswerOnlyTheSender(conn: ConnId, frame: Inbound, session: Option<int>, sender: Option<User>,
                                          members: Result<seq<MemberWithUser>, string>,
                                          clients: map<int, ConnId>, open: set<ConnId>, now: int)
    requires !Accepted(frame, session, sender)
    ensures var out := FrameReply(conn, frame, session, sender, members, clients, open, now);
      |out| <= 1 && forall s :: s in out ==> s.to == conn && s.envelope.ErrorEnvelope?
  {
  }

  /** Which error a rejected frame gets, in the handler's order. */
  lemma RejectionReasons(conn: ConnId, frame: Inbound, session: Option<int>, sender: Option<User>,
                         members: Result<seq<MemberWithUser>, string>,
                         clients: map<int, ConnId>, open: set<ConnId>, now: int)
    ensures var out := FrameReply(conn, frame, session, sender, members, clients, open, now);
      (frame.Unparsable? ==> out == [Send(conn, ErrorEnvelope(BadFormat))]) &&
      (frame.Envelope? && frame.kind == "auth" ==> out == []) &&
      (frame.Envelope? && frame.kind != "auth" && session.None? ==> out == [Send(conn, ErrorEnvelope(AuthRequired))]) &&
      (frame.Envelope? && frame.kind != "auth" && frame.kind != "chat" && session.Some? ==> out == []) &&
      (frame.Envelope? && frame.kind == "chat" && session.Some? && RouteOf(frame) == NoTarget ==>
        out == [Send(conn, ErrorEnvelope(NeedTarget))]) &&
      (frame.Envelope? && frame.kind == "chat" && session.Some? && RouteOf(frame) != NoTarget && sender.None? ==>
        out == [Send(conn, ErrorEnvelope(UnknownSender))])
  {
  }

  /** An accepted chat carries the sender's full name, the stored content
      and the route's single target, to every connection it reaches. */
  lemma AcceptedEnvelope(conn: ConnId, frame: Inbound, session: Option<int>, sender: Option<User>,
                         members: Result<seq<MemberWithUser>, string>,
                         clients: map<int, ConnId>, open: set<ConnId>, now: int)
    requires Accepted(frame, session, sender)
    requires members.Ok? || !RouteOf(frame).Group?
    ensures forall s :: s in FrameReply(conn, frame, session, sender, members, clients, open, now) ==>
      s.envelope == ChatEnvelope(session.value, sender.value.fullName, Draft(frame, session.value).recipientId,
                                 Draft(frame, session.value).chamaId, frame.content, now)
    ensures Draft(frame, session.value).recipientId.Some? != Draft(frame, session.value).chamaId.Some?
  {
    var env := Outgoing(frame, session.value, sender.value, now);
    match RouteOf(frame)
    case Direct(r) => DirectCopies(conn, r, env, members, clients, open, conn);
    case Group(_) => GroupDeliveriesExact(members.value, clients, open, env);
  }

  /** On any server where an open connection `older` is signed in as user 7:
      when a newer connection authenticates as user 7 too and `older` then
      closes, the registry loses user 7 although the newer connection is
      still open. */
  method StaleCloseScenario(s: Server, older: ConnId) returns (newer: ConnId)
    requires s.Valid() && older in s.open && s.Session(older) == Some(7)
    modifies s, s.store
    ensures s.Valid() && 7 !in s.clients && newer in s.open && newer != older
  {
    newer := s.Connect();
    s.OnMessage(newer, Envelope("auth", Some(7), "", None, None), 0);
    s.OnClose(older);
  }

  /** Re-authenticating a connection under another id leaves the old id
      registered on it. */
  method ReauthScenario(s: Server) returns (c: ConnId)
    requires s.Valid()
    modifies s, s.store
    ensures s.Valid() && 8 in s.clients && 9 in s.clients && s.clients[8] == s.clients[9] == c
  {
    c := s.Connect();
    var auth8, auth9 := Envelope("auth", Some(8), "", None, None), Envelope("auth", Some(9), "", None, None);
    assert AuthTarget(auth8) == Some(8) && AuthTarget(auth9) == Some(9);
    s.OnMessage(c, auth8, 0);
    assert s.clients[8] == c;
    s.OnMessage(c, auth9, 0);
  }
}
