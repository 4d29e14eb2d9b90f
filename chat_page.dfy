/** The chat page of the web client: the socket handlers that sign in and
    collect incoming chats, the send button, and the pure filters behind the
    contact list, the chama list and the direct-message history. Frames the
    page sends are given as the server reads them after `JSON.parse`, and
    frames it receives as the server's envelopes, so that the page and the
    server can be related. */
module ChatPage {
  import opened Wrappers
  import opened Text
  import opened Seqs
  import opened Schema
  import ChatServer

  /** Which kind of conversation is open. */
  datatype ChatKind = UserChat | ChamaChat

  /** `selectedChat`: the open conversation. */
  datatype Selection = Selection(kind: ChatKind, id: int, name: string)

  /** A message as the page lists it. */
  datatype ChatMessage = ChatMessage(
    id: int, senderId: int, senderName: string, recipientId: Option<int>,
    chamaId: Option<int>, content: string, timestamp: int, read: bool)

  /** One entry of the page's fixed contact list. */
  datatype Contact = Contact(id: int, name: string, status: string, lastMessage: string, unread: int)

  /** The frame `onopen` sends. It carries no content; the server's model
      reads that slot as empty. Only a non-zero user id signs the socket in. */
  function AuthFrame(userId: int): (f: ChatServer.Inbound)
    ensures f.Envelope? && f.kind == "auth"
    ensures ChatServer.AuthTarget(f) == (if userId != 0 then Some(userId) else None)
  {
    ChatServer.Envelope("auth", Some(userId), "", None, None)
  }

  /** The frame `sendMessage` sends: the draft as typed (not trimmed) and
      exactly one target, the user for a user chat and the chama for a chama
      chat. The server routes it to that same target. */
  function ChatFrame(draft: string, sel: Selection): (f: ChatServer.Inbound)
    ensures f.Envelope? && f.kind == "chat" && f.content == draft && f.userId.None?
    ensures f.recipientId.Some? <==> sel.kind == UserChat
    ensures f.chamaId.Some? <==> sel.kind == ChamaChat
    ensures f.recipientId.Some? ==> f.recipientId.value == sel.id
    ensures f.chamaId.Some? ==> f.chamaId.value == sel.id
    ensures sel.id != 0 ==>
      ChatServer.RouteOf(f) == (if sel.kind == UserChat then ChatServer.Direct(sel.id) else ChatServer.Group(sel.id))
  {
    match sel.kind
    case UserChat => ChatServer.Envelope("chat", None, draft, Some(sel.id), None)
    case ChamaChat => ChatServer.Envelope("chat", None, draft, None, Some(sel.id))
  }

  /** The guard of `sendMessage`: a draft that is not blank, an open
      conversation, a connected flag and a socket object. */
  predicate CanSend(draft: string, selected: Option<Selection>, connected: bool, socketPresent: bool) {
    !IsBlank(draft) && selected.Some? && connected && socketPresent
  }

  /** What `onmessage` appends for one received frame: one unread message for
      a chat envelope, stamped with the client clock `now`; nothing for any
      other envelope or for a frame that does not parse (`None`). */
  function Received(data: Option<ChatServer.Outbound>, now: int): (r: seq<ChatMessage>)
    ensures |r| <= 1
    ensures |r| == 1 <==> data.Some? && data.value.ChatEnvelope?
    ensures |r| == 1 ==>
      var e := data.value;
      r[0].id == now && !r[0].read && r[0].senderId == e.senderId && r[0].senderName == e.senderName &&
      r[0].recipientId == e.recipientId && r[0].chamaId == e.chamaId &&
      r[0].content == e.content && r[0].timestamp == e.timestamp
  {
    match data
    case Some(ChatEnvelope(senderId, senderName, recipientId, chamaId, content, timestamp)) =>
      [ChatMessage(now, senderId, senderName, recipientId, chamaId, content, timestamp, false)]
    case _ => []
  }

  /** A chat the server fans out shows up, unread, with its sender, the text
      the sender typed and the conversation the server routed it to. */
  lemma ServerChatShowsUnread(frame: ChatServer.Inbound, senderId: int, sender: User, sentAt: int, now: int)
    requires frame.Envelope?
    ensures var r := Received(Some(ChatServer.Outgoing(frame, senderId, sender, sentAt)), now);
      |r| == 1 && !r[0].read && r[0].content == frame.content && r[0].senderId == senderId &&
      r[0].senderName == sender.fullName &&
      (r[0].recipientId.Some? <==> ChatServer.RouteOf(frame).Direct?) &&
      (r[0].chamaId.Some? <==> ChatServer.RouteOf(frame).Group?)
  {
  }

  /** A message of the direct conversation between `me` and `other`. */
  predicate Between(m: Message, me: int, other: int) {
    (m.senderId == me && m.recipientId == Some(other)) || (m.senderId == other && m.recipientId == Some(me))
  }

  /** The direct history: exactly the messages from me to the other user or
      from the other user to me, in their original order. */
  function DirectMessages(all: seq<Message>, me: int, other: int): (r: seq<Message>)
    ensures forall m :: m in r <==> m in all && Between(m, me, other)
    ensures IsSubsequence(r, all)
  {
    FilterIsSubsequence(all, m => Between(m, me, other));
    Filter(all, m => Between(m, me, other))
  }

  /** Both participants of a direct conversation see the same history, and it
      holds no group message. */
  lemma DirectMessagesSymmetric(all: seq<Message>, a: int, b: int)
    ensures DirectMessages(all, a, b) == DirectMessages(all, b, a)
    ensures forall m :: m in DirectMessages(all, a, b) ==> m.recipientId.Some?
  {
    FilterAgree(all, m => Between(m, a, b), m => Between(m, b, a));
  }

  /** `mockContacts`. */
  const MockContacts := [
    Contact(1, "John Doe", "online", "Hey, how are you?", 2),
    Contact(2, "Jane Smith", "offline", "See you tomorrow!", 0),
    Contact(3, "Mike Johnson", "away", "Thanks for the info.", 0)
  ]

  /** The contacts whose name holds the query, ignoring case, in list order. */
  function FilteredContacts(query: string): (r: seq<Contact>)
    ensures forall c :: c in r <==> c in MockContacts && IncludesIgnoringCase(c.name, query)
    ensures IsSubsequence(r, MockContacts)
  {
    FilterIsSubsequence(MockContacts, (c: Contact) => IncludesIgnoringCase(c.name, query));
    Filter(MockContacts, (c: Contact) => IncludesIgnoringCase(c.name, query))
  }

  /** The chamas whose name holds the query, ignoring case, in list order. */
  function FilteredChamas(chamas: seq<Chama>, query: string): (r: seq<Chama>)
    ensures forall c :: c in r <==> c in chamas && IncludesIgnoringCase(c.name, query)
    ensures IsSubsequence(r, chamas)
  {
    FilterIsSubsequence(chamas, (c: Chama) => IncludesIgnoringCase(c.name, query));
    Filter(chamas, (c: Chama) => IncludesIgnoringCase(c.name, query))
  }

  /** An empty search box hides nothing. */
  lemma EmptySearchKeepsEverything(chamas: seq<Chama>)
    ensures FilteredContacts("") == MockContacts
    ensures FilteredChamas(chamas, "") == chamas
  {
    forall c: Contact ensures IncludesIgnoringCase(c.name, "") {
      EmptyIncludedEverywhere(c.name);
    }
    forall c: Chama ensures IncludesIgnoringCase(c.name, "") {
      EmptyIncludedEverywhere(c.name);
    }
    FilterAll(MockContacts, (c: Contact) => IncludesIgnoringCase(c.name, ""));
    FilterAll(chamas, (c: Chama) => IncludesIgnoringCase(c.name, ""));
  }

  /** The page's state for a signed-in user: the listed messages, the draft in
      the input box, the open conversation, the connection flag, whether the
      socket object exists, and every frame handed to `ws.send`. */
  class ChatView {
    const userId: int
    var messages: seq<ChatMessage>
    var draft: string
    var selected: Option<Selection>
    var wsConnected: bool
    var socketPresent: bool
    var sent: seq<ChatServer.Inbound>

    /** The page as first rendered: nothing listed, nothing typed, nothing
        open, no socket yet. */
    constructor(userId: int)
      ensures this.userId == userId && messages == [] && draft == [] && selected.None?
      ensures !wsConnected && !socketPresent && sent == []
    {
      this.userId := userId;
      messages := [];
      draft := [];
      selected := None;
      wsConnected := false;
      socketPresent := false;
      sent := [];
    }

    /** The connection effect opens a socket object. */
    method Connect()
      modifies this`socketPresent
      ensures socketPresent
    {
      socketPresent := true;
    }

    /** `onopen`: the page counts itself connected and, when the socket
        reports OPEN, sends exactly one sign-in frame for its user. */
    method OnOpen(readyOpen: bool)
      modifies this`wsConnected, this`sent
      ensures wsConnected
      ensures sent == old(sent) + (if socketPresent && readyOpen then [AuthFrame(userId)] else [])
    {
      wsConnected := true;
      if socketPresent && readyOpen {
        sent := sent + [AuthFrame(userId)];
      }
    }

    /** `onmessage`: appends what `Received` yields, at the end, and changes
        nothing else. */
    method OnMessage(data: Option<ChatServer.Outbound>, now: int)
      modifies this`messages
      ensures messages == old(messages) + Received(data, now)
      ensures |messages| <= |old(messages)| + 1
    {
      messages := messages + Received(data, now);
    }

    /** `onclose`: the page counts itself disconnected. */
    method OnClose()
      modifies this`wsConnected
      ensures !wsConnected
    {
      wsConnected := false;
    }

    /** `sendMessage`: when the guard holds, sends one chat frame for the open
        conversation and clears the draft; otherwise sends nothing and keeps
        the draft. */
    method SendMessage()
      modifies this`sent, this`draft
      ensures old(CanSend(draft, selected, wsConnected, socketPresent)) ==>
        sent == old(sent) + [ChatFrame(old(draft), selected.value)] && draft == []
      ensures !old(CanSend(draft, selected, wsConnected, socketPresent)) ==>
        sent == old(sent) && draft == old(draft)
    {
      if CanSend(draft, selected, wsConnected, socketPresent) {
        sent := sent + [ChatFrame(draft, selected.value)];
        draft := [];
      }
    }
  }
}
