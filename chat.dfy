/** The send rule of the conversation view, `handleSendMessage` in src/pages/Chat.tsx,
    modelled as the code is written: a flat cost of 25 cents, an affordability check for
    prepaid clients only, the message POSTed before the prepaid balance is PATCHed, and a
    client record that is never reloaded after the PATCH. The page state, together with the
    server-side message store and the client's stored balance, is the class `ChatPage`; the
    pure function `SendMessage` specifies one send. */
module Chat {
  import opened Domain
  import opened Text

  /** `messageCost`: R$ 0,25. */
  const MessageCost: Cents := 25

  const InsufficientBalanceMessage := "Saldo insuficiente para enviar mensagem"
  const PostFailedMessage := "Erro ao enviar mensagem"
  const CurrentUser := Sender("current-user-id", UserSender)

  /** The answer to the POST: the id the server gave the stored message, a non-ok status, or
      the message of the error the request threw. */
  datatype PostResult = Created(id: string) | PostNotOk | PostThrew(message: string)

  /** The answer to the PATCH: applied, refused with a non-ok status (which the code does not
      look at), or the message of the error the request threw. */
  datatype PatchResult = Patched | PatchNotOk | PatchThrew(message: string)

  /** Everything one send reads or writes: the page's state and the two server-side records it touches. */
  datatype ChatState = ChatState(
    routeId: Option<string>,
    messages: seq<Message>,
    newMessage: string,
    error: Option<string>,
    conversation: Option<Conversation>,
    client: Option<Client>,
    serverBalance: Option<Cents>,
    serverMessages: seq<Message>)

  /** `!newMessage.trim() || !client || !id`: the send is ignored. */
  predicate Ignored(s: ChatState)
    ensures Ignored(s) <==> AllWhitespace(s.newMessage) || s.client.None? || s.routeId.None? || s.routeId.value == ""
  {
    Trim(s.newMessage) == [] || s.client.None? || s.routeId.None? || s.routeId.value == ""
  }

  /** `client.balance || 0`. */
  function LoadedBalance(c: Client): Cents {
    c.balance.GetOr(0)
  }

  /** Only a prepaid client is ever refused, and one is refused exactly when its loaded
      balance (a missing balance counting as zero) is below the cost of a message. */
  predicate CannotAfford(c: Client)
    ensures CannotAfford(c) ==> c.planType == Prepaid
    ensures c.planType == Prepaid ==> (CannotAfford(c) <==> c.balance.GetOr(0) < 25)
  {
    c.planType == Prepaid && LoadedBalance(c) < MessageCost
  }

  /** The stored message: the POSTed record with the id the server assigned. */
  function OutgoingMessage(conversationId: string, content: string, timestamp: string, id: string): (m: Message)
    ensures m.id == id && m.conversationId == conversationId && m.content == content
    ensures m.timestamp == timestamp && m.sentBy == CurrentUser
    ensures m.priority == Normal && m.status == Sent && m.cost == Some(MessageCost)
  {
    Message(id, conversationId, content, CurrentUser, timestamp, Normal, Sent, Some(MessageCost))
  }

  /** `{...conversation, lastMessageContent, lastMessageTime}`. */
  function Mirror(conversation: Option<Conversation>, content: string, time: string): (r: Option<Conversation>)
    ensures r.Some? <==> conversation.Some?
    ensures r.Some? ==>
      && r.value.lastMessageContent == content && r.value.lastMessageTime == time
      && r.value.id == conversation.value.id && r.value.recipientId == conversation.value.recipientId
      && r.value.recipientName == conversation.value.recipientName
      && r.value.unreadCount == conversation.value.unreadCount
  {
    match conversation
    case None => None
    case Some(c) => Some(c.(lastMessageContent := content, lastMessageTime := time))
  }

  /** One press of the send button. `sentAt` and `mirroredAt` stand for the two clock readings. */
  function SendMessage(s: ChatState, post: PostResult, patch: PatchResult, sentAt: string, mirroredAt: string): (s': ChatState)
    ensures s'.routeId == s.routeId && s'.client == s.client
  {
    if Ignored(s) then s
    else if CannotAfford(s.client.value) then s.(error := Some(InsufficientBalanceMessage))
    else match post
      case PostNotOk => s.(error := Some(PostFailedMessage))
      case PostThrew(m) => s.(error := Some(m))
      case Created(id) =>
        var created := OutgoingMessage(s.routeId.value, s.newMessage, sentAt, id);
        var stored := s.(serverMessages := s.serverMessages + [created]);
        if s.client.value.planType == Prepaid && patch.PatchThrew? then
          stored.(error := Some(patch.message))
        else
          var debited :=
            if s.client.value.planType == Prepaid && patch == Patched
            then Some(LoadedBalance(s.client.value) - MessageCost)
            else s.serverBalance;
          stored.(
            serverBalance := debited,
            messages := s.messages + [created],
            newMessage := "",
            error := None,
            conversation := Mirror(s.conversation, s.newMessage, mirroredAt))
  }

  /** The send goes all the way through: the message is stored, appended and mirrored. */
  predicate Delivered(s: ChatState, post: PostResult, patch: PatchResult) {
    && !Ignored(s) && !CannotAfford(s.client.value) && post.Created?
    && !(s.client.value.planType == Prepaid && patch.PatchThrew?)
  }

  /** Blank input, no client, or a missing or empty route id: nothing changes. */
  lemma IgnoredChangesNothing(s: ChatState, post: PostResult, patch: PatchResult, sentAt: string, mirroredAt: string)
    requires Ignored(s)
    ensures SendMessage(s, post, patch, sentAt, mirroredAt) == s
  {
  }

  /** A prepaid client below the cost gets the error and nothing else happens: nothing is
      posted, no balance is written, the list is unchanged. */
  lemma InsufficientBalanceBlocks(s: ChatState, post: PostResult, patch: PatchResult, sentAt: string, mirroredAt: string)
    requires !Ignored(s) && s.client.value.planType == Prepaid && s.client.value.balance.GetOr(0) < 25
    ensures SendMessage(s, post, patch, sentAt, mirroredAt) == s.(error := Some("Saldo insuficiente para enviar mensagem"))
  {
  }

  /** A postpaid client is never blocked and its stored record is never written. */
  lemma PostpaidNeverBlockedNorDebited(s: ChatState, post: PostResult, patch: PatchResult, sentAt: string, mirroredAt: string)
    requires !Ignored(s) && s.client.value.planType == Postpaid && post.Created?
    ensures var s' := SendMessage(s, post, patch, sentAt, mirroredAt);
      && s'.serverBalance == s.serverBalance
      && |s'.messages| == |s.messages| + 1 && s'.error.None?
  {
  }

  /** A failed POST ends the send before any debit: balance, local list and stored messages are unchanged. */
  lemma PostFailureChangesNoMoney(s: ChatState, post: PostResult, patch: PatchResult, sentAt: string, mirroredAt: string)
    requires !post.Created?
    ensures var s' := SendMessage(s, post, patch, sentAt, mirroredAt);
      && s'.serverBalance == s.serverBalance && s'.messages == s.messages
      && s'.serverMessages == s.serverMessages && s'.newMessage == s.newMessage
  {
  }

  /** A delivered send appends exactly the created message, clears the input, resets the error
      and mirrors the text into the conversation, whose other fields except the time stay. */
  lemma DeliveredSend(s: ChatState, post: PostResult, patch: PatchResult, sentAt: string, mirroredAt: string)
    requires Delivered(s, post, patch)
    ensures var s' := SendMessage(s, post, patch, sentAt, mirroredAt);
      && |s'.messages| == |s.messages| + 1
      && s'.messages[..|s.messages|] == s.messages
      && s'.messages[|s.messages|] == s'.serverMessages[|s.serverMessages|]
      && s'.serverMessages == s.serverMessages + [s'.messages[|s.messages|]]
      && s'.newMessage == "" && s'.error.None?
      && (s.conversation.Some? <==> s'.conversation.Some?)
      && (s.conversation.Some? ==>
            s'.conversation.value == s.conversation.value.(lastMessageContent := s.newMessage,
                                                           lastMessageTime := s'.conversation.value.lastMessageTime))
  {
  }

  /** The stored message: priority normal, status sent, cost 25, addressed to the route's
      conversation, carrying the input exactly as typed (not trimmed). */
  lemma DeliveredMessageShape(s: ChatState, post: PostResult, patch: PatchResult, sentAt: string, mirroredAt: string)
    requires Delivered(s, post, patch)
    ensures var m := SendMessage(s, post, patch, sentAt, mirroredAt).messages[|s.messages|];
      && m.id == post.id && m.priority == Normal && m.status == Sent && m.cost == Some(25)
      && m.conversationId == s.routeId.value && m.content == s.newMessage && m.timestamp == sentAt
  {
  }

  /** A delivered send by a prepaid client whose PATCH went through stores the loaded
      balance minus 25, never a negative amount. */
  lemma PrepaidDebit(s: ChatState, post: PostResult, sentAt: string, mirroredAt: string)
    requires Delivered(s, post, Patched) && s.client.value.planType == Prepaid
    ensures var b := SendMessage(s, post, Patched, sentAt, mirroredAt).serverBalance;
      b == Some(s.client.value.balance.GetOr(0) - 25) && b.value >= 0
  {
  }

  /** As written, the in-memory client is not reloaded after the PATCH, so two delivered sends
      in a row both write "loaded balance - 25": the second message is not charged. */
  lemma SecondSendUsesStaleBalance(s: ChatState, post1: PostResult, post2: PostResult, sentAt1: string, sentAt2: string, at1: string, at2: string, text: string)
    requires Delivered(s, post1, Patched) && s.client.value.planType == Prepaid
    requires post2.Created? && Trim(text) != []
    ensures var s1 := SendMessage(s, post1, Patched, sentAt1, at1).(newMessage := text);
      var s2 := SendMessage(s1, post2, Patched, sentAt2, at2);
      && s2.serverBalance == Some(s.client.value.balance.GetOr(0) - 25)
      && |s2.serverMessages| == |s.serverMessages| + 2
  {
  }

  /** As written, the POST and the PATCH are not one step: when the PATCH throws after the
      POST succeeded, the message is stored but neither charged nor shown. */
  lemma PatchFailureLeavesMessageUncharged(s: ChatState, post: PostResult, m: string, sentAt: string, mirroredAt: string)
    requires !Ignored(s) && !CannotAfford(s.client.value) && post.Created? && s.client.value.planType == Prepaid
    ensures var s' := SendMessage(s, post, PatchThrew(m), sentAt, mirroredAt);
      && |s'.serverMessages| == |s.serverMessages| + 1
      && s'.serverBalance == s.serverBalance
      && s'.messages == s.messages && s'.error == Some(m)
  {
  }

  /** The page renders the input and the send button only when no error is shown: once
      loading is over, any non-empty error replaces the whole view with the error text. */
  predicate InputShown(s: ChatState) {
    s.error.None? || s.error.value == ""
  }

  /** Every refused or failed send shows a non-empty error unless the failure itself carried
      an empty message, so after it the page offers no further send. */
  lemma FailedSendEndsConversationView(s: ChatState, post: PostResult, patch: PatchResult, sentAt: string, mirroredAt: string)
    requires !Ignored(s) && !Delivered(s, post, patch)
    requires !post.PostThrew? || post.message != ""
    requires !patch.PatchThrew? || patch.message != ""
    ensures !InputShown(SendMessage(s, post, patch, sentAt, mirroredAt))
  {
  }

  class ChatPage {
    const routeId: Option<string>
    var messages: seq<Message>
    var newMessage: string
    var error: Option<string>
    var conversation: Option<Conversation>
    /** The client record as first loaded, always the record of client "1"; nothing in the
        page updates it. */
    const client: Option<Client>
    /** The balance stored on the server for client "1", the client the page charges. */
    var serverBalance: Option<Cents>
    /** The messages stored on the server by this page. */
    var serverMessages: seq<Message>

    function State(): ChatState
      reads this
    {
      ChatState(routeId, messages, newMessage, error, conversation, client, serverBalance, serverMessages)
    }

    /** The page once its initial requests have been answered (the requests themselves are
        not modelled): the route id, the loaded client, conversation and messages. The client
        is whatever `clients/1` returned, whoever logged in. */
    constructor (routeId: Option<string>, client: Option<Client>, conversation: Option<Conversation>, messages: seq<Message>)
      ensures State() == ChatState(routeId, messages, "", None, conversation, client,
                                   if client.Some? then client.value.balance else None, [])
    {
      this.routeId := routeId;
      this.messages := messages;
      this.newMessage := "";
      this.error := None;
      this.conversation := conversation;
      this.client := client;
      this.serverBalance := if client.Some? then client.value.balance else None;
      this.serverMessages := [];
    }

    /** Typing in the input field. */
    method Type(text: string)
      requires InputShown(State())
      modifies this
      ensures State() == old(State()).(newMessage := text)
    {
      newMessage := text;
    }

    /** `handleSendMessage`. */
    method HandleSendMessage(post: PostResult, patch: PatchResult, sentAt: string, mirroredAt: string)
      requires InputShown(State())
      modifies this
      ensures State() == SendMessage(old(State()), post, patch, sentAt, mirroredAt)
    {
      if Trim(newMessage) == [] || client.None? || routeId.None? || routeId.value == "" {
        return;
      }
      var c := client.value;
      if c.planType == Prepaid && c.balance.GetOr(0) < MessageCost {
        error := Some(InsufficientBalanceMessage);
        return;
      }
      match post {
        case PostNotOk =>
          error := Some(PostFailedMessage);
        case PostThrew(m) =>
          error := Some(m);
        case Created(id) =>
          var createdMessage := OutgoingMessage(routeId.value, newMessage, sentAt, id);
          serverMessages := serverMessages + [createdMessage];
          if c.planType == Prepaid {
            match patch {
              case PatchThrew(m) =>
                error := Some(m);
                return;
              case Patched =>
                serverBalance := Some(c.balance.GetOr(0) - MessageCost);
              case PatchNotOk =>
            }
          }
          messages := messages + [createdMessage];
          var sentText := newMessage;
          newMessage := "";
          error := None;
          if conversation.Some? {
            conversation := Some(conversation.value.(lastMessageContent := sentText, lastMessageTime := mirroredAt));
          }
      }
    }
  }
}
