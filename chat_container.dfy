/**
 * The client-side holder of the chat list. It starts empty and not yet hydrated;
 * the mount effect copies the server's chats in and marks it hydrated; the two
 * handlers append a message to the selected chat. The clock reading and the
 * message id the handlers derive from it are parameters.
 */
module ChatContainer {
  import opened Wrappers
  import opened Text
  import opened ChatData
  import ChatComponent

  /** `if (!currentChatId) return;`: a null or empty id selects nothing, and then no chat matches either. */
  predicate Selected(currentChatId: Option<string>)
    ensures !Selected(currentChatId) ==> forall c :: !ChatComponent.Matches(c, currentChatId)
  {
    currentChatId.Some? && currentChatId.value != ""
  }

  /** The chat with one more message at its end. */
  function Appended(chat: Chat, m: Message): (c: Chat)
    ensures c.id == chat.id && c.title == chat.title && c.userId == chat.userId
    ensures c.createdAt == chat.createdAt && c.updatedAt == chat.updatedAt
    ensures |c.messages| == |chat.messages| + 1 && c.messages[..|chat.messages|] == chat.messages
    ensures c.messages[|chat.messages|] == m
  {
    chat.(messages := chat.messages + [m])
  }

  /** The `prevChats.map(...)` of both handlers: every matching chat gets the new message. */
  function WithMessage(chats: seq<Chat>, currentChatId: Option<string>, role: string, content: string,
                       modelUsed: string, id: int, now: Timestamp): (r: seq<Chat>)
    ensures |r| == |chats|
    ensures forall i :: 0 <= i < |chats| && !ChatComponent.Matches(chats[i], currentChatId) ==> r[i] == chats[i]
    ensures forall i :: 0 <= i < |chats| && ChatComponent.Matches(chats[i], currentChatId) ==>
      r[i] == Appended(chats[i], Message(id, chats[i].id, content, role, now, modelUsed))
  {
    seq(|chats|, i requires 0 <= i < |chats| =>
      if ChatComponent.Matches(chats[i], currentChatId)
      then Appended(chats[i], Message(id, chats[i].id, content, role, now, modelUsed))
      else chats[i])
  }

  /** Appending never changes which ids are present, so distinct ids stay distinct. */
  lemma WithMessageKeepsIds(chats: seq<Chat>, currentChatId: Option<string>, role: string, content: string,
                            modelUsed: string, id: int, now: Timestamp)
    requires ChatComponent.DistinctIds(chats)
    ensures var r := WithMessage(chats, currentChatId, role, content, modelUsed, id, now);
      && (forall i :: 0 <= i < |r| ==> r[i].id == chats[i].id)
      && ChatComponent.DistinctIds(r)
  {
    var r := WithMessage(chats, currentChatId, role, content, modelUsed, id, now);
    assert forall i :: 0 <= i < |r| ==> r[i].id == chats[i].id;
  }

  /** When no chat has the selected id, the list comes back unchanged. */
  lemma WithMessageWithoutMatchIsIdentity(chats: seq<Chat>, currentChatId: Option<string>, role: string, content: string,
                                          modelUsed: string, id: int, now: Timestamp)
    requires forall i :: 0 <= i < |chats| ==> !ChatComponent.Matches(chats[i], currentChatId)
    ensures WithMessage(chats, currentChatId, role, content, modelUsed, id, now) == chats
  {
    var r := WithMessage(chats, currentChatId, role, content, modelUsed, id, now);
    assert forall i :: 0 <= i < |chats| ==> r[i] == chats[i];
  }

  /** With distinct ids, a message goes to exactly one chat: the one whose id was selected. */
  lemma WithMessageChangesOnlyTheSelectedChat(chats: seq<Chat>, k: nat, role: string, content: string,
                                              modelUsed: string, id: int, now: Timestamp)
    requires ChatComponent.DistinctIds(chats)
    requires k < |chats|
    ensures var r := WithMessage(chats, Some(DecimalString(chats[k].id)), role, content, modelUsed, id, now);
      && r[k].messages == chats[k].messages + [Message(id, chats[k].id, content, role, now, modelUsed)]
      && (forall i :: 0 <= i < |chats| && i != k ==> r[i] == chats[i])
  {
    var sel := Some(DecimalString(chats[k].id));
    assert ChatComponent.Matches(chats[k], sel);
    forall i | 0 <= i < |chats| && i != k
      ensures !ChatComponent.Matches(chats[i], sel)
    {
      if ChatComponent.Matches(chats[i], sel) {
        DecimalStringInjective(chats[i].id, chats[k].id);
        assert false;
      }
    }
  }

  /** What the container shows above the input box. */
  datatype Screen = Loading | Welcome | ShowChat(view: ChatComponent.View)

  class Container {
    const currentChatId: Option<string>
    var chats: seq<Chat>
    var isClient: bool

    /** The first render: no chats and not hydrated. */
    constructor (currentChatId: Option<string>)
      ensures this.currentChatId == currentChatId
      ensures chats == [] && !isClient
    {
      this.currentChatId := currentChatId;
      chats := [];
      isClient := false;
    }

    /** The mount effect: `setChats(initialChats); setIsClient(true)`. */
    method Hydrate(initialChats: seq<Chat>)
      modifies this
      ensures chats == initialChats && isClient
    {
      chats := initialChats;
      isClient := true;
    }

    /** `handleMessageSent`: the user's question, appended with role USER. */
    method HandleMessageSent(message: string, modelUsed: string, id: int, now: Timestamp)
      modifies this
      ensures isClient == old(isClient)
      ensures !Selected(currentChatId) ==> chats == old(chats)
      ensures Selected(currentChatId) ==>
        chats == WithMessage(old(chats), currentChatId, UserRole, message, modelUsed, id, now)
    {
      if !Selected(currentChatId) {
        return;
      }
      chats := WithMessage(chats, currentChatId, UserRole, message, modelUsed, id, now);
    }

    /** `handleResponseReceived`: a model's answer, appended with role BOT. */
    method HandleResponseReceived(content: string, modelUsed: string, id: int, now: Timestamp)
      modifies this
      ensures isClient == old(isClient)
      ensures !Selected(currentChatId) ==> chats == old(chats)
      ensures Selected(currentChatId) ==>
        chats == WithMessage(old(chats), currentChatId, BotRole, content, modelUsed, id, now)
    {
      if !Selected(currentChatId) {
        return;
      }
      chats := WithMessage(chats, currentChatId, BotRole, content, modelUsed, id, now);
    }

    /** The main area: a loading notice before hydration, a welcome without a selection, else the chat. */
    function Screen(): (s: Screen)
      reads this
      ensures s.Loading? <==> !isClient
      ensures s.Loading? <==> !InputShown()
      ensures s.Welcome? <==> isClient && !Selected(currentChatId)
      ensures s.ShowChat? ==> s.view == ChatComponent.Render(chats, currentChatId)
    {
      if !isClient then Loading
      else if !Selected(currentChatId) then Welcome
      else ShowChat(ChatComponent.Render(chats, currentChatId))
    }

    /** The input box appears only once hydrated. */
    predicate InputShown()
      reads this
    {
      isClient
    }
  }

  /** A message appended to the selected chat becomes its last bubble, after the unchanged earlier ones. */
  lemma AppendedMessageIsRenderedLast(chats: seq<Chat>, k: nat, role: string, content: string,
                                      modelUsed: string, id: int, now: Timestamp)
    requires ChatComponent.DistinctIds(chats)
    requires k < |chats|
    ensures var sel := Some(DecimalString(chats[k].id));
      var v := ChatComponent.Render(WithMessage(chats, sel, role, content, modelUsed, id, now), sel);
      var n := |chats[k].messages|;
      && v.Thread?
      && |v.entries| == n + 1
      && v.entries[n] == ChatComponent.EntryFor(Message(id, chats[k].id, content, role, now, modelUsed))
      && (forall i :: 0 <= i < n ==> v.entries[i] == ChatComponent.EntryFor(chats[k].messages[i]))
  {
    var sel := Some(DecimalString(chats[k].id));
    var r := WithMessage(chats, sel, role, content, modelUsed, id, now);
    WithMessageKeepsIds(chats, sel, role, content, modelUsed, id, now);
    WithMessageChangesOnlyTheSelectedChat(chats, k, role, content, modelUsed, id, now);
    ChatComponent.RenderShowsTheChatWithThatId(r, k);
  }

  /** A question sent in the selected chat shows up as its last bubble, labelled "You". */
  lemma SentMessageIsRenderedLast(chats: seq<Chat>, k: nat, message: string, modelUsed: string, id: int, now: Timestamp)
    requires ChatComponent.DistinctIds(chats)
    requires k < |chats|
    ensures var sel := Some(DecimalString(chats[k].id));
      var v := ChatComponent.Render(WithMessage(chats, sel, UserRole, message, modelUsed, id, now), sel);
      && v.Thread?
      && |v.entries| == |chats[k].messages| + 1
      && v.entries[|chats[k].messages|] == ChatComponent.Entry(id, true, message, ChatComponent.YouLabel, now)
  {
    AppendedMessageIsRenderedLast(chats, k, UserRole, message, modelUsed, id, now);
    ChatComponent.RolesClassify();
  }

  /** An answer received in the selected chat shows up as its last bubble, labelled with its model. */
  lemma ReceivedAnswerIsRenderedLast(chats: seq<Chat>, k: nat, content: string, modelUsed: string, id: int, now: Timestamp)
    requires ChatComponent.DistinctIds(chats)
    requires k < |chats|
    ensures var sel := Some(DecimalString(chats[k].id));
      var v := ChatComponent.Render(WithMessage(chats, sel, BotRole, content, modelUsed, id, now), sel);
      && v.Thread?
      && |v.entries| == |chats[k].messages| + 1
      && v.entries[|chats[k].messages|] == ChatComponent.Entry(id, false, content, modelUsed, now)
  {
    AppendedMessageIsRenderedLast(chats, k, BotRole, content, modelUsed, id, now);
    ChatComponent.RolesClassify();
  }
}
