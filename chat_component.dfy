/**
 * The conversation view: it looks up the chat whose id, written in decimal,
 * equals the selected id, and renders either a not-found notice or the chat's
 * header and its messages in order. Date formatting and styling are not modelled;
 * the timestamps are passed through.
 */
module ChatComponent {
  import opened Wrappers
  import opened Text
  import opened ChatData

  const YouLabel := "You"

  /** One rendered message bubble. */
  datatype Entry = Entry(key: int, isUser: bool, content: string, sender: string, createdAt: Timestamp)

  datatype View =
    | NotFound
    | Thread(title: string, createdAt: Timestamp, updatedAt: Timestamp, entries: seq<Entry>)

  /** `chat.id.toString() === currentChatId`; a null or empty id matches no chat. */
  predicate Matches(chat: Chat, currentChatId: Option<string>)
    ensures Matches(chat, currentChatId) ==> currentChatId.Some? && currentChatId.value != []
  {
    currentChatId.Some? && DecimalString(chat.id) == currentChatId.value
  }

  /** `chats.find(...)` from position `from` on, as the index of the first matching chat. */
  function FindChatFrom(chats: seq<Chat>, currentChatId: Option<string>, from: nat): (r: Option<nat>)
    requires from <= |chats|
    decreases |chats| - from
    ensures r.Some? ==> from <= r.value < |chats| && Matches(chats[r.value], currentChatId)
    ensures r.Some? ==> forall j :: from <= j < r.value ==> !Matches(chats[j], currentChatId)
    ensures r.None? <==> forall j :: from <= j < |chats| ==> !Matches(chats[j], currentChatId)
  {
    if from == |chats| then None
    else if Matches(chats[from], currentChatId) then Some(from)
    else FindChatFrom(chats, currentChatId, from + 1)
  }

  /** `chats.find(...)`, as the index of the first matching chat. */
  function FindChat(chats: seq<Chat>, currentChatId: Option<string>): (r: Option<nat>)
    ensures r.Some? ==> r.value < |chats| && Matches(chats[r.value], currentChatId)
    ensures r.Some? ==> forall j :: 0 <= j < r.value ==> !Matches(chats[j], currentChatId)
    ensures r.None? <==> forall j :: 0 <= j < |chats| ==> !Matches(chats[j], currentChatId)
  {
    FindChatFrom(chats, currentChatId, 0)
  }

  /** `message.role.toUpperCase() === "USER"`: the role, upper-cased, spells USER. */
  predicate IsUser(role: string)
    ensures IsUser(role) ==> |role| == |UserRole|
  {
    Upper(role) == UserRole
  }

  /** The role test ignores case and nothing else. */
  lemma IsUserMeansUserInAnyCase(role: string)
    ensures IsUser(role) <==> |role| == 4 && forall i :: 0 <= i < 4 ==> UpperChar(role[i]) == UserRole[i]
  {
    if |role| == 4 && forall i :: 0 <= i < 4 ==> UpperChar(role[i]) == UserRole[i] {
      assert Upper(role) == UserRole;
    }
  }

  /** The two roles the application writes are told apart by the test. */
  lemma RolesClassify()
    ensures IsUser(UserRole) && !IsUser(BotRole)
  {
    assert Upper(UserRole) == UserRole;
    assert Upper(BotRole)[0] == 'B';
  }

  /** The bubble of one message: user messages are labelled "You", others by their model. */
  function EntryFor(m: Message): (e: Entry)
    ensures e.key == m.id && e.content == m.content && e.createdAt == m.createdAt
    ensures e.isUser <==> IsUser(m.role)
    ensures e.sender == if IsUser(m.role) then YouLabel else m.modelUsed
  {
    var isUser := IsUser(m.role);
    Entry(m.id, isUser, m.content, if isUser then YouLabel else m.modelUsed, m.createdAt)
  }

  function Render(chats: seq<Chat>, currentChatId: Option<string>): (v: View)
    ensures v.NotFound? <==> forall j :: 0 <= j < |chats| ==> !Matches(chats[j], currentChatId)
    ensures v.Thread? ==>
      exists k :: 0 <= k < |chats| && Matches(chats[k], currentChatId)
        && (forall j :: 0 <= j < k ==> !Matches(chats[j], currentChatId))
        && v.title == chats[k].title && v.createdAt == chats[k].createdAt && v.updatedAt == chats[k].updatedAt
        && |v.entries| == |chats[k].messages|
        && (forall i :: 0 <= i < |v.entries| ==> v.entries[i] == EntryFor(chats[k].messages[i]))
  {
    match FindChat(chats, currentChatId)
    case None => NotFound
    case Some(k) =>
      var chat := chats[k];
      Thread(chat.title, chat.createdAt, chat.updatedAt, seq(|chat.messages|, i requires 0 <= i < |chat.messages| => EntryFor(chat.messages[i])))
  }

  /** Chat ids are pairwise different, as the database assigns them. */
  predicate DistinctIds(chats: seq<Chat>) {
    forall i, j :: 0 <= i < j < |chats| ==> chats[i].id != chats[j].id
  }

  /** Selecting a chat by its own id shows that chat and no other. */
  lemma RenderShowsTheChatWithThatId(chats: seq<Chat>, k: nat)
    requires DistinctIds(chats)
    requires k < |chats|
    ensures var v := Render(chats, Some(DecimalString(chats[k].id)));
      && v.Thread?
      && v.title == chats[k].title
      && |v.entries| == |chats[k].messages|
      && (forall i :: 0 <= i < |v.entries| ==> v.entries[i] == EntryFor(chats[k].messages[i]))
  {
    var id := Some(DecimalString(chats[k].id));
    assert Matches(chats[k], id);
    var f := FindChat(chats, id);
    if f.value != k {
      DecimalStringInjective(chats[f.value].id, chats[k].id);
      assert false;
    }
  }
}
