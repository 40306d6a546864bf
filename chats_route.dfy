/**
 * The `/api/chats` route handlers. The database is an abstract store holding the
 * chats (each with its messages) and the next identifiers it will assign; the
 * authentication result is the caller's user id, if any; the success of the
 * database call is a parameter, since any failure is reported the same way.
 */
module ChatsRoute {
  import opened Wrappers
  import opened ChatData

  const DefaultTitle := "New Conversation"
  const UnauthorizedError := "Unauthorized"
  const SignInMessage := "Please sign in to view your chats"
  const CreateFailedError := "Failed to create chat"
  const FetchFailedError := "Failed to fetch chats"

  datatype Store = Store(chats: seq<Chat>, nextChatId: nat, nextMessageId: nat)

  /** An HTTP reply: the JSON payload on success, or a status with the error body. */
  datatype Reply<T> = Ok(value: T) | Failed(status: nat, error: string, message: Option<string>)

  /** One entry of the POST body's `answers`. */
  datatype AnswerInput = AnswerInput(content: string, modelUsed: string)

  /** The POST body; None for a body that cannot be parsed or lacks `firstMessage`. */
  datatype CreateChatBody = CreateChatBody(title: Option<string>, firstMessage: string, modelUsed: Option<string>, answers: Option<seq<AnswerInput>>)

  /** One element of the GET reply. */
  datatype ChatSummary = ChatSummary(id: nat, title: string, createdAt: Timestamp, updatedAt: Timestamp, messageCount: nat)

  /** `if (!userId)` rejects both a missing and an empty user id. */
  predicate Authenticated(userId: Option<string>) {
    userId.Some? && userId.value != ""
  }

  /** The shape every stored chat has: distinct ids below the next id, messages pointing at their chat, roles USER or BOT. */
  ghost predicate ValidStore(store: Store) {
    && (forall i, j :: 0 <= i < j < |store.chats| ==> store.chats[i].id != store.chats[j].id)
    && (forall i :: 0 <= i < |store.chats| ==> store.chats[i].id < store.nextChatId)
    && (forall i, k :: 0 <= i < |store.chats| && 0 <= k < |store.chats[i].messages| ==>
          store.chats[i].messages[k].chatId == store.chats[i].id
          && store.chats[i].messages[k].role in {UserRole, BotRole})
  }

  /** `title || "New Conversation"`. */
  function TitleOrDefault(title: Option<string>): (r: string)
    ensures r != []
    ensures title.Some? && title.value != [] ==> r == title.value
    ensures !(title.Some? && title.value != []) ==> r == DefaultTitle
  {
    if title.Some? && title.value != "" then title.value else DefaultTitle
  }

  /** `modelUsed || "UNKNOWN"`. */
  function ModelOrUnknown(modelUsed: Option<string>): (r: string)
    ensures r != []
    ensures modelUsed.Some? && modelUsed.value != [] ==> r == modelUsed.value
    ensures !(modelUsed.Some? && modelUsed.value != []) ==> r == UnknownModel
  {
    if modelUsed.Some? && modelUsed.value != "" then modelUsed.value else UnknownModel
  }

  /** The BOT messages built from `answers`, numbered from `firstId`. */
  function BotMessages(answers: seq<AnswerInput>, chatId: nat, firstId: nat, now: Timestamp): (r: seq<Message>)
    ensures |r| == |answers|
    ensures forall i :: 0 <= i < |answers| ==>
      r[i] == Message(firstId + i, chatId, answers[i].content, BotRole, now, answers[i].modelUsed)
  {
    if answers == [] then []
    else [Message(firstId, chatId, answers[0].content, BotRole, now, answers[0].modelUsed)]
         + BotMessages(answers[1..], chatId, firstId + 1, now)
  }

  /** The nested `messages.create` list of POST: the USER message, then one BOT message per answer. */
  function InitialMessages(body: CreateChatBody, chatId: nat, firstId: nat, now: Timestamp): (r: seq<Message>)
    ensures |r| == 1 + |body.answers.GetOr([])|
    ensures r[0] == Message(firstId, chatId, body.firstMessage, UserRole, now, ModelOrUnknown(body.modelUsed))
    ensures forall i :: 0 <= i < |body.answers.GetOr([])| ==>
      var a := body.answers.GetOr([])[i];
      r[1 + i] == Message(firstId + 1 + i, chatId, a.content, BotRole, now, a.modelUsed)
  {
    [Message(firstId, chatId, body.firstMessage, UserRole, now, ModelOrUnknown(body.modelUsed))]
    + BotMessages(body.answers.GetOr([]), chatId, firstId + 1, now)
  }

  /** The store and reply after POST /api/chats. */
  datatype CreateResult = CreateResult(store: Store, reply: Reply<Chat>)

  function CreateChat(store: Store, userId: Option<string>, body: Option<CreateChatBody>, now: Timestamp, writeSucceeds: bool): (r: CreateResult)
    ensures !Authenticated(userId) ==> r == CreateResult(store, Failed(401, UnauthorizedError, None))
    ensures Authenticated(userId) && (body.None? || !writeSucceeds) ==>
      r == CreateResult(store, Failed(500, CreateFailedError, None))
    ensures r.reply.Ok? <==> Authenticated(userId) && body.Some? && writeSucceeds
    ensures r.reply.Ok? ==>
      var chat := r.reply.value;
      && r.store.chats == store.chats + [chat]
      && chat.id == store.nextChatId
      && chat.userId == userId.value
      && chat.title == TitleOrDefault(body.value.title)
      && chat.messages == InitialMessages(body.value, chat.id, store.nextMessageId, now)
      && chat.createdAt == now && chat.updatedAt == now
  {
    if !Authenticated(userId) then CreateResult(store, Failed(401, UnauthorizedError, None))
    else if body.None? || !writeSucceeds then CreateResult(store, Failed(500, CreateFailedError, None))
    else
      var b := body.value;
      var messages := InitialMessages(b, store.nextChatId, store.nextMessageId, now);
      var chat := Chat(store.nextChatId, TitleOrDefault(b.title), now, now, userId.value, messages);
      CreateResult(Store(store.chats + [chat], store.nextChatId + 1, store.nextMessageId + |messages|), Ok(chat))
  }

  /** A successful POST keeps every stored chat well formed. */
  lemma CreateChatPreservesStore(store: Store, userId: Option<string>, body: Option<CreateChatBody>, now: Timestamp, writeSucceeds: bool)
    requires ValidStore(store)
    ensures ValidStore(CreateChat(store, userId, body, now, writeSucceeds).store)
  {
    var r := CreateChat(store, userId, body, now, writeSucceeds);
    if r.reply.Ok? {
      var chat := r.reply.value;
      var n := |store.chats|;
      assert r.store.chats[n] == chat;
      forall k | 0 <= k < |chat.messages|
        ensures chat.messages[k].chatId == chat.id && chat.messages[k].role in {UserRole, BotRole}
      {
        if k > 0 {
          var answers := body.value.answers.GetOr([]);
          assert chat.messages[1 + (k - 1)].role == BotRole;
        }
      }
    }
  }

  function Summarize(chat: Chat): (s: ChatSummary)
    ensures s.id == chat.id && s.title == chat.title && s.messageCount == |chat.messages|
    ensures s.createdAt == chat.createdAt && s.updatedAt == chat.updatedAt
  {
    ChatSummary(chat.id, chat.title, chat.createdAt, chat.updatedAt, |chat.messages|)
  }

  /** The positions from `from` on that hold a chat of `userId`. */
  ghost function OwnedPositions(chats: seq<Chat>, userId: string, from: nat): set<nat> {
    set i: nat | from <= i < |chats| && chats[i].userId == userId
  }

  /** The owner filter of GET from position `from` on: one summary per owned chat, in store order. */
  function OwnedSummariesFrom(chats: seq<Chat>, userId: string, from: nat): (r: seq<ChatSummary>)
    requires from <= |chats|
    decreases |chats| - from
    ensures |r| == |OwnedPositions(chats, userId, from)|
    ensures forall s :: s in r ==> exists i :: from <= i < |chats| && chats[i].userId == userId && s == Summarize(chats[i])
    ensures forall i :: from <= i < |chats| && chats[i].userId == userId ==> Summarize(chats[i]) in r
  {
    if from == |chats| then
      assert OwnedPositions(chats, userId, from) == {};
      []
    else
      var rest := OwnedSummariesFrom(chats, userId, from + 1);
      if chats[from].userId == userId then
        assert OwnedPositions(chats, userId, from) == {from} + OwnedPositions(chats, userId, from + 1);
        [Summarize(chats[from])] + rest
      else
        assert OwnedPositions(chats, userId, from) == OwnedPositions(chats, userId, from + 1);
        rest
  }

  /** The `where: { userId }` filter with the `select` of GET: one summary per chat the caller owns, and nothing else. */
  function OwnedSummaries(chats: seq<Chat>, userId: string): (r: seq<ChatSummary>)
    ensures |r| == |OwnedPositions(chats, userId, 0)|
    ensures forall s :: s in r ==> exists c :: c in chats && c.userId == userId && s == Summarize(c)
    ensures forall c :: c in chats && c.userId == userId ==> Summarize(c) in r
  {
    OwnedSummariesFrom(chats, userId, 0)
  }

  /** Most recently updated first. */
  predicate SortedByRecency(s: seq<ChatSummary>) {
    forall i, j :: 0 <= i < j < |s| ==> s[i].updatedAt >= s[j].updatedAt
  }

  /** Inserts `x` after every entry updated at or after it. */
  function InsertByRecency(x: ChatSummary, s: seq<ChatSummary>): (r: seq<ChatSummary>)
    ensures |r| == |s| + 1
  {
    if s == [] then [x]
    else if s[0].updatedAt >= x.updatedAt then [s[0]] + InsertByRecency(x, s[1..])
    else [x] + s
  }

  /** `orderBy: { updatedAt: "desc" }`, keeping store order among equal timestamps. */
  function SortByRecency(s: seq<ChatSummary>): (r: seq<ChatSummary>)
    ensures |r| == |s|
  {
    if s == [] then [] else InsertByRecency(s[|s| - 1], SortByRecency(s[..|s| - 1]))
  }

  lemma {:induction false} InsertPermutes(x: ChatSummary, s: seq<ChatSummary>)
    ensures multiset(InsertByRecency(x, s)) == multiset(s) + multiset{x}
  {
    if s != [] {
      assert s == [s[0]] + s[1..];
      if s[0].updatedAt >= x.updatedAt {
        InsertPermutes(x, s[1..]);
      }
    }
  }

  lemma {:induction false} InsertSorted(x: ChatSummary, s: seq<ChatSummary>)
    requires SortedByRecency(s)
    ensures SortedByRecency(InsertByRecency(x, s))
    ensures InsertByRecency(x, s)[0] == x || (s != [] && InsertByRecency(x, s)[0] == s[0])
  {
    if s != [] {
      var t := InsertByRecency(x, s[1..]);
      if s[0].updatedAt >= x.updatedAt {
        InsertSorted(x, s[1..]);
        assert s[0].updatedAt >= t[0].updatedAt;
        forall k | 0 <= k < |t| ensures s[0].updatedAt >= t[k].updatedAt {
          if k > 0 {
            assert t[0].updatedAt >= t[k].updatedAt;
          }
        }
      } else {
        forall k | 0 <= k < |s| ensures x.updatedAt >= s[k].updatedAt {
          if k > 0 {
            assert s[0].updatedAt >= s[k].updatedAt;
          }
        }
      }
    }
  }

  /** The GET ordering is sorted by recency... */
  lemma {:induction false} SortByRecencySorts(s: seq<ChatSummary>)
    ensures SortedByRecency(SortByRecency(s))
  {
    if s != [] {
      SortByRecencySorts(s[..|s| - 1]);
      InsertSorted(s[|s| - 1], SortByRecency(s[..|s| - 1]));
    }
  }

  /** ... and neither loses nor invents an entry. */
  lemma {:induction false} SortByRecencyPermutes(s: seq<ChatSummary>)
    ensures multiset(SortByRecency(s)) == multiset(s)
  {
    if s != [] {
      var init := s[..|s| - 1];
      SortByRecencyPermutes(init);
      InsertPermutes(s[|s| - 1], SortByRecency(init));
      assert s == init + [s[|s| - 1]];
      assert multiset(s) == multiset(init) + multiset{s[|s| - 1]};
    }
  }

  /** GET /api/chats. It reads the store and cannot change it. */
  function ListChats(store: Store, userId: Option<string>, readSucceeds: bool): (r: Reply<seq<ChatSummary>>)
    ensures !Authenticated(userId) ==> r == Failed(401, UnauthorizedError, Some(SignInMessage))
    ensures Authenticated(userId) && !readSucceeds ==> r == Failed(500, FetchFailedError, None)
    ensures r.Ok? <==> Authenticated(userId) && readSucceeds
    ensures r.Ok? ==>
      && SortedByRecency(r.value)
      && multiset(r.value) == multiset(OwnedSummaries(store.chats, userId.value))
  {
    if !Authenticated(userId) then Failed(401, UnauthorizedError, Some(SignInMessage))
    else if !readSucceeds then Failed(500, FetchFailedError, None)
    else
      var owned := OwnedSummaries(store.chats, userId.value);
      SortByRecencySorts(owned);
      SortByRecencyPermutes(owned);
      Ok(SortByRecency(owned))
  }

  /**
   * GET lists the caller's chats and nothing else: every entry is the summary of a
   * stored chat the caller owns, every chat the caller owns is listed, and there is
   * one entry per owned chat.
   */
  lemma ListChatsIsExactlyTheCallersChats(store: Store, userId: Option<string>, readSucceeds: bool)
    requires ListChats(store, userId, readSucceeds).Ok?
    ensures var listed := ListChats(store, userId, readSucceeds).value;
      && (forall s :: s in listed ==> exists c :: c in store.chats && c.userId == userId.value && s == Summarize(c))
      && (forall c :: c in store.chats && c.userId == userId.value ==> Summarize(c) in listed)
      && |listed| == |OwnedPositions(store.chats, userId.value, 0)|
  {
    var listed := ListChats(store, userId, readSucceeds).value;
    var owned := OwnedSummaries(store.chats, userId.value);
    forall s | s in listed
      ensures exists c :: c in store.chats && c.userId == userId.value && s == Summarize(c)
    {
      assert s in multiset(owned);
      assert s in owned;
    }
    forall c | c in store.chats && c.userId == userId.value
      ensures Summarize(c) in listed
    {
      assert Summarize(c) in multiset(listed);
    }
    assert |listed| == |multiset(listed)| == |multiset(owned)| == |owned|;
  }
}
