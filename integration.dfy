/**
 * Properties that hold across the two halves of the system: the inference
 * server and the web client talking to it, and the chat route feeding the view.
 */
module Integration {
  import opened Wrappers
  import opened Text
  import opened ChatData
  import InferenceServer
  import ServerStatus
  import ModelSelector
  import ChatsRoute
  import ChatComponent

  /** The `/health` body as the client's probe reads it. */
  function HealthBodyOf(h: InferenceServer.HealthResponse): (b: ServerStatus.HealthBody)
    ensures b.Parsed? && b.status == Some(h.status)
  {
    ServerStatus.Parsed(Some(h.status))
  }

  /** Whatever models are loaded, a `/health` reply that arrives in time makes the client report the server as available. */
  lemma ProbeAcceptsEveryHealthReply(loaded: set<string>)
    ensures ServerStatus.CheckServerStatus(ServerStatus.Responded(true, HealthBodyOf(InferenceServer.HealthCheck(loaded))))
  {
  }

  /** The picker offers exactly the models the server is configured to load, in the same order. */
  lemma PickerOffersTheConfiguredModels()
    ensures ModelSelector.Values() == InferenceServer.ConfiguredModels
  {
    var v := ModelSelector.Values();
    assert v[0] == InferenceServer.Bart && v[1] == InferenceServer.T5;
    assert v[2] == InferenceServer.FlanT5 && v[3] == InferenceServer.Pegasus;
  }

  /** Every value the picker offers is a non-empty name. */
  lemma PickerValuesAreNonEmpty(v: string)
    requires v in ModelSelector.Values()
    ensures v != ""
  {
    var vs := ModelSelector.Values();
    assert vs[0] != "" && vs[1] != "" && vs[2] != "" && vs[3] != "";
  }

  /** A picked model is the only one asked, and the request is refused exactly when it is not loaded. */
  lemma PickedModelAlone(loadOrder: seq<string>, models: map<string, InferenceServer.ModelConfig>,
                         tokenizers: set<string>, request: InferenceServer.QuestionRequest,
                         v: string, generate: InferenceServer.Generator)
    requires forall n :: n in models <==> n in loadOrder
    requires models != map[]
    requires request.models == Some([v])
    ensures var r := InferenceServer.Respond(loadOrder, models, tokenizers, request, generate);
      && (r.HttpError? <==> v !in models)
      && (r.HttpError? ==> r.status == 400)
      && (r.Answered? ==> |r.answers| == 1 && r.answers[0].modelName == v)
  {
    assert InferenceServer.SelectedModels(request.models, loadOrder) == [v];
  }

  /**
   * A question sent with the picker's report as its model list is refused only
   * when the picked model is not loaded; with nothing picked, every loaded model answers.
   */
  lemma PickedModelIsRefusedOnlyWhenUnloaded(loadOrder: seq<string>, models: map<string, InferenceServer.ModelConfig>,
                                             tokenizers: set<string>, question: string,
                                             parameters: Option<InferenceServer.RequestParameters>,
                                             selected: Option<string>, generate: InferenceServer.Generator)
    requires forall n :: n in models <==> n in loadOrder
    requires models != map[]
    requires selected.None? || selected.value in ModelSelector.Values()
    ensures var r := InferenceServer.Respond(loadOrder, models, tokenizers,
                       InferenceServer.QuestionRequest(question, Some(ModelSelector.Reported(selected)), parameters), generate);
      && (r.HttpError? <==> selected.Some? && selected.value !in models)
      && (r.HttpError? ==> r.status == 400)
      && (r.Answered? && selected.Some? ==> |r.answers| == 1 && r.answers[0].modelName == selected.value)
      && (r.Answered? && selected.None? ==> |r.answers| == |loadOrder|)
  {
    var request := InferenceServer.QuestionRequest(question, Some(ModelSelector.Reported(selected)), parameters);
    if selected.Some? {
      PickerValuesAreNonEmpty(selected.value);
      PickedModelAlone(loadOrder, models, tokenizers, request, selected.value, generate);
    } else {
      InferenceServer.DefaultSelectsAllLoaded(loadOrder, models, tokenizers, request, generate);
    }
  }

  /** The bubbles of a new chat's messages: the question as the user's, each answer as its model's. */
  lemma InitialMessagesRender(body: ChatsRoute.CreateChatBody, chatId: nat, firstId: nat, now: Timestamp)
    ensures var ms := ChatsRoute.InitialMessages(body, chatId, firstId, now);
      var answers := body.answers.GetOr([]);
      && ChatComponent.EntryFor(ms[0]).isUser
      && ChatComponent.EntryFor(ms[0]).sender == ChatComponent.YouLabel
      && ChatComponent.EntryFor(ms[0]).content == body.firstMessage
      && (forall i :: 0 <= i < |answers| ==>
            && !ChatComponent.EntryFor(ms[1 + i]).isUser
            && ChatComponent.EntryFor(ms[1 + i]).content == answers[i].content
            && ChatComponent.EntryFor(ms[1 + i]).sender == answers[i].modelUsed)
  {
    ChatComponent.RolesClassify();
  }

  /** A successful POST stores the new chat last, with an id no other stored chat has. */
  lemma CreatedChatIsStoredLast(store: ChatsRoute.Store, userId: Option<string>,
                                body: ChatsRoute.CreateChatBody, now: Timestamp)
    requires ChatsRoute.ValidStore(store)
    requires ChatsRoute.Authenticated(userId)
    ensures var chats := ChatsRoute.CreateChat(store, userId, Some(body), now, true).store.chats;
      && |chats| == |store.chats| + 1
      && ChatComponent.DistinctIds(chats)
      && chats[|store.chats|].id == store.nextChatId
      && chats[|store.chats|].messages == ChatsRoute.InitialMessages(body, store.nextChatId, store.nextMessageId, now)
  {
    var created := ChatsRoute.CreateChat(store, userId, Some(body), now, true);
    var chats := created.store.chats;
    var n := |store.chats|;
    forall i, j | 0 <= i < j < |chats| ensures chats[i].id != chats[j].id {
      if j == n {
        assert chats[i] == store.chats[i];
      }
    }
  }

  /**
   * After a chat is created, viewing it by its id shows the question first, labelled
   * "You", and then each stored answer in order, labelled with its model.
   */
  lemma CreatedChatShowsQuestionThenAnswers(store: ChatsRoute.Store, userId: Option<string>,
                                            body: ChatsRoute.CreateChatBody, now: Timestamp)
    requires ChatsRoute.ValidStore(store)
    requires ChatsRoute.Authenticated(userId)
    ensures var created := ChatsRoute.CreateChat(store, userId, Some(body), now, true);
      var v := ChatComponent.Render(created.store.chats, Some(DecimalString(store.nextChatId)));
      var answers := body.answers.GetOr([]);
      && v.Thread?
      && |v.entries| == 1 + |answers|
      && v.entries[0].isUser && v.entries[0].sender == ChatComponent.YouLabel
      && v.entries[0].content == body.firstMessage
      && (forall i :: 0 <= i < |answers| ==>
            && !v.entries[1 + i].isUser
            && v.entries[1 + i].content == answers[i].content
            && v.entries[1 + i].sender == answers[i].modelUsed)
  {
    var chats := ChatsRoute.CreateChat(store, userId, Some(body), now, true).store.chats;
    CreatedChatIsStoredLast(store, userId, body, now);
    ChatComponent.RenderShowsTheChatWithThatId(chats, |store.chats|);
    InitialMessagesRender(body, store.nextChatId, store.nextMessageId, now);
  }
}
