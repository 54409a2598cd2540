/**
 * One chat turn, `POST /generate`: validate, create the chat (recording the
 * symptom) or load it, save the user's turn, retrieve context, save a context
 * turn, build the instruction, stream the answer, and save the AI's turn once
 * the stream has ended. Both handlers are one method; `Variant` selects where
 * they differ (title, retrieval errors, context turn, instruction texts).
 */
module Generate {
  import opened Wrappers
  import opened Text
  import opened ChatModel
  import opened UserModel
  import opened SymptomHistory
  import opened Store
  import opened Rag
  import opened Prompting

  /** The request body; an absent or empty field is "". */
  datatype GenerateRequest = GenerateRequest(prompt: string, userId: UserId, chatId: ChatId)

  /**
   * The external calls of a turn. `title` is the title call, None when it throws.
   * `storeName` is how the chat's `name` field takes the route module's title,
   * which is the whole reply object rather than its text; None when the document
   * refuses it. `search` is the store's similarity search. `generate` opens the
   * answer stream, None when that call throws.
   */
  datatype Collaborators = Collaborators(
    title: TitleRequest -> Option<Reply>,
    storeName: Reply -> Option<string>,
    search: Search,
    generate: GenRequest -> Option<Stream>)

  /**
   * How a turn ends.
   * Rejected: an error response, and no chat or user was written.
   * Failed: a 500 after the chat `chatId` was written; when `written` is not
   *   empty the answer had started to stream and the connection is cut instead.
   * Completed: the whole answer was streamed and saved.
   */
  datatype TurnResult =
    | Rejected(error: HttpError)
    | Failed(chatId: ChatId, written: seq<string>)
    | Completed(chatId: ChatId, newChat: bool, retrieved: seq<string>, written: seq<string>)

  /** The chat a turn wrote to, if any. */
  function Touched(r: TurnResult): Option<ChatId>
  {
    match r
    case Rejected(_) => None
    case Failed(id, _) => Some(id)
    case Completed(id, _, _, _) => Some(id)
  }

  /**
   * The chunks a turn works with. The server handler searches for five and turns a
   * failed search into no chunks; the route module passes its service's error on.
   */
  function RetrieveForTurn(v: Variant, rag: RagService, prompt: string, search: Search): (r: Result<seq<string>, SearchError>)
    reads rag
    ensures v == ServerRoute ==> r.Success?
    ensures v == ServerRoute ==>
              r.value == (if rag.RetrieveContext(prompt, search, 5).Success? then rag.RetrieveContext(prompt, search, 5).value else [])
    ensures v == RefactoredRoute ==> r == rag.RetrieveContext(prompt, search, DefaultTopK)
  {
    if v == ServerRoute then
      match rag.RetrieveContext(prompt, search, 5)
      case Success(chunks) => Success(chunks)
      case Failure(_) => Success([])
    else rag.RetrieveContext(prompt, search)
  }

  /** The turns a completed turn appends: the user's, the context turn if any, and the AI's. */
  function Appended(v: Variant, prompt: string, chunks: seq<string>, answer: string, now: Date): (turns: seq<Turn>)
    ensures 2 <= |turns| <= 3
    ensures turns[0] == Turn(User, prompt, now)
    ensures turns[|turns| - 1] == Turn(Ai, answer, now)
    ensures |turns| == 3 <==> ContextTurnMessage(v, chunks).Some?
    ensures |turns| == 3 ==> turns[1] == Turn(System, ContextTurnMessage(v, chunks).value, now)
  {
    [Turn(User, prompt, now)] + ContextTurns(v, chunks, now) + [Turn(Ai, answer, now)]
  }

  /** The answer stream opened, ended without throwing, and gave a non-empty answer. */
  predicate StreamCompletes(stream: Option<Stream>)
  {
    stream.Some? && !stream.value.fails && Concat(WrittenTexts(stream.value.fragments)) != ""
  }

  /** What the client has been sent of an answer stream: nothing when it did not open. */
  function WrittenOf(stream: Option<Stream>): seq<string>
  {
    if stream.Some? then WrittenTexts(stream.value.fragments) else []
  }

  /** `after` is `before` with turns added at the end, none of them the AI's, and at most two. */
  predicate GrewWithoutAnswer(before: seq<Turn>, after: seq<Turn>)
  {
    && |before| <= |after| <= |before| + 2
    && after[..|before|] == before
    && forall i :: |before| <= i < |after| ==> after[i].sender != Ai
  }

  /**
   * The transcript once the user's turn and, after a successful retrieval, the
   * context turn are saved: what a turn leaves behind when the answer fails.
   */
  function Prepared(v: Variant, before: seq<Turn>, prompt: string, retrieval: Result<seq<string>, SearchError>, now: Date)
    : (convo: seq<Turn>)
    ensures GrewWithoutAnswer(before, convo)
    ensures |convo| > |before| && convo[|before|] == Turn(User, prompt, now)
  {
    var convo := before + [Turn(User, prompt, now)] + (if retrieval.Success? then ContextTurns(v, retrieval.value, now) else []);
    assert convo[..|before|] == before;
    convo
  }

  /**
   * The `name` a new chat is created with, from the title reply: its text for the
   * server handler, the reply object as the document stores it for the route
   * module. None when the document refuses it.
   */
  function StoredTitle(v: Variant, reply: Reply, storeName: Reply -> Option<string>): (name: Option<Option<string>>)
    ensures v == ServerRoute ==> name == Some(reply.text)
    ensures v == RefactoredRoute ==> (name.Some? <==> storeName(reply).Some?)
    ensures v == RefactoredRoute && name.Some? ==> name.value == storeName(reply)
  {
    if v == ServerRoute then Some(reply.text)
    else if storeName(reply).Some? then Some(storeName(reply))
    else None
  }

  /** The chat a turn continues, once it has been created or found. */
  datatype Opened = Opened(chatId: ChatId, chat: Chat)

  /**
   * The users after `key` has been recorded for `userId` with the date `now`;
   * unchanged when the key is not a legal map key.
   */
  function WithSymptom(users: map<UserId, UserRecord>, userId: UserId, key: string, now: Date): map<UserId, UserRecord>
    requires userId in users
  {
    var u := users[userId];
    if MapKeyAllowed(key) then users[userId := u.(symptoms := Record(u.symptoms, key, now))] else users
  }

  /**
   * The request passes the handler's checks: both fields are given, the user
   * exists, and either the chat exists or, for a new chat, the title call answers
   * with a title the chat can be named with.
   */
  predicate Admissible(users: map<UserId, UserRecord>, chats: map<ChatId, Chat>, v: Variant, req: GenerateRequest,
                       calls: Collaborators)
  {
    && req.prompt != "" && req.userId != "" && req.userId in users
    && (req.chatId != "" ==> req.chatId in chats)
    && (req.chatId == "" ==>
          && calls.title(TitleRequest(v, req.prompt)).Some?
          && StoredTitle(v, calls.title(TitleRequest(v, req.prompt)).value, calls.storeName).Some?)
  }

  /** A request error, answered before anything is written. */
  predicate IsRejection(r: Result<Opened, TurnResult>)
  {
    r.Failure? && r.error.Rejected?
  }

  /**
   * A new chat: ask for a title, create the chat empty under `newChatId`, then
   * record the prompt's symptom key `key` on the user, which the map refuses
   * unless `MapKeyAllowed(key)`.
   */
  method CreateChat(db: Database, v: Variant, prompt: string, key: string, userId: UserId, now: Date, newChatId: ChatId,
                    calls: Collaborators)
    returns (r: Result<Opened, TurnResult>)
    requires db.Valid() && newChatId !in db.chats && userId in db.users
    modifies db
    ensures db.Valid()
    ensures calls.title(TitleRequest(v, prompt)).None? ==> r == Failure(Rejected(InternalError))
    ensures calls.title(TitleRequest(v, prompt)).Some?
            && StoredTitle(v, calls.title(TitleRequest(v, prompt)).value, calls.storeName).None? ==>
              r == Failure(Rejected(InternalError))
    ensures r.Failure? ==> r.error == Rejected(InternalError) || r.error == Failed(newChatId, [])
    ensures IsRejection(r) ==> db.users == old(db.users) && db.chats == old(db.chats)
    ensures calls.title(TitleRequest(v, prompt)).Some?
            && StoredTitle(v, calls.title(TitleRequest(v, prompt)).value, calls.storeName).Some? ==>
              !IsRejection(r)
    ensures !IsRejection(r) ==>
              && calls.title(TitleRequest(v, prompt)).Some?
              && StoredTitle(v, calls.title(TitleRequest(v, prompt)).value, calls.storeName).Some?
              && newChatId in db.chats
              && db.chats[newChatId] == NewChat(old(db.users)[userId].email,
                   StoredTitle(v, calls.title(TitleRequest(v, prompt)).value, calls.storeName).value, now)
    ensures !IsRejection(r) ==>
              && r.Success? == MapKeyAllowed(key)
              && newChatId in db.chats && db.chats == old(db.chats)[newChatId := db.chats[newChatId]]
              && (r.Success? ==> r.value == Opened(newChatId, db.chats[newChatId]))
              && db.users == WithSymptom(old(db.users), userId, key, now)
  {
    var user := db.users[userId];
    var reply := calls.title(TitleRequest(v, prompt));
    if reply.None? {
      return Failure(Rejected(InternalError));
    }
    var name := StoredTitle(v, reply.value, calls.storeName);
    if name.None? {
      return Failure(Rejected(InternalError));
    }
    var chat := NewChat(user.email, name.value, now);
    SaveChatKeepsValid(db.users, db.chats, newChatId, chat);
    db.chats := db.chats[newChatId := chat];
    if !MapKeyAllowed(key) {
      return Failure(Failed(newChatId, []));
    }
    RecordAppendsDate(user.symptoms, key, now, key);
    var recorded := user.(symptoms := Record(user.symptoms, key, now));
    SaveUserKeepsValid(db.users, db.chats, userId, recorded);
    db.users := db.users[userId := recorded];
    return Success(Opened(newChatId, chat));
  }

  /**
   * The first half of the handler: validate the request, then either create the
   * chat or find it.
   */
  method OpenChat(db: Database, v: Variant, req: GenerateRequest, now: Date, newChatId: ChatId, calls: Collaborators)
    returns (r: Result<Opened, TurnResult>)
    requires db.Valid() && newChatId !in db.chats
    modifies db
    ensures db.Valid()
    ensures IsRejection(r) ==> db.users == old(db.users) && db.chats == old(db.chats)
    ensures r.Failure? ==> r.error.Rejected? || r.error == Failed(newChatId, [])
    ensures req.prompt == "" || req.userId == "" ==> r == Failure(Rejected(MissingFields))
    ensures req.prompt != "" && req.userId != "" && req.userId !in old(db.users) ==> r == Failure(Rejected(UserNotFound))
    ensures (req.prompt != "" && req.userId != "" && req.userId in old(db.users) && req.chatId != ""
             && req.chatId !in old(db.chats)) ==> r == Failure(Rejected(ChatNotFound))
    ensures (req.prompt != "" && req.userId != "" && req.userId in old(db.users) && req.chatId == ""
             && calls.title(TitleRequest(v, req.prompt)).None?) ==> r == Failure(Rejected(InternalError))
    ensures (req.prompt != "" && req.userId != "" && req.userId in old(db.users) && req.chatId == ""
             && calls.title(TitleRequest(v, req.prompt)).Some?
             && StoredTitle(v, calls.title(TitleRequest(v, req.prompt)).value, calls.storeName).None?) ==>
              r == Failure(Rejected(InternalError))
    ensures IsRejection(r) <==> !Admissible(old(db.users), old(db.chats), v, req, calls)
    // an existing chat: found, nothing written
    ensures req.chatId != "" && r.Success? ==>
              && req.chatId in old(db.chats) && r.value == Opened(req.chatId, old(db.chats)[req.chatId])
              && db.chats == old(db.chats) && db.users == old(db.users)
    ensures req.chatId != "" ==> r.Success? || r.error.Rejected?
    // a new chat
    ensures req.chatId == "" && !IsRejection(r) ==>
              && r.Success? == MapKeyAllowed(SymptomKey(req.prompt))
              && newChatId in db.chats && db.chats == old(db.chats)[newChatId := db.chats[newChatId]]
              && (r.Success? ==> r.value == Opened(newChatId, db.chats[newChatId]))
              && db.users == WithSymptom(old(db.users), req.userId, SymptomKey(req.prompt), now)
    ensures req.chatId == "" && !IsRejection(r) ==>
              && calls.title(TitleRequest(v, req.prompt)).Some?
              && StoredTitle(v, calls.title(TitleRequest(v, req.prompt)).value, calls.storeName).Some?
              && newChatId in db.chats
              && db.chats[newChatId] == NewChat(old(db.users)[req.userId].email,
                   StoredTitle(v, calls.title(TitleRequest(v, req.prompt)).value, calls.storeName).value, now)
  {
    if req.prompt == "" || req.userId == "" {
      return Failure(Rejected(MissingFields));
    }
    if req.userId !in db.users {
      return Failure(Rejected(UserNotFound));
    }
    if req.chatId != "" {
      if req.chatId !in db.chats {
        return Failure(Rejected(ChatNotFound));
      }
      return Success(Opened(req.chatId, db.chats[req.chatId]));
    }
    r := CreateChat(db, v, req.prompt, SymptomKey(req.prompt), req.userId, now, newChatId, calls);
  }

  /**
   * Save the user's turn, retrieve the context, and save the context turn when
   * there is one; a failed retrieval leaves only the user's turn saved.
   */
  method Prepare(db: Database, rag: RagService, v: Variant, chatId: ChatId, prompt: string, now: Date, search: Search)
    returns (retrieval: Result<seq<string>, SearchError>, history: seq<HistoryEntry>)
    requires db.Valid() && chatId in db.chats && prompt != ""
    modifies db`chats
    ensures db.Valid()
    ensures chatId in db.chats && db.chats == old(db.chats)[chatId := db.chats[chatId]]
    ensures db.chats[chatId].timestamp == old(db.chats)[chatId].timestamp
            && db.chats[chatId].email == old(db.chats)[chatId].email
            && db.chats[chatId].name == old(db.chats)[chatId].name
    ensures retrieval == RetrieveForTurn(v, rag, prompt, search)
    ensures history == History(old(db.chats)[chatId].convo + [Turn(User, prompt, now)])
    ensures db.chats[chatId].convo == Prepared(v, old(db.chats)[chatId].convo, prompt, retrieval, now)
  {
    db.AppendTurn(chatId, Turn(User, prompt, now));
    history := History(db.chats[chatId].convo);
    retrieval := RetrieveForTurn(v, rag, prompt, search);
    if retrieval.Success? {
      var contextTurns := ContextTurns(v, retrieval.value, now);
      if |contextTurns| == 1 {
        db.AppendTurn(chatId, contextTurns[0]);
      }
    }
  }

  /**
   * Open the answer stream, write its fragments out, and save the AI's turn once
   * the stream has ended with a non-empty answer. `answer` is None when the call
   * or the stream throws or the answer is empty; nothing is saved then.
   */
  method Converse(db: Database, chatId: ChatId, request: GenRequest, now: Date, generate: GenRequest -> Option<Stream>)
    returns (answer: Option<string>, written: seq<string>)
    requires db.Valid() && chatId in db.chats
    modifies db`chats
    ensures db.Valid()
    ensures answer.None? ==> db.chats == old(db.chats)
    ensures answer.Some? ==> db.chats == old(db.chats)[chatId := Push(old(db.chats)[chatId], Turn(Ai, answer.value, now))]
    ensures generate(request).None? ==> answer.None? && written == []
    ensures generate(request).Some? ==> written == WrittenTexts(generate(request).value.fragments)
    ensures answer.Some? <==> generate(request).Some? && !generate(request).value.fails && Concat(written) != ""
    ensures answer.Some? ==> answer.value == Concat(written)
  {
    var stream := generate(request);
    if stream.None? {
      return None, [];
    }
    var fullResponse;
    fullResponse, written := StreamResponse(stream.value);
    if stream.value.fails || fullResponse == "" {
      // the stream threw, or the empty answer fails the required-message validator
      return None, written;
    }
    db.AppendTurn(chatId, Turn(Ai, fullResponse, now));
    return Some(fullResponse), written;
  }

  /**
   * The second half of the handler, on a chat that exists: save the user's turn,
   * retrieve, save the context turn, send the request and stream the answer, and
   * save the AI's turn only when the stream ended and the answer is not empty.
   */
  method AnswerTurn(db: Database, rag: RagService, v: Variant, chatId: ChatId, prompt: string,
                    firstMessage: bool, now: Date, calls: Collaborators)
    returns (res: TurnResult, sent: Option<GenRequest>)
    requires db.Valid() && chatId in db.chats && prompt != ""
    modifies db`chats
    ensures db.Valid()
    ensures chatId in db.chats && db.chats == old(db.chats)[chatId := db.chats[chatId]]
    ensures res.Failed? || (res.Completed? && res.newChat == firstMessage)
    ensures res.chatId == chatId
    ensures db.chats[chatId].timestamp == old(db.chats)[chatId].timestamp
            && db.chats[chatId].email == old(db.chats)[chatId].email
            && db.chats[chatId].name == old(db.chats)[chatId].name
    ensures res.Failed? ==>
              db.chats[chatId].convo
              == Prepared(v, old(db.chats)[chatId].convo, prompt, RetrieveForTurn(v, rag, prompt, calls.search), now)
    ensures RetrieveForTurn(v, rag, prompt, calls.search).Failure? ==> res == Failed(chatId, []) && sent.None?
    ensures RetrieveForTurn(v, rag, prompt, calls.search).Success? ==>
              && sent.Some?
              && sent.value.instruction
                 == Instruction(v, firstMessage, ContextOf(RetrieveForTurn(v, rag, prompt, calls.search).value))
              && (res.Completed? <==> StreamCompletes(calls.generate(sent.value)))
              && res.written == WrittenOf(calls.generate(sent.value))
    ensures res.Completed? ==>
              db.chats[chatId].convo == old(db.chats)[chatId].convo + Appended(v, prompt, res.retrieved, Concat(res.written), now)
    ensures res.Completed? ==> Success(res.retrieved) == RetrieveForTurn(v, rag, prompt, calls.search)
    ensures res.Completed? ==> sent.Some?
    ensures sent.Some? ==>
              && sent.value.message == prompt
              && sent.value.history == History(old(db.chats)[chatId].convo + [Turn(User, prompt, now)])
    ensures res.Completed? ==>
              && sent.value.instruction == Instruction(v, firstMessage, ContextOf(res.retrieved))
              && calls.generate(sent.value).Some?
              && !calls.generate(sent.value).value.fails
              && res.written == WrittenTexts(calls.generate(sent.value).value.fragments)
              && Concat(res.written) != ""
  {
    ghost var before := db.chats[chatId].convo;
    var retrieval, history := Prepare(db, rag, v, chatId, prompt, now, calls.search);
    if retrieval.Failure? {
      return Failed(chatId, []), None;
    }
    ghost var prepared := db.chats;
    res, sent := Respond(db, v, chatId, firstMessage, retrieval.value, history, prompt, now, calls.generate);
    if res.Completed? {
      PreparedTurns(before, v, prompt, retrieval.value, now, Concat(res.written));
      UpdatedTwice(old(db.chats), prepared, db.chats, chatId);
    }
  }

  /** The turns saved before the answer, followed by the AI's turn, are the turns of a completed turn. */
  lemma PreparedTurns(before: seq<Turn>, v: Variant, prompt: string, chunks: seq<string>, now: Date, answer: string)
    ensures Prepared(v, before, prompt, Success(chunks), now) + [Turn(Ai, answer, now)]
            == before + Appended(v, prompt, chunks, answer, now)
  {
  }

  /**
   * Send the request built from the chunks and the history, stream the answer,
   * and save the AI's turn once the stream has ended with a non-empty answer.
   */
  method Respond(db: Database, v: Variant, chatId: ChatId, firstMessage: bool, chunks: seq<string>,
                 history: seq<HistoryEntry>, prompt: string, now: Date, generate: GenRequest -> Option<Stream>)
    returns (res: TurnResult, sent: Option<GenRequest>)
    requires db.Valid() && chatId in db.chats
    modifies db`chats
    ensures db.Valid()
    ensures sent == Some(GenRequest(Instruction(v, firstMessage, ContextOf(chunks)), history, prompt))
    ensures (res.Failed? || res.Completed?) && res.chatId == chatId
    ensures res.Failed? ==> db.chats == old(db.chats)
    ensures res.Completed? <==> StreamCompletes(generate(sent.value))
    ensures res.written == WrittenOf(generate(sent.value))
    ensures res.Completed? ==>
              && res.retrieved == chunks && res.newChat == firstMessage
              && db.chats == old(db.chats)[chatId := Push(old(db.chats)[chatId], Turn(Ai, Concat(res.written), now))]
              && generate(sent.value).Some?
              && !generate(sent.value).value.fails
              && res.written == WrittenTexts(generate(sent.value).value.fragments)
              && Concat(res.written) != ""
  {
    var request := GenRequest(Instruction(v, firstMessage, ContextOf(chunks)), history, prompt);
    sent := Some(request);
    var answer, written := Converse(db, chatId, request, now, generate);
    if answer.None? {
      return Failed(chatId, written), sent;
    }
    return Completed(chatId, firstMessage, chunks, written), sent;
  }

  /** Two updates of one key are one update. */
  lemma UpdatedTwice(m0: map<ChatId, Chat>, m1: map<ChatId, Chat>, m2: map<ChatId, Chat>, k: ChatId)
    requires k in m1 && m1 == m0[k := m1[k]]
    requires k in m2 && m2 == m1[k := m2[k]]
    ensures m2 == m0[k := m2[k]]
  {
  }

  /**
   * The handler. `now` is the clock for every date of the turn and `newChatId` the
   * identifier a new chat gets.
   */
  method HandleTurn(db: Database, rag: RagService, v: Variant, req: GenerateRequest, now: Date,
                    newChatId: ChatId, calls: Collaborators)
    returns (res: TurnResult, sent: Option<GenRequest>)
    requires db.Valid() && newChatId !in db.chats
    modifies db
    ensures db.Valid()
    // the error exits before any write
    ensures res.Rejected? ==> db.users == old(db.users) && db.chats == old(db.chats)
    ensures req.prompt == "" || req.userId == "" ==> res == Rejected(MissingFields)
    ensures req.prompt != "" && req.userId != "" && req.userId !in old(db.users) ==> res == Rejected(UserNotFound)
    ensures (req.prompt != "" && req.userId != "" && req.userId in old(db.users) && req.chatId != ""
             && req.chatId !in old(db.chats)) ==> res == Rejected(ChatNotFound)
    ensures (req.prompt != "" && req.userId != "" && req.userId in old(db.users) && req.chatId == ""
             && calls.title(TitleRequest(v, req.prompt)).None?) ==> res == Rejected(InternalError)
    ensures (req.prompt != "" && req.userId != "" && req.userId in old(db.users) && req.chatId == ""
             && calls.title(TitleRequest(v, req.prompt)).Some?
             && StoredTitle(v, calls.title(TitleRequest(v, req.prompt)).value, calls.storeName).None?) ==>
              res == Rejected(InternalError)
    ensures res.Rejected? <==> !Admissible(old(db.users), old(db.chats), v, req, calls)
    // only the touched chat changes, and a chat is only ever created under `newChatId`
    ensures !res.Rejected? ==>
              && res.chatId in db.chats && db.chats == old(db.chats)[res.chatId := db.chats[res.chatId]]
              && res.chatId == (if req.chatId == "" then newChatId else req.chatId)
              && (req.chatId == "" || req.chatId in old(db.chats))
    // the transcript
    ensures res.Failed? && (req.chatId != "" || MapKeyAllowed(SymptomKey(req.prompt))) ==>
              db.chats[res.chatId].convo
              == Prepared(v, if req.chatId == "" then [] else old(db.chats)[req.chatId].convo, req.prompt,
                          RetrieveForTurn(v, rag, req.prompt, calls.search), now)
    ensures res.Failed? && req.chatId == "" && !MapKeyAllowed(SymptomKey(req.prompt)) ==>
              db.chats[res.chatId].convo == []
    ensures res.Completed? ==>
              && res.newChat == (req.chatId == "")
              && db.chats[res.chatId].convo ==
                   (if req.chatId == "" then [] else old(db.chats)[req.chatId].convo)
                   + Appended(v, req.prompt, res.retrieved, Concat(res.written), now)
    // the chat's own fields: a new chat's title and creation time, an existing chat's kept
    ensures req.chatId == "" && !res.Rejected? ==>
              && calls.title(TitleRequest(v, req.prompt)).Some?
              && StoredTitle(v, calls.title(TitleRequest(v, req.prompt)).value, calls.storeName).Some?
              && db.chats[res.chatId].name
                 == StoredTitle(v, calls.title(TitleRequest(v, req.prompt)).value, calls.storeName).value
              && db.chats[res.chatId].timestamp == now
              && db.chats[res.chatId].email == old(db.users)[req.userId].email
    ensures req.chatId != "" && !res.Rejected? ==>
              && db.chats[res.chatId].name == old(db.chats)[req.chatId].name
              && db.chats[res.chatId].timestamp == old(db.chats)[req.chatId].timestamp
              && db.chats[res.chatId].email == old(db.chats)[req.chatId].email
    // the symptom event
    ensures req.chatId != "" ==> db.users == old(db.users)
    ensures req.chatId == "" && !res.Rejected? ==>
              db.users == WithSymptom(old(db.users), req.userId, SymptomKey(req.prompt), now)
    // retrieval
    ensures res.Completed? ==> Success(res.retrieved) == RetrieveForTurn(v, rag, req.prompt, calls.search)
    // what the generator is sent
    ensures res.Completed? ==> sent.Some?
    ensures sent.Some? ==>
              && (req.chatId == "" || req.chatId in old(db.chats))
              && sent.value.message == req.prompt
              && sent.value.history ==
                   History((if req.chatId == "" then [] else old(db.chats)[req.chatId].convo) + [Turn(User, req.prompt, now)])
    ensures res.Completed? ==>
              sent.value.instruction == Instruction(v, req.chatId == "", ContextOf(res.retrieved))
    // when the answer is asked for, and when it completes the turn
    ensures !res.Rejected? ==>
              (sent.Some? <==> (req.chatId != "" || MapKeyAllowed(SymptomKey(req.prompt)))
                               && RetrieveForTurn(v, rag, req.prompt, calls.search).Success?)
    ensures sent.Some? ==>
              && RetrieveForTurn(v, rag, req.prompt, calls.search).Success?
              && sent.value.instruction
                 == Instruction(v, req.chatId == "", ContextOf(RetrieveForTurn(v, rag, req.prompt, calls.search).value))
              && (res.Completed? <==> StreamCompletes(calls.generate(sent.value)))
    ensures !res.Rejected? ==> res.written == (if sent.Some? then WrittenOf(calls.generate(sent.value)) else [])
    // the stream
    ensures res.Completed? ==>
              && calls.generate(sent.value).Some?
              && !calls.generate(sent.value).value.fails
              && res.written == WrittenTexts(calls.generate(sent.value).value.fragments)
              && Concat(res.written) != ""
  {
    var found := OpenChat(db, v, req, now, newChatId, calls);
    if found.Failure? {
      return found.error, None;
    }
    var chatId := found.value.chatId;
    ghost var afterOpen := db.chats;
    res, sent := AnswerTurn(db, rag, v, chatId, req.prompt, req.chatId == "", now, calls);
    UpdatedTwice(old(db.chats), afterOpen, db.chats, chatId);
  }
}
