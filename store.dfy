/**
 * The two collections the server keeps, `users` and `chats`, with what the
 * schemas and the unique index on `email` guarantee of every stored document,
 * and user sign-up, the one write the user routes make.
 */
module Store {
  import opened Wrappers
  import opened ChatModel
  import opened UserModel

  /** An error response: its status code and the `error` text of its body. */
  datatype HttpError = HttpError(status: int, message: string)

  const MissingFields := HttpError(400, "Missing required fields")
  const UserNotFound := HttpError(404, "User not found")
  const ChatNotFound := HttpError(404, "Chat not found")
  const InternalError := HttpError(500, "Internal server error")
  const EmailExists := HttpError(400, "Email already exists")
  const CreateFailed := HttpError(400, "Failed to create user")

  /** The sign-up body; an absent or empty string field is "". */
  datatype SignupRequest = SignupRequest(
    name: string,
    age: Option<int>,
    email: string,
    password: string,
    cycleType: string)

  /** `menstruationCycleType || "unknown"`. */
  function CycleField(given: string): (name: string)
    ensures given != "" ==> name == given
    ensures given == "" ==> ParseCycleType(name) == Some(DefaultCycleType)
  {
    if given == "" then "unknown" else given
  }

  /**
   * The document `new User({...})` builds and whether the schema accepts it:
   * the three strings are required and non-empty, `age` is a required number and
   * the cycle type, defaulted when absent, must be one of the enum's names.
   */
  function NewUser(req: SignupRequest, now: Date): (r: Result<UserRecord, HttpError>)
    ensures r.Success? <==>
              && req.name != "" && req.email != "" && req.password != "" && req.age.Some?
              && ParseCycleType(CycleField(req.cycleType)).Some?
    ensures r.Failure? ==> r.error == CreateFailed
    ensures r.Success? ==>
              && ValidUser(r.value)
              && r.value.name == req.name && r.value.email == req.email
              && r.value.password == req.password && Some(r.value.age) == req.age
              && CycleTypeName(r.value.cycleType) == CycleField(req.cycleType)
              && r.value.createdAt == now && r.value.symptoms == []
  {
    match ParseCycleType(CycleField(req.cycleType))
    case None => Failure(CreateFailed)
    case Some(cycle) =>
      if req.name == "" || req.email == "" || req.password == "" || req.age.None? then
        Failure(CreateFailed)
      else
        CycleTypeRoundTrip(cycle, CycleField(req.cycleType));
        Success(UserRecord(req.name, req.email, req.password, req.age.value, cycle, now, []))
  }

  /** Some stored user has this address. */
  predicate EmailTaken(users: map<UserId, UserRecord>, email: string)
  {
    exists id :: id in users && users[id].email == email
  }

  ghost predicate ValidCollections(users: map<UserId, UserRecord>, chats: map<ChatId, Chat>)
  {
    && (forall id :: id in users ==> ValidUser(users[id]))
    && UniqueEmails(users)
    && (forall id :: id in chats ==> ValidChat(chats[id]))
  }

  /** Saving a chat the schema accepts keeps the collections valid. */
  lemma SaveChatKeepsValid(users: map<UserId, UserRecord>, chats: map<ChatId, Chat>, id: ChatId, c: Chat)
    requires ValidCollections(users, chats) && ValidChat(c)
    ensures ValidCollections(users, chats[id := c])
  {
  }

  /** Saving a user the schema accepts, under the same address, keeps the collections valid. */
  lemma SaveUserKeepsValid(users: map<UserId, UserRecord>, chats: map<ChatId, Chat>, id: UserId, u: UserRecord)
    requires ValidCollections(users, chats) && id in users && ValidUser(u) && u.email == users[id].email
    ensures ValidCollections(users[id := u], chats)
  {
    var m := users[id := u];
    forall a, b | a in m && b in m && a != b
      ensures m[a].email != m[b].email
    {
      assert m[a].email == users[a].email && m[b].email == users[b].email;
    }
  }

  class Database {
    var users: map<UserId, UserRecord>
    var chats: map<ChatId, Chat>

    /** Every stored document passed its schema, and no two users share an address. */
    ghost predicate Valid()
      reads this
    {
      ValidCollections(users, chats)
    }

    constructor ()
      ensures Valid() && users == map[] && chats == map[]
    {
      users := map[];
      chats := map[];
    }

    /**
     * A turn pushed onto a stored chat's transcript and the chat saved; the
     * schema's validators hold for the turn, so the save goes through.
     */
    method AppendTurn(id: ChatId, t: Turn)
      requires Valid() && id in chats && ValidTurn(t)
      modifies this`chats
      ensures Valid()
      ensures chats == old(chats)[id := Push(old(chats)[id], t)]
    {
      var c := Push(chats[id], t);
      SaveChatKeepsValid(users, chats, id, c);
      chats := chats[id := c];
    }

    /**
     * `POST /users`: validate the new document, then let the unique index refuse a
     * taken address; 201 with the stored user, or 400 with the reason and
     * nothing stored. `id` is the identifier the database assigns.
     */
    method CreateUser(req: SignupRequest, id: UserId, now: Date) returns (status: int, r: Result<UserRecord, HttpError>)
      requires Valid() && id !in users
      modifies this`users
      ensures Valid()
      ensures NewUser(req, now).Failure? ==> r == Failure(CreateFailed) && users == old(users)
      ensures NewUser(req, now).Success? && EmailTaken(old(users), req.email) ==>
                r == Failure(EmailExists) && users == old(users)
      ensures NewUser(req, now).Success? && !EmailTaken(old(users), req.email) ==>
                r == NewUser(req, now) && users == old(users)[id := r.value]
      ensures status == (if r.Success? then 201 else r.error.status)
    {
      var user := NewUser(req, now);
      if user.Failure? {
        return CreateFailed.status, Failure(CreateFailed);
      }
      if exists other :: other in users && users[other].email == req.email {
        return EmailExists.status, Failure(EmailExists);
      }
      users := users[id := user.value];
      return 201, user;
    }
  }
}
