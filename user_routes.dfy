/**
 * The read-only user routes: the user's profile with its symptoms flattened to a
 * list, the symptom report for a time window, and the transcript rendering the
 * health summary is generated from.
 */
module UserRoutes {
  import opened Wrappers
  import opened Text
  import opened ChatModel
  import opened UserModel
  import opened SymptomHistory
  import opened Store
  import opened Prompting

  // ---------------------------------------------------------------------------
  // GET /users/:userId

  /** A value of the stored symptoms object: an array of dates, or a lone date. */
  datatype StoredDates = DateArray(dates: seq<Date>) | SingleDate(date: Date)

  datatype RawSymptom = RawSymptom(symptom: string, value: StoredDates)

  /** `Array.isArray(dates) ? dates : [dates]` */
  function AsArray(v: StoredDates): (dates: seq<Date>)
    ensures v.DateArray? ==> dates == v.dates
    ensures v.SingleDate? ==> dates == [v.date]
  {
    match v
    case DateArray(ds) => ds
    case SingleDate(d) => [d]
  }

  /**
   * The symptoms of a user document read as a plain object: one `{symptom, dates}`
   * per entry in order, a lone date wrapped in a list, and no symptoms when the
   * field is absent.
   */
  function FlattenSymptoms(raw: Option<seq<RawSymptom>>): (s: Symptoms)
    ensures raw.None? ==> s == []
    ensures raw.Some? ==> |s| == |raw.value|
    ensures raw.Some? ==> forall i :: 0 <= i < |s| ==>
              s[i].symptom == raw.value[i].symptom && s[i].dates == AsArray(raw.value[i].value)
  {
    match raw
    case None => []
    case Some(entries) => Map((e: RawSymptom) => SymptomEntry(e.symptom, AsArray(e.value)), entries)
  }

  /** How the schema stores a symptoms map: every value an array of dates. */
  function Stored(s: Symptoms): (raw: seq<RawSymptom>)
    ensures |raw| == |s|
    ensures forall i :: 0 <= i < |s| ==> raw[i] == RawSymptom(s[i].symptom, DateArray(s[i].dates))
  {
    Map((e: SymptomEntry) => RawSymptom(e.symptom, DateArray(e.dates)), s)
  }

  /** Flattening what the schema stored gives the symptoms back unchanged. */
  lemma FlattenStoredRoundTrip(s: Symptoms)
    ensures FlattenSymptoms(Some(Stored(s))) == s
  {
    var r := FlattenSymptoms(Some(Stored(s)));
    assert forall i :: 0 <= i < |s| ==> r[i] == s[i];
  }

  /** The user as the profile route returns it: everything but the password. */
  datatype UserView = UserView(
    name: string,
    email: string,
    age: int,
    cycleType: CycleType,
    createdAt: Date,
    symptoms: Symptoms)

  /** `GET /users/:userId`: 404 for an unknown user, otherwise the profile without the password. */
  function GetUser(users: map<UserId, UserRecord>, id: UserId): (r: Result<UserView, HttpError>)
    ensures id !in users ==> r == Failure(UserNotFound)
    ensures id in users ==>
              && r.Success?
              && r.value.symptoms == users[id].symptoms
              && r.value.name == users[id].name && r.value.email == users[id].email
              && r.value.age == users[id].age && r.value.cycleType == users[id].cycleType
              && r.value.createdAt == users[id].createdAt
  {
    if id !in users then Failure(UserNotFound)
    else
      var u := users[id];
      FlattenStoredRoundTrip(u.symptoms);
      Success(UserView(u.name, u.email, u.age, u.cycleType, u.createdAt, FlattenSymptoms(Some(Stored(u.symptoms)))))
  }

  // ---------------------------------------------------------------------------
  // GET /users/:userId/symptoms

  /**
   * `GET /users/:userId/symptoms?filter=`: 404 for an unknown user, otherwise the
   * symptoms reported after the cutoff the filter selects. `monthAgo` and
   * `weekAgo` are the two instants the handler computes from the clock.
   */
  function SymptomsReport(users: map<UserId, UserRecord>, id: UserId, filter: string, monthAgo: Date, weekAgo: Date)
    : (r: Result<seq<SymptomCount>, HttpError>)
    ensures id !in users ==> r == Failure(UserNotFound)
    ensures id in users ==> r.Success? && |r.value| <= |users[id].symptoms|
  {
    if id !in users then Failure(UserNotFound)
    else
      var s := users[id].symptoms;
      FilterMembers(HasCount, Map(Windowed(Cutoff(filter, monthAgo, weekAgo)), s));
      Success(SymptomsInWindow(s, Cutoff(filter, monthAgo, weekAgo)))
  }

  /**
   * Each row of the report is a stored symptom, in stored order, with exactly its
   * dates after the cutoff (a month back for "month", a week back otherwise) and
   * their number; a symptom has a row exactly when it has such a date.
   */
  lemma SymptomsReportRows(users: map<UserId, UserRecord>, id: UserId, filter: string, monthAgo: Date, weekAgo: Date)
    returns (picked: seq<nat>)
    requires id in users
    ensures var rows := SymptomsReport(users, id, filter, monthAgo, weekAgo).value;
            var s := users[id].symptoms;
            var cutoff := if filter == "month" then monthAgo else weekAgo;
            && |picked| == |rows|
            && (forall j, k :: 0 <= j < k < |picked| ==> picked[j] < picked[k])
            && (forall j :: 0 <= j < |rows| ==>
                  && picked[j] < |s|
                  && rows[j].symptom == s[picked[j]].symptom
                  && rows[j].dates == Recent(s[picked[j]].dates, cutoff)
                  && rows[j].count == |rows[j].dates| > 0)
            && (forall i :: 0 <= i < |s| ==> (i in picked <==> exists d :: d in s[i].dates && d > cutoff))
  {
    picked := WindowRows(users[id].symptoms, Cutoff(filter, monthAgo, weekAgo));
  }

  // ---------------------------------------------------------------------------
  // GET /users/:userId/health-summary

  /** "User" for the user's turns and "AI" for every other sender. */
  function SenderLabel(s: Sender): string
  {
    if s == User then "User" else "AI"
  }

  /** One line of the transcript: the sender's label, ": " and the message. */
  function RenderTurn(t: Turn): string
  {
    SenderLabel(t.sender) + ": " + t.message
  }

  /** Reading a line back: whether it is the user's, and the message. */
  function ParseLine(line: string): Option<(bool, string)>
  {
    if |line| >= 6 && line[..6] == "User: " then Some((true, line[6..]))
    else if |line| >= 4 && line[..4] == "AI: " then Some((false, line[4..]))
    else None
  }

  /** A rendered line gives back the message and whether the user sent it; system turns read as the AI's. */
  lemma RenderTurnParses(t: Turn)
    ensures ParseLine(RenderTurn(t)) == Some((t.sender == User, t.message))
  {
    var line := RenderTurn(t);
    if t.sender == User {
      assert line[..6] == "User: ";
      assert line[6..] == t.message;
    } else {
      assert line[..4] == "AI: ";
      assert line[4..] == t.message;
      assert line[..4] != "User";
    }
  }

  /** One chat's transcript: its turns' lines joined with newlines. */
  function RenderChat(c: Chat): string
  {
    Join(Map(RenderTurn, c.convo), "\n")
  }

  /** The chat's lines can be split apart again when no message spans lines; a chat renders empty only when it has no turns. */
  lemma RenderChatLines(c: Chat)
    requires forall i :: 0 <= i < |c.convo| ==> '\n' !in c.convo[i].message
    ensures |c.convo| >= 1 ==> Split(RenderChat(c), '\n') == Map(RenderTurn, c.convo)
    ensures RenderChat(c) == "" <==> |c.convo| == 0
  {
    var lines := Map(RenderTurn, c.convo);
    forall i | 0 <= i < |lines|
      ensures '\n' !in lines[i]
    {
      assert lines[i] == SenderLabel(c.convo[i].sender) + ": " + c.convo[i].message;
    }
    if |c.convo| >= 1 {
      SplitJoin(lines, '\n');
      assert lines[0] != "";
    }
    JoinEmpty(lines, "\n");
  }

  const SummaryLead := "Generate a comprehensive health summary (max 150 words) of the user based on this conversation history:\n      \n"
  const SummaryTail := "\n\n      \n      Use bullet points and clear headings. Avoid medical jargon."

  /**
   * The summary prompt: each chat's transcript, the transcripts joined with ","
   * (an array interpolated into a template), inside the fixed instructions.
   */
  function SummaryPrompt(chats: seq<Chat>): (p: string)
    ensures |p| == |SummaryLead| + |Join(Map(RenderChat, chats), ",")| + |SummaryTail|
    ensures p[..|SummaryLead|] == SummaryLead
    ensures p[|p| - |SummaryTail|..] == SummaryTail
  {
    SummaryLead + Join(Map(RenderChat, chats), ",") + SummaryTail
  }

  /** The transcripts can be read back out of the summary prompt. */
  lemma SummaryPromptEmbedsHistory(chats: seq<Chat>)
    ensures var h := Join(Map(RenderChat, chats), ",");
            SummaryPrompt(chats)[|SummaryLead|..|SummaryLead| + |h|] == h
  {
  }

  /**
   * `GET /users/:userId/health-summary`: 404 for an unknown user; otherwise the
   * summary call on the prompt built from `chats`, the user's chats as the query
   * found them, answering its text or a 500 when it fails.
   */
  function HealthSummary(users: map<UserId, UserRecord>, id: UserId, chats: seq<Chat>, summarize: string -> Option<Reply>)
    : (r: Result<Option<string>, HttpError>)
    ensures id !in users ==> r == Failure(UserNotFound)
    ensures id in users ==>
              (r.Success? <==> summarize(SummaryPrompt(chats)).Some?)
              && (r.Failure? ==> r.error == HttpError(500, "Failed to generate health summary"))
    ensures id in users && r.Success? ==> r.value == summarize(SummaryPrompt(chats)).value.text
  {
    if id !in users then Failure(UserNotFound)
    else
      match summarize(SummaryPrompt(chats))
      case None => Failure(HttpError(500, "Failed to generate health summary"))
      case Some(reply) => Success(reply.text)
  }
}
