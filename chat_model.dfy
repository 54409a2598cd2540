/**
 * The chat document: a titled, ordered transcript of turns owned by one user's
 * e-mail address, with the schema's enum, required fields and defaults.
 */
module ChatModel {
  import opened Wrappers

  /** A point in time, in milliseconds since the epoch. */
  type Date = int

  type ChatId = string

  /** The three senders the schema's enum admits. */
  datatype Sender = User | Ai | System

  datatype Turn = Turn(sender: Sender, message: string, createdAt: Date)

  datatype Chat = Chat(timestamp: Date, email: string, name: Option<string>, convo: seq<Turn>)

  /** The sender as it is stored. */
  function SenderName(s: Sender): string
  {
    match s
    case User => "user"
    case Ai => "ai"
    case System => "system"
  }

  /** The enum validator: a stored sender string is accepted only if it is one of the three names. */
  function ParseSender(name: string): (r: Option<Sender>)
  {
    if name == "user" then Some(User)
    else if name == "ai" then Some(Ai)
    else if name == "system" then Some(System)
    else None
  }

  /** Every sender survives storage, and the validator accepts nothing but the three names. */
  lemma SenderRoundTrip(s: Sender, name: string)
    ensures ParseSender(SenderName(s)) == Some(s)
    ensures ParseSender(name) == Some(s) <==> name == SenderName(s)
  {
  }

  /**
   * A turn the schema accepts: `message` is a required string, and a required
   * string validator rejects the empty string.
   */
  predicate ValidTurn(t: Turn)
  {
    t.message != ""
  }

  /** A chat the schema accepts: `email` is required and every turn is valid. */
  predicate ValidChat(c: Chat)
  {
    && c.email != ""
    && forall i :: 0 <= i < |c.convo| ==> ValidTurn(c.convo[i])
  }

  /** `new Chat({email, name, convo: []})`: the timestamp defaults to the creation time. */
  function NewChat(email: string, name: Option<string>, now: Date): (c: Chat)
    ensures c.convo == [] && c.timestamp == now
    ensures ValidChat(c) <==> email != ""
  {
    Chat(now, email, name, [])
  }

  /** Pushing a turn onto the end of the transcript; earlier turns are kept as they were. */
  function Push(c: Chat, t: Turn): (r: Chat)
    ensures |r.convo| == |c.convo| + 1 && r.convo[..|c.convo|] == c.convo && r.convo[|c.convo|] == t
    ensures r.timestamp == c.timestamp && r.email == c.email && r.name == c.name
    ensures ValidChat(r) <==> ValidChat(c) && ValidTurn(t)
  {
    c.(convo := c.convo + [t])
  }
}
