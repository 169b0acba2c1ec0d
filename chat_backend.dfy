/** The chat backend's in-memory message store: the Message record with its
    defaults, the canned auto-replies, the append-only store and its two
    operations, create_message and get_messages.

    The library calls the backend makes for identifiers, the clock and random
    choice are not modelled: their results for one request come in as a
    Draws value, so that every operation is deterministic. */
module ChatBackend {

  /** A chat message. The defaults are those of the request model: a client may
      omit id, timestamp and isMine, but must give text. */
  datatype Message = Message(id: string := "", text: string, timestamp: string := "", isMine: bool := true)

  /** The fixed canned replies the simulated interlocutor picks from. */
  const AutoResponses: seq<string> := [
    "Привет! Как дела?",
    "Интересно...",
    "Согласен с тобой",
    "Расскажи подробнее",
    "У меня тоже так бывает",
    "Хорошая мысль!",
    "Продолжай..."
  ]

  /** What the outside world supplies while one message is created: a fresh
      identifier and the current time for the submitted message, another fresh
      identifier and a later time for the reply, and the index of the canned
      reply chosen at random. */
  datatype Draws = Draws(freshId: string, now: string, replyId: string, replyNow: string, choice: nat)

  /** A fresh identifier is never empty (it is the text form of a UUID), the
      clock's ISO-8601 text is never empty, and a random choice picks an index
      of the canned replies. */
  predicate ValidDraws(d: Draws) {
    && d.freshId != "" && d.now != ""
    && d.replyId != "" && d.replyNow != ""
    && d.choice < |AutoResponses|
  }

  /** A message as the store holds it: with an id and a timestamp. */
  predicate Stamped(m: Message) {
    m.id != "" && m.timestamp != ""
  }

  /** A message that can stand as the simulated interlocutor's answer. */
  predicate IsAutoReply(m: Message) {
    !m.isMine && m.text in AutoResponses
  }

  /** The submitted message with its missing id and timestamp filled in. */
  function Completed(m: Message, d: Draws): (r: Message)
    requires ValidDraws(d)
    ensures Stamped(r)
    ensures r.id == (if m.id == "" then d.freshId else m.id)
    ensures r.timestamp == (if m.timestamp == "" then d.now else m.timestamp)
    ensures r.text == m.text && r.isMine == m.isMine
  {
    var withId := if m.id == "" then m.(id := d.freshId) else m;
    if withId.timestamp == "" then withId.(timestamp := d.now) else withId
  }

  /** The synthetic answer to a user's message. */
  function AutoReply(d: Draws): (r: Message)
    requires ValidDraws(d)
    ensures IsAutoReply(r) && Stamped(r)
    ensures r.id == d.replyId && r.timestamp == d.replyNow
    ensures r.text == AutoResponses[d.choice]
  {
    Message(id := d.replyId, text := AutoResponses[d.choice], timestamp := d.replyNow, isMine := false)
  }

  /** What creating message m appends to the store: the completed message and,
      when m is the user's own, one canned reply after it. */
  function Appended(m: Message, d: Draws): (r: seq<Message>)
    requires ValidDraws(d)
    ensures |r| == (if m.isMine then 2 else 1)
    ensures r[0] == Completed(m, d)
    ensures m.isMine ==> IsAutoReply(r[1]) && r[1] == AutoReply(d)
  {
    [Completed(m, d)] + if m.isMine then [AutoReply(d)] else []
  }

  /** The shape every store built by create_message has: a run of turns, each
      either one message that is not the user's, or a user's message followed
      directly by a canned reply; every message in it has an id and a
      timestamp. */
  predicate Conversation(s: seq<Message>)
    decreases |s|
  {
    if s == [] then true
    else if !Stamped(s[0]) then false
    else if !s[0].isMine then Conversation(s[1..])
    else 2 <= |s| && IsAutoReply(s[1]) && Stamped(s[1]) && Conversation(s[2..])
  }

  /** One request to create_message: the submitted message and the draws made
      while it is handled. */
  datatype Submission = Submission(message: Message, draws: Draws)

  predicate AllValid(subs: seq<Submission>) {
    forall i :: 0 <= i < |subs| ==> ValidDraws(subs[i].draws)
  }

  /** The store after the submissions are handled one after another. */
  ghost function Replay(s: seq<Message>, subs: seq<Submission>): seq<Message>
    requires AllValid(subs)
    decreases |subs|
  {
    if subs == [] then s
    else Replay(s + Appended(subs[0].message, subs[0].draws), subs[1..])
  }

  /** How many of the submissions are the user's own messages; none exactly
      when no submission is the user's. */
  ghost function UserCount(subs: seq<Submission>): (n: nat)
    ensures n <= |subs|
    ensures n == 0 <==> forall i :: 0 <= i < |subs| ==> !subs[i].message.isMine
  {
    if subs == [] then 0
    else (if subs[0].message.isMine then 1 else 0) + UserCount(subs[1..])
  }

  /** Counting user messages distributes over joining two histories. */
  lemma {:induction false} UserCountConcat(a: seq<Submission>, b: seq<Submission>)
    ensures UserCount(a + b) == UserCount(a) + UserCount(b)
    decreases |a|
  {
    if a == [] {
      assert a + b == b;
    } else {
      UserCountConcat(a[1..], b);
      assert (a + b)[1..] == a[1..] + b;
    }
  }

  /** Handling one more submission appends exactly what that call appends. */
  lemma {:induction false} ReplaySnoc(s: seq<Message>, subs: seq<Submission>, sub: Submission)
    requires AllValid(subs) && ValidDraws(sub.draws)
    ensures AllValid(subs + [sub])
    ensures Replay(s, subs + [sub]) == Replay(s, subs) + Appended(sub.message, sub.draws)
    decreases |subs|
  {
    if subs == [] {
      assert subs + [sub] == [sub];
    } else {
      assert (subs + [sub])[1..] == subs[1..] + [sub];
      ReplaySnoc(s + Appended(subs[0].message, subs[0].draws), subs[1..], sub);
    }
  }

  /** Every message in a conversation has an id and a timestamp. */
  lemma {:induction false} ConversationStamped(s: seq<Message>, i: nat)
    requires Conversation(s)
    requires i < |s|
    ensures s[i].id != "" && s[i].timestamp != ""
    decreases |s|
  {
    if i == 0 {
    } else if !s[0].isMine {
      ConversationStamped(s[1..], i - 1);
    } else if i == 1 {
    } else {
      ConversationStamped(s[2..], i - 2);
    }
  }

  /** Appending one conversation to another gives a conversation. */
  lemma {:induction false} ConversationConcat(a: seq<Message>, b: seq<Message>)
    requires Conversation(a) && Conversation(b)
    ensures Conversation(a + b)
    decreases |a|
  {
    if a == [] {
      assert a + b == b;
    } else if !a[0].isMine {
      ConversationConcat(a[1..], b);
      assert (a + b)[1..] == a[1..] + b;
    } else {
      ConversationConcat(a[2..], b);
      assert (a + b)[2..] == a[2..] + b;
    }
  }

  /** In a conversation every message of the user is directly followed by a
      canned reply. */
  lemma {:induction false} UserMessageAnswered(s: seq<Message>, i: nat)
    requires Conversation(s)
    requires i < |s| && s[i].isMine
    ensures i + 1 < |s| && IsAutoReply(s[i + 1])
    decreases |s|
  {
    if i == 0 {
    } else if !s[0].isMine {
      UserMessageAnswered(s[1..], i - 1);
    } else {
      assert i != 1;
      UserMessageAnswered(s[2..], i - 2);
    }
  }

  /** Handling submissions only appends: the old store is a prefix of the new. */
  lemma {:induction false} ReplayPrefix(s: seq<Message>, subs: seq<Submission>)
    requires AllValid(subs)
    ensures s <= Replay(s, subs)
    decreases |subs|
  {
    if subs != [] {
      var s' := s + Appended(subs[0].message, subs[0].draws);
      ReplayPrefix(s', subs[1..]);
    }
  }

  /** Each submission adds one message, and each of the user's own adds one more:
      a message that is not the user's never triggers a reply. */
  lemma {:induction false} ReplayLength(s: seq<Message>, subs: seq<Submission>)
    requires AllValid(subs)
    ensures |Replay(s, subs)| == |s| + |subs| + UserCount(subs)
    decreases |subs|
  {
    if subs != [] {
      ReplayLength(s + Appended(subs[0].message, subs[0].draws), subs[1..]);
    }
  }

  /** What one call of create_message appends is a conversation on its own. */
  lemma AppendedConversation(m: Message, d: Draws)
    requires ValidDraws(d)
    ensures Conversation(Appended(m, d))
  {
  }

  /** Handling submissions keeps the store a conversation. */
  lemma {:induction false} ReplayConversation(s: seq<Message>, subs: seq<Submission>)
    requires AllValid(subs)
    requires Conversation(s)
    ensures Conversation(Replay(s, subs))
    decreases |subs|
  {
    if subs != [] {
      var added := Appended(subs[0].message, subs[0].draws);
      AppendedConversation(subs[0].message, subs[0].draws);
      ConversationConcat(s, added);
      ReplayConversation(s + added, subs[1..]);
    }
  }

  /** A message completed once has an id and a timestamp, so submitting it
      again leaves both as they are. */
  lemma CompletedIdempotent(m: Message, d: Draws, d': Draws)
    requires ValidDraws(d) && ValidDraws(d')
    ensures Completed(Completed(m, d), d') == Completed(m, d)
  {
  }

  /** A client that sends only a text gets a message with the drawn id and time,
      sent as the user's own, and a canned reply right after it. */
  lemma TextOnlySubmission(text: string, d: Draws)
    requires ValidDraws(d)
    ensures Appended(Message(text := text), d)
         == [Message(d.freshId, text, d.now, true), AutoReply(d)]
  {
  }

  /** The message store: one list shared by all requests, only ever appended to. */
  class MessageStore {
    var messages: seq<Message>
    /** The submissions handled so far, in order. */
    ghost var history: seq<Submission>

    /** The store is what handling its history from the empty list gives. */
    ghost predicate Valid()
      reads this
    {
      && AllValid(history)
      && messages == Replay([], history)
      && Conversation(messages)
    }

    constructor ()
      ensures Valid() && messages == [] && history == []
    {
      messages := [];
      history := [];
    }

    /** get_messages: the stored messages in the order they were added. */
    method GetMessages() returns (r: seq<Message>)
      ensures r == messages
    {
      r := messages;
    }

    /** create_message: fill in a missing id and timestamp, store the message,
        store a canned reply after it when it is the user's own, and return the
        stored message. */
    method CreateMessage(message: Message, d: Draws) returns (r: Message)
      requires Valid() && ValidDraws(d)
      modifies this
      ensures Valid()
      ensures history == old(history) + [Submission(message, d)]
      ensures r == Completed(message, d)
      ensures messages == old(messages) + Appended(message, d)
      ensures old(messages) <= messages
      ensures |messages| == |old(messages)| + (if message.isMine then 2 else 1)
      ensures messages[|old(messages)|] == r
      ensures message.isMine ==> messages[|old(messages)| + 1] == AutoReply(d)
    {
      r := message;
      if r.id == "" {
        r := r.(id := d.freshId);
      }
      if r.timestamp == "" {
        r := r.(timestamp := d.now);
      }
      messages := messages + [r];
      if r.isMine {
        var reply := Message(id := d.replyId, text := AutoResponses[d.choice], timestamp := d.replyNow, isMine := false);
        messages := messages + [reply];
      }
      assert messages == old(messages) + Appended(message, d);
      AppendedConversation(message, d);
      ConversationConcat(old(messages), Appended(message, d));
      ReplaySnoc([], history, Submission(message, d));
      history := history + [Submission(message, d)];
    }
  }
}
