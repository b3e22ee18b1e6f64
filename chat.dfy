/** What the two chat views share: the message record, the `m1`, `m2`, ... numbering that
    `handleSendMessage` assigns, the sample chats and the whitespace guard on sending. */
module Chat {
  import opened Wrappers
  import opened Strings

  datatype Sender = User | Other

  /** A chat message; the timestamp is an abstract millisecond count. */
  datatype Message = Message(
    id: string,
    text: string,
    sender: Sender,
    avatarUrl: Option<string>,
    userName: Option<string>,
    timestamp: int)

  /** A conversation in the chat list. */
  datatype ChatInfo = ChatInfo(id: string, name: string, lastMessage: string, unread: int)

  /** The sample conversations (the same three in both views). */
  function DummyChats(): seq<ChatInfo> {
    [ ChatInfo("chat1", "Neon Nights Fest Crew", "Can't wait for tonight!", 2),
      ChatInfo("chat2", "Tech Meetup Folks", "Anyone has the slides?", 0),
      ChatInfo("chat3", "Alex Johnson", "Hey, are you going to the...", 1) ]
  }

  /** The id `m${n}`: an `m`, then decimal digits that read back as `n`. */
  function MessageId(n: nat): (r: string)
    ensures |r| > 1 && r[0] == 'm'
    ensures forall i :: 1 <= i < |r| ==> IsDigit(r[i])
    ensures ParseDigits(r[1..]) == n
  {
    ParseNatToString(n);
    var r := "m" + NatToString(n);
    assert r[1..] == NatToString(n);
    r
  }

  /** The message at position `i` carries the id `m{i+1}`. */
  ghost predicate WellNumbered(ms: seq<Message>) {
    forall i :: 0 <= i < |ms| ==> ms[i].id == MessageId(i + 1)
  }

  /** In a well-numbered list the ids are pairwise distinct, so they work as list keys. */
  lemma WellNumberedDistinct(ms: seq<Message>)
    requires WellNumbered(ms)
    ensures forall i, j :: 0 <= i < j < |ms| ==> ms[i].id != ms[j].id
  {
  }

  /** `newMessage.trim() === ''`: the send guard, which is also the disabled condition
      `!newMessage.trim()` of the send button. It holds exactly for text made only of
      whitespace, including the empty text. */
  function SendBlocked(text: string): (r: bool)
    ensures r <==> IsBlank(text)
  {
    TrimEmptyIffBlank(text);
    Trim(text) == ""
  }

  /** The message a successful send appends to a list of `count` messages: typed by the user,
      untrimmed, with no avatar or name, under the next number. */
  function UserMessage(count: nat, text: string, now: int): Message {
    Message(MessageId(count + 1), text, User, None, None, now)
  }

  /** Appending the user's message to a well-numbered list keeps it well numbered and leaves
      the earlier messages in place. */
  function AppendUserMessage(ms: seq<Message>, text: string, now: int): (r: seq<Message>)
    ensures |r| == |ms| + 1 && r[..|ms|] == ms
    ensures r[|ms|].id == MessageId(|ms| + 1)
    ensures r[|ms|].text == text && r[|ms|].sender == User && r[|ms|].timestamp == now
    ensures WellNumbered(ms) ==> WellNumbered(r)
  {
    var r := ms + [UserMessage(|ms|, text, now)];
    assert r[..|ms|] == ms;
    r
  }
}
