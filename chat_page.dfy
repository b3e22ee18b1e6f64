/** The web chat page: the same send rule as the native screen, also bound to the Enter key;
    selecting a conversation does not reload the messages; avatars fall back to the first
    letters of the conversation's name. */
module ChatPage {
  import opened Wrappers
  import opened Strings
  import opened Chat

  /** The page's initial messages (no user names); timestamps count back from `loadTime`. */
  function InitialMessages(loadTime: int): (r: seq<Message>)
    ensures WellNumbered(r)
  {
    var r := [ Message("m1", "Hey everyone, super excited for Neon Nights!", Other,
                       Some("https://picsum.photos/seed/userA/40/40"), None, loadTime - 1000 * 60 * 5),
               Message("m2", "Me too! Is anyone carpooling?", User, None, None, loadTime - 1000 * 60 * 3),
               Message("m3", "I might have space for 2 more people, leaving from downtown.", Other,
                       Some("https://picsum.photos/seed/userB/40/40"), None, loadTime - 1000 * 60 * 1) ];
    assert MessageId(1) == "m1" && MessageId(2) == "m2" && MessageId(3) == "m3";
    r
  }

  /** `name.substring(0, n)`: the first `n` characters, or the whole name when it is shorter. */
  function Prefix(name: string, n: nat): (r: string)
    ensures |r| == if |name| < n then |name| else n
    ensures r == name[..|r|]
  {
    if |name| < n then name else name[..n]
  }

  /** The conversation avatar's fallback `name.substring(0, 2).toUpperCase()`: the first two
      characters upper-cased, fewer for a shorter name. */
  function AvatarFallback(name: string): (r: string)
    ensures |r| == if |name| < 2 then |name| else 2
    ensures forall i :: 0 <= i < |r| ==> r[i] == UpperChar(name[i])
  {
    Upper(Prefix(name, 2))
  }

  /** The other sender's avatar fallback `selectedChat.name.substring(0,1)`, not upper-cased. */
  function MessageAvatarFallback(name: string): (r: string)
    ensures name == [] ==> r == []
    ensures name != [] ==> r == [name[0]]
  {
    Prefix(name, 1)
  }

  /** On the sample conversations the fallbacks read "NE", "TE" and "AL". */
  lemma SampleAvatarFallbacks()
    ensures AvatarFallback(DummyChats()[0].name) == "NE"
    ensures AvatarFallback(DummyChats()[1].name) == "TE"
    ensures AvatarFallback(DummyChats()[2].name) == "AL"
  {
    assert Prefix(DummyChats()[0].name, 2) == "Ne";
    assert Prefix(DummyChats()[1].name, 2) == "Te";
    assert Prefix(DummyChats()[2].name, 2) == "Al";
  }

  /** The `selectedChat`, `messages` and `newMessage` state. */
  class Page {
    var selectedChat: ChatInfo
    var messages: seq<Message>
    var newMessage: string

    /** Message ids follow the positions. */
    ghost predicate Valid()
      reads this
    {
      WellNumbered(messages)
    }

    constructor (loadTime: int)
      ensures Valid()
      ensures selectedChat == DummyChats()[0] && messages == InitialMessages(loadTime) && newMessage == ""
    {
      selectedChat := DummyChats()[0];
      messages := InitialMessages(loadTime);
      newMessage := "";
    }

    /** `onChange={(e) => setNewMessage(e.target.value)}`. */
    method TypeText(text: string)
      modifies this
      ensures newMessage == text && messages == old(messages) && selectedChat == old(selectedChat)
    {
      newMessage := text;
    }

    /** The send button's `disabled={!newMessage.trim()}`, the same test as the send guard. */
    function SendDisabled(): (r: bool)
      reads this
      ensures r <==> SendBlocked(newMessage)
    {
      SendBlocked(newMessage)
    }

    /** `handleSendMessage`, with `now` the clock value of `new Date()`. */
    method HandleSendMessage(now: int)
      requires Valid()
      modifies this
      ensures Valid()
      ensures selectedChat == old(selectedChat)
      ensures old(SendDisabled()) ==> messages == old(messages) && newMessage == old(newMessage)
      ensures !old(SendDisabled()) ==> messages == AppendUserMessage(old(messages), old(newMessage), now)
                                       && newMessage == ""
    {
      if SendBlocked(newMessage) {
        return;
      }
      messages := AppendUserMessage(messages, newMessage, now);
      newMessage := "";
    }

    /** `onKeyPress={(e) => e.key === 'Enter' && handleSendMessage()}`: Enter sends exactly as
        the button does, every other key changes nothing. */
    method KeyPress(key: string, now: int)
      requires Valid()
      modifies this
      ensures Valid()
      ensures selectedChat == old(selectedChat)
      ensures key != "Enter" ==> messages == old(messages) && newMessage == old(newMessage)
      ensures key == "Enter" && old(SendDisabled()) ==> messages == old(messages) && newMessage == old(newMessage)
      ensures key == "Enter" && !old(SendDisabled()) ==>
                messages == AppendUserMessage(old(messages), old(newMessage), now) && newMessage == ""
    {
      if key == "Enter" {
        HandleSendMessage(now);
      }
    }

    /** `onClick={() => setSelectedChat(chat)}`: the page keeps the current messages. */
    method SelectChat(chat: ChatInfo)
      requires Valid()
      modifies this
      ensures Valid()
      ensures selectedChat == chat && messages == old(messages) && newMessage == old(newMessage)
    {
      selectedChat := chat;
    }
  }
}
