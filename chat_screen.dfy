/** The native chat screen: a selected conversation, its messages and the text being typed.
    Sending appends the typed text as the user's next message and clears the input, unless the
    text is blank; selecting another conversation reloads the initial messages. */
module ChatScreen {
  import opened Wrappers
  import opened Chat

  /** The screen's initial messages; their timestamps count back from `loadTime`, the moment
      the module was loaded. */
  function InitialMessages(loadTime: int): (r: seq<Message>)
    ensures WellNumbered(r)
  {
    var r := [ Message("m1", "Hey everyone, super excited for Neon Nights!", Other,
                       Some("https://picsum.photos/seed/userA/40/40"), Some("User A"), loadTime - 1000 * 60 * 5),
               Message("m2", "Me too! Is anyone carpooling?", User, None, None, loadTime - 1000 * 60 * 3),
               Message("m3", "I might have space for 2 more people, leaving from downtown.", Other,
                       Some("https://picsum.photos/seed/userB/40/40"), Some("User B"), loadTime - 1000 * 60 * 1) ];
    assert MessageId(1) == "m1" && MessageId(2) == "m2" && MessageId(3) == "m3";
    r
  }

  /** The `selectedChat`, `messages` and `newMessage` state. */
  class Screen {
    const loadTime: int
    var selectedChat: Option<ChatInfo>
    var messages: seq<Message>
    var newMessage: string

    /** Message ids follow the positions. */
    ghost predicate Valid()
      reads this
    {
      WellNumbered(messages)
    }

    constructor (loadTime: int)
      ensures Valid()
      ensures this.loadTime == loadTime && selectedChat == Some(DummyChats()[0])
      ensures messages == InitialMessages(loadTime) && newMessage == ""
    {
      this.loadTime := loadTime;
      selectedChat := Some(DummyChats()[0]);
      messages := InitialMessages(loadTime);
      newMessage := "";
    }

    /** `onChangeText={setNewMessage}`. */
    method TypeText(text: string)
      modifies this
      ensures newMessage == text && messages == old(messages) && selectedChat == old(selectedChat)
    {
      newMessage := text;
    }

    /** The send button's `disabled` condition, the same test as the send guard. */
    function SendDisabled(): (r: bool)
      reads this
      ensures r <==> SendBlocked(newMessage)
    {
      SendBlocked(newMessage)
    }

    /** `handleSendMessage`, with `now` the clock value of `new Date()`. */
    method HandleSendMessage(now: int)
      requires Valid()
      modifies this
      ensures Valid()
      ensures selectedChat == old(selectedChat)
      ensures old(SendDisabled()) ==> messages == old(messages) && newMessage == old(newMessage)
      ensures !old(SendDisabled()) ==> messages == AppendUserMessage(old(messages), old(newMessage), now)
                                       && newMessage == ""
    {
      if SendBlocked(newMessage) {
        return;
      }
      messages := AppendUserMessage(messages, newMessage, now);
      newMessage := "";
    }

    /** Pressing a conversation: `setSelectedChat(item)`. The effect keyed on `selectedChat`
        then resets the messages, but only when the selection actually changed; pressing the
        conversation already selected leaves everything as it is. */
    method SelectChat(chat: ChatInfo)
      requires Valid()
      modifies this
      ensures Valid()
      ensures selectedChat == Some(chat) && newMessage == old(newMessage)
      ensures old(selectedChat) != Some(chat) ==> messages == InitialMessages(loadTime)
      ensures old(selectedChat) == Some(chat) ==> messages == old(messages)
    {
      if selectedChat != Some(chat) {
        selectedChat := Some(chat);
        messages := InitialMessages(loadTime);
      }
    }
  }
}
