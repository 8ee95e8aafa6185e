/** The chat with the driver: the canned opening exchange and the user's send. */
module DriverChat {
  import opened Chat
  import Text

  const InitialHistory: seq<ChatMessage> := [
    ChatMessage(Driver, "Hi, I'm your driver, John. I'm about 5 minutes away."),
    ChatMessage(User, "Okay, thanks for the update!")
  ]

  class DriverChatScreen {
    var message: string
    var chatHistory: seq<ChatMessage>

    /** The history opens with driver, user; the input is empty. */
    constructor ()
      ensures message == "" && chatHistory == InitialHistory
      ensures |chatHistory| == 2 && chatHistory[0].sender == Driver && chatHistory[1].sender == User
    {
      message := "";
      chatHistory := InitialHistory;
    }

    /** `handleSendMessage()`, the user's part (the delayed canned reply is not modelled). */
    method SendMessage()
      modifies this
      ensures chatHistory == AfterSend(old(chatHistory), old(message))
      ensures message == MessageAfterSend(old(message))
    {
      var trimmed := Text.Trim(message);
      if trimmed != "" {
        chatHistory := chatHistory + [ChatMessage(User, trimmed)];
        message := "";
      }
    }
  }
}
