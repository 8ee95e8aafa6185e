/** The support chat: the canned opening exchange and the user's send. */
module ChatSupport {
  import opened Chat
  import Text

  const InitialHistory: seq<ChatMessage> := [
    ChatMessage(Agent, "Hi there! How can I help you today?"),
    ChatMessage(User, "I need to reschedule my ride."),
    ChatMessage(Agent, "No problem! Can you please provide your ride ID or the date of the ride?")
  ]

  class ChatSupportScreen {
    var message: string
    var chatHistory: seq<ChatMessage>

    /** The history opens with agent, user, agent; the input is empty. */
    constructor ()
      ensures message == "" && chatHistory == InitialHistory
      ensures |chatHistory| == 3 && chatHistory[0].sender == Agent && chatHistory[1].sender == User && chatHistory[2].sender == Agent
    {
      message := "";
      chatHistory := InitialHistory;
    }

    /** `handleSendMessage()`, the user's part (the delayed canned reply is not modelled). */
    method SendMessage()
      modifies this
      ensures chatHistory == AfterSend(old(chatHistory), old(message))
      ensures message == MessageAfterSend(old(message))
    {
      var trimmed := Text.Trim(message);
      if trimmed != "" {
        chatHistory := chatHistory + [ChatMessage(User, trimmed)];
        message := "";
      }
    }
  }
}
