/**
 * What the two chat screens share: a message list and the rule for sending
 * the user's typed text.
 */
module Chat {
  import Text

  datatype Sender = Agent | Driver | User

  datatype ChatMessage = ChatMessage(sender: Sender, text: string)

  /** The history after the user sends `message`: its trimmed text is appended unless it is blank. */
  function AfterSend(history: seq<ChatMessage>, message: string): seq<ChatMessage>
  {
    if Text.Trim(message) != "" then history + [ChatMessage(User, Text.Trim(message))] else history
  }

  /** A blank or white-space-only message leaves the history as it was. */
  lemma BlankMessageIgnored(history: seq<ChatMessage>, message: string)
    requires Text.Blank(message)
    ensures AfterSend(history, message) == history
  {
    Text.TrimEmptyIffBlank(message);
  }

  /**
   * Any other message adds exactly one entry, at the end and from the user,
   * whose text is non-empty and neither starts nor ends with white space;
   * the earlier entries keep their order and values.
   */
  lemma SendAppendsTrimmed(history: seq<ChatMessage>, message: string)
    requires !Text.Blank(message)
    ensures var r := AfterSend(history, message);
            && |r| == |history| + 1
            && r[..|history|] == history
            && r[|history|].sender == User
            && r[|history|].text == Text.Trim(message)
            && r[|history|].text != ""
            && !Text.IsWhitespace(r[|history|].text[0])
            && !Text.IsWhitespace(r[|history|].text[|r[|history|].text| - 1])
  {
    Text.TrimEmptyIffBlank(message);
    Text.TrimIdempotent(message);
  }

  /** The input box after a send: cleared when the message went out, kept otherwise. */
  function MessageAfterSend(message: string): string
  {
    if Text.Trim(message) != "" then "" else message
  }
}
