/**
 * The message record shown in the conversation (ChatMessageModel): a role, the
 * text and the moment it was created. The only derived member is IsUser.
 */
module ChatMessages {

  /** A point in time (a DateTime); the model never inspects it. */
  datatype Instant = Instant(ticks: int)

  const UserRole: string := "user"
  const AssistantRole: string := "assistant"

  datatype ChatMessage = ChatMessage(role: string, content: string, timestamp: Instant)
  {
    /** A message belongs to the user exactly when its role is "user". */
    predicate IsUser()
      ensures IsUser() ==> role != AssistantRole
    {
      role == UserRole
    }
  }

  /**
   * IsUser compares the role ordinally: only the exact text "user" qualifies, not
   * another case or padding, and never an assistant message.
   */
  lemma IsUserIsOrdinal(content: string, at: Instant)
    ensures ChatMessage("user", content, at).IsUser()
    ensures !ChatMessage("User", content, at).IsUser()
    ensures !ChatMessage("user ", content, at).IsUser()
    ensures !ChatMessage(AssistantRole, content, at).IsUser()
  {
    assert "User"[0] != "user"[0];
  }

  /** The message the view model records for what the user typed. */
  function UserMessage(content: string, at: Instant): (m: ChatMessage)
    ensures m.IsUser() && m.role == UserRole
    ensures m.content == content && m.timestamp == at
  {
    ChatMessage(UserRole, content, at)
  }

  /** The message the view model records for the assistant's reply. */
  function AssistantMessage(content: string, at: Instant): (m: ChatMessage)
    ensures !m.IsUser() && m.role == AssistantRole
    ensures m.content == content && m.timestamp == at
  {
    ChatMessage(AssistantRole, content, at)
  }
}
