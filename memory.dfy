/**
 * agent/memory/conversation.py: an append-only message log and its
 * rendering into the `{"role", "content"}` list of the chat API.
 */
module Memory {
  import opened Wrappers
  import opened Types

  /** `{"role": m.role, "content": m.content}`. */
  datatype ChatMessage = ChatMessage(role: string, content: string)

  class ConversationMemory {
    var messages: seq<Message>

    constructor ()
      ensures messages == []
    {
      messages := [];
    }

    /**
     * Appends one message; `None` tool calls or citations become empty lists.
     * A role outside the four literals makes the `Message` constructor raise,
     * and then nothing is appended.
     */
    method Add(role: string, content: string, toolCalls: Option<seq<ToolCall>>, citations: Option<seq<Citation>>)
      returns (accepted: bool)
      modifies this
      ensures accepted <==> ParseRole(role).Some?
      ensures accepted ==>
        messages == old(messages) + [Message(ParseRole(role).value, content, toolCalls.GetOr([]), citations.GetOr([]))]
      ensures !accepted ==> messages == old(messages)
      ensures accepted ==> GetOpenAIFormat() == old(GetOpenAIFormat()) + [ChatMessage(role, content)]
    {
      var parsed := ParseRole(role);
      if parsed.None? {
        return false;
      }
      ParseRoleRoundTrip(parsed.value, role);
      messages := messages + [Message(parsed.value, content, toolCalls.GetOr([]), citations.GetOr([]))];
      accepted := true;
    }

    /** One `{role, content}` pair per message, in order; tool calls and citations are dropped. */
    function GetOpenAIFormat(): (r: seq<ChatMessage>)
      reads this
      ensures |r| == |messages|
      ensures forall i :: 0 <= i < |messages| ==>
        r[i].content == messages[i].content && ParseRole(r[i].role) == Some(messages[i].role)
    {
      seq(|messages|, i reads this requires 0 <= i < |messages| =>
        ChatMessage(RoleName(messages[i].role), messages[i].content))
    }
  }
}
