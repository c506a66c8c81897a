/** The helpers over a chat state's message history: the text of the latest
    user message, and the window of recent messages handed to a model. */
module ChatState {
  import opened Messages
  import opened PyText

  /** `r` is a suffix of `s`. */
  predicate IsSuffix<T(==)>(r: seq<T>, s: seq<T>) {
    |r| <= |s| && r == s[|s| - |r|..]
  }

  /** `get_last_user_message`: a scan from the newest message backwards that
      stops at the first message whose type is "human" and returns its content;
      without such a message the result is the empty string. */
  function GetLastUserMessage(messages: seq<Message>): (r: string)
    ensures forall i :: 0 <= i < |messages| && messages[i].kind == Human ==>
              (forall j :: i < j < |messages| ==> messages[j].kind != Human) ==>
              r == messages[i].content
    ensures (forall i :: 0 <= i < |messages| ==> messages[i].kind != Human) ==> r == ""
  {
    if messages == [] then ""
    else
      var last := messages[|messages| - 1];
      if TypeName(last.kind) == "human" then last.content
      else
        var earlier := messages[..|messages| - 1];
        assert forall i :: 0 <= i < |earlier| ==> earlier[i] == messages[i];
        GetLastUserMessage(earlier)
  }

  /** `get_conversation_history`: `messages[-max_messages:]` when the history is
      longer than `max_messages`, the whole history otherwise. Python reads a
      slice from `-0` as a slice from `0`, so a bound of 0 keeps everything, and
      a negative bound drops that many messages from the front. */
  function GetConversationHistory(messages: seq<Message>, maxMessages: int): (r: seq<Message>)
    ensures IsSuffix(r, messages)
    ensures |messages| <= maxMessages ==> r == messages
    ensures maxMessages >= 1 ==>
              |r| == (if |messages| < maxMessages then |messages| else maxMessages)
    ensures maxMessages == 0 ==> r == messages
    ensures maxMessages < 0 ==>
              |r| == (if -maxMessages < |messages| then |messages| + maxMessages else 0)
  {
    if |messages| > maxMessages then messages[SliceIndex(-maxMessages, |messages|)..]
    else messages
  }
}
