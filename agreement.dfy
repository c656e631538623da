/** How the web chat's answer extraction and the script's agent reply relate:
    they agree when a run has one assistant message carrying a text value,
    and part ways when there are several (the web chat reads the first that
    stops its scan, the script reads the last). */
module Agreement {
  import opened Common
  import opened Payload
  import WebChat
  import Script

  /** An assistant message whose first content item is `{"text": {"value": v}}`. */
  function TextMessage(v: string): Message {
    Message(Some("assistant"), Some([ContentMap(Some(TextMap(Some(v), v)), v)]))
  }

  /** With a single assistant message carrying a text value, both show it. */
  lemma {:induction false} OneAssistantAgreement(pre: seq<Message>, v: string, post: seq<Message>)
    requires forall j :: 0 <= j < |pre| ==> !IsAssistant(pre[j])
    requires forall j :: 0 <= j < |post| ==> !IsAssistant(post[j])
    ensures WebChat.AnswerFrom(pre + [TextMessage(v)] + post) == v
    ensures Script.AgentReplyOf(pre + [TextMessage(v)] + post) == Script.Reply(Some(v))
  {
    var m := TextMessage(v);
    assert WebChat.StopsScan(m) && WebChat.TextValue(m) == Some(v);
    WebChat.OnlyFirstStopConsulted(pre, m, post);
    Script.LatestAssistantChosen(pre, m, post);
  }

  /** Two assistant answers: the web chat shows the first, the script the last. */
  lemma TwoAssistantsDiverge(first: string, last: string)
    ensures WebChat.AnswerFrom([TextMessage(first), TextMessage(last)]) == first
    ensures Script.AgentReplyOf([TextMessage(first), TextMessage(last)]) == Script.Reply(Some(last))
  {
    var a, b := TextMessage(first), TextMessage(last);
    assert WebChat.StopsScan(a) && WebChat.TextValue(a) == Some(first);
    WebChat.OnlyFirstStopConsulted([], a, [b]);
    assert [] + [a] + [b] == [a, b];
    Script.LatestAssistantChosen([a], b, []);
    assert [a] + [b] + [] == [a, b];
  }
}
