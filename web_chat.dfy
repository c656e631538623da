/** The web chat front end: the session state bag (client, authenticated flag,
    chat history, pending sample question), the connect / Reconnect /
    Clear Chat actions, question processing with its answer-extraction scan,
    the sidebar statistics and the newest-first history view. */
module WebChat {
  import opened Common
  import opened Text
  import opened Payload
  import opened Previews

  // ----- Answer extraction -------------------------------------------------

  const DefaultAnswer: string := "I've analyzed your request."

  /** The scan's `break`: an assistant message whose first content item is a
      dict with a `text` key. Other assistant messages (no content, or a first
      item that is not such a dict) do not stop it. */
  predicate StopsScan(m: Message) {
    IsAssistant(m) && ContentOf(m) != [] &&
    ContentOf(m)[0].ContentMap? && ContentOf(m)[0].text.Some?
  }

  /** The answer a message carries: the `value` of a `text` dict. */
  function TextValue(m: Message): (v: Option<string>)
    ensures v.Some? ==> ContentOf(m) != [] && ContentOf(m)[0].ContentMap? &&
                        ContentOf(m)[0].text.Some? && ContentOf(m)[0].text.value.TextMap? &&
                        ContentOf(m)[0].text.value.value == v
  {
    var content := ContentOf(m);
    if content != [] && content[0].ContentMap? && content[0].text.Some? &&
       content[0].text.value.TextMap? && content[0].text.value.value.Some?
    then content[0].text.value.value
    else None
  }

  /** The answer the scan settles on for a message list. */
  function AnswerFrom(msgs: seq<Message>): (a: string)
    ensures FirstWhere(msgs, StopsScan).None? ==> a == DefaultAnswer
    ensures a == DefaultAnswer ||
            exists i :: 0 <= i < |msgs| && StopsScan(msgs[i]) && TextValue(msgs[i]) == Some(a)
  {
    match FirstWhere(msgs, StopsScan)
    case None => DefaultAnswer
    case Some(i) => TextValue(msgs[i]).GetOr(DefaultAnswer)
  }

  /** The answer of a detailed-mode result. */
  function DetailedAnswer(r: RawResult): string {
    AnswerFrom(MessagesOf(r))
  }

  /** The `for msg in messages_data: ... break` loop, reassigning `answer`. */
  method ExtractAnswer(r: RawResult) returns (answer: string)
    ensures answer == DetailedAnswer(r)
  {
    answer := DefaultAnswer;
    var msgs := MessagesOf(r);
    var i := 0;
    while i < |msgs|
      invariant 0 <= i <= |msgs|
      invariant forall j :: 0 <= j < i ==> !StopsScan(msgs[j])
      invariant answer == DefaultAnswer
    {
      var msg := msgs[i];
      if msg.role == Some("assistant") {
        var content := msg.content.GetOr([]);
        if content != [] {
          if content[0].ContentMap? && content[0].text.Some? {
            var textData := content[0].text.value;
            if textData.TextMap? && textData.value.Some? {
              answer := textData.value.value;
            }
            assert StopsScan(msg);
            assert FirstWhere(msgs, StopsScan) == Some(i);
            return;
          }
        }
      }
      i := i + 1;
    }
  }

  /** A result without assistant messages keeps the default, non-empty answer. */
  lemma NoAssistantKeepsDefault(r: RawResult)
    requires forall m :: m in MessagesOf(r) ==> !IsAssistant(m)
    ensures DetailedAnswer(r) == DefaultAnswer && DetailedAnswer(r) != ""
  {
    var msgs := MessagesOf(r);
    assert forall i :: 0 <= i < |msgs| ==> !StopsScan(msgs[i]) by {
      forall i | 0 <= i < |msgs| ensures !StopsScan(msgs[i]) {
        assert msgs[i] in msgs;
      }
    }
  }

  /** Messages that do not stop the scan are passed over. */
  lemma {:induction false} ScanSkips(pre: seq<Message>, rest: seq<Message>)
    requires forall j :: 0 <= j < |pre| ==> !StopsScan(pre[j])
    ensures AnswerFrom(pre + rest) == AnswerFrom(rest)
  {
    FirstWhereAfter(pre, rest, StopsScan);
    match FirstWhere(rest, StopsScan)
    case None =>
    case Some(k) =>
      assert (pre + rest)[k + |pre|] == rest[k];
  }

  /** Only the first stopping message is consulted: what comes after it is
      never read, even when it yields no `value` and the answer stays default. */
  lemma OnlyFirstStopConsulted(pre: seq<Message>, m: Message, post: seq<Message>)
    requires forall j :: 0 <= j < |pre| ==> !StopsScan(pre[j])
    requires StopsScan(m)
    ensures AnswerFrom(pre + [m] + post) == TextValue(m).GetOr(DefaultAnswer)
  {
    assert pre + [m] + post == pre + ([m] + post);
    ScanSkips(pre, [m] + post);
    assert FirstWhere([m] + post, StopsScan) == Some(0);
  }

  /** An assistant message whose `text` has no `value` still ends the scan:
      the default answer stands even if a later message carries a value. */
  lemma NoValueStillStops(repr: string, post: seq<Message>)
    ensures AnswerFrom([Message(Some("assistant"), Some([ContentMap(Some(TextScalar(repr)), repr)]))] + post)
            == DefaultAnswer
  {
    var m := Message(Some("assistant"), Some([ContentMap(Some(TextScalar(repr)), repr)]));
    OnlyFirstStopConsulted([], m, post);
    assert [] + [m] + post == [m] + post;
  }

  // ----- Chat history ------------------------------------------------------

  /** One `chat_history` entry. Successful entries carry the answer and the
      response time; only detailed ones carry `details`. */
  datatype ChatEntry =
    | SimpleChat(question: string, answer: string, elapsed: nat)
    | DetailedChat(question: string, answer: string, details: RawResult, elapsed: nat)
    | ErrorChat(question: string, error: string)

  /** `not chat.get('error')`: no error, or an empty error message. */
  predicate Succeeded(e: ChatEntry) {
    !e.ErrorChat? || e.error == ""
  }

  /** The "Successful" metric. */
  function SuccessCount(h: seq<ChatEntry>): (n: nat)
    ensures n <= |h|
    ensures n == |h| <==> forall i :: 0 <= i < |h| ==> Succeeded(h[i])
  {
    if h == [] then 0
    else
      var rest := SuccessCount(h[1..]);
      assert forall i :: 1 <= i < |h| ==> h[i] == h[1..][i - 1];
      (if Succeeded(h[0]) then 1 else 0) + rest
  }

  /** Appending an entry adds one to "Successful" exactly when it succeeded. */
  lemma {:induction false} SuccessCountAppend(h: seq<ChatEntry>, e: ChatEntry)
    ensures SuccessCount(h + [e]) == SuccessCount(h) + (if Succeeded(e) then 1 else 0)
  {
    if h != [] {
      assert (h + [e])[1..] == h[1..] + [e];
      SuccessCountAppend(h[1..], e);
    }
  }

  /** The "Session Stats" metrics: Questions and Successful. */
  function SessionStats(h: seq<ChatEntry>): (s: (nat, nat))
    ensures s.0 == |h| && s.1 <= s.0
    ensures s.1 == s.0 <==> forall i :: 0 <= i < |h| ==> Succeeded(h[i])
  {
    (|h|, SuccessCount(h))
  }

  // ----- History view ------------------------------------------------------

  /** The web preview: a table as its markdown, rows as their first five, with
      no note about the rest. */
  function WebPreview(b: PreviewBlock): (d: Display)
    ensures d.more == 0
    ensures b.Table? ==> d.lines == [Plain(b.markdown)]
    ensures b.Rows? ==> |d.lines| == (if |b.lines| <= 5 then |b.lines| else 5)
    ensures b.Rows? ==> forall k :: 0 <= k < |d.lines| ==> d.lines[k] == Plain(b.lines[k])
  {
    match b
    case Table(md) => Display([Plain(md)], 0)
    case Rows(rows) => Display(Capped(rows, 5).lines, 0)
  }

  /** How one entry is shown. */
  datatype Card =
    | ErrorCard(question: string, error: string)
    | AnswerCard(question: string, answer: string, elapsed: nat,
                 sql: Option<string>, preview: Option<Display>)

  function CardOf(e: ChatEntry): (c: Card)
    ensures c.question == e.question
    ensures c.ErrorCard? <==> e.ErrorChat?
    ensures e.SimpleChat? ==> c.sql.None? && c.preview.None?
    ensures e.ErrorChat? ==> c.error == e.error
    ensures !e.ErrorChat? ==> c.answer == e.answer && c.elapsed == e.elapsed
    ensures e.DetailedChat? ==> (c.sql.Some? <==> HasRetrievalQuery(e.details))
    ensures e.DetailedChat? && c.sql.Some? ==> c.sql == e.details.dataRetrievalQuery
    ensures e.DetailedChat? ==> (c.preview.Some? <==> FirstNonEmpty(PreviewsOf(e.details)).Some?)
    ensures e.DetailedChat? && c.preview.Some? ==>
              c.preview.value == WebPreview(Classify(PreviewsOf(e.details)[FirstNonEmpty(PreviewsOf(e.details)).value]))
  {
    match e
    case ErrorChat(q, err) => ErrorCard(q, err)
    case SimpleChat(q, a, t) => AnswerCard(q, a, t, None, None)
    case DetailedChat(q, a, d, t) =>
      AnswerCard(q, a, t,
                 if HasRetrievalQuery(d) then d.dataRetrievalQuery else None,
                 match FirstNonEmpty(PreviewsOf(d))
                 case None => None
                 case Some(i) => Some(WebPreview(Classify(PreviewsOf(d)[i]))))
  }

  /** `reversed(chat_history)`: the newest entry first. */
  function ChatView(h: seq<ChatEntry>): (v: seq<Card>)
    ensures |v| == |h|
    ensures forall i :: 0 <= i < |h| ==> v[i] == CardOf(h[|h| - 1 - i])
  {
    if h == [] then []
    else [CardOf(h[|h| - 1])] + ChatView(h[..|h| - 1])
  }

  /** A new entry is shown first, above everything shown before. */
  lemma {:induction false} ChatViewAppend(h: seq<ChatEntry>, e: ChatEntry)
    ensures ChatView(h + [e]) == [CardOf(e)] + ChatView(h)
  {
    assert (h + [e])[..|h|] == h;
  }

  // ----- Sidebar -----------------------------------------------------------

  /** The "Current Configuration" lines: each value is shown only when set,
      the tenant cut to 8 characters and the URL to 50, with "..." appended
      exactly when something was cut. */
  function ConfigDisplay(tenant: string, url: string): (r: (Option<string>, Option<string>))
    ensures r.0.None? <==> tenant == ""
    ensures r.1.None? <==> url == ""
    ensures r.0.Some? ==> r.0.value == Truncate(tenant, 8) && |r.0.value| <= 11
    ensures r.1.Some? ==> r.1.value == Truncate(url, 50) && |r.1.value| <= 53
  {
    (if tenant != "" then Some(Truncate(tenant, 8)) else None,
     if url != "" then Some(Truncate(url, 50)) else None)
  }

  const SampleQuestions: seq<string> := [
    "What data is available in the lakehouse?",
    "Show me the top 5 records from any table",
    "What are the column names and types?"
  ]

  datatype ConnectNotice = MissingCredentials | Connected | ConnectFailed(reason: string)

  // ----- The session state -------------------------------------------------

  class ChatSession {
    var client: Option<Client>
    var authenticated: bool
    var chatHistory: seq<ChatEntry>
    var currentQuestion: Option<string>

    /** Authenticated exactly when a client is held. */
    ghost predicate Valid()
      reads this
    {
      authenticated == client.Some?
    }

    constructor ()
      ensures Valid()
      ensures client == None && !authenticated && chatHistory == [] && currentQuestion == None
    {
      client := None;
      authenticated := false;
      chatHistory := [];
      currentQuestion := None;
    }

    /** The Connect button: empty credentials are refused, a failed
        construction changes nothing, success sets both client and flag. */
    method Connect(tenant: string, url: string, construct: Outcome) returns (n: ConnectNotice)
      requires Valid()
      modifies this`client, this`authenticated
      ensures Valid()
      ensures tenant == "" || url == "" ==>
                n == MissingCredentials && client == old(client) && authenticated == old(authenticated)
      ensures tenant != "" && url != "" && construct.Pass? ==>
                n == Connected && client == Some(Client(tenant, url)) && authenticated
      ensures tenant != "" && url != "" && construct.Fail? ==>
                n == ConnectFailed(construct.message) && client == old(client) && authenticated == old(authenticated)
    {
      if tenant == "" || url == "" {
        return MissingCredentials;
      }
      match construct
      case Pass =>
        client := Some(Client(tenant, url));
        authenticated := true;
        n := Connected;
      case Fail(msg) =>
        n := ConnectFailed(msg);
    }

    /** Reconnect (shown only when connected): drops the connection and keeps
        the chat history. */
    method Reconnect()
      requires Valid() && authenticated
      modifies this`client, this`authenticated
      ensures Valid()
      ensures client == None && !authenticated
    {
      client := None;
      authenticated := false;
    }

    /** Clear Chat (shown only when connected): empties the history and keeps
        the connection. */
    method ClearChat()
      requires Valid() && authenticated
      modifies this`chatHistory
      ensures Valid()
      ensures chatHistory == []
    {
      chatHistory := [];
    }

    /** A Quick Start button: pre-fills the question box. */
    method ChooseSample(i: nat)
      requires Valid() && authenticated && i < |SampleQuestions|
      modifies this`currentQuestion
      ensures Valid()
      ensures currentQuestion == Some(SampleQuestions[i])
    {
      currentQuestion := Some(SampleQuestions[i]);
    }

    /** The text the question box starts with. */
    function DefaultQuestion(): (q: string)
      reads this
      ensures currentQuestion.None? ==> q == ""
      ensures currentQuestion.Some? ==> q == currentQuestion.value
    {
      currentQuestion.GetOr("")
    }

    /** Ask Question: processes a non-blank question once the button is
        pressed, clears the pending sample, and appends exactly one entry,
        an error entry when the client fails. */
    method AskQuestion(question: string, askPressed: bool, detailedMode: bool,
                       reply: Fallible<string>, details: Fallible<RawResult>, elapsed: nat)
      returns (processed: bool)
      requires Valid() && authenticated
      modifies this`chatHistory, this`currentQuestion
      ensures Valid()
      ensures processed == (askPressed && !IsBlank(question))
      ensures !processed ==> chatHistory == old(chatHistory) && currentQuestion == old(currentQuestion)
      ensures processed ==> currentQuestion == None && |chatHistory| == |old(chatHistory)| + 1 &&
                            chatHistory[..|old(chatHistory)|] == old(chatHistory)
      ensures processed && detailedMode && details.Ok? ==>
                chatHistory[|old(chatHistory)|] ==
                DetailedChat(question, DetailedAnswer(details.value), details.value, elapsed)
      ensures processed && detailedMode && details.Err? ==>
                chatHistory[|old(chatHistory)|] == ErrorChat(question, details.message)
      ensures processed && !detailedMode && reply.Ok? ==>
                chatHistory[|old(chatHistory)|] == SimpleChat(question, reply.value, elapsed)
      ensures processed && !detailedMode && reply.Err? ==>
                chatHistory[|old(chatHistory)|] == ErrorChat(question, reply.message)
    {
      processed := askPressed && !IsBlank(question);
      if !processed {
        return;
      }
      currentQuestion := None;
      var entry: ChatEntry;
      if detailedMode {
        match details
        case Ok(result) =>
          var answer := ExtractAnswer(result);
          entry := DetailedChat(question, answer, result, elapsed);
        case Err(msg) =>
          entry := ErrorChat(question, msg);
      } else {
        match reply
        case Ok(answer) =>
          entry := SimpleChat(question, answer, elapsed);
        case Err(msg) =>
          entry := ErrorChat(question, msg);
      }
      chatHistory := chatHistory + [entry];
    }
  }
}
