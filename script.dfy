/** The example script: the placeholder-configuration check, the report of a
    detailed run (its error short-circuit, the last assistant message, the
    preview chosen by `data_retrieval_query_index`, and the fallback that shows
    the first generated query and the first non-empty preview). */
module Script {
  import opened Common
  import opened Text
  import opened Payload
  import opened Previews

  // ----- Configuration -----------------------------------------------------

  const TenantPlaceholder: string := "your-tenant-id-here"
  const UrlPlaceholder: string := "your-data-agent-url-here"

  /** Neither value is still its placeholder default. */
  predicate Configured(tenant: string, url: string) {
    tenant != TenantPlaceholder && url != UrlPlaceholder
  }

  // ----- The agent's reply --------------------------------------------------

  /** `[msg for msg in messages if msg.get('role') == 'assistant']`. */
  function Assistants(msgs: seq<Message>): (a: seq<Message>)
    ensures |a| <= |msgs|
    ensures forall m :: m in a <==> m in msgs && IsAssistant(m)
  {
    if msgs == [] then []
    else (if IsAssistant(msgs[0]) then [msgs[0]] else []) + Assistants(msgs[1..])
  }

  lemma {:induction false} AssistantsConcat(a: seq<Message>, b: seq<Message>)
    ensures Assistants(a + b) == Assistants(a) + Assistants(b)
  {
    if a != [] {
      assert (a + b)[1..] == a[1..] + b;
      AssistantsConcat(a[1..], b);
    } else {
      assert a + b == b;
    }
  }

  /** `assistant_messages[-1]`, when there is one. */
  function LastAssistant(msgs: seq<Message>): (m: Option<Message>)
    ensures m.None? <==> forall i :: 0 <= i < |msgs| ==> !IsAssistant(msgs[i])
    ensures m.Some? ==> IsAssistant(m.value) && m.value in msgs
  {
    var a := Assistants(msgs);
    if a == [] then
      assert forall i :: 0 <= i < |msgs| ==> msgs[i] in msgs;
      None
    else
      assert a[|a| - 1] in a;
      Some(a[|a| - 1])
  }

  /** The reply comes from the latest assistant message: one followed only by
      non-assistant messages is chosen, whatever came before it. */
  lemma LatestAssistantChosen(pre: seq<Message>, m: Message, post: seq<Message>)
    requires IsAssistant(m)
    requires forall j :: 0 <= j < |post| ==> !IsAssistant(post[j])
    ensures LastAssistant(pre + [m] + post) == Some(m)
  {
    AssistantsConcat(pre + [m], post);
    AssistantsConcat(pre, [m]);
    assert Assistants([m]) == [m];
    NoAssistants(post);
  }

  lemma {:induction false} NoAssistants(msgs: seq<Message>)
    requires forall j :: 0 <= j < |msgs| ==> !IsAssistant(msgs[j])
    ensures Assistants(msgs) == []
  {
    if msgs != [] {
      NoAssistants(msgs[1..]);
    }
  }

  /** What is printed for the first content item of the chosen message, in
      the order of the source's cases; nothing for empty content. */
  function ReplyText(m: Message): (t: Option<string>)
    ensures t.None? <==> ContentOf(m) == []
    ensures ContentOf(m) != [] && ContentOf(m)[0].ContentObject? ==>
              t == Some(ContentOf(m)[0].textValue)
    ensures ContentOf(m) != [] && ContentOf(m)[0].ContentMap? && ContentOf(m)[0].text.Some? ==>
              t == Some(match ContentOf(m)[0].text.value
                        case TextMap(Some(v), _) => v
                        case TextMap(None, repr) => repr
                        case TextScalar(repr) => repr)
    ensures ContentOf(m) != [] && ContentOf(m)[0].ContentMap? && ContentOf(m)[0].text.None? ==>
              t == Some(ContentOf(m)[0].repr)
    ensures ContentOf(m) != [] && ContentOf(m)[0].ContentScalar? ==> t == Some(ContentOf(m)[0].repr)
  {
    var content := ContentOf(m);
    if content == [] then None
    else match content[0]
      case ContentObject(v) => Some(v)
      case ContentMap(None, repr) => Some(repr)
      case ContentMap(Some(TextMap(Some(v), _)), _) => Some(v)
      case ContentMap(Some(text), _) => Some(text.repr)
      case ContentScalar(repr) => Some(repr)
  }

  /** The "Agent Response" section: absent without assistant messages. */
  datatype AgentReply = NoAssistant | Reply(text: Option<string>)

  function AgentReplyOf(msgs: seq<Message>): (a: AgentReply)
    ensures a.NoAssistant? <==> forall i :: 0 <= i < |msgs| ==> !IsAssistant(msgs[i])
    ensures a.Reply? ==> a.text == ReplyText(LastAssistant(msgs).value)
  {
    match LastAssistant(msgs)
    case None => NoAssistant
    case Some(m) => Reply(ReplyText(m))
  }

  // ----- Previews ------------------------------------------------------------

  /** The script's preview: every non-blank line of a table, without limit;
      the first 10 rows and a note of how many more there are. */
  function ShowPreview(b: PreviewBlock): (d: Display)
    ensures b.Table? ==> d.more == 0
    ensures b.Table? ==> forall l :: l in d.lines <==>
              l.Plain? && !IsBlank(l.text) && l.text in SplitOn(b.markdown, '\n')
    ensures b.Table? ==> d.lines == PlainLines(NonBlank(SplitOn(b.markdown, '\n')))
    ensures b.Rows? ==> |d.lines| == (if |b.lines| <= 10 then |b.lines| else 10)
    ensures b.Rows? ==> forall k :: 0 <= k < |d.lines| ==> d.lines[k] == Plain(b.lines[k])
    ensures b.Rows? ==> d.more == if |b.lines| > 10 then |b.lines| - 10 else 0
  {
    match b
    case Table(md) => Display(PlainLines(NonBlank(SplitOn(md, '\n'))), 0)
    case Rows(rows) => Capped(rows, 10)
  }

  lemma {:induction false} NonBlankKeepsAll(lines: seq<string>)
    requires forall k :: 0 <= k < |lines| ==> !IsBlank(lines[k])
    ensures NonBlank(lines) == lines
  {
    if lines != [] {
      NonBlankKeepsAll(lines[1..]);
    }
  }

  /** A table without blank lines is printed whole: its printed lines, joined
      back with newlines, are the markdown itself. */
  lemma TablePrintedWhole(md: string)
    requires forall k :: 0 <= k < |SplitOn(md, '\n')| ==> !IsBlank(SplitOn(md, '\n')[k])
    ensures ShowPreview(Table(md)).lines == PlainLines(SplitOn(md, '\n'))
    ensures JoinOn(SplitOn(md, '\n'), '\n') == md
  {
    NonBlankKeepsAll(SplitOn(md, '\n'));
    JoinOnSplitOn(md, '\n');
  }

  /** The preview picked by `data_retrieval_query_index - 1`. */
  datatype IndexedPreview = NoPreviews | OutOfRange | EmptyPreview | ShownAt(index: nat, display: Display)

  /** The index into the previews (the stored index defaults to 1). */
  function PreviewIndex(r: RawResult): int {
    r.dataRetrievalQueryIndex.GetOr(1) - 1
  }

  function PreviewAtIndex(r: RawResult): (p: IndexedPreview)
    ensures p.NoPreviews? <==> PreviewsOf(r) == []
    ensures p.OutOfRange? <==> PreviewsOf(r) != [] && !(0 <= PreviewIndex(r) < |PreviewsOf(r)|)
    ensures p.EmptyPreview? <==> 0 <= PreviewIndex(r) < |PreviewsOf(r)| && PreviewsOf(r)[PreviewIndex(r)] == []
    ensures p.ShownAt? ==> p.index == PreviewIndex(r) && p.index < |PreviewsOf(r)| &&
                           PreviewsOf(r)[p.index] != [] &&
                           p.display == ShowPreview(Classify(PreviewsOf(r)[p.index]))
  {
    var previews := PreviewsOf(r);
    var i := PreviewIndex(r);
    if previews == [] then NoPreviews
    else if !(0 <= i < |previews|) then OutOfRange
    else if previews[i] == [] then EmptyPreview
    else ShownAt(i, ShowPreview(Classify(previews[i])))
  }

  /** The fallback's preview: the first non-empty block, if any. */
  function FallbackDisplay(r: RawResult): (d: Option<Display>)
    ensures d.None? <==> forall i :: 0 <= i < |PreviewsOf(r)| ==> PreviewsOf(r)[i] == []
    ensures d.Some? ==> (exists i :: 0 <= i < |PreviewsOf(r)| && PreviewsOf(r)[i] != [] &&
                                   d.value == ShowPreview(Classify(PreviewsOf(r)[i])))
    ensures d.Some? ==> d.value == ShowPreview(Classify(PreviewsOf(r)[FirstNonEmpty(PreviewsOf(r)).value]))
  {
    match FirstNonEmpty(PreviewsOf(r))
    case None => None
    case Some(i) => Some(ShowPreview(Classify(PreviewsOf(r)[i])))
  }

  /** The fallback's loop with its `preview_shown` flag and `break`. */
  method FallbackPreview(r: RawResult) returns (shown: Option<Display>, previewShown: bool)
    ensures shown == FallbackDisplay(r)
    ensures previewShown <==> exists i :: 0 <= i < |PreviewsOf(r)| && PreviewsOf(r)[i] != []
  {
    var previews := PreviewsOf(r);
    previewShown := false;
    shown := None;
    var i := 0;
    while i < |previews|
      invariant 0 <= i <= |previews|
      invariant forall j :: 0 <= j < i ==> previews[j] == []
      invariant !previewShown && shown.None?
    {
      if previews[i] != [] {
        shown := Some(ShowPreview(Classify(previews[i])));
        previewShown := true;
        assert FirstNonEmpty(previews) == Some(i);
        break;
      }
      i := i + 1;
    }
  }

  // ----- The report of a detailed run ---------------------------------------

  /** Where the data came from. */
  datatype Source =
    | RetrievalQuery(query: string, atIndex: IndexedPreview)
    | FirstQuery(query: string, firstPreview: Option<Display>)
    | NoLakehouse

  function SourceOf(r: RawResult): (s: Source)
    ensures s.RetrievalQuery? <==> HasRetrievalQuery(r)
    ensures s.FirstQuery? <==> !HasRetrievalQuery(r) && QueriesOf(r) != []
    ensures s.FirstQuery? ==> s.query == QueriesOf(r)[0] && s.firstPreview == FallbackDisplay(r)
    ensures s.RetrievalQuery? ==> s.query == r.dataRetrievalQuery.value && s.atIndex == PreviewAtIndex(r)
  {
    if HasRetrievalQuery(r) then RetrievalQuery(r.dataRetrievalQuery.value, PreviewAtIndex(r))
    else if QueriesOf(r) != [] then FirstQuery(QueriesOf(r)[0], FallbackDisplay(r))
    else NoLakehouse
  }

  datatype Report = Report(status: string, stepCount: nat, messageCount: nat,
                           agent: AgentReply, source: Source)

  datatype RunOutcome = DetailError(message: string) | Analysed(report: Report)

  /** The report, or the message of the `KeyError` raised when a field the
      report reads directly is missing. */
  function AnalyseRun(r: RawResult): (o: Fallible<RunOutcome>)
    ensures r.error.Some? ==> o == Ok(DetailError(r.error.value))
    ensures o.Ok? && o.value.Analysed? ==>
              r.error.None? && r.runStatus.Some? && r.runSteps.Some? && r.messages.Some? &&
              o.value.report.agent == AgentReplyOf(MessagesOf(r)) &&
              o.value.report.source == SourceOf(r)
    ensures r.error.None? && r.runStatus.Some? && r.runSteps.Some? && r.runSteps.value.data.Some? &&
            r.messages.Some? && r.messages.value.data.Some? ==>
              o.Ok? && o.value.Analysed? &&
              o.value.report.status == r.runStatus.value &&
              o.value.report.stepCount == |r.runSteps.value.data.value| &&
              o.value.report.messageCount == |MessagesOf(r)|
    ensures (r.error.None? &&
             (r.runStatus.None? || r.runSteps.None? || r.runSteps.value.data.None? ||
              r.messages.None? || r.messages.value.data.None?)) ==> o.Err?
    ensures r.error.None? && r.runStatus.None? ==> o == Err("'run_status'")
    ensures r.error.None? && r.runStatus.Some? && r.runSteps.None? ==> o == Err("'run_steps'")
    ensures (r.error.None? && r.runStatus.Some? && r.runSteps.Some? &&
             r.runSteps.value.data.None?) ==> o == Err("'data'")
    ensures (r.error.None? && r.runStatus.Some? && r.runSteps.Some? &&
             r.runSteps.value.data.Some? && r.messages.None?) ==> o == Err("'messages'")
    ensures (r.error.None? && r.runStatus.Some? && r.runSteps.Some? &&
             r.runSteps.value.data.Some? && r.messages.Some? &&
             r.messages.value.data.None?) ==> o == Err("'data'")
    ensures o.Err? ==> (r.error.None? &&
                        (r.runStatus.None? || r.runSteps.None? || r.runSteps.value.data.None? ||
                         r.messages.None? || r.messages.value.data.None?))
  {
    if r.error.Some? then Ok(DetailError(r.error.value))
    else if r.runStatus.None? then Err("'run_status'")
    else if r.runSteps.None? then Err("'run_steps'")
    else if r.runSteps.value.data.None? then Err("'data'")
    else if r.messages.None? then Err("'messages'")
    else if r.messages.value.data.None? then Err("'data'")
    else
      var msgs := MessagesOf(r);
      Ok(Analysed(Report(r.runStatus.value, |r.runSteps.value.data.value|, |msgs|,
                         AgentReplyOf(msgs), SourceOf(r))))
  }

  datatype ExampleOutcome = NeedsConfiguration | Failed(message: string) | Finished(outcome: RunOutcome)

  /** The whole script, with `run` standing for what the external client does
      when constructed and asked for the run details. */
  function RunExample(tenant: string, url: string, run: Fallible<RawResult>): (e: ExampleOutcome)
    ensures e.NeedsConfiguration? <==> !Configured(tenant, url)
    ensures Configured(tenant, url) && run.Err? ==> e == Failed(run.message)
    ensures Configured(tenant, url) && run.Ok? && run.value.error.Some? ==>
              e == Finished(DetailError(run.value.error.value))
    ensures Configured(tenant, url) && run.Ok? ==>
              e == (match AnalyseRun(run.value) case Err(m) => Failed(m) case Ok(o) => Finished(o))
  {
    if !Configured(tenant, url) then NeedsConfiguration
    else match run
      case Err(msg) => Failed(msg)
      case Ok(r) =>
        match AnalyseRun(r)
        case Err(msg) => Failed(msg)
        case Ok(o) => Finished(o)
  }

  /** With a placeholder still configured, nothing the client would do matters:
      the script stops before constructing it. */
  lemma PlaceholderStopsEarly(tenant: string, url: string, a: Fallible<RawResult>, b: Fallible<RawResult>)
    requires tenant == TenantPlaceholder || url == UrlPlaceholder
    ensures RunExample(tenant, url, a) == RunExample(tenant, url, b) == NeedsConfiguration
  {
  }
}
