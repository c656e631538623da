/** The terminal front end (`InteractiveFabricClient`): command parsing and
    dispatch, the session with its connection flag and in-place history,
    the detailed-analysis preview display, and the history/status/exit views. */
module Repl {
  import opened Common
  import opened Text
  import opened Payload
  import opened Previews

  // ----- Command table -----------------------------------------------------

  datatype Command = Connect | Ask | Detailed | History | Clear | Status | Help | Samples | Config | Exit

  /** The `commands` dictionary: a lower-case key to its handler. */
  function CommandFor(name: string): (c: Option<Command>)
    ensures c == Some(Exit) <==> name == "exit" || name == "quit"
    ensures c.None? <==> name !in {"connect", "ask", "detailed", "history", "clear",
                                   "status", "help", "samples", "config", "exit", "quit"}
  {
    match name
    case "connect" => Some(Connect)
    case "ask" => Some(Ask)
    case "detailed" => Some(Detailed)
    case "history" => Some(History)
    case "clear" => Some(Clear)
    case "status" => Some(Status)
    case "help" => Some(Help)
    case "samples" => Some(Samples)
    case "config" => Some(Config)
    case "exit" => Some(Exit)
    case "quit" => Some(Exit)
    case _ => None
  }

  /** The key under which each handler is registered (for `Exit`, "exit"). */
  function KeyOf(c: Command): string {
    match c
    case Connect => "connect"
    case Ask => "ask"
    case Detailed => "detailed"
    case History => "history"
    case Clear => "clear"
    case Status => "status"
    case Help => "help"
    case Samples => "samples"
    case Config => "config"
    case Exit => "exit"
  }

  /** Every command is reachable: its key maps back to it. */
  lemma CommandTableComplete(c: Command)
    ensures CommandFor(KeyOf(c)) == Some(c)
  {
  }

  // ----- Parsing and interpretation ---------------------------------------

  /** `parse_command`: the lower-cased first token and the remaining tokens,
      or `(None, [])` for a blank line. */
  function ParseCommand(line: string): (r: (Option<string>, seq<string>))
    ensures r.0.None? <==> IsBlank(line)
    ensures r.0.None? ==> r.1 == []
    ensures r.0.Some? ==> IsToken(r.0.value) && forall i :: 0 <= i < |r.0.value| ==> !('A' <= r.0.value[i] <= 'Z')
    ensures forall k :: 0 <= k < |r.1| ==> IsToken(r.1[k])
    ensures r.0.Some? ==> r.0.value == Lower(Words(line)[0])
    ensures r.0.Some? ==> |Words(line)| == |r.1| + 1 && r.1 == Words(line)[1..]
  {
    var parts := Words(line);
    if parts == [] then (None, [])
    else (Some(Lower(parts[0])), parts[1..])
  }

  /** Parsing a line built from a command word and argument tokens gives back
      the lower-cased word and exactly those arguments. */
  lemma ParseCommandOfJoin(word: string, args: seq<string>)
    requires IsToken(word)
    requires forall k :: 0 <= k < |args| ==> IsToken(args[k])
    ensures ParseCommand(JoinWords([word] + args)) == (Some(Lower(word)), args)
  {
    var ws := [word] + args;
    assert forall k :: 0 <= k < |ws| ==> IsToken(ws[k]);
    WordsJoinWords(ws);
    assert ws[1..] == args;
  }

  /** What the `run` loop does with one input line. */
  datatype Signal = Skip | Unknown(name: string) | Invoke(command: Command, args: seq<string>)

  function Interpret(line: string): (s: Signal)
    ensures s.Skip? <==> IsBlank(line)
    ensures s.Unknown? ==> CommandFor(s.name).None? && s.name == ParseCommand(line).0.value
    ensures !IsBlank(line) ==> (s.Invoke? <==> CommandFor(ParseCommand(line).0.value).Some?)
    ensures s.Invoke? ==> ParseCommand(line).0.Some? &&
                          CommandFor(ParseCommand(line).0.value) == Some(s.command) &&
                          s.args == ParseCommand(line).1
  {
    if IsBlank(line) then Skip
    else
      var (name, args) := ParseCommand(line);
      match CommandFor(name.value)
      case None => Unknown(name.value)
      case Some(c) => Invoke(c, args)
  }

  /** A line made of a command word and argument tokens invokes the command
      its lower-cased word names, with exactly those arguments. */
  lemma InterpretOfJoin(word: string, args: seq<string>, c: Command)
    requires IsToken(word) && CommandFor(Lower(word)) == Some(c)
    requires forall k :: 0 <= k < |args| ==> IsToken(args[k])
    ensures Interpret(JoinWords([word] + args)) == Invoke(c, args)
  {
    ParseCommandOfJoin(word, args);
  }

  /** `exit` and `quit` reach the same handler, whatever their case and
      however the line is spaced: the rest of the line is the arguments. */
  lemma ExitAliases(line: string)
    requires !IsBlank(line)
    requires Lower(Words(line)[0]) == "exit" || Lower(Words(line)[0]) == "quit"
    ensures Interpret(line) == Invoke(Exit, Words(line)[1..])
  {
  }

  /** Every spelling of `exit` or `quit` in upper, lower or mixed case
      lower-cases to a key of the exit handler. */
  lemma ExitAnyCase(w: string, key: string)
    requires key == "exit" || key == "quit"
    requires |w| == |key|
    requires forall i :: 0 <= i < |w| ==> w[i] == key[i] || w[i] == UpperChar(key[i])
    ensures CommandFor(Lower(w)) == Some(Exit)
  {
    assert forall i :: 0 <= i < |key| ==> 'a' <= key[i] <= 'z';
    forall i | 0 <= i < |w|
      ensures Lower(w)[i] == key[i]
    {
      UpperLower(key[i]);
    }
    assert Lower(w) == key;
  }

  function UpperChar(c: char): char
    requires 'a' <= c <= 'z'
  {
    (c as int - 'a' as int + 'A' as int) as char
  }

  lemma UpperLower(c: char)
    requires 'a' <= c <= 'z'
    ensures LowerChar(UpperChar(c)) == c && LowerChar(c) == c
  {
  }

  predicate IsExit(s: Signal) {
    s.Invoke? && s.command == Exit
  }

  // ----- History ----------------------------------------------------------

  /** One history record: `type` is 'simple' or 'detailed'. The timestamp is
      not modelled; the response time is an abstract count. */
  datatype Entry =
    | Simple(question: string, answer: string, elapsed: nat)
    | DetailedRun(question: string, details: RawResult, elapsed: nat)

  /** The question of a query command: the joined arguments, or the line the
      user types at the prompt when there are none. */
  function QuestionOf(args: seq<string>, typed: string): string {
    if args != [] then JoinWords(args) else typed
  }

  /** Arguments that came from `parse_command` never make a blank question. */
  lemma ParsedArgsQuestionNotBlank(line: string, typed: string)
    requires ParseCommand(line).1 != []
    ensures !IsBlank(QuestionOf(ParseCommand(line).1, typed))
  {
    JoinedTokensNotBlank(ParseCommand(line).1);
  }

  function CountSimple(h: seq<Entry>): (n: nat)
    ensures n <= |h|
  {
    if h == [] then 0 else (if h[0].Simple? then 1 else 0) + CountSimple(h[1..])
  }

  function CountDetailed(h: seq<Entry>): (n: nat)
    ensures n <= |h|
  {
    if h == [] then 0 else (if h[0].DetailedRun? then 1 else 0) + CountDetailed(h[1..])
  }

  function TotalTime(h: seq<Entry>): nat {
    if h == [] then 0 else h[0].elapsed + TotalTime(h[1..])
  }

  lemma {:induction false} KindsPartition(h: seq<Entry>)
    ensures CountSimple(h) + CountDetailed(h) == |h|
  {
    if h != [] {
      KindsPartition(h[1..]);
    }
  }

  /** The "Session Statistics" block of `show_status`. */
  datatype Stats = Stats(total: nat, simple: nat, detailed: nat, average: Option<real>)

  function SessionStats(h: seq<Entry>): (s: Stats)
    ensures s.total == |h| && s.total == s.simple + s.detailed
    ensures s.simple == CountSimple(h) && s.detailed == CountDetailed(h)
    ensures s.average.None? <==> h == []
    ensures s.average.Some? ==> s.average.value * (|h| as real) == TotalTime(h) as real
  {
    KindsPartition(h);
    Stats(|h|, CountSimple(h), CountDetailed(h),
          if h == [] then None else Some(TotalTime(h) as real / |h| as real))
  }

  /** One entry of `show_history`. */
  datatype HistoryLine = HistoryLine(
    number: nat, kind: string, question: string, elapsed: nat,
    answer: Option<string>, sqlQueryCount: Option<nat>)

  function ShowEntry(number: nat, e: Entry): (l: HistoryLine)
    ensures l.number == number
    ensures l.question == Truncate(e.question, 50) && |l.question| <= |e.question| + 3
    ensures l.kind == (if e.Simple? then "Simple" else "Detailed")
    ensures l.answer.Some? <==> e.Simple?
    ensures e.Simple? ==> l.answer == Some(Truncate(e.answer, 100))
    ensures l.elapsed == e.elapsed
    ensures l.sqlQueryCount.Some? <==> e.DetailedRun? && e.details.sqlQueries.Some?
    ensures l.sqlQueryCount.Some? ==> l.sqlQueryCount.value == |QueriesOf(e.details)|
  {
    match e
    case Simple(q, a, t) => HistoryLine(number, "Simple", Truncate(q, 50), t, Some(Truncate(a, 100)), None)
    case DetailedRun(q, d, t) =>
      HistoryLine(number, "Detailed", Truncate(q, 50), t, None,
                  match d.sqlQueries case None => None case Some(qs) => Some(|qs|))
  }

  /** `show_history`: the entries in insertion order, numbered from 1. */
  function ShowHistory(h: seq<Entry>): (ls: seq<HistoryLine>)
    ensures |ls| == |h|
    ensures forall i :: 0 <= i < |h| ==> ls[i] == ShowEntry(i + 1, h[i])
  {
    seq(|h|, i requires 0 <= i < |h| => ShowEntry(i + 1, h[i]))
  }

  /** `exit_app`: the number of queries, mentioned only when there were any. */
  function ExitSummary(h: seq<Entry>): (n: Option<nat>)
    ensures n.None? <==> h == []
    ensures n.Some? ==> n.value == |h|
  {
    if h == [] then None else Some(|h|)
  }

  // ----- Detailed analysis display ----------------------------------------

  /** The preview of `detailed_analysis`: a table shows the non-blank lines
      among its first 10 split lines, rows show their first 5 numbered 1..5;
      either notes how many lines (rows) were left out. */
  function ShowPreview(b: PreviewBlock): (d: Display)
    ensures b.Table? ==> |d.lines| <= 10
    ensures b.Table? ==> forall l :: l in d.lines <==>
              l.Plain? && !IsBlank(l.text) && l.text in Take10(SplitOn(b.markdown, '\n'))
    ensures b.Table? ==> d.lines == PlainLines(NonBlank(Take10(SplitOn(b.markdown, '\n'))))
    ensures b.Table? ==> d.more == if |SplitOn(b.markdown, '\n')| > 10 then |SplitOn(b.markdown, '\n')| - 10 else 0
    ensures b.Rows? ==> |d.lines| == (if |b.lines| <= 5 then |b.lines| else 5)
    ensures b.Rows? ==> forall k :: 0 <= k < |d.lines| ==> d.lines[k] == Numbered(k + 1, b.lines[k])
    ensures b.Rows? ==> d.more == if |b.lines| > 5 then |b.lines| - 5 else 0
  {
    match b
    case Table(md) =>
      var lines := SplitOn(md, '\n');
      Display(PlainLines(NonBlank(Take10(lines))), if |lines| > 10 then |lines| - 10 else 0)
    case Rows(rows) =>
      var n := if |rows| <= 5 then |rows| else 5;
      Display(seq(n, k requires 0 <= k < n => Numbered(k + 1, rows[k])),
              if |rows| > 5 then |rows| - 5 else 0)
  }

  function Take10(lines: seq<string>): seq<string> {
    if |lines| <= 10 then lines else lines[..10]
  }

  /** Six rows show five of them and a note that one more exists. */
  lemma SixRowsExample()
    ensures ShowPreview(Rows(["row1", "row2", "row3", "row4", "row5", "row6"])).more == 1
    ensures |ShowPreview(Rows(["row1", "row2", "row3", "row4", "row5", "row6"])).lines| == 5
  {
  }

  /** What `detailed_analysis` prints about a successful run. */
  datatype Analysis = Analysis(
    status: Option<string>, stepCount: Option<nat>, mainQuery: Option<string>,
    preview: Option<Display>, queries: seq<string>)

  /** The preview of the first non-empty block, if any. */
  function FirstPreview(r: RawResult): (p: Option<Display>)
    ensures p.None? <==> FirstNonEmpty(PreviewsOf(r)).None?
    ensures p.Some? ==> p.value == ShowPreview(Classify(PreviewsOf(r)[FirstNonEmpty(PreviewsOf(r)).value]))
  {
    match FirstNonEmpty(PreviewsOf(r))
    case None => None
    case Some(i) => Some(ShowPreview(Classify(PreviewsOf(r)[i])))
  }

  /** The "Detailed Analysis Results" report: the status and the step count
      only when their keys are present (a missing `data` counts no steps),
      the main query only when it is non-empty, and every generated query. */
  function Analyse(r: RawResult, preview: Option<Display>): (a: Analysis)
    ensures a.status == r.runStatus
    ensures a.stepCount.Some? <==> r.runSteps.Some?
    ensures a.stepCount.Some? && r.runSteps.value.data.None? ==> a.stepCount.value == 0
    ensures a.stepCount.Some? && r.runSteps.value.data.Some? ==>
              a.stepCount.value == |r.runSteps.value.data.value|
    ensures a.mainQuery.Some? <==> HasRetrievalQuery(r)
    ensures a.mainQuery.Some? ==> a.mainQuery == r.dataRetrievalQuery && a.mainQuery.value != ""
    ensures a.preview == preview
    ensures a.queries == QueriesOf(r)
  {
    Analysis(
      r.runStatus,
      match r.runSteps case None => None case Some(l) => Some(|l.data.GetOr([])|),
      if HasRetrievalQuery(r) then r.dataRetrievalQuery else None,
      preview,
      QueriesOf(r))
  }

  // ----- Feedback ---------------------------------------------------------

  /** The status lines the handlers print, by kind. */
  datatype Notice =
    | MissingCredentials
    | ConnectedAs(tenantShown: string)
    | ConnectFailed(reason: string)
    | NotConnected
    | EmptyQuestion
    | Answered(answer: string)
    | Analysed(analysis: Analysis)
    | QueryFailed(reason: string)

  /** What one dispatched handler reports. */
  datatype Reply =
    | NoReply
    | ConnectReply(notice: Notice)
    | AskReply(notice: Notice)
    | DetailedReply(notice: Notice)
    | HistoryReply(lines: seq<HistoryLine>)
    | ClearReply(wasEmpty: bool)
    | StatusReply(connected: bool, stats: Stats)
    | HelpReply
    | SamplesReply(samples: seq<string>)
    | ConfigReply
    | ExitReply(summary: Option<nat>)

  /** The reply a handler gives belongs to that handler. */
  predicate RepliesAs(c: Command, r: Reply) {
    match c
    case Connect => r.ConnectReply?
    case Ask => r.AskReply?
    case Detailed => r.DetailedReply?
    case History => r.HistoryReply?
    case Clear => r.ClearReply?
    case Status => r.StatusReply?
    case Help => r.HelpReply?
    case Samples => r.SamplesReply?
    case Config => r.ConfigReply?
    case Exit => r.ExitReply?
  }

  const SampleQuestions: seq<string> := [
    "What data is available in the lakehouse?",
    "Show me the top 5 records from any available table",
    "What are the column names and types in the main tables?",
    "What was the total sales last month?",
    "Show me recent transactions",
    "What are the most popular products?",
    "Give me a summary of customer demographics",
    "What trends do you see in the data?"
  ]

  /** Everything the outside world supplies while one line is handled: the
      line typed at a question prompt, the credentials, and what the external
      client does when constructed and queried. */
  datatype World = World(
    typed: string, tenant: string, url: string, construct: Outcome,
    reply: Fallible<string>, details: Fallible<RawResult>, elapsed: nat)

  // ----- The session -------------------------------------------------------

  class InteractiveClient {
    var client: Option<Client>
    var connected: bool
    var history: seq<Entry>

    /** A connected session always holds a client. */
    ghost predicate Valid()
      reads this
    {
      connected ==> client.Some?
    }

    constructor ()
      ensures Valid()
      ensures client == None && !connected && history == []
    {
      client := None;
      connected := false;
      history := [];
    }

    /** `connect_client`: refuses empty credentials without touching the
        connection; otherwise constructs the client, and is connected exactly
        when construction succeeded. A failed construction keeps the old client. */
    method ConnectClient(tenant: string, url: string, construct: Outcome) returns (n: Notice)
      requires Valid()
      modifies this`client, this`connected
      ensures Valid()
      ensures tenant == "" || url == "" ==>
                n == MissingCredentials && client == old(client) && connected == old(connected)
      ensures tenant != "" && url != "" && construct.Pass? ==>
                n == ConnectedAs(Take(tenant, 8) + "...") && client == Some(Client(tenant, url)) && connected
      ensures tenant != "" && url != "" && construct.Fail? ==>
                n == ConnectFailed(construct.message) && client == old(client) && !connected
    {
      if tenant == "" || url == "" {
        return MissingCredentials;
      }
      match construct
      case Pass =>
        client := Some(Client(tenant, url));
        connected := true;
        n := ConnectedAs(Take(tenant, 8) + "...");
      case Fail(msg) =>
        connected := false;
        n := ConnectFailed(msg);
    }

    /** `ask_question`: only when connected and the question is not blank;
        a reply appends one 'simple' entry, a failure appends nothing. */
    method AskQuestion(args: seq<string>, typed: string, reply: Fallible<string>, elapsed: nat)
      returns (n: Notice)
      requires Valid()
      modifies this`history
      ensures !connected ==> n == NotConnected && history == old(history)
      ensures connected && IsBlank(QuestionOf(args, typed)) ==>
                n == EmptyQuestion && history == old(history)
      ensures connected && !IsBlank(QuestionOf(args, typed)) && reply.Ok? ==>
                n == Answered(reply.value) &&
                history == old(history) + [Simple(QuestionOf(args, typed), reply.value, elapsed)]
      ensures connected && !IsBlank(QuestionOf(args, typed)) && reply.Err? ==>
                n == QueryFailed(reply.message) && history == old(history)
    {
      if !connected {
        return NotConnected;
      }
      var question := QuestionOf(args, typed);
      if IsBlank(question) {
        return EmptyQuestion;
      }
      match reply
      case Ok(answer) =>
        history := history + [Simple(question, answer, elapsed)];
        n := Answered(answer);
      case Err(msg) =>
        n := QueryFailed(msg);
    }

    /** `detailed_analysis`: the same guards; a result appends one 'detailed'
        entry and shows the first non-empty preview; a failure appends nothing. */
    method DetailedAnalysis(args: seq<string>, typed: string, details: Fallible<RawResult>, elapsed: nat)
      returns (n: Notice)
      requires Valid()
      modifies this`history
      ensures !connected ==> n == NotConnected && history == old(history)
      ensures connected && IsBlank(QuestionOf(args, typed)) ==>
                n == EmptyQuestion && history == old(history)
      ensures connected && !IsBlank(QuestionOf(args, typed)) && details.Ok? ==>
                n == Analysed(Analyse(details.value, FirstPreview(details.value))) &&
                history == old(history) + [DetailedRun(QuestionOf(args, typed), details.value, elapsed)]
      ensures connected && !IsBlank(QuestionOf(args, typed)) && details.Err? ==>
                n == QueryFailed(details.message) && history == old(history)
    {
      if !connected {
        return NotConnected;
      }
      var question := QuestionOf(args, typed);
      if IsBlank(question) {
        return EmptyQuestion;
      }
      match details
      case Ok(d) =>
        var found := FindFirstNonEmpty(PreviewsOf(d));
        var preview := if found.Some? then Some(ShowPreview(Classify(PreviewsOf(d)[found.value]))) else None;
        history := history + [DetailedRun(question, d, elapsed)];
        n := Analysed(Analyse(d, preview));
      case Err(msg) =>
        n := QueryFailed(msg);
    }

    /** `clear_history`: afterwards the history is empty, whatever it held. */
    method ClearHistory() returns (wasEmpty: bool)
      modifies this`history
      ensures history == [] && wasEmpty == (old(history) == [])
    {
      wasEmpty := history == [];
      history := [];
    }

    /** One iteration of the `run` loop: blank lines and unknown commands
        change nothing; a known command runs exactly its handler. */
    method Step(line: string, w: World) returns (s: Signal, r: Reply)
      requires Valid()
      modifies this
      ensures Valid()
      ensures s == Interpret(line)
      ensures !s.Invoke? ==> r == NoReply && client == old(client) &&
                             connected == old(connected) && history == old(history)
      ensures s.Invoke? ==> RepliesAs(s.command, r)
      ensures s.Invoke? && s.command == Connect ==>
                if w.tenant == "" || w.url == "" then
                  r == ConnectReply(MissingCredentials) && client == old(client) && connected == old(connected)
                else if w.construct.Pass? then
                  r == ConnectReply(ConnectedAs(Take(w.tenant, 8) + "...")) &&
                  client == Some(Client(w.tenant, w.url)) && connected
                else
                  r == ConnectReply(ConnectFailed(w.construct.message)) && client == old(client) && !connected
      ensures s.Invoke? && s.command == Ask ==>
                if !old(connected) then r == AskReply(NotConnected) && history == old(history)
                else if IsBlank(QuestionOf(s.args, w.typed)) then r == AskReply(EmptyQuestion) && history == old(history)
                else if w.reply.Ok? then
                  r == AskReply(Answered(w.reply.value)) &&
                  history == old(history) + [Simple(QuestionOf(s.args, w.typed), w.reply.value, w.elapsed)]
                else r == AskReply(QueryFailed(w.reply.message)) && history == old(history)
      ensures s.Invoke? && s.command == Detailed ==>
                if !old(connected) then r == DetailedReply(NotConnected) && history == old(history)
                else if IsBlank(QuestionOf(s.args, w.typed)) then r == DetailedReply(EmptyQuestion) && history == old(history)
                else if w.details.Ok? then
                  r == DetailedReply(Analysed(Analyse(w.details.value, FirstPreview(w.details.value)))) &&
                  history == old(history) + [DetailedRun(QuestionOf(s.args, w.typed), w.details.value, w.elapsed)]
                else r == DetailedReply(QueryFailed(w.details.message)) && history == old(history)
      ensures s.Invoke? && s.command == History ==> r == HistoryReply(ShowHistory(old(history)))
      ensures s.Invoke? && s.command == Clear ==> r == ClearReply(old(history) == [])
      ensures s.Invoke? && s.command == Status ==> r == StatusReply(old(connected), SessionStats(old(history)))
      ensures s.Invoke? && s.command == Help ==> r == HelpReply
      ensures s.Invoke? && s.command == Samples ==> r == SamplesReply(SampleQuestions)
      ensures s.Invoke? && s.command == Config ==> r == ConfigReply
      ensures s.Invoke? && s.command != Connect ==> client == old(client) && connected == old(connected)
      ensures s.Invoke? && s.command !in {Ask, Detailed, Clear} ==> history == old(history)
      ensures s.Invoke? && s.command in {Ask, Detailed} ==>
                history == old(history) || (|history| == |old(history)| + 1 && history[..|old(history)|] == old(history))
      ensures s.Invoke? && s.command == Clear ==> history == []
      ensures s.Invoke? && s.command == Exit ==> r == ExitReply(ExitSummary(history))
    {
      s := Interpret(line);
      r := NoReply;
      if !s.Invoke? {
        return;
      }
      match s.command
      case Connect =>
        var n := ConnectClient(w.tenant, w.url, w.construct);
        r := ConnectReply(n);
      case Ask =>
        var n := AskQuestion(s.args, w.typed, w.reply, w.elapsed);
        r := AskReply(n);
      case Detailed =>
        var n := DetailedAnalysis(s.args, w.typed, w.details, w.elapsed);
        r := DetailedReply(n);
      case History =>
        r := HistoryReply(ShowHistory(history));
      case Clear =>
        var wasEmpty := ClearHistory();
        r := ClearReply(wasEmpty);
      case Status =>
        r := StatusReply(connected, SessionStats(history));
      case Help =>
        r := HelpReply;
      case Samples =>
        r := SamplesReply(SampleQuestions);
      case Config =>
        r := ConfigReply;
      case Exit =>
        r := ExitReply(ExitSummary(history));
    }

    /** The `run` loop over the lines typed, one world per line. It stops
        after the first `exit`/`quit`, or when input ends (which also exits);
        `summary` is what the exit message reports. */
    method Run(lines: seq<string>, worlds: seq<World>) returns (trace: seq<(Signal, Reply)>, summary: Option<nat>)
      requires Valid()
      requires |worlds| == |lines|
      modifies this
      ensures Valid()
      ensures |trace| <= |lines|
      ensures forall k :: 0 <= k < |trace| ==> trace[k].0 == Interpret(lines[k])
      ensures forall k :: 0 <= k < |trace| - 1 ==> !IsExit(trace[k].0)
      ensures |trace| < |lines| ==> trace != [] && IsExit(trace[|trace| - 1].0)
      ensures summary == ExitSummary(history)
    {
      trace := [];
      var i := 0;
      while i < |lines|
        invariant Valid()
        invariant 0 <= i <= |lines| && |trace| == i
        invariant forall k :: 0 <= k < i ==> trace[k].0 == Interpret(lines[k])
        invariant forall k :: 0 <= k < i ==> !IsExit(trace[k].0)
      {
        var s, r := Step(lines[i], worlds[i]);
        trace := trace + [(s, r)];
        i := i + 1;
        if IsExit(s) {
          return trace, ExitSummary(history);
        }
      }
      summary := ExitSummary(history);
    }
  }
}
