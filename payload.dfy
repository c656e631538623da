/** The run-details payload returned by the data-agent client's detailed
    query, as an explicit schema: every field the front ends look at, each of
    which may be absent. Absent keys are `None`; a present key keeps its value. */
module Payload {
  import opened Common

  /** The `text` entry of a content dict: either a dict (which may or may not
      have a `value` key) or some other value. `repr` is what `print` shows. */
  datatype TextField =
    | TextMap(value: Option<string>, repr: string)
    | TextScalar(repr: string)

  /** The first content item of a message. */
  datatype ContentItem =
    | ContentObject(textValue: string)               // an SDK object with `.text.value`
    | ContentMap(text: Option<TextField>, repr: string) // a dict; `text` is its `text` key
    | ContentScalar(repr: string)                    // anything else

  datatype Message = Message(role: Option<string>, content: Option<seq<ContentItem>>)

  /** A paged list as the service returns it: `{"data": [...]}`. */
  datatype Listing<T> = Listing(data: Option<seq<T>>)

  datatype RawResult = RawResult(
    error: Option<string>,
    runStatus: Option<string>,
    runSteps: Option<Listing<string>>,
    messages: Option<Listing<Message>>,
    dataRetrievalQuery: Option<string>,
    dataRetrievalQueryIndex: Option<int>,
    sqlDataPreviews: Option<seq<seq<string>>>,
    sqlQueries: Option<seq<string>>)

  /** `msg.get('role') == 'assistant'`. */
  predicate IsAssistant(m: Message) {
    m.role == Some("assistant")
  }

  /** `msg.get('content', [])`. */
  function ContentOf(m: Message): seq<ContentItem> {
    m.content.GetOr([])
  }

  /** `result['messages'].get('data', [])`, and `[]` when there are no messages. */
  function MessagesOf(r: RawResult): seq<Message> {
    match r.messages
    case None => []
    case Some(l) => l.data.GetOr([])
  }

  /** `'data_retrieval_query' in details and details['data_retrieval_query']`. */
  predicate HasRetrievalQuery(r: RawResult) {
    r.dataRetrievalQuery.Some? && r.dataRetrievalQuery.value != ""
  }

  /** The preview blocks, `[]` when the key is absent. */
  function PreviewsOf(r: RawResult): seq<seq<string>> {
    r.sqlDataPreviews.GetOr([])
  }

  /** The generated queries, `[]` when the key is absent. */
  function QueriesOf(r: RawResult): seq<string> {
    r.sqlQueries.GetOr([])
  }
}
