/** What the workflow asks of code it cannot see: the chat model's replies,
    the two search backends, the process environment and the transcript
    serializer. Each is a parameter of the nodes that use it, so the logic
    around the calls holds for every possible reply. */
module Oracles {
  import opened Wrappers
  import opened Config
  import opened State
  import opened Utils
  import opened Tools

  /** The chat model's reply to each prompt a node sends, as a function of the
      model and of the parts of the prompt that vary. Structured-output calls
      reply with the record they were asked for. */
  datatype ChatReplies = ChatReplies(
    /** `create_analysts`: the analysts for a topic and a requested count. */
    analysts: (ChatModel, string, Value) -> seq<Analyst>,
    /** `generate_question`: the next question, given the persona and the history. */
    question: (ChatModel, string, seq<Message>) -> Message,
    /** `search_web` and `search_arxiv` each ask for their own query. */
    webQuery: (ChatModel, seq<Message>) -> SearchQuery,
    arxivQuery: (ChatModel, seq<Message>) -> SearchQuery,
    /** `generate_answer`: the answer, given the persona, the context and the history. */
    answer: (ChatModel, string, seq<string>, seq<Message>) -> Message,
    /** `write_section`: the section text, given the analyst's focus and the context. */
    section: (ChatModel, string, seq<string>) -> string,
    /** The three writers: text for a topic and the formatted sections. */
    report: (ChatModel, string, string) -> string,
    introduction: (ChatModel, string, string) -> string,
    conclusion: (ChatModel, string, string) -> string)

  /** The process environment, the two search backends (called with the
      result limit and the query) and `get_buffer_string`. */
  datatype Services = Services(
    environ: map<string, string>,
    tavily: (Value, Option<string>) -> Outcome<WebResult>,
    arxiv: (Value, Option<string>) -> Outcome<ArxivDoc>,
    bufferString: seq<Message> -> string)

  /** A chat model replies with AI messages that carry no `name`. */
  ghost predicate RepliesAreAIMessages(llm: ChatReplies) {
    (forall m, p, h :: llm.question(m, p, h).role == AI && llm.question(m, p, h).name == None)
    && (forall m, p, c, h :: llm.answer(m, p, c, h).role == AI)
  }

  /** `load_chat_model(configuration.model)`, which every model-calling node
      runs first. The setting is not type-checked: a non-string value fails
      at the `split` call with Python's attribute error. */
  function ChatModelFor(configuration: Configuration, environ: map<string, string>): (r: Result<ChatModel>)
    ensures configuration.model.Str? ==> r == LoadChatModel(configuration.model.s, environ)
    ensures !configuration.model.Str? ==> r.Failure? && r.error == NoSplitError(configuration.model)
  {
    match configuration.model
    case Str(s) => LoadChatModel(s, environ)
    case _ => Failure(NoSplitError(configuration.model))
  }

  /** `str(AttributeError)` raised by `value.split("/", 1)` on a non-string. */
  function NoSplitError(v: Value): string
    requires !v.Str?
  {
    var typeName := match v
      case Null => "NoneType"
      case Bool(_) => "bool"
      case Int(_) => "int"
      case Dict(_) => "dict";
    "'" + typeName + "' object has no attribute 'split'"
  }

  /** With no configuration the model setting is "azure/gpt-4.1", so the model
      loads exactly when both Azure variables are set. */
  lemma DefaultModelNeedsAzureSettings(environ: map<string, string>)
    ensures ChatModelFor(Defaults, environ).Success?
            <==> IsSet(environ, "AZURE_OPENAI_ENDPOINT") && IsSet(environ, "AZURE_OPENAI_API_KEY")
  {
    assert Defaults.model.s == "azure/" + "gpt-4.1";
    AzureProvider("gpt-4.1", environ);
  }
}
