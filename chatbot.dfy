/** `ChatBot.respond`: one turn of the job-posting chat. Two mode flags
    select what happens; only "Chat" with "Q&A with MongoDB" searches the
    document store, renders what it found and asks the language model.
    Every turn appends exactly one (message, reply) entry to the caller's
    history and returns the empty string; a failing search or model call
    becomes an error reply instead of an exception.

    The document store's text search and the language-model chain are
    outside this model: they are passed in as functions, `search` from the
    query to the postings found (in the store's order) or an error text,
    and `generate` from (context, question) to the answer or an error text. */
module ChatBot {
  import opened Text
  import opened Render

  /** What an external call produced: a value, or the text of the
      exception it raised (Python's `str(e)`). */
  datatype Outcome<T> = Ok(value: T) | Err(error: string)

  type SearchOracle = string -> Outcome<seq<Record>>
  type GenerateOracle = (string, string) -> Outcome<string>

  /** One entry of the conversation history: the user's message and the
      bot's reply. */
  datatype Entry = Entry(message: string, reply: string)

  /** A call to an external service: the text search with its query, or the
      language model with the rendered context and the question. */
  datatype OracleCall = SearchCall(query: string) | GenerateCall(result: string, question: string)

  /** What one turn produces: the reply appended to the history and the
      external calls made, in order. */
  datatype Turn = Turn(reply: string, calls: seq<OracleCall>)

  const ChatFunctionality: string := "Chat"
  const MongoChatType: string := "Q&A with MongoDB"
  const InvalidFunctionality: string := "Invalid app functionality."
  const UnsupportedChatType: string := "Unsupported chat type."
  const ErrorPrefix: string := "❌ Error querying MongoDB Cloud: "
  /** The cursor limit of the search: at most this many postings are used. */
  const ResultLimit: nat := 5

  /** The reply for a failed external call. */
  function ErrorReply(error: string): (r: string)
    ensures ErrorPrefix <= r && r[|ErrorPrefix|..] == error
  {
    ErrorPrefix + error
  }

  /** The search-and-generate turn: search with the message, keep the first
      `ResultLimit` postings, render them, and ask the model with the
      rendering as result and the message as question. */
  function QueryTurn(message: string, search: SearchOracle, generate: GenerateOracle): (t: Turn)
    ensures |t.calls| >= 1 && t.calls[0] == SearchCall(message)
    ensures search(message).Err? ==>
      t == Turn(ErrorReply(search(message).error), [SearchCall(message)])
    ensures search(message).Ok? ==>
      var context := Context(Take(search(message).value, ResultLimit));
      && t.calls == [SearchCall(message), GenerateCall(context, message)]
      && t.reply == match generate(context, message)
                    case Ok(answer) => answer
                    case Err(e) => ErrorReply(e)
  {
    match search(message)
    case Err(e) => Turn(ErrorReply(e), [SearchCall(message)])
    case Ok(found) =>
      var context := Context(Take(found, ResultLimit));
      var calls := [SearchCall(message), GenerateCall(context, message)];
      match generate(context, message)
      case Ok(answer) => Turn(answer, calls)
      case Err(e) => Turn(ErrorReply(e), calls)
  }

  /** The whole turn, by the two mode flags, tested in the source's order. */
  function Answer(message: string, chatType: string, appFunctionality: string,
                  search: SearchOracle, generate: GenerateOracle): (t: Turn)
    ensures appFunctionality != ChatFunctionality ==>
      t == Turn(InvalidFunctionality, [])
    ensures appFunctionality == ChatFunctionality && chatType != MongoChatType ==>
      t == Turn(UnsupportedChatType, [])
    ensures t.calls != [] <==> appFunctionality == ChatFunctionality && chatType == MongoChatType
  {
    if appFunctionality == ChatFunctionality then
      if chatType == MongoChatType then QueryTurn(message, search, generate)
      else Turn(UnsupportedChatType, [])
    else Turn(InvalidFunctionality, [])
  }

  /** The caller's conversation history, a list the turn appends to. */
  class History {
    var entries: seq<Entry>

    constructor ()
      ensures entries == []
    {
      entries := [];
    }

    /** Python's `list.append`. */
    method Append(e: Entry)
      modifies this
      ensures entries == old(entries) + [e]
    {
      entries := entries + [e];
    }
  }

  /** `ChatBot.respond(chatbot, message, chat_type, app_functionality)`:
      appends one entry to `chatbot` and returns `("", chatbot)`. The ghost
      `calls` records the external calls made, in order. */
  method Respond(chatbot: History, message: string, chatType: string, appFunctionality: string,
                 search: SearchOracle, generate: GenerateOracle)
    returns (cleared: string, updated: History, ghost calls: seq<OracleCall>)
    modifies chatbot
    ensures cleared == "" && updated == chatbot
    ensures chatbot.entries ==
      old(chatbot.entries) + [Entry(message, Answer(message, chatType, appFunctionality, search, generate).reply)]
    ensures calls == Answer(message, chatType, appFunctionality, search, generate).calls
  {
    calls := [];
    if appFunctionality == ChatFunctionality {
      if chatType == MongoChatType {
        calls := calls + [SearchCall(message)];
        var found := search(message);
        if found.Err? {
          chatbot.Append(Entry(message, ErrorReply(found.error)));
        } else {
          var results := Take(found.value, ResultLimit);
          var response := Context(results);
          calls := calls + [GenerateCall(response, message)];
          var answer := generate(response, message);
          if answer.Err? {
            chatbot.Append(Entry(message, ErrorReply(answer.error)));
          } else {
            chatbot.Append(Entry(message, answer.value));
          }
        }
      } else {
        chatbot.Append(Entry(message, UnsupportedChatType));
      }
    } else {
      chatbot.Append(Entry(message, InvalidFunctionality));
    }
    cleared, updated := "", chatbot;
  }

  /** The two unsupported mode combinations reply the same whatever the
      external services would do, and call neither. */
  lemma UnsupportedModesIgnoreServices(message: string, chatType: string, appFunctionality: string,
                                       search1: SearchOracle, generate1: GenerateOracle,
                                       search2: SearchOracle, generate2: GenerateOracle)
    requires appFunctionality != ChatFunctionality || chatType != MongoChatType
    ensures Answer(message, chatType, appFunctionality, search1, generate1)
         == Answer(message, chatType, appFunctionality, search2, generate2)
    ensures Answer(message, chatType, appFunctionality, search1, generate1).calls == []
  {
  }

  /** A failed search or model call is reported, prefixed, as the reply. */
  lemma FailureBecomesReply(message: string, search: SearchOracle, generate: GenerateOracle)
    ensures search(message).Err? ==>
      Answer(message, MongoChatType, ChatFunctionality, search, generate).reply
        == ErrorPrefix + search(message).error
    ensures search(message).Ok? &&
            generate(Context(Take(search(message).value, ResultLimit)), message).Err? ==>
      Answer(message, MongoChatType, ChatFunctionality, search, generate).reply
        == ErrorPrefix + generate(Context(Take(search(message).value, ResultLimit)), message).error
  {
  }

  /** After a successful search, the turn makes exactly two calls: the
      search with the message, then the model with the context of the first
      `ResultLimit` postings and the message as question. */
  lemma ModelCallOfSearch(message: string, search: SearchOracle, generate: GenerateOracle)
    requires search(message).Ok?
    ensures Answer(message, MongoChatType, ChatFunctionality, search, generate).calls
         == [SearchCall(message), GenerateCall(Context(Take(search(message).value, ResultLimit)), message)]
  {
  }

  /** The model sees at most `ResultLimit` blocks, one per posting, in the
      order the store returned the postings; with nothing found it sees the
      "no results" sentence. The blocks can be told apart at their blank
      lines when the postings are tidy (`TidyFields`); the lines of a block,
      when it shows no line break (`SingleLineFields`). */
  lemma ModelSeesFirstPostings(message: string, search: SearchOracle, generate: GenerateOracle)
    requires search(message).Ok?
    ensures var found := search(message).value;
            var first := Take(found, ResultLimit);
            var calls := Answer(message, MongoChatType, ChatFunctionality, search, generate).calls;
            && |calls| == 2 && calls[1].GenerateCall? && calls[1].question == message
            && (calls[1].result == NoResults <==> |found| == 0)
            && |first| == (if |found| < ResultLimit then |found| else ResultLimit)
            && first <= found
            && (|found| > 0 && (forall k :: 0 <= k < |first| ==> TidyFields(first[k])) ==>
                  SplitsBackInto(calls[1].result, first))
  {
    var found := search(message).value;
    var first := Take(found, ResultLimit);
    ModelCallOfSearch(message, search, generate);
    ContextIsNoResultsIff(first);
    if |found| > 0 && forall k :: 0 <= k < |first| ==> TidyFields(first[k]) {
      ContextSplitsIntoLinesOfBlocks(first);
    }
  }
}
