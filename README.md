# Job-posting chat turn, modelled in Dafny

This project models `ChatBot.respond` from `src/utils/chatbot.py` of a small
retrieval-and-chat service. One call handles one user message:

- Two string flags pick what happens, in a fixed order: `app_functionality`
  must be `"Chat"`, then `chat_type` must be `"Q&A with MongoDB"`.
- In that mode the message is a full-text query to a MongoDB collection of
  job postings. The first 5 hits are rendered into a text context. The
  context is the `result` and the message the `question` of a language-model
  chain, and the chain's answer is the reply.
- Every path appends exactly one `(message, reply)` pair to the
  caller's history list and returns `""` with that list.
- An exception from the search or the model becomes an error reply. It is
  never raised to the caller.

Files:

- `text.dfy` (module `Text`): the two Python string operations the
  renderer uses, with their Python meaning: slicing / cursor `limit` (`Take`)
  and `sep.join` (`Join`). It also defines `s.split(sep)` (`Split`) and
  `x in s` (`Occurs`). The program calls neither; they are here only to
  state what a joined text contains and when splitting it gives back its
  parts.
- `render.dfy` (module `Render`): the renderer. A posting is a map from
  field name to text. It becomes 16 labelled lines, where a missing field
  shows `N/A` and the description is cut to 500 characters and followed by
  `...`. Blocks are joined by a blank line, and an empty result set becomes
  `No relevant job postings found.`
- `chatbot.dfy` (module `ChatBot`): the dispatch, the error containment and
  the caller's history. `History` is a class whose `entries` the method
  `Respond` appends to in place. `Answer` is the pure specification of the
  reply and of the external calls a turn makes.

The document store's search and the language-model chain are external
services. Here they are parameters of `Respond`:

- `search` maps the query to the postings found, in the store's order, or
  to the text of the exception raised.
- `generate` maps (context, question) to the answer or to an exception text.

`Respond` also returns, as a ghost value, the sequence of calls it made to
these two services. That is how "the unsupported modes touch neither
service" is stated.

Strings are sequences of Unicode code points, as Python's are, so the
`[:500]` cut counts characters the way the source does.

Two turns on the same history add two entries in call order. This follows
from `Respond`'s postcondition applied twice.

A posting is *tidy* when nothing its block shows holds a blank line (two
line breaks in a row), and no shown field that ends its line ends in a line
break. What the block shows is the 17 fields it shows whole and the first
500 characters of the description. The title, the location and the contact
person are followed on their line by `**`, `, ` and ` - `, so they may end
in a line break. Fields the block does not read are unconstrained.
`Render.TidyFields` states this, and `Render.SingleLineFields` states that
nothing the block shows holds a line break at all.

## Model

| member | source | states |
|---|---|---|
| `Text.Take` | src/utils/chatbot.py:46 | `limit(5)` and `[:500]`: the result has min(n, length) elements, is a prefix of the input, and equals the input exactly when the input is no longer than n |
| `Render.Get` | src/utils/chatbot.py:53-68 | `res.get(key, 'N/A')`: the field's value when present, the placeholder `N/A` when absent |
| `Render.Description` | src/utils/chatbot.py:68 | the shown description is at most 500 characters, is a prefix of the description (or of `N/A`), is all of it exactly when it has at most 500 characters, and is `N/A` when the field is missing |
| `Render.Lines` | src/utils/chatbot.py:53-68 | a posting renders as exactly 16 lines, line i being the i-th fixed label followed by the text shown for it |
| `Render.Blocks` | src/utils/chatbot.py:51-70 | one block per posting, same number and same order as the postings |
| `Render.EmptyPostingShowsPlaceholders` | src/utils/chatbot.py:53-68 | a posting with no fields shows `N/A` in every slot, including both slots of the location and contact lines, and `N/A...` as description |
| `Text.Join` | src/utils/chatbot.py:51 | `sep.join`: no parts give the empty string, otherwise the result starts with the first part |
| `Text.JoinContainsParts` | src/utils/chatbot.py:51 | every part occurs whole in the joined string |
| `Render.Shown` | src/utils/chatbot.py:53-68 | the text after the labels has 16 slots; the description slot is between 3 and 503 characters long and ends in `...` |
| `Render.PlainSlot` | src/utils/chatbot.py:54-67 | each of the twelve lines that read one field shows exactly that field's value (or `N/A`) |
| `Render.CompoundSlot` | src/utils/chatbot.py:53-58 | the title line shows the whole title, the location line both location and country, the contact line both contact person and contact |
| `Render.SlotShowsField` | src/utils/chatbot.py:53-68 | each of the 18 fields the block reads appears whole in the text of its line (title, both location fields, both contact fields); the description appears as far as it is shown |
| `Render.Block` | src/utils/chatbot.py:53-68 | a block starts with the pin label of the title line and contains each of the posting's 16 lines |
| `Render.Context` | src/utils/chatbot.py:48-71 | the context is `No relevant job postings found.` for no results; otherwise it starts with the first posting's block and contains every posting's block |
| `Render.FieldsInContext` | src/utils/chatbot.py:51-71 | every field any posting's block reads (other than the cut description) appears whole in the context |
| `Render.UnreadFieldIsIgnored` | src/utils/chatbot.py:53-68 | setting a field the block does not read leaves the block unchanged, and leaves unchanged whether the posting is tidy and whether it shows a line break |
| `Render.BlockIsSeparable` | src/utils/chatbot.py:51-68 | for a tidy posting, the block holds no blank line, not even one run on into a following line break |
| `Render.BlockSplitsIntoLines` | src/utils/chatbot.py:53-68 | when nothing the block shows holds a line break, splitting the block at line breaks gives back exactly its 16 labelled lines in order |
| `Render.BlockSplitsIntoLinesOnlyIf` | src/utils/chatbot.py:53-68 | the converse: when splitting the block at line breaks gives back its 16 lines, nothing the block shows holds a line break (fields it does not read may) |
| `Render.ContextSplitsIntoBlocks` | src/utils/chatbot.py:50-71 | for a non-empty result set of tidy postings, splitting the context at blank lines gives back exactly one block per posting, in result order |
| `Render.ContextSplitsIntoLinesOfBlocks` | src/utils/chatbot.py:50-71 | for a non-empty result set of tidy postings, the context splits at blank lines into one block per posting in order, and each block that shows no line break splits at line breaks into its 16 lines |
| `Render.ContextIsNoResultsIff` | src/utils/chatbot.py:48-51 | the context is `No relevant job postings found.` if and only if the result set is empty |
| `Render.ShownInContext` | src/utils/chatbot.py:51-71 | any text shown on any line of any posting's block occurs in the context |
| `Render.TitleAndCompanyInContext` | src/utils/chatbot.py:53-54 | a posting's job title, when present, occurs verbatim in the context, and so does its company, when present, each independently of the other |
| `ChatBot.ErrorReply` | src/utils/chatbot.py:90 | an error reply is the prefix `❌ Error querying MongoDB Cloud: ` followed by exactly the exception text |
| `ChatBot.QueryTurn` | src/utils/chatbot.py:36-91 | the search is called first, with the message; a failed search gives the error reply and no model call; otherwise the model is called once with the context of the first 5 postings and the message, and its answer or its error reply is the reply |
| `ChatBot.Answer` | src/utils/chatbot.py:34-98 | the flags are tested in order: a functionality other than `Chat` gives `Invalid app functionality.` whatever the chat type; `Chat` with another chat type gives `Unsupported chat type.`; external calls happen if and only if both flags select the search mode |
| `ChatBot.History.Append` | src/utils/chatbot.py:86 | `list.append`: the history becomes the old history with the entry added at the end |
| `ChatBot.Respond` | src/utils/chatbot.py:20-98 | returns `""` and the same history object; the history gains exactly one entry at its end, earlier entries unchanged, holding the message and the reply `Answer` specifies; the external calls made are those `Answer` lists |
| `ChatBot.UnsupportedModesIgnoreServices` | src/utils/chatbot.py:93-98 | with unsupported flags, the turn is the same for any search and model behaviour and calls neither |
| `ChatBot.FailureBecomesReply` | src/utils/chatbot.py:89-91 | a failed search, or a failed model call after a successful search, yields the prefixed error text as the reply instead of an exception |
| `ChatBot.ModelCallOfSearch` | src/utils/chatbot.py:46-84 | after a successful search the turn makes exactly two calls: the search with the message, then the model with the context of the first 5 postings and the message |
| `ChatBot.ModelSeesFirstPostings` | src/utils/chatbot.py:46-84 | for every successful search: the model is called with the message as question; its context is the no-results sentence if and only if nothing was found; the postings used are the first min(5, found) in the store's order. In addition, when something was found and those postings are tidy, the context splits back into one block per posting, each block that shows no line break into that posting's 16 lines |

## Left out

- MongoDB's `$text` search (src/utils/chatbot.py:38-46). Which postings match, and in what order, belongs to the database: the query has no sort, so the store returns them in whatever order it likes. The `search` parameter stands for it, and the model only applies the limit of 5 to its answer in the order given. A failure to reach the collection is folded into `search` failing.
- The LangChain chain (src/utils/chatbot.py:74-84): the prompt template, the `query` template variable and the Azure OpenAI model with its temperature are foreign code and a hosted model. The `generate` parameter stands for the whole chain, from (result, question) to answer or error.
- Field values that are not strings. A posting's fields are modelled as text. In the source, a missing `Job Description` falls back to `'N/A'`, but one stored as `None` would make the slice at src/utils/chatbot.py:68 raise. The `except` branch would then turn that into an error reply. This model does not cover that path.
- ChatBot.ModelSeesFirstPostings: the question, the two calls, the postings used and the no-results equivalence are stated for every successful search. The split into blocks is stated only when the first 5 postings are tidy, and the split of a block into its lines only when the block shows no line break. A blank line inside a block reads as the separator between blocks, and a shown line break adds a line. `Render.BlockSplitsIntoLinesOnlyIf` proves the line condition necessary. The block condition is not proved necessary.
- Render.ContextSplitsIntoBlocks: stated only for tidy postings. Line breaks inside a shown field are allowed. But a blank line in a shown field, or one formed by a line-ending field's final line break and the line break after it, reads as the separator between blocks. That untidy postings do break the split is not proved.
- src/utils/load_config.py: environment variables, YAML loading, client construction and index creation are one-time setup with no logic. Its `top_k` is read but never used by `respond`.
- src/azure_open_ai_api_test.py and src/azure_open_ai_api_embed_test.py: network smoke tests that only print.
- The module-level globals (`APPCFG`, `langchain.debug`) and several callers sharing one history list. The source has no synchronisation for that.
