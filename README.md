# Documentation assistant: conversation graph, console session and ingestion line filter

This project models two pieces of a retrieval-augmented documentation assistant in Dafny and proves properties of them.

**One conversation turn** is a small state graph over `ConversationState` (`question`, `intent`, `context`, `response`, `history`). The turn always starts with intent analysis. The router then sends it either to context retrieval followed by reply composition, or to a clarification request. Each node returns a partial dictionary holding only the key it sets, and the graph merges that into the state. Failures are handled per node:

- Intent analysis turns any failure into the label `"unclear"`.
- Reply composition turns any failure into a fixed apology.
- Retrieval catches nothing, so its failure escapes the turn.

**The console session** (`run_console_app`) loops over input lines. It stops on `salir`, `exit` or `quit`, compared after `lower()`. Otherwise it runs one turn, then appends `"Tú: " + question` and `"Agente: " + response` to the history the next turn sees.

**The ingestion line filter** splits the scraped text on `'\n'`, keeps the lines whose `strip()` is non-empty and joins them again with `'\n'`.

Files and modules:

- `pystr.dfy`, module `PyStr`: the Python `str` operations used.
  - `isspace` with Python's exact whitespace set.
  - `strip`.
  - `split` on one character, and `join`.
  - `lower`, on ASCII letters only.
  - The round trips between `split` and `join`, and where `join` places each part.
- `graph.dfy`, module `ConversationGraph`:
  - the state, the partial updates and the merge;
  - the four nodes and the router;
  - the edge tables of `build_graph` and the interpreter `Run`/`RunTurn`;
  - the lemmas about a turn.
- `session.dfy`, module `ConsoleSession`: the session loop as a method with loop invariants, and a two-turn client.
- `ingest.dfy`, module `Ingest`: the line filter and its properties.

The language model and the retriever are parameters (`Services`):

- The model is a total function from the prompt variables it is invoked with to `Generated(text) | Failed`. `Failed` stands for any exception in the prompt | model | parser chain.
- The retriever is a function from the question to `Passages(contents) | RetrievalFailed`.
- The session receives `env: nat -> Services`, the services as they behave during turn `k`. A provider may therefore answer differently, or fail transiently, from one turn to the next.

## Model

The state record `ConversationGraph.State` is `ConversationState` (grafo_de_estados/app.py:30-35). The constants `ConversationGraph.Branches` and `ConversationGraph.Edges` are the conditional and unconditional edges of `build_graph` (grafo_de_estados/app.py:178-190); `ConversationGraph.Next` below states what they give.

| member | source | states |
|---|---|---|
| PyStr.StripStart | grafo_de_estados/app.py:111 | the index where `strip()` starts: every character before it is whitespace, and the character at it is not |
| PyStr.StripEnd | grafo_de_estados/app.py:111 | the index where `strip()` ends: every character from it on is whitespace, and the one before it is not |
| PyStr.Strip | ia_agente/ingest_data.py:40 | `strip()` gives the slice between the leading and trailing whitespace. It is empty exactly when the text is all whitespace; otherwise it starts and ends with a non-whitespace character |
| PyStr.StripOfContent | grafo_de_estados/app.py:111 | a text that starts and ends with a non-whitespace character is its own strip |
| PyStr.StripIdempotent | grafo_de_estados/app.py:111 | `strip()` applied twice equals `strip()` applied once |
| PyStr.IsWhitespace | ia_agente/ingest_data.py:40 | the characters `strip()` removes and `isspace()` accepts: Python's whole whitespace set by code point, U+0009-U+000D, U+001C-U+0020, U+0085, U+00A0, U+1680, U+2000-U+200A, U+2028, U+2029, U+202F, U+205F and U+3000 |
| PyStr.HasContent | ia_agente/ingest_data.py:40 | the truth value of `line.strip()` is true exactly when the line has a character outside the whitespace set |
| PyStr.Split | ia_agente/ingest_data.py:40 | `split('\n')` always gives at least one piece, and no piece contains the separator |
| PyStr.JoinSplit | ia_agente/ingest_data.py:40 | joining the pieces of a split with the same separator gives back the original text |
| PyStr.SplitAfterPiece | ia_agente/ingest_data.py:40 | a piece without the separator, followed by the separator, becomes its own piece of the split |
| PyStr.SplitOfPiece | ia_agente/ingest_data.py:40 | a text without the separator splits into just itself |
| PyStr.SplitJoin | ia_agente/ingest_data.py:40 | splitting a join gives back the parts, when no part contains the one-character separator |
| PyStr.Join | grafo_de_estados/app.py:110 | `sep.join(parts)`: the parts with the separator between consecutive ones; its placement properties are JoinPieceAt and JoinSeparatorAfter |
| PyStr.JoinOfNone | grafo_de_estados/app.py:123 | an empty list joins to `""`, so a retriever that returns no documents gives an empty context |
| PyStr.JoinPieceAt | grafo_de_estados/app.py:123 | `join` lays each part, unchanged, at its offset in list order; the last part ends the text |
| PyStr.JoinSeparatorAfter | grafo_de_estados/app.py:123 | between each part and the next, `join` puts exactly the separator |
| PyStr.LowerChar | grafo_de_estados/app.py:207 | ASCII upper-case letters map to their lower-case letters; every other character is unchanged |
| PyStr.Lower | grafo_de_estados/app.py:207 | `lower()` keeps the length and lowers each character in place |
| Ingest.KeepContentLines | ia_agente/ingest_data.py:40 | the filter keeps a line exactly when its `strip()` is non-empty. Kept lines appear as often as in the input, unaltered, as a subsequence in input order |
| Ingest.KeptLinesAreLines | ia_agente/ingest_data.py:40 | every kept line is an input line, and it has content |
| Ingest.ContentIsNonEmpty | ia_agente/ingest_data.py:40 | a line whose strip is non-empty is itself non-empty |
| Ingest.JoinHasNoEmptyLine | ia_agente/ingest_data.py:40 | joining non-empty, newline-free lines with `'\n'` gives a text with no empty line, which is non-empty when there is a line |
| Ingest.KeepNothingIffAllBlank | ia_agente/ingest_data.py:40 | the filter keeps nothing exactly when every line is blank |
| Ingest.KeptPiecesAreLines | ia_agente/ingest_data.py:40 | the lines the filter keeps are non-empty and contain no `'\n'` |
| Ingest.CleanText | ia_agente/ingest_data.py:40 | the cleaned text has no empty line: it never starts or ends with `'\n'` and never contains `"\n\n"`. It is `""` exactly when every line of the input is blank, the empty input included |
| Ingest.CleanTextLines | ia_agente/ingest_data.py:40 | splitting a non-empty cleaned text on `'\n'` gives exactly the kept lines |
| Ingest.CleanedLinesHaveContent | ia_agente/ingest_data.py:40 | every line of a non-empty cleaned text has a non-whitespace character |
| Ingest.KeepAllContentLines | ia_agente/ingest_data.py:40 | when every line has content, the filter returns the lines unchanged |
| Ingest.CleanTextIdempotent | ia_agente/ingest_data.py:40 | cleaning an already cleaned text returns it unchanged |
| ConversationGraph.Initial | grafo_de_estados/app.py:212 | a turn starts with only `question` and `history` set |
| ConversationGraph.Merge | grafo_de_estados/app.py:166 | merging a partial update overwrites exactly the keys the update holds. `question` and `history` never change |
| ConversationGraph.FlattenHistory | grafo_de_estados/app.py:110 | `"\n".join(state['history'])`, the history both prompts see (also grafo_de_estados/app.py:137) |
| ConversationGraph.FlattenHistoryReadBack | grafo_de_estados/app.py:137 | a non-empty history whose entries hold no `'\n'` is read back, entry by entry and in order, by splitting its flattened form on `'\n'` |
| ConversationGraph.AnalyzeIntent | grafo_de_estados/app.py:102-115 | returns only `intent`. It is the stripped model output on success and `"unclear"` on any failure, with no surrounding whitespace either way |
| ConversationGraph.RetrieveContext | grafo_de_estados/app.py:117-124 | returns only `context`, which is the passages joined by `"\n\n---\n\n"`. It raises exactly when the retriever fails |
| ConversationGraph.ComposeReply | grafo_de_estados/app.py:126-142 | returns only `response`. That is the model text, not stripped, on success; if the model fails or `context` is missing, it is the fixed apology |
| ConversationGraph.GenerateClarificationResponse | grafo_de_estados/app.py:144-149 | takes no service and returns only `response`, the fixed clarification text, whatever the state |
| ConversationGraph.RouteByIntent | grafo_de_estados/app.py:151-160 | returns `"retrieve_context"` exactly when the intent is in the retrieval list, and `"clarify_question"` otherwise |
| ConversationGraph.RouteByIntentCases | grafo_de_estados/app.py:156-160 | every router key is in the conditional-edge map. Retrieval is chosen exactly for the three intents spelled exactly; `"unclear"` goes to clarification |
| ConversationGraph.RouteIsCaseSensitive | grafo_de_estados/app.py:157 | an intent in another letter case (`General_Question`) goes to clarification |
| ConversationGraph.Next | grafo_de_estados/app.py:175-190 | every edge goes strictly down in rank, so the graph has no cycle. A node leads to END exactly when it writes `response` |
| ConversationGraph.Execute | grafo_de_estados/app.py:169-172 | every node except retrieval returns; a node that returns sets exactly the key it owns |
| ConversationGraph.Run | grafo_de_estados/app.py:162-193 | a run from a node starts its trace with that node. A completed run keeps `question` and `history`, sets `response` and ends at a node that writes it; an aborted run ends at retrieval |
| ConversationGraph.RunTurn | grafo_de_estados/app.py:215 | a completed turn keeps `question` and `history` and sets `response` |
| ConversationGraph.Analysed | grafo_de_estados/app.py:175 | after intent analysis, the state holds the question, the analysed intent and the unchanged history, and nothing else |
| ConversationGraph.RunFromCompose | grafo_de_estados/app.py:189 | composition merges its reply and ends the turn |
| ConversationGraph.RunFromClarify | grafo_de_estados/app.py:190 | clarification merges its text and ends the turn |
| ConversationGraph.RunFromRetrieve | grafo_de_estados/app.py:186 | if the retriever fails, retrieval aborts; otherwise it merges the context and continues to composition |
| ConversationGraph.RunFromEntry | grafo_de_estados/app.py:175-185 | a turn is intent analysis followed by the branch the router names |
| ConversationGraph.TurnTopology | grafo_de_estados/app.py:169-190 | the trace is `[analyze, retrieve, compose]` when the intent is a retrieval intent, and `[analyze, clarify]` otherwise. A turn aborts, after `[analyze, retrieve]`, exactly when it takes retrieval and the retriever fails |
| ConversationGraph.TurnFinalState | grafo_de_estados/app.py:169-190 | a completed turn holds the analysed intent. `context` is set only on the retrieval path, to the joined passages; `response` comes from the one terminal node that ran |
| ConversationGraph.TurnCompletesUnlessRetrievalFails | grafo_de_estados/app.py:122 | a turn whose retriever succeeds always completes |
| ConversationGraph.TurnRunsNodesOnce | grafo_de_estados/app.py:186-190 | no node appears twice in a trace, and only the last node of a completed trace writes `response` |
| ConversationGraph.FailedAnalysisAsksForClarification | grafo_de_estados/app.py:112-115 | when intent analysis fails, the turn completes with intent `"unclear"`, no context and the clarification text, whatever the retriever would do |
| ConversationGraph.FailedCompositionApologises | grafo_de_estados/app.py:140-142 | on the retrieval path, a model failure while composing still completes the turn, with the apology as response |
| ConversationGraph.StripTrailingNewline | grafo_de_estados/app.py:111 | a label followed by a newline strips to the bare label |
| ConversationGraph.LabelLineIsIntent | grafo_de_estados/app.py:110-111 | a classifier output that is a bare label followed by a newline gives exactly that label as the intent |
| ConversationGraph.GeneralQuestionIsAnsweredFromContext | grafo_de_estados/app.py:102-142 | "What is LangChain?" with empty history, classified `general_question`: the context is the joined passages and the response is the model's answer from them |
| ConsoleSession.IsExitCommand | grafo_de_estados/app.py:207 | the line, lower-cased and not stripped, is `salir`, `exit` or `quit`; ExitCommandExamples and ExitCommandShape state its consequences |
| ConsoleSession.UserLine | grafo_de_estados/app.py:221 | the user's history entry, `"Tú: "` followed by the input line |
| ConsoleSession.AgentLine | grafo_de_estados/app.py:222 | the agent's history entry, `"Agente: "` followed by the response |
| ConsoleSession.HistoryLinesReadBack | grafo_de_estados/app.py:221-222 | a user entry is never an agent entry, and each gives back the question or the response after its prefix |
| ConsoleSession.RecordsTurnKept | grafo_de_estados/app.py:221-222 | appending to the history keeps the record of every earlier turn |
| ConsoleSession.RecordsTurnNext | grafo_de_estados/app.py:221-222 | the two lines a completed turn appends record that turn |
| ConsoleSession.RecordsTurnsExtended | grafo_de_estados/app.py:221-222 | after a completed turn that was not an exit command, the history with its two new lines records every turn so far, the new one included |
| ConsoleSession.RunConsoleApp | grafo_de_estados/app.py:195-222 | after N completed turns the history has 2N entries. Entry 2k is `"Tú: "` + input k, and entry 2k+1 is `"Agente: "` + the reply turn k gave from the first 2k entries. None of those inputs is an exit keyword. The loop ends with the farewell exactly at the first exit keyword, with a crash exactly when turn N aborts (nothing appended), or at end of input |
| ConsoleSession.ExitCommandExamples | grafo_de_estados/app.py:207 | `salir`, `EXIT` and `Quit` end the session |
| ConsoleSession.NonExitCommandExamples | grafo_de_estados/app.py:207 | `exit `, ` salir` and `adios` do not end the session: the line is not stripped |
| ConsoleSession.ExitCommandShape | grafo_de_estados/app.py:207 | an exit command has four or five characters and contains no whitespace |
| ConsoleSession.TwoTurnSession | grafo_de_estados/app.py:205-222 | two questions whose retrievals succeed leave 4 history entries: user 1, agent 1, user 2, agent 2, each reply the one its turn gave |

## Left out

- Provider selection and client construction are left out. So are the `ValueError` for an unknown provider, the loading of the FAISS index, `as_retriever` and the start-up `sys.exit(1)` (grafo_de_estados/app.py:39-99). These are foreign library calls made once at start-up; the model receives the resulting services as parameters.
- `ChatPromptTemplate` rendering and `StrOutputParser` (grafo_de_estados/app.py:108-110, 132-138) are not modelled. They are library code; each chain invocation is one call whose outcome is `Generated` or `Failed`. Whether `from_template` accepts the message lists defined in grafo_de_estados/config.py is up to the library. If it raises, every turn takes the `Failed` path, which `FailedAnalysisAsksForClarification` covers.
- LangGraph's `compile()` and `invoke` internals are replaced by the explicit edge tables, `Merge` and the interpreter `Run`.
- Console input, `print` logging, the printed reply and the farewell message are I/O. Input is a sequence of lines; the printed reply equals the agent line without its prefix.
- After a turn aborts, the exception escapes `run_console_app`, and the traceback and process exit are not modelled. The model only records that the session ended with `Crashed`.
- The `history` list is shared by reference between the session and the initial state. The model uses a value instead. This loses nothing, because no node writes `history`.
- The temperature (a float), embeddings, the HTTP fetch and BeautifulSoup extraction (ia_agente/ingest_data.py:35-39), chunking (ia_agente/ingest_data.py:49-54) and index creation and saving (ia_agente/ingest_data.py:58-89) are left out. They are numerical, network or third-party work.
- grafo_de_estados/config.py holds only constants. Its intent list documents the labels; the values the code depends on (the retrieval intents, the apology and clarification texts, the separator) are restated in `ConversationGraph`.
- PyStr.LowerChar: lowers only ASCII `A`-`Z`; Python's `lower()` also lowers non-ASCII capitals such as `É`, which this member keeps unchanged.
- PyStr.Lower: does not model Python's full Unicode `lower()`, only ASCII `A`-`Z`. For the exit test this is exact. No other character lowers to one of the single ASCII letters in `salir`, `exit` or `quit`: the Kelvin sign lowers to `k`, and `İ` lowers to two characters.
- Neither `_retrieve_context` nor `run_console_app` catches a retriever failure (grafo_de_estados/app.py:122, 215), so it ends the session; the model records `Crashed`.
- The `try` in `_analyze_intent` also covers building the prompt (grafo_de_estados/app.py:108). The one in `_compose_reply` also covers reading a missing `context` (grafo_de_estados/app.py:136).
- The exit test lower-cases the line without stripping it (grafo_de_estados/app.py:207), so `"exit "` is a question.
