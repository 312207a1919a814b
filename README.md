# mind-healer backend core, modelled in Dafny

This project models the core of the mind-healer backend (`backend/rag_core.py`). A user sends a worry as free text. The service answers with a *prescription* and an *advice* text. The prescription is a quote drawn at random from the fixed `SWORD_DEMON_QUOTES` list. The advice is either generated by a language model from a prompt that quotes both the prescription and the worry, or taken from a fixed fallback template that echoes both.

The model covers three stateful operations over the module globals `_llm`, `_llm_provider`, `_is_initialized` and `_books_content`:

- **Provider resolution** (`_initialize_llm`). The fixed chain is Gemini, then Groq, then Ollama, then OpenAI. Each cloud backend is tried only when its API key is set, meaning the variable exists and is non-empty, as `if os.getenv(...)` tests it. Ollama is always tried, and it counts only when the probe `invoke("test")` also returns. The first backend that succeeds is committed. If none succeeds, a `ValueError` is raised and the handle is left alone.
- **Initialization** (`initialize_rag_system`). It is a no-op when already initialized, unless a reload is forced. A missing directory, or one with no `.txt` documents, clears the flag without raising. Otherwise the documents are joined with a blank line and cut to 10,000 characters, and a provider is resolved. Any exception clears the flag and is re-raised.
- **Request handling** (`get_ai_response`, `_get_fallback_response`). An uninitialized service retries initialization from `"books"` on every request. Any failure falls back, so the entry point never raises.

The files are organised as follows:

- `providers.dfy`: the resolver as pure functions: the candidate list, the first success, and the backends constructed.
- `corpus.dfy`: the join and the truncation.
- `responses.dfy`: the quotes, the prompt and the fallback.
- `rag_core.dfy`: the globals as a record, with `InitRag` and `Answer` as pure transitions on it, plus the lemmas about them.
- `rag_core.dfy` also holds the class `RagService`. Its fields are the four globals and its methods are proved to perform exactly those transitions.
- `text.dfy`, `options.dfy`: substring facts and the `Option` type.

Where the model takes what the outside world does as parameters:

- The process environment is a `map<string, string>`.
- Whether each backend constructs, and whether the Ollama probe answers, is a record of booleans (`Backends`).
- The file system is a map from existing directories to what the loader returns: a list of page contents, or an exception.
- The language model's reply to a prompt is a function `string -> Option<string>`, where `None` means the call raised.
- Each random draw is an index into the quote list.
- A ghost log, `constructionLog`, records every backend construction attempt.

Behaviour of the code worth noting:

- The prompt never contains corpus text. No 3,000-character excerpt is built.
- A missing or empty directory leaves `_books_content` as it was. After a forced reload this may be non-empty, not the empty string.
- The exhaustion error is a `ValueError` (`NoLlmAvailable` here).
- The lazy initialization in `get_ai_response` always uses `"books"`, not the directory configured at startup.
- If provider resolution raises after documents were loaded, the new corpus stays stored even though the flag is cleared.

## Model

| member | source | states |
|---|---|---|
| Providers.ProviderName | backend/rag_core.py:33 | the committed provider's name is one of "gemini", "groq", "ollama", "openai" |
| Providers.Rank | backend/rag_core.py:37-39 | each provider has a position in the priority chain Gemini, Groq, Ollama, OpenAI |
| Providers.KeySet | backend/rag_core.py:44 | a key counts as set when the variable exists and is not empty, the truthiness test of `if os.getenv(...)` at lines 44, 61 and 90 |
| Providers.Succeeds | backend/rag_core.py:77-85 | a cloud backend succeeds when its constructor returns; Ollama succeeds only when it constructs and `invoke("test")` also returns |
| Providers.Candidates | backend/rag_core.py:43-98 | the backends the chain reaches, in order: Gemini and Groq if their keys are set, Ollama always, then OpenAI if its key is set |
| Providers.FirstSuccess | backend/rag_core.py:43-107 | the first candidate that succeeds, or none; a result is always a succeeding candidate |
| Providers.Tried | backend/rag_core.py:43-107 | the candidates constructed: every one up to and including the first success; always a prefix of the candidates |
| Providers.Resolve | backend/rag_core.py:43-107 | the provider `_initialize_llm` commits to, or none when it raises: the first success among the candidates |
| Providers.Attempts | backend/rag_core.py:43-107 | the backends `_initialize_llm` constructs, in order |
| Providers.CandidatesAreEligible | backend/rag_core.py:44-90 | a backend is a candidate exactly when its key is set; Ollama always is |
| Providers.CandidatesFollowPriority | backend/rag_core.py:37-39 | candidates appear in strictly increasing priority order |
| Providers.FirstSuccessIsCommitted | backend/rag_core.py:43-107 | the backends tried are a prefix of the candidates, every one tried before the last failed, the last is the committed one, and nothing is committed only when every candidate fails and all were tried |
| Providers.FailuresArePassedOver | backend/rag_core.py:55-58 | failing candidates do not abort the scan: it goes on with the rest and they stay in the log |
| Providers.GeminiBranch | backend/rag_core.py:44-54 | with GOOGLE_API_KEY set and Gemini constructing, Gemini is committed and is the only backend constructed |
| Providers.GroqBranch | backend/rag_core.py:61-70 | otherwise, with GROQ_API_KEY set and Groq constructing, Groq is committed after at most the Gemini attempt |
| Providers.ScanReachesOllama | backend/rag_core.py:77-85 | when neither cloud branch commits, the rest of the scan starts at Ollama |
| Providers.OllamaBranch | backend/rag_core.py:77-85 | otherwise Ollama is committed when it constructs and answers the probe, after the keyed cloud attempts |
| Providers.LastBranch | backend/rag_core.py:89-107 | otherwise OpenAI is committed exactly when its key is set and it constructs; if not, every eligible backend was constructed and resolution fails |
| Providers.ResolveRespectsKeysAndOrder | backend/rag_core.py:43-107 | only eligible backends are constructed; the committed one is eligible, succeeds and was constructed; resolution fails exactly when no eligible backend succeeds |
| Providers.OllamaProbedUnlessCloudCommitted | backend/rag_core.py:76-87 | Ollama is probed whatever the keys, unless Gemini or Groq was committed first |
| Corpus.Join | backend/rag_core.py:186 | `"\n\n".join(...)` of the page contents; the join starts with the first document |
| Corpus.Prefix | backend/rag_core.py:187 | `s[:n]` is a prefix of `s` of length min(\|s\|, n) |
| Corpus.LoadCorpus | backend/rag_core.py:185-187 | the stored corpus is a prefix of the blank-line join, at most 10,000 characters, and the whole join when it is shorter |
| Corpus.JoinLength | backend/rag_core.py:186 | the join's length is the documents' total length plus two per separator |
| Corpus.JoinContainsEach | backend/rag_core.py:186 | every document's text occurs verbatim in the join |
| Corpus.CorpusStartsWithFirstDocument | backend/rag_core.py:186-187 | the corpus begins with the first document, up to the budget |
| Corpus.LongSingleFileIsCut | backend/rag_core.py:187 | a single 20,000-character document yields a corpus of exactly 10,000 characters |
| Responses.QuoteListShape | backend/rag_core.py:16-28 | `SWORD_DEMON_QUOTES` holds ten different quotes, the first being "怎麼不找找自己的問題？" |
| Responses.Prompt | backend/rag_core.py:230-251 | the prompt contains the drawn quote and the question verbatim |
| Responses.FallbackAdvice | backend/rag_core.py:274-279 | the fallback advice contains the question and the quote verbatim |
| Responses.FallbackResponse | backend/rag_core.py:266-280 | the fallback prescription is a member of the quote list and its advice repeats both the question and that prescription |
| Responses.StressedQuestionFallback | backend/rag_core.py:266-280 | for the question "我最近壓力很大", the fallback contains that text and its prescription |
| RagCore.Coherent | backend/rag_core.py:30-33 | the invariant on the globals: `_llm_provider` names the provider of `_llm`, `_is_initialized` only with a handle, and `_books_content` within 10,000 characters |
| RagCore.ResolveLlm | backend/rag_core.py:36-107 | `_initialize_llm` on the globals: install the resolved provider and its name and return, or raise `ValueError` and change nothing |
| RagCore.InitRag | backend/rag_core.py:149-198 | `initialize_rag_system` on the globals: the no-op, the missing directory, the loader exception, the empty list, and the load followed by resolution, each with its status and the backends constructed |
| RagCore.Answer | backend/rag_core.py:201-263 | `get_ai_response` on the globals: lazy initialization from "books", then the fallback on any failure or the reply to the prompt |
| RagCore.ResolveLlmCommitsOrKeeps | backend/rag_core.py:36-107 | resolution returns exactly when a provider resolves and then installs it with its name; otherwise it raises and changes nothing; the flag and corpus are untouched |
| RagCore.InitIsIdempotent | backend/rag_core.py:159-160 | initialization while initialized and not forced changes nothing and constructs nothing |
| RagCore.InitTwiceResolvesOnce | backend/rag_core.py:159-198 | whenever an unforced initialization leaves the flag set, a second unforced one is a no-op that constructs no backend |
| RagCore.InitWithoutDocuments | backend/rag_core.py:164-183 | a missing directory or no documents clears the flag, returns normally, constructs nothing and keeps corpus and handle |
| RagCore.InitWithDocuments | backend/rag_core.py:185-198 | with documents, the corpus is the truncated join, the flag is set exactly when a provider resolves (and then the handle is it), and otherwise the ValueError is re-raised with the handle unchanged |
| RagCore.InitializedOnlyAfterResolution | backend/rag_core.py:189-198 | any raised exception leaves the flag cleared; the flag is set only by a no-op on an initialized state or after documents loaded and a provider resolved |
| RagCore.InitPreservesCoherence | backend/rag_core.py:149-198 | initialization keeps the provider name matching the handle, the flag only with a handle, and the corpus within 10,000 characters |
| RagCore.AnswerIsGeneratedOrFallback | backend/rag_core.py:213-263 | the prescription is always a quote; the answer is generated exactly when the service ends up initialized with a handle that replies, with advice equal to the reply to a prompt holding quote and question; otherwise it is the fallback, which echoes question and quote |
| RagCore.LazyInitializationUsesDefaultDirectory | backend/rag_core.py:214-216 | an uninitialized request performs the unforced initialization from "books" |
| RagCore.InitializedRequestChangesNothing | backend/rag_core.py:214-223 | a request on an initialized service constructs nothing and leaves the globals alone |
| RagCore.NoProviderMeansFallback | backend/rag_core.py:213-223 | with no keys and no reachable Ollama, an uninitialized service answers with the fallback containing the question and stays uninitialized |
| RagCore.EchoingProviderQuotesBoth | backend/rag_core.py:225-259 | with a model that echoes its prompt, the advice contains the prescription and the question |
| RagCore.RagService.constructor | backend/rag_core.py:31-33 | the globals start with no handle, no provider name, the flag cleared (lines 31-33) and an empty corpus (`_books_content = ""`, line 147) |
| RagCore.RagService.Commit | backend/rag_core.py:82-83 | installing a backend sets the handle and the matching provider name together, keeping the globals coherent |
| RagCore.RagService.InitializeLlm | backend/rag_core.py:36-107 | the method commits the resolved provider and its name, or raises NoLlmAvailable leaving the handle alone; it logs exactly the backends the scan constructs and keeps the globals coherent |
| RagCore.RagService.InitializeRagSystem | backend/rag_core.py:149-198 | the method performs the `InitRag` transition on the fields, its status and its log, keeping the globals coherent |
| RagCore.RagService.GetAiResponse | backend/rag_core.py:201-263 | the method returns the `Answer` response, performs its state change and log, never raises, and its prescription is a quote |

## Left out

- `backend/main.py` is not part of this model: HTTP routing, CORS, request and response schemas, the startup hook (with its `BOOKS_DIR` lookup) and the status endpoint.
- `_initialize_embeddings` is never called by the code. It is not modelled.
- The SDK constructors are abstracted to one success flag per backend: `ChatGoogleGenerativeAI`, `ChatGroq`, `Ollama` and `ChatOpenAI`. The same goes for their model names, temperatures and API-key arguments.
- The distinction between `ImportError` and other exceptions is not kept. Both lead to the next candidate.
- `DirectoryLoader` with `TextLoader` is abstracted to its result: the page contents in the loader's order, or an exception. The `**/*.txt` glob and encoding autodetection are not modelled.
- The reply function `reply` is chosen independently of which backend was committed. The model does not tie the reply's shape to the provider.
- Ollama is committed as a completion model (`langchain_community.llms.Ollama`, line 78), yet the answer is read through `final_response.content` (line 258). If its `invoke` returns a plain string, every request served by Ollama would fall back. This depends on library code that is not part of this model, so it is recorded here as an unconfirmed observation. In the model it is the case `reply(prompt) == None`.
- The reply of the language model is abstracted to `Option<string>`: the reply's content, or `None` for any exception in `invoke` or in reading `.content`. `HumanMessage` wrapping is not modelled.
- `np.random.choice` is replaced by injected indices into the quote list. The uniform distribution is not modelled.
- `print` diagnostics and the text of the `ValueError` message are left out. The model keeps only which error was raised.
- Concurrency is not modelled. Concurrent first requests race on the globals, and the source takes no lock.
- Exceptions other than the loader's and the resolver's inside `initialize_rag_system` are not modelled.
