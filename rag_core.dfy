/**
 * The module state of `rag_core.py` and its three state-changing operations:
 * provider resolution (`_initialize_llm`), initialization
 * (`initialize_rag_system`) and request handling (`get_ai_response`).
 *
 * Each operation is first given as a pure transition on a `Globals` record;
 * the lemmas state what the source promises about those transitions; and the
 * class `RagService` holds the module globals as fields, with methods proved
 * to perform exactly those transitions.
 */
module RagCore {
  import opened Options
  import opened Text
  import opened Providers
  import opened Corpus
  import opened Responses

  /** `initialize_rag_system`'s default `books_dir`, also used by the lazy initialization. */
  const DefaultBooksDir: string := "books"

  /**
   * What the directory loader finds under an existing directory: either it
   * raises (an unreadable file, an undecodable encoding), or it returns the
   * page contents of the `.txt` files it found, possibly none.
   */
  datatype DirScan = LoadFails | Documents(contents: seq<string>)

  /** The existing directories (`os.path.exists`) and what loading each yields. */
  type FileSystem = map<string, DirScan>

  /** Everything outside the process that initialization depends on. */
  datatype World = World(env: Env, backends: Backends, fs: FileSystem)

  /** The exceptions initialization can raise. */
  datatype InitError =
    | NoLlmAvailable  // the ValueError of `_initialize_llm`
    | LoadFailed      // whatever the directory loader raised

  /** How a call ended: by returning or by raising. */
  datatype Status = Returned | Raised(error: InitError)

  /**
   * The module globals. The handle `_llm` is identified by the backend it is
   * bound to; `_llm_provider` is the name stored beside it.
   */
  datatype Globals = Globals(
    llm: Option<Provider>,
    llmProvider: Option<string>,
    isInitialized: bool,
    booksContent: string)

  /** The globals at import time. */
  const ImportGlobals: Globals := Globals(None, None, false, "")

  /** The globals after a call, how it ended, and which backends it constructed. */
  datatype Transition = Transition(next: Globals, status: Status, tried: seq<Provider>)

  /** The globals after a request, its response, and which backends it constructed. */
  datatype Answered = Answered(next: Globals, response: Response, tried: seq<Provider>)

  /** The name stored in `_llm_provider` for a handle. */
  function NameOf(llm: Option<Provider>): Option<string>
  {
    match llm
    case None => None
    case Some(p) => Some(ProviderName(p))
  }

  /**
   * What every reachable state satisfies: the provider name matches the
   * handle, the flag is only set while a handle exists, and the corpus is
   * within its budget.
   */
  predicate Coherent(g: Globals)
  {
    && g.llmProvider == NameOf(g.llm)
    && (g.isInitialized ==> g.llm.Some?)
    && |g.booksContent| <= MaxCorpusChars
  }

  /** `_initialize_llm`: commit to the resolved provider, or raise and change nothing. */
  function ResolveLlm(g: Globals, env: Env, b: Backends): Transition
  {
    match Resolve(env, b)
    case Some(p) => Transition(g.(llm := Some(p), llmProvider := Some(ProviderName(p))), Returned, Attempts(env, b))
    case None => Transition(g, Raised(NoLlmAvailable), Attempts(env, b))
  }

  /** `initialize_rag_system(books_dir, force_reload)`. */
  function InitRag(g: Globals, booksDir: string, forceReload: bool, w: World): Transition
  {
    if g.isInitialized && !forceReload then Transition(g, Returned, [])
    else if booksDir !in w.fs then Transition(g.(isInitialized := false), Returned, [])
    else match w.fs[booksDir]
      case LoadFails => Transition(g.(isInitialized := false), Raised(LoadFailed), [])
      case Documents(docs) =>
        if |docs| == 0 then Transition(g.(isInitialized := false), Returned, [])
        else
          var r := ResolveLlm(g.(booksContent := LoadCorpus(docs)), w.env, w.backends);
          r.(next := r.next.(isInitialized := r.status.Returned?))
  }

  /**
   * `get_ai_response(question)`. `reply` is the resolved handle's behaviour
   * on a prompt: the content of its answer, or None when invoking it or
   * reading the answer's content raises. `quoteIndex` is the draw for the
   * prompt, `fallbackIndex` the independent draw of the fallback.
   */
  function Answer(
    g: Globals, question: string, w: World, reply: string -> Option<string>,
    quoteIndex: nat, fallbackIndex: nat): Answered
    requires IsQuoteIndex(quoteIndex) && IsQuoteIndex(fallbackIndex)
  {
    var init := if g.isInitialized then Transition(g, Returned, []) else InitRag(g, DefaultBooksDir, false, w);
    var h := init.next;
    var fallback := FallbackResponse(question, fallbackIndex);
    if init.status.Raised? || !h.isInitialized || h.llm.None? then Answered(h, fallback, init.tried)
    else
      var quote := SwordDemonQuotes[quoteIndex];
      match reply(Prompt(quote, question))
      case None => Answered(h, fallback, init.tried)
      case Some(text) => Answered(h, Response(quote, text), init.tried)
  }

  /** The resolver either commits the resolved provider or leaves the handle and its name alone. */
  lemma ResolveLlmCommitsOrKeeps(g: Globals, env: Env, b: Backends)
    ensures var t := ResolveLlm(g, env, b);
      && t.next.isInitialized == g.isInitialized
      && t.next.booksContent == g.booksContent
      && (t.status == Returned <==> Resolve(env, b).Some?)
      && (t.status == Returned ==> t.next.llm == Resolve(env, b) && t.next.llmProvider == NameOf(t.next.llm))
      && (t.status != Returned ==> t.status == Raised(NoLlmAvailable) && t.next == g)
      && (Coherent(g) ==> Coherent(t.next))
  {
  }

  /** Initialization is a no-op while initialized, unless a reload is forced. */
  lemma InitIsIdempotent(g: Globals, booksDir: string, w: World)
    requires g.isInitialized
    ensures InitRag(g, booksDir, false, w) == Transition(g, Returned, [])
  {
  }

  /**
   * Once an unforced initialization leaves the flag set, a second unforced
   * one is a no-op that constructs no backend.
   */
  lemma InitTwiceResolvesOnce(g: Globals, booksDir: string, w: World)
    ensures var first := InitRag(g, booksDir, false, w);
      first.next.isInitialized ==>
        InitRag(first.next, booksDir, false, w) == Transition(first.next, Returned, [])
  {
  }

  /**
   * A missing directory, or one without documents, clears the flag and
   * returns without raising; no backend is constructed and neither the
   * corpus nor the handle changes.
   */
  lemma InitWithoutDocuments(g: Globals, booksDir: string, forceReload: bool, w: World)
    requires !g.isInitialized || forceReload
    requires booksDir !in w.fs || w.fs[booksDir] == Documents([])
    ensures InitRag(g, booksDir, forceReload, w) == Transition(g.(isInitialized := false), Returned, [])
  {
  }

  /**
   * With documents to load, the corpus is their blank-line join cut to the
   * budget; the flag is set exactly when a provider was resolved, and then
   * the handle is that provider; otherwise the ValueError is re-raised, the
   * flag is cleared and the handle is unchanged (the corpus stays updated).
   */
  lemma {:induction false} InitWithDocuments(g: Globals, booksDir: string, forceReload: bool, w: World, docs: seq<string>)
    requires !g.isInitialized || forceReload
    requires booksDir in w.fs && w.fs[booksDir] == Documents(docs) && |docs| > 0
    ensures var t := InitRag(g, booksDir, forceReload, w);
      && t.next.booksContent == LoadCorpus(docs)
      && t.next.booksContent <= Join(docs)
      && |t.next.booksContent| <= MaxCorpusChars
      && t.tried == Attempts(w.env, w.backends)
      && (t.next.isInitialized <==> Resolve(w.env, w.backends).Some?)
      && (t.next.isInitialized ==> t.status == Returned && t.next.llm == Resolve(w.env, w.backends))
      && (!t.next.isInitialized ==> t.status == Raised(NoLlmAvailable) && t.next.llm == g.llm && t.next.llmProvider == g.llmProvider)
  {
    ResolveLlmCommitsOrKeeps(g.(booksContent := LoadCorpus(docs)), w.env, w.backends);
  }

  /**
   * The flag ends up set only by a no-op on an initialized state or by a
   * load whose provider resolution returned normally; any raised exception
   * leaves it cleared.
   */
  lemma {:induction false} InitializedOnlyAfterResolution(g: Globals, booksDir: string, forceReload: bool, w: World)
    ensures var t := InitRag(g, booksDir, forceReload, w);
      && (t.status.Raised? ==> !t.next.isInitialized)
      && (t.next.isInitialized ==>
            (g.isInitialized && !forceReload && t.next == g)
            || (booksDir in w.fs && w.fs[booksDir].Documents? && |w.fs[booksDir].contents| > 0
                && Resolve(w.env, w.backends).Some? && t.next.llm == Resolve(w.env, w.backends)))
  {
    if !(g.isInitialized && !forceReload) && booksDir in w.fs && w.fs[booksDir].Documents? && |w.fs[booksDir].contents| > 0 {
      InitWithDocuments(g, booksDir, forceReload, w, w.fs[booksDir].contents);
    }
  }

  /** Initialization keeps the globals coherent. */
  lemma {:induction false} InitPreservesCoherence(g: Globals, booksDir: string, forceReload: bool, w: World)
    requires Coherent(g)
    ensures Coherent(InitRag(g, booksDir, forceReload, w).next)
  {
    if !(g.isInitialized && !forceReload) && booksDir in w.fs && w.fs[booksDir].Documents? && |w.fs[booksDir].contents| > 0 {
      ResolveLlmCommitsOrKeeps(g.(booksContent := LoadCorpus(w.fs[booksDir].contents)), w.env, w.backends);
    }
  }

  /**
   * A request always yields a response whose prescription is one of the
   * quotes. It is generated exactly when the system ends up initialized
   * with a handle and the handle replies; the advice is then the reply to a
   * prompt holding the drawn quote and the question. Otherwise it is the
   * fallback, which repeats the question and its own quote.
   */
  lemma {:induction false} AnswerIsGeneratedOrFallback(
    g: Globals, question: string, w: World, reply: string -> Option<string>,
    quoteIndex: nat, fallbackIndex: nat)
    requires IsQuoteIndex(quoteIndex) && IsQuoteIndex(fallbackIndex)
    ensures var a := Answer(g, question, w, reply, quoteIndex, fallbackIndex);
      var quote := SwordDemonQuotes[quoteIndex];
      var prompt := Prompt(quote, question);
      && a.response.prescription in SwordDemonQuotes
      && Contains(prompt, quote) && Contains(prompt, question)
      && (if a.next.isInitialized && a.next.llm.Some? && reply(prompt).Some?
          then a.response == Response(quote, reply(prompt).value)
          else a.response == FallbackResponse(question, fallbackIndex)
               && Contains(a.response.advice, question)
               && Contains(a.response.advice, a.response.prescription))
  {
    if !g.isInitialized {
      InitializedOnlyAfterResolution(g, DefaultBooksDir, false, w);
    }
  }

  /**
   * When not initialized, a request retries initialization from "books"
   * with no reload forced, whatever directory was configured at startup.
   */
  lemma LazyInitializationUsesDefaultDirectory(
    g: Globals, question: string, w: World, reply: string -> Option<string>,
    quoteIndex: nat, fallbackIndex: nat)
    requires IsQuoteIndex(quoteIndex) && IsQuoteIndex(fallbackIndex)
    requires !g.isInitialized
    ensures var a := Answer(g, question, w, reply, quoteIndex, fallbackIndex);
      var t := InitRag(g, "books", false, w);
      a.next == t.next && a.tried == t.tried
  {
  }

  /** An initialized request constructs no backend and leaves the globals alone. */
  lemma InitializedRequestChangesNothing(
    g: Globals, question: string, w: World, reply: string -> Option<string>,
    quoteIndex: nat, fallbackIndex: nat)
    requires IsQuoteIndex(quoteIndex) && IsQuoteIndex(fallbackIndex)
    requires g.isInitialized
    ensures var a := Answer(g, question, w, reply, quoteIndex, fallbackIndex);
      a.next == g && a.tried == []
  {
  }

  /**
   * Scenario: with no credentials and no reachable Ollama, a request on an
   * uninitialized system answers with the fallback, whatever the directory.
   */
  lemma {:induction false} NoProviderMeansFallback(
    g: Globals, question: string, w: World, reply: string -> Option<string>,
    quoteIndex: nat, fallbackIndex: nat)
    requires IsQuoteIndex(quoteIndex) && IsQuoteIndex(fallbackIndex)
    requires !g.isInitialized
    requires !KeySet(w.env, "GOOGLE_API_KEY") && !KeySet(w.env, "GROQ_API_KEY") && !KeySet(w.env, "OPENAI_API_KEY")
    requires !Succeeds(w.backends, Ollama)
    ensures var a := Answer(g, question, w, reply, quoteIndex, fallbackIndex);
      && a.response == FallbackResponse(question, fallbackIndex)
      && !a.next.isInitialized
      && Contains(a.response.advice, question)
  {
    ResolveRespectsKeysAndOrder(w.env, w.backends);
    assert Resolve(w.env, w.backends).None?;
    InitializedOnlyAfterResolution(g, DefaultBooksDir, false, w);
  }

  /**
   * Scenario: a handle that echoes its prompt yields advice containing the
   * drawn quote and the question verbatim.
   */
  lemma {:induction false} EchoingProviderQuotesBoth(
    g: Globals, question: string, w: World, quoteIndex: nat, fallbackIndex: nat)
    requires IsQuoteIndex(quoteIndex) && IsQuoteIndex(fallbackIndex)
    requires g.isInitialized && Coherent(g)
    ensures var a := Answer(g, question, w, p => Some(p), quoteIndex, fallbackIndex);
      && a.response.prescription == SwordDemonQuotes[quoteIndex]
      && Contains(a.response.advice, a.response.prescription)
      && Contains(a.response.advice, question)
  {
    AnswerIsGeneratedOrFallback(g, question, w, p => Some(p), quoteIndex, fallbackIndex);
  }

  /**
   * The module globals, as fields of one service object. `constructionLog`
   * records every backend construction attempt, in order.
   */
  class RagService {
    var llm: Option<Provider>
    var llmProvider: Option<string>
    var isInitialized: bool
    var booksContent: string
    ghost var constructionLog: seq<Provider>

    function State(): Globals
      reads this
    {
      Globals(llm, llmProvider, isInitialized, booksContent)
    }

    ghost predicate Valid()
      reads this
    {
      Coherent(State())
    }

    /** The globals as the module's import leaves them. */
    constructor ()
      ensures Valid()
      ensures State() == ImportGlobals && constructionLog == []
    {
      llm := None;
      llmProvider := None;
      isInitialized := false;
      booksContent := "";
      constructionLog := [];
    }

    /**
     * Installs a constructed backend as the handle, with its provider name;
     * `tried` are the backends the call constructed on the way.
     */
    method Commit(p: Provider, ghost tried: seq<Provider>)
      requires Valid()
      modifies this
      ensures Valid()
      ensures llm == Some(p) && llmProvider == Some(ProviderName(p))
      ensures isInitialized == old(isInitialized) && booksContent == old(booksContent)
      ensures constructionLog == old(constructionLog) + tried
    {
      llm, llmProvider := Some(p), Some(ProviderName(p));
      constructionLog := constructionLog + tried;
    }

    /** `_initialize_llm`: the priority chain with early returns. */
    method InitializeLlm(env: Env, b: Backends) returns (status: Status)
      requires Valid()
      modifies this
      ensures Valid()
      ensures Resolve(env, b).Some? ==>
        var p := Resolve(env, b).value;
        status == Returned && llm == Some(p) && llmProvider == Some(ProviderName(p))
      ensures Resolve(env, b).None? ==>
        status == Raised(NoLlmAvailable) && llm == old(llm) && llmProvider == old(llmProvider)
      ensures isInitialized == old(isInitialized) && booksContent == old(booksContent)
      ensures constructionLog == old(constructionLog) + Attempts(env, b)
    {
      // `tried` lists the backends this call has constructed so far; it is
      // appended to the log when the call returns or raises.
      ghost var tried: seq<Provider> := [];
      if KeySet(env, "GOOGLE_API_KEY") {
        tried := [Gemini];
        if b.geminiBuilds {
          GeminiBranch(env, b);
          Commit(Gemini, tried);
          return Returned;
        }
      }
      assert tried == IfKeySet(env, "GOOGLE_API_KEY", Gemini);
      if KeySet(env, "GROQ_API_KEY") {
        tried := tried + [Groq];
        if b.groqBuilds {
          GroqBranch(env, b);
          Commit(Groq, tried);
          return Returned;
        }
      }
      assert tried == IfKeySet(env, "GOOGLE_API_KEY", Gemini) + IfKeySet(env, "GROQ_API_KEY", Groq);
      tried := tried + [Ollama];
      if b.ollamaBuilds && b.ollamaAnswersProbe {
        OllamaBranch(env, b);
        Commit(Ollama, tried);
        return Returned;
      }
      LastBranch(env, b);
      if KeySet(env, "OPENAI_API_KEY") {
        tried := tried + [OpenAI];
        if b.openaiBuilds {
          Commit(OpenAI, tried);
          return Returned;
        }
      }
      assert tried == Attempts(env, b);
      constructionLog := constructionLog + tried;
      status := Raised(NoLlmAvailable);
    }

    /** `initialize_rag_system(books_dir, force_reload)`. */
    method InitializeRagSystem(booksDir: string, forceReload: bool, w: World) returns (status: Status)
      requires Valid()
      modifies this
      ensures Valid()
      ensures var t := InitRag(old(State()), booksDir, forceReload, w);
        State() == t.next && status == t.status && constructionLog == old(constructionLog) + t.tried
    {
      InitPreservesCoherence(State(), booksDir, forceReload, w);
      if isInitialized && !forceReload {
        return Returned;
      }
      if booksDir !in w.fs {
        isInitialized := false;
        return Returned;
      }
      match w.fs[booksDir]
      case LoadFails =>
        isInitialized := false;
        return Raised(LoadFailed);
      case Documents(docs) =>
        if |docs| == 0 {
          isInitialized := false;
          return Returned;
        }
        booksContent := LoadCorpus(docs);
        status := InitializeLlm(w.env, w.backends);
        if status.Raised? {
          isInitialized := false;
          return status;
        }
        isInitialized := true;
    }

    /** `get_ai_response(question)`: never raises; falls back on any failure. */
    method GetAiResponse(
      question: string, w: World, reply: string -> Option<string>,
      quoteIndex: nat, fallbackIndex: nat) returns (r: Response)
      requires Valid()
      requires IsQuoteIndex(quoteIndex) && IsQuoteIndex(fallbackIndex)
      modifies this
      ensures Valid()
      ensures var a := Answer(old(State()), question, w, reply, quoteIndex, fallbackIndex);
        r == a.response && State() == a.next && constructionLog == old(constructionLog) + a.tried
      ensures r.prescription in SwordDemonQuotes
    {
      if !isInitialized {
        var status := InitializeRagSystem(DefaultBooksDir, false, w);
        if status.Raised? {
          return FallbackResponse(question, fallbackIndex);
        }
      }
      if !isInitialized || llm.None? {
        return FallbackResponse(question, fallbackIndex);
      }
      var quote := SwordDemonQuotes[quoteIndex];
      var prompt := Prompt(quote, question);
      match reply(prompt)
      case None =>
        r := FallbackResponse(question, fallbackIndex);
      case Some(text) =>
        r := Response(quote, text);
    }
  }
}
