/**
 * The provider resolver of `_initialize_llm`: which text-generation backends
 * are attempted, in which order, and which one is committed.
 *
 * The process environment is a map from variable names to values; the
 * outcome of constructing (and, for Ollama, probing) each backend is an
 * abstract record of booleans, since the SDK calls are not part of this model.
 */
module Providers {
  import opened Options

  datatype Provider = Gemini | Groq | Ollama | OpenAI

  /** The process environment as `os.getenv` sees it. */
  type Env = map<string, string>

  /** The fixed priority chain: Gemini, then Groq, then Ollama, then OpenAI. */
  const PriorityOrder: seq<Provider> := [Gemini, Groq, Ollama, OpenAI]

  /** Position of a provider in the priority chain. */
  function Rank(p: Provider): (r: nat)
    ensures r < |PriorityOrder| && PriorityOrder[r] == p
  {
    match p
    case Gemini => 0
    case Groq => 1
    case Ollama => 2
    case OpenAI => 3
  }

  /** The value stored in `_llm_provider` when `p` is committed. */
  function ProviderName(p: Provider): (name: string)
    ensures name in {"gemini", "groq", "ollama", "openai"}
  {
    match p
    case Gemini => "gemini"
    case Groq => "groq"
    case Ollama => "ollama"
    case OpenAI => "openai"
  }

  /** The environment key that enables a cloud provider; Ollama needs none. */
  function CredentialOf(p: Provider): Option<string>
  {
    match p
    case Gemini => Some("GOOGLE_API_KEY")
    case Groq => Some("GROQ_API_KEY")
    case Ollama => None
    case OpenAI => Some("OPENAI_API_KEY")
  }

  /** `if os.getenv(name):` — the variable exists and is not the empty string. */
  predicate KeySet(env: Env, name: string)
  {
    name in env && env[name] != ""
  }

  /** A provider is attempted only when its credential is set; Ollama always is. */
  predicate Eligible(env: Env, p: Provider)
  {
    match CredentialOf(p)
    case None => true
    case Some(key) => KeySet(env, key)
  }

  /**
   * What happens when each backend is tried: whether its constructor returns
   * (no ImportError or other exception) and, for Ollama, whether the probe
   * `invoke("test")` returns.
   */
  datatype Backends = Backends(
    geminiBuilds: bool,
    groqBuilds: bool,
    ollamaBuilds: bool,
    ollamaAnswersProbe: bool,
    openaiBuilds: bool)

  /** Trying `p` ends in the branch that commits it. */
  predicate Succeeds(b: Backends, p: Provider)
  {
    match p
    case Gemini => b.geminiBuilds
    case Groq => b.groqBuilds
    case Ollama => b.ollamaBuilds && b.ollamaAnswersProbe
    case OpenAI => b.openaiBuilds
  }

  /** A key-guarded candidate: `p` when `key` is set, nothing otherwise. */
  function IfKeySet(env: Env, key: string, p: Provider): seq<Provider>
  {
    if KeySet(env, key) then [p] else []
  }

  /** The providers the resolver would try, in the order it tries them. */
  function Candidates(env: Env): seq<Provider>
  {
    IfKeySet(env, "GOOGLE_API_KEY", Gemini)
    + IfKeySet(env, "GROQ_API_KEY", Groq)
    + [Ollama]
    + IfKeySet(env, "OPENAI_API_KEY", OpenAI)
  }

  /** The first candidate that succeeds, if any. */
  function FirstSuccess(cands: seq<Provider>, b: Backends): (r: Option<Provider>)
    ensures r.Some? ==> r.value in cands && Succeeds(b, r.value)
  {
    if |cands| == 0 then None
    else if Succeeds(b, cands[0]) then Some(cands[0])
    else FirstSuccess(cands[1..], b)
  }

  /** The candidates actually tried: all up to and including the first success. */
  function Tried(cands: seq<Provider>, b: Backends): (t: seq<Provider>)
    ensures t <= cands
  {
    if |cands| == 0 then []
    else if Succeeds(b, cands[0]) then [cands[0]]
    else [cands[0]] + Tried(cands[1..], b)
  }

  /** The provider `_initialize_llm` commits to, or None when it raises. */
  function Resolve(env: Env, b: Backends): Option<Provider>
  {
    FirstSuccess(Candidates(env), b)
  }

  /** The backends `_initialize_llm` constructs, in order. */
  function Attempts(env: Env, b: Backends): seq<Provider>
  {
    Tried(Candidates(env), b)
  }

  /**
   * The scan commits to the first succeeding candidate, tries nothing after
   * it, and does not stop at a failing one: every tried candidate but the
   * last failed, and when none succeeds all of them were tried.
   */
  lemma {:induction false} FirstSuccessIsCommitted(cands: seq<Provider>, b: Backends)
    ensures var t := Tried(cands, b);
      && t <= cands
      && (forall i :: 0 <= i < |t| - 1 ==> !Succeeds(b, t[i]))
      && (FirstSuccess(cands, b).Some? ==>
            |t| > 0 && t[|t| - 1] == FirstSuccess(cands, b).value && Succeeds(b, t[|t| - 1]))
      && (FirstSuccess(cands, b).None? ==> t == cands)
    ensures FirstSuccess(cands, b).None? <==> forall i :: 0 <= i < |cands| ==> !Succeeds(b, cands[i])
  {
    if |cands| > 0 && !Succeeds(b, cands[0]) {
      var rest := cands[1..];
      FirstSuccessIsCommitted(rest, b);
      var t, t' := Tried(cands, b), Tried(rest, b);
      assert t == [cands[0]] + t';
      forall i | 0 < i < |t|
        ensures t[i] == t'[i - 1]
      {
      }
      forall i | 0 < i < |cands|
        ensures cands[i] == rest[i - 1]
      {
      }
    }
  }

  /** Failing candidates are tried and passed over; the scan goes on with the rest. */
  lemma {:induction false} FailuresArePassedOver(failed: seq<Provider>, rest: seq<Provider>, b: Backends)
    requires forall i :: 0 <= i < |failed| ==> !Succeeds(b, failed[i])
    ensures FirstSuccess(failed + rest, b) == FirstSuccess(rest, b)
    ensures Tried(failed + rest, b) == failed + Tried(rest, b)
  {
    if |failed| > 0 {
      var all := failed + rest;
      assert all[0] == failed[0] && !Succeeds(b, all[0]);
      assert all[1..] == failed[1..] + rest;
      FailuresArePassedOver(failed[1..], rest, b);
      assert FirstSuccess(all, b) == FirstSuccess(all[1..], b);
      assert Tried(all, b) == [failed[0]] + Tried(all[1..], b);
      assert failed == [failed[0]] + failed[1..];
    } else {
      assert failed + rest == rest;
    }
  }

  /** Trying one candidate: commit it if it succeeds, otherwise go on with the rest. */
  lemma TryingOneCandidate(p: Provider, rest: seq<Provider>, b: Backends)
    ensures FirstSuccess([p] + rest, b) == if Succeeds(b, p) then Some(p) else FirstSuccess(rest, b)
    ensures Tried([p] + rest, b) == if Succeeds(b, p) then [p] else [p] + Tried(rest, b)
  {
    assert ([p] + rest)[1..] == rest;
  }

  // The scan written out branch by branch, as `_initialize_llm` runs it:
  // what each branch commits and which backends were constructed by then.

  /** Gemini is committed when its key is set and it constructs. */
  lemma GeminiBranch(env: Env, b: Backends)
    requires KeySet(env, "GOOGLE_API_KEY") && b.geminiBuilds
    ensures Resolve(env, b) == Some(Gemini) && Attempts(env, b) == [Gemini]
  {
    var rest := Candidates(env)[1..];
    assert Candidates(env) == [Gemini] + rest;
    TryingOneCandidate(Gemini, rest, b);
  }

  /** Otherwise Groq is committed when its key is set and it constructs. */
  lemma GroqBranch(env: Env, b: Backends)
    requires !(KeySet(env, "GOOGLE_API_KEY") && b.geminiBuilds)
    requires KeySet(env, "GROQ_API_KEY") && b.groqBuilds
    ensures Resolve(env, b) == Some(Groq)
    ensures Attempts(env, b) == IfKeySet(env, "GOOGLE_API_KEY", Gemini) + [Groq]
  {
    var gemini := IfKeySet(env, "GOOGLE_API_KEY", Gemini);
    var rest := [Ollama] + IfKeySet(env, "OPENAI_API_KEY", OpenAI);
    assert Candidates(env) == gemini + ([Groq] + rest);
    FailuresArePassedOver(gemini, [Groq] + rest, b);
    TryingOneCandidate(Groq, rest, b);
  }

  /** When neither cloud branch commits, the scan continues at the Ollama probe. */
  lemma ScanReachesOllama(env: Env, b: Backends)
    requires !(KeySet(env, "GOOGLE_API_KEY") && b.geminiBuilds)
    requires !(KeySet(env, "GROQ_API_KEY") && b.groqBuilds)
    ensures var cloud := IfKeySet(env, "GOOGLE_API_KEY", Gemini) + IfKeySet(env, "GROQ_API_KEY", Groq);
      var fromOllama := [Ollama] + IfKeySet(env, "OPENAI_API_KEY", OpenAI);
      Resolve(env, b) == FirstSuccess(fromOllama, b) && Attempts(env, b) == cloud + Tried(fromOllama, b)
  {
    var cloud := IfKeySet(env, "GOOGLE_API_KEY", Gemini) + IfKeySet(env, "GROQ_API_KEY", Groq);
    var fromOllama := [Ollama] + IfKeySet(env, "OPENAI_API_KEY", OpenAI);
    assert Candidates(env) == cloud + fromOllama;
    FailuresArePassedOver(cloud, fromOllama, b);
  }

  /** Otherwise Ollama is committed when it constructs and answers the probe. */
  lemma OllamaBranch(env: Env, b: Backends)
    requires !(KeySet(env, "GOOGLE_API_KEY") && b.geminiBuilds)
    requires !(KeySet(env, "GROQ_API_KEY") && b.groqBuilds)
    requires b.ollamaBuilds && b.ollamaAnswersProbe
    ensures Resolve(env, b) == Some(Ollama)
    ensures Attempts(env, b) == IfKeySet(env, "GOOGLE_API_KEY", Gemini) + IfKeySet(env, "GROQ_API_KEY", Groq) + [Ollama]
  {
    ScanReachesOllama(env, b);
    TryingOneCandidate(Ollama, IfKeySet(env, "OPENAI_API_KEY", OpenAI), b);
  }

  /**
   * Otherwise OpenAI is committed when its key is set and it constructs;
   * if it is not, the scan ends with every eligible backend constructed.
   */
  lemma LastBranch(env: Env, b: Backends)
    requires !(KeySet(env, "GOOGLE_API_KEY") && b.geminiBuilds)
    requires !(KeySet(env, "GROQ_API_KEY") && b.groqBuilds)
    requires !(b.ollamaBuilds && b.ollamaAnswersProbe)
    ensures var openai := IfKeySet(env, "OPENAI_API_KEY", OpenAI);
      && Resolve(env, b) == (if KeySet(env, "OPENAI_API_KEY") && b.openaiBuilds then Some(OpenAI) else None)
      && Attempts(env, b) == IfKeySet(env, "GOOGLE_API_KEY", Gemini) + IfKeySet(env, "GROQ_API_KEY", Groq) + [Ollama] + openai
  {
    var cloud := IfKeySet(env, "GOOGLE_API_KEY", Gemini) + IfKeySet(env, "GROQ_API_KEY", Groq);
    var openai := IfKeySet(env, "OPENAI_API_KEY", OpenAI);
    ScanReachesOllama(env, b);
    TryingOneCandidate(Ollama, openai, b);
    if KeySet(env, "OPENAI_API_KEY") {
      TryingOneCandidate(OpenAI, [], b);
      assert openai == [OpenAI] + [];
      assert Tried(openai, b) == openai;
    }
    assert cloud + ([Ollama] + Tried(openai, b)) == cloud + [Ollama] + openai;
  }

  /** Exactly the eligible providers are candidates; Ollama always is. */
  lemma CandidatesAreEligible(env: Env)
    ensures forall p :: p in Candidates(env) <==> Eligible(env, p)
    ensures Ollama in Candidates(env)
  {
  }

  /** Candidates keep the priority order: Gemini, Groq, Ollama, OpenAI. */
  lemma CandidatesFollowPriority(env: Env)
    ensures var c := Candidates(env);
      forall i, j :: 0 <= i < j < |c| ==> Rank(c[i]) < Rank(c[j])
  {
  }

  /**
   * A provider is constructed only if its key is set (Ollama: always
   * eligible), and whatever is committed is the earliest candidate that
   * succeeds.
   */
  lemma {:induction false} ResolveRespectsKeysAndOrder(env: Env, b: Backends)
    ensures forall p :: p in Attempts(env, b) ==> Eligible(env, p)
    ensures Resolve(env, b).Some? ==>
      var p := Resolve(env, b).value;
      Eligible(env, p) && Succeeds(b, p) && p in Attempts(env, b)
    ensures Resolve(env, b).None? <==>
      forall p :: Eligible(env, p) ==> !Succeeds(b, p)
  {
    var c := Candidates(env);
    CandidatesAreEligible(env);
    FirstSuccessIsCommitted(c, b);
    var t := Tried(c, b);
    forall p | p in t ensures Eligible(env, p) {
      var i :| 0 <= i < |t| && t[i] == p;
      assert c[i] == p;
    }
    if Resolve(env, b).None? {
      forall p | Eligible(env, p) ensures !Succeeds(b, p) {
        var i :| 0 <= i < |c| && c[i] == p;
      }
    }
  }

  /**
   * Ollama is probed whenever neither Gemini nor Groq was committed, whatever
   * keys are set.
   */
  lemma OllamaProbedUnlessCloudCommitted(env: Env, b: Backends)
    ensures Resolve(env, b) != Some(Gemini) && Resolve(env, b) != Some(Groq) ==>
      Ollama in Attempts(env, b)
  {
    var c := Candidates(env);
    FirstSuccessIsCommitted(c, b);
  }
}
