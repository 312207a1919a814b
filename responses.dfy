/**
 * What a request answers with: a prescription drawn from the fixed quote
 * list and an advice text, either generated from the prompt or taken from
 * the fixed fallback template. The random draw (`np.random.choice`) is an
 * index passed in by the caller.
 */
module Responses {
  import opened Text

  /** `SWORD_DEMON_QUOTES`, in order. */
  const SwordDemonQuotes: seq<string> := [
    "怎麼不找找自己的問題？",
    "你爸得了MVP，你媽就是躺贏狗！",
    "他們不解決問題，他們解決你！",
    "我只能戰死，不能躺平被推死！",
    "評分系統把人的付出異化掉了，懂嗎？",
    "你太出格，你太激進！",
    "輸了還不能說？輸了還不能有情緒？",
    "我真的很佩服這個設計師，他媽的，這東西設計得剛剛好，真的就是剛剛好，唉這真的是智慧啊，剛剛好你吃飯又餓不死。",
    "你告訴我怎麼贏，啊？你排群傻逼給我怎麼贏",
    "嗯你回答我？你們這些人回答我！Look at my eyes , tell me why , why baby why?"
  ]

  /** The draw is over ten different quotes, the first being the catchphrase. */
  lemma QuoteListShape()
    ensures |SwordDemonQuotes| == 10
    ensures SwordDemonQuotes[0] == "怎麼不找找自己的問題？"
    ensures forall i, j :: 0 <= i < j < |SwordDemonQuotes| ==> SwordDemonQuotes[i] != SwordDemonQuotes[j]
  {
  }

  /** The `{prescription, advice}` dictionary returned to the caller. */
  datatype Response = Response(prescription: string, advice: string)

  /** A valid outcome of the random draw over the quote list. */
  predicate IsQuoteIndex(i: nat)
  {
    i < |SwordDemonQuotes|
  }

  // The prompt template, split around its two placeholders.
  const PromptBeforeQuote: string :=
    "你是「小明劍魔」，一個充滿諷刺和黑色幽默的 AI 吐槽系統。\n\n"
    + "你的風格特點：\n"
    + "- 用誇張的方式把使用者的問題延伸到社會議題\n"
    + "- 諷刺「找自己問題」這種把系統問題歸咎於個人的邏輯\n"
    + "- 帶有憤怒但又幽默的語氣\n"
    + "- 最後給一點真正有用的建議（用諷刺包裝）\n\n"
    + "使用者抽到的劍魔語錄：\n「"
  const PromptBetween: string := "」\n\n使用者的煩惱：\n「"
  const PromptAfterQuestion: string :=
    "」\n\n請用小明劍魔的風格回應，包含以下結構：\n"
    + "1. 先用「怎麼不找找自己的問題？」的邏輯諷刺一番（2-3句話）\n"
    + "2. 把問題延伸到荒謬的社會現象（2-3句話）\n"
    + "3. 最後給一個真正有意義的建議（用諷刺語氣包裝）\n\n"
    + "回答請控制在 200 字以內。記住：你是在用黑色幽默幫助使用者，不是真的在罵人！\n\n"
    + "你的回應："

  /** The prompt sent to the language model; it carries the quote and the question verbatim. */
  function Prompt(quote: string, question: string): (p: string)
    ensures Contains(p, quote) && Contains(p, question)
  {
    ContainsBothHoles(PromptBeforeQuote, quote, PromptBetween, question, PromptAfterQuestion);
    PromptBeforeQuote + quote + PromptBetween + question + PromptAfterQuestion
  }

  // The fallback advice template, split around its two placeholders.
  const FallbackBeforeQuestion: string := "你說你的煩惱是：「"
  const FallbackBetween: string :=
    "」？\n\n"
    + "怎麼不找找自己的問題？為什麼別人沒有這個煩惱？"
    + "為什麼就你特別倒楣？全部找自己的問題好不好？\n\n"
    + "⚔️ 劍魔語錄：「"
  const FallbackAfterQuote: string :=
    "」\n\n"
    + "好啦不開玩笑了，系統現在有點問題（對，是系統的問題不是你的問題），"
    + "但記住：有些事真的不是你的錯，別什麼都往自己身上扛。"

  /** The fallback advice echoes the question and the drawn quote verbatim. */
  function FallbackAdvice(question: string, quote: string): (advice: string)
    ensures Contains(advice, question) && Contains(advice, quote)
  {
    ContainsBothHoles(FallbackBeforeQuestion, question, FallbackBetween, quote, FallbackAfterQuote);
    FallbackBeforeQuestion + question + FallbackBetween + quote + FallbackAfterQuote
  }

  /** `_get_fallback_response`: a quote from the list, and advice that repeats it and the question. */
  function FallbackResponse(question: string, quoteIndex: nat): (r: Response)
    requires IsQuoteIndex(quoteIndex)
    ensures r.prescription in SwordDemonQuotes
    ensures Contains(r.advice, question) && Contains(r.advice, r.prescription)
  {
    var quote := SwordDemonQuotes[quoteIndex];
    Response(quote, FallbackAdvice(question, quote))
  }

  /**
   * Scenario: no provider can be used and the question is "我最近壓力很大";
   * the fallback advice contains that text and the drawn prescription.
   */
  lemma StressedQuestionFallback(quoteIndex: nat)
    requires IsQuoteIndex(quoteIndex)
    ensures var r := FallbackResponse("我最近壓力很大", quoteIndex);
      r.prescription in SwordDemonQuotes
      && Contains(r.advice, "我最近壓力很大") && Contains(r.advice, r.prescription)
  {
  }
}
