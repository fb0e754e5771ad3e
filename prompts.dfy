/**
 * The prompt registry and `build_prompt`'s filling step. A template is kept as
 * the pieces it is made of: literal text and the four placeholders
 * `[STOCK NAME]`, `{price_context}`, `{fundamentals_context}`,
 * `{news_context}`. `Render` gives the template string exactly as the source
 * spells it; `FillTemplate` is the source's chain of four `str.replace` calls
 * on that string; `Instantiate` is the intended meaning, every placeholder
 * replaced by its value. The main theorem says when the two agree.
 */
module Prompts {
  import opened Wrappers
  import opened Text

  datatype Placeholder = StockName | PriceContext | FundamentalsContext | NewsContext

  /** The character a placeholder's marker opens with. */
  function Opening(p: Placeholder): char {
    if p == StockName then '[' else '{'
  }

  /** A marker without its opening character. */
  function MarkerTail(p: Placeholder): string {
    match p
    case StockName => "STOCK NAME]"
    case PriceContext => "price_context}"
    case FundamentalsContext => "fundamentals_context}"
    case NewsContext => "news_context}"
  }

  /**
   * How each placeholder is written in a template: `[STOCK NAME]`,
   * `{price_context}`, `{fundamentals_context}`, `{news_context}`.
   */
  function Marker(p: Placeholder): string {
    [Opening(p)] + MarkerTail(p)
  }

  /** The position of a placeholder in the replace chain. */
  function Rank(p: Placeholder): nat {
    match p
    case StockName => 0
    case PriceContext => 1
    case FundamentalsContext => 2
    case NewsContext => 3
  }

  lemma MarkerTailUnbracketed(p: Placeholder)
    ensures '[' !in MarkerTail(p) && '{' !in MarkerTail(p)
  {
    match p
    case StockName =>
    case PriceContext =>
    case FundamentalsContext =>
    case NewsContext =>
  }

  /** A marker opens with `[` or `{`, neither of which occurs again in it. */
  lemma MarkerShape(p: Placeholder)
    ensures |Marker(p)| >= 2 && (Marker(p)[0] == '[' || Marker(p)[0] == '{')
    ensures '[' !in Marker(p)[1..] && '{' !in Marker(p)[1..]
    ensures Marker(p)[1] == (match p case StockName => 'S' case PriceContext => 'p'
                                     case FundamentalsContext => 'f' case NewsContext => 'n')
  {
    MarkerTailUnbracketed(p);
    assert Marker(p)[1..] == MarkerTail(p);
  }

  /**
   * Two different markers differ in their second character, and neither's
   * opening character occurs in the rest of the other: replacing one can
   * never start inside another.
   */
  lemma MarkersApart(p: Placeholder, q: Placeholder)
    requires p != q
    ensures Marker(p)[1] != Marker(q)[1] && Marker(p)[0] !in Marker(q)[1..]
  {
    MarkerShape(p);
    MarkerShape(q);
  }

  datatype Piece = Text(text: string) | Slot(placeholder: Placeholder)

  /** The values `build_prompt` substitutes: the (upper-cased) stock name and the three formatted contexts. */
  datatype Fillers = Fillers(stockName: string, priceContext: string, fundamentalsContext: string, newsContext: string)

  function Value(f: Fillers, p: Placeholder): string {
    match p
    case StockName => f.stockName
    case PriceContext => f.priceContext
    case FundamentalsContext => f.fundamentalsContext
    case NewsContext => f.newsContext
  }

  /** The template string, as it is written in the registry. */
  function Render(pieces: seq<Piece>): string {
    if pieces == [] then ""
    else (match pieces[0] case Text(t) => t case Slot(p) => Marker(p)) + Render(pieces[1..])
  }

  /** The intended filled prompt: each placeholder replaced by its value, nothing else touched. */
  function Instantiate(pieces: seq<Piece>, f: Fillers): string {
    if pieces == [] then ""
    else (match pieces[0] case Text(t) => t case Slot(p) => Value(f, p)) + Instantiate(pieces[1..], f)
  }

  /** A template whose literal text holds no `[` and no `{`: markers are its only bracketed parts. */
  predicate Plain(pieces: seq<Piece>) {
    forall i | 0 <= i < |pieces| && pieces[i].Text? :: '[' !in pieces[i].text && '{' !in pieces[i].text
  }

  /** One `str.replace` call of `build_prompt`: every occurrence of a marker by its value. */
  function ReplacePlaceholder(s: string, f: Fillers, p: Placeholder): string {
    ReplaceAll(s, Marker(p), Value(f, p))
  }

  /** The filling in `build_prompt`: four `str.replace` calls, in this order. */
  function FillTemplate(template: string, f: Fillers): string {
    var s1 := ReplacePlaceholder(template, f, StockName);
    var s2 := ReplacePlaceholder(s1, f, PriceContext);
    var s3 := ReplacePlaceholder(s2, f, FundamentalsContext);
    ReplacePlaceholder(s3, f, NewsContext)
  }

  /** One piece after the first `k` replace calls, when all goes as intended. */
  function StagePiece(piece: Piece, f: Fillers, k: nat): string {
    match piece
    case Text(t) => t
    case Slot(p) => if Rank(p) < k then Value(f, p) else Marker(p)
  }

  /** The string after the first `k` replace calls, when all goes as intended. */
  function Stage(pieces: seq<Piece>, f: Fillers, k: nat): string {
    if pieces == [] then "" else StagePiece(pieces[0], f, k) + Stage(pieces[1..], f, k)
  }

  lemma {:induction false} StageBounds(pieces: seq<Piece>, f: Fillers)
    ensures Stage(pieces, f, 0) == Render(pieces)
    ensures Stage(pieces, f, 4) == Instantiate(pieces, f)
  {
    if pieces != [] {
      StageBounds(pieces[1..], f);
    }
  }

  /**
   * No value inserted before the call for `p` holds a `{`, the opening
   * character of every marker after the first.
   */
  predicate Earlier(f: Fillers, p: Placeholder) {
    (Rank(p) > 0 ==> '{' !in f.stockName)
    && (Rank(p) > 1 ==> '{' !in f.priceContext)
    && (Rank(p) > 2 ==> '{' !in f.fundamentalsContext)
  }

  /** The replace call for `p`, over one piece followed by anything. */
  lemma PieceStep(piece: Piece, rest: string, f: Fillers, p: Placeholder)
    requires piece.Text? ==> '[' !in piece.text && '{' !in piece.text
    requires Earlier(f, p)
    ensures ReplacePlaceholder(StagePiece(piece, f, Rank(p)) + rest, f, p)
            == StagePiece(piece, f, Rank(p) + 1) + ReplacePlaceholder(rest, f, p)
  {
    var k := Rank(p);
    var pat, rep := Marker(p), Value(f, p);
    MarkerShape(p);
    match piece
    case Text(t) =>
      ReplaceAllSkips(t, rest, pat, rep);
    case Slot(q) =>
      if Rank(q) < k {
        ReplaceAllSkips(Value(f, q), rest, pat, rep);
      } else if Rank(q) == k {
        ReplaceAllAtFront(rest, pat, rep);
      } else {
        MarkerShape(q);
        MarkersApart(q, p);
        ReplaceAllPassesMarker(Marker(q), rest, pat, rep);
      }
  }

  /**
   * The replace call for `p` turns the stage before it into the stage after
   * it, provided the template is plain and no value inserted earlier holds
   * a `{`.
   */
  lemma {:induction false} StageStep(pieces: seq<Piece>, f: Fillers, p: Placeholder)
    requires Plain(pieces)
    requires Earlier(f, p)
    ensures ReplacePlaceholder(Stage(pieces, f, Rank(p)), f, p) == Stage(pieces, f, Rank(p) + 1)
  {
    if pieces != [] {
      var tail := pieces[1..];
      assert Plain(tail) by {
        forall i | 0 <= i < |tail| && tail[i].Text?
          ensures '[' !in tail[i].text && '{' !in tail[i].text
        {
          assert tail[i] == pieces[i + 1];
        }
      }
      StageStep(tail, f, p);
      PieceStep(pieces[0], Stage(tail, f, Rank(p)), f, p);
    }
  }

  /** The four replace calls, one stage at a time. */
  lemma FillStages(pieces: seq<Piece>, f: Fillers)
    requires Plain(pieces)
    requires '{' !in f.stockName && '{' !in f.priceContext && '{' !in f.fundamentalsContext
    ensures ReplacePlaceholder(Render(pieces), f, StockName) == Stage(pieces, f, 1)
    ensures ReplacePlaceholder(Stage(pieces, f, 1), f, PriceContext) == Stage(pieces, f, 2)
    ensures ReplacePlaceholder(Stage(pieces, f, 2), f, FundamentalsContext) == Stage(pieces, f, 3)
    ensures ReplacePlaceholder(Stage(pieces, f, 3), f, NewsContext) == Instantiate(pieces, f)
  {
    var s1, s2, s3 := Stage(pieces, f, 1), Stage(pieces, f, 2), Stage(pieces, f, 3);
    assert ReplacePlaceholder(Render(pieces), f, StockName) == s1 by {
      StageBounds(pieces, f);
      StageStep(pieces, f, StockName);
    }
    assert ReplacePlaceholder(s1, f, PriceContext) == s2 by {
      StageStep(pieces, f, PriceContext);
    }
    assert ReplacePlaceholder(s2, f, FundamentalsContext) == s3 by {
      StageStep(pieces, f, FundamentalsContext);
    }
    assert ReplacePlaceholder(s3, f, NewsContext) == Instantiate(pieces, f) by {
      StageBounds(pieces, f);
      StageStep(pieces, f, NewsContext);
    }
  }

  /**
   * The replace chain does what it is meant to: on a plain template, and
   * when the stock name and the price and fundamentals contexts hold no `{`,
   * filling the rendered template substitutes every placeholder by its value
   * and changes nothing else. (Values inserted early are searched by the
   * later calls; a `{` in them could be mistaken for a marker.)
   */
  lemma FillTemplateInstantiates(pieces: seq<Piece>, f: Fillers)
    requires Plain(pieces)
    requires '{' !in f.stockName && '{' !in f.priceContext && '{' !in f.fundamentalsContext
    ensures FillTemplate(Render(pieces), f) == Instantiate(pieces, f)
  {
    FillStages(pieces, f);
  }

  /** A character that is in no value and no literal text is not in the instantiated prompt. */
  lemma {:induction false} InstantiateAvoids(pieces: seq<Piece>, f: Fillers, c: char)
    requires forall i | 0 <= i < |pieces| && pieces[i].Text? :: c !in pieces[i].text
    requires forall q: Placeholder :: c !in Value(f, q)
    ensures c !in Instantiate(pieces, f)
  {
    if pieces != [] {
      InstantiateAvoids(pieces[1..], f, c);
    }
  }

  /**
   * No marker is left in a filled plain template when no value holds that
   * marker's opening character. The news context holds `[` as soon as there
   * is any news, so only the three `{` markers are guaranteed to be gone in
   * general.
   */
  lemma NoMarkerLeft(pieces: seq<Piece>, f: Fillers, p: Placeholder)
    requires Plain(pieces)
    requires '{' !in f.stockName && '{' !in f.priceContext && '{' !in f.fundamentalsContext
    requires forall q: Placeholder :: Marker(p)[0] !in Value(f, q)
    ensures !Contains(FillTemplate(Render(pieces), f), Marker(p))
  {
    FillTemplateInstantiates(pieces, f);
    MarkerShape(p);
    InstantiateAvoids(pieces, f, Marker(p)[0]);
    if Contains(Instantiate(pieces, f), Marker(p)) {
      ContainsHead(Instantiate(pieces, f), Marker(p));
    }
  }

  // ---------------------------------------------------------------------------
  // The registry
  // ---------------------------------------------------------------------------

  datatype PromptSpec = PromptSpec(id: string, template: seq<Piece>)

  /** The ids of a registry, in order (the keys of the dictionary). */
  function IdsOf(specs: seq<PromptSpec>): (ids: seq<string>)
    ensures |ids| == |specs|
    ensures forall i | 0 <= i < |specs| :: ids[i] == specs[i].id
  {
    if specs == [] then [] else [specs[0].id] + IdsOf(specs[1..])
  }

  /**
   * `registry[pid]`: the template of the entry with that id, `None` where the
   * dictionary raises `KeyError`.
   */
  function Find(specs: seq<PromptSpec>, pid: string): (r: Option<seq<Piece>>)
    ensures r.Some? <==> pid in IdsOf(specs)
    ensures r.Some? ==> exists i | 0 <= i < |specs| :: specs[i].id == pid && specs[i].template == r.value
  {
    if specs == [] then None
    else if specs[0].id == pid then Some(specs[0].template)
    else
      var r := Find(specs[1..], pid);
      assert forall i | 1 <= i < |specs| :: specs[i] == specs[1..][i - 1];
      r
  }

  const PromptIds: seq<string> := [
    "1_market_mindset",
    "2_multi_timeframe_trend",
    "3_bull_vs_bear",
    "4_risk_before_reward",
    "5_entry_discipline",
    "6_exit_framework",
    "7_news_detox",
    "8_earnings_expectations",
    "9_valuation_sanity",
    "10_sentiment_vs_fundamentals",
    "11_scenario_planning",
    "12_mistake_prevention",
    "13_post_loss_reflection",
    "14_decision_clarity",
    "15_macro_sector_check",
    "16_conviction_rating"
  ]

  /** The sixteen keys are distinct. */
  lemma PromptIdsDistinct()
    ensures |PromptIds| == 16
    ensures forall i, j | 0 <= i < j < 16 :: PromptIds[i] != PromptIds[j]
  {
  }

  /** `PROMPTS` holds its prompts under these keys, in this order. */
  lemma RegistryIds()
    ensures IdsOf(Registry) == PromptIds
  {
    var ids := IdsOf(Registry);
    assert |ids| == 16;
    forall i | 0 <= i < 16
      ensures ids[i] == PromptIds[i]
    {
      assert ids[i] == Registry[i].id;
    }
  }

  /** Every template of `PROMPTS` names the stock. */
  lemma RegistryNamesStock()
    ensures forall i | 0 <= i < |Registry| :: Slot(StockName) in Registry[i].template
  {
  }

  /** `PROMPTS`: the sixteen templates under their keys, in insertion order. */
  const Registry: seq<PromptSpec> := [
    PromptSpec("1_market_mindset", MarketMindsetTemplate),
    PromptSpec("2_multi_timeframe_trend", MultiTimeframeTrendTemplate),
    PromptSpec("3_bull_vs_bear", BullVsBearTemplate),
    PromptSpec("4_risk_before_reward", RiskBeforeRewardTemplate),
    PromptSpec("5_entry_discipline", EntryDisciplineTemplate),
    PromptSpec("6_exit_framework", ExitFrameworkTemplate),
    PromptSpec("7_news_detox", NewsDetoxTemplate),
    PromptSpec("8_earnings_expectations", EarningsExpectationsTemplate),
    PromptSpec("9_valuation_sanity", ValuationSanityTemplate),
    PromptSpec("10_sentiment_vs_fundamentals", SentimentVsFundamentalsTemplate),
    PromptSpec("11_scenario_planning", ScenarioPlanningTemplate),
    PromptSpec("12_mistake_prevention", MistakePreventionTemplate),
    PromptSpec("13_post_loss_reflection", PostLossReflectionTemplate),
    PromptSpec("14_decision_clarity", DecisionClarityTemplate),
    PromptSpec("15_macro_sector_check", MacroSectorCheckTemplate),
    PromptSpec("16_conviction_rating", ConvictionRatingTemplate)
  ]

  const MarketMindsetTemplate: seq<Piece> := [
    Text("Market Mindset Check for "),
    Slot(StockName),
    Text(":\nCurrent price context: "),
    Slot(PriceContext),
    Text("\nBefore analyzing "),
    Slot(StockName),
    Text(", reflect on the broader market mood today. Are you approaching this with clarity, or is "
         + "fear/greed influencing your view? Describe the dominant market sentiment and how it "
         + "should affect your interpretation of "),
    Slot(StockName),
    Text(" data.")]

  const MultiTimeframeTrendTemplate: seq<Piece> := [
    Text("Multi-Timeframe Trend Clarity for "),
    Slot(StockName),
    Text(":\nPrice data: "),
    Slot(PriceContext),
    Text("\nAnalyze "),
    Slot(StockName),
    Text(" across weekly, daily, and intraday timeframes. Is the trend aligned across all "
         + "timeframes? Where are the key support and resistance levels? Summarize the trend "
         + "structure and note any divergences between timeframes.")]

  const BullVsBearTemplate: seq<Piece> := [
    Text("Bull vs Bear Case for "),
    Slot(StockName),
    Text(":\nFundamentals summary: "),
    Slot(FundamentalsContext),
    Text("\nPrice: "),
    Slot(PriceContext),
    Text("\nPresent the strongest arguments for both the bullish and bearish scenarios for "),
    Slot(StockName),
    Text(". Which side has more evidence right now, and why?")]

  const RiskBeforeRewardTemplate: seq<Piece> := [
    Text("Risk Before Reward Assessment for "),
    Slot(StockName),
    Text(":\nPrice: "),
    Slot(PriceContext),
    Text("\nBefore thinking about profits, identify the top 3 risks of investing in "),
    Slot(StockName),
    Text(" right now. What is the maximum downside, and how would you manage each risk?")]

  const EntryDisciplineTemplate: seq<Piece> := [
    Text("Entry Discipline Check for "),
    Slot(StockName),
    Text(":\nPrice: "),
    Slot(PriceContext),
    Text("\nFundamentals: "),
    Slot(FundamentalsContext),
    Text("\nWhat are the ideal entry conditions for "),
    Slot(StockName),
    Text("? Is the current price a reasonable entry, or should you wait for a better setup? Define "
         + "clear entry criteria (price level, volume confirmation, catalyst).")]

  const ExitFrameworkTemplate: seq<Piece> := [
    Text("Exit Framework for "),
    Slot(StockName),
    Text(":\nPrice: "),
    Slot(PriceContext),
    Text("\nDesign a complete exit strategy for a position in "),
    Slot(StockName),
    Text(". Include: profit target levels, stop-loss placement, time-based exit criteria, and "
         + "conditions that would invalidate the trade thesis.")]

  const NewsDetoxTemplate: seq<Piece> := [
    Text("News Detox Analysis for "),
    Slot(StockName),
    Text(":\nRecent headlines: "),
    Slot(NewsContext),
    Text("\nReview the latest news about "),
    Slot(StockName),
    Text(". Separate signal from noise. Which news items have genuine fundamental impact, and which "
         + "are just market noise? Provide a balanced view that filters out emotional or sensational "
         + "reporting.")]

  const EarningsExpectationsTemplate: seq<Piece> := [
    Text("Earnings Expectations for "),
    Slot(StockName),
    Text(":\nFundamentals: "),
    Slot(FundamentalsContext),
    Text("\nWhat are the current earnings expectations for "),
    Slot(StockName),
    Text("? Is the stock priced for perfection, or is there room to beat estimates? Analyze EPS "
         + "trends, revenue growth, and margin trajectories.")]

  const ValuationSanityTemplate: seq<Piece> := [
    Text("Valuation Sanity Check for "),
    Slot(StockName),
    Text(":\nFundamentals: "),
    Slot(FundamentalsContext),
    Text("\nPrice: "),
    Slot(PriceContext),
    Text("\nIs "),
    Slot(StockName),
    Text(" cheap, fair, or expensive based on current fundamentals? Compare P/E, P/B, EV/EBITDA to "
         + "sector peers and historical averages. At what price would "),
    Slot(StockName),
    Text(" become compelling value?")]

  const SentimentVsFundamentalsTemplate: seq<Piece> := [
    Text("Sentiment vs Fundamentals for "),
    Slot(StockName),
    Text(":\nNews: "),
    Slot(NewsContext),
    Text("\nFundamentals: "),
    Slot(FundamentalsContext),
    Text("\nIs market sentiment for "),
    Slot(StockName),
    Text(" aligned with or diverging from its fundamentals? Identify any disconnect and explain "
         + "whether it represents opportunity or a warning sign.")]

  const ScenarioPlanningTemplate: seq<Piece> := [
    Text("Scenario Planning for "),
    Slot(StockName),
    Text(":\nPrice: "),
    Slot(PriceContext),
    Text("\nFundamentals: "),
    Slot(FundamentalsContext),
    Text("\nMap out three scenarios for "),
    Slot(StockName),
    Text(" over the next 6\U{2013}12 months: Bull case (price target + catalysts), Base case (most "
         + "likely outcome), and Bear case (downside risks + triggers). Assign rough probabilities to "
         + "each.")]

  const MistakePreventionTemplate: seq<Piece> := [
    Text("Mistake Prevention Checklist for "),
    Slot(StockName),
    Text(":\nWhat are the most common investor mistakes made with stocks like "),
    Slot(StockName),
    Text("? List 5 cognitive biases or behavioral errors that could lead to a bad outcome, and "
         + "explain how to guard against each one specifically for "),
    Slot(StockName),
    Text(".")]

  const PostLossReflectionTemplate: seq<Piece> := [
    Text("Post-Loss Reflection Framework for "),
    Slot(StockName),
    Text(":\nImagine you took a 15% loss on "),
    Slot(StockName),
    Text(". Walk through a structured post-mortem: What was the original thesis? Where did the "
         + "analysis go wrong? What early warning signs were missed? What would you do differently "
         + "next time?")]

  const DecisionClarityTemplate: seq<Piece> := [
    Text("Decision Clarity for "),
    Slot(StockName),
    Text(":\nPrice: "),
    Slot(PriceContext),
    Text("\nFundamentals: "),
    Slot(FundamentalsContext),
    Text("\nNews: "),
    Slot(NewsContext),
    Text("\nSynthesize everything and provide a clear, actionable decision for "),
    Slot(StockName),
    Text(": Buy / Hold / Sell / Avoid \U{2013} with a specific rationale, position sizing "
         + "suggestion, and the single most important factor that would change this view.")]

  const MacroSectorCheckTemplate: seq<Piece> := [
    Text("Macro & Sector Check for "),
    Slot(StockName),
    Text(":\nFundamentals: "),
    Slot(FundamentalsContext),
    Text("\nHow are macroeconomic factors (interest rates, inflation, currency) and sector dynamics "
         + "currently affecting "),
    Slot(StockName),
    Text("? Is the sector a tailwind or headwind for the stock right now?")]

  const ConvictionRatingTemplate: seq<Piece> := [
    Text("Conviction Rating for "),
    Slot(StockName),
    Text(":\nAfter completing all analyses, rate your conviction in a long position on "),
    Slot(StockName),
    Text(" from 1 (very low) to 10 (very high). Break down the score by: fundamental quality "
         + "(x/10), technical setup (x/10), valuation attractiveness (x/10), risk/reward profile "
         + "(x/10). Provide one sentence justification for each sub-score.")]
}
