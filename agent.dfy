/**
 * `StockAnalystAgent`: fill the chosen prompts for a stock, ask the model
 * once per known prompt id, keep the prompt and the response per id in
 * insertion order, summarise the responses, and render the last analysis
 * as a Markdown report.
 *
 * The clock is a parameter (the ISO timestamp of the run) and the model's
 * network is the `Remote` oracle of the model clients.
 */
module Agent {
  import opened Wrappers
  import opened Text
  import Prompts
  import opened ModelClients
  import opened ContextFormat

  // ---------------------------------------------------------------------------
  // Prompt ids and prompts
  // ---------------------------------------------------------------------------

  /**
   * The ids a run goes through: the requested list, or every id of the
   * prompt registry, in order, when it is missing or empty.
   */
  function ResolveIds(promptIds: Option<seq<string>>, registry: seq<Prompts.PromptSpec>): seq<string> {
    if promptIds.None? || promptIds.value == [] then Prompts.IdsOf(registry) else promptIds.value
  }

  /**
   * A missing selection and an empty one both mean every registry id in
   * registry order; any other selection is run as given, unknown ids and
   * repeats included. With `PROMPTS` the default is the sixteen keys
   * (`Prompts.RegistryIds`).
   */
  lemma DefaultRunsAll(registry: seq<Prompts.PromptSpec>, selection: seq<string>)
    ensures ResolveIds(None, registry) == ResolveIds(Some([]), registry) == Prompts.IdsOf(registry)
    ensures |ResolveIds(None, registry)| == |registry|
    ensures selection != [] ==> ResolveIds(Some(selection), registry) == selection
  {
  }

  /** The values `build_prompt` puts in place of the four placeholders. */
  function ContextFillers(name: string, ctx: LiveContext): Prompts.Fillers {
    Prompts.Fillers(name, PriceText(ctx), FundamentalsText(ctx), NewsText(ctx))
  }

  /** `build_prompt`; `None` where looking the id up in the registry raises `KeyError`. */
  function BuildPrompt(registry: seq<Prompts.PromptSpec>, pid: string, name: string, ctx: LiveContext)
    : (r: Option<string>)
    ensures r.Some? <==> pid in Prompts.IdsOf(registry)
  {
    match Prompts.Find(registry, pid)
    case None => None
    case Some(t) => Some(Prompts.FillTemplate(Prompts.Render(t), ContextFillers(name, ctx)))
  }

  /**
   * For a plain template, a stock name without `{` and price and
   * fundamentals data without `{`, `build_prompt` yields the template with
   * each placeholder replaced by its formatted value and nothing else changed.
   */
  lemma BuildPromptSubstitutes(registry: seq<Prompts.PromptSpec>, pid: string, name: string, ctx: LiveContext)
    requires Prompts.Find(registry, pid).Some? && Prompts.Plain(Prompts.Find(registry, pid).value)
    requires '{' !in name
    requires ctx.price.Some? ==> BraceFree(ctx.price.value)
    requires ctx.fundamentals.Some? ==> BraceFree(ctx.fundamentals.value)
    ensures BuildPrompt(registry, pid, name, ctx)
            == Some(Prompts.Instantiate(Prompts.Find(registry, pid).value, ContextFillers(name, ctx)))
  {
    ContextsBraceFree(ctx);
    Prompts.FillTemplateInstantiates(Prompts.Find(registry, pid).value, ContextFillers(name, ctx));
  }

  // ---------------------------------------------------------------------------
  // The per-prompt results, an insertion-ordered dictionary
  // ---------------------------------------------------------------------------

  /** One entry of `per_prompt`: the id, the prompt sent and the response received. */
  datatype PromptEntry = PromptEntry(id: string, prompt: string, response: string)

  function Ids(entries: seq<PromptEntry>): (ids: seq<string>)
    ensures |ids| == |entries|
    ensures forall i | 0 <= i < |entries| :: ids[i] == entries[i].id
  {
    if entries == [] then [] else Ids(entries[..|entries| - 1]) + [entries[|entries| - 1].id]
  }

  function IndexOf(entries: seq<PromptEntry>, id: string): (k: nat)
    ensures k <= |entries|
    ensures k < |entries| ==> entries[k].id == id
    ensures forall j | 0 <= j < k :: entries[j].id != id
  {
    if entries == [] then 0
    else if entries[0].id == id then 0
    else 1 + IndexOf(entries[1..], id)
  }

  /**
   * `per_prompt[e.id] = e`: a new id goes last; an id already present keeps
   * its place and takes the new prompt and response.
   */
  function Put(entries: seq<PromptEntry>, e: PromptEntry): (r: seq<PromptEntry>)
    ensures Ids(r) == if e.id in Ids(entries) then Ids(entries) else Ids(entries) + [e.id]
    ensures e in r
    ensures forall x | x in r :: x == e || x in entries
  {
    var k := IndexOf(entries, e.id);
    if k < |entries| then
      assert Ids(entries[k := e]) == Ids(entries);
      entries[k := e]
    else
      assert e.id !in Ids(entries) by {
        forall i | 0 <= i < |entries| ensures Ids(entries)[i] != e.id { }
      }
      assert Ids(entries + [e]) == Ids(entries) + [e.id];
      entries + [e]
  }

  // ---------------------------------------------------------------------------
  // The analysis loop, as values
  // ---------------------------------------------------------------------------

  /**
   * What one call of `analyze_stock` depends on besides the id list: the
   * prompt registry, the upper-cased stock name, the live context, the model
   * back end and the model's network.
   */
  datatype Job = Job(registry: seq<Prompts.PromptSpec>, name: string, ctx: LiveContext, backend: Backend,
                     remote: Remote)

  /**
   * One turn of the loop of `analyze_stock`: an unknown id is skipped, a
   * known one is filled and sent; a raised call ends the run.
   */
  function RunStep(run: Result<seq<PromptEntry>, string>, pid: string, job: Job): Result<seq<PromptEntry>, string> {
    match run
    case Err(e) => Err(e)
    case Ok(entries) =>
      match BuildPrompt(job.registry, pid, job.name, job.ctx)
      case None => Ok(entries)
      case Some(p) =>
        match Complete(job.backend, p, job.remote)
        case Err(e) => Err(e)
        case Ok(response) => Ok(Put(entries, PromptEntry(pid, p, response)))
  }

  /** The prompt that turn hands to the model, if any. */
  function SentStep(run: Result<seq<PromptEntry>, string>, pid: string, job: Job): seq<string> {
    if run.Err? then []
    else match BuildPrompt(job.registry, pid, job.name, job.ctx)
      case None => []
      case Some(p) => [p]
  }

  /** The loop of `analyze_stock` over `ids`: the `per_prompt` dictionary, or the exception a model call raised. */
  function RunPrompts(ids: seq<string>, job: Job): Result<seq<PromptEntry>, string> {
    if ids == [] then Ok([])
    else RunStep(RunPrompts(ids[..|ids| - 1], job), ids[|ids| - 1], job)
  }

  /** The prompts handed to the model while running `ids`, in order. */
  function Sent(ids: seq<string>, job: Job): seq<string> {
    if ids == [] then []
    else
      var prefix := ids[..|ids| - 1];
      Sent(prefix, job) + SentStep(RunPrompts(prefix, job), ids[|ids| - 1], job)
  }

  lemma TakeSnoc(ids: seq<string>, n: nat)
    requires n < |ids|
    ensures ids[..n + 1] == ids[..n] + [ids[n]]
  {
  }

  /** Running one more id is one more turn. */
  lemma RunSnoc(ids: seq<string>, pid: string, job: Job)
    ensures RunPrompts(ids + [pid], job) == RunStep(RunPrompts(ids, job), pid, job)
    ensures Sent(ids + [pid], job) == Sent(ids, job) + SentStep(RunPrompts(ids, job), pid, job)
  {
    assert (ids + [pid])[..|ids|] == ids;
  }

  /** Once a model call has raised, the rest of the run changes neither outcome nor model calls. */
  lemma {:induction false} RunStopsAtError(ids: seq<string>, n: nat, job: Job)
    requires n <= |ids| && RunPrompts(ids[..n], job).Err?
    ensures RunPrompts(ids, job) == RunPrompts(ids[..n], job)
    ensures Sent(ids, job) == Sent(ids[..n], job)
    decreases |ids| - n
  {
    if n < |ids| {
      TakeSnoc(ids, n);
      RunSnoc(ids[..n], ids[n], job);
      RunStopsAtError(ids, n + 1, job);
    } else {
      assert ids[..n] == ids;
    }
  }

  /**
   * The loop of `analyze_stock` after `i` ids, one turn further: the outcome
   * and the model calls grow by that turn, and a turn that raised is the end
   * of the whole run.
   */
  lemma RunAdvance(ids: seq<string>, i: nat, entries: seq<PromptEntry>, job: Job, calls0: seq<string>, calls: seq<string>)
    requires i < |ids| && RunPrompts(ids[..i], job) == Ok(entries) && calls == calls0 + Sent(ids[..i], job)
    ensures RunPrompts(ids[..i + 1], job) == RunStep(Ok(entries), ids[i], job)
    ensures calls + SentStep(Ok(entries), ids[i], job) == calls0 + Sent(ids[..i + 1], job)
    ensures RunStep(Ok(entries), ids[i], job).Err? ==>
              RunPrompts(ids, job) == RunStep(Ok(entries), ids[i], job) && Sent(ids, job) == Sent(ids[..i + 1], job)
  {
    var pid := ids[i];
    TakeSnoc(ids, i);
    RunSnoc(ids[..i], pid, job);
    assert calls + SentStep(Ok(entries), pid, job) == calls0 + (Sent(ids[..i], job) + SentStep(Ok(entries), pid, job));
    if RunStep(Ok(entries), pid, job).Err? {
      RunStopsAtError(ids, i + 1, job);
    }
  }

  /** The ids of a list that are in the registry, in order, repeats kept. */
  function Known(ids: seq<string>, registry: seq<Prompts.PromptSpec>): (k: seq<string>)
    ensures |k| <= |ids|
  {
    if ids == [] then []
    else
      var rest := Known(ids[..|ids| - 1], registry);
      if ids[|ids| - 1] in Prompts.IdsOf(registry) then rest + [ids[|ids| - 1]] else rest
  }

  /** Each element once, at its first occurrence. */
  function FirstOccurrences(ids: seq<string>): seq<string> {
    if ids == [] then []
    else
      var rest := FirstOccurrences(ids[..|ids| - 1]);
      if ids[|ids| - 1] in rest then rest else rest + [ids[|ids| - 1]]
  }

  /** The first occurrences hold every element of the list, each once. */
  lemma {:induction false} FirstOccurrencesShape(ids: seq<string>)
    ensures forall x :: x in FirstOccurrences(ids) <==> x in ids
    ensures forall i, j | 0 <= i < j < |FirstOccurrences(ids)| :: FirstOccurrences(ids)[i] != FirstOccurrences(ids)[j]
  {
    if ids != [] {
      var prefix := ids[..|ids| - 1];
      var rest, last := FirstOccurrences(prefix), ids[|ids| - 1];
      FirstOccurrencesShape(prefix);
      assert forall x | x in prefix :: x in ids;
      assert forall x | x in ids :: x in prefix || x == last;
      if last !in rest {
        var r := rest + [last];
        assert forall x :: x in r <==> x in rest || x == last;
        forall i, j | 0 <= i < j < |r|
          ensures r[i] != r[j]
        {
          assert r[i] == rest[i] && rest[i] in rest;
          if j < |rest| {
            assert r[j] == rest[j];
          }
        }
      }
    }
  }

  /** The known ids are exactly the requested ids the registry has: none is dropped, none invented. */
  lemma {:induction false} KnownAreRegistered(ids: seq<string>, registry: seq<Prompts.PromptSpec>)
    ensures forall x :: x in Known(ids, registry) <==> x in ids && x in Prompts.IdsOf(registry)
  {
    if ids != [] {
      var prefix := ids[..|ids| - 1];
      KnownAreRegistered(prefix, registry);
      assert forall x | x in prefix :: x in ids;
      assert ids == prefix + [ids[|ids| - 1]];
    }
  }

  /** A list without repeats is its own list of first occurrences. */
  lemma {:induction false} FirstOccurrencesOfDistinct(ids: seq<string>)
    requires forall i, j | 0 <= i < j < |ids| :: ids[i] != ids[j]
    ensures FirstOccurrences(ids) == ids
  {
    if ids != [] {
      var prefix := ids[..|ids| - 1];
      FirstOccurrencesOfDistinct(prefix);
      assert ids[|ids| - 1] !in prefix;
      assert prefix + [ids[|ids| - 1]] == ids;
    }
  }

  /** A list of registry ids is all known. */
  lemma {:induction false} KnownOfRegistryIds(ids: seq<string>, registry: seq<Prompts.PromptSpec>)
    requires forall i | 0 <= i < |ids| :: ids[i] in Prompts.IdsOf(registry)
    ensures Known(ids, registry) == ids
  {
    if ids != [] {
      KnownOfRegistryIds(ids[..|ids| - 1], registry);
      assert ids[..|ids| - 1] + [ids[|ids| - 1]] == ids;
    }
  }

  /**
   * A run that raised nothing asked the model once per occurrence of a known
   * id; unknown ids cost nothing.
   */
  lemma {:induction false} SentCountsKnown(ids: seq<string>, job: Job)
    requires RunPrompts(ids, job).Ok?
    ensures |Sent(ids, job)| == |Known(ids, job.registry)|
  {
    if ids != [] {
      var prefix, pid := ids[..|ids| - 1], ids[|ids| - 1];
      assert RunPrompts(prefix, job).Ok?;
      SentCountsKnown(prefix, job);
      assert |SentStep(RunPrompts(prefix, job), pid, job)| == if pid in Prompts.IdsOf(job.registry) then 1 else 0;
    }
  }

  /** A turn that completes stores a known id not seen before at the end, and changes no id otherwise. */
  lemma StepIds(run: Result<seq<PromptEntry>, string>, pid: string, job: Job)
    requires RunStep(run, pid, job).Ok?
    ensures run.Ok?
    ensures Ids(RunStep(run, pid, job).value)
            == if pid in Prompts.IdsOf(job.registry) && pid !in Ids(run.value) then Ids(run.value) + [pid]
               else Ids(run.value)
  {
  }

  /**
   * A run that raised nothing holds one entry per distinct known id, in
   * first-occurrence order: a repeated id overwrites its entry in place.
   */
  lemma {:induction false} RunCoversKnownIds(ids: seq<string>, job: Job)
    requires RunPrompts(ids, job).Ok?
    ensures Ids(RunPrompts(ids, job).value) == FirstOccurrences(Known(ids, job.registry))
  {
    if ids != [] {
      var prefix, pid := ids[..|ids| - 1], ids[|ids| - 1];
      StepIds(RunPrompts(prefix, job), pid, job);
      RunCoversKnownIds(prefix, job);
      if pid in Prompts.IdsOf(job.registry) {
        var known := Known(prefix, job.registry) + [pid];
        assert Known(ids, job.registry) == known;
        assert known[..|known| - 1] == Known(prefix, job.registry);
      }
    }
  }

  /** On a back end whose calls never raise (the mock, Ollama answering objects) every run completes. */
  lemma {:induction false} RunCompletes(ids: seq<string>, job: Job)
    requires ModelClients.NeverRaises(job.backend, job.remote)
    ensures RunPrompts(ids, job).Ok?
  {
    if ids != [] {
      RunCompletes(ids[..|ids| - 1], job);
    }
  }

  /**
   * Run without a selection on a back end that cannot raise, over a registry
   * with distinct ids, the loop yields one result per registry id, in
   * registry order, after one model call each.
   */
  lemma FullRun(job: Job)
    requires ModelClients.NeverRaises(job.backend, job.remote)
    requires var ids := Prompts.IdsOf(job.registry); forall i, j | 0 <= i < j < |ids| :: ids[i] != ids[j]
    ensures RunPrompts(ResolveIds(None, job.registry), job).Ok?
    ensures Ids(RunPrompts(ResolveIds(None, job.registry), job).value) == Prompts.IdsOf(job.registry)
    ensures |Sent(ResolveIds(None, job.registry), job)| == |job.registry|
  {
    var ids := Prompts.IdsOf(job.registry);
    assert ResolveIds(None, job.registry) == ids;
    RunCompletes(ids, job);
    KnownOfRegistryIds(ids, job.registry);
    FirstOccurrencesOfDistinct(ids);
    RunCoversKnownIds(ids, job);
    SentCountsKnown(ids, job);
    assert |Sent(ids, job)| == |ids| == |job.registry|;
  }

  /** Every entry of a mock run holds the mock's answer to its own prompt. */
  predicate MockAnswered(entries: seq<PromptEntry>) {
    forall e | e in entries :: e.response == MockComplete(e.prompt)
  }

  lemma {:induction false} MockRunAnswers(ids: seq<string>, job: Job)
    requires job.backend == Mock
    ensures RunPrompts(ids, job).Ok?
    ensures MockAnswered(RunPrompts(ids, job).value)
  {
    RunCompletes(ids, job);
    if ids != [] {
      MockRunAnswers(ids[..|ids| - 1], job);
    }
  }

  /**
   * A full run of a registry keyed like `PROMPTS` (`Prompts.RegistryIds`) on
   * the mock back end gives sixteen results, one per key, in key order, each
   * holding the mock's answer, after sixteen model calls.
   */
  lemma FullMockRun(job: Job)
    requires Prompts.IdsOf(job.registry) == Prompts.PromptIds && job.backend == Mock
    ensures RunPrompts(ResolveIds(None, job.registry), job).Ok?
    ensures Ids(RunPrompts(ResolveIds(None, job.registry), job).value) == Prompts.PromptIds
    ensures MockAnswered(RunPrompts(ResolveIds(None, job.registry), job).value)
    ensures |Sent(ResolveIds(None, job.registry), job)| == 16
  {
    Prompts.PromptIdsDistinct();
    FullRun(job);
    MockRunAnswers(ResolveIds(None, job.registry), job);
  }

  // ---------------------------------------------------------------------------
  // The summary
  // ---------------------------------------------------------------------------

  const NoPromptsSummary: string := "No prompts were executed."
  const CompleteSummary: string := "Analysis complete."

  /** The text before a response's first full stop, stripped; empty for an empty response. */
  function FirstSentence(response: string): string {
    if response == "" then "" else Strip(Split(response, '.')[0])
  }

  function Highlight(e: PromptEntry): string {
    "[" + e.id + "] " + FirstSentence(e.response) + "."
  }

  /** One highlight per entry with a non-empty first sentence, in entry order. */
  function Highlights(entries: seq<PromptEntry>): (h: seq<string>)
    ensures |h| <= |entries|
  {
    if entries == [] then []
    else
      var prefix := entries[..|entries| - 1];
      var e := entries[|entries| - 1];
      var rest := Highlights(prefix);
      if FirstSentence(e.response) != "" then rest + [Highlight(e)] else rest
  }

  /** Every highlight opens with the bracketed prompt id. */
  lemma {:induction false} HighlightsBracketed(entries: seq<PromptEntry>)
    ensures forall i | 0 <= i < |Highlights(entries)| :: |Highlights(entries)[i]| > 0 && Highlights(entries)[i][0] == '['
  {
    if entries != [] {
      HighlightsBracketed(entries[..|entries| - 1]);
    }
  }

  /** No highlight at all exactly when every response has an empty first sentence. */
  lemma {:induction false} HighlightsEmpty(entries: seq<PromptEntry>)
    ensures Highlights(entries) == [] <==> forall i | 0 <= i < |entries| :: FirstSentence(entries[i].response) == ""
  {
    if entries != [] {
      var prefix := entries[..|entries| - 1];
      HighlightsEmpty(prefix);
      assert forall i | 0 <= i < |prefix| :: prefix[i] == entries[i];
    }
  }

  /**
   * `_build_summary`: a fixed text for no entries, another when no response
   * has a first sentence, else the highlights joined by spaces.
   */
  function Summary(entries: seq<PromptEntry>): (s: string)
    ensures s == NoPromptsSummary <==> entries == []
    ensures s != NoPromptsSummary && s != CompleteSummary ==> |s| > 0 && s[0] == '['
  {
    if entries == [] then NoPromptsSummary
    else
      var h := Highlights(entries);
      if h == [] then CompleteSummary
      else
        var s := Join(h, " ");
        assert s[0] == '[' by {
          HighlightsBracketed(entries);
          JoinStartsWithFirst(h, " ");
        }
        assert NoPromptsSummary[0] == 'N' && CompleteSummary[0] == 'A';
        s
  }

  /** The summary is the completion notice exactly when there were results and none had a first sentence. */
  lemma SummaryComplete(entries: seq<PromptEntry>)
    ensures Summary(entries) == CompleteSummary
            <==> entries != [] && forall i | 0 <= i < |entries| :: FirstSentence(entries[i].response) == ""
  {
    HighlightsEmpty(entries);
    var h := Highlights(entries);
    if entries != [] && h != [] {
      HighlightsBracketed(entries);
      JoinStartsWithFirst(h, " ");
      assert Summary(entries)[0] == '[' != CompleteSummary[0];
    }
  }

  /** `_build_summary`, collecting the highlights in a loop. */
  method BuildSummary(entries: seq<PromptEntry>) returns (s: string)
    ensures s == Summary(entries)
  {
    if entries == [] {
      return NoPromptsSummary;
    }
    var highlights: seq<string> := [];
    for i := 0 to |entries|
      invariant highlights == Highlights(entries[..i])
    {
      var sentence := FirstSentence(entries[i].response);
      if sentence != "" {
        highlights := highlights + ["[" + entries[i].id + "] " + sentence + "."];
      }
      assert entries[..i + 1][..i] == entries[..i];
    }
    assert entries[..|entries|] == entries;
    s := if highlights == [] then CompleteSummary else Join(highlights, " ");
  }

  /** The mock's first sentence is its head: "[MOCK RESPONSE] Prompt received (N chars)". */
  lemma MockFirstSentence(prompt: string)
    ensures FirstSentence(MockComplete(prompt)) == MockHead(|prompt|)
  {
    MockFirstPiece(prompt);
    var head := MockHead(|prompt|);
    SplitAfterPiece(head, '.', " First data line: " + Take(FirstDataLine(prompt), 80));
    assert head[0] == '[';
    assert head[|head| - 1] == ')';
    StripUnpadded(head);
  }

  /** When every response has a first sentence, there is one highlight per entry, in entry order. */
  lemma {:induction false} HighlightsAll(entries: seq<PromptEntry>)
    requires forall i | 0 <= i < |entries| :: FirstSentence(entries[i].response) != ""
    ensures |Highlights(entries)| == |entries|
    ensures forall i | 0 <= i < |entries| :: Highlights(entries)[i] == Highlight(entries[i])
  {
    if entries != [] {
      var prefix := entries[..|entries| - 1];
      assert forall i | 0 <= i < |prefix| :: prefix[i] == entries[i];
      HighlightsAll(prefix);
      var h, rest := Highlights(entries), Highlights(prefix);
      assert h == rest + [Highlight(entries[|entries| - 1])];
      assert |rest| == |prefix|;
      forall i | 0 <= i < |entries|
        ensures h[i] == Highlight(entries[i])
      {
        if i < |prefix| {
          assert h[i] == rest[i] == Highlight(prefix[i]);
          assert prefix[i] == entries[i];
        } else {
          assert i == |prefix|;
          assert h[i] == Highlight(entries[|entries| - 1]);
        }
      }
    }
  }

  /** In a mock run every result contributes a highlight, so the summary lists them all. */
  lemma MockHighlights(entries: seq<PromptEntry>)
    requires MockAnswered(entries)
    ensures |Highlights(entries)| == |entries|
    ensures forall i | 0 <= i < |entries| ::
      Highlights(entries)[i] == "[" + entries[i].id + "] " + MockHead(|entries[i].prompt|) + "."
  {
    forall i | 0 <= i < |entries|
      ensures FirstSentence(entries[i].response) != ""
      ensures Highlight(entries[i]) == "[" + entries[i].id + "] " + MockHead(|entries[i].prompt|) + "."
    {
      assert entries[i] in entries;
      MockEntryHighlight(entries[i]);
    }
    HighlightsAll(entries);
  }

  /** A mock answer always has a first sentence, and its highlight quotes the mock's head. */
  lemma MockEntryHighlight(e: PromptEntry)
    requires e.response == MockComplete(e.prompt)
    ensures FirstSentence(e.response) != ""
    ensures Highlight(e) == "[" + e.id + "] " + MockHead(|e.prompt|) + "."
  {
    MockFirstSentence(e.prompt);
    MockPrefixNonEmpty(|e.prompt|);
  }

  lemma MockPrefixNonEmpty(n: nat)
    ensures MockHead(n) != ""
  {
    assert |MockHead(n)| >= |MockPrefix|;
  }

  // ---------------------------------------------------------------------------
  // The report
  // ---------------------------------------------------------------------------

  /** The dictionary `analyze_stock` stores and returns. */
  datatype AnalysisResult = AnalysisResult(stockName: string, timestamp: string, model: string,
                                           promptsRun: seq<string>, results: seq<PromptEntry>, summary: string)

  const NoResultsReport: string := "# No results available.\n"

  /** A section heading: the id with underscores as spaces, title-cased. */
  function SectionTitle(pid: string): string {
    Title(ReplaceAll(pid, "_", " "))
  }

  /** The heading keeps the id's length, turns every underscore into a space and keeps digits. */
  lemma SectionTitleShape(pid: string)
    ensures |SectionTitle(pid)| == |pid|
    ensures forall i | 0 <= i < |pid| && pid[i] == '_' :: SectionTitle(pid)[i] == ' '
    ensures forall i | 0 <= i < |pid| && IsDigit(pid[i]) :: SectionTitle(pid)[i] == pid[i]
    ensures '_' !in SectionTitle(pid)
  {
    ReplaceChar(pid, '_', ' ');
    var t := SectionTitle(pid);
    assert forall i | 0 <= i < |pid| :: t[i] != '_' by {
      forall i | 0 <= i < |pid| ensures t[i] != '_' {
        var u := ReplaceAll(pid, "_", " ");
        assert u[i] != '_';
        if !IsAsciiLetter(u[i]) {
          assert t[i] == u[i];
        } else if i == 0 || !IsAsciiLetter(u[i - 1]) {
          assert t[i] == UpperChar(u[i]);
          assert IsUpperAscii(t[i]);
        } else {
          assert t[i] == LowerChar(u[i]);
          assert IsLowerAscii(t[i]);
        }
      }
    }
  }

  function HeaderLines(a: AnalysisResult): (lines: seq<string>)
    ensures |lines| == 14
  {
    ["# Stock Analysis Report: " + a.stockName,
     "",
     "**Generated:** " + a.timestamp + "  ",
     "**Model:** " + a.model + "  ",
     "**Prompts run:** " + NatToString(|a.promptsRun|),
     "",
     "---",
     "",
     "## Summary",
     "",
     a.summary,
     "",
     "---",
     ""]
  }

  function SectionLines(e: PromptEntry): (lines: seq<string>)
    ensures |lines| == 14
  {
    ["## " + SectionTitle(e.id),
     "",
     "### Prompt",
     "",
     "```",
     e.prompt,
     "```",
     "",
     "### Response",
     "",
     e.response,
     "",
     "---",
     ""]
  }

  function Sections(entries: seq<PromptEntry>): seq<string> {
    if entries == [] then []
    else Sections(entries[..|entries| - 1]) + SectionLines(entries[|entries| - 1])
  }

  lemma {:induction false} SectionsLength(entries: seq<PromptEntry>)
    ensures |Sections(entries)| == 14 * |entries|
  {
    if entries != [] {
      SectionsLength(entries[..|entries| - 1]);
    }
  }

  /** Section `k` has its heading at line `14 * k`, its prompt five lines on and its response ten. */
  lemma {:induction false} SectionsAt(entries: seq<PromptEntry>, k: nat)
    requires k < |entries|
    ensures 14 * k + 10 < |Sections(entries)|
    ensures Sections(entries)[14 * k] == "## " + SectionTitle(entries[k].id)
    ensures Sections(entries)[14 * k + 5] == entries[k].prompt
    ensures Sections(entries)[14 * k + 10] == entries[k].response
  {
    var prefix := entries[..|entries| - 1];
    SectionsLength(prefix);
    if k < |prefix| {
      SectionsAt(prefix, k);
      assert prefix[k] == entries[k];
    }
  }

  /** Fourteen lines per section, each opening with its heading. */
  lemma SectionsShape(entries: seq<PromptEntry>)
    ensures |Sections(entries)| == 14 * |entries|
    ensures forall k | 0 <= k < |entries| :: Sections(entries)[14 * k] == "## " + SectionTitle(entries[k].id)
    ensures forall k | 0 <= k < |entries| :: Sections(entries)[14 * k + 5] == entries[k].prompt
    ensures forall k | 0 <= k < |entries| :: Sections(entries)[14 * k + 10] == entries[k].response
  {
    SectionsLength(entries);
    forall k | 0 <= k < |entries|
      ensures Sections(entries)[14 * k] == "## " + SectionTitle(entries[k].id)
      ensures Sections(entries)[14 * k + 5] == entries[k].prompt
      ensures Sections(entries)[14 * k + 10] == entries[k].response
    {
      SectionsAt(entries, k);
    }
  }

  function ReportLines(a: AnalysisResult): seq<string> {
    HeaderLines(a) + Sections(a.results)
  }

  /** `to_markdown`, as a value: a fixed text before any analysis, else the report lines joined. */
  function Markdown(last: Option<AnalysisResult>): string {
    match last
    case None => NoResultsReport
    case Some(a) => Join(ReportLines(a), "\n")
  }

  /**
   * The report's layout: fourteen header lines, the "Prompts run" line
   * giving the number of ids the run resolved (unknown ones included), the
   * summary, then one fourteen-line section per result in result order with
   * its heading, prompt and response.
   */
  lemma ReportShape(a: AnalysisResult)
    ensures |ReportLines(a)| == 14 + 14 * |a.results|
    ensures ReportLines(a)[4] == "**Prompts run:** " + NatToString(|a.promptsRun|)
    ensures ParseDecimal(ReportLines(a)[4][17..]) == |a.promptsRun|
    ensures ReportLines(a)[10] == a.summary
    ensures forall k | 0 <= k < |a.results| :: ReportLines(a)[14 + 14 * k] == "## " + SectionTitle(a.results[k].id)
    ensures forall k | 0 <= k < |a.results| :: ReportLines(a)[14 + 14 * k + 5] == a.results[k].prompt
    ensures forall k | 0 <= k < |a.results| :: ReportLines(a)[14 + 14 * k + 10] == a.results[k].response
  {
    SectionsShape(a.results);
    var line := ReportLines(a)[4];
    assert line[17..] == NatToString(|a.promptsRun|);
    NatToStringRoundTrip(|a.promptsRun|);
  }

  // ---------------------------------------------------------------------------
  // The agent
  // ---------------------------------------------------------------------------

  /** `StockAnalystAgent`: the model client it uses, the last stock name and the last analysis. */
  class StockAnalystAgent {
    const modelType: string
    const backend: Backend
    /** The prompt registry `build_prompt` reads: the module's `PROMPTS`. */
    const registry: seq<Prompts.PromptSpec>
    var stockName: string
    /** `_results`: `None` while it is still the empty dictionary. */
    var results: Option<AnalysisResult>
    /** The prompts handed to the model so far, in order. */
    ghost var modelCalls: seq<string>

    constructor (modelType: string, backend: Backend)
      ensures this.modelType == modelType && this.backend == backend && registry == Prompts.Registry
      ensures stockName == "" && results == None && modelCalls == []
    {
      this.modelType := modelType;
      this.backend := backend;
      registry := Prompts.Registry;
      stockName := "";
      results := None;
      modelCalls := [];
    }

    /**
     * `analyze_stock`: upper-cases the name, runs the resolved ids in order
     * (skipping unknown ones), and on success records and returns the
     * analysis. If a model call raises, the name is already updated but the
     * previous analysis stays.
     */
    method AnalyzeStock(name: string, promptIds: Option<seq<string>>, ctx: LiveContext, timestamp: string,
                        remote: Remote) returns (r: Result<AnalysisResult, string>)
      modifies this
      ensures stockName == Upper(name)
      ensures var job := Job(registry, Upper(name), ctx, backend, remote);
              var ids := ResolveIds(promptIds, registry);
              && (r.Err? <==> RunPrompts(ids, job).Err?)
              && (r.Ok? ==> r.value == AnalysisResult(Upper(name), timestamp, modelType, ids,
                                                      RunPrompts(ids, job).value, Summary(RunPrompts(ids, job).value)))
              && modelCalls == old(modelCalls) + Sent(ids, job)
      ensures results == if r.Ok? then Some(r.value) else old(results)
    {
      stockName := Upper(name);
      var ids := ResolveIds(promptIds, registry);
      var run := RunLoop(ids, ctx, remote);
      if run.Err? {
        return Err(run.error);
      }
      var summary := BuildSummary(run.value);
      r := Ok(AnalysisResult(stockName, timestamp, modelType, ids, run.value, summary));
      results := Some(r.value);
    }

    /**
     * The loop of `analyze_stock`: each known id's prompt is filled and sent
     * and the answer stored under the id; the first exception a model call
     * raises ends the loop.
     */
    method RunLoop(ids: seq<string>, ctx: LiveContext, remote: Remote) returns (run: Result<seq<PromptEntry>, string>)
      modifies this`modelCalls
      ensures run == RunPrompts(ids, Job(registry, stockName, ctx, backend, remote))
      ensures modelCalls == old(modelCalls) + Sent(ids, Job(registry, stockName, ctx, backend, remote))
    {
      ghost var job := Job(registry, stockName, ctx, backend, remote);
      var entries: seq<PromptEntry> := [];
      for i := 0 to |ids|
        invariant RunPrompts(ids[..i], job) == Ok(entries)
        invariant modelCalls == old(modelCalls) + Sent(ids[..i], job)
      {
        ghost var calls := modelCalls;
        var step := Turn(entries, ids[i], ctx, remote);
        RunAdvance(ids, i, entries, job, old(modelCalls), calls);
        if step.Err? {
          return step;
        }
        entries := step.value;
      }
      assert ids[..|ids|] == ids;
      return Ok(entries);
    }

    /** One pass of the loop body: fill the prompt of a known id, send it and store the answer. */
    method Turn(entries: seq<PromptEntry>, pid: string, ctx: LiveContext, remote: Remote)
      returns (step: Result<seq<PromptEntry>, string>)
      modifies this`modelCalls
      ensures step == RunStep(Ok(entries), pid, Job(registry, stockName, ctx, backend, remote))
      ensures modelCalls == old(modelCalls) + SentStep(Ok(entries), pid, Job(registry, stockName, ctx, backend, remote))
    {
      var prompt := BuildPrompt(registry, pid, stockName, ctx);
      if prompt.None? {
        return Ok(entries);
      }
      modelCalls := modelCalls + [prompt.value];
      var response := Complete(backend, prompt.value, remote);
      if response.Err? {
        return Err(response.error);
      }
      return Ok(Put(entries, PromptEntry(pid, prompt.value, response.value)));
    }

    /** `to_markdown`: the header, then the sections appended in a loop, joined by line breaks. */
    method ToMarkdown() returns (s: string)
      ensures s == Markdown(results)
    {
      if results.None? {
        return NoResultsReport;
      }
      var a := results.value;
      var lines := HeaderLines(a);
      for i := 0 to |a.results|
        invariant lines == HeaderLines(a) + Sections(a.results[..i])
      {
        assert a.results[..i + 1][..i] == a.results[..i];
        lines := lines + SectionLines(a.results[i]);
      }
      assert a.results[..|a.results|] == a.results;
      s := Join(lines, "\n");
    }
  }

  /**
   * `StockAnalystAgent(...)`: the given client, else the one the factory
   * builds for the model type; the factory's `ValueError` escapes.
   */
  method NewAgent(model: string, client: Option<Backend>, config: map<string, string>, env: map<string, string>)
    returns (r: Result<StockAnalystAgent, string>)
    ensures r.Ok? <==> client.Some? || model in SupportedModels
    ensures r.Err? ==> r.error == UnknownModelMessage(model)
    ensures r.Ok? ==> fresh(r.value) && r.value.modelType == model && r.value.results.None?
    ensures r.Ok? ==> r.value.backend == if client.Some? then client.value else BuildModelClient(model, config, env).value
  {
    var backend: Backend;
    if client.Some? {
      backend := client.value;
    } else {
      var built := BuildModelClient(model, config, env);
      if built.Err? {
        return Err(built.error);
      }
      backend := built.value;
    }
    var agent := new StockAnalystAgent(model, backend);
    r := Ok(agent);
  }
}
