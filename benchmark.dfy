/**
 * The two-stage orchestrator: scrape every URL into a record, ask every
 * model (gated by the optional preload) to solve every record, store the
 * rows, and optionally grade every stored response with every model.
 *
 * The spreadsheet files are a map from path to table; the pages, the
 * inference service and the preload listing are oracles.
 */
module Orchestrator {
  import opened Wrappers
  import opened Strings
  import opened Page
  import opened Objects
  import opened Inference
  import opened Schedule

  /**
   * `scrape_info(url)`, with `page` the response to the GET of `url`: the
   * same walk as the PortSwigger adapter, from `("", [], "")`.
   */
  method ScrapeInfo(page: Response) returns (r: Option<Scraped>)
    requires page.WellFormed()
    ensures r == ScrapeResult(page)
    ensures r.Some? <==> page.status == 200
    ensures r.Some? ==> |r.value.blocks| == NumQualifying(page.sections)
    ensures r.Some? ==> r.value.title == if |page.sections| == 0 then "" else page.sections[|page.sections| - 1].heading
    ensures r.Some? && (forall k :: 0 <= k < |page.sections| ==> page.sections[k].solution.None?) ==> r.value.solution == ""
  {
    if page.status != 200 {
      return None;
    }
    var sections := page.sections;
    var title, extractedData, solution := "", [], "";
    for i := 0 to |sections|
      invariant title == LastTitle(sections[..i], "")
      invariant extractedData == Blocks(sections[..i])
      invariant solution == LastSolution(sections[..i], "")
    {
      var section := sections[i];
      assert sections[..i + 1][..i] == sections[..i];
      title := section.heading;
      var block := ExtractBlock(section);
      if block.Some? {
        extractedData := extractedData + [block.value];
      }
      if section.solution.Some? {
        solution := section.solution.value;
      }
    }
    assert sections[..|sections|] == sections;
    BlocksCount(sections);
    if forall k :: 0 <= k < |sections| ==> sections[k].solution.None? {
      LastSolutionNone(sections, "");
    }
    return Some(Scraped(title, extractedData, solution));
  }

  /** Every page the oracle can return is well formed. */
  ghost predicate PagesWellFormed(fetch: string -> Response)
  {
    forall u :: fetch(u).WellFormed()
  }

  /** Every URL's page was fetched with status 200. */
  predicate AllFetched(urls: seq<string>, fetch: string -> Response)
    requires PagesWellFormed(fetch)
  {
    forall k :: 0 <= k < |urls| ==> ScrapeResult(fetch(urls[k])).Some?
  }

  /** `k` is the first URL whose fetch failed. */
  predicate FirstFailure(urls: seq<string>, fetch: string -> Response, k: int)
    requires PagesWellFormed(fetch)
  {
    && 0 <= k < |urls|
    && ScrapeResult(fetch(urls[k])).None?
    && forall j :: 0 <= j < k ==> ScrapeResult(fetch(urls[j])).Some?
  }

  /** `ScrappedData(url, title, ''.join(data), solution)`: the blocks are concatenated with no separator. */
  function MakeRecord(url: string, s: Scraped): ScrappedData
  {
    ScrappedData(url, s.title, Join(s.blocks, ""), s.solution)
  }

  /** The records of all URLs, in list order. */
  function Records(urls: seq<string>, fetch: string -> Response): (records: seq<ScrappedData>)
    requires PagesWellFormed(fetch) && AllFetched(urls, fetch)
    ensures |records| == |urls|
    ensures forall k :: 0 <= k < |urls| ==> records[k] == MakeRecord(urls[k], ScrapeResult(fetch(urls[k])).value)
  {
    if |urls| == 0 then []
    else
      var n := |urls| - 1;
      assert AllFetched(urls[..n], fetch) by {
        assert forall k :: 0 <= k < n ==> urls[..n][k] == urls[k];
      }
      Records(urls[..n], fetch) + [MakeRecord(urls[n], ScrapeResult(fetch(urls[n])).value)]
  }

  /**
   * A record's data is its blocks one after the other, with nothing between
   * them, so its length is the blocks' total length.
   */
  lemma RecordData(url: string, s: Scraped)
    ensures MakeRecord(url, s).data == Concat(s.blocks)
    ensures |s.blocks| > 0 ==> |MakeRecord(url, s).data| == TotalLength(s.blocks)
  {
    JoinEmptySeparator(s.blocks);
    if |s.blocks| > 0 {
      JoinLength(s.blocks, "");
    }
  }

  /** One more fetched URL: its record comes last. */
  lemma RecordsStep(urls: seq<string>, fetch: string -> Response, k: nat)
    requires PagesWellFormed(fetch) && k < |urls|
    requires AllFetched(urls[..k], fetch) && ScrapeResult(fetch(urls[k])).Some?
    ensures AllFetched(urls[..k + 1], fetch)
    ensures Records(urls[..k + 1], fetch) == Records(urls[..k], fetch) + [MakeRecord(urls[k], ScrapeResult(fetch(urls[k])).value)]
  {
    assert urls[..k + 1][..k] == urls[..k];
    assert forall j :: 0 <= j < k ==> urls[..k + 1][j] == urls[..k][j];
  }

  /** A row of the benchmark stage. */
  datatype BenchRow = BenchRow(model: string, url: string, title: string, data: string, aiResponse: string, solution: string)

  /** A row of the evaluation stage. */
  datatype EvalRow = EvalRow(model: string, title: string, aiEvaluation: string)

  /** The three cells of a stored benchmark row the evaluation reads. */
  datatype EvalItem = EvalItem(title: string, response: string, solution: string)

  /** Whether a model takes part: with preload on, only when `load_model` answers truthily. */
  function Gate(preload: bool, promptUrl: string, modelsUrl: string, service: Service): string -> bool
  {
    m => !preload || Truthy(LoadModel(m, promptUrl, modelsUrl, service))
  }

  /**
   * With preload off every model takes part; with preload on exactly those
   * for which `load_model` does not answer False.
   */
  lemma GateDecision(preload: bool, promptUrl: string, modelsUrl: string, service: Service, m: string)
    ensures Gate(preload, promptUrl, modelsUrl, service)(m) <==> !preload || !LoadRefused(m, promptUrl, modelsUrl, service)
  {
    PreloadDecision(m, promptUrl, modelsUrl, service);
  }

  /** The benchmark row of a model and a record: the record's fields and the text of the solving reply. */
  function BenchCell(promptUrl: string, service: Service): (string, ScrappedData) -> BenchRow
  {
    (m: string, d: ScrappedData) =>
      BenchRow(m, d.GetUrl(), d.GetTitle(), d.GetData(),
               ReplyText(SendBenchmarkingPrompt(d.GetData(), m, promptUrl, service)), d.GetSolution())
  }

  /** The evaluation row of a model and a stored row: its title and the text of the grading reply. */
  function EvalCell(promptUrl: string, service: Service): (string, EvalItem) -> EvalRow
  {
    (m: string, it: EvalItem) =>
      EvalRow(m, it.title, ReplyText(SendEvaluationPrompt(it.solution, it.response, m, promptUrl, service)))
  }

  /**
   * A benchmark row copies the record's fields; its response is the fallback
   * when the description, the model or the URL is empty, and otherwise the
   * first choice of a 200 answer to the solving request, or the fallback.
   */
  lemma BenchCellContents(promptUrl: string, service: Service, m: string, d: ScrappedData)
    ensures var row := BenchCell(promptUrl, service)(m, d);
      row.model == m && row.url == d.GetUrl() && row.title == d.GetTitle()
      && row.data == d.GetData() && row.solution == d.GetSolution()
    ensures d.GetData() == "" || m == "" || promptUrl == "" ==>
      BenchCell(promptUrl, service)(m, d).aiResponse == NoResponse
    ensures d.GetData() != "" && m != "" && promptUrl != "" ==>
      var t := service.post(Request(promptUrl, m, BenchmarkingSystem, BenchmarkingUserPrompt(d.GetData())));
      BenchCell(promptUrl, service)(m, d).aiResponse ==
        if t.Answered? && t.status == 200 && t.choices.Some? && |t.choices.value| > 0
        then t.choices.value[0].content
        else NoResponse
  {
    if d.GetData() == "" || m == "" || promptUrl == "" {
      BenchmarkingGuardFallsBack(d.GetData(), m, promptUrl, service, service);
    } else {
      DeliveredText(Request(promptUrl, m, BenchmarkingSystem, BenchmarkingUserPrompt(d.GetData())), service);
    }
  }

  /**
   * An evaluation row keeps the stored title; its grade is the fallback when
   * the solution, the response, the model or the URL is empty, and otherwise
   * the first choice of a 200 answer to the grading request, or the fallback.
   */
  lemma EvalCellContents(promptUrl: string, service: Service, m: string, it: EvalItem)
    ensures EvalCell(promptUrl, service)(m, it).model == m && EvalCell(promptUrl, service)(m, it).title == it.title
    ensures it.solution == "" || it.response == "" || m == "" || promptUrl == "" ==>
      EvalCell(promptUrl, service)(m, it).aiEvaluation == NoResponse
    ensures it.solution != "" && it.response != "" && m != "" && promptUrl != "" ==>
      var t := service.post(Request(promptUrl, m, EvaluationSystem, EvaluationUserPrompt(it.solution, it.response)));
      EvalCell(promptUrl, service)(m, it).aiEvaluation ==
        if t.Answered? && t.status == 200 && t.choices.Some? && |t.choices.value| > 0
        then t.choices.value[0].content
        else NoResponse
  {
    if it.solution == "" || it.response == "" || m == "" || promptUrl == "" {
      EvaluationGuardFallsBack(it.solution, it.response, m, promptUrl, service, service);
    } else {
      DeliveredText(Request(promptUrl, m, EvaluationSystem, EvaluationUserPrompt(it.solution, it.response)), service);
    }
  }

  /** A spreadsheet as the program sees it: its column names and, per row, the cell of each column. */
  datatype Table = Table(columns: set<string>, rows: seq<map<string, string>>)

  /** Every row has a cell for every column and for nothing else. */
  predicate Rectangular(t: Table)
  {
    forall i :: 0 <= i < |t.rows| ==> t.rows[i].Keys == t.columns
  }

  ghost predicate StoreWellFormed(store: map<string, Table>)
  {
    forall p :: p in store ==> Rectangular(store[p])
  }

  const BenchColumns: set<string> := {"Model", "URL", "Title", "Data", "AI Response", "Solution"}
  const EvalColumns: set<string> := {"Model", "Title", "AI Evaluation"}
  const RequiredColumns: set<string> := {"Title", "AI Response", "Solution"}

  function BenchCells(r: BenchRow): map<string, string>
  {
    map["Model" := r.model, "URL" := r.url, "Title" := r.title, "Data" := r.data,
        "AI Response" := r.aiResponse, "Solution" := r.solution]
  }

  function EvalCells(r: EvalRow): map<string, string>
  {
    map["Model" := r.model, "Title" := r.title, "AI Evaluation" := r.aiEvaluation]
  }

  /** The table of a list of row dictionaries: a table made from no rows has no columns either. */
  function BenchTable(rows: seq<BenchRow>): (t: Table)
    ensures Rectangular(t) && |t.rows| == |rows|
    ensures t.columns == if |rows| == 0 then {} else BenchColumns
    ensures forall i :: 0 <= i < |rows| ==>
      && t.rows[i]["Model"] == rows[i].model && t.rows[i]["URL"] == rows[i].url
      && t.rows[i]["Title"] == rows[i].title && t.rows[i]["Data"] == rows[i].data
      && t.rows[i]["AI Response"] == rows[i].aiResponse && t.rows[i]["Solution"] == rows[i].solution
  {
    Table(if |rows| == 0 then {} else BenchColumns, seq(|rows|, i requires 0 <= i < |rows| => BenchCells(rows[i])))
  }

  /** The same for evaluation rows. */
  function EvalTable(rows: seq<EvalRow>): (t: Table)
    ensures Rectangular(t) && |t.rows| == |rows|
    ensures t.columns == if |rows| == 0 then {} else EvalColumns
    ensures forall i :: 0 <= i < |rows| ==>
      && t.rows[i]["Model"] == rows[i].model && t.rows[i]["Title"] == rows[i].title
      && t.rows[i]["AI Evaluation"] == rows[i].aiEvaluation
  {
    Table(if |rows| == 0 then {} else EvalColumns, seq(|rows|, i requires 0 <= i < |rows| => EvalCells(rows[i])))
  }

  /** The `Title`, `AI Response` and `Solution` columns, row by row. */
  function EvalItems(t: Table): seq<EvalItem>
    requires Rectangular(t) && RequiredColumns <= t.columns
  {
    seq(|t.rows|, i requires 0 <= i < |t.rows| =>
      EvalItem(t.rows[i]["Title"], t.rows[i]["AI Response"], t.rows[i]["Solution"]))
  }

  /** What the evaluation reads back from a stored benchmark row. */
  function ItemsOf(rows: seq<BenchRow>): seq<EvalItem>
  {
    seq(|rows|, i requires 0 <= i < |rows| => EvalItem(rows[i].title, rows[i].aiResponse, rows[i].solution))
  }

  /**
   * The hand-off contract: a stored non-empty benchmark table has the
   * columns the evaluation requires, and reading them back gives each row's
   * title, response and solution; an empty one has none of them.
   */
  lemma HandOffTable(rows: seq<BenchRow>)
    ensures |rows| == 0 ==> !(RequiredColumns <= BenchTable(rows).columns)
    ensures |rows| > 0 ==> RequiredColumns <= BenchTable(rows).columns
    ensures |rows| > 0 ==> EvalItems(BenchTable(rows)) == ItemsOf(rows)
  {
    if |rows| == 0 {
      assert "Title" in RequiredColumns;
    }
  }

  const OutputDirectory: string := "./output/"

  /** `f"./output/benchmarking_{output}.xlsx"`. */
  function BenchmarkFile(output: string): string
  {
    OutputDirectory + "benchmarking_" + output + ".xlsx"
  }

  /** `f"./output/evaluation_{output}.xlsx"`. */
  function EvaluationFile(output: string): string
  {
    OutputDirectory + "evaluation_" + output + ".xlsx"
  }

  /** The output name `benchmark` passes on to `evaluate`. */
  function EvaluationOutputName(output: string): string
  {
    "evaluation_" + output
  }

  /** The input path `benchmark` passes on to `evaluate`, as written: without the extension. */
  function HandOffAsWritten(output: string): string
  {
    OutputDirectory + "benchmarking_" + output
  }

  /** Different output names give different benchmark files. */
  lemma BenchmarkFileInjective(a: string, b: string)
    requires BenchmarkFile(a) == BenchmarkFile(b)
    ensures a == b
  {
    var k := |OutputDirectory + "benchmarking_"|;
    assert |a| == |b|;
    assert a == BenchmarkFile(a)[k..k + |a|];
    assert b == BenchmarkFile(b)[k..k + |b|];
  }

  /**
   * The evaluation that follows a benchmark writes `evaluation_evaluation_`
   * and never overwrites the benchmark's own file.
   */
  lemma FollowUpFileNames(output: string)
    ensures EvaluationFile(EvaluationOutputName(output)) == "./output/evaluation_evaluation_" + output + ".xlsx"
    ensures EvaluationFile(EvaluationOutputName(output)) != BenchmarkFile(output)
  {
    assert EvaluationFile(EvaluationOutputName(output))[9] == 'e';
    assert BenchmarkFile(output)[9] == 'b';
  }

  /** The path `benchmark` hands to `evaluate` is never the file it has just written. */
  lemma HandOffAsWrittenMisses(output: string)
    ensures HandOffAsWritten(output) != BenchmarkFile(output)
    ensures BenchmarkFile(output) == HandOffAsWritten(output) + ".xlsx"
  {
    assert |BenchmarkFile(output)| == |HandOffAsWritten(output)| + 5;
  }

  /** The inner loop of `benchmark` for one model: each record's prompt, in order. */
  method BenchmarkModel(model: string, records: seq<ScrappedData>, promptUrl: string, service: Service)
    returns (rows: seq<BenchRow>)
    ensures rows == PerModel(model, records, BenchCell(promptUrl, service))
  {
    ghost var cell := BenchCell(promptUrl, service);
    rows := [];
    for j := 0 to |records|
      invariant rows == PerModel(model, records[..j], cell)
    {
      var scrapped := records[j];
      PerModelStep(model, records, j, cell);
      var response := SendBenchmarkingPrompt(scrapped.GetData(), model, promptUrl, service);
      var botResponse := ReplyText(response);
      assert cell(model, scrapped) == BenchRow(model, scrapped.GetUrl(), scrapped.GetTitle(), scrapped.GetData(), botResponse, scrapped.GetSolution());
      rows := rows + [BenchRow(model, scrapped.GetUrl(), scrapped.GetTitle(), scrapped.GetData(), botResponse, scrapped.GetSolution())];
    }
    assert records[..|records|] == records;
  }

  /** The inner loop of `evaluate` for one model: each input row's prompt, in order. */
  method EvaluateModel(model: string, items: seq<EvalItem>, promptUrl: string, service: Service)
    returns (rows: seq<EvalRow>)
    ensures rows == PerModel(model, items, EvalCell(promptUrl, service))
  {
    ghost var cell := EvalCell(promptUrl, service);
    rows := [];
    for k := 0 to |items|
      invariant rows == PerModel(model, items[..k], cell)
    {
      var item := items[k];
      PerModelStep(model, items, k, cell);
      var response := SendEvaluationPrompt(item.solution, item.response, model, promptUrl, service);
      var botResponse := ReplyText(response);
      assert cell(model, item) == EvalRow(model, item.title, botResponse);
      rows := rows + [EvalRow(model, item.title, botResponse)];
    }
    assert items[..|items|] == items;
  }

  /** The nested loops of `benchmark`: models in order, skipped when the gate refuses them, then records in order. */
  method BenchmarkRows(preload: bool, models: seq<string>, records: seq<ScrappedData>,
                       promptUrl: string, modelsUrl: string, service: Service) returns (rows: seq<BenchRow>)
    ensures rows == ModelMajor(Kept(models, Gate(preload, promptUrl, modelsUrl, service)), records, BenchCell(promptUrl, service))
    ensures |rows| == |Kept(models, Gate(preload, promptUrl, modelsUrl, service))| * |records|
  {
    ghost var pass := Gate(preload, promptUrl, modelsUrl, service);
    ghost var cell := BenchCell(promptUrl, service);
    rows := [];
    for i := 0 to |models|
      invariant rows == ModelMajor(Kept(models[..i], pass), records, cell)
    {
      var model := models[i];
      KeptStep(models, i, pass);
      assert pass(model) == (!preload || Truthy(LoadModel(model, promptUrl, modelsUrl, service)));
      if preload && !Truthy(LoadModel(model, promptUrl, modelsUrl, service)) {
        assert Kept(models[..i + 1], pass) == Kept(models[..i], pass);
        continue;
      }
      assert Kept(models[..i + 1], pass) == Kept(models[..i], pass) + [model];
      var modelRows := BenchmarkModel(model, records, promptUrl, service);
      rows := rows + modelRows;
      ModelMajorSnoc(Kept(models[..i], pass), model, records, cell);
      assert rows == ModelMajor(Kept(models[..i], pass) + [model], records, cell);
    }
    assert models[..|models|] == models;
    ModelMajorLength(Kept(models, pass), records, cell);
  }

  /** The nested loops of `evaluate`: models in order, skipped when the gate refuses them, then rows of the input in order. */
  method EvaluationRows(preload: bool, models: seq<string>, items: seq<EvalItem>,
                        promptUrl: string, modelsUrl: string, service: Service) returns (rows: seq<EvalRow>)
    ensures rows == ModelMajor(Kept(models, Gate(preload, promptUrl, modelsUrl, service)), items, EvalCell(promptUrl, service))
    ensures |rows| == |Kept(models, Gate(preload, promptUrl, modelsUrl, service))| * |items|
  {
    ghost var pass := Gate(preload, promptUrl, modelsUrl, service);
    ghost var cell := EvalCell(promptUrl, service);
    rows := [];
    for i := 0 to |models|
      invariant rows == ModelMajor(Kept(models[..i], pass), items, cell)
    {
      var model := models[i];
      KeptStep(models, i, pass);
      assert pass(model) == (!preload || Truthy(LoadModel(model, promptUrl, modelsUrl, service)));
      if preload && !Truthy(LoadModel(model, promptUrl, modelsUrl, service)) {
        assert Kept(models[..i + 1], pass) == Kept(models[..i], pass);
        continue;
      }
      assert Kept(models[..i + 1], pass) == Kept(models[..i], pass) + [model];
      var modelRows := EvaluateModel(model, items, promptUrl, service);
      rows := rows + modelRows;
      ModelMajorSnoc(Kept(models[..i], pass), model, items, cell);
      assert rows == ModelMajor(Kept(models[..i], pass) + [model], items, cell);
    }
    assert models[..|models|] == models;
    ModelMajorLength(Kept(models, pass), items, cell);
  }

  /**
   * `evaluate`, reading `input` from the store and writing
   * `./output/evaluation_<output>.xlsx`. A missing input file raises; a table
   * lacking a required column stops the stage with nothing written.
   */
  method Evaluate(preload: bool, models: seq<string>, promptUrl: string, modelsUrl: string,
                  input: string, output: string, store: map<string, Table>, service: Service)
    returns (outcome: EvalOutcome, store': map<string, Table>)
    requires StoreWellFormed(store)
    ensures StoreWellFormed(store')
    ensures input !in store ==> outcome == InputUnreadable(input) && store' == store
    ensures input in store && !(RequiredColumns <= store[input].columns) ==> outcome == ColumnsMissing && store' == store
    ensures input in store && RequiredColumns <= store[input].columns ==>
      && outcome == Evaluated(ModelMajor(Kept(models, Gate(preload, promptUrl, modelsUrl, service)),
                                         EvalItems(store[input]), EvalCell(promptUrl, service)),
                              EvaluationFile(output))
      && |outcome.rows| == |Kept(models, Gate(preload, promptUrl, modelsUrl, service))| * |store[input].rows|
      && store' == store[EvaluationFile(output) := EvalTable(outcome.rows)]
  {
    if input !in store {
      return InputUnreadable(input), store;
    }
    var data := store[input];
    if !("Title" in data.columns && "AI Response" in data.columns && "Solution" in data.columns) {
      return ColumnsMissing, store;
    }
    var items := EvalItems(data);
    var rows := EvaluationRows(preload, models, items, promptUrl, modelsUrl, service);
    outcome := Evaluated(rows, EvaluationFile(output));
    store' := store[EvaluationFile(output) := EvalTable(rows)];
  }

  datatype EvalOutcome = InputUnreadable(path: string) | ColumnsMissing | Evaluated(rows: seq<EvalRow>, file: string)

  datatype BenchmarkOutcome =
    | ScrapeCrashed(url: string)
    | Benchmarked(rows: seq<BenchRow>, file: string, evaluation: Option<EvalOutcome>)

  /**
   * The benchmark stage proper: scrape every URL (a failed fetch makes the
   * tuple unpacking raise), run the model loops, and write the table.
   */
  method BenchmarkStage(preload: bool, models: seq<string>, urls: seq<string>, fetch: string -> Response,
                        promptUrl: string, modelsUrl: string, output: string,
                        store: map<string, Table>, service: Service)
    returns (outcome: BenchmarkOutcome, store': map<string, Table>)
    requires PagesWellFormed(fetch) && StoreWellFormed(store)
    ensures StoreWellFormed(store')
    ensures outcome.ScrapeCrashed? <==> !AllFetched(urls, fetch)
    ensures outcome.ScrapeCrashed? ==> store' == store && exists k :: FirstFailure(urls, fetch, k) && urls[k] == outcome.url
    ensures outcome.Benchmarked? ==>
      && outcome.rows == ModelMajor(Kept(models, Gate(preload, promptUrl, modelsUrl, service)),
                                    Records(urls, fetch), BenchCell(promptUrl, service))
      && |outcome.rows| == |Kept(models, Gate(preload, promptUrl, modelsUrl, service))| * |urls|
      && outcome.file == BenchmarkFile(output)
      && outcome.evaluation == None
      && store' == store[BenchmarkFile(output) := BenchTable(outcome.rows)]
  {
    var records: seq<ScrappedData> := [];
    for k := 0 to |urls|
      invariant AllFetched(urls[..k], fetch)
      invariant records == Records(urls[..k], fetch)
    {
      var scraped := ScrapeInfo(fetch(urls[k]));
      if scraped.None? {
        assert FirstFailure(urls, fetch, k) by {
          assert forall j :: 0 <= j < k ==> urls[..k][j] == urls[j];
        }
        return ScrapeCrashed(urls[k]), store;
      }
      RecordsStep(urls, fetch, k);
      records := records + [MakeRecord(urls[k], scraped.value)];
    }
    assert urls[..|urls|] == urls;
    var rows := BenchmarkRows(preload, models, records, promptUrl, modelsUrl, service);
    outcome := Benchmarked(rows, BenchmarkFile(output), None);
    store' := store[BenchmarkFile(output) := BenchTable(rows)];
  }

  /**
   * `benchmark`, with the evaluation reading the file the stage has just
   * written. A stage that produced no row writes a table without columns,
   * so the evaluation then stops for missing columns; otherwise it grades
   * every stored row with every kept model.
   */
  method Benchmark(preload: bool, models: seq<string>, urls: seq<string>, fetch: string -> Response,
                   promptUrl: string, modelsUrl: string, output: string, doEvaluate: bool,
                   store: map<string, Table>, service: Service)
    returns (outcome: BenchmarkOutcome, store': map<string, Table>)
    requires PagesWellFormed(fetch) && StoreWellFormed(store)
    ensures StoreWellFormed(store')
    ensures outcome.ScrapeCrashed? <==> !AllFetched(urls, fetch)
    ensures outcome.Benchmarked? ==>
      && outcome.rows == ModelMajor(Kept(models, Gate(preload, promptUrl, modelsUrl, service)),
                                    Records(urls, fetch), BenchCell(promptUrl, service))
      && outcome.file == BenchmarkFile(output)
      && BenchmarkFile(output) in store' && store'[BenchmarkFile(output)] == BenchTable(outcome.rows)
    ensures outcome.ScrapeCrashed? ==> store' == store
    ensures outcome.Benchmarked? && (!doEvaluate || |outcome.rows| == 0) ==>
      store' == store[BenchmarkFile(output) := BenchTable(outcome.rows)]
    ensures outcome.Benchmarked? && doEvaluate && |outcome.rows| > 0 ==>
      && outcome.evaluation.Some? && outcome.evaluation.value.Evaluated?
      && store' == store[BenchmarkFile(output) := BenchTable(outcome.rows)]
                        [EvaluationFile(EvaluationOutputName(output)) := EvalTable(outcome.evaluation.value.rows)]
    ensures outcome.Benchmarked? && !doEvaluate ==> outcome.evaluation == None
    ensures outcome.Benchmarked? && doEvaluate && |outcome.rows| == 0 ==> outcome.evaluation == Some(ColumnsMissing)
    ensures outcome.Benchmarked? && doEvaluate && |outcome.rows| > 0 ==>
      outcome.evaluation == Some(Evaluated(ModelMajor(Kept(models, Gate(preload, promptUrl, modelsUrl, service)),
                                                      ItemsOf(outcome.rows), EvalCell(promptUrl, service)),
                                           EvaluationFile(EvaluationOutputName(output))))
  {
    outcome, store' := BenchmarkStage(preload, models, urls, fetch, promptUrl, modelsUrl, output, store, service);
    if outcome.Benchmarked? && doEvaluate {
      var evaluation;
      HandOffTable(outcome.rows);
      FollowUpFileNames(output);
      evaluation, store' := Evaluate(preload, models, promptUrl, modelsUrl, BenchmarkFile(output),
                                     EvaluationOutputName(output), store', service);
      outcome := outcome.(evaluation := Some(evaluation));
    }
  }

  /**
   * `benchmark` as written: the evaluation is handed the path without its
   * `.xlsx` extension. Unless a file of exactly that name already existed,
   * the evaluation cannot read its input.
   */
  method BenchmarkAsWritten(preload: bool, models: seq<string>, urls: seq<string>, fetch: string -> Response,
                            promptUrl: string, modelsUrl: string, output: string, doEvaluate: bool,
                            store: map<string, Table>, service: Service)
    returns (outcome: BenchmarkOutcome, store': map<string, Table>)
    requires PagesWellFormed(fetch) && StoreWellFormed(store)
    ensures StoreWellFormed(store')
    ensures outcome.ScrapeCrashed? <==> !AllFetched(urls, fetch)
    ensures outcome.Benchmarked? && doEvaluate && HandOffAsWritten(output) !in store ==>
      outcome.evaluation == Some(InputUnreadable(HandOffAsWritten(output)))
  {
    outcome, store' := BenchmarkStage(preload, models, urls, fetch, promptUrl, modelsUrl, output, store, service);
    if outcome.Benchmarked? && doEvaluate {
      HandOffAsWrittenMisses(output);
      var evaluation;
      evaluation, store' := Evaluate(preload, models, promptUrl, modelsUrl, HandOffAsWritten(output),
                                     EvaluationOutputName(output), store', service);
      outcome := outcome.(evaluation := Some(evaluation));
    }
  }
}
