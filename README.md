# CyberAIBenchmark core, modelled in Dafny

CyberAIBenchmark scrapes Capture-The-Flag lab pages and runs a two-stage
benchmark over a list of language models served by a local inference server.
In the first stage every model is asked to solve every scraped challenge. In
the second, optional stage every model grades each stored answer against the
reference solution. Both stages write a spreadsheet.

This project models the deterministic logic of that pipeline:

- **The sibling walk** of `scrape_info` and of the PortSwigger adapter (`page.dfy`, `portswigger_scrapper.dfy`). Starting after a section's
  `container-columns` element, the walk collects the texts of the following
  siblings up to the first one equal to the `container-buttons-left`
  element. It joins them with a newline into one block. Across sections the
  blocks are appended, each heading overwrites the title, and only sections
  with a solution overwrite the solution. The adapter is a class whose fields
  keep accumulating blocks across calls.
- **The host dispatcher** `ScrapperConsumer` (`scrapper_consumer.dfy`). The
  host is `url.split("/")[2]`. It is matched exactly against
  `portswigger.net` and `pentesterlab.com`. Any other host raises
  `ValueError`. A URL with fewer than two slashes raises `IndexError`.
- **The record** `ScrappedData` (`scrapped_data.dfy`), with its getters,
  `as_dict` and `__str__`.
- **The inference calls** (`inference.dfy`):
  - the request templates;
  - the ordered empty-argument guards of `send_benchmarking_prompt` and
    `send_evaluation_prompt`;
  - the status and exception handling of a request;
  - the reply-to-text fallback `"No response from the model"`;
  - the `load_model` decision, together with the truthiness its caller
    applies to it.
- **The orchestrator** (`schedule.dfy`, `benchmark.dfy`):
  - the scrape loop of `benchmark`;
  - the model × record loops of `benchmark` and the model × row loops of
    `evaluate`, with preload skipping;
  - the required-column check of `evaluate`;
  - the tables written and their file names.

The outside world is passed in as function-valued parameters:

- a page fetch `string -> Response`;
- the inference server's chat-completion endpoint, `Request -> Transport`;
- its model listing, `(string, string) -> Listing`;
- the PentesterLab adapter's result, an `Option<Scraped>`.

The file system is a `map<string, Table>` from path to spreadsheet.

Where the code and its description differ, this model follows the code.
For example, the record's `data` is the blocks concatenated with `''.join`
(benchmark.py:240), not joined with newlines. There is one exception, the
record class: benchmark.py:10 imports `ScrappedData` from the root
`scrapped_data.py`. That class takes three arguments and has no
`get_solution`. As written, the four-argument call at benchmark.py:240
therefore raises TypeError on the first URL that scrapes successfully, and
`benchmark` never reaches its model loops. The model instead builds records
with `src/objects/scrapped_data.py`, the class that the call at line 240
and `get_solution` at line 260 need.

## Model

| member | source | states |
|---|---|---|
| Strings.Join | src/scrappers/portswigger_scrapper.py:34 | `sep.join(pieces)`, also at benchmark.py:131 and benchmark.py:240: Strings.JoinSplit states it undoes a split, Strings.JoinLength gives the length of a newline-joined block, and Strings.JoinEmptySeparator that `''.join` is plain concatenation |
| Strings.Split | src/scrappers/scrapper_consumer.py:11 | `str.split` on one character always yields at least one piece |
| Strings.SplitPieces | src/scrappers/scrapper_consumer.py:11 | a split has one piece more than there are separators, and no piece contains the separator |
| Strings.JoinSplit | src/scrappers/scrapper_consumer.py:11 | joining the pieces of a split back with the separator restores the URL |
| Strings.JoinEmptySeparator | benchmark.py:240 | `''.join` is plain concatenation of the pieces |
| Strings.JoinLength | src/scrappers/portswigger_scrapper.py:34 | a joined block is as long as its texts plus one separator between each two |
| Strings.NatToString | benchmark.py:165 | `str` of a natural number is a non-empty string of decimal digits, one digit exactly below ten, with no leading zero |
| Strings.NatToStringValue | benchmark.py:165 | the digits of `str(n)` read back as `n` |
| Strings.IntToString | benchmark.py:165 | `str` of an integer is non-empty; it is the digits of a non-negative integer, and `-` followed by the digits of its magnitude for a negative one |
| Page.TextsUntilBounded | benchmark.py:125-129 | the walk collects, in order, the texts of the siblings after the anchor and none equal to the marker; it stops exactly at the first sibling equal to the marker, or at the end |
| Page.TextsUntilNoMarker | benchmark.py:127-129 | when no following sibling equals the marker, the text of every following sibling is collected |
| Page.CollectRange | src/scrappers/portswigger_scrapper.py:27-32 | the `while` loop over the following siblings computes exactly the bounded walk |
| Page.ExtractBlock | src/scrappers/portswigger_scrapper.py:26-34 | a section having both the anchor and the marker yields the newline-joined walk; any other yields nothing |
| Page.SingleSectionBlocks | benchmark.py:123-131 | a section missing the anchor or the marker contributes no block, any other exactly one |
| Page.BlocksAppend | src/scrappers/portswigger_scrapper.py:20-34 | the blocks of two runs of sections are those of the first followed by those of the second |
| Page.BlocksCount | benchmark.py:123-131 | the number of blocks equals the number of sections having both the anchor and the marker |
| Page.NumQualifyingAppend | benchmark.py:123-131 | the count of qualifying sections adds up over concatenation |
| Page.BlockAt | benchmark.py:117-131 | each qualifying section's block sits at the index given by the number of qualifying sections before it |
| Page.LastTitleAppend | src/scrappers/portswigger_scrapper.py:20-21 | visiting two runs of sections leaves the title of visiting both at once, the last heading |
| Page.LastSolutionAppend | src/scrappers/portswigger_scrapper.py:36-37 | the same for the solution, which only sections with a solution overwrite |
| Page.LastSolutionNone | benchmark.py:133-134 | when no section has a solution, the solution keeps its initial value |
| Page.LastSolutionIsLast | benchmark.py:133-134 | the solution is the one of the last section having a solution |
| Orchestrator.ScrapeInfo | benchmark.py:105-135 | `scrape_info` returns nothing exactly when the status is not 200; otherwise it returns the title of the last section (`""` with none), one block per qualifying section, and the last solution (`""` with none) |
| PortSwiggerAdapter.PortSwiggerScrapper.constructor | src/scrappers/portswigger_scrapper.py:6-10 | the URL is the argument; title, blocks and solution start as `""`, `[]` and `""` |
| PortSwiggerAdapter.PortSwiggerScrapper.Scrape | src/scrappers/portswigger_scrapper.py:12-38 | a failed fetch returns `(None, None, None)` and changes no field; otherwise the blocks held grow by the page's blocks, the title becomes the last heading, the solution the last present one, and the call returns the three fields |
| PortSwiggerAdapter.RepeatedScrapesAccumulate | src/scrappers/portswigger_scrapper.py:20-38 | two scrapes on one object equal one scrape of both pages' sections; the blocks grow by the qualifying sections of each page |
| Dispatch.SelectAdapter | src/scrappers/scrapper_consumer.py:12-18 | the `match` on the host, characterised by Dispatch.SelectByHost (exact match of the two hosts), Dispatch.NoHostBelowTwoSlashes, Dispatch.SubdomainRefused and Dispatch.HostWithPortRefused |
| Dispatch.ScrapperConsumer.GetTitle | src/scrappers/scrapper_consumer.py:21-22 | the stored title: `""` after construction, and what Dispatch.ScrapperConsumer.Scrape returns after a scrape |
| Dispatch.ScrapperConsumer.GetExtractedData | src/scrappers/scrapper_consumer.py:24-25 | the stored blocks: `[]` after construction, and what Dispatch.ScrapperConsumer.Scrape returns after a scrape |
| Dispatch.ScrapperConsumer.GetSolution | src/scrappers/scrapper_consumer.py:27-28 | the stored solution: `""` after construction, and what Dispatch.ScrapperConsumer.Scrape returns after a scrape |
| Dispatch.Host | src/scrappers/scrapper_consumer.py:11 | the host exists exactly when the URL has at least two slashes, and contains no slash |
| Dispatch.HostOf | src/scrappers/scrapper_consumer.py:11 | for `scheme//host/path` the host is exactly `host` |
| Dispatch.SelectByHost | src/scrappers/scrapper_consumer.py:12-18 | exactly the two hosts, spelled exactly, select their adapter; any other is refused |
| Dispatch.NoHostBelowTwoSlashes | src/scrappers/scrapper_consumer.py:11 | a URL with fewer than two slashes has no third piece |
| Dispatch.SubdomainRefused | src/scrappers/scrapper_consumer.py:17-18 | every subdomain of `portswigger.net`, `www.portswigger.net` among them, is refused as unsupported |
| Dispatch.HostWithPortRefused | src/scrappers/scrapper_consumer.py:17-18 | `portswigger.net` followed by any port, `portswigger.net:443` among them, is refused as unsupported |
| Dispatch.ScrapperConsumer.constructor | src/scrappers/scrapper_consumer.py:5-8 | the getters start as `""`, `[]` and `""` |
| Dispatch.ScrapperConsumer.Scrape | src/scrappers/scrapper_consumer.py:10-19 | no host raises IndexError and an unsupported host raises `ValueError("Unsupported URL: " + url)`, both leaving the fields unchanged; a supported host stores the adapter's triple, `(None, None, None)` for a failed fetch, and returns what the getters then give |
| Objects.ScrappedData.AsDict | src/objects/scrapped_data.py:20-26 | exactly the keys `url`, `title`, `data`, `solution`, each mapped to its field |
| Objects.RecordRoundTrip | src/objects/scrapped_data.py:2-26 | the getters return the constructor arguments, and the dictionary form rebuilds the record |
| Objects.ScrappedData.GetUrl | src/objects/scrapped_data.py:8-9 | returns the constructor's `url`, as stated by Objects.RecordRoundTrip |
| Objects.ScrappedData.GetTitle | src/objects/scrapped_data.py:11-12 | returns the constructor's `title`, as stated by Objects.RecordRoundTrip |
| Objects.ScrappedData.GetData | src/objects/scrapped_data.py:14-15 | returns the constructor's `data`, as stated by Objects.RecordRoundTrip |
| Objects.ScrappedData.GetSolution | src/objects/scrapped_data.py:17-18 | returns the constructor's `solution`, as stated by Objects.RecordRoundTrip |
| Objects.ScrappedData.ToString | src/objects/scrapped_data.py:28-29 | `__str__`, whose length, `/n` prefix and lack of line breaks Objects.ToStringShape states |
| Objects.ToStringShape | src/objects/scrapped_data.py:28-29 | the string form adds eight characters, starts with the URL and the two characters `/n`, and adds no line break |
| Inference.BenchmarkingUserPrompt | benchmark.py:150 | the solving user message, from which Inference.DescriptionRoundTrip reads the description back unchanged |
| Inference.EvaluationUserPrompt | benchmark.py:184 | the grading user message, where Inference.EvaluationPromptEmbeds places the solution and the response |
| Inference.DescriptionRoundTrip | benchmark.py:56-59 | the challenge description can be read back unchanged from the solving prompt |
| Inference.EvaluationPromptEmbeds | benchmark.py:98-103 | the grading prompt holds the reference solution right after its head and the response right before its tail |
| Inference.FirstEmptySpec | benchmark.py:139-144 | the guard list names the earliest empty argument, and names none exactly when every argument is non-empty |
| Inference.Deliver | benchmark.py:160-167 | the reply is a completion carrying the server's `choices` exactly when the server answered 200; another status gives `{"error": "Request failed with status code <n>"}`; an exception gives `{"Error while sending request to the LLM Server": str(e)}` |
| Inference.SendBenchmarkingPrompt | benchmark.py:138-167 | the first empty one of prompt, model and URL gives its error dictionary; otherwise the solving request is sent with the description in its template |
| Inference.SendEvaluationPrompt | benchmark.py:170-201 | the first empty one of solution, response, model and URL gives its error dictionary; otherwise the grading request is sent |
| Inference.ReplyText | benchmark.py:253 | the text kept from a reply: the first choice's content when there are choices, otherwise `"No response from the model"`, as stated by Inference.DeliveredText and, for guard replies, Inference.BenchmarkingGuardFallsBack |
| Inference.HasChoices | benchmark.py:253 | the truthiness of `response.get("choices")`, also at benchmark.py:298: by Inference.DeliveredText it holds for a delivered request exactly on a 200 answer with a non-empty list, and by the guard lemmas never for a guard reply |
| Inference.DeliveredText | benchmark.py:253 | the text kept is the first choice's content exactly when the server answered 200 with a non-empty choices list, and otherwise `"No response from the model"` |
| Inference.BenchmarkingGuardFallsBack | benchmark.py:139-144 | a solving request with an empty argument never reaches the server, has no choices and reads as the fallback text |
| Inference.EvaluationGuardFallsBack | benchmark.py:171-178 | the same for a grading request |
| Inference.LoadModel | benchmark.py:204-233 | `load_model`, characterised by Inference.PreloadDecision: False exactly in the refusal cases, the error dictionary only on an exception or an empty listing |
| Inference.Truthy | benchmark.py:246 | the truthiness the caller applies to `load_model`'s result, also at benchmark.py:288, the error dictionary counting as true: Inference.PreloadDecision and Orchestrator.GateDecision state it holds exactly when the model is not refused |
| Inference.PreloadDecision | benchmark.py:204-233 | the caller keeps a model exactly when `load_model` does not answer False; it answers with its error dictionary only on an exception or an empty listing |
| Schedule.KeptMembers | benchmark.py:244-248 | a model takes part exactly when it is listed and passes the preload gate |
| Schedule.KeptAll | benchmark.py:246 | without a refusing gate no model is skipped |
| Schedule.PerModelAt | benchmark.py:250-261 | one model's rows are one per item, the `j`-th from the `j`-th item |
| Schedule.ModelMajorLength | benchmark.py:244-261 | the number of rows is kept models times items |
| Schedule.ModelMajorAt | benchmark.py:244-261 | row `i * items + j` belongs to the `i`-th kept model and the `j`-th item |
| Orchestrator.Gate | benchmark.py:246 | whether a model takes part: Orchestrator.GateDecision states that with preload off every model does, with preload on exactly those `load_model` does not refuse |
| Orchestrator.GateDecision | benchmark.py:246 | a model takes part exactly when preload is off or `load_model` does not answer False |
| Orchestrator.BenchCell | benchmark.py:252-260 | one stored benchmark row; Orchestrator.BenchmarkModel with Schedule.PerModelAt places it at the record's index, and Orchestrator.BenchCellContents states its cells |
| Orchestrator.BenchCellContents | benchmark.py:252-260 | a benchmark row holds the model, the record's URL, title, data and solution, and as `AI Response` the fallback when the data, model or URL is empty, otherwise the first choice of a 200 answer to the solving request, or the fallback |
| Orchestrator.EvalCell | benchmark.py:293-303 | one evaluation row; Orchestrator.EvaluateModel with Schedule.PerModelAt places it at the input row's index, and Orchestrator.EvalCellContents states its cells |
| Orchestrator.EvalCellContents | benchmark.py:293-303 | an evaluation row holds the model, the stored title, and as `AI Evaluation` the fallback when the solution, response, model or URL is empty, otherwise the first choice of a 200 answer to the grading request, or the fallback |
| Orchestrator.MakeRecord | benchmark.py:240 | the record of a scrape, whose data Orchestrator.RecordData states is the blocks concatenated |
| Orchestrator.Records | benchmark.py:237-240 | one record per URL, in order, built from that URL's scrape |
| Orchestrator.RecordData | benchmark.py:240 | a record's data is its blocks concatenated with nothing between them |
| Orchestrator.BenchTable | benchmark.py:254-265 | each stored benchmark row holds Model, URL, Title, Data, AI Response and Solution; a table of no rows has no columns |
| Orchestrator.EvalTable | benchmark.py:299-307 | each stored evaluation row holds Model, Title and AI Evaluation; a table of no rows has no columns |
| Orchestrator.HandOffTable | benchmark.py:265-282 | a non-empty stored benchmark table has the columns the evaluation requires, and reads back as each row's title, response and solution |
| Orchestrator.EvalItems | benchmark.py:280-295 | the `Title`, `AI Response` and `Solution` columns read at lines 280-282 and taken row by row at lines 293-295; Orchestrator.HandOffTable states that on a stored benchmark table they give back each row's title, response and solution |
| Orchestrator.BenchmarkFile | benchmark.py:268 | `./output/benchmarking_<output>.xlsx`, injective in the output name by Orchestrator.BenchmarkFileInjective |
| Orchestrator.EvaluationFile | benchmark.py:310 | `./output/evaluation_<output>.xlsx`; Orchestrator.FollowUpFileNames states the name after a benchmark and that it differs from the benchmark file |
| Orchestrator.BenchmarkFileInjective | benchmark.py:268 | different output names give different benchmark files |
| Orchestrator.FollowUpFileNames | benchmark.py:272 | the follow-up evaluation writes `./output/evaluation_evaluation_<output>.xlsx`, never the benchmark's file |
| Orchestrator.EvaluationOutputName | benchmark.py:272 | the output name `evaluation_<output>` passed to `evaluate`; Orchestrator.FollowUpFileNames states the file it leads to |
| Orchestrator.HandOffAsWritten | benchmark.py:272 | the input path `./output/benchmarking_<output>` passed to `evaluate` as written; Orchestrator.HandOffAsWrittenMisses states it is the written file's name without `.xlsx` |
| Orchestrator.HandOffAsWrittenMisses | benchmark.py:268-272 | the path handed to the evaluation is the written file's name without `.xlsx`, so never that file |
| Orchestrator.BenchmarkModel | benchmark.py:250-261 | one model's benchmark rows, one per record in order |
| Orchestrator.EvaluateModel | benchmark.py:292-303 | one model's evaluation rows, one per input row in order |
| Orchestrator.BenchmarkRows | benchmark.py:244-264 | the benchmark rows are model-major over the kept models and the records; there are kept models times records of them |
| Orchestrator.EvaluationRows | benchmark.py:286-306 | the evaluation rows are model-major over the kept models and the input rows; there are kept models times input rows of them |
| Orchestrator.Evaluate | benchmark.py:275-312 | a missing input raises and a missing required column stops with nothing written; otherwise the rows are written to `./output/evaluation_<output>.xlsx` |
| Orchestrator.BenchmarkStage | benchmark.py:237-270 | the stage crashes exactly when some fetch fails, writing nothing; otherwise it writes kept models times URLs rows to `./output/benchmarking_<output>.xlsx` |
| Orchestrator.Benchmark | benchmark.py:236-272 | `benchmark` with the evaluation reading the written file: a crash leaves the store unchanged; without evaluation, or with a zero-row stage (missing columns), only the benchmark file is written; otherwise every stored row is graded by every kept model and exactly the benchmark file and `./output/evaluation_evaluation_<output>.xlsx` are written |
| Orchestrator.BenchmarkAsWritten | benchmark.py:236-272 | `benchmark` as written: unless a file of the extensionless name already existed, the evaluation cannot read its input |

## Left out

- The HTTP transport is left out: `requests.get` and `requests.post`, headers, and the JSON payload fields `temperature` 0.7, `max_tokens` -1 and `stream` false. Each outcome is an oracle result: a page, a status with an optional `choices` list, or a raised exception's message.
- The page GET (benchmark.py:106, src/scrappers/portswigger_scrapper.py:13) is not inside a `try`, so a connection error escapes from `scrape_info`, `scrape` and `ScrapperConsumer.scrape`. The page oracle `string -> Response` cannot raise, so Orchestrator.ScrapeInfo, PortSwiggerAdapter.PortSwiggerScrapper.Scrape and Dispatch.ScrapperConsumer.Scrape do not model that exception. Only the POST side has a raised outcome.
- The oracles are functions. A repeated request is assumed to get the same answer. The model listing is assumed to depend only on the listing URL and the model just loaded.
- In `load_model`, a listing whose `data` key is missing or not a list is folded into the exception cases. Only an empty list is modelled separately, as an IndexError.
- The content of a choice that is absent or not a string is not modelled. `content` is always a string.
- HTML parsing with BeautifulSoup is left out. A page arrives as its sections. Each section holds its heading, its sibling list, the anchor's position, the marker element and the solution text. Element equality stands for the parser's structural comparison.
- A section without an `h1.heading-2` makes the source crash. Here the heading is always present.
- A solution container without a `div.content` would also crash the source. Here a present solution is one string.
- pandas and the file system keep only the strings of their cells. Not modelled:
  - that an empty cell reads back as NaN, which is truthy. So, in the source, the empty-solution and empty-response guards of `send_evaluation_prompt` (benchmark.py:171-174) never fire on cells read from the file, and a record without a solution is graded against the text `nan`. Orchestrator.Evaluate and Orchestrator.Benchmark read the empty string back instead, so by Inference.EvaluationGuardFallsBack such a row's grade is `"No response from the model"`;
  - non-string cells;
  - column order;
  - the `index=False` layout;
  - the creation of `./output`.
- Timing (`timer()`, `total_time`) is floating-point wall-clock data and is left out. The progress messages are console output and are left out too.
- The `__main__` block and both argument parsers are left out. They are file reading and command-line configuration.
- The root `scrapped_data.py` is not modelled. That three-field record is what benchmark.py:10 imports, so as written benchmark.py:240 raises TypeError for every successful scrape. The model uses `src/objects/scrapped_data.py` instead, the class that the four-argument call at line 240 and `get_solution` at line 260 need. Orchestrator.BenchmarkStage, Orchestrator.Benchmark and Orchestrator.BenchmarkAsWritten therefore do not capture that crash.
- `PentesterLabScrapper` is not part of this model. Its result is a parameter of `Dispatch.ScrapperConsumer.Scrape`.
- Dispatch.ScrapperConsumer.Scrape: the state is modelled, but not the aliasing between the adapter's list and the consumer's field. The PortSwigger adapter is a fresh object on every call, so nothing else holds that list.
- PortSwiggerAdapter.PortSwiggerScrapper.Scrape: the source returns the very list it keeps appending to (src/scrappers/portswigger_scrapper.py:38), so a result returned earlier grows on the next scrape of the same object. The model returns a value copy of the blocks, so this aliasing is not captured.
- The wording of the three system messages (benchmark.py:12-54, 61-96, 212) is not represented. A request carries only which of them it uses. The user templates are given structure.

## Findings

| source | as written | input that shows it | evidently intended | confidence | as-written member | corrected member |
|---|---|---|---|---|---|---|
| benchmark.py:272 | `evaluate` is handed `./output/benchmarking_<output>`, but line 268 wrote `./output/benchmarking_<output>.xlsx` | any `output` with `do_evaluate` true, when no file named `./output/benchmarking_<output>` exists: `read_excel` cannot open its input. As the repository stands, this is reached only with an empty URL list: for a non-empty list, line 239 (failed fetch) or line 240 (the three-argument record imported at line 10) raises first. Once line 10 imports `src/objects/scrapped_data.py`, any URL list whose fetches all succeed reaches it | hand `evaluate` the file just written, `./output/benchmarking_<output>.xlsx` | not executed | Orchestrator.BenchmarkAsWritten | Orchestrator.Benchmark |
