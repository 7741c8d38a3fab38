# SmartMine backend: query pipeline and synthetic machine rows

This project models two parts of the SmartMine backend in Dafny and proves
properties about them.

1. **The `/query` endpoint** (`query_database` in main.py). A user's question
   goes through five fixed stages:
   - connect to the database and read its schema;
   - build the SQL agent;
   - let the agent generate an SQL query;
   - read the answer out of the agent's response;
   - format the final answer.

   Each stage adds labelled `Step`s to a trace. The first stage that fails
   records an error step, and the endpoint raises HTTP 500 with a fixed
   detail. On success the endpoint returns four things: the eight-step trace,
   the answer, and the two lists the `CustomCallbackHandler` collected while
   the agent ran.
   - Module: `QueryService` (query_service.dfy).
   - `CallbackHandler` is a class with two `seq` fields.
   - `QueryRun` is a class that holds the `steps` list and has one method per
     stage. Its invariant `Valid()` says that the trace is always a prefix of
     the success trace, or such a prefix followed by one error step.
   - `QueryDatabase` runs the stages and is proved against the specification
     functions `FirstFailure`, `SuccessTrace` and `FailureTrace`.
   - The database, the agent builder and the agent run are foreign calls. The
     model takes each one as an input `Outcome`: a value, or an exception with
     its message. The callbacks the agent fires during `agent.invoke` are an
     input list of events, delivered in order.
2. **The synthetic row builder** (add_fake_db_mine.py:60-91). It builds 4000
   rows for the `Machines` table. Each row comes from a randomly chosen entry
   of a fixed table of ten machines, and each row does four things:
   - it gets an identifier: the type prefix plus a zero-padded row number;
   - it copies the machine's name and type;
   - it takes several random integers;
   - it is stamped with a time, which also becomes the chosen machine's new
     `date`.

   Where the code lives:
   - Module: `FakeMineData` (fake_mine_data.dfy). Python's `str(n)`, `zfill`,
     `upper` and slicing are modelled in `TextFormat` (text_format.dfy).
   - `Machine` is a class, because the loop overwrites `machine["date"]` in
     place.
   - `BuildRows` is the loop. It is proved against the pointwise
     specification `RowAt`/`CreatedAt`/`DatesAfter`.
   - Randomness is an input: each row consumes one `Draw`. `randint(low, high)`
     is `low + raw % (high - low)` for an arbitrary natural `raw`, and
     `RandIntCovers` shows that this reaches every value in the range.
     `choice` is `raw % 10`.
   - Times are whole hours after `start_date`.

`Wrappers` (wrappers.dfy) holds the shared `Option` type.

## Model

| member | source | states |
|---|---|---|
| `QueryService.CallbackHandler.constructor` | main.py:52-54 | a new handler starts with both capture lists empty |
| `QueryService.CallbackHandler.OnLlmEnd` | main.py:56-57 | appends the completion's `text` to `llm_responses` and leaves `sql_queries` unchanged |
| `QueryService.CallbackHandler.OnToolEnd` | main.py:59-60 | appends the tool output to `sql_queries` and leaves `llm_responses` unchanged |
| `QueryService.DeliverEvents` | main.py:81-95 | after the agent run fires its callbacks, the handler's lists are their old contents followed by the completion texts and tool outputs of the events, in arrival order |
| `QueryService.LlmTextsAppend` | main.py:56-57 | completion capture distributes over concatenation of event streams |
| `QueryService.ToolOutputsAppend` | main.py:59-60 | tool-output capture distributes over concatenation of event streams |
| `QueryService.CaptureComplete` | main.py:56-60 | every event is captured exactly once, in one of the two lists, with no deduplication |
| `QueryService.LlmTextAt` | main.py:56-57 | the completion at position k is stored right after the texts of the completions that arrived before it |
| `QueryService.ToolOutputAt` | main.py:59-60 | the tool output at position k is stored right after the outputs of the tool events that arrived before it |
| `QueryService.QuestionEmbedded` | main.py:92-93 | the "Generating SQL Query" detail contains the request's question verbatim, and the question can be recovered from it |
| `QueryService.ErrorDetailNamesStage` | main.py:77-112 | each failing stage has its own HTTP detail, so the detail identifies the stage that failed |
| `QueryService.ErrorLabelNotInSuccess` | main.py:68-118 | no error-step label is the label of any step of a successful run |
| `QueryService.FirstFailure` | main.py:70-112 | no failure exactly when every call succeeds and the response has an `output`. Each failing stage is the one whose own call failed, and every earlier call succeeded. The failure carries that call's `str(e)`, or `'output'` for the missing key. A schema failure wins over everything else |
| `QueryService.FailureTraceShapes` | main.py:68-112 | the exact trace for each failure point. Schema: [Connecting, Error Retrieving Schema]. Agent: [Connecting, Retrieved Schema, Error Initializing Agent], with no in-progress step. Generate: the in-progress "Generating SQL Query" step, then the error step. Execute: five steps, then the error step |
| `QueryService.QueryRun.constructor` | main.py:65 | a request starts with an empty step list |
| `QueryService.QueryRun.RetrieveSchema` | main.py:68-78 | "Connecting to Database" is appended before the call. On success "Retrieved Schema" follows. On failure the error step carries `str(e)` and the stage raises 500 "Database connection error." |
| `QueryService.QueryRun.InitAgent` | main.py:80-90 | success adds no step. Failure appends "Error Initializing Agent" with `str(e)` and raises 500 "Agent initialization error." |
| `QueryService.QueryRun.GenerateQuery` | main.py:92-101 | appends "Generating SQL Query" with the question, then delivers the agent's callbacks. Success appends "SQL Query Generated" and returns the response. Failure appends the error step and raises 500 "Error generating SQL query." |
| `QueryService.QueryRun.ExecuteQuery` | main.py:103-112 | appends "Executing SQL Query". If `output` is present it appends "SQL Query Executed" and returns that value as the final answer. Otherwise it appends the error step with `'output'` and raises 500 "Error executing SQL query." |
| `QueryService.QueryRun.GenerateFinalAnswer` | main.py:114-118 | appends "Generating Final Answer" and "Final Answer Generated"; the run is done |
| `QueryService.QueryDatabase` | main.py:63-132 | the trace always starts with "Connecting to Database", and the reply is a response exactly when no stage fails. On success the trace is the eight labels in order, `final_answer` is `agent_response['output']`, and the two lists are exactly this request's captured events in order (fresh handler, no leakage). On failure only a 500 error with the failing stage's detail is returned, and the trace ends at that stage's error step |
| `FakeMineData.Machine.constructor` | add_fake_db_mine.py:13-24 | a machine entry holds its name, type and date |
| `FakeMineData.NewMachineData` | add_fake_db_mine.py:13-24 | builds ten distinct entries whose names and types are the fixed table and whose dates are all `start_date` |
| `FakeMineData.TablePrefixes` | add_fake_db_mine.py:13-24 | every machine type has at least two characters, and its upper-cased two-letter prefix is EX, DR, CO or LO |
| `FakeMineData.RandInt` | add_fake_db_mine.py:70 | `randint(low, high)` lies in the half-open range [low, high) |
| `FakeMineData.RandIntCovers` | add_fake_db_mine.py:70-81 | every value of the range is some draw's result, so the model of `randint` loses none of the library's outcomes |
| `FakeMineData.Choose` | add_fake_db_mine.py:66 | `choice` picks a valid index into the machine list |
| `FakeMineData.ChooseCovers` | add_fake_db_mine.py:66 | every index of the list is some draw's pick, so the model of `choice` loses none of the library's outcomes |
| `FakeMineData.Pick` | add_fake_db_mine.py:66 | the machine a draw chooses is an entry of the table |
| `FakeMineData.MachineIdParts` | add_fake_db_mine.py:67 | `MachineId`, the function that builds `machine_id`, gives the upper-cased first two characters of the type followed by digits that read back as the row number `i+1`, at least six characters in all |
| `FakeMineData.MachineIdInjective` | add_fake_db_mine.py:65-67 | identifiers built for different row numbers differ whatever the types, so the `machine_id TEXT PRIMARY KEY` of line 36 cannot clash |
| `FakeMineData.MachineIdLength` | add_fake_db_mine.py:61-67 | row numbers up to 9999 (so all 4000) give identifiers of exactly six characters |
| `FakeMineData.NewRow` | add_fake_db_mine.py:67-91 | a row carries the identifier for `i+1` and copies the machine's name and type. `fuel_consumption` is None exactly for "Conveyor Belt". Operating hours are in [100, 9999], load in [50, 100], breakdowns in [0, 10], alarms in [0, 5], ore in [100, 1000], and maintenance is "Yes" or "No" |
| `FakeMineData.DatesAfter` | add_fake_db_mine.py:82-84 | the chain of machine dates keeps one date per machine |
| `FakeMineData.DateUpdate` | add_fake_db_mine.py:82-84 | row i sets the chosen machine's date to its `created_at` (its old date + i hours). The date never goes back and strictly advances after row 0. Every other machine's date is unchanged |
| `FakeMineData.DatesMonotone` | add_fake_db_mine.py:82-84 | no machine's date ever decreases as rows are built |
| `FakeMineData.CreatedAtIncreasing` | add_fake_db_mine.py:65-84 | for one machine, a later row's `created_at` is strictly later than an earlier row's |
| `FakeMineData.DatesAfterSum` | add_fake_db_mine.py:82-84 | closed form: a machine's date is its start date plus the sum of the indices of the rows that chose it |
| `FakeMineData.BuildRows` | add_fake_db_mine.py:60-91 | appends exactly `num_entries` rows in index order. Row i is the row built from the machine its draw chooses, stamped with that machine's date plus i hours. Afterwards the machines' dates are the chained dates |
| `FakeMineData.GenerateMineData` | add_fake_db_mine.py:60-91 | with the fixed table and 4000 draws, every identifier has six characters and a prefix in {EX, DR, CO, LO}, no two identifiers are equal, and each row is the one the loop builds for its index |
| `TextFormat.DecimalString` | add_fake_db_mine.py:67 | `str(n)` is a non-empty digit string, with a leading zero only for n = 0 |
| `TextFormat.ParseDecimalString` | add_fake_db_mine.py:67 | parsing `str(n)` gives back n |
| `TextFormat.DecimalStringInjective` | add_fake_db_mine.py:67 | distinct numbers print differently |
| `TextFormat.DecimalStringLength` | add_fake_db_mine.py:67 | a number below 10^k prints with at most k digits |
| `TextFormat.ZFill` | add_fake_db_mine.py:67 | for an unsigned string such as `str(n)`, `zfill(w)` pads with '0' on the left to width w, keeps the original as a suffix and leaves longer strings alone |
| `TextFormat.ParseDecimalLeadingZeros` | add_fake_db_mine.py:67 | leading zeros do not change a decimal string's value |
| `TextFormat.ZFillParse` | add_fake_db_mine.py:67 | `str(n).zfill(w)` reads back as n |
| `TextFormat.Upper` | add_fake_db_mine.py:67 | `upper()` keeps the length and upper-cases each ASCII letter |

## Left out

- FastAPI: the app, CORS middleware, `load_dotenv`, the global `openai.api_key`, the engine and `ChatOpenAI` construction, `async`, and JSON serialisation of the reply. These are framework and configuration code.
- LangChain internals: `SQLDatabase`, `get_table_info`, `create_sql_agent` and `agent.invoke`. These are foreign calls, modelled only as outcomes with an opaque message. The agent's loop, its tools and the SQL it runs are not modelled, so neither an iteration limit nor a read-only restriction appears; the code has neither.
- The "Error Generating Final Answer" branch (main.py:119-122) is left out because it cannot run: its `try` only builds a literal `Step`. `GenerateFinalAnswer` always succeeds.
- The agent's callback dispatch is modelled as `DeliverEvents`, which delivers every event to the handler. An exception raised inside a callback would be handled by LangChain's callback manager, which is not part of this model. The same goes for a completion payload without a `text` entry.
- The agent's response is modelled as a string-to-string dictionary. A non-dictionary response, or a non-string `output` rejected by `QueryResponse` validation, is not modelled.
- QueryService.QueryDatabase: the endpoint discards the trace when it raises. The model also returns the trace as a second result, so that the failure traces can be stated.
- The random float columns (`temperature`, `vibration_levels`, `power_usage`, `dust_levels`), the Faker `location`, and the value of `fuel_consumption` are left out: they are floating point and a foreign library. The fuel value is an opaque `real` from the draw, and only when it is None is modelled.
- The 0.3/0.7 weights of `maintenance_status` are not modelled; only the "Yes"/"No" outcome is.
- The draws interleave in one shared random stream, and no fuel value is drawn for conveyor belts. The model gives each row its own `Draw`, so this order is not modelled.
- Times are modelled as whole hours after `start_date`. Calendar dates and their `DATETIME` text form are not modelled.
- TextFormat.Upper: only ASCII letters are upper-cased. Python's `str.upper` also maps other Unicode letters, and none occur in the fixed machine types.
- sqlite: the schema and index creation, `executemany`, commit and close (add_fake_db_mine.py:30-58, 93-107) are left out as I/O.
- create_sql_db.py and db_query.py are not part of this model: they are CSV loading and query I/O.
- What main.py does, as modelled:
  - A successful run records eight steps.
  - Building the agent records no step when it succeeds.
  - "Error generating final answer." can never be raised, because the `try` at main.py:116-122 only builds literal `Step`s.
  - The handler's callbacks have no exception guard of their own.
