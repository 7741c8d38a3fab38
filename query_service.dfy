/** The `/query` request handler of main.py: a fixed sequence of stages
    (connect and read the schema, build the agent, generate, execute, final
    answer) that records a trace of labelled steps, turns the first failing
    stage into an HTTP 500 error with a fixed detail, and on success returns
    the trace, the answer and what the callback handler captured.

    The database, the agent builder and the agent run are foreign calls; each
    is an `Outcome` given as input, and the callbacks the agent run fires are
    an input list of events delivered in order. */
module QueryService {
  import opened Wrappers

  datatype QueryRequest = QueryRequest(question: string)

  datatype Step = Step(step: string, detail: string)

  datatype QueryResponse = QueryResponse(
    steps: seq<Step>,
    finalAnswer: string,
    llmResponses: seq<string>,
    sqlQueries: seq<string>)

  /** `HTTPException(status_code, detail)`. */
  datatype HttpError = HttpError(statusCode: int, detail: string)

  /** What the endpoint hands back: a response body or a raised error. */
  datatype Reply = Answered(response: QueryResponse) | Raised(error: HttpError)

  /** The result of a foreign call: a value, or an exception `e` whose
      `str(e)` is `message`. */
  datatype Outcome<T> = Ok(value: T) | Fail(message: string)

  /** The payload of an LLM-end callback; only `response['text']` is read. */
  datatype LlmResponse = LlmResponse(text: string)

  /** A callback the agent run fires: the end of a model completion or the
      end of a tool (SQL) execution. */
  datatype Event = LlmEnd(response: LlmResponse) | ToolEnd(output: string)

  /** The dictionary `agent.invoke` returns. */
  type AgentResponse = map<string, string>

  /** Everything the handler learns from the outside world in one request. */
  datatype Collaborators = Collaborators(
    tableInfo: Outcome<string>,      // SQLDatabase(engine).get_table_info()
    agent: Outcome<()>,              // create_sql_agent(...)
    invoke: Outcome<AgentResponse>,  // agent.invoke({"input": question})
    events: seq<Event>)              // callbacks fired during agent.invoke

  // ---------------------------------------------------------------------
  // Callback capture

  /** The texts of the completion events, in arrival order. */
  function LlmTexts(events: seq<Event>): seq<string> {
    if events == [] then []
    else (if events[0].LlmEnd? then [events[0].response.text] else []) + LlmTexts(events[1..])
  }

  /** The outputs of the tool events, in arrival order. */
  function ToolOutputs(events: seq<Event>): seq<string> {
    if events == [] then []
    else (if events[0].ToolEnd? then [events[0].output] else []) + ToolOutputs(events[1..])
  }

  lemma {:induction false} LlmTextsAppend(a: seq<Event>, b: seq<Event>)
    ensures LlmTexts(a + b) == LlmTexts(a) + LlmTexts(b)
    decreases |a|
  {
    if a == [] {
      assert a + b == b;
    } else {
      LlmTextsAppend(a[1..], b);
      assert (a + b)[0] == a[0] && (a + b)[1..] == a[1..] + b;
    }
  }

  lemma {:induction false} ToolOutputsAppend(a: seq<Event>, b: seq<Event>)
    ensures ToolOutputs(a + b) == ToolOutputs(a) + ToolOutputs(b)
    decreases |a|
  {
    if a == [] {
      assert a + b == b;
    } else {
      ToolOutputsAppend(a[1..], b);
      assert (a + b)[0] == a[0] && (a + b)[1..] == a[1..] + b;
    }
  }

  /** Every event is captured exactly once, in one of the two lists. */
  lemma {:induction false} CaptureComplete(events: seq<Event>)
    ensures |LlmTexts(events)| + |ToolOutputs(events)| == |events|
    decreases |events|
  {
    if events != [] {
      CaptureComplete(events[1..]);
    }
  }

  /** The completion event at position `k` lands in `llm_responses` right
      after the texts of the completions that arrived before it. */
  lemma LlmTextAt(events: seq<Event>, k: nat)
    requires k < |events| && events[k].LlmEnd?
    ensures var before := LlmTexts(events[..k]);
            |before| < |LlmTexts(events)| && LlmTexts(events)[|before|] == events[k].response.text
  {
    assert events == events[..k] + [events[k]] + events[k + 1..];
    LlmTextsAppend(events[..k] + [events[k]], events[k + 1..]);
    LlmTextsAppend(events[..k], [events[k]]);
  }

  /** The tool event at position `k` lands in `sql_queries` right after the
      outputs of the tool events that arrived before it. */
  lemma ToolOutputAt(events: seq<Event>, k: nat)
    requires k < |events| && events[k].ToolEnd?
    ensures var before := ToolOutputs(events[..k]);
            |before| < |ToolOutputs(events)| && ToolOutputs(events)[|before|] == events[k].output
  {
    assert events == events[..k] + [events[k]] + events[k + 1..];
    ToolOutputsAppend(events[..k] + [events[k]], events[k + 1..]);
    ToolOutputsAppend(events[..k], [events[k]]);
  }

  /** `CustomCallbackHandler`: two lists that the agent's callbacks append to. */
  class CallbackHandler {
    var llmResponses: seq<string>
    var sqlQueries: seq<string>

    constructor ()
      ensures llmResponses == [] && sqlQueries == []
    {
      llmResponses := [];
      sqlQueries := [];
    }

    method OnLlmEnd(response: LlmResponse)
      modifies this
      ensures llmResponses == old(llmResponses) + [response.text]
      ensures sqlQueries == old(sqlQueries)
    {
      llmResponses := llmResponses + [response.text];
    }

    method OnToolEnd(output: string)
      modifies this
      ensures sqlQueries == old(sqlQueries) + [output]
      ensures llmResponses == old(llmResponses)
    {
      sqlQueries := sqlQueries + [output];
    }
  }

  /** The agent run firing its callbacks on `handler`, one event at a time. */
  method DeliverEvents(handler: CallbackHandler, events: seq<Event>)
    modifies handler
    ensures handler.llmResponses == old(handler.llmResponses) + LlmTexts(events)
    ensures handler.sqlQueries == old(handler.sqlQueries) + ToolOutputs(events)
  {
    for i := 0 to |events|
      invariant handler.llmResponses == old(handler.llmResponses) + LlmTexts(events[..i])
      invariant handler.sqlQueries == old(handler.sqlQueries) + ToolOutputs(events[..i])
    {
      assert events[..i + 1] == events[..i] + [events[i]];
      LlmTextsAppend(events[..i], [events[i]]);
      ToolOutputsAppend(events[..i], [events[i]]);
      match events[i]
      case LlmEnd(response) => handler.OnLlmEnd(response);
      case ToolEnd(output) => handler.OnToolEnd(output);
    }
    assert events[..|events|] == events;
  }

  // ---------------------------------------------------------------------
  // Steps and the error taxonomy

  const ConnectingStep := Step("Connecting to Database",
                               "Establishing connection to the database to retrieve schema.")
  const SchemaRetrievedStep := Step("Retrieved Schema", "Successfully retrieved the database schema.")
  const QueryGeneratedStep := Step("SQL Query Generated", "SQL query generated successfully.")
  const ExecutingQueryStep := Step("Executing SQL Query", "Running the SQL query against the database.")
  const QueryExecutedStep := Step("SQL Query Executed", "SQL query executed successfully.")
  const GeneratingAnswerStep := Step("Generating Final Answer", "Formatting the response to the user.")
  const AnswerGeneratedStep := Step("Final Answer Generated", "Final answer generated successfully.")

  const QuestionPrefix := "Generating SQL query for the question: '"

  function GeneratingQueryStep(question: string): Step {
    Step("Generating SQL Query", QuestionPrefix + question + "'")
  }

  /** Recovers the question from the detail of a "Generating SQL Query" step. */
  function QuestionInDetail(detail: string): Option<string> {
    if |detail| > |QuestionPrefix| && detail[..|QuestionPrefix|] == QuestionPrefix && detail[|detail| - 1] == '\''
    then Some(detail[|QuestionPrefix|..|detail| - 1])
    else None
  }

  /** The request's question appears verbatim, and recoverably, in the
      "Generating SQL Query" step. */
  lemma QuestionEmbedded(question: string)
    ensures QuestionInDetail(GeneratingQueryStep(question).detail) == Some(question)
  {
    var d := GeneratingQueryStep(question).detail;
    assert d[..|QuestionPrefix|] == QuestionPrefix;
    assert d[|QuestionPrefix|..|d| - 1] == question;
  }

  /** The eight steps of a request in which every stage succeeds. */
  function SuccessTrace(question: string): seq<Step> {
    [ConnectingStep, SchemaRetrievedStep,
     GeneratingQueryStep(question), QueryGeneratedStep,
     ExecutingQueryStep, QueryExecutedStep,
     GeneratingAnswerStep, AnswerGeneratedStep]
  }

  /** The stages that can fail. */
  datatype Stage = SchemaStage | AgentStage | GenerateStage | ExecuteStage

  /** The label of the step recorded when `stage` fails. */
  function ErrorLabel(stage: Stage): string {
    match stage
    case SchemaStage => "Error Retrieving Schema"
    case AgentStage => "Error Initializing Agent"
    case GenerateStage => "Error Generating SQL Query"
    case ExecuteStage => "Error Executing SQL Query"
  }

  /** The `detail` of the HTTP 500 raised when `stage` fails. */
  function ErrorDetail(stage: Stage): string {
    match stage
    case SchemaStage => "Database connection error."
    case AgentStage => "Agent initialization error."
    case GenerateStage => "Error generating SQL query."
    case ExecuteStage => "Error executing SQL query."
  }

  /** How many steps of the success trace precede the error step of `stage`. */
  function StepsBefore(stage: Stage): nat {
    match stage
    case SchemaStage => 1
    case AgentStage => 2
    case GenerateStage => 3
    case ExecuteStage => 5
  }

  /** The stage a client can read off an error detail. */
  function StageOfDetail(detail: string): Option<Stage> {
    if detail == "Database connection error." then Some(SchemaStage)
    else if detail == "Agent initialization error." then Some(AgentStage)
    else if detail == "Error generating SQL query." then Some(GenerateStage)
    else if detail == "Error executing SQL query." then Some(ExecuteStage)
    else None
  }

  /** Each failing stage has its own detail: the detail names the stage. */
  lemma {:induction false} ErrorDetailNamesStage(stage: Stage)
    ensures StageOfDetail(ErrorDetail(stage)) == Some(stage)
  {
    match stage
    case SchemaStage =>
    case AgentStage =>
    case GenerateStage =>
    case ExecuteStage =>
  }

  /** No error label is the label of a step of a successful request, so the
      last step of a trace tells success from failure. */
  lemma ErrorLabelNotInSuccess(question: string, stage: Stage, k: nat)
    requires k < 8
    ensures SuccessTrace(question)[k].step != ErrorLabel(stage)
  {
  }

  /** `agent_response['output']`; a missing key raises `KeyError('output')`,
      whose `str` is `'output'` in quotes. */
  function ExtractOutput(response: AgentResponse): Outcome<string> {
    if "output" in response then Ok(response["output"]) else Fail("'output'")
  }

  /** Where the request stops, and the exception message there. */
  datatype Failure = Failure(stage: Stage, message: string)

  /** The first stage whose foreign call fails, if any. */
  function FirstFailure(env: Collaborators): (f: Option<Failure>)
    ensures f.None? <==> env.tableInfo.Ok? && env.agent.Ok? && env.invoke.Ok? && "output" in env.invoke.value
    ensures env.tableInfo.Fail? ==> f == Some(Failure(SchemaStage, env.tableInfo.message))
    ensures f.Some? && f.value.stage == SchemaStage ==> env.tableInfo.Fail?
    ensures f.Some? && f.value.stage == AgentStage ==> env.agent.Fail? && f.value.message == env.agent.message
    ensures f.Some? && f.value.stage == GenerateStage ==> env.invoke.Fail? && f.value.message == env.invoke.message
    ensures f.Some? && f.value.stage != SchemaStage ==> env.tableInfo.Ok?
    ensures f.Some? && f.value.stage in {GenerateStage, ExecuteStage} ==> env.agent.Ok?
    ensures f.Some? && f.value.stage == ExecuteStage ==> env.invoke.Ok? && f.value.message == "'output'"
  {
    if env.tableInfo.Fail? then Some(Failure(SchemaStage, env.tableInfo.message))
    else if env.agent.Fail? then Some(Failure(AgentStage, env.agent.message))
    else if env.invoke.Fail? then Some(Failure(GenerateStage, env.invoke.message))
    else match ExtractOutput(env.invoke.value)
      case Fail(message) => Some(Failure(ExecuteStage, message))
      case Ok(_) => None
  }

  /** The trace of a request that stops at failure `f`: the success trace up
      to the failing stage, then that stage's error step. */
  function FailureTrace(question: string, f: Failure): seq<Step> {
    SuccessTrace(question)[..StepsBefore(f.stage)] + [Step(ErrorLabel(f.stage), f.message)]
  }

  /** The four failure traces written out: where each stage's error step
      falls, and which in-progress steps come before it. */
  lemma {:induction false} FailureTraceShapes(question: string, f: Failure)
    ensures f.stage == SchemaStage ==>
              FailureTrace(question, f) == [ConnectingStep, Step("Error Retrieving Schema", f.message)]
    ensures f.stage == AgentStage ==>
              FailureTrace(question, f)
              == [ConnectingStep, SchemaRetrievedStep, Step("Error Initializing Agent", f.message)]
    ensures f.stage == GenerateStage ==>
              FailureTrace(question, f)
              == [ConnectingStep, SchemaRetrievedStep, GeneratingQueryStep(question),
                  Step("Error Generating SQL Query", f.message)]
    ensures f.stage == ExecuteStage ==>
              FailureTrace(question, f)
              == [ConnectingStep, SchemaRetrievedStep, GeneratingQueryStep(question), QueryGeneratedStep,
                  ExecutingQueryStep, Step("Error Executing SQL Query", f.message)]
  {
  }

  // ---------------------------------------------------------------------
  // The handler

  /** How far a request has got. */
  datatype Phase = Started | SchemaRetrieved | AgentReady | QueryGenerated
                 | QueryExecuted | Done | Failed(stage: Stage)

  /** How many steps a request that is still going has recorded. */
  function Logged(phase: Phase): nat
    requires !phase.Failed?
  {
    match phase
    case Started => 0
    case SchemaRetrieved => 2
    case AgentReady => 2
    case QueryGenerated => 4
    case QueryExecuted => 6
    case Done => 8
  }

  /** The `steps` list of one call of `query_database`, with one method per
      stage. */
  class QueryRun {
    const question: string
    var steps: seq<Step>
    ghost var phase: Phase

    /** The trace is always a prefix of the success trace, or such a prefix
        followed by the error step of the stage that failed. */
    ghost predicate Valid()
      reads this
    {
      match phase
      case Failed(stage) =>
        var n := StepsBefore(stage);
        |steps| == n + 1 && steps[..n] == SuccessTrace(question)[..n] && steps[n].step == ErrorLabel(stage)
      case _ => steps == SuccessTrace(question)[..Logged(phase)]
    }

    constructor (question: string)
      ensures Valid() && this.question == question && phase == Started && steps == []
    {
      this.question := question;
      steps := [];
      phase := Started;
    }

    /** main.py:68-78 */
    method RetrieveSchema(tableInfo: Outcome<string>) returns (raised: Option<HttpError>)
      requires Valid() && phase == Started
      modifies this
      ensures Valid()
      ensures tableInfo.Ok? ==>
                raised == None && phase == SchemaRetrieved
                && steps == old(steps) + [ConnectingStep, SchemaRetrievedStep]
      ensures tableInfo.Fail? ==>
                raised == Some(HttpError(500, ErrorDetail(SchemaStage))) && phase == Failed(SchemaStage)
                && steps == old(steps) + [ConnectingStep, Step(ErrorLabel(SchemaStage), tableInfo.message)]
    {
      steps := steps + [ConnectingStep];
      match tableInfo
      case Ok(_) =>
        steps := steps + [SchemaRetrievedStep];
        phase := SchemaRetrieved;
        raised := None;
      case Fail(message) =>
        steps := steps + [Step(ErrorLabel(SchemaStage), message)];
        phase := Failed(SchemaStage);
        raised := Some(HttpError(500, ErrorDetail(SchemaStage)));
    }

    /** main.py:80-90: building the agent records no step unless it fails. */
    method InitAgent(agent: Outcome<()>) returns (raised: Option<HttpError>)
      requires Valid() && phase == SchemaRetrieved
      modifies this
      ensures Valid()
      ensures agent.Ok? ==> raised == None && phase == AgentReady && steps == old(steps)
      ensures agent.Fail? ==>
                raised == Some(HttpError(500, ErrorDetail(AgentStage))) && phase == Failed(AgentStage)
                && steps == old(steps) + [Step(ErrorLabel(AgentStage), agent.message)]
    {
      match agent
      case Ok(_) =>
        phase := AgentReady;
        raised := None;
      case Fail(message) =>
        steps := steps + [Step(ErrorLabel(AgentStage), message)];
        phase := Failed(AgentStage);
        raised := Some(HttpError(500, ErrorDetail(AgentStage)));
    }

    /** main.py:92-101: the agent run fires its callbacks on `handler`, then
        returns or raises. */
    method GenerateQuery(handler: CallbackHandler, invoke: Outcome<AgentResponse>, events: seq<Event>)
      returns (raised: Option<HttpError>, agentResponse: AgentResponse)
      requires Valid() && phase == AgentReady
      modifies this, handler
      ensures Valid()
      ensures handler.llmResponses == old(handler.llmResponses) + LlmTexts(events)
      ensures handler.sqlQueries == old(handler.sqlQueries) + ToolOutputs(events)
      ensures invoke.Ok? ==>
                raised == None && agentResponse == invoke.value && phase == QueryGenerated
                && steps == old(steps) + [GeneratingQueryStep(question), QueryGeneratedStep]
      ensures invoke.Fail? ==>
                raised == Some(HttpError(500, ErrorDetail(GenerateStage))) && phase == Failed(GenerateStage)
                && steps == old(steps) + [GeneratingQueryStep(question), Step(ErrorLabel(GenerateStage), invoke.message)]
    {
      steps := steps + [GeneratingQueryStep(question)];
      DeliverEvents(handler, events);
      match invoke
      case Ok(response) =>
        agentResponse := response;
        steps := steps + [QueryGeneratedStep];
        phase := QueryGenerated;
        raised := None;
      case Fail(message) =>
        agentResponse := map[];
        steps := steps + [Step(ErrorLabel(GenerateStage), message)];
        phase := Failed(GenerateStage);
        raised := Some(HttpError(500, ErrorDetail(GenerateStage)));
    }

    /** main.py:103-112 */
    method ExecuteQuery(agentResponse: AgentResponse) returns (raised: Option<HttpError>, finalAnswer: string)
      requires Valid() && phase == QueryGenerated
      modifies this
      ensures Valid()
      ensures "output" in agentResponse ==>
                raised == None && finalAnswer == agentResponse["output"] && phase == QueryExecuted
                && steps == old(steps) + [ExecutingQueryStep, QueryExecutedStep]
      ensures "output" !in agentResponse ==>
                raised == Some(HttpError(500, ErrorDetail(ExecuteStage))) && phase == Failed(ExecuteStage)
                && steps == old(steps) + [ExecutingQueryStep, Step(ErrorLabel(ExecuteStage), "'output'")]
    {
      steps := steps + [ExecutingQueryStep];
      match ExtractOutput(agentResponse)
      case Ok(output) =>
        finalAnswer := output;
        steps := steps + [QueryExecutedStep];
        phase := QueryExecuted;
        raised := None;
      case Fail(message) =>
        finalAnswer := "";
        steps := steps + [Step(ErrorLabel(ExecuteStage), message)];
        phase := Failed(ExecuteStage);
        raised := Some(HttpError(500, ErrorDetail(ExecuteStage)));
    }

    /** main.py:114-118 */
    method GenerateFinalAnswer()
      requires Valid() && phase == QueryExecuted
      modifies this
      ensures Valid() && phase == Done
      ensures steps == old(steps) + [GeneratingAnswerStep, AnswerGeneratedStep]
    {
      steps := steps + [GeneratingAnswerStep, AnswerGeneratedStep];
      phase := Done;
    }
  }

  /** `query_database`: runs the stages in order with a fresh callback
      handler, stops at the first failure, and returns the reply together
      with the `steps` list it built (which the client sees only on
      success). */
  method QueryDatabase(request: QueryRequest, env: Collaborators) returns (reply: Reply, trace: seq<Step>)
    ensures |trace| >= 1 && trace[0] == ConnectingStep
    ensures reply.Answered? <==> FirstFailure(env).None?
    ensures FirstFailure(env).None? ==>
              trace == SuccessTrace(request.question)
              && reply == Answered(QueryResponse(trace, env.invoke.value["output"],
                                                 LlmTexts(env.events), ToolOutputs(env.events)))
    ensures FirstFailure(env).Some? ==>
              var f := FirstFailure(env).value;
              trace == FailureTrace(request.question, f)
              && reply == Raised(HttpError(500, ErrorDetail(f.stage)))
  {
    ghost var question := request.question;
    ghost var f := FirstFailure(env);
    if f.Some? {
      FailureTraceShapes(question, f.value);
    }
    var run := new QueryRun(request.question);
    var handler := new CallbackHandler();
    var raised := run.RetrieveSchema(env.tableInfo);
    if raised.Some? {
      assert f == Some(Failure(SchemaStage, env.tableInfo.message));
      return Raised(raised.value), run.steps;
    }
    raised := run.InitAgent(env.agent);
    if raised.Some? {
      assert f == Some(Failure(AgentStage, env.agent.message));
      return Raised(raised.value), run.steps;
    }
    var agentResponse;
    raised, agentResponse := run.GenerateQuery(handler, env.invoke, env.events);
    if raised.Some? {
      assert f == Some(Failure(GenerateStage, env.invoke.message));
      return Raised(raised.value), run.steps;
    }
    var finalAnswer;
    raised, finalAnswer := run.ExecuteQuery(agentResponse);
    if raised.Some? {
      assert f == Some(Failure(ExecuteStage, "'output'"));
      return Raised(raised.value), run.steps;
    }
    assert f == None;
    run.GenerateFinalAnswer();
    var llmResponses := handler.llmResponses;
    var sqlQueries := handler.sqlQueries;
    reply := Answered(QueryResponse(run.steps, finalAnswer, llmResponses, sqlQueries));
    trace := run.steps;
  }
}
