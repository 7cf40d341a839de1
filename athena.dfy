/** Package athena: runs one query on Amazon Athena and returns its rows.

    A `Query` is driven step by step: build the StartQueryExecution request,
    make sure there is a session and a client, start the query, poll its
    state until it is no longer RUNNING, reject any final state other than
    SUCCEEDED, and fetch the results of the execution that was started.

    The Athena service is an input. StartQueryExecution and GetQueryResults
    are functions from their request to their answer; GetQueryExecution is,
    for each execution id, the script of answers the polls receive one after
    the other (a state, or the call's error). */
module Athena {
  import opened Aws

  /** The state a query has while it is still being executed. */
  const Running := "RUNNING"
  /** The only final state that counts as success. */
  const Succeeded := "SUCCEEDED"
  /** The scheme prefixed to the output bucket. */
  const Protocol := "s3://"

  datatype AthenaClient = AthenaClient(session: Session, region: string)

  /** One row of a result set: the text of each column, nil when absent. */
  type Row = seq<Option<string>>

  /** The parts of StartQueryExecutionInput this package sets: the query, the
      database of its execution context and the output location of its
      result configuration. */
  datatype StartQueryExecutionInput = StartQueryExecutionInput(
    queryString: Option<string>,
    database: Option<string>,
    outputLocation: Option<string>)

  datatype AthenaService = AthenaService(
    // The execution id of the started query, or the call's error.
    startQueryExecution: StartQueryExecutionInput -> Result<string>,
    // For an execution id, what each GetQueryExecution call answers, in order.
    getQueryExecution: string -> seq<Result<string>>,
    // For an execution id, the first page of its result rows, or the call's error.
    getQueryResults: string -> Result<seq<Row>>)

  /** What the caller supplies. The session and the client may be nil, in
      which case the query creates them and stores them back here. */
  class InputParams {
    var awsSession: Option<Session>
    var database: string
    var queryString: string
    var region: string
    var outputBucket: string
    var athenaClient: Option<AthenaClient>

    constructor (
      awsSession: Option<Session>, database: string, queryString: string,
      region: string, outputBucket: string, athenaClient: Option<AthenaClient>)
      ensures this.awsSession == awsSession && this.database == database
      ensures this.queryString == queryString && this.region == region
      ensures this.outputBucket == outputBucket && this.athenaClient == athenaClient
    {
      this.awsSession := awsSession;
      this.database := database;
      this.queryString := queryString;
      this.region := region;
      this.outputBucket := outputBucket;
      this.athenaClient := athenaClient;
    }
  }

  /** Where the query results are written: the bucket behind the S3 scheme. */
  function OutputLocation(outputBucket: string): (location: string)
    ensures |location| == |Protocol| + |outputBucket|
    ensures location[..|Protocol|] == Protocol
    ensures location[|Protocol|..] == outputBucket
  {
    Protocol + outputBucket
  }

  /** The bucket an output location names, if it is an S3 location. */
  function BucketOf(location: string): (bucket: Option<string>)
    ensures bucket.Some? <==> |location| >= |Protocol| && location[..|Protocol|] == Protocol
  {
    if |location| >= |Protocol| && location[..|Protocol|] == Protocol then Some(location[|Protocol|..])
    else None
  }

  /** The output location names exactly the caller's bucket, and every S3
      location is the output location of one bucket. */
  lemma OutputLocationRoundTrip(outputBucket: string, location: string)
    ensures BucketOf(OutputLocation(outputBucket)) == Some(outputBucket)
    ensures BucketOf(location).Some? ==> OutputLocation(BucketOf(location).value) == location
  {
  }

  /** The request buildQuery fills in from the caller's parameters. */
  function QueryRequest(queryString: string, database: string, outputBucket: string): (input: StartQueryExecutionInput)
    ensures input.queryString == Some(queryString)
    ensures input.database == Some(database)
    ensures input.outputLocation.Some? && BucketOf(input.outputLocation.value) == Some(outputBucket)
  {
    OutputLocationRoundTrip(outputBucket, "");
    StartQueryExecutionInput(Some(queryString), Some(database), Some(OutputLocation(outputBucket)))
  }

  /** A poll answer ends the loop: the call failed, or the query is no
      longer running. */
  predicate StopsPolling(response: Result<string>) {
    response.Err? || response.value != Running
  }

  /** Some answer of the script ends the loop. Without one the loop never
      returns. */
  predicate EndsPolling(states: seq<Result<string>>) {
    exists j :: 0 <= j < |states| && StopsPolling(states[j])
  }

  /** The poll at which the loop returns: the first answer that ends it.
      Every answer before it reported the query RUNNING. */
  function FirstStop(states: seq<Result<string>>): (k: nat)
    requires EndsPolling(states)
    ensures k < |states| && StopsPolling(states[k])
    ensures forall j :: 0 <= j < k ==> states[j] == Ok(Running)
  {
    if StopsPolling(states[0]) then 0
    else
      assert EndsPolling(states[1..]) by {
        var j :| 0 <= j < |states| && StopsPolling(states[j]);
        assert j > 0 && states[1..][j - 1] == states[j];
      }
      1 + FirstStop(states[1..])
  }

  /** Answers after the one that ends the loop are never read. */
  lemma {:induction false} LaterPollsIgnored(states: seq<Result<string>>, later: seq<Result<string>>)
    requires EndsPolling(states)
    ensures EndsPolling(states + later)
    ensures FirstStop(states + later) == FirstStop(states)
  {
    var k := FirstStop(states);
    assert (states + later)[k] == states[k];
    if k > 0 {
      assert (states + later)[0] == states[0];
      assert (states + later)[1..] == states[1..] + later;
      assert EndsPolling(states[1..]) by {
        assert states[1..][k - 1] == states[k];
      }
      LaterPollsIgnored(states[1..], later);
    }
  }

  /** handleFailure: a final state other than SUCCEEDED is an error that
      names the state. */
  function HandleFailure(state: string): (r: Outcome)
    ensures r == Pass <==> state == Succeeded
    ensures r != Pass ==> r == Fail("Query failure: " + state)
  {
    if state != Succeeded then Fail("Query failure: " + state) else Pass
  }

  /** What QueryAthena returns for the request it built: the first page of rows of the
      started execution when every step succeeded, or the error of the
      first step that failed. */
  function QueryOutcome(service: AthenaService, request: StartQueryExecutionInput): (r: Result<seq<Row>>)
    requires var start := service.startQueryExecution(request);
             start.Ok? ==> EndsPolling(service.getQueryExecution(start.value))
    ensures var start := service.startQueryExecution(request);
            start.Err? ==> r == Err(start.error)
    ensures var start := service.startQueryExecution(request);
            start.Ok? ==>
              var states := service.getQueryExecution(start.value);
              var last := states[FirstStop(states)];
              && (last.Err? ==> r == Err(last.error))
              && (last.Ok? && last.value != Succeeded ==> r == Err("Query failure: " + last.value))
              && (last == Ok(Succeeded) && service.getQueryResults(start.value).Err? ==>
                    r == Err(service.getQueryResults(start.value).error))
    // Rows come only from a query that started, last polled SUCCEEDED and
    // whose results were fetched, under the execution id the start returned.
    ensures var start := service.startQueryExecution(request);
            r.Ok? <==>
              && start.Ok?
              && (var states := service.getQueryExecution(start.value);
                  states[FirstStop(states)] == Ok(Succeeded))
              && service.getQueryResults(start.value).Ok?
    ensures r.Ok? ==>
      var id := service.startQueryExecution(request).value;
      r.value == service.getQueryResults(id).value
  {
    match service.startQueryExecution(request)
    case Err(e) => Err(e)
    case Ok(id) =>
      var states := service.getQueryExecution(id);
      match states[FirstStop(states)]
      case Err(e) => Err(e)
      case Ok(state) =>
        match HandleFailure(state)
        case Fail(e) => Err(e)
        case Pass =>
          match service.getQueryResults(id)
          case Err(e) => Err(e)
          case Ok(rows) => Ok(rows)
  }

  /** The state of one QueryAthena call. The SDK's input and output records
      are reduced to what the package reads from them: the request it
      sends, the execution id, and the state of the last poll. */
  class Query {
    const inputParams: InputParams
    var startInput: StartQueryExecutionInput
    var startOutput: Option<string>
    var getInput: Option<string>
    var getOutput: Option<string>
    var results: Option<seq<Row>>

    constructor (inputParams: InputParams)
      ensures this.inputParams == inputParams
      ensures startInput == StartQueryExecutionInput(None, None, None)
      ensures startOutput == None && getInput == None && getOutput == None && results == None
    {
      this.inputParams := inputParams;
      startInput := StartQueryExecutionInput(None, None, None);
      startOutput := None;
      getInput := None;
      getOutput := None;
      results := None;
    }

    /** buildQuery: sets the query, the database and the output location. */
    method BuildQuery()
      modifies this`startInput
      ensures startInput == QueryRequest(inputParams.queryString, inputParams.database, inputParams.outputBucket)
    {
      startInput := startInput.(queryString := Some(inputParams.queryString));
      startInput := startInput.(database := Some(inputParams.database));
      startInput := startInput.(outputLocation := Some(OutputLocation(inputParams.outputBucket)));
    }

    /** getClient: creates a session only when none was supplied, and a
        client on the session in use only when none was supplied. */
    method GetClient()
      modifies inputParams`awsSession, inputParams`athenaClient
      ensures old(inputParams.awsSession).Some? ==> inputParams.awsSession == old(inputParams.awsSession)
      ensures old(inputParams.awsSession).None? ==> inputParams.awsSession == Some(Session(inputParams.region))
      ensures old(inputParams.athenaClient).Some? ==> inputParams.athenaClient == old(inputParams.athenaClient)
      ensures old(inputParams.athenaClient).None? ==>
        inputParams.athenaClient == Some(AthenaClient(inputParams.awsSession.value, inputParams.region))
    {
      if inputParams.awsSession.None? {
        inputParams.awsSession := Some(Session(inputParams.region));
      }
      if inputParams.athenaClient.None? {
        inputParams.athenaClient := Some(AthenaClient(inputParams.awsSession.value, inputParams.region));
      }
    }

    /** startQuery: sends the request; keeps the execution id on success. */
    method StartQuery(service: AthenaService) returns (r: Outcome)
      modifies this`startOutput
      ensures var start := service.startQueryExecution(startInput);
              && (start.Ok? ==> r == Pass && startOutput == Some(start.value))
              && (start.Err? ==> r == Fail(start.error) && startOutput == None)
    {
      match service.startQueryExecution(startInput)
      case Err(e) =>
        startOutput := None;
        return Fail(e);
      case Ok(id) =>
        startOutput := Some(id);
        return Pass;
    }

    /** pollOutput: asks for the state of the started execution until an
        answer is an error or a state other than RUNNING. The loop ends
        because some answer of the script ends it; it reads no further. */
    method PollOutput(service: AthenaService) returns (r: Outcome)
      requires startOutput.Some?
      requires EndsPolling(service.getQueryExecution(startOutput.value))
      modifies this`getInput, this`getOutput
      ensures getInput == startOutput
      ensures var states := service.getQueryExecution(startOutput.value);
              var last := states[FirstStop(states)];
              && (last.Err? ==> r == Fail(last.error) && getOutput == None)
              && (last.Ok? ==> r == Pass && getOutput == Some(last.value))
    {
      getInput := startOutput;
      var states := service.getQueryExecution(getInput.value);
      var i := 0;
      while true
        invariant getInput == startOutput
        invariant 0 <= i <= FirstStop(states)
        decreases |states| - i
      {
        match states[i]
        case Err(e) =>
          getOutput := None;
          return Fail(e);
        case Ok(state) =>
          getOutput := Some(state);
          if state != Running {
            return Pass;
          }
        // The Go loop sleeps here for one second between polls.
        i := i + 1;
      }
    }

    /** handleSuccess: fetches the rows of the execution that was started. */
    method HandleSuccess(service: AthenaService) returns (r: Outcome)
      requires startOutput.Some?
      modifies this`results
      ensures var fetched := service.getQueryResults(startOutput.value);
              && (fetched.Ok? ==> r == Pass && results == Some(fetched.value))
              && (fetched.Err? ==> r == Fail(fetched.error) && results == None)
    {
      var getQueryResultsInput := startOutput.value;
      match service.getQueryResults(getQueryResultsInput)
      case Err(e) =>
        results := None;
        return Fail(e);
      case Ok(rows) =>
        results := Some(rows);
        return Pass;
    }
  }

  /** QueryAthena: the steps in order, stopping at the first error. The
      caller's session and client are filled in when they were nil. */
  method QueryAthena(inputParams: InputParams, service: AthenaService) returns (r: Result<seq<Row>>)
    requires var start := service.startQueryExecution(
               QueryRequest(inputParams.queryString, inputParams.database, inputParams.outputBucket));
             start.Ok? ==> EndsPolling(service.getQueryExecution(start.value))
    modifies inputParams
    ensures r == QueryOutcome(service,
      QueryRequest(old(inputParams.queryString), old(inputParams.database), old(inputParams.outputBucket)))
    ensures inputParams.queryString == old(inputParams.queryString)
    ensures inputParams.database == old(inputParams.database)
    ensures inputParams.region == old(inputParams.region)
    ensures inputParams.outputBucket == old(inputParams.outputBucket)
    ensures old(inputParams.awsSession).Some? ==> inputParams.awsSession == old(inputParams.awsSession)
    ensures old(inputParams.awsSession).None? ==> inputParams.awsSession == Some(Session(inputParams.region))
    ensures old(inputParams.athenaClient).Some? ==> inputParams.athenaClient == old(inputParams.athenaClient)
    ensures old(inputParams.athenaClient).None? ==>
      inputParams.athenaClient == Some(AthenaClient(inputParams.awsSession.value, inputParams.region))
  {
    var q := new Query(inputParams);

    q.BuildQuery();

    q.GetClient();

    var err := q.StartQuery(service);
    if err.Fail? {
      return Err(err.error);
    }

    err := q.PollOutput(service);
    if err.Fail? {
      return Err(err.error);
    }

    err := HandleFailure(q.getOutput.value);
    if err.Fail? {
      return Err(err.error);
    }

    err := q.HandleSuccess(service);
    if err.Fail? {
      return Err(err.error);
    }

    return Ok(q.results.value);
  }
}
