# alwaysbespoke/aws: the decisions behind three AWS helpers

This project is a Dafny model of the logic that the Go helper library
`alwaysbespoke/aws` adds on top of the AWS SDK. It covers three packages:

- **dms**: which replication instance classes may be requested. How the
  described instances and tasks are searched for an ARN and checked (class,
  then status). Which `StartReplicationTaskType` each task operation sends.
- **athena**: one query run as a sequence of steps on a `Query` value. The
  steps are: build the request, create the session and client when absent,
  start the query, poll until the state is not `RUNNING`, reject any final
  state other than `SUCCEEDED`, and fetch the rows of the started execution.
- **kinesis/stream**: an `Emitter` that puts records under a partition key.
  The key is drawn below `MAX` and written in base 10. A failed draw gives
  the key `"0"`.

Every AWS call is an input to the model. A call that takes a request is a
function from the request to its answer: the error message, or the output.
A Describe call is the list it returned. Athena's GetQueryExecution is a
script: for each execution id, the answers the polls receive in turn. A Go
`error` is its message: `Outcome` is `Pass | Fail(error)`, and
`Result<T>` is `Ok(value) | Err(error)`.

Files:

- `aws.dfy` holds the shared `Option`, `Result`, `Outcome` and `Session`.
- `dms.dfy` holds package dms.
- `athena.dfy` holds package athena.
- `base10.dfy` holds the two `math/big` conversions that the emitter
  relies on.
- `stream_max.dfy` holds the constant `MAX` and the proof that it reads as
  2^128.
- `kinesis_stream.dfy` holds the emitter.

## Model

| member | source | states |
|---|---|---|
| Dms.ValidateClass | dms/dms.go:32-43 | the class passes exactly when it is one of the eight classes declared at lines 12-19; any other class fails with "Invalid instance class: " followed by the class |
| Dms.ModifyReplicationInstanceClass | dms/dms.go:25-49 | an unknown class fails with the invalid-class message whatever the service would answer; a known class sends ModifyReplicationInstance with ApplyImmediately true, the ARN and the class, and returns the service's outcome unchanged |
| Dms.FirstIndex | dms/dms.go:61-71 | the `for range` scan: the result is the position of an element that matches, with no match before it; it is None exactly when no element matches |
| Dms.CheckReplicationInstanceClassAndStatus | dms/dms.go:54-73 | the describe error is returned as it is; no instance with the ARN gives "Instance not found: "+arn; at the first instance with the ARN, a class mismatch is reported whatever the status is, then a status other than "available" is reported; the check passes exactly when that first instance has the expected class and is available |
| Dms.LaterInstancesIgnored | dms/dms.go:61-71 | instances listed after the first one with the ARN never change the outcome of the check |
| Dms.CheckReplicationTaskStatus | dms/dms.go:126-142 | the describe error is returned as it is; no task with the ARN gives "Task not found: "+arn; the first task with the ARN passes exactly when its status is "stopped", and otherwise its status is reported |
| Dms.LaterTasksIgnored | dms/dms.go:133-141 | tasks listed after the first one with the ARN never change the outcome of the check |
| Dms.StartTypeOf | dms/dms.go:82-114 | the three operations send three different start types: "start-replication", "resume-processing" and "reload-target" |
| Dms.StartReplicationTask | dms/dms.go:78-89 | sends the ARN with the type "start-replication" and returns the service's outcome unchanged |
| Dms.ResumeReplicationTask | dms/dms.go:94-105 | sends the ARN with the type "resume-processing" and returns the service's outcome unchanged |
| Dms.ReloadReplicationTask | dms/dms.go:110-121 | sends the ARN with the type "reload-target" and returns the service's outcome unchanged |
| Athena.InputParams.constructor | athena/athena.go:20-27 | the caller's parameters, stored as given; the session and client may be absent |
| Athena.OutputLocation | athena/athena.go:94 | the output location is "s3://" followed by the bucket, and nothing else |
| Athena.OutputLocationRoundTrip | athena/athena.go:94 | the bucket read back from the output location is the caller's bucket; every location that starts with "s3://" is the output location of exactly the bucket after the prefix |
| Athena.QueryRequest | athena/athena.go:82-97 | the request carries the query string, the database, and an S3 output location that names the caller's bucket |
| Athena.FirstStop | athena/athena.go:136-150 | polling stops at an answer that is an error or a state other than RUNNING, and every earlier answer was RUNNING |
| Athena.LaterPollsIgnored | athena/athena.go:136-150 | answers that come after the one that ends polling are never read: adding more of them leaves the stopping poll unchanged |
| Athena.HandleFailure | athena/athena.go:154-159 | the final state passes exactly when it is SUCCEEDED; any other state fails with "Query failure: " followed by the state |
| Athena.QueryOutcome | athena/athena.go:42-80 | a start error is returned as it is; a poll error is returned as it is; a final state other than SUCCEEDED gives "Query failure: "+state; after SUCCEEDED a results-fetch error is returned as it is; rows are returned exactly when the query started, the last poll said SUCCEEDED and the results were fetched, and they are the first page of rows of the execution id the start returned |
| Athena.Query.constructor | athena/athena.go:44-46 | a query starts with the caller's parameters and every other field empty |
| Athena.Query.BuildQuery | athena/athena.go:82-97 | after the call the start request is the one built from the caller's query string, database and output bucket |
| Athena.Query.GetClient | athena/athena.go:99-119 | a session is created for the region only when none was supplied, and a client on the session in use only when none was supplied; a session or client that was supplied is left unchanged |
| Athena.Query.StartQuery | athena/athena.go:121-128 | on success the execution id is kept and the step passes; the call's error is returned otherwise |
| Athena.Query.PollOutput | athena/athena.go:130-152 | the status request uses the started execution's id; the loop returns at the first answer that ends polling, with that answer's error or with its state kept as the last output |
| Athena.Query.HandleSuccess | athena/athena.go:161-170 | the results are requested under the execution id that the start returned; the first page of rows is kept on success, and the call's error is returned otherwise |
| Athena.QueryAthena | athena/athena.go:42-80 | running the steps in order gives exactly the outcome that QueryOutcome describes; the caller's query string, database, region and bucket are left unchanged, and the session and client are filled in only when absent |
| Base10.ParseMagnitude | kinesis/stream/stream.go:41 | reading unsigned base-10 text succeeds exactly when the text is one or more digits |
| Base10.Parse | kinesis/stream/stream.go:41 | SetString(s, 10) succeeds exactly when the text is an optional sign followed by one or more digits; the result is non-negative unless the sign is '-' |
| Base10.Decimal | kinesis/stream/stream.go:96 | String() of a non-negative value is one or more digits, with a leading zero only in "0" |
| Base10.ParseDecimal | kinesis/stream/stream.go:96 | reading back what String() wrote gives the value that was written |
| StreamMax.MaxIsTwoTo128 | kinesis/stream/stream.go:16 | the constant MAX, read as SetString reads it, is 2^128 |
| KinesisStream.CreatePartitionKey | kinesis/stream/stream.go:91-97 | a failed draw gives the key "0"; after a successful draw the key is the String() text of the draw and reads back as exactly the number drawn; either way the key is digits only with no leading zero, and reads as a non-negative number |
| KinesisStream.Emitter.constructor | kinesis/stream/stream.go:37 | the zero Emitter has no session, no client and no bound |
| KinesisStream.Emitter.New | kinesis/stream/stream.go:34-63 | MAX is parsed before any session is made, and a bad MAX fails with "Partition key error"; a session error is returned as it is; otherwise a new emitter holds the bound MAX, which is 2^128, the session for the region and a client on that session |
| KinesisStream.Emitter.PutRecord | kinesis/stream/stream.go:68-88 | sends the record to the stream under the partition key of the draw and returns the service's answer unchanged; the key reads as a non-negative number below the emitter's bound (2^128 for an emitter made by New) unless the draw failed |

## Left out

- AWS clients and sessions: `databasemigrationservice.New`, `athena.New`, `kinesis.New` and `session.NewSession` are not modelled beyond their inputs. Every SDK call is an input to the model.
- `session.Must` in athena's `getClient` panics when a session cannot be created. In the model, session creation always succeeds.
- Nil pointers: the Go code dereferences `*string` fields without checking them, and a nil field panics. These are the `InputParams` fields, the ARNs, classes and statuses of described records, and the query state. The model holds them as plain strings.
- KinesisStream.Emitter.PutRecord: modelled only for an emitter whose client and bound are set, as `New` leaves them. On the zero `Emitter` the Go code panics: `rand.Int(e.reader, e.max)` dereferences a nil `max` (stream.go:92), and `e.client.PutRecord` calls through a nil client (stream.go:81). The panic is not modelled.
- Pagination: the Describe calls, and GetQueryResults in athena's `handleSuccess`, read only the first page they get back and never follow the next-page token. The model takes that page as the list it is given: `getQueryResults` stands for the first page of rows, so a result longer than one page is returned cut to that page with no error, as in the Go code.
- Athena.Query.PollOutput: `time.Sleep(QUERY_POLLING_INTERVAL * time.Second)` between polls is not modelled.
- Athena.Query.PollOutput: the Go loop has no timeout and never returns while every answer is RUNNING. `PollOutput`, `QueryOutcome` and `QueryAthena` therefore require that the poll script contains an answer that ends polling.
- Athena.Query.PollOutput: on a poll error the last output is recorded as absent. The Go code keeps the SDK's empty output object, which nothing reads afterwards.
- Athena.Query.StartQuery: on a start error the execution id is recorded as absent. This holds for the same reason.
- Athena.QueryAthena: the client that `getClient` creates does not take part in the calls, because the service is an input. The model states only how the client is created.
- KinesisStream.Emitter.PutRecord: the mutex `lock` serializes concurrent PutRecord calls. Concurrency is not modelled, so the lock is left out.
- KinesisStream.CreatePartitionKey: `rand.Int(e.reader, e.max)` is an input: `Ok(n)` with `n` below the bound, or the reader's error. Uniformity of the draw, and the `reader` field, are not modelled.
- Base10.Parse: only base 10, the one base the emitter uses, is modelled. `SetString`'s other bases and its underscore rules for base 0 are left out.
- CheckReplicationTaskStatus creates its client from a new default session and ignores the session it is given. Sessions are inputs here, so the model cannot show the difference.
- Packages s3, ssm and session, and the example program, are not part of this model.
