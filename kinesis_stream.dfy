/** Package stream: an Emitter that puts records into a Kinesis stream,
    each under a partition key drawn at random below 2^128.

    The entropy draw `rand.Int(reader, max)` is an input: `Ok(n)` with
    `n < max`, or `Err` when the reader fails. Session creation and the
    Kinesis PutRecord call are inputs too. */
module KinesisStream {
  import opened Aws
  import Base10
  import opened StreamMax

  /** The key used when the entropy draw fails. */
  const FallbackKey: string := "0"

  datatype KinesisClient = KinesisClient(session: Session)

  datatype PutRecordInput = PutRecordInput(
    data: seq<bv8>,
    streamName: Option<string>,
    partitionKey: Option<string>)

  datatype PutRecordOutput = PutRecordOutput(shardId: string, sequenceNumber: string)

  /** createPartitionKey: the base-10 text of the draw, or "0" when the
      draw failed. Either way the key is canonical decimal text (digits
      only, no leading zero) and reads back as a non-negative number; after
      a successful draw it reads back as exactly the draw. */
  function CreatePartitionKey(draw: Result<nat>): (key: string)
    ensures draw.Err? ==> key == FallbackKey
    ensures draw.Ok? ==> key == Base10.Decimal(draw.value)
    ensures |key| > 0 && Base10.AllDigits(key) && (key[0] == '0' ==> key == "0")
    ensures draw.Ok? ==> Base10.Parse(key) == Some(draw.value as int)
    ensures Base10.Parse(key).Some? && Base10.Parse(key).value >= 0
  {
    match draw
    case Err(_) =>
      assert Base10.PrefixValue(FallbackKey, 1) == 0;
      FallbackKey
    case Ok(n) =>
      Base10.ParseDecimal(n);
      Base10.Decimal(n)
  }

  /** Emitter: a session and a Kinesis client, and the key bound parsed
      from MAX. Every field is nil until New fills it. */
  class Emitter {
    var awsSession: Option<Session>
    var client: Option<KinesisClient>
    var max: Option<int>

    /** Go's zero value `var e Emitter`. */
    constructor ()
      ensures awsSession == None && client == None && max == None
    {
      awsSession := None;
      client := None;
      max := None;
    }

    /** Creates an Emitter for `region`. `newSession` is what creating the
        session returned. The bound is parsed before any session is made,
        so a bad bound fails whatever `newSession` holds. */
    static method New(region: string, newSession: Outcome) returns (r: Result<Emitter>)
      ensures Base10.Parse(MAX).None? ==> r == Err("Partition key error")
      ensures Base10.Parse(MAX).Some? && newSession.Fail? ==> r == Err(newSession.error)
      ensures Base10.Parse(MAX).Some? && newSession == Pass ==>
        && r.Ok? && fresh(r.value)
        && r.value.max == Base10.Parse(MAX) == Some(Base10.Pow2(128))
        && r.value.awsSession == Some(Session(region))
        && r.value.client == Some(KinesisClient(Session(region)))
    {
      var e := new Emitter();

      var max := Base10.Parse(MAX);
      if max.None? {
        return Err("Partition key error");
      }
      e.max := max;
      MaxIsTwoTo128();

      match newSession {
        case Fail(err) =>
          return Err(err);
        case Pass =>
          e.awsSession := Some(Session(region));
      }

      e.client := Some(KinesisClient(e.awsSession.value));
      return Ok(e);
    }

    /** Puts `record` into `stream` under a freshly drawn partition key.
        `draw` is what rand.Int(reader, max) returned and `putRecord` is the
        Kinesis call; its error is returned with no output. */
    method PutRecord(
      record: seq<bv8>, stream: string, draw: Result<nat>,
      putRecord: (KinesisClient, PutRecordInput) -> Result<PutRecordOutput>)
      returns (r: Result<PutRecordOutput>)
      requires client.Some? && max.Some?
      requires draw.Ok? ==> draw.value < max.value
      ensures r == putRecord(client.value, PutRecordInput(record, Some(stream), Some(CreatePartitionKey(draw))))
      ensures var key := Base10.Parse(CreatePartitionKey(draw));
              key.Some? && 0 <= key.value && (key.value < max.value || draw.Err?)
    {
      var input := PutRecordInput([], None, None);
      input := input.(data := record);
      input := input.(streamName := Some(stream));
      input := input.(partitionKey := Some(CreatePartitionKey(draw)));

      var output := putRecord(client.value, input);
      match output {
        case Err(err) => return Err(err);
        case Ok(o) => return Ok(o);
      }
    }
  }
}
