/** The benchmark driver (benchmark_mpi.py) as seen by one rank: the calls it
    makes on its backend and on the communicator, and the result record it
    reports. Rank 0 is the writer; every other rank is a reader. Backends are
    abstract here: the driver only branches on get_name and
    supports_streaming. The value a reader's i-th read_bytes returns comes
    from the transport, given as the function recv. */
module Driver {
  import opened Outcomes
  import opened Header
  import opened TestData
  import Backends

  const MPIName: string := Backends.MPIName
  const ZeroMQName: string := Backends.ZeroMQName

  /** What the driver observes of a backend. */
  datatype BackendInfo = BackendInfo(name: string, streaming: bool)

  function Info(k: Backends.Kind): BackendInfo {
    BackendInfo(Backends.Name(k), Backends.SupportsStreaming(k))
  }

  /** One call the driver makes on its backend or on the communicator. */
  datatype Call =
    | Initialize(resource: string, isWriter: bool)
    | Barrier
    | PrepareStream(count: int)
    | Store(data: Bytes)         // the direct assignment backend._serialized_data = ...
    | WriteBytes(data: Bytes)
    | ReadBytes
    | Cleanup

  predicate IsBarrier(c: Call) { c.Barrier? }
  predicate IsWriteBytes(c: Call) { c.WriteBytes? }
  predicate IsReadBytes(c: Call) { c.ReadBytes? }
  /** On the broadcast backend every write_bytes and every read_bytes is one collective broadcast. */
  predicate IsCollective(c: Call) { c.WriteBytes? || c.ReadBytes? }

  function Repeat(c: Call, k: nat): (r: seq<Call>)
    ensures |r| == k && forall i :: 0 <= i < k ==> r[i] == c
  {
    seq(k, _ => c)
  }

  function Count(calls: seq<Call>, p: Call -> bool): (r: nat)
    ensures r <= |calls|
  {
    if calls == [] then 0 else (if p(calls[0]) then 1 else 0) + Count(calls[1..], p)
  }

  lemma {:induction false} CountAppend(a: seq<Call>, b: seq<Call>, p: Call -> bool)
    ensures Count(a + b, p) == Count(a, p) + Count(b, p)
  {
    if a != [] {
      assert (a + b)[1..] == a[1..] + b;
      CountAppend(a[1..], b, p);
    } else {
      assert a + b == b;
    }
  }

  lemma {:induction false} CountRepeat(c: Call, k: nat, p: Call -> bool)
    ensures Count(Repeat(c, k), p) == if p(c) then k else 0
  {
    if k > 0 {
      assert Repeat(c, k)[1..] == Repeat(c, k - 1);
      CountRepeat(c, k - 1, p);
    }
  }

  /** The number of successful reads among the first k. */
  function CountPresent(recv: nat -> Option<Bytes>, k: nat): (r: nat)
    ensures r <= k
  {
    if k == 0 then 0 else CountPresent(recv, k - 1) + (if recv(k - 1).Some? then 1 else 0)
  }

  /** read_count reaches the number of reads exactly when no read came back empty. */
  lemma {:induction false} AllReadsPresent(recv: nat -> Option<Bytes>, k: nat)
    ensures CountPresent(recv, k) == k <==> forall i :: 0 <= i < k ==> recv(i).Some?
  {
    if k > 0 {
      AllReadsPresent(recv, k - 1);
    }
  }

  /** raw_bytes after k reads: the last read's value. */
  function LastRead(recv: nat -> Option<Bytes>, k: nat): Option<Bytes> {
    if k == 0 then None else recv(k - 1)
  }

  /** What a reader does with its last raw read once the loop is over. */
  datatype DecodeStep =
    | Skipped
    | Decode(raw: Bytes)
    | DecodeMissing     // deserialize(None): pickle raises TypeError

  /** The shared scenario as written: deserialise raw_bytes whenever read_count > 0. */
  function SharedDecodeAsWritten(readCount: nat, last: Option<Bytes>): DecodeStep {
    if readCount > 0 then (if last.Some? then Decode(last.value) else DecodeMissing) else Skipped
  }

  /** The streaming scenario's guard, read_count > 0 and raw_bytes is not None,
      used for both scenarios by this model. */
  function DecodeLast(readCount: nat, last: Option<Bytes>): (d: DecodeStep)
    ensures d != DecodeMissing
    ensures d.Decode? <==> readCount > 0 && last.Some?
    ensures d.Decode? ==> last == Some(d.raw)
  {
    if readCount > 0 && last.Some? then Decode(last.value) else Skipped
  }

  /** Two reads, the first returning data and the second nothing: the shared
      scenario as written passes None to deserialize. */
  lemma SharedDecodeAsWrittenFails(p: Bytes)
    ensures var recv := (i: nat) => if i == 0 then Some(p) else None;
            SharedDecodeAsWritten(CountPresent(recv, 2), LastRead(recv, 2)) == DecodeMissing &&
            DecodeLast(CountPresent(recv, 2), LastRead(recv, 2)) == Skipped
  {
  }

  /** The non-float fields of BenchmarkResult. */
  datatype BenchmarkResult = BenchmarkResult(backendName: string, dataSize: nat, rank: nat, scenario: string, readCount: nat)

  /** len(data or {}). */
  function DataLen(data: Option<Dict>): nat {
    if data.Some? then |data.value| else 0
  }

  // ---------------------------------------------------------------------
  // The calls of each role in each scenario
  // ---------------------------------------------------------------------

  /** The write_bytes calls the shared-scenario writer adds after its first
      one: iterations * readers - 1 of them for ZeroMQ, none for any other backend. */
  function SharedResends(b: BackendInfo, size: nat, iterations: nat): nat {
    if b.name == ZeroMQName then Max0(iterations * (size - 1) - 1) else 0
  }

  function SharedWriterCalls(b: BackendInfo, payload: Bytes, size: nat, iterations: nat): seq<Call> {
    if b.name == MPIName
    then [Barrier, Store(payload), Barrier] + Repeat(ReadBytes, iterations) + [Barrier]
    else [Barrier, WriteBytes(payload), Barrier] + Repeat(WriteBytes(payload), SharedResends(b, size, iterations)) + [Barrier]
  }

  function SharedReaderCalls(iterations: nat): seq<Call> {
    [Barrier, Barrier] + Repeat(ReadBytes, iterations) + [Barrier]
  }

  /** The writer's send count in the streaming scenario. */
  function StreamingSends(b: BackendInfo, size: nat, iterations: nat): nat {
    if b.streaming then (if b.name == MPIName then iterations else Max0(iterations * (size - 1)))
    else iterations
  }

  function StreamingWriterCalls(b: BackendInfo, payload: Bytes, size: nat, iterations: nat): seq<Call> {
    [PrepareStream(iterations * (size - 1)), Barrier] + Repeat(WriteBytes(payload), StreamingSends(b, size, iterations)) + [Barrier]
  }

  function StreamingReaderCalls(size: nat, iterations: nat): seq<Call> {
    [PrepareStream(iterations * (size - 1)), Barrier] + Repeat(ReadBytes, iterations) + [Barrier]
  }

  /** Counting over a trace of the form head, k copies of c, tail. */
  lemma CountShape(head: seq<Call>, c: Call, k: nat, tail: seq<Call>, p: Call -> bool)
    ensures Count(head + Repeat(c, k) + tail, p) == Count(head, p) + (if p(c) then k else 0) + Count(tail, p)
  {
    CountAppend(head + Repeat(c, k), tail, p);
    CountAppend(head, Repeat(c, k), p);
    CountRepeat(c, k, p);
  }

  lemma SharedWriterCounts(b: BackendInfo, payload: Bytes, size: nat, iterations: nat)
    ensures Count(SharedWriterCalls(b, payload, size, iterations), IsBarrier) == 3
    ensures Count(SharedWriterCalls(b, payload, size, iterations), IsWriteBytes)
         == if b.name == MPIName then 0 else 1 + SharedResends(b, size, iterations)
    ensures Count(SharedWriterCalls(b, payload, size, iterations), IsReadBytes)
         == if b.name == MPIName then iterations else 0
  {
    if b.name == MPIName {
      var head: seq<Call> := [Barrier, Store(payload), Barrier];
      CountShape(head, ReadBytes, iterations, [Barrier], IsBarrier);
      CountShape(head, ReadBytes, iterations, [Barrier], IsWriteBytes);
      CountShape(head, ReadBytes, iterations, [Barrier], IsReadBytes);
    } else {
      var head: seq<Call> := [Barrier, WriteBytes(payload), Barrier];
      var k := SharedResends(b, size, iterations);
      CountShape(head, WriteBytes(payload), k, [Barrier], IsBarrier);
      CountShape(head, WriteBytes(payload), k, [Barrier], IsWriteBytes);
      CountShape(head, WriteBytes(payload), k, [Barrier], IsReadBytes);
    }
  }

  lemma SharedReaderCounts(iterations: nat)
    ensures Count(SharedReaderCalls(iterations), IsBarrier) == 3
    ensures Count(SharedReaderCalls(iterations), IsReadBytes) == iterations
    ensures Count(SharedReaderCalls(iterations), IsWriteBytes) == 0
  {
    CountShape([Barrier, Barrier], ReadBytes, iterations, [Barrier], IsBarrier);
    CountShape([Barrier, Barrier], ReadBytes, iterations, [Barrier], IsReadBytes);
    CountShape([Barrier, Barrier], ReadBytes, iterations, [Barrier], IsWriteBytes);
  }

  lemma StreamingCounts(b: BackendInfo, payload: Bytes, size: nat, iterations: nat)
    ensures Count(StreamingWriterCalls(b, payload, size, iterations), IsBarrier) == 2
    ensures Count(StreamingWriterCalls(b, payload, size, iterations), IsWriteBytes) == StreamingSends(b, size, iterations)
    ensures Count(StreamingWriterCalls(b, payload, size, iterations), IsReadBytes) == 0
    ensures Count(StreamingReaderCalls(size, iterations), IsBarrier) == 2
    ensures Count(StreamingReaderCalls(size, iterations), IsReadBytes) == iterations
    ensures Count(StreamingReaderCalls(size, iterations), IsWriteBytes) == 0
  {
    var head: seq<Call> := [PrepareStream(iterations * (size - 1)), Barrier];
    var k := StreamingSends(b, size, iterations);
    CountShape(head, WriteBytes(payload), k, [Barrier], IsBarrier);
    CountShape(head, WriteBytes(payload), k, [Barrier], IsWriteBytes);
    CountShape(head, WriteBytes(payload), k, [Barrier], IsReadBytes);
    CountShape(head, ReadBytes, iterations, [Barrier], IsBarrier);
    CountShape(head, ReadBytes, iterations, [Barrier], IsReadBytes);
    CountShape(head, ReadBytes, iterations, [Barrier], IsWriteBytes);
  }

  /** Lock-step on the broadcast backend: in both scenarios the writer and each
      reader make the same number of collective calls, namely `iterations`. */
  lemma BroadcastLockStep(b: BackendInfo, payload: Bytes, size: nat, iterations: nat)
    requires b.name == MPIName
    ensures Count(SharedWriterCalls(b, payload, size, iterations), IsCollective) == iterations
    ensures Count(SharedReaderCalls(iterations), IsCollective) == iterations
    ensures Count(StreamingWriterCalls(b, payload, size, iterations), IsCollective) == iterations
    ensures Count(StreamingReaderCalls(size, iterations), IsCollective) == iterations
  {
    CountShape([Barrier, Store(payload), Barrier], ReadBytes, iterations, [Barrier], IsCollective);
    CountShape([Barrier, Barrier], ReadBytes, iterations, [Barrier], IsCollective);
    var head: seq<Call> := [PrepareStream(iterations * (size - 1)), Barrier];
    CountShape(head, WriteBytes(payload), StreamingSends(b, size, iterations), [Barrier], IsCollective);
    CountShape(head, ReadBytes, iterations, [Barrier], IsCollective);
  }

  /** Shared scenario on ZeroMQ: one message per reader read when there is at
      least one read to serve, and a single message when there is none. */
  lemma ZeroMQSharedSends(payload: Bytes, size: nat, iterations: nat)
    ensures Count(SharedWriterCalls(Info(Backends.ZeroMQ), payload, size, iterations), IsWriteBytes)
         == 1 + Max0(iterations * (size - 1) - 1)
    ensures size >= 2 && iterations >= 1 ==>
      Count(SharedWriterCalls(Info(Backends.ZeroMQ), payload, size, iterations), IsWriteBytes) == iterations * (size - 1)
  {
    var b := Info(Backends.ZeroMQ);
    assert b.name == ZeroMQName != MPIName;
    SharedWriterCounts(b, payload, size, iterations);
    assert SharedResends(b, size, iterations) == Max0(iterations * (size - 1) - 1);
    if size >= 2 && iterations >= 1 {
      ProductPositive(iterations, size - 1);
    }
  }

  lemma ProductPositive(a: nat, b: nat)
    requires a >= 1 && b >= 1
    ensures a * b >= 1
  {
    assert a * b >= 1 * b;
  }

  /** Because ZeroMQ takes the base class's supports_streaming, every one of
      the four backends is sent `iterations` messages in the streaming scenario. */
  lemma StreamingSendsPerBackend(k: Backends.Kind, size: nat, iterations: nat)
    ensures StreamingSends(Info(k), size, iterations) == iterations
    ensures Info(k).streaming <==> k == Backends.MPINative
    ensures Info(k).name == MPIName <==> k == Backends.MPINative
    ensures Info(k).name == ZeroMQName <==> k == Backends.ZeroMQ
  {
    Backends.NamesIdentifyBackends(k, Backends.MPINative);
    Backends.NamesIdentifyBackends(k, Backends.ZeroMQ);
  }

  /** As written: ZeroMQ's messages are each taken by one reader, and its
      readers together make iterations * readers reads in the streaming
      scenario; with two or more readers the writer sends fewer messages
      than that, so some reads find nothing. */
  lemma ZeroMQStreamingShortfall(payload: Bytes, size: nat, iterations: nat)
    requires size >= 3 && iterations >= 1
    ensures Count(StreamingWriterCalls(Info(Backends.ZeroMQ), payload, size, iterations), IsWriteBytes)
          < (size - 1) * Count(StreamingReaderCalls(size, iterations), IsReadBytes)
  {
    StreamingCounts(Info(Backends.ZeroMQ), payload, size, iterations);
    FewerThanMultiple(iterations, size - 1);
  }

  lemma FewerThanMultiple(a: nat, m: nat)
    requires a >= 1 && m >= 2
    ensures a < m * a
  {
    assert m * a == a + (m - 1) * a;
  }

  /** The streaming support the base class documents: the message-passing
      backends (ZeroMQ, MPI) stream, the shared-storage ones do not. */
  function IntendedInfo(k: Backends.Kind): BackendInfo {
    BackendInfo(Backends.Name(k), k == Backends.ZeroMQ || k == Backends.MPINative)
  }

  /** Corrected: with that streaming support every read in the streaming
      scenario is served. A ZeroMQ writer sends one message per read of all
      readers together; an MPI broadcast reaches every reader, so one send
      per read of each reader; a shared-storage writer overwrites once per
      read of each reader. */
  lemma IntendedStreamingServesEveryRead(k: Backends.Kind, payload: Bytes, size: nat, iterations: nat)
    requires size >= 1
    ensures k == Backends.ZeroMQ ==>
      Count(StreamingWriterCalls(IntendedInfo(k), payload, size, iterations), IsWriteBytes)
      == (size - 1) * Count(StreamingReaderCalls(size, iterations), IsReadBytes)
    ensures k != Backends.ZeroMQ ==>
      Count(StreamingWriterCalls(IntendedInfo(k), payload, size, iterations), IsWriteBytes)
      == Count(StreamingReaderCalls(size, iterations), IsReadBytes)
  {
    StreamingCounts(IntendedInfo(k), payload, size, iterations);
    Backends.NamesIdentifyBackends(k, Backends.MPINative);
  }

  // ---------------------------------------------------------------------
  // The scenario loops
  // ---------------------------------------------------------------------

  lemma RepeatSnoc(c: Call, k: nat)
    ensures Repeat(c, k) + [c] == Repeat(c, k + 1)
  {
  }

  /** A reader's loop: exactly `iterations` read_bytes calls; read_count counts
      the reads that returned data. */
  method ReadLoop(iterations: nat, recv: nat -> Option<Bytes>) returns (calls: seq<Call>, readCount: nat, last: Option<Bytes>)
    ensures calls == Repeat(ReadBytes, iterations)
    ensures readCount == CountPresent(recv, iterations) && readCount <= iterations
    ensures last == LastRead(recv, iterations)
  {
    calls, readCount, last := [], 0, None;
    var i := 0;
    while i < iterations
      invariant 0 <= i <= iterations
      invariant calls == Repeat(ReadBytes, i)
      invariant readCount == CountPresent(recv, i)
      invariant last == LastRead(recv, i)
    {
      var raw := recv(i);
      RepeatSnoc(ReadBytes, i);
      calls := calls + [ReadBytes];
      if raw.Some? {
        readCount := readCount + 1;
      }
      last := raw;
      i := i + 1;
    }
  }

  /** The writer's side of the shared scenario. */
  method WriterShared(b: BackendInfo, payload: Bytes, size: nat, iterations: nat) returns (calls: seq<Call>)
    ensures calls == SharedWriterCalls(b, payload, size, iterations)
    ensures Count(calls, IsBarrier) == 3
    ensures b.name == MPIName ==>
      calls[1] == Store(payload) && Count(calls, IsWriteBytes) == 0 && Count(calls, IsReadBytes) == iterations
    ensures b.name == ZeroMQName ==> Count(calls, IsWriteBytes) == 1 + Max0(iterations * (size - 1) - 1)
    ensures b.name != MPIName && b.name != ZeroMQName ==> Count(calls, IsWriteBytes) == 1 && Count(calls, IsReadBytes) == 0
  {
    calls := [Barrier];
    if b.name == MPIName {
      calls := calls + [Store(payload)];
    } else {
      calls := calls + [WriteBytes(payload)];
    }
    calls := calls + [Barrier];
    ghost var head := calls;
    if b.name == MPIName {
      for i := 0 to iterations
        invariant calls == head + Repeat(ReadBytes, i)
      {
        RepeatSnoc(ReadBytes, i);
        calls := calls + [ReadBytes];
      }
    } else if b.name == ZeroMQName {
      var numMessages := iterations * (size - 1);
      var i := 0;
      while i < numMessages - 1
        invariant 0 <= i && (i <= numMessages - 1 || i == 0)
        invariant calls == head + Repeat(WriteBytes(payload), i)
      {
        RepeatSnoc(WriteBytes(payload), i);
        calls := calls + [WriteBytes(payload)];
        i := i + 1;
      }
      assert i == SharedResends(b, size, iterations);
    } else {
      assert calls == head + Repeat(WriteBytes(payload), 0);
    }
    calls := calls + [Barrier];
    SharedWriterCounts(b, payload, size, iterations);
  }

  /** The writer's side of the streaming scenario. */
  method WriterStreaming(b: BackendInfo, payload: Bytes, size: nat, iterations: nat) returns (calls: seq<Call>)
    ensures calls == StreamingWriterCalls(b, payload, size, iterations)
    ensures calls[0] == PrepareStream(iterations * (size - 1)) && calls[1] == Barrier
    ensures Count(calls, IsBarrier) == 2 && Count(calls, IsReadBytes) == 0
    ensures Count(calls, IsWriteBytes)
         == if b.streaming && b.name != MPIName then Max0(iterations * (size - 1)) else iterations
  {
    calls := [PrepareStream(iterations * (size - 1)), Barrier];
    ghost var head := calls;
    var numMessages: int;
    if b.streaming {
      if b.name == MPIName {
        numMessages := iterations;
      } else {
        numMessages := iterations * (size - 1);
      }
    } else {
      numMessages := iterations;
    }
    var i := 0;
    while i < numMessages
      invariant 0 <= i && (i <= numMessages || i == 0)
      invariant calls == head + Repeat(WriteBytes(payload), i)
    {
      RepeatSnoc(WriteBytes(payload), i);
      calls := calls + [WriteBytes(payload)];
      i := i + 1;
    }
    assert i == StreamingSends(b, size, iterations);
    calls := calls + [Barrier];
    StreamingCounts(b, payload, size, iterations);
  }

  /** run_scenario_shared on one rank: returns its result, its calls, and
      what it does with the last read after the loop. */
  method RunScenarioShared(b: BackendInfo, data: Option<Dict>, rank: nat, size: nat, iterations: nat,
                           encode: Option<Dict> -> Bytes, recv: nat -> Option<Bytes>)
    returns (result: BenchmarkResult, calls: seq<Call>, decode: DecodeStep)
    ensures result.backendName == b.name && result.dataSize == DataLen(data)
    ensures result.rank == rank && result.scenario == "shared"
    ensures rank == 0 ==>
      calls == SharedWriterCalls(b, encode(data), size, iterations) && result.readCount == 0 && decode == Skipped
    ensures rank != 0 ==>
      calls == SharedReaderCalls(iterations) &&
      result.readCount == CountPresent(recv, iterations) && result.readCount <= iterations &&
      decode == DecodeLast(result.readCount, LastRead(recv, iterations))
    // The unguarded deserialise of the source fails exactly when an earlier
    // read returned data and the last one did not.
    ensures rank != 0 ==>
      (SharedDecodeAsWritten(result.readCount, LastRead(recv, iterations)) == DecodeMissing
       <==> result.readCount > 0 && LastRead(recv, iterations).None?)
  {
    var readCount := 0;
    decode := Skipped;
    if rank == 0 {
      var serialized := encode(data);
      calls := WriterShared(b, serialized, size, iterations);
    } else {
      var loopCalls, last;
      loopCalls, readCount, last := ReadLoop(iterations, recv);
      calls := [Barrier, Barrier] + loopCalls + [Barrier];
      decode := DecodeLast(readCount, last);
    }
    result := BenchmarkResult(b.name, DataLen(data), rank, "shared", readCount);
  }

  /** run_scenario_streaming on one rank. */
  method RunScenarioStreaming(b: BackendInfo, data: Option<Dict>, rank: nat, size: nat, iterations: nat,
                              encode: Option<Dict> -> Bytes, recv: nat -> Option<Bytes>)
    returns (result: BenchmarkResult, calls: seq<Call>, decode: DecodeStep)
    ensures result.backendName == b.name && result.dataSize == DataLen(data)
    ensures result.rank == rank && result.scenario == "streaming"
    ensures |calls| >= 2 && calls[0] == PrepareStream(iterations * (size - 1)) && calls[1] == Barrier
    ensures rank == 0 ==>
      calls == StreamingWriterCalls(b, encode(data), size, iterations) && result.readCount == 0 && decode == Skipped
    ensures rank != 0 ==>
      calls == StreamingReaderCalls(size, iterations) &&
      result.readCount == CountPresent(recv, iterations) && result.readCount <= iterations &&
      decode == DecodeLast(result.readCount, LastRead(recv, iterations))
  {
    var readCount := 0;
    decode := Skipped;
    if rank == 0 {
      var serialized := encode(data);
      calls := WriterStreaming(b, serialized, size, iterations);
    } else {
      var loopCalls, last;
      loopCalls, readCount, last := ReadLoop(iterations, recv);
      calls := [PrepareStream(iterations * (size - 1)), Barrier] + loopCalls + [Barrier];
      decode := DecodeLast(readCount, last);
    }
    result := BenchmarkResult(b.name, DataLen(data), rank, "streaming", readCount);
  }

  // ---------------------------------------------------------------------
  // run_benchmark: one backend, every requested scenario
  // ---------------------------------------------------------------------

  predicate KnownScenario(s: string) {
    s == "shared" || s == "streaming"
  }

  /** f"bench_{data_size}": the resource name every rank opens. */
  function ResourceName(dataSize: nat): string {
    "bench_" + Decimal(dataSize)
  }

  /** The writer's serialised test data. */
  function WriterPayload(encode: Option<Dict> -> Bytes, dataSize: nat): Bytes {
    encode(Some(GenerateTestDict(dataSize)))
  }

  /** The writer initialises before the first barrier, the readers after it. */
  function InitCalls(dataSize: nat, isWriter: bool): seq<Call> {
    if isWriter then [Initialize(ResourceName(dataSize), true), Barrier, Barrier]
    else [Barrier, Initialize(ResourceName(dataSize), false), Barrier]
  }

  /** One scenario's calls on a rank. */
  function ScenarioCalls(b: BackendInfo, payload: Bytes, rank: nat, size: nat, iterations: nat, s: string): seq<Call> {
    if s == "shared"
    then (if rank == 0 then SharedWriterCalls(b, payload, size, iterations) else SharedReaderCalls(iterations))
    else (if rank == 0 then StreamingWriterCalls(b, payload, size, iterations) else StreamingReaderCalls(size, iterations))
  }

  /** The calls of a run of the first n scenarios of ss, each followed by a barrier. */
  function ScenariosCalls(b: BackendInfo, payload: Bytes, rank: nat, size: nat, iterations: nat, ss: seq<string>, n: nat): seq<Call>
    requires n <= |ss|
  {
    if n == 0 then []
    else ScenariosCalls(b, payload, rank, size, iterations, ss, n - 1)
         + ScenarioCalls(b, payload, rank, size, iterations, ss[n - 1]) + [Barrier]
  }

  /** What run_benchmark reports for the j-th scenario. */
  function ExpectedResult(b: BackendInfo, dataSize: nat, rank: nat, iterations: nat, recv: nat -> nat -> Option<Bytes>,
                          s: string, j: nat): BenchmarkResult
  {
    BenchmarkResult(b.name, if rank == 0 then dataSize else 0, rank, s,
                    if rank == 0 then 0 else CountPresent(recv(j), iterations))
  }

  /** The results of the first j scenarios, in order. */
  function ExpectedResults(b: BackendInfo, dataSize: nat, rank: nat, iterations: nat, recv: nat -> nat -> Option<Bytes>,
                           scenarios: seq<string>, j: nat): (rs: seq<BenchmarkResult>)
    requires j <= |scenarios|
    ensures |rs| == j
    ensures forall k :: 0 <= k < j ==> rs[k] == ExpectedResult(b, dataSize, rank, iterations, recv, scenarios[k], k)
  {
    if j == 0 then []
    else ExpectedResults(b, dataSize, rank, iterations, recv, scenarios, j - 1)
         + [ExpectedResult(b, dataSize, rank, iterations, recv, scenarios[j - 1], j - 1)]
  }

  /** The body of run_benchmark's scenario loop for the j-th scenario: dispatch
      on its name, then the barrier that ends the iteration. Its calls extend the
      trace of the scenarios before it. */
  method RunScenarioAt(b: BackendInfo, data: Option<Dict>, dataSize: nat, rank: nat, size: nat, iterations: nat,
                       encode: Option<Dict> -> Bytes, recv: nat -> nat -> Option<Bytes>,
                       scenarios: seq<string>, j: nat)
    returns (r: Result<BenchmarkResult>, calls: seq<Call>)
    requires j < |scenarios|
    requires DataLen(data) == (if rank == 0 then dataSize else 0)
    requires rank == 0 ==> encode(data) == WriterPayload(encode, dataSize)
    ensures r.Ok? <==> KnownScenario(scenarios[j])
    ensures r.Err? ==> r.error == UnknownScenario(scenarios[j])
    ensures r.Ok? ==>
      r.value == ExpectedResult(b, dataSize, rank, iterations, recv, scenarios[j], j) &&
      ScenariosCalls(b, WriterPayload(encode, dataSize), rank, size, iterations, scenarios, j + 1)
      == ScenariosCalls(b, WriterPayload(encode, dataSize), rank, size, iterations, scenarios, j) + calls
  {
    var scenario := scenarios[j];
    var result, decode;
    if scenario == "shared" {
      result, calls, decode := RunScenarioShared(b, data, rank, size, iterations, encode, recv(j));
    } else if scenario == "streaming" {
      result, calls, decode := RunScenarioStreaming(b, data, rank, size, iterations, encode, recv(j));
    } else {
      return Err(UnknownScenario(scenario)), [];
    }
    ghost var payload := WriterPayload(encode, dataSize);
    if rank != 0 {
      ReaderCallsIgnorePayload(b, encode(data), payload, rank, size, iterations, scenario);
    }
    calls := calls + [Barrier];
    r := Ok(result);
  }

  /** A reader's calls do not depend on the payload (only the writer serialises). */
  lemma ReaderCallsIgnorePayload(b: BackendInfo, p: Bytes, q: Bytes, rank: nat, size: nat, iterations: nat, s: string)
    requires rank != 0
    ensures ScenarioCalls(b, p, rank, size, iterations, s) == ScenarioCalls(b, q, rank, size, iterations, s)
  {
  }

  /** The start of run_benchmark: the writer creates the resource "bench_<size>" and
      generates the test data before the first barrier, the readers attach to it
      after; a second barrier follows. */
  method SetUp(dataSize: nat, isWriter: bool) returns (calls: seq<Call>, data: Option<Dict>)
    ensures calls == InitCalls(dataSize, isWriter)
    ensures data == if isWriter then Some(GenerateTestDict(dataSize)) else None
  {
    var resource := ResourceName(dataSize);
    if isWriter {
      calls := [Initialize(resource, isWriter)];
      data := Some(GenerateTestDict(dataSize));
      calls := calls + [Barrier];
    } else {
      calls := [Barrier, Initialize(resource, isWriter)];
      data := None;
    }
    calls := calls + [Barrier];
  }

  /** The index of the first scenario name run_benchmark does not know, or the
      number of scenarios when it knows them all. */
  function FirstUnknown(ss: seq<string>): (n: nat)
    ensures n <= |ss|
    ensures forall k :: 0 <= k < n ==> KnownScenario(ss[k])
    ensures n < |ss| ==> !KnownScenario(ss[n])
  {
    if ss == [] || !KnownScenario(ss[0]) then 0 else 1 + FirstUnknown(ss[1..])
  }

  /** run_benchmark's loop over the scenarios, in order. An unknown scenario name
      raises, after the scenarios before it have run. */
  method RunScenarios(b: BackendInfo, data: Option<Dict>, dataSize: nat, rank: nat, size: nat, iterations: nat,
                      encode: Option<Dict> -> Bytes, recv: nat -> nat -> Option<Bytes>, scenarios: seq<string>)
    returns (r: Result<seq<BenchmarkResult>>, calls: seq<Call>)
    requires DataLen(data) == (if rank == 0 then dataSize else 0)
    requires rank == 0 ==> encode(data) == WriterPayload(encode, dataSize)
    ensures r.Ok? <==> FirstUnknown(scenarios) == |scenarios|
    ensures r.Ok? ==>
      r.value == ExpectedResults(b, dataSize, rank, iterations, recv, scenarios, |scenarios|) &&
      calls == ScenariosCalls(b, WriterPayload(encode, dataSize), rank, size, iterations, scenarios, |scenarios|)
    ensures r.Err? ==>
      r.error == UnknownScenario(scenarios[FirstUnknown(scenarios)]) &&
      calls == ScenariosCalls(b, WriterPayload(encode, dataSize), rank, size, iterations, scenarios, FirstUnknown(scenarios))
  {
    var results: seq<BenchmarkResult> := [];
    calls := [];
    var j := 0;
    while j < |scenarios|
      invariant 0 <= j <= |scenarios|
      invariant j <= FirstUnknown(scenarios)
      invariant results == ExpectedResults(b, dataSize, rank, iterations, recv, scenarios, j)
      invariant calls == ScenariosCalls(b, WriterPayload(encode, dataSize), rank, size, iterations, scenarios, j)
    {
      var result, step := RunScenarioAt(b, data, dataSize, rank, size, iterations, encode, recv, scenarios, j);
      if result.Err? {
        return Err(result.error), calls;
      }
      results := results + [result.value];
      calls := calls + step;
      j := j + 1;
    }
    r := Ok(results);
  }

  /** run_benchmark on one rank: set up, run the scenarios, clean up. An unknown
      scenario name raises without the cleanup. */
  method RunBenchmark(b: BackendInfo, dataSize: nat, rank: nat, size: nat, iterations: nat, scenarios: seq<string>,
                      encode: Option<Dict> -> Bytes, recv: nat -> nat -> Option<Bytes>)
    returns (r: Result<seq<BenchmarkResult>>, calls: seq<Call>)
    ensures r.Ok? <==> FirstUnknown(scenarios) == |scenarios|
    ensures r.Ok? ==>
      r.value == ExpectedResults(b, dataSize, rank, iterations, recv, scenarios, |scenarios|) &&
      calls == InitCalls(dataSize, rank == 0)
               + ScenariosCalls(b, WriterPayload(encode, dataSize), rank, size, iterations, scenarios, |scenarios|) + [Cleanup]
    ensures r.Err? ==>
      r.error == UnknownScenario(scenarios[FirstUnknown(scenarios)]) &&
      calls == InitCalls(dataSize, rank == 0)
               + ScenariosCalls(b, WriterPayload(encode, dataSize), rank, size, iterations, scenarios, FirstUnknown(scenarios))
  {
    var init, data := SetUp(dataSize, rank == 0);
    var results, scenarioCalls := RunScenarios(b, data, dataSize, rank, size, iterations, encode, recv, scenarios);
    if results.Err? {
      return results, init + scenarioCalls;
    }
    calls := init + scenarioCalls + [Cleanup];
    r := results;
  }

  /** In one known scenario, the writer and a reader wait at the same number
      of barriers, and on the broadcast backend they make the same number of
      collective calls. */
  lemma ScenarioLockStep(b: BackendInfo, p: Bytes, q: Bytes, rank: nat, size: nat, iterations: nat, s: string)
    requires KnownScenario(s) && rank != 0
    ensures Count(ScenarioCalls(b, p, 0, size, iterations, s), IsBarrier)
         == Count(ScenarioCalls(b, q, rank, size, iterations, s), IsBarrier)
    ensures b.name == MPIName ==>
      Count(ScenarioCalls(b, p, 0, size, iterations, s), IsCollective)
      == Count(ScenarioCalls(b, q, rank, size, iterations, s), IsCollective) == iterations
  {
    var w := if s == "shared" then SharedWriterCalls(b, p, size, iterations) else StreamingWriterCalls(b, p, size, iterations);
    var rd := if s == "shared" then SharedReaderCalls(iterations) else StreamingReaderCalls(size, iterations);
    SharedWriterCounts(b, p, size, iterations);
    SharedReaderCounts(iterations);
    StreamingCounts(b, p, size, iterations);
    if b.name == MPIName {
      BroadcastLockStep(b, p, size, iterations);
    }
  }

  /** The number of calls satisfying p in the first n scenarios of a run, scenario by scenario. */
  function SumCounts(b: BackendInfo, payload: Bytes, rank: nat, size: nat, iterations: nat,
                     ss: seq<string>, n: nat, p: Call -> bool): nat
    requires n <= |ss|
  {
    if n == 0 then 0
    else SumCounts(b, payload, rank, size, iterations, ss, n - 1, p)
         + Count(ScenarioCalls(b, payload, rank, size, iterations, ss[n - 1]), p) + (if p(Barrier) then 1 else 0)
  }

  lemma {:induction false} CountScenarios(b: BackendInfo, payload: Bytes, rank: nat, size: nat, iterations: nat,
                                          ss: seq<string>, n: nat, p: Call -> bool)
    requires n <= |ss|
    ensures Count(ScenariosCalls(b, payload, rank, size, iterations, ss, n), p)
         == SumCounts(b, payload, rank, size, iterations, ss, n, p)
  {
    if n > 0 {
      CountScenarios(b, payload, rank, size, iterations, ss, n - 1, p);
      CountSnoc(ScenariosCalls(b, payload, rank, size, iterations, ss, n - 1),
                ScenarioCalls(b, payload, rank, size, iterations, ss[n - 1]), p);
    }
  }

  /** Over the first n scenarios of a run_benchmark, the writer and every reader
      wait at the same number of barriers. */
  lemma RunBarrierLockStep(b: BackendInfo, p: Bytes, q: Bytes, rank: nat, size: nat, iterations: nat,
                           ss: seq<string>, n: nat)
    requires rank != 0
    requires n <= |ss|
    requires forall j :: 0 <= j < n ==> KnownScenario(ss[j])
    ensures Count(ScenariosCalls(b, p, 0, size, iterations, ss, n), IsBarrier)
         == Count(ScenariosCalls(b, q, rank, size, iterations, ss, n), IsBarrier)
  {
    CountScenarios(b, p, 0, size, iterations, ss, n, IsBarrier);
    CountScenarios(b, q, rank, size, iterations, ss, n, IsBarrier);
    BarrierSums(b, p, q, rank, size, iterations, ss, n);
  }

  lemma {:induction false} BarrierSums(b: BackendInfo, p: Bytes, q: Bytes, rank: nat, size: nat, iterations: nat,
                                       ss: seq<string>, n: nat)
    requires rank != 0
    requires n <= |ss|
    requires forall j :: 0 <= j < n ==> KnownScenario(ss[j])
    ensures SumCounts(b, p, 0, size, iterations, ss, n, IsBarrier)
         == SumCounts(b, q, rank, size, iterations, ss, n, IsBarrier)
  {
    if n > 0 {
      BarrierSums(b, p, q, rank, size, iterations, ss, n - 1);
      ScenarioLockStep(b, p, q, rank, size, iterations, ss[n - 1]);
    }
  }

  /** On the broadcast backend, over the first n scenarios of a run_benchmark the
      writer and every reader make the same number of collective calls:
      n * iterations. */
  lemma RunCollectiveLockStep(b: BackendInfo, p: Bytes, q: Bytes, rank: nat, size: nat, iterations: nat,
                              ss: seq<string>, n: nat)
    requires rank != 0 && b.name == MPIName
    requires n <= |ss|
    requires forall j :: 0 <= j < n ==> KnownScenario(ss[j])
    ensures Count(ScenariosCalls(b, p, 0, size, iterations, ss, n), IsCollective)
         == Count(ScenariosCalls(b, q, rank, size, iterations, ss, n), IsCollective) == n * iterations
  {
    CountScenarios(b, p, 0, size, iterations, ss, n, IsCollective);
    CountScenarios(b, q, rank, size, iterations, ss, n, IsCollective);
    CollectiveSums(b, p, q, rank, size, iterations, ss, n);
  }

  lemma {:induction false} CollectiveSums(b: BackendInfo, p: Bytes, q: Bytes, rank: nat, size: nat, iterations: nat,
                                          ss: seq<string>, n: nat)
    requires rank != 0 && b.name == MPIName
    requires n <= |ss|
    requires forall j :: 0 <= j < n ==> KnownScenario(ss[j])
    ensures SumCounts(b, p, 0, size, iterations, ss, n, IsCollective)
         == SumCounts(b, q, rank, size, iterations, ss, n, IsCollective) == n * iterations
  {
    if n > 0 {
      CollectiveSums(b, p, q, rank, size, iterations, ss, n - 1);
      ScenarioLockStep(b, p, q, rank, size, iterations, ss[n - 1]);
      MulStep(n, iterations);
    }
  }

  /** Counting over a scenario's calls and the barrier after it. */
  lemma CountSnoc(a: seq<Call>, b: seq<Call>, p: Call -> bool)
    ensures Count((a + b) + [Barrier], p) == Count(a, p) + Count(b, p) + (if p(Barrier) then 1 else 0)
  {
    CountAppend(a, b, p);
    CountAppend(a + b, [Barrier], p);
    assert [Barrier][1..] == [];
  }

  lemma MulStep(n: nat, k: nat)
    requires n >= 1
    ensures n * k == (n - 1) * k + k
  {
  }

  // ---------------------------------------------------------------------
  // The order of collective operations on the MPI backend
  // ---------------------------------------------------------------------

  /** A collective operation on COMM_WORLD: a barrier or a broadcast. On the
      MPI backend write_bytes and read_bytes are broadcasts; every other call
      is local to the rank. MPI requires every rank to make the same
      collectives in the same order. */
  datatype Coll = B | Bcast

  function CollOf(c: Call): seq<Coll> {
    if c.Barrier? then [B] else if IsCollective(c) then [Bcast] else []
  }

  /** The collectives a trace makes, in order. */
  function Colls(calls: seq<Call>): seq<Coll> {
    if calls == [] then [] else CollOf(calls[0]) + Colls(calls[1..])
  }

  /** The collectives of a trace are its barriers and its broadcasts. */
  lemma {:induction false} CollsLength(calls: seq<Call>)
    ensures |Colls(calls)| == Count(calls, IsBarrier) + Count(calls, IsCollective)
  {
    if calls != [] {
      CollsLength(calls[1..]);
    }
  }

  function Bcasts(k: nat): seq<Coll> {
    seq(k, _ => Bcast)
  }

  lemma {:induction false} CollsAppend(a: seq<Call>, b: seq<Call>)
    ensures Colls(a + b) == Colls(a) + Colls(b)
  {
    if a == [] {
      assert a + b == b;
    } else {
      assert (a + b)[1..] == a[1..] + b;
      CollsAppend(a[1..], b);
    }
  }

  lemma {:induction false} CollsRepeat(c: Call, k: nat)
    requires IsCollective(c)
    ensures Colls(Repeat(c, k)) == Bcasts(k)
  {
    if k > 0 {
      RepeatSnoc(c, k - 1);
      CollsAppend(Repeat(c, k - 1), [c]);
      CollsRepeat(c, k - 1);
      assert Colls([c]) == [Bcast] by {
        assert [c][1..] == [];
      }
      assert Bcasts(k - 1) + [Bcast] == Bcasts(k);
    }
  }

  /** Collectives of a trace head, k copies of c, tail. */
  lemma CollsShape(head: seq<Call>, c: Call, k: nat, tail: seq<Call>)
    requires IsCollective(c)
    ensures Colls(head + Repeat(c, k) + tail) == Colls(head) + Bcasts(k) + Colls(tail)
  {
    CollsAppend(head + Repeat(c, k), tail);
    CollsAppend(head, Repeat(c, k));
    CollsRepeat(c, k);
  }

  /** Shared scenario on MPI: the writer and every reader make the same
      collectives in the same order, two barriers, one broadcast per
      iteration, and a closing barrier. */
  lemma SharedCollectiveOrder(b: BackendInfo, payload: Bytes, size: nat, iterations: nat)
    requires b.name == MPIName
    ensures Colls(SharedWriterCalls(b, payload, size, iterations))
         == Colls(SharedReaderCalls(iterations))
         == [B, B] + Bcasts(iterations) + [B]
  {
    CollsShape([Barrier, Store(payload), Barrier], ReadBytes, iterations, [Barrier]);
    CollsShape([Barrier, Barrier], ReadBytes, iterations, [Barrier]);
    assert Colls([Barrier, Store(payload), Barrier]) == [B, B] by {
      assert [Barrier, Store(payload), Barrier][1..] == [Store(payload), Barrier];
      assert [Store(payload), Barrier][1..] == [Barrier];
      assert [Barrier][1..] == [];
    }
    assert Colls([Barrier, Barrier]) == [B, B] by {
      assert [Barrier, Barrier][1..] == [Barrier];
      assert [Barrier][1..] == [];
    }
    assert Colls([Barrier]) == [B] by {
      assert [Barrier][1..] == [];
    }
  }

  /** Streaming scenario on MPI: the same order on both sides, a barrier,
      one broadcast per iteration, and a closing barrier. */
  lemma StreamingCollectiveOrder(b: BackendInfo, payload: Bytes, size: nat, iterations: nat)
    requires b.name == MPIName
    ensures Colls(StreamingWriterCalls(b, payload, size, iterations))
         == Colls(StreamingReaderCalls(size, iterations))
         == [B] + Bcasts(iterations) + [B]
  {
    var head: seq<Call> := [PrepareStream(iterations * (size - 1)), Barrier];
    CollsShape(head, WriteBytes(payload), StreamingSends(b, size, iterations), [Barrier]);
    CollsShape(head, ReadBytes, iterations, [Barrier]);
    assert Colls(head) == [B] by {
      assert head[1..] == [Barrier];
      assert [Barrier][1..] == [];
    }
    assert Colls([Barrier]) == [B] by {
      assert [Barrier][1..] == [];
    }
  }

  /** The collectives of one known scenario on MPI: the same on every rank. */
  function ScenarioColls(iterations: nat, s: string): seq<Coll> {
    (if s == "shared" then [B, B] else [B]) + Bcasts(iterations) + [B]
  }

  /** The collectives of the first n scenarios of a run, each followed by
      run_benchmark's barrier: they depend on neither the rank nor the data. */
  function ExpectedColls(iterations: nat, ss: seq<string>, n: nat): seq<Coll>
    requires n <= |ss|
  {
    if n == 0 then [] else ExpectedColls(iterations, ss, n - 1) + ScenarioColls(iterations, ss[n - 1]) + [B]
  }

  lemma ScenarioCollectiveOrder(b: BackendInfo, p: Bytes, rank: nat, size: nat, iterations: nat, s: string)
    requires b.name == MPIName && KnownScenario(s)
    ensures Colls(ScenarioCalls(b, p, rank, size, iterations, s)) == ScenarioColls(iterations, s)
  {
    if s == "shared" {
      SharedCollectiveOrder(b, p, size, iterations);
    } else {
      StreamingCollectiveOrder(b, p, size, iterations);
    }
  }

  /** Over the first n scenarios of a run, on MPI, every rank makes the
      collectives ExpectedColls lists, in that order. */
  lemma {:induction false} ScenariosCollectiveOrder(b: BackendInfo, p: Bytes, rank: nat, size: nat,
                                                    iterations: nat, ss: seq<string>, n: nat)
    requires b.name == MPIName
    requires n <= |ss|
    requires forall j :: 0 <= j < n ==> KnownScenario(ss[j])
    ensures Colls(ScenariosCalls(b, p, rank, size, iterations, ss, n)) == ExpectedColls(iterations, ss, n)
  {
    if n > 0 {
      var before := ScenariosCalls(b, p, rank, size, iterations, ss, n - 1);
      var current := ScenarioCalls(b, p, rank, size, iterations, ss[n - 1]);
      ScenariosCollectiveOrder(b, p, rank, size, iterations, ss, n - 1);
      ScenarioCollectiveOrder(b, p, rank, size, iterations, ss[n - 1]);
      CollsStep(before, current, ExpectedColls(iterations, ss, n - 1), ScenarioColls(iterations, ss[n - 1]));
    }
  }

  lemma CollsStep(before: seq<Call>, current: seq<Call>, e: seq<Coll>, c: seq<Coll>)
    requires Colls(before) == e && Colls(current) == c
    ensures Colls(before + current + [Barrier]) == e + c + [B]
  {
    CollsSnoc(before, current);
  }

  /** Collectives over a scenario's calls and the barrier after it. */
  lemma CollsSnoc(a: seq<Call>, s: seq<Call>)
    ensures Colls(a + s + [Barrier]) == Colls(a) + Colls(s) + [B]
  {
    CollsAppend(a + s, [Barrier]);
    CollsAppend(a, s);
    assert [Barrier][1..] == [];
  }

  /** Setting up is local but for two barriers, on either side. */
  lemma InitColls(dataSize: nat, isWriter: bool)
    ensures Colls(InitCalls(dataSize, isWriter)) == [B, B]
  {
    var init := InitCalls(dataSize, isWriter);
    assert Colls(init[2..]) == [B] by {
      assert init[2..] == [Barrier] && init[2..][1..] == [];
    }
    assert init[1..][1..] == init[2..];
    assert Colls(init[1..]) == CollOf(init[1]) + [B];
  }

  /** Cleanup is local. */
  lemma CollsClosing(a: seq<Call>, s: seq<Call>)
    ensures Colls(a + s) == Colls(a) + Colls(s)
    ensures Colls(a + s + [Cleanup]) == Colls(a) + Colls(s)
  {
    CollsAppend(a, s);
    CollsAppend(a + s, [Cleanup]);
    assert [Cleanup][1..] == [];
  }

  /** A whole run_benchmark on MPI, as RunBenchmark records it on one rank:
      the two set-up barriers, then ExpectedColls, whether the run ends with
      cleanup or stops at an unknown scenario. */
  lemma RunCollectiveOrder(b: BackendInfo, dataSize: nat, p: Bytes, rank: nat, size: nat,
                           iterations: nat, ss: seq<string>, n: nat)
    requires b.name == MPIName
    requires n <= |ss|
    requires forall j :: 0 <= j < n ==> KnownScenario(ss[j])
    ensures Colls(InitCalls(dataSize, rank == 0) + ScenariosCalls(b, p, rank, size, iterations, ss, n))
         == [B, B] + ExpectedColls(iterations, ss, n)
    ensures Colls(InitCalls(dataSize, rank == 0) + ScenariosCalls(b, p, rank, size, iterations, ss, n) + [Cleanup])
         == [B, B] + ExpectedColls(iterations, ss, n)
  {
    ScenariosCollectiveOrder(b, p, rank, size, iterations, ss, n);
    InitColls(dataSize, rank == 0);
    CollsClosing(InitCalls(dataSize, rank == 0), ScenariosCalls(b, p, rank, size, iterations, ss, n));
  }

  /** Lock-step on MPI: the writer's and any reader's run_benchmark make the
      same barriers and broadcasts in the same order, so each collective call
      of one is matched by the same call of the other. */
  lemma RunCollectivesMatch(b: BackendInfo, dataSize: nat, p: Bytes, q: Bytes, rank: nat, size: nat,
                            iterations: nat, ss: seq<string>, n: nat)
    requires b.name == MPIName && rank != 0
    requires n <= |ss|
    requires forall j :: 0 <= j < n ==> KnownScenario(ss[j])
    ensures Colls(InitCalls(dataSize, true) + ScenariosCalls(b, p, 0, size, iterations, ss, n))
         == Colls(InitCalls(dataSize, false) + ScenariosCalls(b, q, rank, size, iterations, ss, n))
    ensures Colls(InitCalls(dataSize, true) + ScenariosCalls(b, p, 0, size, iterations, ss, n) + [Cleanup])
         == Colls(InitCalls(dataSize, false) + ScenariosCalls(b, q, rank, size, iterations, ss, n) + [Cleanup])
  {
    RunCollectiveOrder(b, dataSize, p, 0, size, iterations, ss, n);
    RunCollectiveOrder(b, dataSize, q, rank, size, iterations, ss, n);
  }

  // ---------------------------------------------------------------------
  // main: which backends and scenarios to run
  // ---------------------------------------------------------------------

  /** --scenario: "both" runs shared then streaming. */
  function SelectScenarios(arg: string): seq<string> {
    if arg == "both" then ["shared", "streaming"] else [arg]
  }

  /** --backend: the backend_map lookup, in the map's insertion order for "all". */
  function SelectBackends(arg: string): Option<seq<Backends.Kind>> {
    if arg == "all" then Some([Backends.LMDB, Backends.SharedMemory, Backends.ZeroMQ, Backends.MPINative])
    else if arg == "lmdb" then Some([Backends.LMDB])
    else if arg == "shm" then Some([Backends.SharedMemory])
    else if arg == "zmq" then Some([Backends.ZeroMQ])
    else if arg == "mpi" then Some([Backends.MPINative])
    else None
  }

  /** main runs nothing on fewer than two processes; otherwise the selected backends and scenarios. */
  function Plan(size: nat, backendArg: string, scenarioArg: string): Option<(seq<Backends.Kind>, seq<string>)> {
    if size < 2 then None
    else match SelectBackends(backendArg)
      case None => None
      case Some(ks) => Some((ks, SelectScenarios(scenarioArg)))
  }

  /** Every command line argparse accepts leads to a run in which no scenario is
      unknown to run_benchmark, with at least one backend, no backend twice,
      and at least one reader. */
  lemma PlanIsRunnable(size: nat, backendArg: string, scenarioArg: string)
    requires size >= 2
    requires backendArg in ["lmdb", "shm", "zmq", "mpi", "all"]
    requires scenarioArg in ["shared", "streaming", "both"]
    ensures Plan(size, backendArg, scenarioArg).Some?
    ensures var (ks, ss) := Plan(size, backendArg, scenarioArg).value;
      |ks| >= 1 && (forall i, j :: 0 <= i < j < |ks| ==> ks[i] != ks[j]) &&
      |ss| >= 1 && (forall j :: 0 <= j < |ss| ==> KnownScenario(ss[j])) &&
      (scenarioArg == "both" ==> ss == ["shared", "streaming"])
  {
  }
}
