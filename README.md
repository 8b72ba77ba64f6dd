# IPC benchmark core, modelled in Dafny

The model covers the core of an MPI benchmark of inter-process data-sharing backends. Rank 0, the writer,
serialises a generated test dictionary and makes it available to every other rank, the readers. It does
this through one of four backends: LMDB, POSIX shared memory, ZeroMQ, or native MPI broadcasts. Two
scenarios are run:

- "shared": the writer publishes once and every reader reads the data `iterations` times.
- "streaming": the writer sends and every reader receives `iterations` messages.

The modules are:

- `Outcomes` (outcomes.dfy): `Option`, `Result` and the error cases. Each error case but one stands for
  an exception the source raises. `NoMatchingBroadcast` stands for an MPI receive that has no matching
  broadcast and would block forever.
- `Header` (header.dfy): the shared-memory header, two unsigned 32-bit fields `(data_size, version)`
  packed into 8 bytes. It has a pack/unpack round trip in both directions.
- `SharedMemory` (shm_backend.dfy): the shared-memory backend.
  - `ReadRegion`, `WriteRegion` and `WriteHeaderRegion` are pure functions on the segment's bytes.
  - `SharedMemoryBackend` is a class whose segment is an `array<byte>`, with methods proved equal to
    those functions.
  - `Namespace` is the operating system's table of named segments, so creation, attaching by name and
    unlinking are all modelled.
- `Mpi` (mpi_backend.dfy): the native MPI backend.
  - A `World` holds the sequence of values broadcast from rank 0.
  - Each `MPIBackend` records how many broadcasts it has joined. A reader's `read_bytes` returns the
    broadcast at its position.
- `Backends` (backends.dfy): the base class's default `supports_streaming`, which returns false, and
  which backend overrides it. The base class's no-op `prepare_stream` is the shared-memory backend's
  `PrepareStream`.
- `TestData` (test_data.dfy): `generate_test_dict`, including the decimal rendering of the keys and the
  proof that the keys are distinct.
- `Driver` (driver.dfy): one rank's side of `run_scenario_shared`, `run_scenario_streaming`,
  `run_benchmark` and main's selection of backends and scenarios. Each method returns the
  `BenchmarkResult` (its non-float fields) and the sequence of transport calls it makes.
  - Lemmas count those calls. The main ones are the barriers at which writer and readers must meet and,
    on the MPI backend, the collective `bcast` calls.
  - On the MPI backend, barriers and broadcasts are both collectives on COMM_WORLD, and every rank must
    make them in the same order. `Colls` keeps just those calls of a trace, in order. Lemmas show that
    every rank's run gives the same rank-independent sequence, `ExpectedColls`.
  - What a reader receives is a parameter `recv`: `recv(j)(i)` is the i-th read of the j-th scenario.
  - The serialiser (pickle) is a parameter `encode`.

## Model

| member | source | states |
|---|---|---|
| Header.PackHeader | src/ipc_benchmark/shm_backend.py:62-67 | packing succeeds exactly when both fields fit in 32 bits, yields 8 bytes, and otherwise reports a field overflow (struct.error) |
| Header.UnpackHeader | src/ipc_benchmark/shm_backend.py:69-78 | unpacking succeeds exactly on 8 bytes, gives two values below 2^32, and otherwise reports a short header |
| Header.HeaderRoundTrip | src/ipc_benchmark/shm_backend.py:62-78 | unpacking a packed header returns the two fields that were packed |
| Header.HeaderBytesRoundTrip | src/ipc_benchmark/shm_backend.py:62-78 | packing an unpacked 8-byte header gives back the same 8 bytes |
| SharedMemory.RegionHeader | src/ipc_benchmark/shm_backend.py:69-78 | reading the header fails exactly when the segment is shorter than 8 bytes |
| SharedMemory.ReadRegion | src/ipc_benchmark/shm_backend.py:103-116 | the read fails exactly on a segment shorter than the header; it reads no data exactly when the header's data size is zero; otherwise it returns the bytes after the header, as many as the header says |
| SharedMemory.WriteHeaderRegion | src/ipc_benchmark/shm_backend.py:62-67 | writing the header keeps the segment's length and the bytes after the header; it succeeds exactly when both fields fit and the segment holds a header; on success the header reads back as the two fields, and on failure nothing changes |
| SharedMemory.WriteRegion | src/ipc_benchmark/shm_backend.py:80-101 | a write is refused for capacity exactly when payload plus header exceeds the configured size; every error other than a version overflow leaves the segment unchanged; bytes after the payload are never touched |
| SharedMemory.FreshRegionIsEmpty | src/ipc_benchmark/shm_backend.py:44-50 | a newly created zeroed segment, after its header is written as (0, 0), is unchanged and reads as no data |
| SharedMemory.WriteAtExactCapacity | src/ipc_benchmark/shm_backend.py:87-90 | a payload that exactly fills the segment is accepted, and one byte more is refused for capacity |
| SharedMemory.WriteBumpsVersion | src/ipc_benchmark/shm_backend.py:92-101 | a successful write sets the data size to the payload's length and the version to the old version plus one |
| SharedMemory.ReadAfterWrite | src/ipc_benchmark/shm_backend.py:80-116 | after a successful write, a read returns exactly the payload (no data when the payload is empty) |
| SharedMemory.VersionOverflowIsNotAtomic | src/ipc_benchmark/shm_backend.py:92-101 | at version 2^32-1 the write fails on the header, but the payload bytes have already been copied under the old header |
| SharedMemory.VersionCountsWrites | src/ipc_benchmark/shm_backend.py:80-101 | after a run of successful writes the version has grown by their number and the data size is the last payload's length |
| SharedMemory.Namespace.constructor | src/ipc_benchmark/shm_backend.py:39-60 | the system starts with no named segments |
| SharedMemory.SharedMemoryBackend.constructor | src/ipc_benchmark/shm_backend.py:33-37 | a new backend keeps its configured size and is not attached |
| SharedMemory.SharedMemoryBackend.Initialize | src/ipc_benchmark/shm_backend.py:39-60 | a writer creates a zeroed segment of the configured size and writes header (0, 0), or attaches to an existing one without resetting it; a reader attaches or fails with not found; a non-positive size is refused |
| SharedMemory.SharedMemoryBackend.ReadHeader | src/ipc_benchmark/shm_backend.py:69-78 | not initialised when detached, otherwise the header of the attached segment |
| SharedMemory.SharedMemoryBackend.WriteHeader | src/ipc_benchmark/shm_backend.py:62-67 | the outcome and the new segment contents are those of WriteHeaderRegion on the old contents |
| SharedMemory.SharedMemoryBackend.Write | src/ipc_benchmark/shm_backend.py:80-101 | the outcome and the new segment contents are those of WriteRegion on the old contents |
| SharedMemory.SharedMemoryBackend.Read | src/ipc_benchmark/shm_backend.py:103-116 | not initialised when detached, otherwise ReadRegion of the segment |
| SharedMemory.SharedMemoryBackend.Cleanup | src/ipc_benchmark/shm_backend.py:118-130 | detaches; the writer also unlinks the segment's name; a detached handle changes nothing |
| SharedMemory.SharedMemoryBackend.PrepareStream | src/ipc_benchmark/base.py:57-63 | the inherited prepare_stream changes neither the handle nor the segment |
| SharedMemory.SharedMemoryBackend.GetName | src/ipc_benchmark/shm_backend.py:132-133 | the shared-memory backend's name |
| SharedMemory.SharedMemoryBackend.SupportsStreaming | src/ipc_benchmark/shm_backend.py:135-137 | the shared-memory backend does not stream |
| SharedMemory.WriterToReader | src/ipc_benchmark/shm_backend.py:39-116 | a writer creates a segment, a reader attaches to it by name, the writer writes and the reader reads: both handles share the one segment and the reader gets the payload |
| Mpi.World.constructor | src/ipc_benchmark/mpi_backend.py:46-55 | the communicator starts with no broadcasts |
| Mpi.MPIBackend.constructor | src/ipc_benchmark/mpi_backend.py:40-44 | no communicator and no stored data |
| Mpi.MPIBackend.Initialize | src/ipc_benchmark/mpi_backend.py:46-55 | attaches to the world communicator and records the name and the role |
| Mpi.MPIBackend.Write | src/ipc_benchmark/mpi_backend.py:57-70 | not initialised, not the writer, or success; on success the serialised data is stored and nothing is broadcast |
| Mpi.MPIBackend.WriteBytes | src/ipc_benchmark/mpi_backend.py:97-117 | not initialised, not the writer, or success; on success the data is stored and appended to the broadcasts, and the writer joins that broadcast |
| Mpi.MPIBackend.ReadBytes | src/ipc_benchmark/mpi_backend.py:119-139 | the writer broadcasts its stored data and gets nothing back; a reader gets the broadcast at its position and advances, or finds no matching broadcast |
| Mpi.MPIBackend.Read | src/ipc_benchmark/mpi_backend.py:72-95 | the same collective step as ReadBytes, before deserialisation |
| Mpi.MPIBackend.Cleanup | src/ipc_benchmark/mpi_backend.py:141-148 | drops the communicator and the stored data |
| Mpi.MPIBackend.PrepareStream | src/ipc_benchmark/mpi_backend.py:156-160 | changes nothing |
| Mpi.MPIBackend.GetName | src/ipc_benchmark/mpi_backend.py:150-151 | the MPI backend's name |
| Mpi.MPIBackend.SupportsStreaming | src/ipc_benchmark/mpi_backend.py:153-154 | the MPI backend streams |
| Mpi.DeliverStreamed | src/ipc_benchmark/mpi_backend.py:97-139 | a writer's write_bytes met by a reader's read_bytes delivers the writer's bytes, and both remain in step with the broadcasts |
| Mpi.DeliverStored | src/ipc_benchmark/mpi_backend.py:57-70 | after write, the writer's read_bytes broadcasts the stored data and the reader's read_bytes receives it |
| Backends.SupportsStreaming | src/ipc_benchmark/base.py:48-55 | without an override a backend takes the base default (false); the backends that stream are exactly the MPI backend |
| Backends.NamesIdentifyBackends | src/ipc_benchmark/base.py:44-46 | two backends have the same name exactly when they are the same backend |
| TestData.Decimal | src/ipc_benchmark/utils.py:40-48 | the decimal text of a number is non-empty and all digits, and one character long exactly below ten |
| TestData.DecimalRoundTrip | src/ipc_benchmark/utils.py:40-48 | reading back the decimal text of a number gives the number |
| TestData.DecimalInjective | src/ipc_benchmark/utils.py:40-48 | different numbers have different decimal texts |
| TestData.KeyOfInjective | src/ipc_benchmark/utils.py:41 | the keys key_i differ for different i |
| TestData.GenerateTestDict | src/ipc_benchmark/utils.py:31-48 | size entries (none for a negative size); entry i has key key_i, value i, squared i*i and text test_value_i; the keys are distinct |
| TestData.LookupGenerated | src/ipc_benchmark/utils.py:40-48 | looking up key_i in the generated dictionary finds entry i exactly when 0 <= i < size |
| Driver.CountPresent | benchmark_mpi.py:176-180 | at most k of k reads return data |
| Driver.AllReadsPresent | benchmark_mpi.py:176-180 | read_count equals the number of reads exactly when every read returned data |
| Driver.DecodeLast | benchmark_mpi.py:288-291 | the last read is deserialised exactly when there was a read and it returned data; None is never deserialised |
| Driver.SharedDecodeAsWrittenFails | benchmark_mpi.py:183-185 | two reads, data then nothing: the shared scenario as written deserialises None, the guarded version skips |
| Driver.SharedWriterCounts | benchmark_mpi.py:120-167 | the shared writer waits at 3 barriers; MPI stores and then makes `iterations` read_bytes calls; the other backends send once, plus the ZeroMQ resends |
| Driver.SharedReaderCounts | benchmark_mpi.py:169-197 | a shared reader waits at 3 barriers and makes exactly `iterations` read_bytes calls |
| Driver.StreamingCounts | benchmark_mpi.py:233-302 | in streaming, both roles wait at 2 barriers after prepare_stream; the writer sends StreamingSends messages and the reader makes `iterations` reads |
| Driver.BroadcastLockStep | benchmark_mpi.py:134-281 | on the MPI backend, in both scenarios (shared: lines 134-153 and 175-179; streaming: lines 253-262 and 280-282), writer and reader each make exactly `iterations` broadcast calls; their order is stated by SharedCollectiveOrder and StreamingCollectiveOrder |
| Driver.ZeroMQSharedSends | benchmark_mpi.py:155-166 | on ZeroMQ the shared writer sends iterations * readers messages when that is at least one, and a single message otherwise |
| Driver.StreamingSendsPerBackend | benchmark_mpi.py:253-265 | every backend is sent `iterations` messages in streaming, because only the MPI backend reports streaming support; the names the driver branches on identify MPI and ZeroMQ |
| Driver.ZeroMQStreamingShortfall | benchmark_mpi.py:250-265 | as written, with two or more ZeroMQ readers the streaming writer sends fewer messages than its readers together read |
| Driver.IntendedStreamingServesEveryRead | benchmark_mpi.py:250-265 | with ZeroMQ streaming, as the base class documents, the ZeroMQ writer sends one message per read of all readers together, and every other backend sends one per read of each reader |
| Driver.ReadLoop | benchmark_mpi.py:176-180 | a reader makes exactly `iterations` reads; read_count is the number that returned data, and the last read is kept |
| Driver.WriterShared | benchmark_mpi.py:122-167 | the writer's shared trace, with its barrier, store and send counts per backend |
| Driver.WriterStreaming | benchmark_mpi.py:233-265 | the writer's streaming trace starts with prepare_stream(iterations * readers) and a barrier, then has the per-backend number of sends |
| Driver.RunScenarioShared | benchmark_mpi.py:89-199 | the result carries the backend name, the data length (writer only), the rank and "shared"; the writer reports no reads; a reader reports how many returned data; a reader's unguarded deserialise would fail exactly when data was read earlier and the last read returned nothing |
| Driver.RunScenarioStreaming | benchmark_mpi.py:202-304 | the same for "streaming", with the guarded deserialisation |
| Driver.ExpectedResults | benchmark_mpi.py:347-357 | one result per scenario, in order, each the result of that scenario |
| Driver.RunScenarioAt | benchmark_mpi.py:347-357 | one loop body: an unknown name fails with that name; a known one gives the scenario's result and extends the trace of the earlier scenarios |
| Driver.SetUp | benchmark_mpi.py:331-344 | the writer initialises on bench_<size> and generates the data before the first barrier, the readers initialise after it |
| Driver.FirstUnknown | benchmark_mpi.py:347-357 | the position of the first scenario name that is neither shared nor streaming |
| Driver.RunScenarios | benchmark_mpi.py:347-357 | all scenarios run in order and give their results, or the first unknown name fails after the scenarios before it have run |
| Driver.RunBenchmark | benchmark_mpi.py:307-362 | setup, then the scenarios, each followed by a barrier, then cleanup; an unknown scenario fails without cleanup |
| Driver.ScenarioLockStep | benchmark_mpi.py:89-304 | in each known scenario the writer and a reader meet at the same number of barriers, and on MPI they make the same number of collective calls |
| Driver.CountScenarios | benchmark_mpi.py:347-357 | counting over a run is the sum over its scenarios and their closing barriers |
| Driver.RunBarrierLockStep | benchmark_mpi.py:347-357 | over any run of known scenarios, writer and reader meet at the same number of barriers |
| Driver.RunCollectiveLockStep | benchmark_mpi.py:347-357 | on MPI, over n known scenarios, writer and reader each make n * iterations collective calls |
| Driver.CollsLength | benchmark_mpi.py:89-304 | the collectives of a trace are exactly its barriers and its broadcasts |
| Driver.SharedCollectiveOrder | benchmark_mpi.py:89-199 | on MPI, the shared writer and every shared reader make the same collectives in the same order: two barriers, one broadcast per iteration, a closing barrier |
| Driver.StreamingCollectiveOrder | benchmark_mpi.py:202-304 | on MPI, the streaming writer and every streaming reader make the same collectives in the same order: a barrier, one broadcast per iteration, a closing barrier |
| Driver.ScenarioCollectiveOrder | benchmark_mpi.py:89-304 | on MPI, in a known scenario, every rank's collectives are the scenario's rank-independent sequence |
| Driver.ScenariosCollectiveOrder | benchmark_mpi.py:347-357 | on MPI, over the first n known scenarios of a run, every rank's collectives are ExpectedColls, each scenario followed by run_benchmark's barrier |
| Driver.RunCollectiveOrder | benchmark_mpi.py:307-362 | on MPI, a whole run_benchmark trace on any rank, with or without the final cleanup, makes the two set-up barriers and then ExpectedColls |
| Driver.RunCollectivesMatch | benchmark_mpi.py:307-362 | on MPI, the writer's and any reader's run_benchmark make the same collectives in the same order, so each barrier and broadcast of one is matched by the same call of the other |
| Driver.PlanIsRunnable | benchmark_mpi.py:397-431 | every argument argparse accepts, with two or more processes, selects at least one backend (none twice) and only scenarios run_benchmark knows; "both" is shared then streaming |

## Left out

- Serialisation: pickle is the parameter `encode`, and the model never deserialises. A reader's
  deserialise step is recorded only as whether it would be applied.
- Concurrency: the model shows one rank at a time. Barriers, blocking and tear-free reads of the segment
  are not modelled. Lock-step is stated per rank instead. Each rank's calls are counted, and on MPI each
  rank's collectives are compared in order. A receive after the last broadcast returns an error instead
  of blocking forever.
- The LMDB and ZeroMQ backends are not part of this model. The driver sees them through their names and
  their streaming support. The pickle-5 MPI backend is not part of this model either, and the driver never
  uses it: main's backend_map does not hold it.
- Timings, throughput and the floating-point fields of BenchmarkResult are not modelled. Floats are out
  of scope, so the generated entries' `float` field is omitted.
- main's argument parsing, the gather on rank 0, the JSON output and the printing are left out. Main's
  per-backend loop is modelled only as far as the selection (`Plan`).
- The operating system's rounding of segment sizes up to whole pages is left out. The segment has exactly
  the requested size.
- The native byte order of the header is modelled as little-endian.
- Driver.RunScenarioShared, Driver.RunScenarioStreaming: both scenarios call write_bytes/read_bytes on
  every backend, even though only the MPI backend defines them. The model treats the calls as made; an
  AttributeError on the other backends is not modelled.
- Driver.RunScenarioShared: the shared reader's decode step uses the streaming scenario's guard
  (`DecodeLast`), the corrected half of the first finding below. The TypeError that the source's unguarded
  deserialise raises, which would end the scenario and skip the cleanup in run_benchmark, is not part of
  the result. The method's contract states exactly when that TypeError would occur.
- Driver.RunBenchmark: negative sizes and iteration counts are excluded by the `nat` type.
- Backends.SupportsStreaming and Driver.Info keep the code's streaming support, in which ZeroMQ does not
  stream (second finding below). The driver's methods are stated for any backend description, so they
  also cover a ZeroMQ backend that streams (`Driver.IntendedInfo`).

## Findings

| source | as written | input that shows it | evidently intended | confidence | as-written member | corrected member |
|---|---|---|---|---|---|---|
| benchmark_mpi.py:183-185 | a shared reader deserialises the last raw value whenever read_count > 0, without checking that it is not None | two reads, the first returning data and the second returning None: read_count is 1 and None is passed to deserialize, which raises TypeError | the guard of the streaming scenario at line 288, which deserialises only data that is present | low, not executed (no shipped backend's read_bytes returns None on a reader) | Driver.SharedDecodeAsWrittenFails | Driver.DecodeLast |
| benchmark_mpi.py:250-265 | the streaming writer sends iterations * readers messages only when supports_streaming is true, and ZeroMQ takes the base class's false, so it sends `iterations` messages | three processes (two readers) on ZeroMQ with iterations = 1: the writer sends 1 message, but the two readers make 2 reads, and the second one finds nothing | the comments at lines 250 and 258 and the docstring at src/ipc_benchmark/base.py:52-53 say ZeroMQ is a message-passing backend that is sent iterations * readers messages | low, not executed (the ZeroMQ backend does not define write_bytes/read_bytes, so the streaming scenario cannot run on it) | Driver.ZeroMQStreamingShortfall | Driver.IntendedStreamingServesEveryRead |
