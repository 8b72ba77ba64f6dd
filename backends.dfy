/** The backend capability interface (IPCBackend) and the four backends that
    implement it, reduced to what the scenario driver can observe of them:
    the name get_name reports and the answer of supports_streaming.

    Every backend offers initialize, write, read (which may return nothing),
    cleanup and get_name; the base class supplies supports_streaming and
    prepare_stream, which a backend may override. The shared-memory and
    MPI backends are modelled in full in their own modules. */
module Backends {
  import opened Outcomes

  datatype Kind = LMDB | SharedMemory | ZeroMQ | MPINative

  const MPIName: string := "MPI-Native"
  const ZeroMQName: string := "ZeroMQ"

  /** get_name of each backend class. */
  function Name(k: Kind): string {
    match k
    case LMDB => "LMDB"
    case SharedMemory => "SharedMemory"
    case ZeroMQ => ZeroMQName
    case MPINative => MPIName
  }

  /** The base class's supports_streaming, used by any backend that does not override it. */
  function DefaultSupportsStreaming(): bool {
    false
  }

  /** The supports_streaming a backend class declares itself, if it declares one.
      The ZeroMQ class declares none, although the base class's documentation
      lists ZeroMQ as a message-passing backend. */
  function StreamingOverride(k: Kind): Option<bool> {
    match k
    case LMDB => Some(false)
    case SharedMemory => Some(false)
    case ZeroMQ => None
    case MPINative => Some(true)
  }

  /** supports_streaming, dispatched as Python does: the override, or else the default. */
  function SupportsStreaming(k: Kind): (r: bool)
    ensures StreamingOverride(k).None? ==> r == DefaultSupportsStreaming()
    ensures r <==> k == MPINative
  {
    match StreamingOverride(k)
    case Some(b) => b
    case None => DefaultSupportsStreaming()
  }

  /** The names identify the backends, so the driver's dispatch by name is unambiguous. */
  lemma NamesIdentifyBackends(a: Kind, b: Kind)
    ensures Name(a) == Name(b) <==> a == b
  {
  }
}
