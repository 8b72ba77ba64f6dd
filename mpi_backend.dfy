/** The collective-broadcast backend (MPIBackend). A broadcast is modelled
    by its effect on the order of collective calls: the root (the writer)
    appends the value it sends to the World's broadcast log, and every other
    rank takes the next entry of that log that it has not yet joined. */
module Mpi {
  import opened Outcomes
  import opened Header
  import Backends

  /** COMM_WORLD, reduced to the values the root has broadcast so far, in order. */
  class World {
    var broadcasts: seq<Option<Bytes>>

    constructor ()
      ensures broadcasts == []
    {
      broadcasts := [];
    }
  }

  class MPIBackend {
    var comm: World?                   // _comm; null before initialize and after cleanup
    var name: string
    var isWriter: bool
    var serializedData: Option<Bytes>  // _serialized_data
    var joined: nat                    // broadcasts this rank has taken part in

    constructor ()
      ensures comm == null && name == "" && !isWriter && serializedData == None && joined == 0
    {
      comm := null;
      name := "";
      isWriter := false;
      serializedData := None;
      joined := 0;
    }

    method Initialize(name: string, isWriter: bool, world: World)
      modifies this
      ensures comm == world && this.name == name && this.isWriter == isWriter
      ensures serializedData == old(serializedData) && joined == old(joined)
    {
      this.name := name;
      this.isWriter := isWriter;
      comm := world;
    }

    /** write, given the serialised data: stores it for later broadcasts and
        broadcasts nothing itself. */
    method Write(serialized: Bytes) returns (r: Result<()>)
      modifies this
      ensures comm == old(comm) && name == old(name) && isWriter == old(isWriter) && joined == old(joined)
      ensures comm == null ==> r == Err(NotInitialized)
      ensures comm != null && !isWriter ==> r == Err(NotWriter)
      ensures comm != null && isWriter ==> r == Ok(())
      ensures serializedData == if r.Ok? then Some(serialized) else old(serializedData)
    {
      if comm == null {
        return Err(NotInitialized);
      }
      if !isWriter {
        return Err(NotWriter);
      }
      serializedData := Some(serialized);
      r := Ok(());
    }

    /** write_bytes: store the data, then broadcast it once. */
    method WriteBytes(data: Bytes) returns (r: Result<()>)
      modifies this, comm
      ensures comm == old(comm) && name == old(name) && isWriter == old(isWriter)
      ensures comm == null ==> r == Err(NotInitialized)
      ensures comm != null && !isWriter ==> r == Err(NotWriter)
      ensures comm != null && isWriter ==> r == Ok(())
      ensures r.Ok? ==>
        serializedData == Some(data) && joined == old(joined) + 1 &&
        comm.broadcasts == old(comm.broadcasts) + [Some(data)]
      ensures r.Err? ==>
        serializedData == old(serializedData) && joined == old(joined) &&
        (comm != null ==> comm.broadcasts == old(comm.broadcasts))
    {
      if comm == null {
        return Err(NotInitialized);
      }
      if !isWriter {
        return Err(NotWriter);
      }
      serializedData := Some(data);
      comm.broadcasts := comm.broadcasts + [Some(data)];
      joined := joined + 1;
      r := Ok(());
    }

    /** read_bytes: the writer broadcasts the stored data (nothing, if none
        was stored) and returns nothing; a reader returns the next broadcast
        value unchanged. */
    method ReadBytes() returns (r: Result<Option<Bytes>>)
      modifies this, comm
      ensures comm == old(comm) && name == old(name) && isWriter == old(isWriter)
      ensures serializedData == old(serializedData)
      ensures comm == null ==> r == Err(NotInitialized) && joined == old(joined)
      ensures comm != null && isWriter ==>
        r == Ok(None) && joined == old(joined) + 1 &&
        comm.broadcasts == old(comm.broadcasts) + [serializedData]
      ensures comm != null && !isWriter ==>
        comm.broadcasts == old(comm.broadcasts) &&
        if old(joined) < |comm.broadcasts|
        then r == Ok(comm.broadcasts[old(joined)]) && joined == old(joined) + 1
        else r == Err(NoMatchingBroadcast) && joined == old(joined)
    {
      if comm == null {
        return Err(NotInitialized);
      }
      if isWriter {
        comm.broadcasts := comm.broadcasts + [serializedData];
        joined := joined + 1;
        return Ok(None);
      }
      if joined < |comm.broadcasts| {
        r := Ok(comm.broadcasts[joined]);
        joined := joined + 1;
      } else {
        r := Err(NoMatchingBroadcast);
      }
    }

    /** read: the same collective call as read_bytes; a reader's non-empty
        result is what would be deserialised. */
    method Read() returns (r: Result<Option<Bytes>>)
      modifies this, comm
      ensures comm == old(comm) && name == old(name) && isWriter == old(isWriter)
      ensures serializedData == old(serializedData)
      ensures comm == null ==> r == Err(NotInitialized) && joined == old(joined)
      ensures comm != null && isWriter ==>
        r == Ok(None) && joined == old(joined) + 1 &&
        comm.broadcasts == old(comm.broadcasts) + [serializedData]
      ensures comm != null && !isWriter ==>
        comm.broadcasts == old(comm.broadcasts) &&
        if old(joined) < |comm.broadcasts|
        then r == Ok(comm.broadcasts[old(joined)]) && joined == old(joined) + 1
        else r == Err(NoMatchingBroadcast) && joined == old(joined)
    {
      r := ReadBytes();
    }

    /** cleanup: forget the communicator and the stored data. */
    method Cleanup()
      modifies this
      ensures comm == null && serializedData == None
      ensures name == old(name) && isWriter == old(isWriter) && joined == old(joined)
    {
      comm := null;
      serializedData := None;
    }

    /** prepare_stream only logs: no state changes. */
    method PrepareStream(numMessages: int)
      ensures unchanged(this)
    {
    }

    function GetName(): (r: string)
      ensures r == Backends.Name(Backends.MPINative)
    {
      "MPI-Native"
    }

    function SupportsStreaming(): (r: bool)
      ensures r == Backends.SupportsStreaming(Backends.MPINative)
    {
      true
    }
  }

  /** Streaming on the broadcast backend: a write_bytes on the writer and a
      read_bytes on a reader that has joined every earlier broadcast deliver
      the writer's bytes to the reader, and both stay in step. */
  method DeliverStreamed(world: World, writer: MPIBackend, reader: MPIBackend, data: Bytes)
    returns (got: Result<Option<Bytes>>)
    requires writer != reader
    requires writer.comm == world && reader.comm == world && writer.isWriter && !reader.isWriter
    requires writer.joined == reader.joined == |world.broadcasts|
    modifies writer, reader, world
    ensures got == Ok(Some(data))
    ensures writer.joined == reader.joined == |world.broadcasts| == old(|world.broadcasts|) + 1
  {
    var sent := writer.WriteBytes(data);
    got := reader.ReadBytes();
  }

  /** The shared scenario on the broadcast backend: the writer stores the data
      without broadcasting, and each later read_bytes pair (writer, reader)
      delivers the stored bytes. */
  method DeliverStored(world: World, writer: MPIBackend, reader: MPIBackend, data: Bytes)
    returns (got: Result<Option<Bytes>>)
    requires writer != reader
    requires writer.comm == world && reader.comm == world && writer.isWriter && !reader.isWriter
    requires writer.joined == reader.joined == |world.broadcasts|
    modifies writer, reader, world
    ensures got == Ok(Some(data))
    ensures writer.serializedData == Some(data)
    ensures writer.joined == reader.joined == |world.broadcasts| == old(|world.broadcasts|) + 1
  {
    var stored := writer.Write(data);
    var none := writer.ReadBytes();
    got := reader.ReadBytes();
  }
}
