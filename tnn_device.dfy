/**
 * The collaborators the runtime drives but whose code is not modelled: the execution
 * instance and the blob converter. Their outcomes are injected (`Backend`), and the device
 * work they enqueue is recorded, in order, on the instance's command queue.
 */
module TnnDevice {
  import opened TnnCore

  /** A unit of device work, in the order it was enqueued. */
  datatype Op =
    | ConvertFromMat(blob: Blob, mat: Mat, param: ConvertParam)
    | Forward

  /** The device stream of an instance: the ordered record of what was enqueued on it. */
  class CommandQueue {
    var ops: seq<Op>

    constructor ()
      ensures ops == []
    {
      ops := [];
    }
  }

  /**
   * What the device side of an instance does: the status `Init` reports, the input and
   * output blobs it then exposes, and the status `Forward` reports.
   */
  datatype Backend = Backend(
    initStatus: Status,
    inputBlobs: map<string, Blob>,
    outputBlobs: map<string, Blob>,
    forwardStatus: Status)

  class Instance {
    const backend: Backend
    const queue: CommandQueue
    var initialized: bool
    var inputShapes: map<string, seq<nat>>

    constructor (backend: Backend)
      ensures this.backend == backend && fresh(queue) && queue.ops == [] && !initialized
    {
      this.backend := backend;
      queue := new CommandQueue();
      initialized := false;
      inputShapes := map[];
    }

    /** Builds the device graph for the given input shapes; reports the backend's status. */
    method Init(inputShapes: map<string, seq<nat>>) returns (status: Status)
      modifies this
      ensures status == backend.initStatus
      ensures initialized == (status == Ok) && this.inputShapes == inputShapes
    {
      this.inputShapes := inputShapes;
      status := backend.initStatus;
      initialized := status == Ok;
    }

    method GetAllInputBlobs() returns (blobs: map<string, Blob>)
      requires initialized
      ensures blobs == backend.inputBlobs
    {
      blobs := backend.inputBlobs;
    }

    method GetAllOutputBlobs() returns (blobs: map<string, Blob>)
      requires initialized
      ensures blobs == backend.outputBlobs
    {
      blobs := backend.outputBlobs;
    }

    method GetCommandQueue() returns (q: CommandQueue)
      ensures q == queue
    {
      q := queue;
    }

    /** Enqueues the whole graph on the instance's own stream; reports the backend's status. */
    method Forward() returns (status: Status)
      requires initialized
      modifies queue
      ensures queue.ops == old(queue.ops) + [Op.Forward]
      ensures status == backend.forwardStatus
    {
      queue.ops := queue.ops + [Op.Forward];
      status := backend.forwardStatus;
    }
  }

  /** A converter bound, for its whole life, to one blob. */
  class BlobConverter {
    const blob: Blob

    constructor (blob: Blob)
      ensures this.blob == blob
    {
      this.blob := blob;
    }

    /** Enqueues the conversion of `mat` into the bound blob, with `param`, on `queue`. */
    method ConvertFromMatAsync(mat: Mat, param: ConvertParam, queue: CommandQueue)
      modifies queue
      ensures queue.ops == old(queue.ops) + [ConvertFromMat(blob, mat, param)]
    {
      queue.ops := queue.ops + [ConvertFromMat(blob, mat, param)];
    }
  }
}
