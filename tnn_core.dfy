/**
 * The TNN value types the runtime works with: status codes, device and element kinds,
 * blob descriptors, device blobs, host mats and mat conversion parameters.
 */
module TnnCore {

  /** A non-zero status code; code 0 is `TNN_OK` and only `Ok` carries it. */
  type ErrorCode = c: int | c != 0 witness 1

  /** A TNN status: `TNN_OK`, or an error with its numeric code. */
  datatype Status = Ok | Error(code: ErrorCode)

  datatype DeviceType = DeviceNaive | DeviceArm | DeviceOpenCL | DeviceMetal | DeviceCuda | DeviceX86

  /** Element types of a blob or of a mat buffer. */
  datatype DataType = DataTypeFloat | DataTypeHalf | DataTypeInt8 | DataTypeInt32

  /** Byte width of one element of the given type. */
  function BytesSize(t: DataType): nat
  {
    match t
    case DataTypeFloat => 4
    case DataTypeHalf => 2
    case DataTypeInt8 => 1
    case DataTypeInt32 => 4
  }

  /** Host mat formats: dense float tensor, packed 3-channel bytes, single-channel bytes. */
  datatype MatType = NchwFloat | N8UC3 | NGray

  /** Size in bytes of `count` elements of a mat of the given format: 4 bytes per float, 1 otherwise. */
  function MatBytes(t: MatType, count: nat): nat
  {
    if t == NchwFloat then 4 * count else count
  }

  /** Number of elements described by a dims vector: the product of its entries. */
  function Count(dims: seq<nat>): nat
  {
    if dims == [] then 1 else dims[0] * Count(dims[1..])
  }

  datatype BlobDesc = BlobDesc(deviceType: DeviceType, dataType: DataType, dims: seq<nat>)

  /** A device tensor owned by an instance. Its contents are not modelled, only its identity. */
  class Blob {
    const desc: BlobDesc

    constructor (desc: BlobDesc)
      ensures this.desc == desc
    {
      this.desc := desc;
    }
  }

  /**
   * A host buffer with a format tag. `data` holds one slot per element (float mats hold the
   * element value, byte mats the byte value) and `byteSize` is the size of the allocation.
   */
  class Mat {
    const deviceType: DeviceType
    const matType: MatType
    const dims: seq<nat>
    const data: array<real>
    const byteSize: nat

    /** One slot per element, and an allocation of element count times element width. */
    predicate Valid()
    {
      data.Length == Count(dims) && byteSize == MatBytes(matType, Count(dims))
    }

    constructor (deviceType: DeviceType, matType: MatType, dims: seq<nat>, data: array<real>, byteSize: nat)
      ensures this.deviceType == deviceType && this.matType == matType && this.dims == dims
      ensures this.data == data && this.byteSize == byteSize
    {
      this.deviceType := deviceType;
      this.matType := matType;
      this.dims := dims;
      this.data := data;
      this.byteSize := byteSize;
    }
  }

  /** Scale and bias applied per channel when a mat is converted into a blob. */
  datatype ConvertParam = ConvertParam(scale: seq<real>, bias: seq<real>, reverseChannel: bool)

  /** A default-constructed `MatConvertParam`: four unit scales, four zero biases. */
  const DefaultConvertParam: ConvertParam := ConvertParam([1.0, 1.0, 1.0, 1.0], [0.0, 0.0, 0.0, 0.0], false)
}
