/** Value types the OpenCL-to-CPU adapter works with: backends, memory layouts,
    blob descriptors, execution contexts and statuses. */
module TnnTypes {

  datatype Option<T> = None | Some(value: T)

  /** The backend a blob, a context or a layer implementation belongs to. */
  datatype DeviceType = Naive | X86 | Arm | OpenCL | Metal | Cuda

  /** Memory layout of a tensor. `Auto` is the sentinel "not yet negotiated". */
  datatype DataFormat = Auto | NCHW | NHWC | NHWC4 | NC4HW4 | NHC4W4 | CNH4

  /** Element type of a tensor, as passed to the capability query. */
  datatype DataType = Float | Half | Int8 | Int32 | BFP16

  /** Layer kinds are an open enumeration of the runtime; only equality matters here. */
  type LayerType = int

  type Dims = seq<int>

  /** The part of a blob descriptor the adapter reads and writes. */
  datatype BlobDesc = BlobDesc(deviceType: DeviceType, dataFormat: DataFormat, dims: Dims)

  /** An execution context, tagged by the backend whose concrete context class it is. */
  datatype Context = Context(deviceType: DeviceType, id: nat)

  /** What a dynamic cast to the OpenCL context class succeeds on. */
  predicate IsOpenCLContext(c: Context) {
    c.deviceType == OpenCL
  }

  /** Status codes the adapter returns; `Other` stands for any code a collaborator reports. */
  datatype Status = TnnOk | ErrOpenCLAccInit | ErrNullParam | Other(code: int)
}
