# OpenCL-to-CPU layer adapter

A model of TNN's `OpenCLCpuAdapterAcc`, the OpenCL layer implementation that
runs a layer on a CPU backend when OpenCL has no kernel for it:

- the constructor probes the CPU backends in the fixed priority order Arm, then
  Naive, and binds the first one whose device builds an implementation of the
  layer (with that device's context);
- `Init` rejects an unbound adapter and a context that is not an OpenCL context,
  then appends one host "mirror" blob per device input and output (same dims,
  the bound device type, layout left to negotiate) and initialises the inner
  implementation with the mirror lists;
- `Reshape` copies the device blobs' dims onto the mirrors, index by index, and
  reshapes the inner implementation;
- `Forward` converts every device input into its mirror, runs the inner
  implementation once, then gives every device output its mirror's dims and
  converts the data back; each blob goes straight through the mirror's memory
  when the mirror is planar NCHW, and through a scratch buffer plus a
  four-channel packing transform otherwise;
- `SupportDataFormat` advertises the packed NHC4W4 layout for rank-4 tensors
  only.

Modules:

- `TnnTypes` (`types.dfy`): device types, layouts, blob descriptors, contexts,
  statuses.
- `Trace` (`trace.dfy`): the calls the adapter makes to its collaborators, as
  events; the per-blob marshalling steps of `Forward` and the lemmas about their
  order and branch choice.
- `FallbackSelection` (`fallback.dfy`): the backend registry as a map, the
  selection function and the probe calls, with lemmas on priority and early stop.
- `MirrorBlobs` (`mirrors.dfy`): how `Init` derives mirrors and how dims are
  copied between blob lists.
- `OpenCLCpuAdapter` (`adapter.dfy`): the class `OpenCLCpuAdapterAcc`, whose
  methods update its fields in place as the C++ methods do, plus
  `SupportDataFormat`, and `EndToEnd`, a scenario where only the Naive backend
  offers the layer, the inner Init pins a packed input and a planar rank-2
  output, and one Reshape to `[1, 3, 224, 224]` and one Forward leave the
  device output with the shape the inner implementation chose, converted back
  straight from the planar mirror.

Every collaborator is foreign code here. The registry is a parameter. What the
inner implementation does to the mirrors it is handed is a parameter too:
`InnerInitReply` carries the layouts its Init pins on the mirrors (which Init
creates with the `Auto` layout), and `InnerReply` carries the new output dims
its Forward writes into them. Every call the adapter makes to a collaborator is
appended to the `trace` field, and the contracts speak about that trace. An
output conversion event records the dims the device output carries when the
conversion is issued.

Two behaviours of the code shape the contracts:

- `Init`, `Reshape` and `Forward` return `TnnOk` once they reach the inner
  call, whatever status the inner implementation reports. Their
  `reply.status` / `innerStatus` parameters are ignored.
- The packed branch of `Forward` reads the first four dims of the mirror without
  checking the rank. `Forward` therefore requires every non-NCHW mirror it
  visits to have at least four dims (`Trace.Packable`); planar mirrors of any
  rank are accepted.

## Model

| member | source | states |
|---|---|---|
| OpenCLCpuAdapter.OpenCLCpuAdapterAcc.constructor | source/tnn/device/opencl/acc/opencl_cpu_adapter_acc.cc:22-37 | the adapter is bound to `Select` over `[Arm, Naive]` (the first candidate that offers the layer), its registry calls are exactly `ProbeEvents` over that list, and it starts with no OpenCL context and no mirrors |
| OpenCLCpuAdapter.OpenCLCpuAdapterAcc.Fallback | source/tnn/device/opencl/acc/opencl_cpu_adapter_acc.cc:24-36 | the fallback loop over `[Arm, Naive]` yields exactly `Select` over that list, having made exactly the registry calls `ProbeEvents` |
| OpenCLCpuAdapter.OpenCLCpuAdapterAcc.Probe | source/tnn/device/opencl/acc/opencl_cpu_adapter_acc.cc:26-34 | one round of the fallback loop: the lookup, then the layer request for a registered device, then the context creation on success; it yields a binding exactly when the device offers the layer, and that binding is the device's implementation and context |
| FallbackSelection.Select | source/tnn/device/opencl/acc/opencl_cpu_adapter_acc.cc:24-37 | a selected binding belongs to a candidate that offers the layer and carries its implementation and context; there is no binding if and only if no candidate offers the layer |
| FallbackSelection.SelectFirstOffer | source/tnn/device/opencl/acc/opencl_cpu_adapter_acc.cc:25-33 | when candidate `k` offers the layer and none before it does, the binding is candidate `k`'s |
| FallbackSelection.ProbesStopAtFirstOffer | source/tnn/device/opencl/acc/opencl_cpu_adapter_acc.cc:25-33 | after the first candidate that offers the layer, no later candidate is probed, and the last registry call creates that candidate's context |
| FallbackSelection.ProbesAboutCandidates | source/tnn/device/opencl/acc/opencl_cpu_adapter_acc.cc:25-33 | up to the first offering candidate, every call is a registry call about a candidate probed so far |
| FallbackSelection.ProbesWithoutOffer | source/tnn/device/opencl/acc/opencl_cpu_adapter_acc.cc:25-36 | when no candidate offers the layer, every candidate is looked up and no context is created |
| FallbackSelection.FallbackPriority | source/tnn/device/opencl/acc/opencl_cpu_adapter_acc.cc:24-36 | Arm wins whenever it offers the layer, and then only Arm is probed; Naive is bound only when Arm does not offer the layer; otherwise the adapter stays unbound |
| OpenCLCpuAdapter.OpenCLCpuAdapterAcc.Init | source/tnn/device/opencl/acc/opencl_cpu_adapter_acc.cc:40-69 | unbound: `ErrOpenCLAccInit` and nothing changes; non-OpenCL context: `ErrNullParam`, no context kept, no mirror appended, no inner call; otherwise `TnnOk`, the context kept, one mirror per device blob appended in order, one inner Init with the bound context and the full mirror lists as created, and afterwards the mirrors carry the layouts the inner Init pinned |
| MirrorBlobs.WithFormatsPins | source/tnn/device/opencl/acc/opencl_cpu_adapter_acc.cc:66 | the inner Init's pinning changes only layouts: every mirror keeps its dims and device type, a mirror it names gets that layout, the others keep theirs |
| MirrorBlobs.MirrorsOfMatches | source/tnn/device/opencl/acc/opencl_cpu_adapter_acc.cc:52-64 | Init's mirrors are as many as the device blobs, and the mirror at `i` has blob `i`'s dims, the bound device type and the `Auto` layout |
| MirrorBlobs.CopyDimsAfterMirrorsOf | source/tnn/device/opencl/acc/opencl_cpu_adapter_acc.cc:74-87 | on a fresh adapter, a Reshape with the same device blobs right after Init leaves the mirrors as Init left them, whatever layouts the inner Init pinned (the scenario `OpenCLCpuAdapter.ReshapeRightAfterInit` runs this on the class) |
| OpenCLCpuAdapter.OpenCLCpuAdapterAcc.Reshape | source/tnn/device/opencl/acc/opencl_cpu_adapter_acc.cc:74-91 | the first `|inputs|` mirror inputs and the first `|outputs|` mirror outputs take the device blobs' dims and nothing else changes in them; one inner Reshape with the updated mirror lists; `TnnOk` |
| MirrorBlobs.CopyDimsSyncs | source/tnn/device/opencl/acc/opencl_cpu_adapter_acc.cc:75-87 | after the copy, entry `i < n` has the source's dims, every entry keeps its layout and device type, and entries from `n` on are untouched |
| MirrorBlobs.CopyDimsIdempotent | source/tnn/device/opencl/acc/opencl_cpu_adapter_acc.cc:75-87 | copying the same dims twice is copying them once (two Reshapes with the same shapes leave the mirrors as one does) |
| OpenCLCpuAdapter.OpenCLCpuAdapterAcc.Forward | source/tnn/device/opencl/acc/opencl_cpu_adapter_acc.cc:93-139 | the calls are `ForwardEvents`: the input marshalling, one inner Forward over the mirror lists, then the output marshalling over the mirrors as the inner call left them; every device output `i` ends with its mirror's dims and nothing else in it changes, and its conversion back is issued when it already carries those dims; `TnnOk` |
| OpenCLCpuAdapter.OpenCLCpuAdapterAcc.InputsToHost | source/tnn/device/opencl/acc/opencl_cpu_adapter_acc.cc:97-113 | inputs `0 .. n-1` are converted to the host in index order, each by the step its mirror's layout selects |
| OpenCLCpuAdapter.OpenCLCpuAdapterAcc.RunInner | source/tnn/device/opencl/acc/opencl_cpu_adapter_acc.cc:115 | one inner Forward call over the mirror lists as they stand, after which the mirror outputs carry the dims the inner implementation gave them |
| OpenCLCpuAdapter.OpenCLCpuAdapterAcc.OutputsToDevice | source/tnn/device/opencl/acc/opencl_cpu_adapter_acc.cc:118-136 | in index order, each device output takes its mirror's dims and is then converted back by the step its mirror's layout selects; each conversion event records the device output's dims at issue time, and the contract requires them to be the mirror's dims |
| Trace.StepsShape | source/tnn/device/opencl/acc/opencl_cpu_adapter_acc.cc:97-136 | the marshalling of `n` blobs holds only conversions of one direction, about blobs below `n`, in ascending blob order |
| Trace.StepsEventsFor | source/tnn/device/opencl/acc/opencl_cpu_adapter_acc.cc:97-136 | the marshalling of `n` blobs holds for blob `i` exactly that blob's step when `i < n`, and nothing otherwise |
| Trace.ForwardOrder | source/tnn/device/opencl/acc/opencl_cpu_adapter_acc.cc:97-136 | Forward makes exactly one inner call, preceded only by device-to-host conversions and followed only by host-to-device conversions |
| Trace.ForwardBlobEvents | source/tnn/device/opencl/acc/opencl_cpu_adapter_acc.cc:97-136 | for every blob index, Forward issues exactly the step its mirror's layout selects in each direction, and nothing for indices beyond the blob lists |
| Trace.ForwardInputBranch | source/tnn/device/opencl/acc/opencl_cpu_adapter_acc.cc:103-112 | an input is converted straight into its mirror's memory if and only if the mirror is NCHW, and through a scratch buffer if and only if it is not |
| Trace.ForwardOutputBranch | source/tnn/device/opencl/acc/opencl_cpu_adapter_acc.cc:126-135 | an output is converted straight from its mirror's memory if and only if the mirror is NCHW, and from a scratch buffer if and only if it is not; either conversion is issued on a device output already carrying the mirror's dims |
| OpenCLCpuAdapter.SupportDataFormat | source/tnn/device/opencl/acc/opencl_cpu_adapter_acc.cc:141-147 | at most one layout is advertised, it is NHC4W4, and it is advertised if and only if the rank is 4, whatever the element type |

## Left out

- The OpenCL command-queue lookup (lines 94-95) is not modelled. It is a handle into the OpenCL runtime and only passes through to the conversion calls.
- `BlobConverter::ConvertToMat` / `ConvertFromMat` and the `DataFormatConverter` packing transforms are foreign code that moves float data. They appear only as trace events carrying the blob index, the host buffer used and, for the transforms, the four dims passed. The element data, float arithmetic and the pack/unpack round trip are not modelled.
- The backend registry and the inner CPU implementation are foreign and polymorphic. The registry is a map parameter. The inner implementation is seen only through its statuses, the layouts its Init pins on the mirrors and the output dims its Forward writes into them.
- Which layout the inner implementation pins on a mirror is its own decision. The model takes those layouts as the `InnerInitReply` parameter of `Init`.
- `AbstractLayerAcc::Init` (line 45), the layer parameters and resources, blob memory allocation and the empty destructor carry no behaviour in this file and are not modelled.
- Initial field values come from a header that is not part of this model. The model starts the adapter unbound, with no OpenCL context and empty mirror lists.
- Device input and output blobs are separate values in the model: `inputs` is a sequence and `outputs` is an array. Aliasing between a device input and a device output is not modelled.
- Init, Reshape, Forward: the inner implementation's status is accepted as a parameter and ignored, as the code does.
- Forward: it requires every non-NCHW mirror it visits to have at least four dims (`Trace.Packable`), because the packed branches (source lines 111 and 133) read the first four dims without checking the rank; planar mirrors of any rank are accepted.
- Reshape, Forward: they require the blob lists to be no longer than the mirror lists, and they require a bound adapter (and for Forward, an OpenCL context). The code indexes the mirror lists and dereferences those pointers without checking, so behaviour outside these conditions is undefined.
- Init: a second successful Init appends a second set of mirrors after the first, as the code's `push_back` does. The model keeps that behaviour and does not reset the lists.
- Error statuses are symbolic (`ErrOpenCLAccInit`, `ErrNullParam`). Their numeric codes and messages are not modelled.
