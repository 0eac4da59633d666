/** The OpenCL layer implementation that runs a layer on a CPU backend instead:
    it binds a CPU implementation at construction, mirrors the OpenCL blobs on the
    host at Init, keeps the mirrors' shapes in step at Reshape, and at Forward
    moves the inputs to the host, runs the CPU implementation and moves the
    outputs back. */
module OpenCLCpuAdapter {
  import opened TnnTypes
  import opened Trace
  import opened FallbackSelection
  import opened MirrorBlobs

  /** What the inner CPU implementation's Forward does, as far as the adapter can
      see: the status it reports, and the new dims it writes into the mirror
      outputs it is handed (by index; the others keep theirs). */
  datatype InnerReply = InnerReply(status: Status, resized: map<int, Dims>)

  /** What the inner CPU implementation's Init does, as far as the adapter can
      see: the status it reports, and the layouts it pins on the mirror inputs and
      outputs it is handed (by index; the others keep theirs). */
  datatype InnerInitReply = InnerInitReply(status: Status, inputFormats: map<int, DataFormat>, outputFormats: map<int, DataFormat>)

  /** The mirror outputs after the inner Forward has resized some of them. */
  function AfterInnerForward(outs: seq<BlobDesc>, resized: map<int, Dims>): seq<BlobDesc> {
    seq(|outs|, i requires 0 <= i < |outs| => if i in resized then outs[i].(dims := resized[i]) else outs[i])
  }

  /** The layouts this adapter accepts from the OpenCL side for tensors of rank
      `dimsSize`: the packed NHC4W4 layout for rank 4, nothing otherwise. */
  function SupportDataFormat(dataType: DataType, dimsSize: int): (r: seq<DataFormat>)
    ensures |r| <= 1
    ensures NHC4W4 in r <==> dimsSize == 4
    ensures forall f :: f in r ==> f == NHC4W4
  {
    if dimsSize == 4 then [NHC4W4] else []
  }

  class OpenCLCpuAdapterAcc {
    var implLayerType: LayerType
    /** The bound CPU implementation with its device type and context; None when
        no candidate offered the layer. */
    var binding: Option<Binding>
    /** The OpenCL context Init was given, once the cast to it has been tried. */
    var oclContext: Option<Context>
    /** The mirror blobs, owned by the adapter. */
    var cpuBlobIn: seq<BlobDesc>
    var cpuBlobOut: seq<BlobDesc>
    /** Every call made so far to the registry, the inner implementation and the
        conversion primitives. */
    var trace: seq<Event>

    /** Probes the fallback candidates in priority order and binds the first
        device that builds an implementation of the layer. */
    constructor (registry: Registry, implLayerType: LayerType)
      ensures this.implLayerType == implLayerType
      ensures binding == Select(registry, implLayerType, FallbackDevices)
      ensures trace == ProbeEvents(registry, implLayerType, FallbackDevices)
      ensures oclContext == None && cpuBlobIn == [] && cpuBlobOut == []
    {
      var found, probes := Fallback(registry, implLayerType);
      this.implLayerType := implLayerType;
      binding := found;
      trace := probes;
      oclContext := None;
      cpuBlobIn := [];
      cpuBlobOut := [];
    }

    /** The constructor's fallback loop: probes the candidates in priority order
        and stops at the first one that offers the layer. */
    static method Fallback(registry: Registry, implLayerType: LayerType)
      returns (found: Option<Binding>, probes: seq<Event>)
      ensures found == Select(registry, implLayerType, FallbackDevices)
      ensures probes == ProbeEvents(registry, implLayerType, FallbackDevices)
    {
      var deviceList := FallbackDevices;
      found := None;
      probes := [];
      var i := 0;
      while i < |deviceList|
        invariant 0 <= i <= |deviceList|
        invariant found == None
        invariant probes + ProbeEvents(registry, implLayerType, deviceList[i..]) ==
          ProbeEvents(registry, implLayerType, deviceList)
        invariant Select(registry, implLayerType, deviceList[i..]) == Select(registry, implLayerType, deviceList)
      {
        ProbeRound(registry, implLayerType, deviceList[i..]);
        assert deviceList[i..][1..] == deviceList[i + 1..];
        var step, offered := Probe(registry, implLayerType, deviceList[i]);
        probes := probes + step;
        if offered.Some? {
          found := offered;
          break;
        }
        i := i + 1;
      }
    }

    /** One round of the fallback loop: looks the device up, asks it for an
        implementation of the layer and, when it builds one, creates its context. */
    static method Probe(registry: Registry, implLayerType: LayerType, deviceType: DeviceType)
      returns (events: seq<Event>, offered: Option<Binding>)
      ensures events == ProbeStep(registry, implLayerType, deviceType)
      ensures offered.Some? <==> Offers(registry, deviceType, implLayerType)
      ensures offered.Some? ==> offered.value == BindTo(registry, deviceType, implLayerType)
    {
      events := [GetDevice(deviceType)];
      offered := None;
      if deviceType in registry {
        var device := registry[deviceType];
        events := events + [CreateLayerAcc(deviceType, implLayerType)];
        if implLayerType in device.layerAccs {
          events := events + [CreateContext(deviceType)];
          offered := Some(Binding(deviceType, device.layerAccs[implLayerType], device.context));
        }
      }
    }

    /** Creates one mirror per device input and output and initialises the inner
        implementation with them, which may pin the mirrors' layouts. The inner
        status is not passed on. */
    method Init(context: Context, inputs: seq<BlobDesc>, outputs: seq<BlobDesc>, reply: InnerInitReply)
      returns (status: Status)
      modifies this`oclContext, this`cpuBlobIn, this`cpuBlobOut, this`trace
      ensures binding.None? ==>
        status == ErrOpenCLAccInit && oclContext == old(oclContext) &&
        cpuBlobIn == old(cpuBlobIn) && cpuBlobOut == old(cpuBlobOut) && trace == old(trace)
      ensures binding.Some? && !IsOpenCLContext(context) ==>
        status == ErrNullParam && oclContext == None &&
        cpuBlobIn == old(cpuBlobIn) && cpuBlobOut == old(cpuBlobOut) && trace == old(trace)
      ensures binding.Some? && IsOpenCLContext(context) ==>
        var handedIn := old(cpuBlobIn) + MirrorsOf(inputs, binding.value.deviceType);
        var handedOut := old(cpuBlobOut) + MirrorsOf(outputs, binding.value.deviceType);
        status == TnnOk && oclContext == Some(context) &&
        trace == old(trace) + [InnerInit(binding.value.context, handedIn, handedOut)] &&
        cpuBlobIn == WithFormats(handedIn, reply.inputFormats) &&
        cpuBlobOut == WithFormats(handedOut, reply.outputFormats)
    {
      if binding.None? {
        return ErrOpenCLAccInit;
      }
      if IsOpenCLContext(context) {
        oclContext := Some(context);
      } else {
        oclContext := None;
        return ErrNullParam;
      }
      var dt := binding.value.deviceType;
      var mirrorsIn := cpuBlobIn;
      assert inputs[..0] == [];
      for i := 0 to |inputs|
        modifies {}
        invariant mirrorsIn == old(cpuBlobIn) + MirrorsOf(inputs[..i], dt)
      {
        MirrorsOfNext(inputs, i, dt);
        mirrorsIn := mirrorsIn + [MirrorOf(inputs[i], dt)];
      }
      assert inputs[..|inputs|] == inputs;
      var mirrorsOut := cpuBlobOut;
      assert outputs[..0] == [];
      for i := 0 to |outputs|
        modifies {}
        invariant mirrorsOut == old(cpuBlobOut) + MirrorsOf(outputs[..i], dt)
      {
        MirrorsOfNext(outputs, i, dt);
        mirrorsOut := mirrorsOut + [MirrorOf(outputs[i], dt)];
      }
      assert outputs[..|outputs|] == outputs;
      trace := trace + [InnerInit(binding.value.context, mirrorsIn, mirrorsOut)];
      cpuBlobIn := WithFormats(mirrorsIn, reply.inputFormats);
      cpuBlobOut := WithFormats(mirrorsOut, reply.outputFormats);
      status := TnnOk;
    }

    /** Copies the device blobs' dims onto the mirrors, index by index, and
        reshapes the inner implementation. The inner status is not passed on. */
    method Reshape(inputs: seq<BlobDesc>, outputs: seq<BlobDesc>, innerStatus: Status) returns (status: Status)
      requires binding.Some?
      requires |inputs| <= |cpuBlobIn| && |outputs| <= |cpuBlobOut|
      modifies this`cpuBlobIn, this`cpuBlobOut, this`trace
      ensures cpuBlobIn == CopyDims(old(cpuBlobIn), inputs, |inputs|)
      ensures cpuBlobOut == CopyDims(old(cpuBlobOut), outputs, |outputs|)
      ensures forall i :: 0 <= i < |inputs| ==> cpuBlobIn[i].dims == inputs[i].dims
      ensures forall i :: 0 <= i < |outputs| ==> cpuBlobOut[i].dims == outputs[i].dims
      ensures trace == old(trace) + [InnerReshape(cpuBlobIn, cpuBlobOut)]
      ensures status == TnnOk
    {
      for i := 0 to |inputs|
        invariant |cpuBlobIn| == |old(cpuBlobIn)|
        invariant cpuBlobIn == CopyDims(old(cpuBlobIn), inputs, i)
        invariant cpuBlobOut == old(cpuBlobOut) && trace == old(trace)
      {
        cpuBlobIn := cpuBlobIn[i := cpuBlobIn[i].(dims := inputs[i].dims)];
      }
      for i := 0 to |outputs|
        invariant |cpuBlobOut| == |old(cpuBlobOut)|
        invariant cpuBlobOut == CopyDims(old(cpuBlobOut), outputs, i)
        invariant cpuBlobIn == CopyDims(old(cpuBlobIn), inputs, |inputs|) && trace == old(trace)
      {
        cpuBlobOut := cpuBlobOut[i := cpuBlobOut[i].(dims := outputs[i].dims)];
      }
      CopyDimsSyncs(old(cpuBlobIn), inputs, |inputs|);
      CopyDimsSyncs(old(cpuBlobOut), outputs, |outputs|);
      trace := trace + [InnerReshape(cpuBlobIn, cpuBlobOut)];
      status := TnnOk;
    }

    /** Moves every input to its mirror, runs the inner implementation once, then
        gives every device output its mirror's dims and moves the data back. The
        inner status is not passed on. */
    method Forward(inputs: seq<BlobDesc>, outputs: array<BlobDesc>, reply: InnerReply) returns (status: Status)
      requires binding.Some? && oclContext.Some?
      requires |inputs| <= |cpuBlobIn| && outputs.Length <= |cpuBlobOut|
      requires PackableUpTo(cpuBlobIn, |inputs|)
      requires PackableUpTo(AfterInnerForward(cpuBlobOut, reply.resized), outputs.Length)
      modifies this`cpuBlobOut, this`trace, outputs
      ensures cpuBlobOut == AfterInnerForward(old(cpuBlobOut), reply.resized)
      ensures outputs[..] == CopyDims(old(outputs[..]), cpuBlobOut, outputs.Length)
      ensures forall i :: 0 <= i < outputs.Length ==> outputs[i].dims == cpuBlobOut[i].dims
      ensures trace == old(trace) + ForwardEvents(cpuBlobIn, |inputs|, old(cpuBlobOut), cpuBlobOut, outputs.Length)
      ensures status == TnnOk
    {
      ghost var inputSteps := Steps(DeviceToHost, cpuBlobIn, |inputs|);
      InputsToHost(|inputs|);
      ghost var handed := cpuBlobOut;
      RunInner(reply);
      ghost var outputSteps := Steps(HostToDevice, cpuBlobOut, outputs.Length);
      OutputsToDevice(outputs);
      AppendThree(old(trace), inputSteps, [InnerForward(cpuBlobIn, handed)], outputSteps);
      status := TnnOk;
    }

    /** The inner implementation's Forward over the mirror lists, which may give
        some mirror outputs new dims. */
    method RunInner(reply: InnerReply)
      modifies this`cpuBlobOut, this`trace
      ensures trace == old(trace) + [InnerForward(cpuBlobIn, old(cpuBlobOut))]
      ensures cpuBlobOut == AfterInnerForward(old(cpuBlobOut), reply.resized)
    {
      trace := trace + [InnerForward(cpuBlobIn, cpuBlobOut)];
      cpuBlobOut := AfterInnerForward(cpuBlobOut, reply.resized);
    }

    /** The input half of Forward: converts device inputs 0 .. n-1 to the host,
        each straight into its planar mirror or through a scratch buffer and a
        packing transform. */
    method InputsToHost(n: nat)
      requires n <= |cpuBlobIn| && PackableUpTo(cpuBlobIn, n)
      modifies this`trace
      ensures trace == old(trace) + Steps(DeviceToHost, cpuBlobIn, n)
    {
      for i := 0 to n
        invariant trace == old(trace) + Steps(DeviceToHost, cpuBlobIn, i)
      {
        ghost var prior := trace;
        var cpuInput := cpuBlobIn[i];
        var dims := cpuInput.dims;
        if cpuInput.dataFormat == NCHW {
          trace := trace + [ConvertToMat(i, MirrorMemory)];
        } else {
          trace := trace + [ConvertToMat(i, Scratch)];
          trace := trace + [NCHWToNCHW4(i, dims[0], dims[1], dims[2], dims[3])];
        }
        assert trace == prior + Step(DeviceToHost, i, cpuInput);
        AppendStep(old(trace), Steps(DeviceToHost, cpuBlobIn, i), Step(DeviceToHost, i, cpuInput));
      }
    }

    /** The output half of Forward: gives each device output its mirror's dims,
        then converts the data back, straight from a planar mirror or through an
        unpacking transform into a scratch buffer. */
    method OutputsToDevice(outputs: array<BlobDesc>)
      requires outputs.Length <= |cpuBlobOut| && PackableUpTo(cpuBlobOut, outputs.Length)
      modifies this`trace, outputs
      ensures outputs[..] == CopyDims(old(outputs[..]), cpuBlobOut, outputs.Length)
      ensures forall i :: 0 <= i < outputs.Length ==> outputs[i].dims == cpuBlobOut[i].dims
      ensures trace == old(trace) + Steps(HostToDevice, cpuBlobOut, outputs.Length)
    {
      for i := 0 to outputs.Length
        invariant trace == old(trace) + Steps(HostToDevice, cpuBlobOut, i)
        invariant outputs[..] == CopyDims(old(outputs[..]), cpuBlobOut, i)
      {
        ghost var prior := trace;
        var cpuOutput := cpuBlobOut[i];
        var dims := cpuOutput.dims;
        CopyDimsNext(old(outputs[..]), cpuBlobOut, i);
        outputs[i] := outputs[i].(dims := dims);
        if cpuOutput.dataFormat == NCHW {
          trace := trace + [ConvertFromMat(i, MirrorMemory, outputs[i].dims)];
        } else {
          trace := trace + [NCHW4ToNCHW(i, dims[0], dims[1], dims[2], dims[3])];
          trace := trace + [ConvertFromMat(i, Scratch, outputs[i].dims)];
        }
        assert trace == prior + Step(HostToDevice, i, cpuOutput);
        AppendStep(old(trace), Steps(HostToDevice, cpuBlobOut, i), Step(HostToDevice, i, cpuOutput));
      }
      CopyDimsSyncs(old(outputs[..]), cpuBlobOut, outputs.Length);
    }
  }

  /** On a fresh adapter, a Reshape with the very blobs a successful Init was given
      leaves the mirrors exactly as Init left them, layouts pinned by the inner
      Init included. */
  method ReshapeRightAfterInit(registry: Registry, layer: LayerType, context: Context,
                               inputs: seq<BlobDesc>, outputs: seq<BlobDesc>, reply: InnerInitReply)
  {
    var acc := new OpenCLCpuAdapterAcc(registry, layer);
    var status := acc.Init(context, inputs, outputs, reply);
    if status == TnnOk {
      var dt := acc.binding.value.deviceType;
      assert [] + MirrorsOf(inputs, dt) == MirrorsOf(inputs, dt);
      assert [] + MirrorsOf(outputs, dt) == MirrorsOf(outputs, dt);
      CopyDimsAfterMirrorsOf(inputs, dt, reply.inputFormats);
      CopyDimsAfterMirrorsOf(outputs, dt, reply.outputFormats);
      var mirrorsIn, mirrorsOut := acc.cpuBlobIn, acc.cpuBlobOut;
      status := acc.Reshape(inputs, outputs, TnnOk);
      assert acc.cpuBlobIn == mirrorsIn && acc.cpuBlobOut == mirrorsOut;
    }
  }

  /** A layer only the lowest-priority candidate offers: the adapter binds it; the
      inner Init pins a packed layout on the mirror input and the planar layout on
      the rank-2 mirror output; after one Reshape and one Forward the device output
      carries the shape the inner implementation gave its mirror, and was
      converted back straight from the planar mirror. */
  method EndToEnd()
  {
    var layer: LayerType := 7;
    var cpuContext := Context(Naive, 1);
    var registry: Registry := map[Naive := Device(map[layer := 3], cpuContext)];
    FallbackPriority(registry, layer);
    var acc := new OpenCLCpuAdapterAcc(registry, layer);
    assert acc.binding == Some(Binding(Naive, 3, cpuContext));

    var input := BlobDesc(OpenCL, NHC4W4, [1, 3, 1, 1]);
    var output := BlobDesc(OpenCL, NCHW, [1, 1]);
    var status := acc.Init(Context(OpenCL, 2), [input], [output], InnerInitReply(TnnOk, map[0 := NC4HW4], map[0 := NCHW]));
    assert status == TnnOk && |acc.cpuBlobIn| == 1 && |acc.cpuBlobOut| == 1;
    assert acc.cpuBlobIn[0] == BlobDesc(Naive, NC4HW4, [1, 3, 1, 1]);
    assert acc.cpuBlobOut[0] == BlobDesc(Naive, NCHW, [1, 1]);

    var shaped := input.(dims := [1, 3, 224, 224]);
    status := acc.Reshape([shaped], [output], Other(-1));
    assert status == TnnOk && acc.cpuBlobIn[0].dims == [1, 3, 224, 224];

    var outputs := new BlobDesc[1](_ => output);
    ghost var before := acc.trace;
    ghost var handed := acc.cpuBlobOut;
    status := acc.Forward([shaped], outputs, InnerReply(TnnOk, map[0 := [1, 1000]]));
    assert outputs[0].dims == [1, 1000];
    ForwardOutputBranch(acc.cpuBlobIn, 1, handed, acc.cpuBlobOut, 1, 0);
    assert ConvertFromMat(0, MirrorMemory, [1, 1000]) in acc.trace[|before|..];
  }
}
