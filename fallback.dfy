/** Choosing the CPU backend that runs a layer the OpenCL backend has no kernel
    for: the candidates are probed in a fixed priority order and the first one
    that yields a layer implementation is bound. */
module FallbackSelection {
  import opened TnnTypes
  import opened Trace

  /** A layer implementation handed out by a device (an opaque reference). */
  type AccHandle = nat

  /** What the registry knows of one device: the layer types it can build an
      implementation for, and the context its CreateContext returns. */
  datatype Device = Device(layerAccs: map<LayerType, AccHandle>, context: Context)

  /** GetDevice: a device type is registered exactly when it is a key. */
  type Registry = map<DeviceType, Device>

  /** The device type, inner implementation and context the adapter binds to. */
  datatype Binding = Binding(deviceType: DeviceType, acc: AccHandle, context: Context)

  /** The candidates, highest priority first. */
  const FallbackDevices: seq<DeviceType> := [Arm, Naive]

  /** The device is registered and builds a non-null implementation of the layer. */
  predicate Offers(registry: Registry, d: DeviceType, layer: LayerType) {
    d in registry && layer in registry[d].layerAccs
  }

  function BindTo(registry: Registry, d: DeviceType, layer: LayerType): Binding
    requires Offers(registry, d, layer)
  {
    Binding(d, registry[d].layerAccs[layer], registry[d].context)
  }

  /** The binding the fallback loop establishes, if any. */
  function Select(registry: Registry, layer: LayerType, candidates: seq<DeviceType>): (r: Option<Binding>)
    ensures r.Some? ==>
      r.value.deviceType in candidates && Offers(registry, r.value.deviceType, layer) &&
      r.value == BindTo(registry, r.value.deviceType, layer)
    ensures r.None? <==> forall k :: 0 <= k < |candidates| ==> !Offers(registry, candidates[k], layer)
    decreases |candidates|
  {
    if candidates == [] then None
    else if Offers(registry, candidates[0], layer) then Some(BindTo(registry, candidates[0], layer))
    else Select(registry, layer, candidates[1..])
  }

  /** The registry calls made for one candidate: the device lookup, then, for a
      registered device, the layer request, then, on success, the context creation. */
  function ProbeStep(registry: Registry, layer: LayerType, d: DeviceType): seq<Event> {
    [GetDevice(d)] +
    if d in registry then
      [CreateLayerAcc(d, layer)] + (if layer in registry[d].layerAccs then [CreateContext(d)] else [])
    else []
  }

  /** The registry calls the fallback loop makes, stopping after the first success. */
  function ProbeEvents(registry: Registry, layer: LayerType, candidates: seq<DeviceType>): seq<Event>
    decreases |candidates|
  {
    if candidates == [] then []
    else
      var rest := if Offers(registry, candidates[0], layer) then [] else ProbeEvents(registry, layer, candidates[1..]);
      ProbeStep(registry, layer, candidates[0]) + rest
  }

  /** One round of the fallback loop: probe the first candidate, and stop there
      exactly when it offers the layer. */
  lemma ProbeRound(registry: Registry, layer: LayerType, candidates: seq<DeviceType>)
    requires candidates != []
    ensures ProbeEvents(registry, layer, candidates) ==
      ProbeStep(registry, layer, candidates[0]) +
      (if Offers(registry, candidates[0], layer) then [] else ProbeEvents(registry, layer, candidates[1..]))
    ensures Select(registry, layer, candidates) ==
      if Offers(registry, candidates[0], layer) then Some(BindTo(registry, candidates[0], layer))
      else Select(registry, layer, candidates[1..])
  {
  }

  /** The binding is that of the first candidate that offers the layer. */
  lemma {:induction false} SelectFirstOffer(registry: Registry, layer: LayerType, candidates: seq<DeviceType>, k: nat)
    requires k < |candidates| && Offers(registry, candidates[k], layer)
    requires forall j :: 0 <= j < k ==> !Offers(registry, candidates[j], layer)
    ensures Select(registry, layer, candidates) == Some(BindTo(registry, candidates[k], layer))
    decreases k
  {
    if k > 0 {
      SelectFirstOffer(registry, layer, candidates[1..], k - 1);
    }
  }

  /** The calls made for one candidate are all registry calls about it. */
  lemma ProbeStepAbout(registry: Registry, layer: LayerType, d: DeviceType)
    ensures forall e :: e in ProbeStep(registry, layer, d) ==> IsProbe(e) && e.device == d
  {
  }

  /** Once a candidate offers the layer, no later candidate is probed: the calls
      are those made for the candidates up to and including it, and the last one
      creates the bound device's context. */
  lemma {:induction false} ProbesStopAtFirstOffer(registry: Registry, layer: LayerType, candidates: seq<DeviceType>, k: nat)
    requires k < |candidates| && Offers(registry, candidates[k], layer)
    requires forall j :: 0 <= j < k ==> !Offers(registry, candidates[j], layer)
    ensures ProbeEvents(registry, layer, candidates) == ProbeEvents(registry, layer, candidates[..k + 1])
    ensures |ProbeEvents(registry, layer, candidates)| > 0 &&
      ProbeEvents(registry, layer, candidates)[|ProbeEvents(registry, layer, candidates)| - 1] == CreateContext(candidates[k])
    decreases k
  {
    var step := ProbeStep(registry, layer, candidates[0]);
    if k == 0 {
      assert candidates[..1] == [candidates[0]];
      assert ProbeEvents(registry, layer, candidates) == step;
      assert ProbeEvents(registry, layer, candidates[..1]) == step;
    } else {
      var rest := candidates[1..];
      ProbesStopAtFirstOffer(registry, layer, rest, k - 1);
      assert candidates[..k + 1] == [candidates[0]] + rest[..k];
      assert candidates[..k + 1][1..] == rest[..k];
      var tail := ProbeEvents(registry, layer, rest);
      assert ProbeEvents(registry, layer, candidates) == step + tail;
      assert ProbeEvents(registry, layer, candidates[..k + 1]) == step + tail;
    }
  }

  /** Until a candidate offers the layer, every call is a registry call about one
      of the candidates probed so far. */
  lemma {:induction false} ProbesAboutCandidates(registry: Registry, layer: LayerType, candidates: seq<DeviceType>, k: nat)
    requires k < |candidates| && Offers(registry, candidates[k], layer)
    requires forall j :: 0 <= j < k ==> !Offers(registry, candidates[j], layer)
    ensures forall e :: e in ProbeEvents(registry, layer, candidates) ==> IsProbe(e) && e.device in candidates[..k + 1]
    decreases k
  {
    var step := ProbeStep(registry, layer, candidates[0]);
    ProbeStepAbout(registry, layer, candidates[0]);
    if k == 0 {
      assert ProbeEvents(registry, layer, candidates) == step;
    } else {
      var rest := candidates[1..];
      ProbesAboutCandidates(registry, layer, rest, k - 1);
      assert candidates[..k + 1] == [candidates[0]] + rest[..k];
      var tail := ProbeEvents(registry, layer, rest);
      assert ProbeEvents(registry, layer, candidates) == step + tail;
      forall e | e in step + tail
        ensures IsProbe(e) && e.device in candidates[..k + 1]
      {
        if e in tail {
          assert e.device in rest[..k];
        }
      }
    }
  }

  /** When no candidate offers the layer, every candidate is looked up and no
      context is created. */
  lemma {:induction false} ProbesWithoutOffer(registry: Registry, layer: LayerType, candidates: seq<DeviceType>)
    requires forall k :: 0 <= k < |candidates| ==> !Offers(registry, candidates[k], layer)
    ensures forall k :: 0 <= k < |candidates| ==> GetDevice(candidates[k]) in ProbeEvents(registry, layer, candidates)
    ensures forall e :: e in ProbeEvents(registry, layer, candidates) ==> IsProbe(e) && !e.CreateContext?
    decreases |candidates|
  {
    if candidates != [] {
      var rest := candidates[1..];
      ProbesWithoutOffer(registry, layer, rest);
      var step := ProbeStep(registry, layer, candidates[0]);
      assert ProbeEvents(registry, layer, candidates) == step + ProbeEvents(registry, layer, rest);
      forall k | 0 <= k < |candidates|
        ensures GetDevice(candidates[k]) in ProbeEvents(registry, layer, candidates)
      {
        if k > 0 {
          assert candidates[k] == rest[k - 1];
        }
      }
    }
  }

  /** The fixed priority list: Arm wins whenever it offers the layer, and Naive
      is bound only when Arm does not offer it. */
  lemma FallbackPriority(registry: Registry, layer: LayerType)
    ensures Offers(registry, Arm, layer) ==>
      Select(registry, layer, FallbackDevices) == Some(BindTo(registry, Arm, layer)) &&
      forall e :: e in ProbeEvents(registry, layer, FallbackDevices) ==> IsProbe(e) && e.device == Arm
    ensures !Offers(registry, Arm, layer) && Offers(registry, Naive, layer) ==>
      Select(registry, layer, FallbackDevices) == Some(BindTo(registry, Naive, layer))
    ensures !Offers(registry, Arm, layer) && !Offers(registry, Naive, layer) ==>
      Select(registry, layer, FallbackDevices) == None
  {
    if Offers(registry, Arm, layer) {
      SelectFirstOffer(registry, layer, FallbackDevices, 0);
      ProbesStopAtFirstOffer(registry, layer, FallbackDevices, 0);
      ProbesAboutCandidates(registry, layer, FallbackDevices, 0);
      assert FallbackDevices[..1] == [Arm];
    } else if Offers(registry, Naive, layer) {
      SelectFirstOffer(registry, layer, FallbackDevices, 1);
    }
  }
}
