/** The calls the adapter makes to its collaborators, in the order it makes them:
    the backend registry at construction, the inner CPU layer implementation, and
    the conversion primitives that move tensors between the OpenCL device and host
    memory. Foreign code is represented only by these events. */
module Trace {
  import opened TnnTypes

  /** The host buffer a conversion reads or fills: the mirror blob's own memory,
      or a scratch buffer in planar NCHW layout. */
  datatype HostBuffer = MirrorMemory | Scratch

  /** Device-to-host marshalling happens before the inner call, host-to-device after it. */
  datatype Direction = DeviceToHost | HostToDevice

  datatype Event =
    | GetDevice(device: DeviceType)
    | CreateLayerAcc(device: DeviceType, layer: LayerType)
    | CreateContext(device: DeviceType)
    | InnerInit(context: Context, ins: seq<BlobDesc>, outs: seq<BlobDesc>)
    | InnerReshape(ins: seq<BlobDesc>, outs: seq<BlobDesc>)
    | InnerForward(ins: seq<BlobDesc>, outs: seq<BlobDesc>)
      /** Device blob `blob` converted to planar float data on the host. */
    | ConvertToMat(blob: nat, buffer: HostBuffer)
      /** Planar scratch data rearranged into four-channel packed layout in the mirror. */
    | NCHWToNCHW4(blob: nat, n: int, c: int, h: int, w: int)
      /** Packed mirror data rearranged into planar layout in a scratch buffer. */
    | NCHW4ToNCHW(blob: nat, n: int, c: int, h: int, w: int)
      /** Planar float data on the host written into device blob `blob`, whose
          descriptor has dims `deviceDims` when the conversion is issued. */
    | ConvertFromMat(blob: nat, buffer: HostBuffer, deviceDims: Dims)

  /** A registry query made while choosing the fallback backend. */
  predicate IsProbe(e: Event) {
    e.GetDevice? || e.CreateLayerAcc? || e.CreateContext?
  }

  /** A marshalling event of the given direction. */
  predicate IsConversion(dir: Direction, e: Event) {
    match dir
    case DeviceToHost => e.ConvertToMat? || e.NCHWToNCHW4?
    case HostToDevice => e.NCHW4ToNCHW? || e.ConvertFromMat?
  }

  /** The packed branch reads the first four dims without a bounds check. */
  predicate Packable(d: BlobDesc) {
    d.dataFormat != NCHW ==> |d.dims| >= 4
  }

  predicate PackableUpTo(m: seq<BlobDesc>, n: nat)
    requires n <= |m|
  {
    forall i :: 0 <= i < n ==> Packable(m[i])
  }

  /** Events for marshalling blob `i` whose mirror is described by `d`. */
  function Step(dir: Direction, i: nat, d: BlobDesc): seq<Event>
    requires Packable(d)
  {
    match dir
    case DeviceToHost =>
      if d.dataFormat == NCHW then [ConvertToMat(i, MirrorMemory)]
      else [ConvertToMat(i, Scratch), NCHWToNCHW4(i, d.dims[0], d.dims[1], d.dims[2], d.dims[3])]
    case HostToDevice =>
      if d.dataFormat == NCHW then [ConvertFromMat(i, MirrorMemory, d.dims)]
      else [NCHW4ToNCHW(i, d.dims[0], d.dims[1], d.dims[2], d.dims[3]), ConvertFromMat(i, Scratch, d.dims)]
  }

  /** Events for marshalling blobs 0 .. n-1 in index order. */
  function Steps(dir: Direction, m: seq<BlobDesc>, n: nat): seq<Event>
    requires n <= |m| && PackableUpTo(m, n)
    decreases n
  {
    if n == 0 then [] else Steps(dir, m, n - 1) + Step(dir, n - 1, m[n - 1])
  }

  /** Everything one Forward call issues: the input marshalling, the inner call
      (handed the mirror lists as they stand), then the output marshalling over the
      mirror outputs as the inner call left them. */
  function ForwardEvents(ins: seq<BlobDesc>, nIn: nat, handed: seq<BlobDesc>, outs: seq<BlobDesc>, nOut: nat): seq<Event>
    requires nIn <= |ins| && PackableUpTo(ins, nIn)
    requires nOut <= |outs| && PackableUpTo(outs, nOut)
  {
    Steps(DeviceToHost, ins, nIn) + [InnerForward(ins, handed)] + Steps(HostToDevice, outs, nOut)
  }

  /** Appending one more blob's step to a log that already ends with the earlier steps. */
  lemma AppendStep(log: seq<Event>, earlier: seq<Event>, step: seq<Event>)
    ensures log + earlier + step == log + (earlier + step)
  {
  }

  /** Appending the three parts of a Forward one after another is appending their
      concatenation. */
  lemma AppendThree(log: seq<Event>, a: seq<Event>, mid: seq<Event>, b: seq<Event>)
    ensures log + a + mid + b == log + (a + mid + b)
  {
  }

  /** The conversion events of direction `dir` that concern blob `i`, in order. */
  function EventsFor(dir: Direction, s: seq<Event>, i: nat): seq<Event>
    decreases |s|
  {
    if s == [] then []
    else (if IsConversion(dir, s[0]) && s[0].blob == i then [s[0]] else []) + EventsFor(dir, s[1..], i)
  }

  lemma {:induction false} EventsForAppend(dir: Direction, a: seq<Event>, b: seq<Event>, i: nat)
    ensures EventsFor(dir, a + b, i) == EventsFor(dir, a, i) + EventsFor(dir, b, i)
    decreases |a|
  {
    if a == [] {
      assert a + b == b;
    } else {
      assert (a + b)[0] == a[0];
      assert (a + b)[1..] == a[1..] + b;
      EventsForAppend(dir, a[1..], b, i);
    }
  }

  /** Filtering keeps exactly the matching events. */
  lemma {:induction false} InEventsFor(dir: Direction, s: seq<Event>, i: nat, e: Event)
    requires IsConversion(dir, e) && e.blob == i
    ensures e in s <==> e in EventsFor(dir, s, i)
    decreases |s|
  {
    if s != [] {
      InEventsFor(dir, s[1..], i, e);
      assert s == [s[0]] + s[1..];
    }
  }

  lemma {:induction false} EventsForNone(dir: Direction, s: seq<Event>, i: nat)
    requires forall p :: 0 <= p < |s| ==> !IsConversion(dir, s[p])
    ensures EventsFor(dir, s, i) == []
    decreases |s|
  {
    if s != [] {
      EventsForNone(dir, s[1..], i);
    }
  }

  lemma StepEventsFor(dir: Direction, j: nat, d: BlobDesc, i: nat)
    requires Packable(d)
    ensures EventsFor(dir, Step(dir, j, d), i) == if i == j then Step(dir, j, d) else []
  {
    var s := Step(dir, j, d);
    var rest := s[1..];
    assert IsConversion(dir, s[0]) && s[0].blob == j;
    assert EventsFor(dir, s, i) == (if i == j then [s[0]] else []) + EventsFor(dir, rest, i);
    if |s| == 1 {
      assert rest == [];
    } else {
      assert |s| == 2 && s == [s[0], rest[0]];
      assert IsConversion(dir, rest[0]) && rest[0].blob == j;
      assert rest[1..] == [];
      assert EventsFor(dir, rest, i) == (if i == j then [rest[0]] else []) + EventsFor(dir, rest[1..], i);
    }
  }

  /** The marshalling of one direction consists of conversions of that direction
      only, concerns blobs below `n`, and visits the blobs in ascending index order. */
  lemma {:induction false} StepsShape(dir: Direction, m: seq<BlobDesc>, n: nat)
    requires n <= |m| && PackableUpTo(m, n)
    ensures forall p :: 0 <= p < |Steps(dir, m, n)| ==>
      IsConversion(dir, Steps(dir, m, n)[p]) && Steps(dir, m, n)[p].blob < n
    ensures forall p, q :: 0 <= p < q < |Steps(dir, m, n)| ==>
      IsConversion(dir, Steps(dir, m, n)[p]) && IsConversion(dir, Steps(dir, m, n)[q]) &&
      Steps(dir, m, n)[p].blob <= Steps(dir, m, n)[q].blob
    decreases n
  {
    if n > 0 {
      StepsShape(dir, m, n - 1);
      var a := Steps(dir, m, n - 1);
      var t := Step(dir, n - 1, m[n - 1]);
      var s := a + t;
      assert Steps(dir, m, n) == s;
      assert forall p :: 0 <= p < |t| ==> IsConversion(dir, t[p]) && t[p].blob == n - 1;
      forall p | 0 <= p < |s|
        ensures IsConversion(dir, s[p]) && s[p].blob < n
      {
        if p < |a| { assert s[p] == a[p]; } else { assert s[p] == t[p - |a|]; }
      }
      forall p, q | 0 <= p < q < |s|
        ensures IsConversion(dir, s[p]) && IsConversion(dir, s[q]) && s[p].blob <= s[q].blob
      {
        if q < |a| {
          assert s[p] == a[p] && s[q] == a[q];
        } else if p < |a| {
          assert s[p] == a[p] && s[q] == t[q - |a|];
        } else {
          assert s[p] == t[p - |a|] && s[q] == t[q - |a|];
        }
      }
    }
  }

  /** Blob `n`'s step adds nothing to the events of any other blob. */
  lemma StepsEventsForNextOther(dir: Direction, m: seq<BlobDesc>, n: nat, i: nat)
    requires n < |m| && PackableUpTo(m, n + 1) && i != n
    ensures EventsFor(dir, Steps(dir, m, n + 1), i) == EventsFor(dir, Steps(dir, m, n), i)
  {
    assert Steps(dir, m, n + 1) == Steps(dir, m, n) + Step(dir, n, m[n]);
    EventsForAppend(dir, Steps(dir, m, n), Step(dir, n, m[n]), i);
    StepEventsFor(dir, n, m[n], i);
  }

  /** Blob `n`'s step is appended, whole, to blob `n`'s events. */
  lemma StepsEventsForNextSame(dir: Direction, m: seq<BlobDesc>, n: nat)
    requires n < |m| && PackableUpTo(m, n + 1)
    ensures EventsFor(dir, Steps(dir, m, n + 1), n) == EventsFor(dir, Steps(dir, m, n), n) + Step(dir, n, m[n])
  {
    assert Steps(dir, m, n + 1) == Steps(dir, m, n) + Step(dir, n, m[n]);
    EventsForAppend(dir, Steps(dir, m, n), Step(dir, n, m[n]), n);
    StepEventsFor(dir, n, m[n], n);
  }

  /** No blob at or beyond `n` has events in the marshalling of blobs 0 .. n-1. */
  lemma {:induction false} StepsEventsForBeyond(dir: Direction, m: seq<BlobDesc>, n: nat, i: nat)
    requires n <= |m| && PackableUpTo(m, n) && n <= i
    ensures EventsFor(dir, Steps(dir, m, n), i) == []
    decreases n
  {
    if n > 0 {
      StepsEventsForBeyond(dir, m, n - 1, i);
      StepsEventsForNextOther(dir, m, n - 1, i);
      assert EventsFor(dir, Steps(dir, m, n), i) == [];
    }
  }

  /** Blob `i < n` keeps exactly its own step in the marshalling of blobs 0 .. n-1. */
  lemma {:induction false} StepsEventsForWithin(dir: Direction, m: seq<BlobDesc>, n: nat, i: nat)
    requires n <= |m| && PackableUpTo(m, n) && i < n
    ensures EventsFor(dir, Steps(dir, m, n), i) == Step(dir, i, m[i])
    decreases n
  {
    if i == n - 1 {
      StepsEventsForBeyond(dir, m, n - 1, i);
      StepsEventsForNextSame(dir, m, n - 1);
      assert [] + Step(dir, i, m[i]) == Step(dir, i, m[i]);
      assert EventsFor(dir, Steps(dir, m, n), i) == Step(dir, i, m[i]);
    } else {
      StepsEventsForWithin(dir, m, n - 1, i);
      StepsEventsForNextOther(dir, m, n - 1, i);
      assert EventsFor(dir, Steps(dir, m, n), i) == Step(dir, i, m[i]);
    }
  }

  /** Filtering the marshalling of one direction down to blob `i` yields exactly
      that blob's step when `i < n`, and nothing otherwise. */
  lemma StepsEventsFor(dir: Direction, m: seq<BlobDesc>, n: nat, i: nat)
    requires n <= |m| && PackableUpTo(m, n)
    ensures EventsFor(dir, Steps(dir, m, n), i) == if i < n then Step(dir, i, m[i]) else []
  {
    if i < n {
      StepsEventsForWithin(dir, m, n, i);
    } else {
      StepsEventsForBeyond(dir, m, n, i);
    }
  }

  /** Forward makes exactly one inner call, preceded only by input marshalling
      and followed only by output marshalling. */
  lemma ForwardOrder(ins: seq<BlobDesc>, nIn: nat, handed: seq<BlobDesc>, outs: seq<BlobDesc>, nOut: nat)
    requires nIn <= |ins| && PackableUpTo(ins, nIn)
    requires nOut <= |outs| && PackableUpTo(outs, nOut)
    ensures var ev := ForwardEvents(ins, nIn, handed, outs, nOut);
      var k := |Steps(DeviceToHost, ins, nIn)|;
      k < |ev| && ev[k] == InnerForward(ins, handed) &&
      (forall j :: 0 <= j < |ev| ==> (ev[j].InnerForward? <==> j == k)) &&
      (forall j :: 0 <= j < k ==> IsConversion(DeviceToHost, ev[j])) &&
      (forall j :: k < j < |ev| ==> IsConversion(HostToDevice, ev[j]))
  {
    var a := Steps(DeviceToHost, ins, nIn);
    var b := Steps(HostToDevice, outs, nOut);
    var ev := ForwardEvents(ins, nIn, handed, outs, nOut);
    var k := |a|;
    StepsShape(DeviceToHost, ins, nIn);
    StepsShape(HostToDevice, outs, nOut);
    assert ev == a + [InnerForward(ins, handed)] + b;
    forall j | 0 <= j < |ev|
      ensures (ev[j].InnerForward? <==> j == k)
      ensures j < k ==> IsConversion(DeviceToHost, ev[j])
      ensures k < j ==> IsConversion(HostToDevice, ev[j])
    {
      if j < k {
        assert ev[j] == a[j];
      } else if k < j {
        assert ev[j] == b[j - k - 1];
      }
    }
  }

  /** Per blob, Forward issues exactly the step its mirror's layout selects. */
  lemma ForwardBlobEvents(ins: seq<BlobDesc>, nIn: nat, handed: seq<BlobDesc>, outs: seq<BlobDesc>, nOut: nat, i: nat)
    requires nIn <= |ins| && PackableUpTo(ins, nIn)
    requires nOut <= |outs| && PackableUpTo(outs, nOut)
    ensures EventsFor(DeviceToHost, ForwardEvents(ins, nIn, handed, outs, nOut), i)
         == if i < nIn then Step(DeviceToHost, i, ins[i]) else []
    ensures EventsFor(HostToDevice, ForwardEvents(ins, nIn, handed, outs, nOut), i)
         == if i < nOut then Step(HostToDevice, i, outs[i]) else []
  {
    var a := Steps(DeviceToHost, ins, nIn);
    var b := Steps(HostToDevice, outs, nOut);
    var mid: seq<Event> := [InnerForward(ins, handed)];
    assert ForwardEvents(ins, nIn, handed, outs, nOut) == a + mid + b;
    EventsForNone(DeviceToHost, mid, i);
    EventsForNone(HostToDevice, mid, i);
    StepsShape(DeviceToHost, ins, nIn);
    StepsShape(HostToDevice, outs, nOut);
    calc {
      EventsFor(DeviceToHost, a + mid + b, i);
      { ConcatEventsFor(DeviceToHost, a, mid, b, i); }
      EventsFor(DeviceToHost, a, i) + EventsFor(DeviceToHost, mid, i) + EventsFor(DeviceToHost, b, i);
      { EventsForNone(DeviceToHost, b, i); }
      EventsFor(DeviceToHost, a, i);
      { StepsEventsFor(DeviceToHost, ins, nIn, i); }
      if i < nIn then Step(DeviceToHost, i, ins[i]) else [];
    }
    calc {
      EventsFor(HostToDevice, a + mid + b, i);
      { ConcatEventsFor(HostToDevice, a, mid, b, i); }
      EventsFor(HostToDevice, a, i) + EventsFor(HostToDevice, mid, i) + EventsFor(HostToDevice, b, i);
      { EventsForNone(HostToDevice, a, i); }
      EventsFor(HostToDevice, b, i);
      { StepsEventsFor(HostToDevice, outs, nOut, i); }
      if i < nOut then Step(HostToDevice, i, outs[i]) else [];
    }
  }

  lemma ConcatEventsFor(dir: Direction, a: seq<Event>, mid: seq<Event>, b: seq<Event>, i: nat)
    ensures EventsFor(dir, a + mid + b, i) == EventsFor(dir, a, i) + EventsFor(dir, mid, i) + EventsFor(dir, b, i)
  {
    EventsForAppend(dir, a + mid, b, i);
    EventsForAppend(dir, a, mid, i);
  }

  /** An input is converted straight into its mirror's memory exactly when the
      mirror is planar; otherwise it goes through a scratch buffer and is packed. */
  lemma ForwardInputBranch(ins: seq<BlobDesc>, nIn: nat, handed: seq<BlobDesc>, outs: seq<BlobDesc>, nOut: nat, i: nat)
    requires nIn <= |ins| && PackableUpTo(ins, nIn)
    requires nOut <= |outs| && PackableUpTo(outs, nOut)
    requires i < nIn
    ensures var ev := ForwardEvents(ins, nIn, handed, outs, nOut);
      (ConvertToMat(i, MirrorMemory) in ev <==> ins[i].dataFormat == NCHW) &&
      (ConvertToMat(i, Scratch) in ev <==> ins[i].dataFormat != NCHW)
  {
    var ev := ForwardEvents(ins, nIn, handed, outs, nOut);
    ForwardBlobEvents(ins, nIn, handed, outs, nOut, i);
    InEventsFor(DeviceToHost, ev, i, ConvertToMat(i, MirrorMemory));
    InEventsFor(DeviceToHost, ev, i, ConvertToMat(i, Scratch));
  }

  /** An output is converted straight from its mirror's memory exactly when the
      mirror is planar; otherwise it is unpacked into a scratch buffer first.
      Either way the device output already carries the mirror's dims when its
      conversion is issued. */
  lemma ForwardOutputBranch(ins: seq<BlobDesc>, nIn: nat, handed: seq<BlobDesc>, outs: seq<BlobDesc>, nOut: nat, i: nat)
    requires nIn <= |ins| && PackableUpTo(ins, nIn)
    requires nOut <= |outs| && PackableUpTo(outs, nOut)
    requires i < nOut
    ensures var ev := ForwardEvents(ins, nIn, handed, outs, nOut);
      (ConvertFromMat(i, MirrorMemory, outs[i].dims) in ev <==> outs[i].dataFormat == NCHW) &&
      (ConvertFromMat(i, Scratch, outs[i].dims) in ev <==> outs[i].dataFormat != NCHW)
  {
    var ev := ForwardEvents(ins, nIn, handed, outs, nOut);
    ForwardBlobEvents(ins, nIn, handed, outs, nOut, i);
    InEventsFor(HostToDevice, ev, i, ConvertFromMat(i, MirrorMemory, outs[i].dims));
    InEventsFor(HostToDevice, ev, i, ConvertFromMat(i, Scratch, outs[i].dims));
  }
}
