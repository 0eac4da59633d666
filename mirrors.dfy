/** The host-side mirror blobs the adapter keeps beside the OpenCL blobs: how
    Init derives them, and how dims are copied between the two lists. */
module MirrorBlobs {
  import opened TnnTypes

  /** The descriptor Init gives the mirror of device blob `d`: the same
      descriptor, moved to the bound device and with its layout left to negotiate. */
  function MirrorOf(d: BlobDesc, dt: DeviceType): BlobDesc {
    d.(deviceType := dt, dataFormat := Auto)
  }

  /** The mirrors Init appends, one per device blob, in order. */
  function MirrorsOf(descs: seq<BlobDesc>, dt: DeviceType): seq<BlobDesc> {
    seq(|descs|, i requires 0 <= i < |descs| => MirrorOf(descs[i], dt))
  }

  /** Init's mirrors match the device blobs one to one, in order: same dims, the
      bound device's type, and the layout left to negotiate. */
  lemma MirrorsOfMatches(descs: seq<BlobDesc>, dt: DeviceType)
    ensures |MirrorsOf(descs, dt)| == |descs|
    ensures forall i :: 0 <= i < |descs| ==>
      MirrorsOf(descs, dt)[i].dims == descs[i].dims &&
      MirrorsOf(descs, dt)[i].deviceType == dt && MirrorsOf(descs, dt)[i].dataFormat == Auto
  {
  }

  /** Appending the mirror of one more device blob. */
  lemma MirrorsOfNext(descs: seq<BlobDesc>, i: nat, dt: DeviceType)
    requires i < |descs|
    ensures MirrorsOf(descs[..i + 1], dt) == MirrorsOf(descs[..i], dt) + [MirrorOf(descs[i], dt)]
  {
  }

  /** The mirrors after the inner Init has pinned the layouts of some of them. */
  function WithFormats(ms: seq<BlobDesc>, formats: map<int, DataFormat>): seq<BlobDesc> {
    seq(|ms|, i requires 0 <= i < |ms| => if i in formats then ms[i].(dataFormat := formats[i]) else ms[i])
  }

  /** Pinning layouts changes only layouts: every mirror keeps its dims and device
      type, a mirror named in `formats` gets that layout, and the others keep theirs. */
  lemma WithFormatsPins(ms: seq<BlobDesc>, formats: map<int, DataFormat>)
    ensures |WithFormats(ms, formats)| == |ms|
    ensures forall i :: 0 <= i < |ms| ==>
      WithFormats(ms, formats)[i].dims == ms[i].dims &&
      WithFormats(ms, formats)[i].deviceType == ms[i].deviceType &&
      WithFormats(ms, formats)[i].dataFormat == (if i in formats then formats[i] else ms[i].dataFormat)
  {
  }

  /** `t` with the dims of each of its first `n` entries taken from `s`. */
  function CopyDims(t: seq<BlobDesc>, s: seq<BlobDesc>, n: nat): seq<BlobDesc>
    requires n <= |t| && n <= |s|
  {
    seq(|t|, i requires 0 <= i < |t| => if i < n then t[i].(dims := s[i].dims) else t[i])
  }

  /** Copying one more entry's dims is a single in-place update. */
  lemma CopyDimsNext(t: seq<BlobDesc>, s: seq<BlobDesc>, n: nat)
    requires n < |t| && n < |s|
    ensures CopyDims(t, s, n + 1) == CopyDims(t, s, n)[n := t[n].(dims := s[n].dims)]
  {
  }

  /** After copying, the first `n` entries carry the source's dims, every entry
      keeps its layout and device, and the entries from `n` on are untouched. */
  lemma CopyDimsSyncs(t: seq<BlobDesc>, s: seq<BlobDesc>, n: nat)
    requires n <= |t| && n <= |s|
    ensures |CopyDims(t, s, n)| == |t|
    ensures forall i :: 0 <= i < n ==> CopyDims(t, s, n)[i].dims == s[i].dims
    ensures forall i :: 0 <= i < |t| ==>
      CopyDims(t, s, n)[i].dataFormat == t[i].dataFormat && CopyDims(t, s, n)[i].deviceType == t[i].deviceType
    ensures forall i :: n <= i < |t| ==> CopyDims(t, s, n)[i] == t[i]
  {
  }

  /** Copying the same dims twice is copying them once. */
  lemma CopyDimsIdempotent(t: seq<BlobDesc>, s: seq<BlobDesc>, n: nat)
    requires n <= |t| && n <= |s|
    ensures CopyDims(CopyDims(t, s, n), s, n) == CopyDims(t, s, n)
  {
  }

  /** On a fresh adapter, copying the device dims onto the mirrors Init has just
      made from those very device blobs changes nothing, whatever layouts the inner
      Init pinned: Init already copied them. */
  lemma CopyDimsAfterMirrorsOf(descs: seq<BlobDesc>, dt: DeviceType, formats: map<int, DataFormat>)
    ensures CopyDims(WithFormats(MirrorsOf(descs, dt), formats), descs, |descs|) ==
      WithFormats(MirrorsOf(descs, dt), formats)
  {
  }
}
