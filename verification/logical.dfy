/** The logical memory that processes see, and what each request does to it. Bases, free blocks, sticks and
    swap do not appear here: Kernel Memory is proved to implement this machine. */
module Logical {
  import opened Words
  import opened Segments

  function VPids(v: MemView): (r: seq<int>)
    ensures |r| == |v| && forall i :: 0 <= i < |r| ==> r[i] == v[i].pid
  {
    seq(|v|, i requires 0 <= i < |v| => v[i].pid)
  }

  function VIds(segs: seq<SegView>): (r: seq<int>)
    ensures |r| == |segs| && forall i :: 0 <= i < |r| ==> r[i] == segs[i].id
  {
    seq(|segs|, i requires 0 <= i < |segs| => segs[i].id)
  }

  /** The first process with this pid, or -1. */
  function FindProc(v: MemView, pid: int): (p: int)
    ensures -1 <= p < |v|
  {
    IndexOf(VPids(v), pid)
  }

  /** The first segment with this id in process `p`, or -1. */
  function FindSeg(v: MemView, p: int, id: int): (j: int)
    ensures -1 <= j && (0 <= j ==> 0 <= p < |v| && j < |v[p].segs|)
  {
    if 0 <= p < |v| then IndexOf(VIds(v[p].segs), id) else -1
  }

  function AddProcess(v: MemView, pid: int): MemView {
    v + [ProcView(pid, [])]
  }

  function RemoveProcess(v: MemView, pid: int): MemView {
    var p := FindProc(v, pid);
    if p < 0 then v else Without(v, p)
  }

  function AddSegment(v: MemView, pid: int, s: SegView): MemView {
    var p := FindProc(v, pid);
    if p < 0 then v else v[p := ProcView(v[p].pid, v[p].segs + [s])]
  }

  function RemoveSegment(v: MemView, pid: int, id: int): MemView {
    var p := FindProc(v, pid);
    var j := FindSeg(v, p, id);
    if j < 0 then v else v[p := ProcView(v[p].pid, Without(v[p].segs, j))]
  }

  /** The bytes behind a logical address: all or nothing. */
  function Load(v: MemView, pid: int, id: int, off: nat, size: nat): Option<seq<byte>> {
    var p := FindProc(v, pid);
    var j := FindSeg(v, p, id);
    if j < 0 || |v[p].segs[j].bytes| < off + size then None
    else Some(v[p].segs[j].bytes[off..off + size])
  }

  function Store(v: MemView, pid: int, id: int, off: nat, data: seq<byte>): MemView {
    var p := FindProc(v, pid);
    var j := FindSeg(v, p, id);
    if j < 0 || |v[p].segs[j].bytes| < off + |data| then v
    else v[p := ProcView(v[p].pid, v[p].segs[j := SegView(v[p].segs[j].id, Overlay(v[p].segs[j].bytes, off, data))])]
  }

  /** The bytes of the segment that (pid, id) designates. */
  function SegmentBytes(v: MemView, pid: int, id: int): Option<seq<byte>> {
    var p := FindProc(v, pid);
    var j := FindSeg(v, p, id);
    if j < 0 then None else Some(v[p].segs[j].bytes)
  }
}
