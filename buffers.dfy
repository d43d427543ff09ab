/** Writing a run of floats into a float buffer at an offset, as the point writers do
    through pointer arithmetic. */
module Buffers {

  /** The buffer contents after `vals` are written starting at `off`. */
  function Overwrite(s: seq<real>, off: int, vals: seq<real>): (r: seq<real>)
    requires 0 <= off && off + |vals| <= |s|
    ensures |r| == |s|
    ensures r[off..off + |vals|] == vals
    ensures forall i :: 0 <= i < |s| && !(off <= i < off + |vals|) ==> r[i] == s[i]
  {
    s[..off] + vals + s[off + |vals|..]
  }

  /** Writing nothing changes nothing, and two adjacent writes are one write of the
      two runs together. */
  lemma {:induction false} OverwriteJoin(s: seq<real>, off: int, a: seq<real>, b: seq<real>)
    requires 0 <= off && off + |a| + |b| <= |s|
    ensures Overwrite(s, off, []) == s
    ensures Overwrite(Overwrite(s, off, a), off + |a|, b) == Overwrite(s, off, a + b)
  {
    assert s[..off] + [] + s[off..] == s;
    var l := Overwrite(Overwrite(s, off, a), off + |a|, b);
    var r := Overwrite(s, off, a + b);
    assert |l| == |r|;
    forall i | 0 <= i < |l|
      ensures l[i] == r[i]
    {
      if off <= i < off + |a| {
        assert l[i] == Overwrite(s, off, a)[off..off + |a|][i - off];
        assert r[i] == r[off..off + |a| + |b|][i - off];
      } else if off + |a| <= i < off + |a| + |b| {
        assert l[i] == l[off + |a|..off + |a| + |b|][i - off - |a|];
        assert r[i] == r[off..off + |a| + |b|][i - off];
      }
    }
  }

  /** Writes `vals` into `a` from offset `off`, one float at a time. */
  method WriteAt(a: array<real>, off: int, vals: seq<real>)
    requires 0 <= off && off + |vals| <= a.Length
    modifies a
    ensures a[..] == Overwrite(old(a[..]), off, vals)
  {
    ghost var s := a[..];
    OverwriteJoin(s, off, [], []);
    var i := 0;
    while i < |vals|
      invariant 0 <= i <= |vals|
      invariant a[..] == Overwrite(s, off, vals[..i])
    {
      ghost var before := a[..];
      a[off + i] := vals[i];
      assert a[..] == Overwrite(before, off + i, [vals[i]]);
      OverwriteJoin(s, off, vals[..i], [vals[i]]);
      assert vals[..i] + [vals[i]] == vals[..i + 1];
      i := i + 1;
    }
    assert vals[..i] == vals;
  }

  /** A write that lands only when it fits; the buffers are written only where the
      callers' preconditions make it fit, and this total form lets the scan be
      specified as a function. */
  function Put(s: seq<real>, off: int, vals: seq<real>): (r: seq<real>)
    ensures |r| == |s|
    ensures vals == [] ==> r == s
  {
    if 0 <= off && off + |vals| <= |s| then
      OverwriteJoin(s, off, [], []);
      Overwrite(s, off, vals)
    else s
  }

  /** Records written one after the other into slots `stride` floats apart, the
      first at `off`. */
  function PutRecords(s: seq<real>, off: int, stride: nat, recs: seq<seq<real>>): (r: seq<real>)
    ensures |r| == |s|
    decreases |recs|
  {
    if recs == [] then s
    else Put(PutRecords(s, off, stride, recs[..|recs| - 1]), off + stride * (|recs| - 1), recs[|recs| - 1])
  }

  /** One more record goes at the slot after the others. */
  lemma PutRecordsSnoc(s: seq<real>, off: int, stride: nat, recs: seq<seq<real>>, r: seq<real>)
    ensures PutRecords(s, off, stride, recs + [r]) == Put(PutRecords(s, off, stride, recs), off + stride * |recs|, r)
  {
    assert (recs + [r])[..|recs|] == recs;
  }

  /** A buffer holding records from offset `off` on still does so after the next
      record (if any) is written at the slot after theirs. */
  lemma {:induction false} TrackStep(buf0: seq<real>, off: int, stride: nat, recs: seq<seq<real>>,
                                     buf: seq<real>, slot: int, r: seq<real>)
    requires buf == PutRecords(buf0, off, stride, recs) && slot == off + stride * |recs|
    ensures Put(buf, slot, r) == PutRecords(buf0, off, stride, recs + (if r != [] then [r] else []))
  {
    if r != [] {
      PutRecordsSnoc(buf0, off, stride, recs, r);
    } else {
      assert recs + [] == recs;
    }
  }

  /** Every record fits its slot and the buffer. */
  predicate RecordsFit(off: int, stride: nat, recs: seq<seq<real>>, len: int) {
    0 <= off && forall k :: 0 <= k < |recs| ==> |recs[k]| <= stride && off + stride * k + |recs[k]| <= len
  }

  lemma {:induction false} FitPrefix(off: int, stride: nat, recs: seq<seq<real>>, len: int)
    requires recs != [] && RecordsFit(off, stride, recs, len)
    ensures RecordsFit(off, stride, recs[..|recs| - 1], len)
  {
    var pre := recs[..|recs| - 1];
    forall k | 0 <= k < |pre|
      ensures |pre[k]| <= stride && off + stride * k + |pre[k]| <= len
    {
      assert pre[k] == recs[k];
    }
  }

  /** Each record written can be read back from its own slot: later records never
      overwrite earlier ones. */
  lemma {:induction false} PutRecordsSlot(s: seq<real>, off: int, stride: nat, recs: seq<seq<real>>, k: nat)
    requires RecordsFit(off, stride, recs, |s|) && k < |recs|
    ensures var a := off + stride * k;
      PutRecords(s, off, stride, recs)[a .. a + |recs[k]|] == recs[k]
    decreases |recs|
  {
    var m := |recs| - 1;
    var pre := recs[..m];
    var p := PutRecords(s, off, stride, pre);
    var r := PutRecords(s, off, stride, recs);
    var start := off + stride * m;
    MulNonNeg(stride, m);
    assert start + |recs[m]| <= |s|;
    assert r == Overwrite(p, start, recs[m]);
    if k < m {
      FitPrefix(off, stride, recs, |s|);
      PutRecordsSlot(s, off, stride, pre, k);
      var a := off + stride * k;
      SlotBelow(stride, k, m, |recs[k]|);
      MulNonNeg(stride, k);
      assert pre[k] == recs[k];
      forall i | a <= i < a + |recs[k]| ensures r[i] == p[i] { }
    }
  }

  /** Nothing before the first slot changes. */
  lemma {:induction false} PutRecordsBelow(s: seq<real>, off: int, stride: nat, recs: seq<seq<real>>, i: int)
    requires RecordsFit(off, stride, recs, |s|) && 0 <= i < off && i < |s|
    ensures PutRecords(s, off, stride, recs)[i] == s[i]
    decreases |recs|
  {
    if recs != [] {
      var m := |recs| - 1;
      FitPrefix(off, stride, recs, |s|);
      PutRecordsBelow(s, off, stride, recs[..m], i);
      MulNonNeg(stride, m);
      assert off + stride * m + |recs[m]| <= |s|;
    }
  }

  lemma {:induction false} MulNonNeg(a: nat, b: nat)
    ensures 0 <= a * b
  {
  }

  /** Slot k ends no later than slot m starts, for k < m and records no longer than
      a slot. */
  lemma {:induction false} SlotBelow(stride: nat, k: nat, m: nat, len: nat)
    requires k < m && len <= stride
    ensures stride * k + len <= stride * m
    decreases m - k
  {
    MulStep(stride, m - 1);
    if k < m - 1 {
      SlotBelow(stride, k, m - 1, len);
    }
  }

  lemma {:induction false} MulStep(a: nat, b: nat)
    ensures a * (b + 1) == a * b + a
  {
  }
}
