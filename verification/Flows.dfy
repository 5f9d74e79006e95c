/** Frames on their way through a byte FIFO: a part of the first one read, bytes in the FIFO, bytes still to be
    written. */
module Flows {
  import opened Common
  import opened Framing

  lemma {:induction false} FlattenOneMore(frames: seq<seq<byte>>, last: seq<byte>)
    ensures Flatten(frames + [last]) == Flatten(frames) + last
  {
    if frames == [] {
      assert (frames + [last])[1..] == [];
      assert Flatten([last]) == last + [];
    } else {
      FlattenOneMore(frames[1..], last);
      assert (frames + [last])[1..] == frames[1..] + [last];
      assert frames[0] + (Flatten(frames[1..]) + last) == frames[0] + Flatten(frames[1..]) + last;
    }
  }

  /** What was read, is in the FIFO and is still to be written are these frames, whole and in order, and what was read
      does not go beyond the first. */
  ghost predicate Flow(got: seq<byte>, fifo: seq<byte>, rest: seq<byte>, frames: seq<seq<byte>>) {
    && got + fifo + rest == Flatten(frames)
    && (got != [] ==> frames != [] && got <= frames[0])
  }

  lemma NothingFlows(frames: seq<seq<byte>>)
    requires frames == []
    ensures Flow([], [], [], frames)
  {
  }

  lemma NoFrames(got: seq<byte>, fifo: seq<byte>, rest: seq<byte>, frames: seq<seq<byte>>)
    requires Flow(got, fifo, rest, frames)
    ensures frames == [] ==> got == [] && fifo == [] && rest == []
  {
    assert |got + fifo + rest| == |got| + |fifo| + |rest|;
  }

  lemma FrameIsAdded(got: seq<byte>, fifo: seq<byte>, frames: seq<seq<byte>>, frame: seq<byte>)
    requires Flow(got, fifo, [], frames)
    ensures Flow(got, fifo, frame, frames + [frame])
  {
    FlattenOneMore(frames, frame);
    assert got + fifo + [] == got + fifo;
  }

  lemma BytesAreWritten(got: seq<byte>, fifo: seq<byte>, rest: seq<byte>, frames: seq<seq<byte>>, n: nat)
    requires Flow(got, fifo, rest, frames) && n <= |rest|
    ensures Flow(got, fifo + rest[..n], rest[n..], frames)
  {
    assert got + (fifo + rest[..n]) + rest[n..] == got + fifo + rest;
  }

  lemma BytesAreRead(got: seq<byte>, fifo: seq<byte>, rest: seq<byte>, frames: seq<seq<byte>>, n: nat)
    requires Flow(got, fifo, rest, frames) && frames != [] && n <= |fifo| && |got| + n <= |frames[0]|
    ensures Flow(got + fifo[..n], fifo[n..], rest, frames)
  {
    assert (got + fifo[..n]) + fifo[n..] + rest == got + fifo + rest;
    var front := got + fifo[..n];
    assert forall i :: 0 <= i < |front| ==> front[i] == (got + fifo + rest)[i] == Flatten(frames)[i] == frames[0][i];
  }

  lemma FrameIsDone(got: seq<byte>, fifo: seq<byte>, rest: seq<byte>, frames: seq<seq<byte>>)
    requires Flow(got, fifo, rest, frames) && frames != [] && got == frames[0]
    ensures Flow([], fifo, rest, frames[1..])
  {
    assert got + fifo + rest == got + (fifo + rest);
    assert (got + (fifo + rest))[|got|..] == fifo + rest;
    assert (frames[0] + Flatten(frames[1..]))[|got|..] == Flatten(frames[1..]);
    assert [] + fifo + rest == fifo + rest;
  }

  /** While the first frame is not read, some of it is on its way. */
  lemma MoreIsToCome(got: seq<byte>, fifo: seq<byte>, rest: seq<byte>, frames: seq<seq<byte>>)
    requires Flow(got, fifo, rest, frames) && frames != [] && |got| < |frames[0]|
    ensures fifo != [] || rest != []
  {
    assert |got + fifo + rest| == |got| + |fifo| + |rest|;
  }

  ghost predicate IsSuffix(b: seq<byte>, whole: seq<byte>) {
    |b| <= |whole| && b == whole[|whole| - |b|..]
  }

  lemma SuffixOfOne(got: seq<byte>, fifo: seq<byte>, rest: seq<byte>, frames: seq<seq<byte>>)
    requires Flow(got, fifo, rest, frames) && |frames| == 1
    ensures IsSuffix(fifo + rest, frames[0])
  {
    assert Flatten(frames) == frames[0] + [] == frames[0];
    assert got + (fifo + rest) == frames[0];
  }

  /// ## Slices of all frames there will be

  lemma SliceOneMore(all: seq<seq<byte>>, i: nat, j: nat)
    requires i <= j < |all|
    ensures all[i..j + 1] == all[i..j] + [all[j]]
  {
  }

  lemma SliceOneLess(all: seq<seq<byte>>, i: nat, j: nat)
    requires i < j <= |all|
    ensures all[i..j] != [] && all[i..j][0] == all[i] && all[i..j][1..] == all[i + 1..j]
  {
  }

  /** The first frame has been read, and the next may be. */
  lemma FirstSliceDone(got: seq<byte>, fifo: seq<byte>, rest: seq<byte>, all: seq<seq<byte>>, i: nat, j: nat)
    requires i < j <= |all| && Flow(got, fifo, rest, all[i..j]) && got == all[i]
    ensures Flow([], fifo, rest, all[i + 1..j])
  {
    SliceOneLess(all, i, j);
    FrameIsDone(got, fifo, rest, all[i..j]);
  }

  lemma LastSliceAdded(got: seq<byte>, fifo: seq<byte>, all: seq<seq<byte>>, i: nat, j: nat)
    requires i <= j < |all| && Flow(got, fifo, [], all[i..j])
    ensures Flow(got, fifo, all[j], all[i..j + 1])
  {
    SliceOneMore(all, i, j);
    FrameIsAdded(got, fifo, all[i..j], all[j]);
  }
}
