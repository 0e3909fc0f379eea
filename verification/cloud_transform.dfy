/**
  Bringing scan points into the fixed frame. The tf lookup is a parameter:
  Some(transform) when the listener yields one (latest or stamped, as the
  node is configured), None when it raises a TransformException.
 */
module CloudTransform {
  import opened Wrappers
  import Frames

  /** The fixedFrame parameter's default. */
  const DefaultFixedFrame: string := "base_link"

  /** Each point of `s` moved by `transform`, in order. */
  function Moved<P>(transform: P -> P, s: seq<P>): (r: seq<P>)
    ensures |r| == |s|
  {
    seq(|s|, t requires 0 <= t < |s| => transform(s[t]))
  }

  /** Moving by the identity is the same-frame copy. */
  lemma MovedByIdentity<P>(s: seq<P>)
    ensures Moved(x => x, s) == s
  {
  }

  /** TransformCloud(transform, in, out): appends every moved point to what out already holds. */
  method ApplyTransform<P>(transform: P -> P, inp: seq<P>, out0: seq<P>) returns (out: seq<P>)
    ensures |out| == |out0| + |inp|
    ensures out[..|out0|] == out0
    ensures forall t | 0 <= t < |inp| :: out[|out0| + t] == transform(inp[t])
  {
    out := out0;
    var t := 0;
    while t < |inp|
      invariant 0 <= t <= |inp|
      invariant |out| == |out0| + t
      invariant out[..|out0|] == out0
      invariant forall j | 0 <= j < t :: out[|out0| + j] == transform(inp[j])
    {
      out := out + [transform(inp[t])];
      t := t + 1;
    }
  }

  /**
    TransformCloud(in, frame, stamp, out): the output starts empty; points
    already in the fixed frame are copied as they are, other points are
    moved by the looked-up transform, and a failed lookup leaves no points.
   */
  method TransformCloud<P>(inp: seq<P>, frameId: string, fixedFrame: string, lookup: Option<P -> P>)
    returns (out: seq<P>)
    ensures Frames.FramesEqual(frameId, fixedFrame) ==> out == inp
    ensures !Frames.FramesEqual(frameId, fixedFrame) && lookup.None? ==> out == []
    ensures !Frames.FramesEqual(frameId, fixedFrame) && lookup.Some? ==>
      out == Moved(lookup.value, inp)
  {
    out := [];
    if Frames.FramesEqual(frameId, fixedFrame) {
      var t := 0;
      while t < |inp|
        invariant 0 <= t <= |inp|
        invariant out == inp[..t]
      {
        assert inp[..t + 1] == inp[..t] + [inp[t]];
        out := out + [inp[t]];
        t := t + 1;
      }
      assert inp[..t] == inp;
    } else {
      match lookup {
        case None =>
        case Some(transform) =>
          out := ApplyTransform(transform, inp, out);
      }
    }
  }
}
