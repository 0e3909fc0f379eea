/**
  Frame names in scan2cloud: AddPrefixSlash gives every non-empty name a
  leading '/', and FramesEqual compares two names after that normalisation.
 */
module Frames {

  /** The name without its leading '/', if it has one. */
  function Bare(f: string): (b: string)
    ensures |f| > 0 && f[0] == '/' ==> f == "/" + b
    ensures !(|f| > 0 && f[0] == '/') ==> b == f
  {
    if |f| > 0 && f[0] == '/' then
      assert f == [f[0]] + f[1..];
      f[1..]
    else f
  }

  /** AddPrefixSlash: "" stays "", a name without a leading '/' gets exactly one. */
  function AddPrefixSlash(f: string): (out: string)
    ensures out == f || out == "/" + f
    ensures |out| == 0 <==> |f| == 0
    ensures |out| > 0 ==> out[0] == '/'
    ensures out == f <==> |f| == 0 || f[0] == '/'
    // a non-empty name normalises to one '/' before its bare part
    ensures |f| > 0 ==> out == "/" + Bare(f)
  {
    if |f| == 0 then ""
    else if f[0] != '/' then "/" + f
    else f
  }

  lemma AddPrefixSlashIdempotent(f: string)
    ensures AddPrefixSlash(AddPrefixSlash(f)) == AddPrefixSlash(f)
  {
  }

  /** Prepending the same character is injective. */
  lemma {:induction false} ConsInjective(a: string, b: string)
    requires "/" + a == "/" + b
    ensures a == b
  {
    assert a == ("/" + a)[1..];
    assert b == ("/" + b)[1..];
  }

  /**
    FramesEqual. Two names are equal as frames exactly when both are empty,
    or both are non-empty with the same bare part.
   */
  function FramesEqual(f1: string, f2: string): (r: bool)
    ensures r <==> (|f1| == 0 <==> |f2| == 0) && Bare(f1) == Bare(f2)
  {
    var p1 := AddPrefixSlash(f1);
    var p2 := AddPrefixSlash(f2);
    if |f1| > 0 && |f2| > 0 && p1 == p2 then ConsInjective(Bare(f1), Bare(f2)); true
    else p1 == p2
  }

  lemma FramesEqualIsEquivalence(a: string, b: string, c: string)
    ensures FramesEqual(a, a)
    ensures FramesEqual(a, b) == FramesEqual(b, a)
    ensures FramesEqual(a, b) && FramesEqual(b, c) ==> FramesEqual(a, c)
  {
  }

  /** "x" and "/x" name the same frame, but "" and "/" do not, nor do "/x" and "//x". */
  lemma FramesEqualExamples()
    ensures FramesEqual("x", "/x")
    ensures FramesEqual("base_link", "/base_link")
    ensures !FramesEqual("", "/")
    ensures !FramesEqual("/x", "//x")
  {
    assert Bare("/x") == "x";
    assert Bare("/base_link") == "base_link";
    assert Bare("//x") == "/x";
  }
}
