/**
 * `_animate_transform` of the Maya writer: sample an object's transform
 * at every frame `1..frame_count`, then emit an `animCurve` and its
 * `connectAttr` for each of the nine channels whose values, rounded to
 * six places, vary.
 */
module MayaAnimation {
  import opened Basics
  import opened Text
  import opened Channels
  import opened MayaScene
  import opened MayaNodes

  /** `times` after the sampling loop: the frames `1, 2, ..., frameCount`. */
  function Times(frameCount: int): seq<int>
    decreases frameCount
  {
    if frameCount <= 0 then [] else Times(frameCount - 1) + [frameCount]
  }

  /** One channel's list after the sampling loop: component `k` at `frame / fps` for each frame. */
  function Values(at: real -> Sample, frameCount: int, fps: real, k: nat): seq<real>
    requires k < 9 && (frameCount <= 0 || fps != 0.0)
    decreases frameCount
  {
    if frameCount <= 0 then []
    else Values(at, frameCount - 1, fps, k) + [Component(at(frameCount as real / fps), k)]
  }

  /** The sample times are exactly `1..frameCount`. */
  lemma {:induction false} TimesSpec(frameCount: int)
    ensures |Times(frameCount)| == if frameCount <= 0 then 0 else frameCount
    ensures forall i :: 0 <= i < |Times(frameCount)| ==> Times(frameCount)[i] == i + 1
    decreases frameCount
  {
    if frameCount > 0 {
      TimesSpec(frameCount - 1);
    }
  }

  /** Each channel has one value per sample time: component `k` of the sample at `(i + 1) / fps`. */
  lemma {:induction false} ValuesSpec(at: real -> Sample, frameCount: int, fps: real, k: nat)
    requires k < 9 && (frameCount <= 0 || fps != 0.0)
    ensures |Values(at, frameCount, fps, k)| == |Times(frameCount)|
    ensures forall i :: 0 <= i < |Values(at, frameCount, fps, k)| ==>
      Values(at, frameCount, fps, k)[i] == Component(at((i + 1) as real / fps), k)
    decreases frameCount
  {
    TimesSpec(frameCount);
    if frameCount > 0 {
      ValuesSpec(at, frameCount - 1, fps, k);
      TimesSpec(frameCount - 1);
    }
  }

  /** An entry of the `attrs` table: attribute, curve type and short name. */
  datatype Attr = Attr(name: string, curveType: string, shortName: string)

  const TransformAttrs: seq<Attr> := [
    Attr("translateX", "TL", "tx"), Attr("translateY", "TL", "ty"), Attr("translateZ", "TL", "tz"),
    Attr("rotateX", "TA", "rx"), Attr("rotateY", "TA", "ry"), Attr("rotateZ", "TA", "rz"),
    Attr("scaleX", "TU", "sx"), Attr("scaleY", "TU", "sy"), Attr("scaleZ", "TU", "sz")]

  /** `is_varying(values)`: more than one distinct value after `round(v, 6)`. */
  predicate Varying(values: seq<real>, f: FloatFormat)
  {
    IsAnimated(values, f.round6)
  }

  /** The curve of one channel followed by the statement that drives the attribute with it. */
  function CurveBlock(nodeName: string, attr: Attr, times: seq<int>, values: seq<real>, f: FloatFormat): seq<string>
  {
    AnimCurveLines(nodeName, attr.name, attr.curveType, times, values, f)
      + ConnectAnimCurveLines(AnimCurveName(nodeName, attr.name), nodeName, attr.shortName)
  }

  /** The attribute loop over the first `k` entries of the table. */
  function CurveBlocks(nodeName: string, times: seq<int>, channels: seq<seq<real>>, f: FloatFormat, k: nat): seq<string>
    requires |channels| == |TransformAttrs| && k <= |TransformAttrs|
  {
    if k == 0 then []
    else
      CurveBlocks(nodeName, times, channels, f, k - 1)
        + (if Varying(channels[k - 1], f) then CurveBlock(nodeName, TransformAttrs[k - 1], times, channels[k - 1], f) else [])
  }

  /** The nine value lists, in table order. */
  function SampledChannels(at: real -> Sample, frameCount: int, fps: real): (r: seq<seq<real>>)
    requires frameCount <= 0 || fps != 0.0
    ensures |r| == |TransformAttrs|
  {
    seq(9, k requires 0 <= k < 9 => Values(at, frameCount, fps, k))
  }

  /** `_animate_transform(reader, obj, node_name, fps, frame_count)`. */
  function TransformAnimationLines(at: real -> Sample, nodeName: string, fps: real, frameCount: int, f: FloatFormat): seq<string>
    requires frameCount <= 0 || fps != 0.0
  {
    CurveBlocks(nodeName, Times(frameCount), SampledChannels(at, frameCount, fps), f, 9)
  }

  /** The channels among the first `k` whose values vary, in table order. */
  function AnimatedChannels(channels: seq<seq<real>>, f: FloatFormat, k: nat): (r: seq<nat>)
    requires k <= |channels|
    ensures forall i :: 0 <= i < |r| ==> r[i] < k
  {
    if k == 0 then []
    else AnimatedChannels(channels, f, k - 1) + (if Varying(channels[k - 1], f) then [k - 1] else [])
  }

  /** A channel is listed exactly when it varies, and the list is strictly increasing. */
  lemma {:induction false} AnimatedChannelsSpec(channels: seq<seq<real>>, f: FloatFormat, k: nat)
    requires k <= |channels|
    ensures forall j: nat :: j in AnimatedChannels(channels, f, k) <==> j < k && Varying(channels[j], f)
    ensures forall a, b :: 0 <= a < b < |AnimatedChannels(channels, f, k)| ==>
      AnimatedChannels(channels, f, k)[a] < AnimatedChannels(channels, f, k)[b]
  {
    if k > 0 {
      AnimatedChannelsSpec(channels, f, k - 1);
      var before := AnimatedChannels(channels, f, k - 1);
      var r := AnimatedChannels(channels, f, k);
      if Varying(channels[k - 1], f) {
        assert r == before + [k - 1];
        forall j: nat
          ensures j in r <==> j < k && Varying(channels[j], f)
        {
          assert j in r <==> j in before || j == k - 1;
        }
      } else {
        assert r == before;
      }
    }
  }

  /** `xs[0] + xs[1] + ...`. */
  function Concat(xs: seq<seq<string>>): seq<string>
  {
    if xs == [] then [] else Concat(xs[..|xs| - 1]) + xs[|xs| - 1]
  }

  /** The blocks of the animated channels, in table order. */
  function AnimatedBlocks(nodeName: string, times: seq<int>, channels: seq<seq<real>>, f: FloatFormat, k: nat): seq<seq<string>>
    requires |channels| == |TransformAttrs| && k <= |TransformAttrs|
  {
    var ks := AnimatedChannels(channels, f, k);
    AnimatedChannelsSpec(channels, f, k);
    seq(|ks|, i requires 0 <= i < |ks| => CurveBlock(nodeName, TransformAttrs[ks[i]], times, channels[ks[i]], f))
  }

  /**
   * The attribute loop emits exactly one curve block per varying channel,
   * in the table order tx, ty, tz, rx, ry, rz, sx, sy, sz, and nothing for
   * the others.
   */
  lemma {:induction false} CurveBlocksAreAnimatedBlocks(nodeName: string, times: seq<int>, channels: seq<seq<real>>, f: FloatFormat, k: nat)
    requires |channels| == |TransformAttrs| && k <= |TransformAttrs|
    ensures CurveBlocks(nodeName, times, channels, f, k) == Concat(AnimatedBlocks(nodeName, times, channels, f, k))
  {
    if k > 0 {
      CurveBlocksAreAnimatedBlocks(nodeName, times, channels, f, k - 1);
      AnimatedBlocksStep(nodeName, times, channels, f, k);
      var before := AnimatedBlocks(nodeName, times, channels, f, k - 1);
      var prefix := CurveBlocks(nodeName, times, channels, f, k - 1);
      assert prefix == Concat(before);
      if Varying(channels[k - 1], f) {
        var block := CurveBlock(nodeName, TransformAttrs[k - 1], times, channels[k - 1], f);
        assert CurveBlocks(nodeName, times, channels, f, k) == prefix + block;
        assert AnimatedBlocks(nodeName, times, channels, f, k) == before + [block];
        ConcatSnoc(before, block);
        assert Concat(before + [block]) == prefix + block;
      } else {
        assert CurveBlocks(nodeName, times, channels, f, k) == prefix + [];
        assert AnimatedBlocks(nodeName, times, channels, f, k) == before + [];
        assert before + [] == before;
      }
    } else {
      assert |AnimatedBlocks(nodeName, times, channels, f, k)| == 0;
      assert AnimatedBlocks(nodeName, times, channels, f, k) == [];
    }
  }

  lemma ConcatSnoc(xs: seq<seq<string>>, x: seq<string>)
    ensures Concat(xs + [x]) == Concat(xs) + x
  {
    assert (xs + [x])[..|xs|] == xs;
  }

  /** Taking one more table entry adds that channel's block exactly when it varies. */
  lemma AnimatedBlocksStep(nodeName: string, times: seq<int>, channels: seq<seq<real>>, f: FloatFormat, k: nat)
    requires |channels| == |TransformAttrs| && 0 < k <= |TransformAttrs|
    ensures AnimatedBlocks(nodeName, times, channels, f, k) ==
      AnimatedBlocks(nodeName, times, channels, f, k - 1)
        + (if Varying(channels[k - 1], f) then [CurveBlock(nodeName, TransformAttrs[k - 1], times, channels[k - 1], f)] else [])
  {
    var before := AnimatedBlocks(nodeName, times, channels, f, k - 1);
    var after := AnimatedBlocks(nodeName, times, channels, f, k);
    if Varying(channels[k - 1], f) {
      assert after[..|after| - 1] == before;
      assert after[|after| - 1] == CurveBlock(nodeName, TransformAttrs[k - 1], times, channels[k - 1], f);
      assert after == after[..|after| - 1] + [after[|after| - 1]];
    } else {
      assert after == before;
    }
  }

  /**
   * A curve block is the channel's curve, named `<node>_<attr>`, with one
   * key per sample, and ends with `connectAttr "<curve>.o" "<node>.<short>"`.
   */
  lemma CurveBlockShape(nodeName: string, attr: Attr, times: seq<int>, values: seq<real>, f: FloatFormat)
    requires |values| == |times|
    ensures var r := CurveBlock(nodeName, attr, times, values, f);
      && |r| == |times| + 5
      && r[0] == "createNode animCurve" + attr.curveType + " -n \"" + nodeName + "_" + attr.name + "\";"
      && r[|r| - 1] == "connectAttr \"" + nodeName + "_" + attr.name + ".o\" \"" + nodeName + "." + attr.shortName + "\";"
  {
    AnimCurveShape(nodeName, attr.name, attr.curveType, times, values, f);
  }

  /** With every channel as long as the sample times, each animated channel costs `|times| + 5` lines. */
  lemma {:induction false} CurveBlocksLength(nodeName: string, times: seq<int>, channels: seq<seq<real>>, f: FloatFormat, k: nat)
    requires |channels| == |TransformAttrs| && k <= |TransformAttrs|
    requires forall j :: 0 <= j < |channels| ==> |channels[j]| == |times|
    ensures |CurveBlocks(nodeName, times, channels, f, k)| == |AnimatedChannels(channels, f, k)| * (|times| + 5)
  {
    if k > 0 {
      CurveBlocksLength(nodeName, times, channels, f, k - 1);
      var m := |AnimatedChannels(channels, f, k - 1)|;
      var prefixLength := |CurveBlocks(nodeName, times, channels, f, k - 1)|;
      assert prefixLength == m * (|times| + 5);
      if Varying(channels[k - 1], f) {
        CurveBlockShape(nodeName, TransformAttrs[k - 1], times, channels[k - 1], f);
        assert |AnimatedChannels(channels, f, k)| == m + 1;
        MulSucc(m, |times| + 5);
      } else {
        assert |AnimatedChannels(channels, f, k)| == m;
      }
    }
  }

  lemma MulSucc(m: int, n: int)
    ensures (m + 1) * n == m * n + n
  {
  }

  /**
   * One frame (or none) never animates anything: a channel with fewer
   * than two samples cannot vary.
   */
  lemma SingleFrameNoCurves(at: real -> Sample, nodeName: string, fps: real, frameCount: int, f: FloatFormat)
    requires frameCount <= 1 && (frameCount <= 0 || fps != 0.0)
    ensures TransformAnimationLines(at, nodeName, fps, frameCount, f) == []
  {
    var channels := SampledChannels(at, frameCount, fps);
    forall k | 0 <= k < 9
      ensures !Varying(channels[k], f)
    {
      ValuesSpec(at, frameCount, fps, k);
      TimesSpec(frameCount);
      ShortChannelNotAnimated(channels[k], f.round6);
    }
    NoVaryingNoBlocks(nodeName, Times(frameCount), channels, f, 9);
  }

  lemma {:induction false} NoVaryingNoBlocks(nodeName: string, times: seq<int>, channels: seq<seq<real>>, f: FloatFormat, k: nat)
    requires |channels| == |TransformAttrs| && k <= |TransformAttrs|
    requires forall j :: 0 <= j < k ==> !Varying(channels[j], f)
    ensures CurveBlocks(nodeName, times, channels, f, k) == []
  {
    if k > 0 {
      NoVaryingNoBlocks(nodeName, times, channels, f, k - 1);
    }
  }

  /**
   * The whole transform animation: one block per varying channel of the
   * sampled values, `|times| + 5` lines each, with `|times|` the frame
   * count.
   */
  lemma TransformAnimationShape(at: real -> Sample, nodeName: string, fps: real, frameCount: int, f: FloatFormat)
    requires frameCount <= 0 || fps != 0.0
    ensures var channels := SampledChannels(at, frameCount, fps);
      && TransformAnimationLines(at, nodeName, fps, frameCount, f) == Concat(AnimatedBlocks(nodeName, Times(frameCount), channels, f, 9))
      && |TransformAnimationLines(at, nodeName, fps, frameCount, f)| == |AnimatedChannels(channels, f, 9)| * (|Times(frameCount)| + 5)
  {
    var channels := SampledChannels(at, frameCount, fps);
    CurveBlocksAreAnimatedBlocks(nodeName, Times(frameCount), channels, f, 9);
    forall j | 0 <= j < 9
      ensures |channels[j]| == |Times(frameCount)|
    {
      ValuesSpec(at, frameCount, fps, j);
    }
    CurveBlocksLength(nodeName, Times(frameCount), channels, f, 9);
  }
}
