/**
 * The animatedness test both exporters apply to one channel's sampled
 * values: `len(set(round(v, d) for v in vals)) > 1`. The FBX exporter
 * rounds to 4 digits (`is_animated`), the Maya exporter to 6
 * (`is_varying`); the rounding is the `key` argument.
 */
module Channels {

  /** The distinct rounded values of a channel. */
  function Keys(vals: seq<real>, key: real -> real): set<real>
  {
    set v | v in vals :: key(v)
  }

  /** A channel is animated when its rounded values take more than one value. */
  predicate IsAnimated(vals: seq<real>, key: real -> real)
  {
    |Keys(vals, key)| > 1
  }

  /** Animated exactly when two samples round to different keys. */
  lemma AnimatedIffTwoKeys(vals: seq<real>, key: real -> real)
    ensures IsAnimated(vals, key) <==>
      exists i, j :: 0 <= i < |vals| && 0 <= j < |vals| && key(vals[i]) != key(vals[j])
  {
    var ks := Keys(vals, key);
    if IsAnimated(vals, key) {
      KeysMember(vals, key, 0);
      var a := key(vals[0]);
      if forall j :: 0 <= j < |vals| ==> key(vals[j]) == a {
        forall b | b in ks
          ensures b in {a}
        {
          KeysWitness(vals, key, b);
        }
        SubsetCardinality(ks, {a});
        assert false;
      }
    }
    if exists i, j :: 0 <= i < |vals| && 0 <= j < |vals| && key(vals[i]) != key(vals[j]) {
      var i, j :| 0 <= i < |vals| && 0 <= j < |vals| && key(vals[i]) != key(vals[j]);
      KeysMember(vals, key, i);
      KeysMember(vals, key, j);
      var pair := {key(vals[i]), key(vals[j])};
      assert |pair| == 2 by {
        assert pair == {key(vals[i])} + {key(vals[j])};
      }
      SubsetCardinality(pair, ks);
    }
  }

  lemma KeysMember(vals: seq<real>, key: real -> real, i: nat)
    requires i < |vals|
    ensures key(vals[i]) in Keys(vals, key)
  {
    var x := vals[i];
    assert key(x) in (set v | v in vals :: key(v));
  }

  lemma KeysWitness(vals: seq<real>, key: real -> real, b: real)
    requires b in Keys(vals, key)
    ensures exists j :: 0 <= j < |vals| && key(vals[j]) == b
  {
    assert b in (set v | v in vals :: key(v));
    var v :| v in vals && key(v) == b;
    var j :| 0 <= j < |vals| && vals[j] == v;
  }

  lemma SubsetCardinality(a: set<real>, b: set<real>)
    requires a <= b
    ensures |a| <= |b|
  {
    assert b == a + (b - a);
  }

  /** Fewer than two samples never make an animated channel. */
  lemma ShortChannelNotAnimated(vals: seq<real>, key: real -> real)
    requires |vals| < 2
    ensures !IsAnimated(vals, key)
  {
    AnimatedIffTwoKeys(vals, key);
  }

  /** A channel with one repeated sample value is static. */
  lemma ConstantChannelNotAnimated(vals: seq<real>, key: real -> real)
    requires forall i :: 0 <= i < |vals| ==> vals[i] == vals[0]
    ensures !IsAnimated(vals, key)
  {
    AnimatedIffTwoKeys(vals, key);
  }
}
