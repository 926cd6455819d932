/** What the individual rule groups accept, stated independently of the
    order in which they test things. */
module RuleProperties {
  import opened Outcomes
  import opened Text
  import opened RangeCheck
  import opened Configuration
  import opened CheckRules

  /** 'Dv2' is one channel however it is spelled: every other character is
      one channel, and all occurrences of 'Dv2' together count as one. */
  lemma {:induction false} ChannelsProvidedCount(s: string)
    ensures Occurrences(s, "Dv2") == 0 ==> ChannelsProvided(s) == |s|
    ensures Occurrences(s, "Dv2") > 0 ==> ChannelsProvided(s) == |s| - 3 * Occurrences(s, "Dv2") + 1
  {
    ContainsIffOccurs(s, "Dv2");
    RemoveAllLength(s, "Dv2");
  }

  lemma {:induction false} ShorterNotContains(s: string, t: string)
    requires |s| < |t|
    ensures !Contains(s, t)
    decreases |s|
  {
    if |s| > 0 {
      ShorterNotContains(s[1..], t);
    }
  }

  /** The channel counts of the eight accepted DATA_CHANNELS settings. */
  lemma {:induction false} InstanceChannelCounts()
    ensures ChannelsProvided("BC") == 2 && ChannelsProvided("BCM") == 3 && ChannelsProvided("BCD") == 3
    ensures ChannelsProvided("BCDv2") == 3 && ChannelsProvided("Dv2") == 1 && ChannelsProvided("BDv2") == 2
    ensures ChannelsProvided("BP") == 2 && ChannelsProvided("BD") == 2
  {
    ShorterNotContains("BC", "Dv2");
    ShorterNotContains("BP", "Dv2");
    ShorterNotContains("BD", "Dv2");
    ShorterNotContains("CM", "Dv2");
    ShorterNotContains("CD", "Dv2");
    assert "BCM"[1..] == "CM" && "BCD"[1..] == "CD";
    assert RemoveAll("Dv2", "Dv2") == "";
    assert "Dv2"[..3] == "Dv2";
    assert Contains("Dv2", "Dv2");
    assert RemoveAll("BDv2", "Dv2") == "B";
    assert "BDv2"[1..] == "Dv2";
    assert Contains("BDv2", "Dv2");
    assert "BCDv2"[1..] == "CDv2" && "CDv2"[1..] == "Dv2";
    assert RemoveAll("BCDv2", "Dv2") == "BC";
    assert Contains("BCDv2", "Dv2");
  }

  /** The structuring-element loop at lines 56-62 passes exactly when every
      element is a list, holds no -1 and has one entry per spatial axis. */
  lemma {:induction false} FirstDilationIff(xs: seq<Structure>, dim: nat)
    ensures FirstDilationRules(xs, dim) == Pass <==>
      forall k :: 0 <= k < |xs| ==> xs[k].AsList? && -1 !in xs[k].items && |xs[k].items| == dim
    decreases |xs|
  {
    if xs != [] {
      FirstDilationIff(xs[1..], dim);
      assert forall k :: 1 <= k < |xs| ==> xs[k] == xs[1..][k - 1];
    }
  }

  /** DETECTION accepts a REMOVE_BY_PROPERTIES group only if it is empty or
      exactly ['circularity'] (lines 75-79). */
  lemma {:induction false} DetectionFiltersIff(props: seq<seq<string>>, i: nat)
    ensures DetectionFiltersFrom(props, i) == Pass
      <==> forall k :: i <= k < |props| ==> props[k] == [] || props[k] == ["circularity"]
    decreases |props| - i
  {
    if i < |props| {
      DetectionFiltersIff(props, i + 1);
      if |props[i]| == 1 && props[i][0] == "circularity" {
        assert props[i] == ["circularity"];
      }
    }
  }

  /** Every entry of a group from `j` on names a known property, uses a
      known comparison sign, and keeps a circularity threshold in [0, 1]. */
  predicate EntriesWellFormed(names: seq<string>, values: seq<real>, signs: seq<string>, j: nat)
    requires |names| == |values| == |signs|
  {
    forall m :: j <= m < |names| ==>
      && names[m] in PropertyNames && signs[m] in PropertySigns
      && (names[m] == "circularity" ==> 0.0 <= values[m] <= 1.0)
  }

  /** Group `k` of REMOVE_BY_PROPERTIES is well formed: non-empty, matched by
      a VALUES and a SIGN entry of the same length, used in a workflow that
      supports it, without repeated properties, and with well-formed entries. */
  predicate GroupWellFormed(pp: PostProcessing, ptype: string, k: nat)
    requires k < |pp.removeByProperties|
  {
    var names := pp.removeByProperties[k];
    && 0 < |names|
    && k < |pp.removeByPropertiesValues| && k < |pp.removeByPropertiesSign|
    && |names| == |pp.removeByPropertiesValues[k]| == |pp.removeByPropertiesSign[k]|
    && ptype in ["INSTANCE_SEG", "DETECTION"]
    && (forall a, b :: 0 <= a < b < |names| ==> names[a] != names[b])
    && EntriesWellFormed(names, pp.removeByPropertiesValues[k], pp.removeByPropertiesSign[k], 0)
  }

  lemma {:induction false} PropertyEntriesIff(names: seq<string>, values: seq<real>, signs: seq<string>, j: nat)
    requires |names| == |values| == |signs|
    ensures PropertyEntriesFrom(names, values, signs, j) == Pass <==> EntriesWellFormed(names, values, signs, j)
    decreases |names| - j
  {
    if j < |names| {
      PropertyEntriesIff(names, values, signs, j + 1);
    }
  }

  /** One pass of the outer loop at lines 81-106 accepts group `i` exactly
      when the group is well formed. */
  lemma {:induction false} PropertyGroupIff(pp: PostProcessing, ptype: string, i: nat)
    requires i < |pp.removeByProperties|
    ensures PropertyGroup(pp, ptype, i) == Pass <==> GroupWellFormed(pp, ptype, i)
  {
    var names := pp.removeByProperties[i];
    if 0 < |names| && i < |pp.removeByPropertiesValues| && i < |pp.removeByPropertiesSign|
      && |names| == |pp.removeByPropertiesValues[i]| == |pp.removeByPropertiesSign[i]|
    {
      PropertyEntriesIff(names, pp.removeByPropertiesValues[i], pp.removeByPropertiesSign[i], 0);
    }
  }

  /** The loop at lines 81-106 passes exactly when every group is well formed. */
  lemma {:induction false} PropertyGroupsIff(pp: PostProcessing, ptype: string, i: nat)
    ensures PropertyGroupsFrom(pp, ptype, i) == Pass
      <==> forall k :: i <= k < |pp.removeByProperties| ==> GroupWellFormed(pp, ptype, k)
    decreases |pp.removeByProperties| - i
  {
    if i < |pp.removeByProperties| {
      PropertyGroupsIff(pp, ptype, i + 1);
      PropertyGroupIff(pp, ptype, i);
    }
  }

  lemma {:induction false} MinIsLeast(xs: seq<int>)
    requires |xs| > 0
    ensures forall k :: 0 <= k < |xs| ==> Min(xs) <= xs[k]
    ensures exists k :: 0 <= k < |xs| && Min(xs) == xs[k]
    decreases |xs|
  {
    if |xs| > 1 {
      MinIsLeast(xs[1..]);
      assert forall k :: 1 <= k < |xs| ==> xs[k] == xs[1..][k - 1];
      var w :| 0 <= w < |xs[1..]| && Min(xs[1..]) == xs[1..][w];
      assert xs[w + 1] == xs[1..][w];
      if Min(xs) == xs[0] {
        assert 0 <= 0 < |xs| && Min(xs) == xs[0];
      } else {
        assert 0 <= w + 1 < |xs| && Min(xs) == xs[w + 1];
      }
    } else {
      assert Min(xs) == xs[0];
    }
  }

  /** The lists the consecutiveness test at line 69 lets through, given NumPy
      broadcasting: 1, 2, ..., n; a single class of at least 1; or n copies
      of n. */
  predicate ConsecutiveAsWritten(classes: seq<int>) {
    || (forall k :: 0 <= k < |classes| ==> classes[k] == k + 1)
    || (|classes| == 1 && classes[0] >= 1)
    || (|classes| >= 2 && forall k :: 0 <= k < |classes| ==> classes[k] == |classes|)
  }

  /** NumPy can compare the class list with `range(min, n + 1)` exactly
      when the two have the same length (the minimum is 1), either has one
      element, or the minimum is the length. */
  lemma {:induction false} ConsecutiveBroadcasts(classes: seq<int>)
    requires |classes| > 0
    ensures ElementwiseEqual(classes, Range(Min(classes), |classes| + 1)).Failure?
      <==> |classes| >= 2 && Min(classes) != 1 && Min(classes) != |classes|
  {
  }

  /** Every list of `ConsecutiveAsWritten` passes line 69. */
  lemma {:induction false} ConsecutiveAccepted(classes: seq<int>)
    requires ConsecutiveAsWritten(classes) && |classes| > 0
    ensures var r := ElementwiseEqual(classes, Range(Min(classes), |classes| + 1));
      r.Success? && AllTrue(r.value)
  {
    MinIsLeast(classes);
    var m := Min(classes);
    var n := |classes|;
    if forall k :: 0 <= k < n ==> classes[k] == k + 1 {
      var w :| 0 <= w < n && m == classes[w];
      assert m <= classes[0] == 1;
    } else if n == 1 {
      assert m == classes[0];
    } else {
      assert m == classes[0] == n;
    }
  }

  /** A single class below 1 fails line 69: `range(c, 2)` then has a second
      element, which differs from it. */
  lemma {:induction false} SingleClassBelowOneRejected(classes: seq<int>)
    requires |classes| == 1
    ensures classes[0] <= 0 ==> !AllTrue(ElementwiseEqual(classes, Range(classes[0], 2)).value)
  {
    if classes[0] <= 0 {
      var r := ElementwiseEqual(classes, Range(classes[0], 2));
      assert !r.value[1];
    }
  }

  /** Several classes with minimum 1 pass line 69 only as 1, 2, ..., n. */
  lemma {:induction false} ConsecutiveFromOne(classes: seq<int>)
    requires |classes| >= 2 && Min(classes) == 1
    requires var r := ElementwiseEqual(classes, Range(1, |classes| + 1)); r.Success? && AllTrue(r.value)
    ensures forall k :: 0 <= k < |classes| ==> classes[k] == k + 1
  {
    var r := ElementwiseEqual(classes, Range(1, |classes| + 1));
    forall k | 0 <= k < |classes| ensures classes[k] == k + 1 {
      assert r.value[k];
    }
  }

  /** Several classes with a minimum other than 1 pass line 69 only when
      the minimum is their count and every class equals it. */
  lemma {:induction false} ConsecutiveBroadcastFromLast(classes: seq<int>)
    requires |classes| >= 2 && Min(classes) != 1
    requires var r := ElementwiseEqual(classes, Range(Min(classes), |classes| + 1)); r.Success? && AllTrue(r.value)
    ensures forall k :: 0 <= k < |classes| ==> classes[k] == |classes|
  {
    var n := |classes|;
    var b := Range(Min(classes), n + 1);
    assert |b| == 1 && b[0] == n;
    var r := ElementwiseEqual(classes, b);
    forall k | 0 <= k < n ensures classes[k] == n {
      assert r.value[k];
    }
  }

  /** Only the lists of `ConsecutiveAsWritten` pass line 69. */
  lemma {:induction false} ConsecutiveOnlyAsWritten(classes: seq<int>)
    requires |classes| > 0
    requires var r := ElementwiseEqual(classes, Range(Min(classes), |classes| + 1));
      r.Success? && AllTrue(r.value)
    ensures ConsecutiveAsWritten(classes)
  {
    var m := Min(classes);
    if |classes| == 1 {
      assert m == classes[0];
      SingleClassBelowOneRejected(classes);
      assert classes[0] >= 1;
    } else if m == 1 {
      ConsecutiveFromOne(classes);
    } else {
      ConsecutiveBroadcastFromLast(classes);
    }
  }

  /** What line 69 does with a non-empty class list: it raises when NumPy
      cannot broadcast the two arrays, passes exactly the lists of
      `ConsecutiveAsWritten`, and rejects the others at line 70. */
  lemma {:induction false} ConsecutiveTest(classes: seq<int>)
    requires |classes| > 0
    ensures var m := Min(classes);
      var r := ElementwiseEqual(classes, Range(m, |classes| + 1));
      && (r.Failure? <==> |classes| >= 2 && m != 1 && m != |classes|)
      && (r.Success? && AllTrue(r.value) <==> ConsecutiveAsWritten(classes))
  {
    ConsecutiveBroadcasts(classes);
    var r := ElementwiseEqual(classes, Range(Min(classes), |classes| + 1));
    if ConsecutiveAsWritten(classes) {
      ConsecutiveAccepted(classes);
    }
    if r.Success? && AllTrue(r.value) {
      ConsecutiveOnlyAsWritten(classes);
    }
  }

  /** The donut settings of lines 63-72 are accepted exactly when the list
      is non-empty, has at most N_CLASSES entries, none above N_CLASSES,
      passes the consecutiveness test, and the donut patch has one extent
      per spatial axis. */
  lemma {:induction false} DonutsIff(classes: seq<int>, nClasses: int, patch: seq<int>, dim: nat)
    ensures DonutsRules(classes, nClasses, patch, dim) == Pass <==>
      && 0 < |classes| <= nClasses
      && (forall k :: 0 <= k < |classes| ==> classes[k] <= nClasses)
      && ConsecutiveAsWritten(classes)
      && |patch| == dim
  {
    if |classes| > 0 {
      ConsecutiveTest(classes);
      MaxIsGreatest(classes);
    }
  }

  lemma {:induction false} MaxIsGreatest(xs: seq<int>)
    requires |xs| > 0
    ensures forall k :: 0 <= k < |xs| ==> xs[k] <= Max(xs)
    ensures exists k :: 0 <= k < |xs| && Max(xs) == xs[k]
    decreases |xs|
  {
    if |xs| > 1 {
      MaxIsGreatest(xs[1..]);
      assert forall k :: 1 <= k < |xs| ==> xs[k] == xs[1..][k - 1];
      var w :| 0 <= w < |xs[1..]| && Max(xs[1..]) == xs[1..][w];
      assert xs[w + 1] == xs[1..][w];
      if Max(xs) == xs[0] {
        assert 0 <= 0 < |xs| && Max(xs) == xs[0];
      } else {
        assert 0 <= w + 1 < |xs| && Max(xs) == xs[w + 1];
      }
    } else {
      assert Max(xs) == xs[0];
    }
  }

  /** Level `l` of the loop at lines 425-432 passes: Z_DOWN has an entry for
      it and every extent checked at that level is a non-zero multiple of
      2^(l+1). */
  predicate LevelDivides(c: Config, l: nat) {
    && l < |c.model.zDown|
    && forall k :: 0 <= k < |LevelSizes(c, l)| ==> LevelSizes(c, l)[k] % Pow2(l + 1) == 0 && LevelSizes(c, l)[k] != 0
  }

  /** Every level of a U-Net-like model halves the patch: the loop at lines
      425-432 passes exactly when every level from `i` on passes. */
  lemma {:induction false} UNetLevelsIff(c: Config, i: nat)
    ensures UNetLevelsFrom(c, i) == Pass <==>
      forall l :: i <= l && l + 1 < |c.model.featureMaps| ==> LevelDivides(c, l)
    decreases |c.model.featureMaps| - i
  {
    if i + 1 < |c.model.featureMaps| {
      UNetLevelsIff(c, i + 1);
      UNetLevelStep(c, i);
    }
  }

  /** One level of the loop at lines 425-432: it passes from level `i` on
      exactly when level `i` passes and the loop passes from the next one. */
  lemma UNetLevelStep(c: Config, i: nat)
    requires i + 1 < |c.model.featureMaps|
    ensures UNetLevelsFrom(c, i) == Pass <==> LevelDivides(c, i) && UNetLevelsFrom(c, i + 1) == Pass
  {
    if i < |c.model.zDown| {
      var sizes := LevelSizes(c, i);
      var r := FalseForIndivisible(sizes, Pow2(i + 1));
      if |r| > 0 {
        assert !r[0];
      }
    }
  }

  /** Each warning is printed exactly when its condition holds, once at most,
      and in the order of lines 142, 279 and 283. */
  lemma {:induction false} WarningsIff(c: Config)
    ensures FullImageStatsDisabled in Warnings(c) <==> c.problem.ndim == "3D" && c.test.stats.fullImg
    ensures ValInMemoryIgnored in Warnings(c) <==> c.data.val.crossVal && !c.data.val.inMemory
    ensures TestInMemoryDisabled in Warnings(c) <==>
      c.data.test.useValAsTest && !c.train.enable && c.data.test.inMemory
    ensures forall j, k :: 0 <= j < k < |Warnings(c)| ==> WarningLine(Warnings(c)[j]) < WarningLine(Warnings(c)[k])
  {
  }

  /** The line that prints a warning. */
  function WarningLine(w: Warning): int {
    match w
    case FullImageStatsDisabled => 142
    case ValInMemoryIgnored => 279
    case TestInMemoryDisabled => 283
  }
}
