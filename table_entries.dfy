/** What the visibility table decides for the keys it writes twice: a
    dictionary display keeps the value of the last occurrence. */
module TableEntries {
  import opened Outcomes
  import opened WidgetConditions
  import opened Visibility

  /** One `widget: {controller: [texts], ...}` item of the table's dictionary
      display, as written. */
  datatype Item = Item(widget: Widget, reqs: seq<Requirement>)

  /** What a dictionary display evaluates to: the items in order, an item
      whose key came before replacing that key's value. */
  function Display(items: seq<Item>): (m: map<Widget, seq<Requirement>>)
    ensures m.Keys == set i | 0 <= i < |items| :: items[i].widget
    decreases |items|
  {
    if items == [] then map[]
    else Display(items[..|items| - 1])[items[|items| - 1].widget := items[|items| - 1].reqs]
  }

  /** An item whose key no later item repeats gives that key its value. */
  lemma {:induction false} LaterItemWins(items: seq<Item>, i: nat)
    requires i < |items|
    requires forall j :: i < j < |items| ==> items[j].widget != items[i].widget
    ensures items[i].widget in Display(items) && Display(items)[items[i].widget] == items[i].reqs
    decreases |items|
  {
    var n := |items| - 1;
    if i < n {
      var front := items[..n];
      assert front[i] == items[i];
      forall j | i < j < |front|
        ensures front[j].widget != front[i].widget
      {
        assert front[j] == items[j];
      }
      LaterItemWins(front, i);
    }
  }

  /** A key written twice takes the value of its second item. */
  lemma {:induction false} RepeatedKey(first: Item, second: Item)
    requires first.widget == second.widget
    ensures Display([first, second]) == map[second.widget := second.reqs]
  {
    assert [first, second][..1] == [first];
    assert [first][..0] == [];
  }

  /** An entry with one requirement holds exactly when its controller shows
      one of the texts that requirement allows. */
  lemma SingleRequirement(reqs: seq<Requirement>, controller: Widget, allowed: seq<Choice>, text: map<Name, string>)
    requires Covers(text)
    requires reqs == [Requirement(controller, allowed)]
    ensures AllHold(reqs, text) <==> text[Named(controller)] in Spelled(allowed)
  {
    assert reqs[0] == Requirement(controller, allowed);
  }

  /** Lines 1345 and 1519: the radius label of the close-points filter
      takes the second entry, which names the filter's own switch. */
  lemma ClosePointsRadiusLabelEntry()
    ensures ConditionOf(InstanceSegView(inst_seg_remove_close_points_radius_label))
      == Some([Requirement(Test(TEST__POST_PROCESSING__REMOVE_CLOSE_POINTS__INST_SEG__INPUT), [Yes])])
  {
  }

  /** Lines 1345 and 1519: the label is shown exactly when the filter is
      switched on; the instance channels of the overwritten entry play no part. */
  lemma ClosePointsRadiusLabelFollowsSwitch(text: map<Name, string>)
    requires Covers(text)
    ensures ConditionOf(InstanceSegView(inst_seg_remove_close_points_radius_label)).Some?
    ensures AllHold(ConditionOf(InstanceSegView(inst_seg_remove_close_points_radius_label)).value, text)
      <==> text[Named(Test(TEST__POST_PROCESSING__REMOVE_CLOSE_POINTS__INST_SEG__INPUT))] == "Yes"
  {
    ClosePointsRadiusLabelEntry();
    SingleRequirement(ConditionOf(InstanceSegView(inst_seg_remove_close_points_radius_label)).value,
                      Test(TEST__POST_PROCESSING__REMOVE_CLOSE_POINTS__INST_SEG__INPUT), [Yes], text);
    assert Spelled([Yes]) == ["Yes"];
  }

  /** Lines 1352 and 1526: the radius input of the same filter takes the
      second entry as well. */
  lemma ClosePointsRadiusInputEntry()
    ensures ConditionOf(Test(TEST__POST_PROCESSING__REMOVE_CLOSE_POINTS_RADIUS__INST_SEG__INPUT))
      == Some([Requirement(Test(TEST__POST_PROCESSING__REMOVE_CLOSE_POINTS__INST_SEG__INPUT), [Yes])])
  {
  }

  /** Lines 1352 and 1526: the radius input is shown exactly when the filter
      is switched on. */
  lemma ClosePointsRadiusInputFollowsSwitch(text: map<Name, string>)
    requires Covers(text)
    ensures ConditionOf(Test(TEST__POST_PROCESSING__REMOVE_CLOSE_POINTS_RADIUS__INST_SEG__INPUT)).Some?
    ensures AllHold(ConditionOf(Test(TEST__POST_PROCESSING__REMOVE_CLOSE_POINTS_RADIUS__INST_SEG__INPUT)).value, text)
      <==> text[Named(Test(TEST__POST_PROCESSING__REMOVE_CLOSE_POINTS__INST_SEG__INPUT))] == "Yes"
  {
    ClosePointsRadiusInputEntry();
    SingleRequirement(ConditionOf(Test(TEST__POST_PROCESSING__REMOVE_CLOSE_POINTS_RADIUS__INST_SEG__INPUT)).value,
                      Test(TEST__POST_PROCESSING__REMOVE_CLOSE_POINTS__INST_SEG__INPUT), [Yes], text);
    assert Spelled([Yes]) == ["Yes"];
  }

  /** Lines 1279 and 1419: the distance-channel mask option takes the second
      entry, which drops the threshold-type requirement and the "Distance map
      with background" channels of the first. */
  lemma DistanceChannelMaskEntry()
    ensures ConditionOf(Problem(PROBLEM__INSTANCE_SEG__DISTANCE_CHANNEL_MASK__INPUT))
      == Some([Requirement(Problem(PROBLEM__INSTANCE_SEG__DATA_CHANNELS__INPUT),
                           [BinaryMaskDistanceMap, BinaryMaskContoursDistanceMap,
                            BinaryMaskContoursDistanceMapWithBackground, BinaryMaskDistanceMapWithBackground])])
  {
  }

  /** Lines 1279 and 1419: the option is shown exactly when the instance
      channels include a distance map next to a binary mask, whatever the
      threshold type. */
  lemma DistanceChannelMaskFollowsChannels(text: map<Name, string>)
    requires Covers(text)
    ensures ConditionOf(Problem(PROBLEM__INSTANCE_SEG__DISTANCE_CHANNEL_MASK__INPUT)).Some?
    ensures AllHold(ConditionOf(Problem(PROBLEM__INSTANCE_SEG__DISTANCE_CHANNEL_MASK__INPUT)).value, text)
      <==> text[Named(Problem(PROBLEM__INSTANCE_SEG__DATA_CHANNELS__INPUT))] in
             ["Binary mask + Distance map", "Binary mask + Contours + Distance map",
              "Binary mask + Contours + Distance map with background (experimental)",
              "Binary mask + Distance map with background (experimental)"]
  {
    var allowed := [BinaryMaskDistanceMap, BinaryMaskContoursDistanceMap,
                    BinaryMaskContoursDistanceMapWithBackground, BinaryMaskDistanceMapWithBackground];
    DistanceChannelMaskEntry();
    SingleRequirement(ConditionOf(Problem(PROBLEM__INSTANCE_SEG__DISTANCE_CHANNEL_MASK__INPUT)).value,
                      Problem(PROBLEM__INSTANCE_SEG__DATA_CHANNELS__INPUT), allowed, text);
    assert Spelled(allowed) == ["Binary mask + Distance map", "Binary mask + Contours + Distance map",
                                "Binary mask + Contours + Distance map with background (experimental)",
                                "Binary mask + Distance map with background (experimental)"];
  }

  /** Lines 1811 and 1860: the decoder hidden size of the masked autoencoder
      is written twice with the same requirement, and keeps it. */
  lemma MaeDecoderHiddenSizeEntry()
    ensures ConditionOf(Model(MODEL__MAE_DEC_HIDDEN_SIZE__INPUT))
      == Some([Requirement(Model(MODEL__ARCHITECTURE__INPUT), [MAE])])
  {
  }

  // ---------------------------------------------------------------------------
  // The keys the table writes twice, with both items as written.

  /** Lines 1279-1294 and 1419-1428. */
  function DistanceChannelMaskItems(): seq<Item> {
    [ Item(Problem(PROBLEM__INSTANCE_SEG__DISTANCE_CHANNEL_MASK__INPUT),
           [ Requirement(Problem(PROBLEM__INSTANCE_SEG__DATA_CHANNELS__INPUT),
                         [BinaryMaskDistanceMap, BinaryMaskContoursDistanceMap, BinaryMaskContoursDistanceMapWithBackground,
                          BinaryMaskDistanceMapWithBackground, DistanceMapWithBackground]),
             Requirement(Problem(PROBLEM__INSTANCE_SEG__DATA_MW_TH_TYPE__INPUT), [Manual, Auto]) ]),
      Item(Problem(PROBLEM__INSTANCE_SEG__DISTANCE_CHANNEL_MASK__INPUT),
           [ Requirement(Problem(PROBLEM__INSTANCE_SEG__DATA_CHANNELS__INPUT),
                         [BinaryMaskDistanceMap, BinaryMaskContoursDistanceMap, BinaryMaskContoursDistanceMapWithBackground,
                          BinaryMaskDistanceMapWithBackground]) ]) ]
  }

  /** Lines 1345-1351 and 1519-1525. */
  function ClosePointsRadiusLabelItems(): seq<Item> {
    [ Item(InstanceSegView(inst_seg_remove_close_points_radius_label),
           [Requirement(Problem(PROBLEM__INSTANCE_SEG__DATA_CHANNELS__INPUT), [BinaryMaskCentralPoints])]),
      Item(InstanceSegView(inst_seg_remove_close_points_radius_label),
           [Requirement(Test(TEST__POST_PROCESSING__REMOVE_CLOSE_POINTS__INST_SEG__INPUT), [Yes])]) ]
  }

  /** Lines 1352-1358 and 1526-1532. */
  function ClosePointsRadiusInputItems(): seq<Item> {
    [ Item(Test(TEST__POST_PROCESSING__REMOVE_CLOSE_POINTS_RADIUS__INST_SEG__INPUT),
           [Requirement(Problem(PROBLEM__INSTANCE_SEG__DATA_CHANNELS__INPUT), [BinaryMaskCentralPoints])]),
      Item(Test(TEST__POST_PROCESSING__REMOVE_CLOSE_POINTS_RADIUS__INST_SEG__INPUT),
           [Requirement(Test(TEST__POST_PROCESSING__REMOVE_CLOSE_POINTS__INST_SEG__INPUT), [Yes])]) ]
  }

  /** Lines 1811-1817 and 1860-1866. */
  function MaeDecoderHiddenSizeItems(): seq<Item> {
    [ Item(Model(MODEL__MAE_DEC_HIDDEN_SIZE__INPUT), [Requirement(Model(MODEL__ARCHITECTURE__INPUT), [MAE])]),
      Item(Model(MODEL__MAE_DEC_HIDDEN_SIZE__INPUT), [Requirement(Model(MODEL__ARCHITECTURE__INPUT), [MAE])]) ]
  }

  /** The table's entry for the distance-channel mask option is what the two
      items as written evaluate to. */
  lemma DistanceChannelMaskDisplayed()
    ensures var items := DistanceChannelMaskItems();
      ConditionOf(items[0].widget) == Some(Display(items)[items[0].widget])
  {
    var items := DistanceChannelMaskItems();
    RepeatedKey(items[0], items[1]);
    DistanceChannelMaskEntry();
  }

  /** What the overwrite of line 1419 changes: with the channels set to a
      distance map with background alone and the threshold type to "manual",
      the item of line 1279 would show the option, but the table's entry,
      which drops that channel setting and the threshold-type requirement,
      hides it. */
  lemma DistanceChannelMaskOverwriteHides(text: map<Name, string>)
    requires Covers(text)
    requires text[Named(Problem(PROBLEM__INSTANCE_SEG__DATA_CHANNELS__INPUT))] == "Distance map with background (experimental)"
    requires text[Named(Problem(PROBLEM__INSTANCE_SEG__DATA_MW_TH_TYPE__INPUT))] == "manual"
    ensures AllHold(DistanceChannelMaskItems()[0].reqs, text)
    ensures ConditionOf(Problem(PROBLEM__INSTANCE_SEG__DISTANCE_CHANNEL_MASK__INPUT)).Some?
    ensures !AllHold(ConditionOf(Problem(PROBLEM__INSTANCE_SEG__DISTANCE_CHANNEL_MASK__INPUT)).value, text)
  {
    var reqs := DistanceChannelMaskItems()[0].reqs;
    assert Spelled(reqs[0].allowed)[4] == "Distance map with background (experimental)";
    assert Spelled(reqs[1].allowed)[0] == "manual";
    assert Holds(reqs[0], text) && Holds(reqs[1], text);
    DistanceChannelMaskFollowsChannels(text);
  }

  /** The table's entry for the radius label is what its two items evaluate to. */
  lemma ClosePointsRadiusLabelDisplayed()
    ensures var items := ClosePointsRadiusLabelItems();
      ConditionOf(items[0].widget) == Some(Display(items)[items[0].widget])
  {
    var items := ClosePointsRadiusLabelItems();
    RepeatedKey(items[0], items[1]);
    ClosePointsRadiusLabelEntry();
  }

  /** The table's entry for the radius input is what its two items evaluate to. */
  lemma ClosePointsRadiusInputDisplayed()
    ensures var items := ClosePointsRadiusInputItems();
      ConditionOf(items[0].widget) == Some(Display(items)[items[0].widget])
  {
    var items := ClosePointsRadiusInputItems();
    RepeatedKey(items[0], items[1]);
    ClosePointsRadiusInputEntry();
  }

  /** The table's entry for the decoder hidden size is what its two items
      evaluate to. */
  lemma MaeDecoderHiddenSizeDisplayed()
    ensures var items := MaeDecoderHiddenSizeItems();
      ConditionOf(items[0].widget) == Some(Display(items)[items[0].widget])
  {
    var items := MaeDecoderHiddenSizeItems();
    RepeatedKey(items[0], items[1]);
    MaeDecoderHiddenSizeEntry();
  }
}
