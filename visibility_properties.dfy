/** What `combobox_hide_visible_action` promises, proved about the functions
    its method is specified by. */
module VisibilityProperties {
  import opened Outcomes
  import opened WidgetConditions
  import opened Visibility

  /** The position of the first listed widget the table does not declare, or
      the length of the list when it declares them all. */
  function FirstUndeclared(ws: seq<Name>): (p: nat)
    ensures p <= |ws|
    ensures forall k :: 0 <= k < p ==> Declared(ws[k]).Some?
    ensures p < |ws| ==> Declared(ws[p]).None?
    decreases |ws|
  {
    if ws == [] then 0
    else if Declared(ws[0]).None? then 0
    else 1 + FirstUndeclared(ws[1..])
  }

  // ---------------------------------------------------------------------------
  // Lines 1916-1929.

  /** The loop stops at the first undeclared widget, at line 1920, and
      passes when there is none. */
  lemma {:induction false} ShowHideOutcome(ws: seq<Name>, text: map<Name, string>, visible: map<Name, bool>)
    ensures var p := FirstUndeclared(ws);
      ShowHide(ws, text, visible).outcome == if p == |ws| then Pass else Fail(NotDeclared(ws[p]))
    decreases |ws|
  {
    if ws != [] && Declared(ws[0]).Some? {
      ShowHideOutcome(ws[1..], text, visible[ws[0] := AllHold(Declared(ws[0]).value, text)]);
    }
  }

  /** A name the table does not write stops the loop when it is reached. */
  lemma OtherNameNotDeclared(ws: seq<Name>, text: map<Name, string>, visible: map<Name, bool>, s: string)
    requires forall k :: 0 <= k < |ws| ==> Declared(ws[k]).Some?
    ensures ShowHide(ws + [Other(s)], text, visible).outcome == Fail(NotDeclared(Other(s)))
  {
    var xs := ws + [Other(s)];
    assert FirstUndeclared(xs) == |ws| by {
      assert forall k :: 0 <= k < |ws| ==> xs[k] == ws[k];
      assert xs[|ws|] == Other(s);
    }
    ShowHideOutcome(xs, text, visible);
  }

  /** Only the widgets the loop reached before stopping change visibility. */
  lemma {:induction false} ShowHideFrame(ws: seq<Name>, text: map<Name, string>, visible: map<Name, bool>)
    ensures var r := ShowHide(ws, text, visible).visible;
      var reached := ws[..FirstUndeclared(ws)];
      && (forall w :: w in visible ==> w in r)
      && (forall w :: w !in reached ==> (w in r <==> w in visible))
      && (forall w :: w !in reached && w in visible ==> r[w] == visible[w])
    decreases |ws|
  {
    if ws != [] && Declared(ws[0]).Some? {
      var rest := ws[1..];
      var v1 := visible[ws[0] := AllHold(Declared(ws[0]).value, text)];
      assert ShowHide(ws, text, visible) == ShowHide(rest, text, v1);
      ShowHideFrame(rest, text, v1);
      assert v1.Keys == visible.Keys + {ws[0]};
      assert ws[..FirstUndeclared(ws)] == [ws[0]] + rest[..FirstUndeclared(rest)];
    }
  }

  /** Lines 1916-1929: every widget the loop reached is visible exactly when
      each controller of its entry shows one of its allowed texts. A widget
      listed twice gets the same answer both times, since no text changes
      inside the loop. */
  lemma {:induction false} ShowHideDecides(ws: seq<Name>, text: map<Name, string>, visible: map<Name, bool>)
    ensures var r := ShowHide(ws, text, visible).visible;
      forall i :: 0 <= i < FirstUndeclared(ws) ==>
        ws[i] in r && (r[ws[i]] <==> AllHold(Declared(ws[i]).value, text))
    decreases |ws|
  {
    if ws != [] && Declared(ws[0]).Some? {
      var rest := ws[1..];
      var v1 := visible[ws[0] := AllHold(Declared(ws[0]).value, text)];
      var r := ShowHide(ws, text, visible).visible;
      assert r == ShowHide(rest, text, v1).visible;
      ShowHideDecides(rest, text, v1);
      ShowHideFrame(rest, text, v1);
      forall i | 0 <= i < FirstUndeclared(ws)
        ensures ws[i] in r && (r[ws[i]] <==> AllHold(Declared(ws[i]).value, text))
      {
        if i > 0 {
          assert ws[i] == rest[i - 1];
        } else if ws[0] in rest[..FirstUndeclared(rest)] {
          var j :| 0 <= j < FirstUndeclared(rest) && rest[j] == ws[0];
          assert rest[..FirstUndeclared(rest)][j] == rest[j];
        }
      }
    }
  }

  // ---------------------------------------------------------------------------
  // Lines 1932-1942.

  /** Lines 1934-1936: the conditional sets pass exactly when the window has
      the target of every rule that fires; otherwise they stop at such a
      target. */
  lemma {:induction false} SetRulesOutcome(rules: seq<SetRule>, current: string, text: map<Name, string>)
    ensures var r := ApplySetRules(rules, current, text);
      && (r.outcome.Pass? <==> forall k :: 0 <= k < |rules| && Fires(rules[k], current) ==> rules[k].target in text)
      && (r.outcome.Fail? ==> exists k :: 0 <= k < |rules| && Fires(rules[k], current) && rules[k].target !in text
                                          && r.outcome == Fail(NoAttribute(rules[k].target)))
    decreases |rules|
  {
    if rules != [] {
      var rest := rules[1..];
      var t1 := if Fires(rules[0], current) then text[rules[0].target := rules[0].value] else text;
      if !Fires(rules[0], current) || rules[0].target in text {
        SetRulesOutcome(rest, current, t1);
        assert t1.Keys == text.Keys;
        assert forall k :: 1 <= k < |rules| ==> rules[k] == rest[k - 1];
        var r := ApplySetRules(rules, current, text);
        if r.outcome.Fail? {
          var k :| 0 <= k < |rest| && Fires(rest[k], current) && rest[k].target !in t1
                   && r.outcome == Fail(NoAttribute(rest[k].target));
          assert rules[k + 1] == rest[k];
        }
      }
    }
  }

  /** Lines 1934-1936: when the conditional sets pass, a rule that fires sets
      its target unless a later rule that fires sets the same target. */
  lemma {:induction false} LaterRuleWins(rules: seq<SetRule>, current: string, text: map<Name, string>, j: nat)
    requires j < |rules| && Fires(rules[j], current)
    requires forall k :: j < k < |rules| && Fires(rules[k], current) ==> rules[k].target != rules[j].target
    ensures var r := ApplySetRules(rules, current, text);
      r.outcome.Pass? ==> rules[j].target in r.text && r.text[rules[j].target] == rules[j].value
    decreases |rules|
  {
    var t1 := if Fires(rules[0], current) then text[rules[0].target := rules[0].value] else text;
    if Fires(rules[0], current) && rules[0].target !in text {
    } else if j == 0 {
      UnfiredTargetKept(rules[1..], current, t1, rules[0].target);
    } else {
      LaterRuleWins(rules[1..], current, t1, j - 1);
    }
  }

  /** Lines 1934-1936: a widget no firing rule targets keeps its text, whether
      the sets pass or not. */
  lemma {:induction false} UnfiredTargetKept(rules: seq<SetRule>, current: string, text: map<Name, string>, w: Name)
    requires w in text
    requires forall k :: 0 <= k < |rules| && Fires(rules[k], current) ==> rules[k].target != w
    ensures var r := ApplySetRules(rules, current, text);
      w in r.text && r.text[w] == text[w]
    decreases |rules|
  {
    if rules != [] && (!Fires(rules[0], current) || rules[0].target in text) {
      var t1 := if Fires(rules[0], current) then text[rules[0].target := rules[0].value] else text;
      UnfiredTargetKept(rules[1..], current, t1, w);
    }
  }

  /** Lines 1941-1942: the copies pass exactly when the window has every
      listed widget; otherwise they stop at one it lacks. */
  lemma {:induction false} CopyValueOutcome(ws: seq<Name>, value: string, text: map<Name, string>)
    ensures var r := CopyValue(ws, value, text);
      && (r.outcome.Pass? <==> forall k :: 0 <= k < |ws| ==> ws[k] in text)
      && (r.outcome.Fail? ==> exists k :: 0 <= k < |ws| && ws[k] !in text && r.outcome == Fail(NoAttribute(ws[k])))
    decreases |ws|
  {
    if ws != [] && ws[0] in text {
      var rest := ws[1..];
      CopyValueOutcome(rest, value, text[ws[0] := value]);
      assert forall k :: 1 <= k < |ws| ==> ws[k] == rest[k - 1];
      var r := CopyValue(ws, value, text);
      if r.outcome.Fail? {
        var k :| 0 <= k < |rest| && rest[k] !in text[ws[0] := value] && r.outcome == Fail(NoAttribute(rest[k]));
        assert ws[k + 1] == rest[k];
      }
    }
  }

  /** Lines 1941-1942: when the copies pass, the listed widgets hold `value`;
      a widget not listed keeps its text in any case. */
  lemma {:induction false} CopyValueSets(ws: seq<Name>, value: string, text: map<Name, string>)
    ensures var r := CopyValue(ws, value, text);
      && (r.outcome.Pass? ==> forall w :: w in ws ==> w in r.text && r.text[w] == value)
      && (forall w :: w in text && w !in ws ==> r.text[w] == text[w])
    decreases |ws|
  {
    if ws != [] && ws[0] in text {
      var rest := ws[1..];
      var t1 := text[ws[0] := value];
      CopyValueSets(rest, value, t1);
      var r := CopyValue(ws, value, text);
      assert r == CopyValue(rest, value, t1);
      if r.outcome.Pass? {
        forall w | w in ws
          ensures w in r.text && r.text[w] == value
        {
          if w !in rest {
            assert w == ws[0];
          }
        }
      }
    }
  }

  // ---------------------------------------------------------------------------
  // The whole call.

  /** The window has every widget the conditional sets and the copies ask for:
      the updated widget when either is given, the target of every rule that
      fires on its text, and every widget to copy into. */
  predicate SetsFindWidgets(cond: Option<seq<SetRule>>, toSet: Option<seq<Name>>,
                            updated: Option<Name>, text: map<Name, string>)
  {
    updated.Some? ==>
      && ((cond.Some? || toSet.Some?) ==> updated.value in text)
      && (cond.Some? && updated.value in text ==>
            forall k :: 0 <= k < |cond.value| && Fires(cond.value[k], text[updated.value]) ==> cond.value[k].target in text)
      && (toSet.Some? ==> forall k :: 0 <= k < |toSet.value| ==> toSet.value[k] in text)
  }

  /** Lines 1911-1920: the two raises of the function itself, and that they
      set no text. */
  lemma {:induction false} ActionErrors(ws: seq<Name>, cond: Option<seq<SetRule>>, toSet: Option<seq<Name>>,
                                        updated: Option<Name>, text: map<Name, string>, visible: map<Name, bool>)
    ensures var a := HideVisibleAction(ws, cond, toSet, updated, text, visible);
      var p := FirstUndeclared(ws);
      && (a.outcome == Fail(UpdatedWidgetMissing) <==> cond.Some? && updated.None?)
      && (!(cond.Some? && updated.None?) && p < |ws| ==> a.outcome == Fail(NotDeclared(ws[p])) && a.text == text)
      && (a.outcome.Fail? && !a.outcome.error.NoAttribute? ==> a.text == text)
  {
    ShowHideOutcome(ws, text, visible);
  }

  /** Lines 1932-1942 within the call: once the visibility loop passed, the
      call passes exactly when the window has every widget the sets ask for,
      and otherwise raises at a name the window lacks. */
  lemma {:induction false} ActionAttributes(ws: seq<Name>, cond: Option<seq<SetRule>>, toSet: Option<seq<Name>>,
                                            updated: Option<Name>, text: map<Name, string>, visible: map<Name, bool>)
    requires !(cond.Some? && updated.None?) && FirstUndeclared(ws) == |ws|
    ensures var a := HideVisibleAction(ws, cond, toSet, updated, text, visible);
      && (a.outcome.Pass? <==> SetsFindWidgets(cond, toSet, updated, text))
      && (a.outcome.Fail? ==> a.outcome.error.NoAttribute? && a.outcome.error.widget !in text)
  {
    ShowHideOutcome(ws, text, visible);
    if updated.Some? && updated.value in text {
      var current := text[updated.value];
      if cond.Some? {
        SetRulesOutcome(cond.value, current, text);
      }
      var w1 := ConditionalSets(cond, updated, text);
      if w1.outcome.Pass? && toSet.Some? {
        CopyValueOutcome(toSet.value, w1.text[updated.value], w1.text);
      }
    }
  }

  /** Lines 1916-1929 within the call: the widgets reached are shown exactly
      when their entry holds on the texts the call started from, the others
      keep their visibility, whatever the call raises later. */
  lemma {:induction false} ActionVisibility(ws: seq<Name>, cond: Option<seq<SetRule>>, toSet: Option<seq<Name>>,
                                            updated: Option<Name>, text: map<Name, string>, visible: map<Name, bool>)
    requires !(cond.Some? && updated.None?)
    ensures var a := HideVisibleAction(ws, cond, toSet, updated, text, visible);
      var reached := ws[..FirstUndeclared(ws)];
      && (forall i :: 0 <= i < FirstUndeclared(ws) ==>
            ws[i] in a.visible && (a.visible[ws[i]] <==> AllHold(Declared(ws[i]).value, text)))
      && (forall w :: w in visible ==> w in a.visible)
      && (forall w :: w !in reached ==> (w in a.visible <==> w in visible))
      && (forall w :: w !in reached && w in visible ==> a.visible[w] == visible[w])
  {
    ShowHideDecides(ws, text, visible);
    ShowHideFrame(ws, text, visible);
    assert HideVisibleAction(ws, cond, toSet, updated, text, visible).visible == ShowHide(ws, text, visible).visible;
  }

  /** Lines 1932-1942 within the call: the window keeps its set of widgets,
      only targets of rules and the widgets of `widgets_to_set` change text,
      and when the call passes the latter receive the updated widget's text as
      the conditional sets left it. */
  lemma {:induction false} ActionTexts(ws: seq<Name>, cond: Option<seq<SetRule>>, toSet: Option<seq<Name>>,
                                       updated: Option<Name>, text: map<Name, string>, visible: map<Name, bool>)
    ensures var a := HideVisibleAction(ws, cond, toSet, updated, text, visible);
      var rules := if cond.Some? then cond.value else [];
      var targets := if toSet.Some? then toSet.value else [];
      && a.text.Keys == text.Keys
      && (forall w :: w in text && w !in targets && (forall k :: 0 <= k < |rules| ==> rules[k].target != w) ==>
            a.text[w] == text[w])
      && (a.outcome.Pass? && updated.Some? && toSet.Some? ==>
            && updated.value in text
            && var t1 := ConditionalSets(cond, updated, text).text;
               forall w :: w in targets ==> w in a.text && a.text[w] == t1[updated.value])
  {
    var rules := if cond.Some? then cond.value else [];
    var targets := if toSet.Some? then toSet.value else [];
    if !(cond.Some? && updated.None?) && ShowHide(ws, text, visible).outcome.Pass? {
      var w1 := ConditionalSets(cond, updated, text);
      forall w | w in text && w !in targets && (forall k :: 0 <= k < |rules| ==> rules[k].target != w)
        ensures w1.text[w] == text[w]
      {
        if updated.Some? && cond.Some? && updated.value in text {
          UnfiredTargetKept(rules, text[updated.value], text, w);
        }
      }
      if w1.outcome.Pass? && updated.Some? && toSet.Some? && updated.value in w1.text {
        CopyValueSets(targets, w1.text[updated.value], w1.text);
      }
    }
  }
}
