/** `Widget_conditions.combobox_hide_visible_action` (widget_conditions.py:1876-1942):
    after a combo box changes, show or hide the listed widgets according to the
    visibility table, set target widgets whose trigger texts match, and copy the
    changed widget's text into other widgets. The window is a `Ui` object holding
    the current text and visibility of each widget it has. */
module Visibility {
  import opened Outcomes
  import opened WidgetConditions

  /** A widget name passed to the function: one the table writes, or any
      other attribute name of the window, which the table does not declare. */
  datatype Name = Named(widget: Widget) | Other(name: string)

  /** One element of `widgets_to_set_cond`: `((target, value), triggers)`. */
  datatype SetRule = SetRule(target: Name, value: string, triggers: seq<string>)

  datatype UiError =
    | UpdatedWidgetMissing          // line 1912
    | NotDeclared(widget: Name)     // line 1920
    | NoAttribute(widget: Name)     // `getattr` at lines 1933, 1936, 1940 and 1942

  /** The table's entry for a name; the names it does not write have none. */
  function Declared(n: Name): (r: Option<seq<Requirement>>)
    ensures n.Other? ==> r.None?
    ensures n.Named? ==> r == ConditionOf(n.widget)
  {
    match n
    case Named(w) => ConditionOf(w)
    case Other(_) => None
  }

  /** The window has an attribute for every widget the table names. */
  ghost predicate Covers<V>(m: map<Name, V>) {
    forall w: Widget :: Named(w) in m
  }

  // ---------------------------------------------------------------------------
  // The specification: what the function leaves, as functions of what it found.

  /** The controller currently shows one of the texts the requirement allows. */
  predicate Holds(r: Requirement, text: map<Name, string>) {
    Named(r.controller) in text && text[Named(r.controller)] in Spelled(r.allowed)
  }

  /** Every requirement of an entry holds: the widget is to be shown. */
  predicate AllHold(reqs: seq<Requirement>, text: map<Name, string>) {
    forall i :: 0 <= i < |reqs| ==> Holds(reqs[i], text)
  }

  /** What lines 1916-1929 leave: the visibilities, and the error that stopped
      them, if any. */
  datatype Shown = Shown(visible: map<Name, bool>, outcome: Outcome<UiError>)

  /** Lines 1916-1929: each listed widget in turn becomes visible exactly when
      its entry holds; the first widget without an entry stops the loop, and
      the widgets before it keep their new visibility. */
  function ShowHide(ws: seq<Name>, text: map<Name, string>, visible: map<Name, bool>): Shown
    decreases |ws|
  {
    if ws == [] then Shown(visible, Pass)
    else match Declared(ws[0])
      case None => Shown(visible, Fail(NotDeclared(ws[0])))
      case Some(reqs) => ShowHide(ws[1..], text, visible[ws[0] := AllHold(reqs, text)])
  }

  /** The rule sets its target: the text read before the loop is one of its
      triggers. */
  predicate Fires(r: SetRule, current: string) {
    current in r.triggers
  }

  /** What a run of `setCurrentText` calls leaves: the texts, and the error
      that stopped it, if any. */
  datatype Written = Written(text: map<Name, string>, outcome: Outcome<UiError>)

  /** Lines 1933-1936: the rules in order, each setting its target when it
      fires; a firing rule whose target the window lacks stops the loop. */
  function ApplySetRules(rules: seq<SetRule>, current: string, text: map<Name, string>): (r: Written)
    ensures r.text.Keys == text.Keys
    ensures r.outcome.Fail? ==> r.outcome.error.NoAttribute?
    decreases |rules|
  {
    if rules == [] then Written(text, Pass)
    else if !Fires(rules[0], current) then ApplySetRules(rules[1..], current, text)
    else if rules[0].target !in text then Written(text, Fail(NoAttribute(rules[0].target)))
    else ApplySetRules(rules[1..], current, text[rules[0].target := rules[0].value])
  }

  /** Lines 1941-1942: every widget of the list receives `value`; one the
      window lacks stops the loop. */
  function CopyValue(ws: seq<Name>, value: string, text: map<Name, string>): (r: Written)
    ensures r.text.Keys == text.Keys
    ensures r.outcome.Fail? ==> r.outcome.error.NoAttribute?
    decreases |ws|
  {
    if ws == [] then Written(text, Pass)
    else if ws[0] !in text then Written(text, Fail(NoAttribute(ws[0])))
    else CopyValue(ws[1..], value, text[ws[0] := value])
  }

  /** Lines 1932-1936: nothing unless both the updated widget and the rules
      are given; then the updated widget's text is read once. */
  function ConditionalSets(rules: Option<seq<SetRule>>, updated: Option<Name>, text: map<Name, string>): (r: Written)
    ensures r.text.Keys == text.Keys
    ensures r.outcome.Fail? ==> r.outcome.error.NoAttribute?
  {
    if updated.None? || rules.None? then Written(text, Pass)
    else if updated.value !in text then Written(text, Fail(NoAttribute(updated.value)))
    else ApplySetRules(rules.value, text[updated.value], text)
  }

  /** Lines 1939-1942: nothing unless both the updated widget and the list
      are given; then the updated widget's text is read again. */
  function Copies(toSet: Option<seq<Name>>, updated: Option<Name>, text: map<Name, string>): (r: Written)
    ensures r.text.Keys == text.Keys
    ensures r.outcome.Fail? ==> r.outcome.error.NoAttribute?
  {
    if updated.None? || toSet.None? then Written(text, Pass)
    else if updated.value !in text then Written(text, Fail(NoAttribute(updated.value)))
    else CopyValue(toSet.value, text[updated.value], text)
  }

  /** What one call leaves: every widget's text and visibility, and the
      outcome. */
  datatype Action = Action(text: map<Name, string>, visible: map<Name, bool>, outcome: Outcome<UiError>)

  /** Lines 1911-1942. The text copied by lines 1939-1942 is read after the
      conditional sets of lines 1932-1936, so a rule that targets the updated
      widget changes what is copied. */
  function HideVisibleAction(ws: seq<Name>, cond: Option<seq<SetRule>>, toSet: Option<seq<Name>>,
                             updated: Option<Name>, text: map<Name, string>, visible: map<Name, bool>): Action
  {
    if cond.Some? && updated.None? then Action(text, visible, Fail(UpdatedWidgetMissing))
    else
      var shown := ShowHide(ws, text, visible);
      if shown.outcome.Fail? then Action(text, shown.visible, shown.outcome)
      else
        var w1 := ConditionalSets(cond, updated, text);
        if w1.outcome.Fail? then Action(w1.text, shown.visible, w1.outcome)
        else
          var w2 := Copies(toSet, updated, w1.text);
          Action(w2.text, shown.visible, w2.outcome)
  }

  // ---------------------------------------------------------------------------
  // The window.

  /** The main window's widgets: their current text and whether they are shown. */
  class Ui {
    var text: map<Name, string>
    var visible: map<Name, bool>

    ghost predicate Valid()
      reads this
    {
      Covers(text)
    }

    constructor (text0: map<Name, string>, visible0: map<Name, bool>)
      requires Covers(text0)
      ensures Valid() && text == text0 && visible == visible0
    {
      text := text0;
      visible := visible0;
    }

    /** `QWidget.setVisible`. */
    method SetVisible(w: Name, b: bool)
      modifies this
      ensures text == old(text) && visible == old(visible)[w := b]
    {
      visible := visible[w := b];
    }

    /** `QComboBox.setCurrentText`, without the signals it emits. */
    method SetCurrentText(w: Name, s: string)
      modifies this
      ensures text == old(text)[w := s] && visible == old(visible)
    {
      text := text[w := s];
    }
  }

  /** Lines 1918-1927 for one widget: whether every requirement of its entry
      holds, stopping at the first that does not. */
  method EntryHolds(ui: Ui, reqs: seq<Requirement>) returns (visible: bool)
    requires ui.Valid()
    ensures visible == AllHold(reqs, ui.text)
  {
    visible := true;
    var j := 0;
    while j < |reqs|
      invariant 0 <= j <= |reqs|
      invariant forall k :: 0 <= k < j ==> Holds(reqs[k], ui.text)
    {
      var value := ui.text[Named(reqs[j].controller)];
      if value !in Spelled(reqs[j].allowed) {
        visible := false;
        break;
      }
      j := j + 1;
    }
  }

  /** Lines 1916-1929: show or hide each listed widget, stopping at the
      first one the table does not declare. */
  method ShowHideLoop(ui: Ui, ws: seq<Name>) returns (r: Outcome<UiError>)
    requires ui.Valid()
    modifies ui
    ensures ui.text == old(ui.text) && ui.Valid()
    ensures var shown := ShowHide(ws, old(ui.text), old(ui.visible));
      r == shown.outcome && ui.visible == shown.visible
  {
    var i := 0;
    while i < |ws|
      invariant 0 <= i <= |ws|
      invariant ui.text == old(ui.text) && ui.Valid()
      invariant ShowHide(ws[i..], ui.text, ui.visible) == ShowHide(ws, old(ui.text), old(ui.visible))
    {
      var entry := Declared(ws[i]);
      if entry.None? {
        return Fail(NotDeclared(ws[i]));
      }
      var visible := EntryHolds(ui, entry.value);
      ui.SetVisible(ws[i], visible);
      assert ws[i..][1..] == ws[i + 1..];
      i := i + 1;
    }
    r := Pass;
  }

  /** Lines 1934-1936: apply the rules in order against the text read once
      at line 1933. */
  method SetRulesLoop(ui: Ui, rules: seq<SetRule>, current: string) returns (r: Outcome<UiError>)
    requires ui.Valid()
    modifies ui
    ensures ui.Valid() && ui.visible == old(ui.visible)
    ensures var w := ApplySetRules(rules, current, old(ui.text));
      ui.text == w.text && r == w.outcome
  {
    var k := 0;
    while k < |rules|
      invariant 0 <= k <= |rules| && ui.Valid() && ui.visible == old(ui.visible)
      invariant ApplySetRules(rules[k..], current, ui.text) == ApplySetRules(rules, current, old(ui.text))
    {
      assert rules[k..][1..] == rules[k + 1..];
      if current in rules[k].triggers {
        if rules[k].target !in ui.text {
          return Fail(NoAttribute(rules[k].target));
        }
        ui.SetCurrentText(rules[k].target, rules[k].value);
      }
      k := k + 1;
    }
    r := Pass;
  }

  /** Lines 1941-1942: give every listed widget the text `value`. */
  method CopyValueLoop(ui: Ui, targets: seq<Name>, value: string) returns (r: Outcome<UiError>)
    requires ui.Valid()
    modifies ui
    ensures ui.Valid() && ui.visible == old(ui.visible)
    ensures var w := CopyValue(targets, value, old(ui.text));
      ui.text == w.text && r == w.outcome
  {
    var k := 0;
    while k < |targets|
      invariant 0 <= k <= |targets| && ui.Valid() && ui.visible == old(ui.visible)
      invariant CopyValue(targets[k..], value, ui.text) == CopyValue(targets, value, old(ui.text))
    {
      assert targets[k..][1..] == targets[k + 1..];
      if targets[k] !in ui.text {
        return Fail(NoAttribute(targets[k]));
      }
      ui.SetCurrentText(targets[k], value);
      k := k + 1;
    }
    r := Pass;
  }

  /** `combobox_hide_visible_action` without `frames_to_hide_if_empty`. The
      test at line 1913 compares `updated_widget` with `None` twice and never
      raises, so it has no counterpart here. */
  method ComboboxHideVisibleAction(ui: Ui, ws: seq<Name>, cond: Option<seq<SetRule>>,
                                   toSet: Option<seq<Name>>, updated: Option<Name>)
    returns (r: Outcome<UiError>)
    requires ui.Valid()
    modifies ui
    ensures ui.Valid()
    ensures var a := HideVisibleAction(ws, cond, toSet, updated, old(ui.text), old(ui.visible));
      r == a.outcome && ui.text == a.text && ui.visible == a.visible
  {
    if cond.Some? && updated.None? {
      return Fail(UpdatedWidgetMissing);
    }
    r := ShowHideLoop(ui, ws);
    if r.Fail? {
      return;
    }
    if updated.Some? && cond.Some? {
      if updated.value !in ui.text {
        return Fail(NoAttribute(updated.value));
      }
      r := SetRulesLoop(ui, cond.value, ui.text[updated.value]);
      if r.Fail? {
        return;
      }
    }
    if updated.Some? && toSet.Some? {
      if updated.value !in ui.text {
        return Fail(NoAttribute(updated.value));
      }
      r := CopyValueLoop(ui, toSet.value, ui.text[updated.value]);
    }
  }
}
