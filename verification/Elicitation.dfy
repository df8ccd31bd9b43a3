// Choosing from a list by label: labels are made unique before they are shown,
// so that the label picked identifies the choice.
module Elicitation {

  datatype Option<T> = None | Some(value: T)

  // The user's answer: dismissed, or a value (None for an omitted field).
  datatype Outcome = Cancelled | Collected(value: Option<string>)

  const DOTS := "…"

  function Suffixed(text: string, n: nat): (r: string)
    ensures |r| == |text| + n
    decreases n
  {
    if n == 0 then text else Suffixed(text + DOTS, n - 1)
  }

  // The labels in use that are at least as long as this one.
  function AtLeastAsLong(used: set<string>, text: string): set<string> {
    set u | u in used && |u| >= |text|
  }

  // Every suffix in the way takes a label out of the set that could still be.
  lemma SuffixShrinks(used: set<string>, text: string)
    requires text in used
    ensures |AtLeastAsLong(used, text + DOTS)| < |AtLeastAsLong(used, text)|
  {
    var longer, all := AtLeastAsLong(used, text + DOTS), AtLeastAsLong(used, text);
    assert longer <= all - {text};
    Smaller(longer, all - {text});
  }

  lemma {:induction false} Smaller(a: set<string>, b: set<string>)
    requires a <= b
    ensures |a| <= |b|
  {
    if a != {} {
      var x :| x in a;
      Smaller(a - {x}, b - {x});
    }
  }

  // How many suffixes a label needs to be free.
  function Needed(text: string, used: set<string>): nat
    decreases |AtLeastAsLong(used, text)|
  {
    if text !in used then 0
    else
      SuffixShrinks(used, text);
      1 + Needed(text + DOTS, used)
  }

  function Fresh(text: string, used: set<string>): string {
    Suffixed(text, Needed(text, used))
  }

  // The free label is the first one: every shorter suffix is in use.
  lemma {:induction false} FreshIsFirst(text: string, used: set<string>)
    ensures Fresh(text, used) !in used
    ensures forall n: nat :: n < Needed(text, used) ==> Suffixed(text, n) in used
    decreases |AtLeastAsLong(used, text)|
  {
    if text in used {
      SuffixShrinks(used, text);
      FreshIsFirst(text + DOTS, used);
      forall n: nat | n < Needed(text, used) ensures Suffixed(text, n) in used {
        if n > 0 {
          assert Suffixed(text, n) == Suffixed(text + DOTS, n - 1);
        }
      }
    }
  }

  method MakeFresh(text: string, used: set<string>) returns (unique: string)
    ensures unique == Fresh(text, used) && unique !in used
  {
    unique := text;
    while unique in used
      invariant Fresh(unique, used) == Fresh(text, used)
      decreases |AtLeastAsLong(used, unique)|
    {
      SuffixShrinks(used, unique);
      unique := unique + DOTS;
    }
    FreshIsFirst(text, used);
  }

  function Elements(s: seq<string>): set<string> {
    set x | x in s
  }

  // Each label made unique against the ones before it.
  function Unique(labels: seq<string>): (r: seq<string>)
    ensures |r| == |labels|
  {
    if labels == [] then []
    else
      var before := Unique(labels[..|labels| - 1]);
      before + [Fresh(labels[|labels| - 1], Elements(before))]
  }

  ghost predicate Distinct(s: seq<string>) {
    forall i, j :: 0 <= i < j < |s| ==> s[i] != s[j]
  }

  lemma {:induction false} UniqueIsDistinct(labels: seq<string>)
    ensures Distinct(Unique(labels))
  {
    if labels != [] {
      var before := Unique(labels[..|labels| - 1]);
      UniqueIsDistinct(labels[..|labels| - 1]);
      FreshIsFirst(labels[|labels| - 1], Elements(before));
    }
  }

  method UniqueLabels(labels: seq<string>) returns (displays: seq<string>)
    ensures displays == Unique(labels) && Distinct(displays)
  {
    displays := [];
    var used := {};
    for i := 0 to |labels|
      invariant displays == Unique(labels[..i]) && used == Elements(displays)
    {
      assert labels[..i + 1][..i] == labels[..i];
      var unique := MakeFresh(labels[i], used);
      used := used + {unique};
      displays := displays + [unique];
    }
    assert labels[..|labels|] == labels;
    UniqueIsDistinct(labels);
  }

  method UniqueAction(text: string, choices: seq<string>) returns (unique: string)
    ensures unique == Fresh(text, Elements(choices)) && unique !in choices
  {
    unique := MakeFresh(text, Elements(choices));
  }

  method IndexOf(s: seq<string>, x: string) returns (k: int)
    ensures -1 <= k < |s|
    ensures k == -1 <==> x !in s
    ensures k >= 0 ==> s[k] == x && x !in s[..k]
  {
    for i := 0 to |s|
      invariant x !in s[..i]
    {
      if s[i] == x {
        return i;
      }
    }
    k := -1;
  }

  // --- One choice ----------------------------------------------------------

  datatype Choice = Choice(value: string, display: string)

  function Displays(choices: seq<Choice>): seq<string> {
    seq(|choices|, k requires 0 <= k < |choices| => choices[k].display)
  }

  // The actions shown: the labels, then "Use default" and "Omit" where they apply.
  function Actions(choices: seq<Choice>, default: Option<string>, required: bool): seq<string> {
    var shown := Unique(Displays(choices));
    var withDefault := if default.Some? then shown + [Fresh("Use default", Elements(shown))] else shown;
    if required then withDefault else withDefault + [Fresh("Omit", Elements(withDefault))]
  }

  lemma ActionsAreDistinct(choices: seq<Choice>, default: Option<string>, required: bool)
    ensures Distinct(Actions(choices, default, required))
  {
    var shown := Unique(Displays(choices));
    UniqueIsDistinct(Displays(choices));
    FreshIsFirst("Use default", Elements(shown));
    var withDefault := if default.Some? then shown + [Fresh("Use default", Elements(shown))] else shown;
    FreshIsFirst("Omit", Elements(withDefault));
  }

  // What picking the k-th action means.
  function Meaning(choices: seq<Choice>, default: Option<string>, k: nat): Outcome {
    if k < |choices| then Collected(Some(choices[k].value))
    else if k == |choices| && default.Some? then Collected(default)
    else Collected(None)
  }

  // The actions are the choices under their labels in order, then the default if
  // there is one, then omission unless the field is required; each may bear dots.
  lemma ActionsMean(choices: seq<Choice>, default: Option<string>, required: bool, k: nat)
    requires k < |Actions(choices, default, required)|
    ensures |Actions(choices, default, required)| ==
      |choices| + (if default.Some? then 1 else 0) + (if required then 0 else 1)
    ensures
      var bears, meaning := Actions(choices, default, required)[k], Meaning(choices, default, k);
      if k < |choices| then Dotted(bears, choices[k].display) && meaning == Collected(Some(choices[k].value))
      else if k == |choices| && default.Some? then Dotted(bears, "Use default") && meaning == Collected(default)
      else !required && Dotted(bears, "Omit") && meaning == Collected(None)
  {
    var labels := Displays(choices);
    var shown := Unique(labels);
    var withDefault := if default.Some? then shown + [Fresh("Use default", Elements(shown))] else shown;
    if k < |choices| {
      UniqueExtends(labels, k);
    } else if k == |choices| && default.Some? {
      SuffixedIsDotted("Use default", Needed("Use default", Elements(shown)));
    } else {
      SuffixedIsDotted("Omit", Needed("Omit", Elements(withDefault)));
    }
  }

  // The text, followed by dots.
  ghost predicate Dotted(shown: string, text: string) {
    |text| <= |shown| && shown[..|text|] == text && forall i :: |text| <= i < |shown| ==> shown[i] == '…'
  }

  lemma {:induction false} SuffixedIsDotted(text: string, n: nat)
    ensures Dotted(Suffixed(text, n), text)
    decreases n
  {
    if n > 0 {
      SuffixedIsDotted(text + DOTS, n - 1);
      var long := Suffixed(text, n);
      assert long[..|text|] == long[..|text| + 1][..|text|] == text;
      assert long[|text|] == long[..|text| + 1][|text|] == (text + DOTS)[|text|];
    }
  }

  lemma {:induction false} UniqueExtends(labels: seq<string>, k: nat)
    requires k < |labels|
    ensures Dotted(Unique(labels)[k], labels[k])
    decreases |labels|
  {
    var n := |labels| - 1;
    if k == n {
      SuffixedIsDotted(labels[n], Needed(labels[n], Elements(Unique(labels[..n]))));
    } else {
      UniqueExtends(labels[..n], k);
    }
  }

  // picked is the index of the action the user picks, None when dismissed. The
  // answer is found again from the label alone, whatever the labels are.
  method CollectChoice(choices: seq<Choice>, default: Option<string>, required: bool, picked: Option<nat>)
    returns (shown: seq<string>, answer: Outcome)
    requires picked.Some? ==> picked.value < |Actions(choices, default, required)|
    ensures shown == Actions(choices, default, required) && Distinct(shown)
    ensures answer == if picked.None? then Cancelled else Meaning(choices, default, picked.value)
  {
    var displays := UniqueLabels(Displays(choices));
    shown := displays;
    var useDefault, omit := None, None;
    if default.Some? {
      var action := UniqueAction("Use default", shown);
      useDefault, shown := Some(action), shown + [action];
    }
    if !required {
      var action := UniqueAction("Omit", shown);
      omit, shown := Some(action), shown + [action];
    }
    ActionsAreDistinct(choices, default, required);
    if picked.None? {
      return shown, Cancelled;
    }
    var action := shown[picked.value];
    if useDefault == Some(action) {
      return shown, Collected(default);
    }
    if omit == Some(action) {
      return shown, Collected(None);
    }
    var k := IndexOf(displays, action);
    answer := Collected(if k >= 0 then Some(choices[k].value) else None);
  }

  // --- Several choices -----------------------------------------------------

  predicate AllAre(picks: seq<nat>, choices: seq<Choice>) {
    forall i :: 0 <= i < |picks| ==> picks[i] < |choices|
  }

  function Toggle(selected: set<string>, value: string): set<string> {
    if value in selected then selected - {value} else selected + {value}
  }

  function Toggled(selected: set<string>, choices: seq<Choice>, picks: seq<nat>): set<string>
    requires AllAre(picks, choices)
  {
    if picks == [] then selected
    else Toggle(Toggled(selected, choices, picks[..|picks| - 1]), choices[picks[|picks| - 1]].value)
  }

  function TimesPicked(choices: seq<Choice>, picks: seq<nat>, value: string): nat
    requires AllAre(picks, choices)
  {
    if picks == [] then 0
    else TimesPicked(choices, picks[..|picks| - 1], value)
         + (if choices[picks[|picks| - 1]].value == value then 1 else 0)
  }

  // A value ends selected as it started, flipped once per pick of it.
  lemma {:induction false} ToggledByParity(selected: set<string>, choices: seq<Choice>, picks: seq<nat>, value: string)
    requires AllAre(picks, choices)
    ensures value in Toggled(selected, choices, picks) <==>
      (value in selected) == (TimesPicked(choices, picks, value) % 2 == 0)
  {
    if picks != [] {
      ToggledByParity(selected, choices, picks[..|picks| - 1], value);
    }
  }

  function Marked(choices: seq<Choice>, selected: set<string>): seq<string> {
    seq(|choices|, k requires 0 <= k < |choices| =>
      if choices[k].value in selected then "✓ " + choices[k].display else choices[k].display)
  }

  // Each choice is shown under its own label, after a check mark exactly when selected.
  lemma MarksSelected(choices: seq<Choice>, selected: set<string>, k: nat)
    requires k < |choices|
    ensures
      Dotted(Unique(Marked(choices, selected))[k],
             (if choices[k].value in selected then "✓ " else "") + choices[k].display)
  {
    UniqueExtends(Marked(choices, selected), k);
    assert "" + choices[k].display == choices[k].display;
  }

  // The user picks the given choices by their labels, one after the other, and
  // then "Done". The labels change with every pick.
  method CollectSelection(choices: seq<Choice>, current: set<string>, picks: seq<nat>) returns (selected: set<string>)
    requires AllAre(picks, choices)
    ensures selected == Toggled(current, choices, picks)
  {
    selected := current;
    var turn := 0;
    while true
      invariant 0 <= turn <= |picks|
      invariant selected == Toggled(current, choices, picks[..turn])
      decreases |picks| - turn
    {
      var displays := UniqueLabels(Marked(choices, selected));
      var done := UniqueAction("Done", displays);
      var picked := if turn < |picks| then displays[picks[turn]] else done;
      if picked == done {
        assert picks[..turn] == picks;
        return;
      }
      var k := IndexOf(displays, picked);
      assert k == picks[turn];
      assert picks[..turn + 1][..turn] == picks[..turn];
      selected := if choices[k].value in selected then selected - {choices[k].value} else selected + {choices[k].value};
      turn := turn + 1;
    }
  }
}
