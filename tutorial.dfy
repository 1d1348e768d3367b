/** The guided tutorial: a list of steps walked through one at a time, with a
    jump menu listing one section per tab the steps visit. */
module Tutorial {
  import opened Prelude
  import JsText
  import TutorialPositioner

  /** One step; `tabId` is "" when the step names no tab. */
  datatype Step = Step(target: string, title: string, content: string,
                       position: Option<TutorialPositioner.Placement>, tabId: string)

  /** An entry of the `sections` dictionary. */
  datatype Section = Section(name: string, steps: seq<nat>)

  /** An entry of the jump menu (`allSections`). */
  datatype SectionEntry = SectionEntry(tabId: string, name: string, firstStep: nat)

  function TabIds(steps: seq<Step>): (r: seq<string>)
    ensures |r| == |steps|
    ensures forall i :: 0 <= i < |steps| ==> r[i] == steps[i].tabId
  {
    seq(|steps|, i requires 0 <= i < |steps| => steps[i].tabId)
  }

  /** The tab ids the steps carry, in step order, the absent ones skipped. */
  function Tagged(ids: seq<string>): (r: seq<string>)
    ensures forall t :: t in r <==> t in ids && t != ""
  {
    if ids == [] then []
    else
      var init := ids[..|ids| - 1];
      var t := ids[|ids| - 1];
      assert ids == init + [t];
      Tagged(init) + (if t != "" then [t] else [])
  }

  /** The keys of `sections`, in insertion order. */
  function SectionKeys(ids: seq<string>): seq<string> {
    Dedup(Tagged(ids))
  }

  /** Indices of the steps carrying tab id `t`, in the order they are pushed. */
  function StepIndices(ids: seq<string>, t: string): seq<nat> {
    if ids == [] then []
    else
      var n := |ids| - 1;
      StepIndices(ids[..n], t) + (if ids[n] == t then [n] else [])
  }

  /** A section lists exactly the steps carrying its tab id, each once and in
      ascending order. */
  lemma {:induction false} StepIndicesSpec(ids: seq<string>, t: string)
    ensures forall j :: j in StepIndices(ids, t) <==> 0 <= j < |ids| && ids[j] == t
    ensures forall a, b :: 0 <= a < b < |StepIndices(ids, t)| ==>
      StepIndices(ids, t)[a] < StepIndices(ids, t)[b]
  {
    if ids != [] {
      var n := |ids| - 1;
      var init := ids[..n];
      StepIndicesSpec(init, t);
      var r := StepIndices(ids, t);
      var r0 := StepIndices(init, t);
      forall j ensures j in r <==> 0 <= j < |ids| && ids[j] == t {
        if 0 <= j < n {
          assert ids[j] == init[j];
        }
      }
      forall a, b | 0 <= a < b < |r| ensures r[a] < r[b] {
        if b == |r0| {
          assert r0[a] in r0;
        } else {
          assert r[a] == r0[a] && r[b] == r0[b];
        }
      }
    }
  }

  lemma StepIndicesSnoc(ids: seq<string>, t: string, x: string)
    ensures StepIndices(ids + [x], t) == StepIndices(ids, t) + (if x == t then [|ids|] else [])
  {
    assert (ids + [x])[..|ids|] == ids;
  }

  /** The section name: the tab id with its first character upper-cased and
      the first '-' after it turned into a space. */
  function SectionName(tabId: string): (name: string)
    requires tabId != ""
    ensures |name| == |tabId|
    ensures name[0] == JsText.UpperChar(tabId[0])
    ensures forall j :: 1 <= j < |tabId| ==>
      name[j] == if j - 1 == JsText.IndexOf(tabId[1..], '-') then ' ' else tabId[j]
  {
    JsText.ReplaceFirstAt(tabId[1..], '-', ' ');
    [JsText.UpperChar(tabId[0])] + JsText.ReplaceFirst(tabId[1..], '-', ' ')
  }

  /** One iteration of the `forEach` for step `i` with tab id `t`: a step
      without a tab id changes nothing; otherwise its section is created if
      new, and `i` is pushed onto it. */
  function AddStep(m: map<string, Section>, t: string, i: nat): map<string, Section> {
    if t == "" then m
    else
      var s := if t in m then m[t] else Section(SectionName(t), []);
      m[t := s.(steps := s.steps + [i])]
  }

  /** The dictionary `getTabSections` returns. */
  function SectionMap(ids: seq<string>): map<string, Section> {
    if ids == [] then map[]
    else
      var n := |ids| - 1;
      AddStep(SectionMap(ids[..n]), ids[n], n)
  }

  lemma {:induction false} StepIndicesAbsent(ids: seq<string>, t: string)
    requires t !in ids
    ensures StepIndices(ids, t) == []
  {
    if ids != [] {
      var n := |ids| - 1;
      assert ids[n] in ids;
      assert forall x :: x in ids[..n] ==> x in ids;
      StepIndicesAbsent(ids[..n], t);
    }
  }

  /** The dictionary has a section for exactly the tab ids the steps carry,
      named after the tab and listing that tab's steps. */
  lemma {:induction false} SectionMapSpec(ids: seq<string>, t: string)
    ensures t in SectionMap(ids) <==> t in ids && t != ""
    ensures t in SectionMap(ids) ==> SectionMap(ids)[t] == Section(SectionName(t), StepIndices(ids, t))
  {
    if ids != [] {
      var n := |ids| - 1;
      var init := ids[..n];
      assert ids == init + [ids[n]];
      SectionMapSpec(init, t);
      if t !in init {
        StepIndicesAbsent(init, t);
      }
      assert t in ids <==> t in init || t == ids[n];
    }
  }

  lemma TaggedSnoc(ids: seq<string>, x: string)
    ensures Tagged(ids + [x]) == Tagged(ids) + (if x != "" then [x] else [])
  {
    assert (ids + [x])[..|ids|] == ids;
  }

  /** The body of the `forEach` for step `i` with tab id `t`. */
  method PushStep(order: seq<string>, sections: map<string, Section>, t: string, i: nat)
    returns (order': seq<string>, sections': map<string, Section>)
    ensures sections' == AddStep(sections, t, i)
    ensures order' == if t != "" && t !in sections then order + [t] else order
  {
    order', sections' := order, sections;
    if t != "" {
      if t !in sections' {
        sections' := sections'[t := Section(SectionName(t), [])];
        order' := order' + [t];
      }
      sections' := sections'[t := sections'[t].(steps := sections'[t].steps + [i])];
    }
  }

  /** `getTabSections()`: `order` is the dictionary's key order. */
  method GetTabSections(steps: seq<Step>) returns (order: seq<string>, sections: map<string, Section>)
    ensures order == SectionKeys(TabIds(steps))
    ensures sections == SectionMap(TabIds(steps))
  {
    var ids := TabIds(steps);
    order, sections := [], map[];
    var i := 0;
    while i < |steps|
      invariant 0 <= i <= |steps|
      invariant order == Dedup(Tagged(ids[..i]))
      invariant sections == SectionMap(ids[..i])
    {
      var t := steps[i].tabId;
      var prefix := ids[..i];
      assert ids[..i + 1] == prefix + [t];
      TaggedSnoc(prefix, t);
      SectionMapSpec(prefix, t);
      DedupSnoc(Tagged(prefix), t);
      if t == "" {
        assert Tagged(prefix) + [] == Tagged(prefix);
      }
      order, sections := PushStep(order, sections, t, i);
      assert SectionMap(prefix + [t]) == AddStep(SectionMap(prefix), t, i);
      i := i + 1;
    }
    assert ids[..i] == ids;
  }

  /** `j` is the first step carrying tab id `t`. */
  predicate IsFirstStep(ids: seq<string>, t: string, j: int) {
    0 <= j < |ids| && ids[j] == t && forall k :: 0 <= k < j ==> ids[k] != t
  }

  lemma HeadIsLeast(r: seq<nat>)
    requires r != []
    requires forall a, b :: 0 <= a < b < |r| ==> r[a] < r[b]
    ensures forall x :: x in r ==> r[0] <= x
  {
    forall x | x in r ensures r[0] <= x {
      var a :| 0 <= a < |r| && r[a] == x;
      if a != 0 {
        assert r[0] < r[a];
      }
    }
  }

  /** The first index pushed for a tab is that tab's first step. */
  lemma FirstIndexIsFirstStep(ids: seq<string>, t: string)
    requires t in ids
    ensures StepIndices(ids, t) != [] && IsFirstStep(ids, t, StepIndices(ids, t)[0])
  {
    StepIndicesSpec(ids, t);
    var r := StepIndices(ids, t);
    var i :| 0 <= i < |ids| && ids[i] == t;
    assert i in r;
    HeadIsLeast(r);
  }

  /** Each key in order names a section whose first step is its tab's
      first step. */
  lemma KeysAreSections(ids: seq<string>)
    ensures forall i :: 0 <= i < |SectionKeys(ids)| ==>
      var t := SectionKeys(ids)[i];
      && t != "" && t in SectionMap(ids)
      && SectionMap(ids)[t].name == SectionName(t)
      && SectionMap(ids)[t].steps != []
      && IsFirstStep(ids, t, SectionMap(ids)[t].steps[0])
  {
    var keys := SectionKeys(ids);
    DedupSpec(Tagged(ids));
    forall i | 0 <= i < |keys|
      ensures var t := keys[i];
        && t != "" && t in SectionMap(ids)
        && SectionMap(ids)[t].name == SectionName(t)
        && SectionMap(ids)[t].steps != []
        && IsFirstStep(ids, t, SectionMap(ids)[t].steps[0])
    {
      var t := keys[i];
      assert t in keys;
      SectionMapSpec(ids, t);
      FirstIndexIsFirstStep(ids, t);
    }
  }

  /** `allSections`: one entry per dictionary key, in key order, carrying
      the section's name and the first of its steps. */
  function AllSections(steps: seq<Step>): (r: seq<SectionEntry>)
    ensures |r| == |SectionKeys(TabIds(steps))|
    ensures forall i :: 0 <= i < |r| ==>
      && r[i].tabId == SectionKeys(TabIds(steps))[i]
      && r[i].tabId != ""
      && r[i].name == SectionName(r[i].tabId)
      && IsFirstStep(TabIds(steps), r[i].tabId, r[i].firstStep)
  {
    var ids := TabIds(steps);
    var keys := SectionKeys(ids);
    var m := SectionMap(ids);
    KeysAreSections(ids);
    seq(|keys|, i requires 0 <= i < |keys| =>
      SectionEntry(keys[i], m[keys[i]].name, m[keys[i]].steps[0]))
  }

  /** The tutorial component. `steps`, `currentTab` and which callbacks were
      passed are props, and the parent may pass a new `currentTab` at any
      time; `tabChanges` records the `onTabChange` calls,
      `completions` counts the `onComplete` calls and `pendingSteps` holds the
      steps of `setCurrentStep` calls still waiting on their timer. */
  class Tutorial {
    const steps: seq<Step>
    const hasOnTabChange: bool
    const hasOnComplete: bool

    var currentTab: Option<string>
    var isOpen: bool
    var currentStep: int
    var showJumpMenu: bool
    var tabChanges: seq<string>
    var completions: nat
    var pendingSteps: seq<int>

    /** The step counter stays on a step (or at 0 when there are none). */
    predicate Valid()
      reads this
    {
      && 0 <= currentStep
      && (|steps| == 0 ==> currentStep == 0)
      && (|steps| > 0 ==> currentStep < |steps|)
      && forall k :: 0 <= k < |pendingSteps| ==> 0 <= pendingSteps[k] < |steps|
    }

    /** The callback for a tab change fires only for a step that names a tab
        other than the current one, and only when a callback was passed. */
    predicate SwitchesTab(s: Step)
      reads this
    {
      s.tabId != "" && Some(s.tabId) != currentTab && hasOnTabChange
    }

    function TabChange(s: Step): (r: seq<string>)
      reads this
      ensures |r| <= 1
      ensures r == [s.tabId] <==> SwitchesTab(s)
    {
      if SwitchesTab(s) then [s.tabId] else []
    }

    /** The tutorial starts closed, at step 0, with the jump menu hidden. */
    constructor (steps: seq<Step>, currentTab: Option<string>, hasOnTabChange: bool, hasOnComplete: bool)
      ensures Valid()
      ensures this.steps == steps && this.currentTab == currentTab
      ensures this.hasOnTabChange == hasOnTabChange && this.hasOnComplete == hasOnComplete
      ensures !isOpen && currentStep == 0 && !showJumpMenu
      ensures tabChanges == [] && completions == 0 && pendingSteps == []
    {
      this.steps := steps;
      this.currentTab := currentTab;
      this.hasOnTabChange := hasOnTabChange;
      this.hasOnComplete := hasOnComplete;
      isOpen := false;
      currentStep := 0;
      showJumpMenu := false;
      tabChanges := [];
      completions := 0;
      pendingSteps := [];
    }

    /** The help button. */
    method Open()
      requires Valid()
      modifies this
      ensures Valid() && isOpen
      ensures currentStep == old(currentStep) && showJumpMenu == old(showJumpMenu)
      ensures tabChanges == old(tabChanges) && completions == old(completions)
      ensures pendingSteps == old(pendingSteps)
      ensures currentTab == old(currentTab)
    {
      isOpen := true;
    }

    /** `handleClose`: closes the tutorial and calls `onComplete`. */
    method Close()
      requires Valid()
      modifies this
      ensures Valid() && !isOpen
      ensures completions == old(completions) + (if hasOnComplete then 1 else 0)
      ensures currentStep == old(currentStep) && showJumpMenu == old(showJumpMenu)
      ensures tabChanges == old(tabChanges) && pendingSteps == old(pendingSteps)
      ensures currentTab == old(currentTab)
    {
      isOpen := false;
      if hasOnComplete {
        completions := completions + 1;
      }
    }

    /** `handleNext`: one step forward, switching tab first when the next
        step lives on another tab; at the last step it closes instead. */
    method Next()
      requires Valid()
      modifies this
      ensures Valid()
      ensures old(currentStep) < |steps| - 1 ==>
        && currentStep == old(currentStep) + 1
        && tabChanges == old(tabChanges) + TabChange(steps[old(currentStep) + 1])
        && isOpen == old(isOpen) && completions == old(completions)
      ensures old(currentStep) >= |steps| - 1 ==>
        && currentStep == old(currentStep) && !isOpen
        && completions == old(completions) + (if hasOnComplete then 1 else 0)
        && tabChanges == old(tabChanges)
      ensures showJumpMenu == old(showJumpMenu) && pendingSteps == old(pendingSteps)
      ensures currentTab == old(currentTab)
    {
      if currentStep < |steps| - 1 {
        var next := steps[currentStep + 1];
        tabChanges := tabChanges + TabChange(next);
        currentStep := currentStep + 1;
      } else {
        Close();
      }
    }

    /** `handlePrevious`: one step back, switching tab first when needed; at
        step 0 nothing happens. */
    method Previous()
      requires Valid()
      modifies this
      ensures Valid()
      ensures old(currentStep) > 0 ==>
        && currentStep == old(currentStep) - 1
        && tabChanges == old(tabChanges) + TabChange(steps[old(currentStep) - 1])
      ensures old(currentStep) == 0 ==> currentStep == 0 && tabChanges == old(tabChanges)
      ensures isOpen == old(isOpen) && completions == old(completions)
      ensures showJumpMenu == old(showJumpMenu) && pendingSteps == old(pendingSteps)
      ensures currentTab == old(currentTab)
    {
      if currentStep > 0 {
        var prev := steps[currentStep - 1];
        tabChanges := tabChanges + TabChange(prev);
        currentStep := currentStep - 1;
      }
    }

    /** The jump menu's open/closed switch. */
    method SetShowJumpMenu(show: bool)
      requires Valid()
      modifies this
      ensures Valid() && showJumpMenu == show
      ensures isOpen == old(isOpen) && currentStep == old(currentStep)
      ensures tabChanges == old(tabChanges) && completions == old(completions)
      ensures pendingSteps == old(pendingSteps)
      ensures currentTab == old(currentTab)
    {
      showJumpMenu := show;
    }

    /** `jumpToSection(index)`: hides the jump menu; an index outside the
        steps is ignored. When the target step lives on another tab the tab is
        switched and the step is set once the timer fires; otherwise the step
        is set at once. */
    method JumpToSection(index: int)
      requires Valid()
      modifies this
      ensures Valid() && !showJumpMenu
      ensures !(0 <= index < |steps|) ==>
        currentStep == old(currentStep) && tabChanges == old(tabChanges) && pendingSteps == old(pendingSteps)
      ensures 0 <= index < |steps| && SwitchesTab(steps[index]) ==>
        && currentStep == old(currentStep)
        && tabChanges == old(tabChanges) + [steps[index].tabId]
        && pendingSteps == old(pendingSteps) + [index]
      ensures 0 <= index < |steps| && !SwitchesTab(steps[index]) ==>
        currentStep == index && tabChanges == old(tabChanges) && pendingSteps == old(pendingSteps)
      ensures isOpen == old(isOpen) && completions == old(completions)
      ensures currentTab == old(currentTab)
    {
      showJumpMenu := false;
      if 0 <= index < |steps| {
        var target := steps[index];
        if SwitchesTab(target) {
          tabChanges := tabChanges + [target.tabId];
          pendingSteps := pendingSteps + [index];
        } else {
          currentStep := index;
        }
      }
    }

    /** The parent passes a new `currentTab` (typically the tab it switched
        to after `onTabChange`); steps on that tab no longer switch tabs. */
    method SetCurrentTab(tab: Option<string>)
      requires Valid()
      modifies this
      ensures Valid() && currentTab == tab
      ensures tab.Some? ==> forall s: Step :: s.tabId == tab.value ==> !SwitchesTab(s)
      ensures isOpen == old(isOpen) && currentStep == old(currentStep) && showJumpMenu == old(showJumpMenu)
      ensures tabChanges == old(tabChanges) && completions == old(completions)
      ensures pendingSteps == old(pendingSteps)
    {
      currentTab := tab;
    }

    /** The oldest pending jump timer fires and sets its step. */
    method TimerFires()
      requires Valid() && pendingSteps != []
      modifies this
      ensures Valid()
      ensures currentStep == old(pendingSteps[0]) && pendingSteps == old(pendingSteps[1..])
      ensures isOpen == old(isOpen) && showJumpMenu == old(showJumpMenu)
      ensures tabChanges == old(tabChanges) && completions == old(completions)
      ensures currentTab == old(currentTab)
    {
      currentStep := pendingSteps[0];
      pendingSteps := pendingSteps[1..];
    }
  }
}
