// The interactive page (page 5) of the Number Blocks applet: a slider over
// 0..10 that drives the equation "2 x v = 2v", a row of v groups of two unit
// blocks, and which of two buttons is shown.

module Slider {
  import Navigation

  /** The range input's `max`; its `min` is 0. */
  const MaxValue: int := 10

  predicate InRange(v: int)
  {
    0 <= v <= MaxValue
  }

  // ----- Views derived from the slider value -----

  /** The right-hand side of the equation `2 x v = 2 * v`. */
  function Product(v: int): (p: int)
    requires InRange(v)
    ensures 0 <= p <= 2 * MaxValue
    ensures p % 2 == 0
    ensures p / 2 == v
  {
    2 * v
  }

  /** How far the green part of the slider track reaches, in percent. */
  function FillPercent(v: int): (pct: int)
    requires InRange(v)
    ensures 0 <= pct <= 100
    ensures pct == 100 <==> v == MaxValue
    ensures pct == 0 <==> v == 0
  {
    v * 10
  }

  /** The move-to-max button is shown except when the value is at its maximum. */
  predicate ShowsInstructionButton(v: int)
    ensures ShowsInstructionButton(v) <==> !ShowsNextButton(v)
  {
    v != MaxValue
  }

  /** The Next button is shown only when the value is at its maximum. */
  predicate ShowsNextButton(v: int)
    ensures InRange(v) ==> (ShowsNextButton(v) <==> forall w :: InRange(w) ==> w <= v)
  {
    assert InRange(MaxValue);
    v == MaxValue
  }

  /** The move-to-max button's `disabled` attribute. */
  predicate MoveToMaxDisabled(v: int)
    ensures InRange(v) ==> (MoveToMaxDisabled(v) <==> !exists w :: InRange(w) && w > v)
  {
    assert InRange(MaxValue);
    v == MaxValue
  }

  /** Whatever the value, exactly one of the two buttons is shown, and the shown
      move-to-max button is never the disabled one. */
  lemma ExactlyOneButton(v: int)
    ensures ShowsInstructionButton(v) != ShowsNextButton(v)
    ensures ShowsInstructionButton(v) ==> !MoveToMaxDisabled(v)
  {
  }

  // ----- The blocks display -----

  /** One unit block; the digit it shows. */
  datatype UnitBlock = UnitBlock(digit: int)

  /** A group rendered by `renderBlocks`: its React key and its unit blocks. */
  datatype Group = Group(key: int, units: seq<UnitBlock>)

  const UnitPair: seq<UnitBlock> := [UnitBlock(1), UnitBlock(1)]

  /** The groups for value `n`: keys 0..n-1, each holding two blocks labelled 1. */
  function Groups(n: nat): (gs: seq<Group>)
    ensures |gs| == n
  {
    if n == 0 then [] else Groups(n - 1) + [Group(n - 1, UnitPair)]
  }

  /** There are exactly `n` groups, the i-th keyed i and made of two 1-blocks. */
  lemma {:induction false} GroupsShape(n: nat)
    ensures |Groups(n)| == n
    ensures forall i :: 0 <= i < n ==> Groups(n)[i] == Group(i, UnitPair)
  {
    if n > 0 {
      GroupsShape(n - 1);
    }
  }

  /** The number of unit blocks on screen. */
  function UnitCount(gs: seq<Group>): nat
  {
    if gs == [] then 0 else UnitCount(gs[..|gs| - 1]) + |gs[|gs| - 1].units|
  }

  /** The blocks on screen count out the product in the equation. */
  lemma {:induction false} UnitsMatchProduct(v: int)
    requires InRange(v)
    ensures UnitCount(Groups(v)) == Product(v)
  {
    UnitsOfGroups(v);
  }

  lemma {:induction false} UnitsOfGroups(n: nat)
    ensures UnitCount(Groups(n)) == 2 * n
  {
    if n > 0 {
      UnitsOfGroups(n - 1);
      assert Groups(n)[..|Groups(n)| - 1] == Groups(n - 1);
    }
  }

  // ----- The stateful component -----

  /** `Page5`: the slider value and the two stored button flags. A fresh object
      is created each time page 5 is mounted. */
  class Page5 {
    var sliderValue: int
    var showInstructionButton: bool
    var showNextButton: bool

    ghost predicate Valid()
      reads this
    {
      InRange(sliderValue)
    }

    /** The stored flags agree with the value, as after the effect has run. */
    ghost predicate Synced()
      reads this
    {
      showInstructionButton == ShowsInstructionButton(sliderValue) &&
      showNextButton == ShowsNextButton(sliderValue)
    }

    constructor ()
      ensures Valid() && Synced()
      ensures sliderValue == 0
      ensures showInstructionButton && !showNextButton
    {
      sliderValue := 0;
      showInstructionButton := true;
      showNextButton := false;
    }

    /** The effect run after every change of the value. */
    method SyncButtonVisibility()
      requires Valid()
      modifies this`showInstructionButton, this`showNextButton
      ensures Valid() && Synced()
      ensures sliderValue == old(sliderValue)
    {
      if sliderValue == MaxValue {
        showInstructionButton := false;
        showNextButton := true;
      } else {
        showInstructionButton := true;
        showNextButton := false;
      }
    }

    /** The range input's change handler; the control only yields 0..10. */
    method HandleSliderChange(value: int)
      requires Valid()
      requires InRange(value)
      modifies this`sliderValue
      ensures Valid()
      ensures sliderValue == value
    {
      sliderValue := value;
    }

    /** The move-to-max button's handler. */
    method MoveSliderToMax()
      modifies this`sliderValue
      ensures Valid()
      ensures sliderValue == MaxValue
    {
      sliderValue := MaxValue;
    }

    /** One drag of the slider as the user sees it: the handler, then the effect. */
    method DragSlider(value: int)
      requires Valid()
      requires InRange(value)
      modifies this
      ensures Valid() && Synced()
      ensures sliderValue == value
      ensures showNextButton <==> value == MaxValue
      ensures showInstructionButton <==> value != MaxValue
    {
      HandleSliderChange(value);
      SyncButtonVisibility();
    }

    /** A click on move-to-max as the user sees it: the handler, then the effect. */
    method ClickMoveToMax()
      requires Valid()
      modifies this
      ensures Valid() && Synced()
      ensures sliderValue == MaxValue
      ensures showNextButton && !showInstructionButton
    {
      MoveSliderToMax();
      SyncButtonVisibility();
    }

    /** `renderBlocks`: one group of two 1-blocks per unit of the value. */
    method RenderBlocks() returns (blocks: seq<Group>)
      requires Valid()
      ensures blocks == Groups(sliderValue)
      ensures |blocks| == sliderValue
      ensures forall i :: 0 <= i < |blocks| ==> blocks[i].key == i && blocks[i].units == UnitPair
    {
      blocks := [];
      var i := 0;
      while i < sliderValue
        invariant 0 <= i <= sliderValue
        invariant blocks == Groups(i)
      {
        blocks := blocks + [Group(i, UnitPair)];
        i := i + 1;
      }
      GroupsShape(sliderValue);
    }

    /** The Next button calls the navigator's `handleNext`; it exists only while
        the flags say so, and page 5 is on screen only while the navigator is there. */
    method ClickNext(nav: Navigation.Navigator)
      requires Valid() && Synced() && showNextButton
      requires nav.Valid() && nav.currentPage == Navigation.SliderPageId
      modifies nav
      ensures nav.Valid()
      ensures nav.State() == Navigation.Next(old(nav.State()))
      ensures nav.currentPage == Navigation.SliderPageId + 1
      ensures nav.progress >= nav.currentPage
    {
      nav.HandleNext();
    }
  }

  /** Page 5 before any input: value 0, no blocks, the move-to-max button shown. */
  lemma FreshPageView()
    ensures Product(0) == 0 && FillPercent(0) == 0
    ensures Groups(0) == []
    ensures ShowsInstructionButton(0) && !ShowsNextButton(0) && !MoveToMaxDisabled(0)
  {
  }

  /** On page 5, drag to 4, then move to max, then press Next; coming back to
      page 5 mounts a fresh slider at 0. */
  method SliderScenario()
  {
    var nav := new Navigation.Navigator();
    var k := 0;
    while k < 4
      invariant 0 <= k <= 4
      invariant nav.Valid()
      invariant nav.currentPage == nav.progress == k + 1
    {
      nav.HandleNext();
      k := k + 1;
    }
    var page := new Page5();
    page.DragSlider(4);
    var blocks := page.RenderBlocks();
    assert |blocks| == 4 && Product(page.sliderValue) == 8;
    assert page.showInstructionButton && !page.showNextButton;
    page.ClickMoveToMax();
    blocks := page.RenderBlocks();
    assert |blocks| == 10 && Product(page.sliderValue) == 20;
    page.ClickNext(nav);
    assert nav.State() == Navigation.NavState(6, 6);
    nav.HandlePrevious();
    var again := new Page5();
    assert again.sliderValue == 0 && nav.currentPage == Navigation.SliderPageId;
  }
}
