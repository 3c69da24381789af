/** src/components/switch_view.rs: the arrows that cycle the main area
    through its four panels (orbit canvas, speed chart, force chart, small
    properties), wrapping around at both ends. */
module SwitchView {
  import opened OrbitVisualization

  /** container_ids, in the order the arrows cycle through them. */
  const ContainerIds: seq<string> :=
    ["orbit_visualization_canvas", "velocity_chart", "gravitational_force_with_sun_chart", "small_properties"]

  const PanelCount: nat := 4

  const VisibleClass: string := "visible_element"
  const InvisibleClass: string := "invisible_element"

  /** The panels in the order the page lays them out: canvas, speed chart,
      small properties, force chart.  The class-name lookup finds the first
      visible panel in this order. */
  const DocumentOrder: seq<nat> := [0, 1, 3, 2]

  /** The index after one click: left (left_right) steps back, right steps
      forward, and both wrap around.  The result is a panel index, and it is
      the current one moved by one step modulo four. */
  function NewActiveIndex(leftRight: bool, current: nat): (n: nat)
    requires current < PanelCount
    ensures n < PanelCount
    ensures leftRight ==> n == (current + PanelCount - 1) % PanelCount
    ensures !leftRight ==> n == (current + 1) % PanelCount
  {
    if leftRight then
      if current == 0 then PanelCount - 1 else current - 1
    else
      if current == PanelCount - 1 then 0 else current + 1
  }

  /** A click always moves to another panel. */
  lemma ClickMoves(leftRight: bool, current: nat)
    requires current < PanelCount
    ensures NewActiveIndex(leftRight, current) != current
  {
  }

  /** A left click followed by a right click, or the reverse, comes back to
      the same panel. */
  lemma LeftRightInverse(current: nat)
    requires current < PanelCount
    ensures NewActiveIndex(false, NewActiveIndex(true, current)) == current
    ensures NewActiveIndex(true, NewActiveIndex(false, current)) == current
  {
  }

  /** Four clicks in the same direction visit every panel once and come back
      to the start. */
  lemma FourClicksCycle(leftRight: bool, current: nat)
    requires current < PanelCount
    ensures var n1 := NewActiveIndex(leftRight, current);
      var n2 := NewActiveIndex(leftRight, n1);
      var n3 := NewActiveIndex(leftRight, n2);
      && NewActiveIndex(leftRight, n3) == current
      && {current, n1, n2, n3} == {0, 1, 2, 3}
  {
  }

  /** Exactly panel k carries the visible class. */
  ghost predicate OnlyVisible(classLists: seq<set<string>>, k: nat)
    requires |classLists| == PanelCount
  {
    forall i :: 0 <= i < PanelCount ==> (VisibleClass in classLists[i] <==> i == k)
  }

  /** Some panel carries the visible class. */
  predicate SomeVisible(classLists: seq<set<string>>)
    requires |classLists| == PanelCount
  {
    exists i :: 0 <= i < PanelCount && VisibleClass in classLists[i]
  }

  /** The first visible panel in document order, the one
      get_elements_by_class_name("visible_element").get_with_index(0)
      yields. */
  function FirstVisible(classLists: seq<set<string>>): (k: nat)
    requires |classLists| == PanelCount && SomeVisible(classLists)
    ensures k < PanelCount && VisibleClass in classLists[k]
    ensures forall j :: 0 <= j < |DocumentOrder| && DocumentOrder[j] == k ==>
      forall t :: 0 <= t < j ==> VisibleClass !in classLists[DocumentOrder[t]]
  {
    if VisibleClass in classLists[0] then 0
    else if VisibleClass in classLists[1] then 1
    else if VisibleClass in classLists[3] then 3
    else 2
  }

  /** When a single panel is visible, it is the one found. */
  lemma FirstVisibleIsOnly(classLists: seq<set<string>>, k: nat)
    requires |classLists| == PanelCount && k < PanelCount && OnlyVisible(classLists, k)
    ensures SomeVisible(classLists) && FirstVisible(classLists) == k
  {
    assert VisibleClass in classLists[k];
  }

  /** The class lists after the swap: the old panel trades visible_element
      for invisible_element and the new panel the reverse; every other class
      and every other panel is untouched. */
  function SwapVisibility(classLists: seq<set<string>>, from: nat, to: nat): (r: seq<set<string>>)
    requires |classLists| == PanelCount && from < PanelCount && to < PanelCount && from != to
    ensures |r| == PanelCount
    ensures InvisibleClass in r[from] && VisibleClass !in r[from]
    ensures VisibleClass in r[to] && InvisibleClass !in r[to]
    ensures r[from] - {InvisibleClass} == classLists[from] - {VisibleClass, InvisibleClass}
    ensures r[to] - {VisibleClass} == classLists[to] - {VisibleClass, InvisibleClass}
    ensures forall i :: 0 <= i < PanelCount && i != from && i != to ==> r[i] == classLists[i]
  {
    classLists[from := classLists[from] - {VisibleClass} + {InvisibleClass}]
              [to := classLists[to] - {InvisibleClass} + {VisibleClass}]
  }

  /** The swap moves the single visible panel from the old index to the new
      one, and leaves the old panel marked invisible. */
  lemma SwapKeepsOneVisible(classLists: seq<set<string>>, from: nat, to: nat)
    requires |classLists| == PanelCount && from < PanelCount && to < PanelCount && from != to
    requires OnlyVisible(classLists, from)
    ensures OnlyVisible(SwapVisibility(classLists, from, to), to)
    ensures InvisibleClass in SwapVisibility(classLists, from, to)[from]
    ensures InvisibleClass !in SwapVisibility(classLists, from, to)[to]
  {
  }

  /** The page state switch_view touches: the class list of each panel, the
      hover probe shown under the canvas, and how often the canvas has been
      redrawn. */
  class Views {
    var classLists: seq<set<string>>
    var mouseProperties: HoverInfo
    var redraws: nat

    constructor (classLists: seq<set<string>>, mouseProperties: HoverInfo)
      ensures this.classLists == classLists && this.mouseProperties == mouseProperties && redraws == 0
    {
      this.classLists := classLists;
      this.mouseProperties := mouseProperties;
      redraws := 0;
    }

    /** switch_view: find the visible panel, step to the neighbouring index,
        redraw the canvas if it is the new panel and otherwise hide the hover
        probe, then swap the visibility classes. */
    method SwitchView(leftRight: bool)
      requires |classLists| == PanelCount && SomeVisible(classLists)
      modifies this
      ensures var current := FirstVisible(old(classLists));
        var next := NewActiveIndex(leftRight, current);
        && classLists == SwapVisibility(old(classLists), current, next)
        && (next == 0 ==> redraws == old(redraws) + 1 && mouseProperties == old(mouseProperties))
        && (next != 0 ==> redraws == old(redraws) && mouseProperties == Hidden)
      ensures forall k :: 0 <= k < PanelCount && old(OnlyVisible(classLists, k)) ==>
        OnlyVisible(classLists, NewActiveIndex(leftRight, k))
    {
      var currentActiveIndex := FirstVisible(classLists);
      var newActiveIndex := NewActiveIndex(leftRight, currentActiveIndex);
      if newActiveIndex == 0 {
        redraws := redraws + 1;
      } else {
        mouseProperties := Hidden;
      }
      ClickMoves(leftRight, currentActiveIndex);
      forall k | 0 <= k < PanelCount && OnlyVisible(classLists, k)
        ensures k == currentActiveIndex
        ensures OnlyVisible(SwapVisibility(classLists, currentActiveIndex, newActiveIndex), newActiveIndex)
      {
        FirstVisibleIsOnly(classLists, k);
        SwapKeepsOneVisible(classLists, currentActiveIndex, newActiveIndex);
      }
      classLists := classLists[currentActiveIndex := classLists[currentActiveIndex] - {VisibleClass} + {InvisibleClass}];
      classLists := classLists[newActiveIndex := classLists[newActiveIndex] - {InvisibleClass} + {VisibleClass}];
    }
  }
}
