/** The design summary panel (components/Summary.tsx): when its two buttons are enabled,
    which perspectives it offers and which removal actions its lists carry. */
module Summary {
  import opened Wrappers
  import opened Types

  /** `canGenerate`: a colour is selected. The room is not consulted here. */
  predicate CanGenerate(selectedColor: Option<Color>) {
    selectedColor.Some?
  }

  /** `disabled` of the generate button. While a generation or a refinement is in flight the
      button is disabled; this is the only thing that keeps a second generation from starting. */
  predicate GenerateDisabled(selectedColor: Option<Color>, isLoading: bool, isRefining: bool) {
    !CanGenerate(selectedColor) || isLoading || isRefining
  }

  /** `disabled` of the download-design button. */
  predicate DownloadDisabled(selectedColor: Option<Color>) {
    !CanGenerate(selectedColor)
  }

  /** The generate button is enabled exactly when a colour is selected and nothing is in
      flight; the download button exactly when a colour is selected, whatever is in flight. */
  lemma ButtonRules(selectedColor: Option<Color>, isLoading: bool, isRefining: bool)
    ensures !GenerateDisabled(selectedColor, isLoading, isRefining) <==>
              selectedColor.Some? && !isLoading && !isRefining
    ensures !DownloadDisabled(selectedColor) <==> selectedColor.Some?
    ensures !GenerateDisabled(selectedColor, isLoading, isRefining) ==> !DownloadDisabled(selectedColor)
  {
  }

  /** One perspective button: the perspective it selects and its label's translation key. */
  datatype PerspectiveOption = PerspectiveOption(id: Perspective, nameKey: string)

  /** `PERSPECTIVE_OPTIONS`. */
  const PerspectiveOptions: seq<PerspectiveOption> := [
    PerspectiveOption(Front, "perspective_front"),
    PerspectiveOption(Corner, "perspective_corner"),
    PerspectiveOption(Window, "perspective_window"),
    PerspectiveOption(Closeup, "perspective_closeup")
  ]

  /** The position of a perspective's button. */
  function OptionIndex(p: Perspective): (i: nat)
    ensures i < |PerspectiveOptions| && PerspectiveOptions[i].id == p
    ensures forall j :: 0 <= j < |PerspectiveOptions| && PerspectiveOptions[j].id == p ==> j == i
  {
    match p
    case Front => 0
    case Corner => 1
    case Window => 2
    case Closeup => 3
  }

  /** The panel offers front, corner, window and close-up, in that order, no perspective
      twice; with `OptionIndex` every perspective has its button. */
  lemma PerspectiveOptionsInOrder()
    ensures |PerspectiveOptions| == 4
    ensures PerspectiveOptions[0].id == Front && PerspectiveOptions[1].id == Corner
    ensures PerspectiveOptions[2].id == Window && PerspectiveOptions[3].id == Closeup
    ensures forall i, j :: 0 <= i < j < |PerspectiveOptions| ==> PerspectiveOptions[i].id != PerspectiveOptions[j].id
  {
  }

  /** The `onRemove` bound to one listed entry: `onRemoveItem(item.instanceId, category)`. */
  datatype RemoveAction = RemoveAction(instanceId: int, category: Category)

  /** The removal actions of one list, one per entry, in list order. */
  function RemoveActions(items: seq<Instance>, category: Category): (r: seq<RemoveAction>)
    ensures |r| == |items|
    ensures forall i :: 0 <= i < |items| ==> r[i].instanceId == items[i].instanceId && r[i].category == category
  {
    seq(|items|, i requires 0 <= i < |items| => RemoveAction(items[i].instanceId, category))
  }
}
