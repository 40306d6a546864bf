/**
 * The model picker: a popover listing the four models, at most one of which is
 * selected. Picking the selected model again clears the selection; every change
 * of selection reports the selection to the parent as a list of zero or one value.
 */
module ModelSelector {
  import opened Wrappers

  const Placeholder := "AI Model"

  /** One entry of the picker; the descriptions shown under each entry are not modelled. */
  datatype ModelOption = ModelOption(value: string, caption: string)

  const Options: seq<ModelOption> := [
    ModelOption("bart", "BART"),
    ModelOption("t5", "T5"),
    ModelOption("flan-t5", "Flan-T5"),
    ModelOption("pegasus", "Pegasus")
  ]

  function Values(): (r: seq<string>)
    ensures |r| == |Options| && forall i :: 0 <= i < |Options| ==> r[i] == Options[i].value
  {
    seq(|Options|, i requires 0 <= i < |Options| => Options[i].value)
  }

  /** `currentValue === value ? null : value`. */
  function Toggle(current: Option<string>, value: string): (r: Option<string>)
    ensures r == None <==> current == Some(value)
    ensures r.Some? ==> r.value == value
  {
    if current == Some(value) then None else Some(value)
  }

  /**
   * Picking the same value twice restores the selection exactly when nothing or
   * that value was selected; from another value it ends with nothing selected.
   */
  lemma ToggleTwice(current: Option<string>, value: string)
    ensures Toggle(Toggle(current, value), value) == current <==> current == None || current == Some(value)
    ensures current != None && current != Some(value) ==> Toggle(Toggle(current, value), value) == None
  {
  }

  /** The argument of `onModelSelect`: `selectedModel ? [selectedModel] : []`. */
  function Reported(selected: Option<string>): (r: seq<string>)
    ensures |r| <= 1
    ensures r == [] <==> selected.None? || selected.value == ""
    ensures r != [] ==> r[0] == selected.value
  {
    if selected.Some? && selected.value != "" then [selected.value] else []
  }

  /** `models.find((model) => model.value === v)?.label`, from position `from` on. */
  function LabelOf(v: string, from: nat): (r: Option<string>)
    requires from <= |Options|
    decreases |Options| - from
    ensures r.Some? <==> exists i :: from <= i < |Options| && Options[i].value == v
    ensures r.Some? ==> exists i :: from <= i < |Options| && Options[i].value == v && r.value == Options[i].caption
  {
    if from == |Options| then None
    else if Options[from].value == v then Some(Options[from].caption)
    else LabelOf(v, from + 1)
  }

  /** The trigger's text: the selected model's label, or the placeholder. */
  function ButtonText(selected: Option<string>): (r: string)
    ensures selected.Some? && selected.value != "" && selected.value in Values() ==>
      exists i :: 0 <= i < |Options| && Options[i].value == selected.value && r == Options[i].caption
    ensures selected.None? || selected.value !in Values() ==> r == Placeholder
    ensures r != ""
  {
    if selected.Some? && selected.value != "" then
      match LabelOf(selected.value, 0)
      case Some(l) => if l != "" then l else Placeholder
      case None => Placeholder
    else Placeholder
  }

  class Selector {
    var open: bool
    var selected: Option<string>

    /** Only values offered by the picker are ever selected. */
    ghost predicate Valid()
      reads this
    {
      selected.None? || selected.value in Values()
    }

    constructor ()
      ensures !open && selected == None
      ensures Valid()
    {
      open := false;
      selected := None;
    }

    /** `selectModel`: toggles the picked value and closes the popover. */
    method SelectModel(value: string)
      modifies this
      ensures selected == Toggle(old(selected), value) && !open
      ensures old(Valid()) && value in Values() ==> Valid()
    {
      selected := Toggle(selected, value);
      open := false;
    }

    /** `onOpenChange`. */
    method SetOpen(o: bool)
      modifies this
      ensures open == o && selected == old(selected)
    {
      open := o;
    }

    /** What the selection effect reports after the selection has changed. */
    function Report(): (r: seq<string>)
      reads this
      ensures Valid() ==> forall v :: v in r ==> v in Values()
    {
      Reported(selected)
    }
  }
}
