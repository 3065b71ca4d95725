/** The one piece of the browser the front-end logic depends on: a single-choice `<select>`
    element, reduced to the values of its `<option>` children and the index of the selected one.
    Its methods follow the selectedness rules of the HTML standard: a single-choice select with
    options always has one of them selected, removing the selected option selects the first,
    and appending an option flagged as selected deselects the others. */
module Dom {

  /** The index of the first occurrence of `v` in `s`, or `|s|` when there is none. */
  function FirstIndex(s: seq<string>, v: string): (i: nat)
    ensures i <= |s|
    ensures i < |s| ==> s[i] == v
    ensures forall k :: 0 <= k < i ==> s[k] != v
  {
    if |s| == 0 then 0 else if s[0] == v then 0 else 1 + FirstIndex(s[1..], v)
  }

  class SelectElement {
    /** The `value` of each option child, in document order. */
    var children: seq<string>
    /** The index of the selected option; -1 when there are no options. */
    var selected: int

    ghost predicate Valid()
      reads this
    {
      -1 <= selected < |children| && (selected == -1 <==> |children| == 0)
    }

    /** `select.value`: the value of the selected option, or "" when there is none. */
    function Value(): (v: string)
      reads this
      ensures Valid() && |children| > 0 ==> v == children[selected]
      ensures |children| == 0 ==> v == ""
    {
      if 0 <= selected < |children| then children[selected] else ""
    }

    /** A select holding `options`, the first one selected. */
    constructor(options: seq<string>)
      ensures Valid() && children == options
      ensures |options| > 0 ==> selected == 0
    {
      children := options;
      selected := if |options| == 0 then -1 else 0;
    }

    /** `select.removeChild(select.lastChild)`. */
    method RemoveLastChild()
      requires Valid() && |children| > 0
      modifies this
      ensures Valid()
      ensures children == old(children)[..|old(children)| - 1]
      ensures selected == if old(selected) < |children| then old(selected) else if |children| > 0 then 0 else -1
    {
      children := children[..|children| - 1];
      if selected == |children| {
        selected := if |children| > 0 then 0 else -1;
      }
    }

    /** `select.innerHTML = ''`. */
    method Clear()
      modifies this
      ensures Valid() && children == []
    {
      children := [];
      selected := -1;
    }

    /** `select.appendChild(option)` for a new option whose `selected` flag is `flagged`. */
    method AppendOption(value: string, flagged: bool)
      requires Valid()
      modifies this
      ensures Valid()
      ensures children == old(children) + [value]
      ensures selected == if flagged then |old(children)| else if |old(children)| == 0 then 0 else old(selected)
    {
      children := children + [value];
      if flagged {
        selected := |children| - 1;
      } else if selected == -1 {
        selected := 0;
      }
    }

    /** `select.children[i].selected = true`. */
    method SelectChild(i: nat)
      requires Valid() && i < |children|
      modifies this`selected
      ensures Valid() && selected == i
    {
      selected := i;
    }

    /** `select.value = v` for a value one of the options has: the first such option is selected. */
    method SetValue(v: string)
      requires Valid() && v in children
      modifies this`selected
      ensures Valid() && selected == FirstIndex(children, v) && Value() == v
    {
      selected := FirstIndex(children, v);
    }
  }
}
