/** The `Dropdown` widget: an anchor rectangle that unfolds a list of options below itself. */
module Dropdowns {
  import opened Outcomes
  import opened Geometry
  import opened Events
  import opened Components

  /** An insertion-ordered dictionary from option keys to display labels. */
  datatype Items = Items(keys: seq<string>, labels: map<string, string>) {
    ghost predicate Valid() {
      && (forall i, j :: 0 <= i < j < |keys| ==> keys[i] != keys[j])
      && (forall k :: k in labels <==> k in keys)
    }
  }

  /** Python truthiness of the optional `selected_key` argument: `None` and `""` are false. */
  predicate Truthy(selected: Option<string>) {
    selected.Some? && selected.value != ""
  }

  /** `selected_key or next(iter(items.keys()))`: the given key when truthy, otherwise the first
      key in insertion order; with no keys at all, `next` raises `StopIteration`. */
  function InitialSelection(items: Items, selected: Option<string>): (r: Result<string>)
    ensures Truthy(selected) ==> r == Ok(selected.value)
    ensures !Truthy(selected) && items.keys != [] ==> r == Ok(items.keys[0])
    ensures r.Err? <==> !Truthy(selected) && items.keys == []
  {
    if Truthy(selected) then Ok(selected.value)
    else if items.keys == [] then Err(StopIteration)
    else Ok(items.keys[0])
  }

  /** When the option keys are valid, the initial selection is one of them unless a truthy
      key was passed in explicitly. */
  lemma {:induction false} InitialSelectionIsKey(items: Items, selected: Option<string>)
    requires items.Valid() && InitialSelection(items, selected).Ok?
    requires Truthy(selected) ==> selected.value in items.labels
    ensures InitialSelection(items, selected).value in items.labels
  {
    if !Truthy(selected) {
      assert items.keys[0] in items.keys;
    }
  }

  // The call to the base constructor.

  /** Python values passed as arguments, as far as the base constructor tells them apart. */
  datatype Arg = StrArg(s: string) | PairArg(a: int, b: int) | ColourArg(c: Colour) | BoolArg(flag: bool)

  /** The parameters `Component.__init__(scene, size, position, color, name, visible, debug)`
      receives, scene left out. */
  datatype ComponentParams = ComponentParams(size: Arg, position: Arg, color: Arg, name: Arg, visible: Arg, debug: Arg)

  /** `pygame.Rect(position, size)`: each argument must be a pair of numbers; a string is
      refused with a `TypeError`. */
  function RectOf(position: Arg, size: Arg): (r: Result<Rect>)
    ensures r.Ok? <==> position.PairArg? && size.PairArg?
    ensures r.Ok? ==> r.value == Rect(position.a, position.b, size.a, size.b)
  {
    if position.PairArg? && size.PairArg? then Ok(Rect(position.a, position.b, size.a, size.b))
    else Err(TypeError)
  }

  /** The base-constructor call as `Dropdown.__init__` writes it: positionally, in the order
      size, name, position, color, which is not the order `Component.__init__` declares. */
  function SuperCallAsWritten(width: int, height: int, name: string, position: Point,
                              color: Colour, visible: bool, debug: bool): ComponentParams
  {
    ComponentParams(PairArg(width, height), StrArg(name), PairArg(position.x, position.y),
                    ColourArg(color), BoolArg(visible), BoolArg(debug))
  }

  /** As written, the component's rectangle is built from the dropdown's name, which pygame
      refuses: constructing any dropdown raises. */
  lemma SuperCallAsWrittenRaises(width: int, height: int, name: string, position: Point,
                                 color: Colour, visible: bool, debug: bool)
    ensures var p := SuperCallAsWritten(width, height, name, position, color, visible, debug);
      RectOf(p.position, p.size) == Err(TypeError) && p.name == ColourArg(color)
  {
  }

  /** The call as evidently intended: each argument bound to the parameter of its name. */
  function SuperCallIntended(width: int, height: int, name: string, position: Point,
                             color: Colour, visible: bool, debug: bool): ComponentParams
  {
    ComponentParams(PairArg(width, height), PairArg(position.x, position.y), ColourArg(color),
                    StrArg(name), BoolArg(visible), BoolArg(debug))
  }

  /** Bound by name, the rectangle is the dropdown's position and size, and the name is kept. */
  lemma SuperCallIntendedRect(width: int, height: int, name: string, position: Point,
                              color: Colour, visible: bool, debug: bool)
    ensures var p := SuperCallIntended(width, height, name, position, color, visible, debug);
      RectOf(p.position, p.size) == Ok(Rect(position.x, position.y, width, height)) && p.name == StrArg(name)
  {
  }

  // Clicks.

  /** What a press does to a dropdown: flip `expanded`, pick option `index`, fold up without
      picking, or nothing. */
  datatype Choice = Flip | Pick(index: nat) | Dismiss | Ignore

  /** How a dropdown with anchor `anchor`, `n` options and unfolded state `expanded` treats
      event `e`: only left-button presses count; a press on the anchor flips the state; a press
      elsewhere while unfolded picks the first row containing it, or dismisses the list. */
  function Classify(anchor: Rect, n: nat, expanded: bool, e: Event): (c: Choice)
    ensures c.Pick? ==> e.Down? && c.index < n && expanded && Contains(RowRect(anchor, c.index), e.pos)
  {
    if e.Down? && e.button == LeftButton then
      if Contains(anchor, e.pos) then Flip
      else if expanded then
        match FirstRowHit(anchor, n, e.pos)
        case Some(i) => Pick(i)
        case None => Dismiss
      else Ignore
    else Ignore
  }

  /** A pick happens at exactly one row, the one containing the press; the press is off the
      anchor and in no other row. */
  lemma {:induction false} PickIsOnlyRow(anchor: Rect, n: nat, expanded: bool, e: Event, j: nat)
    requires Classify(anchor, n, expanded, e).Pick?
    ensures var i := Classify(anchor, n, expanded, e).index;
      e.Down? && e.button == LeftButton && !Contains(anchor, e.pos)
      && (Contains(RowRect(anchor, j), e.pos) <==> j == i)
  {
    var i := Classify(anchor, n, expanded, e).index;
    if j != i {
      RowsDisjoint(anchor, i, j, e.pos);
    }
  }

  /** Only a left press on the anchor, or any left press while unfolded, changes anything;
      the latter always folds the list up. */
  lemma ClassifyCases(anchor: Rect, n: nat, expanded: bool, e: Event)
    ensures var c := Classify(anchor, n, expanded, e);
      && (c == Flip <==> e.Down? && e.button == LeftButton && Contains(anchor, e.pos))
      && (c.Pick? || c == Dismiss <==> e.Down? && e.button == LeftButton && !Contains(anchor, e.pos) && expanded)
      && (c == Dismiss ==> forall j :: 0 <= j < n ==> !Contains(RowRect(anchor, j), e.pos))
  {
  }

  /** The unfolded state after choice `c`: a flip inverts it, a pick or a dismissal folds the
      list, anything else keeps it. */
  function ExpandedAfter(c: Choice, expanded: bool): (r: bool)
    ensures r != expanded <==> c == Flip || (expanded && (c.Pick? || c == Dismiss))
    ensures c.Pick? || c == Dismiss ==> !r
  {
    match c
    case Flip => !expanded
    case Pick(_) => false
    case Dismiss => false
    case Ignore => expanded
  }

  /** The keys the selection callback receives for choice `c`: the picked key, once, when the
      dropdown has a callback (a row past the last key, which `Classify` never picks, gives
      nothing). */
  function Picked(c: Choice, keys: seq<string>, hasAction: bool): (ks: seq<string>)
    ensures |ks| <= 1
    ensures ks != [] <==> c.Pick? && hasAction && c.index < |keys|
    ensures ks != [] ==> ks[0] == keys[c.index]
  {
    if c.Pick? && hasAction && c.index < |keys| then [keys[c.index]] else []
  }

  /** The messages a click logs with debugging on: the toggle, or the selection followed by
      the toggle that folds the list. */
  function ClickNotes(c: Choice, keys: seq<string>, labels: map<string, string>, expanded: bool): seq<Message>
    requires c.Pick? ==> c.index < |keys| && keys[c.index] in labels
  {
    match c
    case Flip => [ToggledExpanded(!expanded)]
    case Pick(i) => [SelectedItem(labels[keys[i]]), ToggledExpanded(false)]
    case _ => []
  }

  /** What a dropdown shows of itself: its component part's rectangle, hover flags and log,
      then its selection, unfolded state and the keys its callback has received. */
  datatype DropdownState = DropdownState(rect: Rect, isHovered: bool, wasHovered: bool, emitted: seq<Message>,
                                         selectedKey: string, expanded: bool, selections: seq<string>)

  /** The keys the callback of a dropdown in state `s` receives on `e`: at most one, the key of
      the row the press landed in while the list was unfolded. */
  function PickedOn(items: Items, hasAction: bool, s: DropdownState, e: Event): (ks: seq<string>)
    ensures |ks| <= 1
    ensures ks != [] <==> hasAction && Classify(s.rect, |items.keys|, s.expanded, e).Pick?
    ensures ks != [] ==> var i := Classify(s.rect, |items.keys|, s.expanded, e).index;
      && e.Down? && e.button == LeftButton && s.expanded
      && ks[0] == items.keys[i] && Contains(RowRect(s.rect, i), e.pos)
  {
    Picked(Classify(s.rect, |items.keys|, s.expanded, e), items.keys, hasAction)
  }

  /** The state of a dropdown with options `items` after it handles `e` in state `s`: the
      component's hover tracking, then the press handling as `Classify` describes it. */
  function AfterEvent(items: Items, hasAction: bool, debug: bool, s: DropdownState, e: Event): (t: DropdownState)
    requires items.Valid()
    ensures t.rect == s.rect
    ensures e.Motion? ==> t.isHovered == Contains(s.rect, e.pos) && t.wasHovered == t.isHovered
    ensures !e.Motion? ==> t.isHovered == s.isHovered && t.wasHovered == s.wasHovered
    ensures !e.Down? ==> t.selectedKey == s.selectedKey && t.expanded == s.expanded && t.selections == s.selections
    ensures s.selectedKey in items.labels ==> t.selectedKey in items.labels
    ensures t.selections == s.selections + PickedOn(items, hasAction, s, e)
    ensures PickedOn(items, hasAction, s, e) != [] ==> t.selectedKey == PickedOn(items, hasAction, s, e)[0] && !t.expanded
    ensures !debug ==> t.emitted == s.emitted
  {
    var c := Classify(s.rect, |items.keys|, s.expanded, e);
    assert c.Pick? ==> items.keys[c.index] in items.keys;
    var hovered := if e.Motion? then Contains(s.rect, e.pos) else s.isHovered;
    DropdownState(s.rect, hovered, if e.Motion? then hovered else s.wasHovered,
                  s.emitted + (if e.Motion? then Gate(debug, HoverNotice(s.wasHovered, hovered)) else [])
                            + (if debug then ClickNotes(c, items.keys, items.labels, s.expanded) else []),
                  if c.Pick? then items.keys[c.index] else s.selectedKey,
                  ExpandedAfter(c, s.expanded),
                  s.selections + Picked(c, items.keys, hasAction))
  }

  /** `Dropdown`, a `Component` with options. The component part is `base`; the selection
      callback is recorded: `selections` lists the keys it was called with. */
  class Dropdown {
    const base: Component
    const items: Items
    const hasAction: bool
    var selectedKey: string
    var expanded: bool
    var selections: seq<string>

    constructor(name: string, width: int, height: int, items: Items, position: Point,
                hasAction: bool, selected: Option<string>, visible: bool, debug: bool)
      requires InitialSelection(items, selected).Ok?
      ensures fresh(base) && base.name == name && base.visible == visible && base.debug == debug
      ensures base.rect == Rect(position.x, position.y, width, height)
      ensures !base.isHovered && !base.wasHovered && base.emitted == []
      ensures this.items == items && this.hasAction == hasAction
      ensures selectedKey == InitialSelection(items, selected).value
      ensures !expanded && selections == []
    {
      base := new Component(name, position, width, height, visible, debug);
      this.items := items;
      this.hasAction := hasAction;
      selectedKey := InitialSelection(items, selected).value;
      expanded := false;
      selections := [];
    }

    /** The dropdown's observable state. */
    function State(): DropdownState
      reads this, base
    {
      DropdownState(base.rect, base.isHovered, base.wasHovered, base.emitted, selectedKey, expanded, selections)
    }

    /** `toggle`. */
    method Toggle()
      modifies this`expanded, base`emitted
      ensures expanded == !old(expanded)
      ensures base.emitted == old(base.emitted) + Gate(base.debug, Some(ToggledExpanded(expanded)))
    {
      expanded := !expanded;
      base.Log(ToggledExpanded(expanded));
    }

    /** `select_item`: the key is stored first; an unknown key then raises `KeyError` before
      anything is logged or the callback runs. */
    method SelectItem(key: string) returns (status: Status)
      modifies this`selectedKey, this`selections, base`emitted
      ensures selectedKey == key
      ensures key in items.labels ==> status == Done
      ensures key in items.labels ==>
        base.emitted == old(base.emitted) + Gate(base.debug, Some(SelectedItem(items.labels[key])))
      ensures key in items.labels ==> selections == old(selections) + (if hasAction then [key] else [])
      ensures key !in items.labels ==> status == Raised(KeyError)
      ensures key !in items.labels ==> base.emitted == old(base.emitted) && selections == old(selections)
    {
      selectedKey := key;
      if key !in items.labels {
        return Raised(KeyError);
      }
      base.Log(SelectedItem(items.labels[key]));
      if hasAction {
        selections := selections + [key];
      }
      status := Done;
    }

    /** The press handling of `handle_event`, as `Classify` describes it: the rows are scanned
      in display order and the scan stops at the first hit. */
    method HandlePress(e: Event)
      requires items.Valid()
      modifies this`selectedKey, this`expanded, this`selections, base`emitted
      ensures var c := Classify(base.rect, |items.keys|, old(expanded), e);
        && (c == Flip ==> expanded == !old(expanded) && selectedKey == old(selectedKey) && selections == old(selections))
        && (c.Pick? ==> && !expanded && selectedKey == items.keys[c.index]
                        && selections == old(selections) + (if hasAction then [items.keys[c.index]] else []))
        && (c == Dismiss ==> !expanded && selectedKey == old(selectedKey) && selections == old(selections))
        && (c == Ignore ==> expanded == old(expanded) && selectedKey == old(selectedKey) && selections == old(selections))
        && base.emitted == old(base.emitted) + (if base.debug then ClickNotes(c, items.keys, items.labels, old(expanded)) else [])
    {
      ghost var c := Classify(base.rect, |items.keys|, expanded, e);
      if e.Down? && e.button == LeftButton {
        if base.CollidePoint(e.pos) {
          Toggle();
        } else if expanded {
          var clickedInside := false;
          var i := 0;
          while i < |items.keys|
            invariant 0 <= i <= |items.keys| && !clickedInside
            invariant forall j :: 0 <= j < i ==> !Contains(RowRect(base.rect, j), e.pos)
            invariant expanded && selectedKey == old(selectedKey)
            invariant selections == old(selections) && base.emitted == old(base.emitted)
          {
            if Contains(RowRect(base.rect, i), e.pos) {
              assert items.keys[i] in items.keys;
              assert FirstRowHit(base.rect, |items.keys|, e.pos) == Some(i);
              var status := SelectItem(items.keys[i]);
              Toggle();
              clickedInside := true;
              break;
            }
            i := i + 1;
          }
          if !clickedInside {
            expanded := false;
          }
        }
      }
      if c.Pick? {
        assert items.keys[c.index] in items.keys;
      }
    }

    /** `handle_event`: the component's hover tracking, then the press handling. */
    method HandleEvent(e: Event)
      requires items.Valid()
      modifies this`selectedKey, this`expanded, this`selections, base`isHovered, base`wasHovered, base`emitted
      ensures var c := Classify(base.rect, |items.keys|, old(expanded), e);
        && (c == Flip ==> expanded == !old(expanded) && selectedKey == old(selectedKey) && selections == old(selections))
        && (c.Pick? ==> && !expanded && selectedKey == items.keys[c.index]
                        && selections == old(selections) + (if hasAction then [items.keys[c.index]] else []))
        && (c == Dismiss ==> !expanded && selectedKey == old(selectedKey) && selections == old(selections))
        && (c == Ignore ==> expanded == old(expanded) && selectedKey == old(selectedKey) && selections == old(selections))
        && base.emitted == old(base.emitted)
             + (if e.Motion? then Gate(base.debug, HoverNotice(old(base.wasHovered), base.isHovered)) else [])
             + (if base.debug then ClickNotes(c, items.keys, items.labels, old(expanded)) else [])
      ensures e.Motion? ==> base.isHovered == Contains(base.rect, e.pos) && base.wasHovered == base.isHovered
      ensures !e.Motion? ==> base.isHovered == old(base.isHovered) && base.wasHovered == old(base.wasHovered)
      ensures old(selectedKey) in items.labels ==> selectedKey in items.labels
      ensures expanded == ExpandedAfter(Classify(base.rect, |items.keys|, old(expanded), e), old(expanded))
      ensures selections == old(selections) + Picked(Classify(base.rect, |items.keys|, old(expanded), e), items.keys, hasAction)
      ensures State() == AfterEvent(items, hasAction, base.debug, old(State()), e)
    {
      ghost var c := Classify(base.rect, |items.keys|, expanded, e);
      base.HandleEvent(e);
      HandlePress(e);
      if c.Pick? {
        assert items.keys[c.index] in items.keys;
      }
    }
  }
}
