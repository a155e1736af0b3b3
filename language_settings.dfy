/** The language settings: a dropdown of the available languages, whose selection switches the
    language and re-enters the scene, and the way back to the settings menu. */
module LanguageSettings {
  import opened Outcomes
  import opened Geometry
  import opened Events
  import opened Localization
  import opened Components
  import opened Dropdowns
  import opened Scenes

  /** The name the scene registers under. */
  const Name := "language_settings_scene"
  /** The top of the element stack. */
  const OffsetY := 100
  /** The size the scene gives its dropdown. */
  const DropdownWidth := 200
  const DropdownHeight := 50

  /** The back button: slot 4 of a stack with no offset, requesting "settings_scene". */
  function BackButton(text: string): (b: SceneButton)
    ensures b.text == text && b.action == ChangeScene("settings_scene") && !b.hovered
    ensures b.rect == Rect(300, 240, 200, 50)
  {
    StackedButton("back_btn", text, ChangeScene("settings_scene"), 4, 0)
  }

  /** The rectangle `on_enter` gives the dropdown's anchor: slot 0 below the offset. */
  function DropdownRect(): (r: Rect)
    ensures r == Rect(300, 100, 200, 50)
  {
    StackedRect(DropdownWidth, DropdownHeight, 0, OffsetY)
  }

  /** The back button lies at (300, 240), clear of the anchor, but with two or more languages the
      unfolded list's second row (y = 200 to 250) reaches into it, so a press at (300, 245)
      lands on both. The back button wins: the motion that brought the mouse there hovered it,
      the buttons handle the press before the dropdowns, and its scene change exits the scene,
      so the dropdown never sees the press and no language is set. */
  lemma {:induction false} BackButtonUnderSecondRow(text: string, n: nat)
    requires n >= 2
    ensures BackButton(text).rect == Rect(300, 240, 200, 50)
    ensures forall p :: Contains(BackButton(text).rect, p) ==> !Contains(DropdownRect(), p)
    ensures Contains(BackButton(text).rect, Point(300, 245))
    ensures Classify(DropdownRect(), n, true, Down(LeftButton, Point(300, 245))) == Pick(1)
    ensures var b := Step(BackButton(text), Motion(Point(300, 245)));
      && b.hovered
      && FirstExit([b], Down(LeftButton, Point(300, 245))) == Some(0)
      && FiredBy([b], Down(LeftButton, Point(300, 245))) == [ChangeScene("settings_scene")]
  {
    var hit := FirstRowHit(DropdownRect(), n, Point(300, 245));
    assert Contains(RowRect(DropdownRect(), 1), Point(300, 245));
    assert !Contains(RowRect(DropdownRect(), 0), Point(300, 245));
    assert hit == Some(1);
    var b := Step(BackButton(text), Motion(Point(300, 245)));
    assert [b][..0] == [];
  }

  /** Whether dropdown `d`, in state `s`, hands a key to its callback on `e`. */
  predicate Reports(d: Dropdown, s: DropdownState, e: Event) {
    PickedOn(d.items, d.hasAction, s, e) != []
  }

  /** The first dropdown from position `k` on that reports a key on `e`, the dropdowns being in
      states `ss`. */
  function FirstReportFrom(els: seq<Dropdown>, ss: seq<DropdownState>, e: Event, k: nat): (r: Option<nat>)
    requires |ss| == |els| && k <= |els|
    ensures r.Some? ==> k <= r.value < |els| && Reports(els[r.value], ss[r.value], e)
    ensures r.Some? ==> forall j :: k <= j < r.value ==> !Reports(els[j], ss[j], e)
    ensures r.None? ==> forall j :: k <= j < |els| ==> !Reports(els[j], ss[j], e)
    decreases |els| - k
  {
    if k == |els| then None
    else if Reports(els[k], ss[k], e) then Some(k)
    else FirstReportFrom(els, ss, e, k + 1)
  }

  /** The first dropdown that reports a key on `e`. Its callback runs `change_language`, whose
      scene change exits this scene: `on_exit` empties the list, and the loop stops there. */
  function FirstReport(els: seq<Dropdown>, ss: seq<DropdownState>, e: Event): (r: Option<nat>)
    requires |ss| == |els|
    ensures r.Some? ==> r.value < |els| && Reports(els[r.value], ss[r.value], e)
    ensures r.Some? ==> forall j :: 0 <= j < r.value ==> !Reports(els[j], ss[j], e)
    ensures r.None? ==> forall j :: 0 <= j < |els| ==> !Reports(els[j], ss[j], e)
  {
    FirstReportFrom(els, ss, e, 0)
  }

  /** How many dropdowns handle `e`: all of them, or those up to and including the first that
      reports a key. */
  function Handled(els: seq<Dropdown>, ss: seq<DropdownState>, e: Event): (n: nat)
    requires |ss| == |els|
    ensures n <= |els|
    ensures n < |els| ==> FirstReport(els, ss, e) == Some(n - 1)
  {
    match FirstReport(els, ss, e)
    case None => |els|
    case Some(p) => p + 1
  }

  /** The commands `change_language` issues when the dropdowns, in states `ss`, handle `e`:
      nothing, or the key of the row the press landed in, in the first dropdown that was
      unfolded over it, followed by the change to this scene. */
  function LanguagePick(els: seq<Dropdown>, ss: seq<DropdownState>, e: Event): (cs: seq<Command>)
    requires |ss| == |els|
    ensures cs == [] <==> FirstReport(els, ss, e).None?
    ensures FirstReport(els, ss, e).Some? ==>
      var p := FirstReport(els, ss, e).value;
      var c := Classify(ss[p].rect, |els[p].items.keys|, ss[p].expanded, e);
      && c.Pick? && ss[p].expanded && e.Down? && Contains(RowRect(ss[p].rect, c.index), e.pos)
      && cs == [SetLanguage(els[p].items.keys[c.index]), ChangeScene(Name)]
  {
    match FirstReport(els, ss, e)
    case None => []
    case Some(p) => [SetLanguage(PickedOn(els[p].items, els[p].hasAction, ss[p], e)[0]), ChangeScene(Name)]
  }

  /** The dropdowns `els`, once in states `ss`, are in the state `e` leaves them in for the
      first `n`, and untouched from there on. */
  ghost predicate FedStates(els: seq<Dropdown>, ss: seq<DropdownState>, e: Event, n: nat)
    reads els, set d | d in els :: d.base
    ensures FedStates(els, ss, e, n) ==> |ss| == |els| && n <= |els|
    ensures FedStates(els, ss, e, n) && n == 0 ==> forall k :: 0 <= k < |els| ==> els[k].State() == ss[k]
    ensures FedStates(els, ss, e, n) ==> forall k :: 0 <= k < n ==> els[k].State().rect == ss[k].rect
  {
    && |ss| == |els| && n <= |els|
    && (forall k :: 0 <= k < |els| ==> els[k].items.Valid())
    && forall k :: 0 <= k < |els| ==>
         els[k].State() == if k < n then AfterEvent(els[k].items, els[k].hasAction, els[k].base.debug, ss[k], e) else ss[k]
  }

  /** `LanguageSettingsScene`. The actions are recorded: `issued` lists the commands the back
      button and `change_language` issued; the dropdowns in `elements` own their component
      part, so no two of them share one. */
  class LanguageSettingsScene {
    const host: Host
    const loc: Localizations
    /** `GameConfig.LANGUAGES`: the language codes and their display names. */
    const languages: Items
    const debug: bool
    var hasBackground: bool
    var buttons: seq<SceneButton>
    var elements: seq<Dropdown>
    var issued: seq<Command>
    /** The dropdowns in `elements` and their component parts. */
    ghost var Repr: set<object>

    ghost predicate Valid()
      reads this
    {
      && languages.Valid() && |languages.keys| > 0
      && this !in Repr
      && (forall i :: 0 <= i < |elements| ==> elements[i] in Repr && elements[i].base in Repr)
      && (forall i, j :: 0 <= i < j < |elements| ==> elements[i] != elements[j] && elements[i].base != elements[j].base)
      && (forall i :: 0 <= i < |elements| ==> elements[i].items.Valid())
    }

    constructor(host: Host, loc: Localizations, languages: Items, debug: bool)
      requires languages.Valid() && |languages.keys| > 0
      ensures this.host == host && this.loc == loc && this.languages == languages && this.debug == debug
      ensures !hasBackground && buttons == [] && elements == [] && issued == []
      ensures Valid() && fresh(Repr)
    {
      this.host := host;
      this.loc := loc;
      this.languages := languages;
      this.debug := debug;
      hasBackground := false;
      buttons, elements, issued := [], [], [];
      Repr := {};
    }

    /** The state of each dropdown. */
    ghost function States(): (ss: seq<DropdownState>)
      requires Valid()
      reads this, Repr
      ensures |ss| == |elements|
      ensures forall k :: 0 <= k < |elements| ==> ss[k] == elements[k].State()
    {
      seq(|elements|, k requires 0 <= k < |elements| && Valid() reads this, Repr => elements[k].State())
    }

    /** `change_language`: the controller is asked to switch to `language`, then to change to
      this very scene. */
    method ChangeLanguage(language: string)
      modifies this`issued
      ensures issued == old(issued) + [SetLanguage(language), ChangeScene(Name)]
    {
      issued := issued + [SetLanguage(language), ChangeScene(Name)];
    }

    /** `add_element`: moves the element's corner to the slot its own size gives it, and
      appends it. */
    method AddElement(d: Dropdown, index: int, offsetY: int)
      requires Valid() && d.items.Valid()
      requires forall k :: 0 <= k < |elements| ==> elements[k] != d && elements[k].base != d.base
      modifies this`elements, this`Repr, d.base`rect
      ensures Valid()
      ensures elements == old(elements) + [d] && Repr == old(Repr) + {d, d.base}
      ensures d.base.rect == MoveTo(old(d.base.rect), StackedPosition(old(d.base.rect.w), old(d.base.rect.h), index, offsetY))
    {
      var position := StackedPosition(d.base.rect.w, d.base.rect.h, index, offsetY);
      d.base.rect := MoveTo(d.base.rect, position);
      elements := elements + [d];
      Repr := Repr + {d, d.base};
    }

    /** `on_enter`: a new language dropdown, preselecting the current language, goes into slot 0
      below the offset; then the back button is labelled from the "global" section, and a failed
      lookup raises with the dropdown already added. */
    method OnEnter() returns (status: Status)
      requires Valid()
      modifies this`buttons, this`elements, this`Repr
      ensures Valid() && fresh(Repr - old(Repr))
      ensures |elements| == |old(elements)| + 1 && elements[..|old(elements)|] == old(elements)
      ensures var d := elements[|old(elements)|];
        && fresh(d) && fresh(d.base)
        && d.base.rect == Rect(300, 100, 200, 50) && d.base.name == "language_dropdown"
        && d.items == languages && d.hasAction && !d.expanded && d.selections == []
        && d.selectedKey == (if host.lang != "" then host.lang else languages.keys[0])
      ensures var r := Index(loc.GetKey("global", host.lang), "back");
        && (r.Ok? ==> status == Done && buttons == old(buttons) + [BackButton(r.value)])
        && (r.Err? ==> status == Raised(r.error) && buttons == old(buttons))
    {
      var glob := loc.GetKey("global", host.lang);
      var d := new Dropdown("language_dropdown", DropdownWidth, DropdownHeight, languages, Point(0, 0),
                            true, Some(host.lang), true, debug);
      AddElement(d, 0, OffsetY);
      var text := Index(glob, "back");
      if text.Err? {
        return Raised(text.error);
      }
      buttons := buttons + [BackButton(text.value)];
      status := Done;
    }

    /** `on_exit`. */
    method OnExit()
      requires Valid()
      modifies this`buttons, this`elements, this`hasBackground, this`Repr
      ensures Valid()
      ensures buttons == [] && elements == [] && !hasBackground
    {
      hasBackground := false;
      buttons := [];
      elements := [];
      Repr := {};
    }

    /** The dropdown at `i` handles `e`; `key` is the key it handed to its callback, if any. */
    method FeedDropdown(i: nat, e: Event) returns (key: Option<string>)
      requires Valid() && i < |elements|
      modifies elements[i], elements[i].base
      ensures elements[i].State() ==
        AfterEvent(elements[i].items, elements[i].hasAction, elements[i].base.debug, old(elements[i].State()), e)
      ensures forall k :: 0 <= k < |elements| && k != i ==> elements[k].State() == old(elements[k].State())
      ensures var ks := PickedOn(elements[i].items, elements[i].hasAction, old(elements[i].State()), e);
        key == if ks == [] then None else Some(ks[0])
    {
      var d := elements[i];
      var before := d.selections;
      d.HandleEvent(e);
      var picked := d.selections[|before|..];
      key := if |picked| > 0 then Some(picked[0]) else None;
    }

    /** The first `i` dropdowns of `els0`, once in states `ss`, have handled `e` without
      reporting a key, and the rest have not handled it. */
    ghost predicate FedUpTo(i: nat, e: Event, els0: seq<Dropdown>, ss: seq<DropdownState>)
      reads this, Repr
    {
      && Valid() && elements == els0 && |ss| == |els0| && i <= |els0|
      && (forall k :: 0 <= k < i ==> !Reports(els0[k], ss[k], e))
      && FedStates(els0, ss, e, i)
    }

    /** One more dropdown handles `e`; a key it reports is returned. */
    method FeedNext(i: nat, e: Event, ghost els0: seq<Dropdown>, ghost ss: seq<DropdownState>) returns (key: Option<string>)
      requires FedUpTo(i, e, els0, ss) && i < |els0|
      modifies Repr
      ensures Valid() && elements == els0
      ensures FedStates(els0, ss, e, i + 1)
      ensures key.None? ==> FedUpTo(i + 1, e, els0, ss)
      ensures key.Some? ==> FirstReport(els0, ss, e) == Some(i)
      ensures key.Some? ==> key.value == PickedOn(els0[i].items, els0[i].hasAction, ss[i], e)[0]
    {
      key := FeedDropdown(i, e);
    }

    /** The loop over the dropdowns: each handles `e` in list order, until one reports a key;
      that runs `change_language`, whose scene change runs `on_exit` and ends the loop. */
    method FeedDropdowns(e: Event, ghost ss: seq<DropdownState>)
      requires Valid() && ss == States()
      modifies this`buttons, this`issued, this`elements, this`hasBackground, this`Repr, Repr
      ensures Valid()
      ensures FedStates(old(elements), ss, e, Handled(old(elements), ss, e))
      ensures issued == old(issued) + LanguagePick(old(elements), ss, e)
      ensures FirstReport(old(elements), ss, e).None? ==>
        buttons == old(buttons) && elements == old(elements) && hasBackground == old(hasBackground)
      ensures FirstReport(old(elements), ss, e).Some? ==> buttons == [] && elements == [] && !hasBackground
    {
      var i := 0;
      while i < |elements|
        invariant FedUpTo(i, e, old(elements), ss) && Repr == old(Repr)
        invariant issued == old(issued) && buttons == old(buttons) && hasBackground == old(hasBackground)
        decreases |elements| - i
      {
        var key := FeedNext(i, e, old(elements), ss);
        if key.Some? {
          assert Handled(old(elements), ss, e) == i + 1;
          assert LanguagePick(old(elements), ss, e) == [SetLanguage(key.value), ChangeScene(Name)];
          Leave(key.value);
          return;
        }
        i := i + 1;
      }
      assert FirstReport(old(elements), ss, e) == None;
    }

    /** A reported key runs `change_language`: the language is set and the scene changes to
      itself, which first runs this scene's `on_exit`. */
    method Leave(language: string)
      requires Valid()
      modifies this`buttons, this`issued, this`elements, this`hasBackground, this`Repr
      ensures Valid()
      ensures issued == old(issued) + [SetLanguage(language), ChangeScene(Name)]
      ensures buttons == [] && elements == [] && !hasBackground
    {
      ChangeLanguage(language);
      OnExit();
    }

    /** `handle_event`: the buttons handle the event, then the dropdowns, each in list order.
      The scene gets events only as the controller's current scene, so the first scene change,
      by the back button or by `change_language`, runs this scene's `on_exit`, which empties
      both lists and ends the dispatch. */
    method HandleEvent(e: Event)
      requires Valid()
      modifies this`buttons, this`issued, this`elements, this`hasBackground, this`Repr, Repr
      ensures Valid()
      ensures FirstExit(old(buttons), e).Some? ==>
        && issued == old(issued) + FiredBy(old(buttons)[..Reached(old(buttons), e)], e)
        && buttons == [] && elements == [] && !hasBackground
        && FedStates(old(elements), old(States()), e, 0)
      ensures FirstExit(old(buttons), e).None? ==>
        && issued == old(issued) + FiredBy(old(buttons), e) + LanguagePick(old(elements), old(States()), e)
        && FedStates(old(elements), old(States()), e, Handled(old(elements), old(States()), e))
      ensures FirstExit(old(buttons), e).None? && FirstReport(old(elements), old(States()), e).None? ==>
        buttons == FeedAll(old(buttons), e) && elements == old(elements) && hasBackground == old(hasBackground)
      ensures FirstExit(old(buttons), e).None? && FirstReport(old(elements), old(States()), e).Some? ==>
        buttons == [] && elements == [] && !hasBackground
    {
      ghost var ss := States();
      var updated, fired, exit := Forward(buttons, e);
      issued := issued + fired;
      if exit.Some? {
        ExitBeforeDropdowns(e, ss);
      } else {
        assert buttons[..|buttons|] == buttons;
        buttons := updated;
        FeedDropdowns(e, ss);
      }
    }

    /** A button's scene change runs `on_exit` before any dropdown has seen `e`. */
    method ExitBeforeDropdowns(e: Event, ghost ss: seq<DropdownState>)
      requires Valid() && ss == States()
      modifies this`buttons, this`elements, this`hasBackground, this`Repr
      ensures Valid()
      ensures buttons == [] && elements == [] && !hasBackground
      ensures FedStates(old(elements), ss, e, 0)
    {
      assert FedStates(elements, ss, e, 0);
      OnExit();
    }
  }
}
