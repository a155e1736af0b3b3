/** The multiplayer menu: buttons to create or join a room, and the way back to the main menu,
    with two empty slots above the back button. */
module MultiplayerMenu {
  import opened Outcomes
  import opened Geometry
  import opened Events
  import opened Localization
  import opened Scenes

  /** The name the scene registers under. */
  const Name := "multiplayer_menu_scene"
  /** The top of the button stack. */
  const OffsetY := 100

  /** The buttons `on_enter` adds, in order, each with the label lookup that gives its text, from
      the language's "multiplayer_menu" and "global" sections. */
  function Slots(multi: Entry, glob: Entry): seq<Slot> {
    [Slot("create_room_btn", Index(multi, "create"), ChangeScene("create_room_scene"), 0, OffsetY)]
    + ([Slot("join_room_btn", Index(multi, "join"), ChangeScene("join_room_scene"), 1, OffsetY)]
    + [Slot("back_btn", Index(glob, "back"), ChangeScene("main_menu"), 4, OffsetY)])
  }

  /** With every label present, entering adds exactly the create, join and back buttons at
      y = 100, 160 and 340 (slots 0, 1 and 4), centred at x = 300, requesting
      "create_room_scene", "join_room_scene" and "main_menu". */
  lemma EnterLayout(data: map<string, Table>, lang: string)
    requires HasLabel(data, lang, "multiplayer_menu", "create") && HasLabel(data, lang, "multiplayer_menu", "join")
    requires HasLabel(data, lang, "global", "back")
    ensures Outcome(Slots(Lookup(data, "multiplayer_menu", lang), Lookup(data, "global", lang))) == Done
    ensures Built(Slots(Lookup(data, "multiplayer_menu", lang), Lookup(data, "global", lang))) == [
      SceneButton("create_room_btn", Label(data, lang, "multiplayer_menu", "create"), ChangeScene("create_room_scene"), Rect(300, 100, 200, 50), false),
      SceneButton("join_room_btn", Label(data, lang, "multiplayer_menu", "join"), ChangeScene("join_room_scene"), Rect(300, 160, 200, 50), false),
      SceneButton("back_btn", Label(data, lang, "global", "back"), ChangeScene("main_menu"), Rect(300, 340, 200, 50), false)]
  {
    var s := Slots(Lookup(data, "multiplayer_menu", lang), Lookup(data, "global", lang));
    LabelLookup(data, lang, "multiplayer_menu", "create");
    LabelLookup(data, lang, "multiplayer_menu", "join");
    LabelLookup(data, lang, "global", "back");
    BuiltCons([], s[0], s[1..]);
    BuiltCons([], s[1], s[2..]);
    BuiltCons([], s[2], []);
  }

  /** With the room labels present but no "back" label, entering keeps the create and join
      buttons and raises: `TypeError` when the language has no "global" section (the lookup
      falls back to the key itself, a string) or when that entry is a plain string, `KeyError`
      when the section lacks the label. */
  lemma EnterWithoutBack(data: map<string, Table>, lang: string)
    requires HasLabel(data, lang, "multiplayer_menu", "create") && HasLabel(data, lang, "multiplayer_menu", "join")
    requires !HasLabel(data, lang, "global", "back")
    ensures Built(Slots(Lookup(data, "multiplayer_menu", lang), Lookup(data, "global", lang))) == [
      SceneButton("create_room_btn", Label(data, lang, "multiplayer_menu", "create"), ChangeScene("create_room_scene"), Rect(300, 100, 200, 50), false),
      SceneButton("join_room_btn", Label(data, lang, "multiplayer_menu", "join"), ChangeScene("join_room_scene"), Rect(300, 160, 200, 50), false)]
    ensures Outcome(Slots(Lookup(data, "multiplayer_menu", lang), Lookup(data, "global", lang))).Raised?
    ensures !(lang in data && "global" in data[lang]) ==>
      Outcome(Slots(Lookup(data, "multiplayer_menu", lang), Lookup(data, "global", lang))) == Raised(TypeError)
    ensures lang in data && "global" in data[lang] && data[lang]["global"].Section? ==>
      Outcome(Slots(Lookup(data, "multiplayer_menu", lang), Lookup(data, "global", lang))) == Raised(KeyError)
    ensures lang in data && "global" in data[lang] && data[lang]["global"].Text? ==>
      Outcome(Slots(Lookup(data, "multiplayer_menu", lang), Lookup(data, "global", lang))) == Raised(TypeError)
  {
    var s := Slots(Lookup(data, "multiplayer_menu", lang), Lookup(data, "global", lang));
    LabelLookup(data, lang, "multiplayer_menu", "create");
    LabelLookup(data, lang, "multiplayer_menu", "join");
    LabelLookup(data, lang, "global", "back");
    BuiltCons([], s[0], s[1..]);
    BuiltCons([], s[1], s[2..]);
    BuiltCons([], s[2], []);
  }

  /** `MultiplayerMenuScene`. The actions are recorded: `issued` lists the commands the
      buttons' actions issued. */
  class MultiplayerMenuScene {
    const host: Host
    const loc: Localizations
    var hasBackground: bool
    var buttons: seq<SceneButton>
    var issued: seq<Command>

    constructor(host: Host, loc: Localizations)
      ensures this.host == host && this.loc == loc
      ensures !hasBackground && buttons == [] && issued == []
    {
      this.host := host;
      this.loc := loc;
      hasBackground := false;
      buttons, issued := [], [];
    }

    /** `on_enter`: each `add_button` looks its label up first, so a failed lookup raises with
      the earlier buttons already added. The music's pause state is read and not used. */
    method OnEnter() returns (status: Status)
      modifies this`buttons
      ensures var s := Slots(loc.GetKey("multiplayer_menu", host.lang), loc.GetKey("global", host.lang));
        buttons == old(buttons) + Built(s) && status == Outcome(s)
    {
      var multi := loc.GetKey("multiplayer_menu", host.lang);
      var glob := loc.GetKey("global", host.lang);
      ghost var c := [Slot("back_btn", Index(glob, "back"), ChangeScene("main_menu"), 4, OffsetY)];
      ghost var b := [Slot("join_room_btn", Index(multi, "join"), ChangeScene("join_room_scene"), 1, OffsetY)] + c;
      var text := Index(multi, "create");
      BuiltCons(buttons, Slot("create_room_btn", text, ChangeScene("create_room_scene"), 0, OffsetY), b);
      if text.Err? {
        return Raised(text.error);
      }
      buttons := buttons + [StackedButton("create_room_btn", text.value, ChangeScene("create_room_scene"), 0, OffsetY)];
      text := Index(multi, "join");
      BuiltCons(buttons, b[0], c);
      if text.Err? {
        return Raised(text.error);
      }
      buttons := buttons + [StackedButton("join_room_btn", text.value, ChangeScene("join_room_scene"), 1, OffsetY)];
      text := Index(glob, "back");
      BuiltCons(buttons, c[0], []);
      if text.Err? {
        return Raised(text.error);
      }
      buttons := buttons + [StackedButton("back_btn", text.value, ChangeScene("main_menu"), 4, OffsetY)];
      status := Done;
    }

    /** `on_exit`. */
    method OnExit()
      modifies this`buttons, this`hasBackground
      ensures buttons == [] && !hasBackground
    {
      hasBackground := false;
      buttons := [];
    }

    /** `handle_event`: the buttons handle the event in list order. The scene gets events only
        as the controller's current scene, so a button that changes scene runs this scene's
        `on_exit`, which empties the list and ends the loop. */
    method HandleEvent(e: Event)
      modifies this`buttons, this`issued, this`hasBackground
      ensures issued == old(issued) + FiredBy(old(buttons)[..Reached(old(buttons), e)], e)
      ensures FirstExit(old(buttons), e).None? ==>
        buttons == FeedAll(old(buttons), e) && hasBackground == old(hasBackground)
      ensures FirstExit(old(buttons), e).Some? ==> buttons == [] && !hasBackground
    {
      var updated, fired, exit := Forward(buttons, e);
      issued := issued + fired;
      if exit.Some? {
        OnExit();
      } else {
        buttons := updated;
      }
    }
  }
}
