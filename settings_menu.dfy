/** The settings menu: three stacked buttons, for the language settings, the music settings and
    the way back to the main menu. */
module SettingsMenu {
  import opened Outcomes
  import opened Geometry
  import opened Events
  import opened Localization
  import opened Scenes

  /** The name the scene registers under. */
  const Name := "settings_scene"
  /** The top of the button stack. */
  const OffsetY := 100

  /** The buttons `on_enter` adds, in order, each with the label lookup that gives its text, from
      the language's "settings" and "global" sections. */
  function Slots(menu: Entry, glob: Entry): seq<Slot> {
    [Slot("language_btn", Index(menu, "language"), ChangeScene("language_config"), 0, OffsetY)]
    + ([Slot("music_btn", Index(menu, "music"), ChangeScene("music_config"), 1, OffsetY)]
    + [Slot("back_btn", Index(glob, "back"), ChangeScene("main_menu"), 2, OffsetY)])
  }

  /** With every label present, entering adds exactly the language, music and back buttons at
      (300, 100), (300, 160) and (300, 220), requesting "language_config", "music_config" and
      "main_menu". */
  lemma EnterLayout(data: map<string, Table>, lang: string)
    requires HasLabel(data, lang, "settings", "language") && HasLabel(data, lang, "settings", "music")
    requires HasLabel(data, lang, "global", "back")
    ensures Outcome(Slots(Lookup(data, "settings", lang), Lookup(data, "global", lang))) == Done
    ensures Built(Slots(Lookup(data, "settings", lang), Lookup(data, "global", lang))) == [
      SceneButton("language_btn", Label(data, lang, "settings", "language"), ChangeScene("language_config"), Rect(300, 100, 200, 50), false),
      SceneButton("music_btn", Label(data, lang, "settings", "music"), ChangeScene("music_config"), Rect(300, 160, 200, 50), false),
      SceneButton("back_btn", Label(data, lang, "global", "back"), ChangeScene("main_menu"), Rect(300, 220, 200, 50), false)]
  {
    var s := Slots(Lookup(data, "settings", lang), Lookup(data, "global", lang));
    LabelLookup(data, lang, "settings", "language");
    LabelLookup(data, lang, "settings", "music");
    LabelLookup(data, lang, "global", "back");
    BuiltCons([], s[0], s[1..]);
    BuiltCons([], s[1], s[2..]);
    BuiltCons([], s[2], []);
  }

  /** A language without a "settings" section adds no button: the first lookup raises
      `TypeError`. */
  lemma EnterWithoutSection(data: map<string, Table>, lang: string)
    requires !(lang in data && "settings" in data[lang])
    ensures Built(Slots(Lookup(data, "settings", lang), Lookup(data, "global", lang))) == [] && Outcome(Slots(Lookup(data, "settings", lang), Lookup(data, "global", lang))) == Raised(TypeError)
  {
    MissingSectionRaises(data, "settings", lang, "language");
  }

  /** `SettingsMenuScene`. The actions are recorded: `issued` lists the commands the buttons'
      actions issued. */
  class SettingsMenuScene {
    const host: Host
    const loc: Localizations
    var hasBackground: bool
    var buttons: seq<SceneButton>
    var issued: seq<Command>

    constructor(host: Host, loc: Localizations)
      ensures this.host == host && this.loc == loc
      ensures !hasBackground && buttons == [] && issued == []
    {
      this.host := host;
      this.loc := loc;
      hasBackground := false;
      buttons, issued := [], [];
    }

    /** `on_enter`: each `add_button` looks its label up first, so a failed lookup raises with
      the earlier buttons already added. */
    method OnEnter() returns (status: Status)
      modifies this`buttons
      ensures var s := Slots(loc.GetKey("settings", host.lang), loc.GetKey("global", host.lang));
        buttons == old(buttons) + Built(s) && status == Outcome(s)
    {
      var menu := loc.GetKey("settings", host.lang);
      var glob := loc.GetKey("global", host.lang);
      ghost var c := [Slot("back_btn", Index(glob, "back"), ChangeScene("main_menu"), 2, OffsetY)];
      ghost var b := [Slot("music_btn", Index(menu, "music"), ChangeScene("music_config"), 1, OffsetY)] + c;
      var text := Index(menu, "language");
      BuiltCons(buttons, Slot("language_btn", text, ChangeScene("language_config"), 0, OffsetY), b);
      if text.Err? {
        return Raised(text.error);
      }
      buttons := buttons + [StackedButton("language_btn", text.value, ChangeScene("language_config"), 0, OffsetY)];
      text := Index(menu, "music");
      BuiltCons(buttons, b[0], c);
      if text.Err? {
        return Raised(text.error);
      }
      buttons := buttons + [StackedButton("music_btn", text.value, ChangeScene("music_config"), 1, OffsetY)];
      text := Index(glob, "back");
      BuiltCons(buttons, c[0], []);
      if text.Err? {
        return Raised(text.error);
      }
      buttons := buttons + [StackedButton("back_btn", text.value, ChangeScene("main_menu"), 2, OffsetY)];
      status := Done;
    }

    /** `on_exit`. */
    method OnExit()
      modifies this`buttons, this`hasBackground
      ensures buttons == [] && !hasBackground
    {
      hasBackground := false;
      buttons := [];
    }

    /** `handle_event`: the buttons handle the event in list order. The scene gets events only
        as the controller's current scene, so a button that changes scene runs this scene's
        `on_exit`, which empties the list and ends the loop. */
    method HandleEvent(e: Event)
      modifies this`buttons, this`issued, this`hasBackground
      ensures issued == old(issued) + FiredBy(old(buttons)[..Reached(old(buttons), e)], e)
      ensures FirstExit(old(buttons), e).None? ==>
        buttons == FeedAll(old(buttons), e) && hasBackground == old(hasBackground)
      ensures FirstExit(old(buttons), e).Some? ==> buttons == [] && !hasBackground
    {
      var updated, fired, exit := Forward(buttons, e);
      issued := issued + fired;
      if exit.Some? {
        OnExit();
      } else {
        buttons := updated;
      }
    }
  }
}
