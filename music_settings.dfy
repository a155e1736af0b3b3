/** The music settings: a play/pause button whose label shows the music's state, volume up and
    down, and the way back to the settings menu. */
module MusicSettings {
  import opened Outcomes
  import opened Geometry
  import opened Events
  import opened Localization
  import opened Scenes

  /** The name the scene registers under. */
  const Name := "music_settings_scene"
  /** The top of the button stack. */
  const OffsetY := 100

  /** The label field that describes the music's state: "off" while paused, else "on". */
  function StateField(paused: bool): (f: string)
    ensures f == "off" <==> paused
    ensures f == "on" <==> !paused
  {
    if paused then "off" else "on"
  }

  /** The buttons `on_enter` adds, in order, each with the label lookup that gives its text, from
      the language's "music_settings" and "global" sections. */
  function Slots(music: Entry, glob: Entry, paused: bool): seq<Slot> {
    [Slot("state_btn", Index(music, StateField(paused)), ToggleMusic, 0, OffsetY)]
    + ([Slot("volume_up_btn", Index(music, "up"), VolumeUp, 1, OffsetY)]
    + ([Slot("volume_down_btn", Index(music, "down"), VolumeDown, 2, OffsetY)]
    + [Slot("back_btn", Index(glob, "back"), ChangeScene("settings_scene"), 3, OffsetY)]))
  }

  /** With every label present, entering adds exactly the state, volume up, volume down and back
      buttons at y = 100, 160, 220 and 280, centred at x = 300; the state button is labelled
      "off" when the music is paused and "on" otherwise, and the back button requests
      "settings_scene". */
  lemma EnterLayout(data: map<string, Table>, lang: string, paused: bool)
    requires HasLabel(data, lang, "music_settings", StateField(paused))
    requires HasLabel(data, lang, "music_settings", "up") && HasLabel(data, lang, "music_settings", "down")
    requires HasLabel(data, lang, "global", "back")
    ensures var s := Slots(Lookup(data, "music_settings", lang), Lookup(data, "global", lang), paused);
      Outcome(s) == Done && Built(s) == [
      SceneButton("state_btn", Label(data, lang, "music_settings", if paused then "off" else "on"), ToggleMusic, Rect(300, 100, 200, 50), false),
      SceneButton("volume_up_btn", Label(data, lang, "music_settings", "up"), VolumeUp, Rect(300, 160, 200, 50), false),
      SceneButton("volume_down_btn", Label(data, lang, "music_settings", "down"), VolumeDown, Rect(300, 220, 200, 50), false),
      SceneButton("back_btn", Label(data, lang, "global", "back"), ChangeScene("settings_scene"), Rect(300, 280, 200, 50), false)]
  {
    var s := Slots(Lookup(data, "music_settings", lang), Lookup(data, "global", lang), paused);
    LabelLookup(data, lang, "music_settings", StateField(paused));
    LabelLookup(data, lang, "music_settings", "up");
    LabelLookup(data, lang, "music_settings", "down");
    LabelLookup(data, lang, "global", "back");
    BuiltCons([], s[0], s[1..]);
    BuiltCons([], s[1], s[2..]);
    BuiltCons([], s[2], s[3..]);
    BuiltCons([], s[3], []);
  }

  /** `MusicSettingsScene`. The actions are recorded: `issued` lists the commands the buttons'
      actions issued; `ToggleMusic` is what running the state button's command does. */
  class MusicSettingsScene {
    const host: Host
    const loc: Localizations
    var hasBackground: bool
    var buttons: seq<SceneButton>
    var issued: seq<Command>

    constructor(host: Host, loc: Localizations)
      ensures this.host == host && this.loc == loc
      ensures !hasBackground && buttons == [] && issued == []
    {
      this.host := host;
      this.loc := loc;
      hasBackground := false;
      buttons, issued := [], [];
    }

    /** The state button, if there is one, is labelled with the current state's label. */
    ghost predicate LabelShowsState()
      reads this, host, loc
    {
      var r := Index(Lookup(loc.data, "music_settings", host.lang), StateField(host.paused));
      buttons != [] && r.Ok? && buttons[0].text == r.value
    }

    /** `on_enter`: each `add_button` looks its label up first, so a failed lookup raises with
      the earlier buttons already added. */
    method OnEnter() returns (status: Status)
      modifies this`buttons
      ensures var s := Slots(loc.GetKey("music_settings", host.lang), loc.GetKey("global", host.lang), host.paused);
        buttons == old(buttons) + Built(s) && status == Outcome(s)
      ensures old(buttons) == [] && status == Done ==> LabelShowsState()
    {
      var music := loc.GetKey("music_settings", host.lang);
      var glob := loc.GetKey("global", host.lang);
      var state := host.paused;
      ghost var d := [Slot("back_btn", Index(glob, "back"), ChangeScene("settings_scene"), 3, OffsetY)];
      ghost var c := [Slot("volume_down_btn", Index(music, "down"), VolumeDown, 2, OffsetY)] + d;
      ghost var b := [Slot("volume_up_btn", Index(music, "up"), VolumeUp, 1, OffsetY)] + c;
      var text := Index(music, StateField(state));
      BuiltCons(buttons, Slot("state_btn", text, Command.ToggleMusic, 0, OffsetY), b);
      if text.Err? {
        return Raised(text.error);
      }
      buttons := buttons + [StackedButton("state_btn", text.value, Command.ToggleMusic, 0, OffsetY)];
      text := Index(music, "up");
      BuiltCons(buttons, b[0], c);
      if text.Err? {
        return Raised(text.error);
      }
      buttons := buttons + [StackedButton("volume_up_btn", text.value, VolumeUp, 1, OffsetY)];
      text := Index(music, "down");
      BuiltCons(buttons, c[0], d);
      if text.Err? {
        return Raised(text.error);
      }
      buttons := buttons + [StackedButton("volume_down_btn", text.value, VolumeDown, 2, OffsetY)];
      text := Index(glob, "back");
      BuiltCons(buttons, d[0], []);
      if text.Err? {
        return Raised(text.error);
      }
      buttons := buttons + [StackedButton("back_btn", text.value, ChangeScene("settings_scene"), 3, OffsetY)];
      status := Done;
    }

    /** `toggle_music` on the first button, as the state button's action calls it: with no
      buttons the index raises before anything changes; otherwise the music's pause flips and the
      first button is relabelled from the new state, unless that label lookup raises. */
    method ToggleMusic() returns (status: Status)
      modifies host`paused, this`buttons
      ensures old(buttons) == [] ==> status == Raised(IndexError) && host.paused == old(host.paused) && buttons == []
      ensures old(buttons) != [] ==> host.paused == !old(host.paused)
      ensures old(buttons) != [] ==>
        var r := Index(Lookup(loc.data, "music_settings", host.lang), StateField(host.paused));
        && (r.Ok? ==> status == Done && buttons == old(buttons)[0 := old(buttons)[0].(text := r.value)])
        && (r.Err? ==> status == Raised(r.error) && buttons == old(buttons))
      ensures old(buttons) != [] && status == Done ==> LabelShowsState()
    {
      if |buttons| == 0 {
        return Raised(IndexError);
      }
      host.TogglePause();
      var state := host.paused;
      var text := Index(loc.GetKey("music_settings", host.lang), StateField(state));
      if text.Err? {
        return Raised(text.error);
      }
      buttons := buttons[0 := buttons[0].(text := text.value)];
      status := Done;
    }

    /** `on_exit`. */
    method OnExit()
      modifies this`buttons, this`hasBackground
      ensures buttons == [] && !hasBackground
    {
      hasBackground := false;
      buttons := [];
    }

    /** `handle_event`: the buttons handle the event in list order. The scene gets events only
        as the controller's current scene, so a button that changes scene runs this scene's
        `on_exit`, which empties the list and ends the loop. */
    method HandleEvent(e: Event)
      modifies this`buttons, this`issued, this`hasBackground
      ensures issued == old(issued) + FiredBy(old(buttons)[..Reached(old(buttons), e)], e)
      ensures FirstExit(old(buttons), e).None? ==>
        buttons == FeedAll(old(buttons), e) && hasBackground == old(hasBackground)
      ensures FirstExit(old(buttons), e).Some? ==> buttons == [] && !hasBackground
    {
      var updated, fired, exit := Forward(buttons, e);
      issued := issued + fired;
      if exit.Some? {
        OnExit();
      } else {
        buttons := updated;
      }
    }
  }
}
