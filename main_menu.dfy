/** The main menu: one play button, which leaves its list alone on exit and ignores events. */
module MainMenu {
  import opened Outcomes
  import opened Geometry
  import opened Events
  import opened Localization
  import opened Scenes

  /** The name the scene registers under. */
  const Name := "main_menu"

  /** The play button `on_enter` appends: at (100, 100), 100 by 50, requesting "intro". */
  function PlayButton(text: string): (b: SceneButton)
    ensures b.text == text && b.action == ChangeScene("intro") && !b.hovered
    ensures b.rect == Rect(100, 100, 100, 50)
  {
    SceneButton("play_btn", text, ChangeScene("intro"), Rect(100, 100, 100, 50), false)
  }

  /** `MainMenuScene`. */
  class MainMenuScene {
    const host: Host
    const loc: Localizations
    var hasBackground: bool
    var buttons: seq<SceneButton>

    constructor(host: Host, loc: Localizations)
      ensures this.host == host && this.loc == loc
      ensures !hasBackground && buttons == []
    {
      this.host := host;
      this.loc := loc;
      hasBackground := false;
      buttons := [];
    }

    /** `on_enter`: appends one play button, labelled from the "menu" section, to whatever the
      list already holds; a failed lookup raises and appends nothing. */
    method OnEnter() returns (status: Status)
      modifies this`buttons
      ensures var r := Index(loc.GetKey("menu", host.lang), "play");
        && (r.Ok? ==> status == Done && buttons == old(buttons) + [PlayButton(r.value)])
        && (r.Err? ==> status == Raised(r.error) && buttons == old(buttons))
    {
      var menu := loc.GetKey("menu", host.lang);
      var text := Index(menu, "play");
      if text.Err? {
        return Raised(text.error);
      }
      buttons := buttons + [PlayButton(text.value)];
      status := Done;
    }

    /** `on_exit` does nothing: the buttons stay. */
    method OnExit()
      ensures unchanged(this)
    {
    }

    /** `handle_event` does nothing: no button's hover flag changes and no action runs. */
    method HandleEvent(e: Event)
      ensures unchanged(this)
    {
    }
  }

  /** Each visit adds another play button on top of the last: after enter, exit and enter the
      list holds two identical buttons. */
  method ReentryScenario() returns (buttons: seq<SceneButton>)
    ensures buttons == [PlayButton("Play"), PlayButton("Play")]
  {
    var host := new Host("en", false);
    var loc := new Localizations("localizations");
    var menu: Table := map["menu" := Section(map["play" := "Play"])];
    var loaded := loc.LoadLocalization("en", map[FileName("en") := menu]);
    var scene := new MainMenuScene(host, loc);
    var s := scene.OnEnter();
    assert s == Done && scene.buttons == [PlayButton("Play")];
    scene.OnExit();
    s := scene.OnEnter();
    buttons := scene.buttons;
  }
}
