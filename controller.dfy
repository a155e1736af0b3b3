/** The controller: the registry of scenes, the active scene id and the running flag. */
module Control {
  import opened Outcomes
  import opened Events

  /** `GameConfig.INITIAL_SCENE_ID`. */
  const InitialSceneId := "intro"

  /** A scene as the controller sees it: the name it registers under, and which scene object
      it is, so that two scenes with one name can be told apart. */
  datatype SceneRef = SceneRef(name: string, id: nat)

  /** A call the controller makes into a scene's lifecycle interface. */
  datatype SceneCall =
    | Entered(scene: SceneRef)
    | Exited(scene: SceneRef)
    | Forwarded(scene: SceneRef, event: Event)

  /** The registry after `add_scene` for each of `list` in turn. */
  function Registered(m: map<string, SceneRef>, list: seq<SceneRef>): (r: map<string, SceneRef>)
    ensures list != [] ==> list[|list| - 1].name in r && r[list[|list| - 1].name] == list[|list| - 1]
    decreases |list|
  {
    if list == [] then m
    else Registered(m, list[..|list| - 1])[list[|list| - 1].name := list[|list| - 1]]
  }

  /** A name is registered after `populate` exactly when it was before or some listed scene has
      it; a listed name maps to the last scene listed with that name; others keep their scene. */
  lemma {:induction false} RegisteredSpec(m: map<string, SceneRef>, list: seq<SceneRef>, name: string)
    ensures name in Registered(m, list) <==> name in m || exists i :: 0 <= i < |list| && list[i].name == name
    ensures forall i :: 0 <= i < |list| && list[i].name == name && (forall j :: i < j < |list| ==> list[j].name != name) ==>
                Registered(m, list)[name] == list[i]
    ensures (forall i :: 0 <= i < |list| ==> list[i].name != name) && name in m ==> Registered(m, list)[name] == m[name]
    decreases |list|
  {
    if list != [] {
      var init := list[..|list| - 1];
      RegisteredSpec(m, init, name);
      assert forall i :: 0 <= i < |init| ==> init[i] == list[i];
      if exists i :: 0 <= i < |list| && list[i].name == name {
        var i :| 0 <= i < |list| && list[i].name == name;
        if i < |init| {
          assert init[i].name == name;
        }
      }
    }
  }

  /** The calls that forward each of `events` in turn to scene `s`. */
  function ForwardAll(s: SceneRef, events: seq<Event>): (calls: seq<SceneCall>)
    ensures |calls| == |events|
    ensures forall i :: 0 <= i < |events| ==> calls[i] == Forwarded(s, events[i])
  {
    seq(|events|, i requires 0 <= i < |events| => Forwarded(s, events[i]))
  }

  /** `Controller`. The scenes are abstract: each call into one is recorded in `calls`. The
      display is reduced to whether `set` created it. */
  class Controller {
    var scenes: map<string, SceneRef>
    var sceneId: string
    var hasScreen: bool
    var running: bool
    var calls: seq<SceneCall>

    constructor()
      ensures scenes == map[] && sceneId == InitialSceneId && running && !hasScreen && calls == []
    {
      scenes := map[];
      sceneId := InitialSceneId;
      hasScreen := false;
      running := true;
      calls := [];
    }

    /** `current_scene`: the scene registered under the active id, or `KeyError`. */
    function CurrentScene(): (r: Result<SceneRef>)
      reads this
      ensures r.Ok? <==> sceneId in scenes
      ensures r.Ok? ==> r.value == scenes[sceneId]
      ensures r.Err? ==> r.error == KeyError
    {
      if sceneId in scenes then Ok(scenes[sceneId]) else Err(KeyError)
    }

    /** `set`: creates the display. */
    method Set()
      modifies this`hasScreen
      ensures hasScreen
    {
      hasScreen := true;
    }

    /** `add_scene`: registers `scene` under its name, replacing any scene of that name. */
    method AddScene(scene: SceneRef)
      modifies this`scenes
      ensures scenes == old(scenes)[scene.name := scene]
    {
      scenes := scenes[scene.name := scene];
    }

    /** `populate`: registers every scene of the list in order; an empty list raises
      `ValueError` and registers nothing. */
    method Populate(list: seq<SceneRef>) returns (status: Status)
      modifies this`scenes
      ensures list == [] ==> status == Raised(ValueError) && scenes == old(scenes)
      ensures list != [] ==> status == Done && scenes == Registered(old(scenes), list)
    {
      if |list| == 0 {
        return Raised(ValueError);
      }
      for i := 0 to |list|
        invariant scenes == Registered(old(scenes), list[..i])
      {
        assert list[..i + 1][..i] == list[..i];
        AddScene(list[i]);
      }
      assert list[..|list|] == list;
      status := Done;
    }

    /** `change_scene`: exits the current scene and makes `target` the active id, registered
      or not, without entering it; when the current id is unregistered it raises first. */
    method ChangeScene(target: string) returns (status: Status)
      modifies this`sceneId, this`calls
      ensures old(sceneId) in scenes ==> status == Done && sceneId == target
      ensures old(sceneId) in scenes ==> calls == old(calls) + [Exited(scenes[old(sceneId)])]
      ensures old(sceneId) !in scenes ==> status == Raised(KeyError) && sceneId == old(sceneId) && calls == old(calls)
    {
      var current := CurrentScene();
      if current.Err? {
        return Raised(current.error);
      }
      calls := calls + [Exited(current.value)];
      sceneId := target;
      status := Done;
    }

    /** `event_handler`, for the events `pyg.event.get()` returned: a quit event clears
      `running`, and every event, the quit event too, is forwarded to the current scene. */
    method EventHandler(events: seq<Event>) returns (status: Status)
      modifies this`running, this`calls
      ensures sceneId in scenes ==> status == Done
      ensures sceneId in scenes ==> calls == old(calls) + ForwardAll(scenes[sceneId], events)
      ensures sceneId in scenes ==> running == (old(running) && Quit !in events)
      ensures sceneId !in scenes && events == [] ==> status == Done && calls == old(calls) && running == old(running)
      ensures sceneId !in scenes && events != [] ==> status == Raised(KeyError) && calls == old(calls)
      ensures sceneId !in scenes && events != [] ==> running == (old(running) && events[0] != Quit)
    {
      for i := 0 to |events|
        invariant sceneId in scenes ==> calls == old(calls) + ForwardAll(scenes[sceneId], events[..i])
        invariant sceneId !in scenes ==> i == 0 && calls == old(calls)
        invariant running == (old(running) && Quit !in events[..i])
      {
        assert events[..i + 1] == events[..i] + [events[i]];
        if events[i] == Quit {
          running := false;
        }
        var current := CurrentScene();
        if current.Err? {
          return Raised(current.error);
        }
        calls := calls + [Forwarded(current.value, events[i])];
      }
      assert events[..|events|] == events;
      status := Done;
    }

    /** `start`, up to its frame loop: refuses to run before `set`, then enters the current
      scene. */
    method Start() returns (status: Status)
      modifies this`calls
      ensures !hasScreen ==> status == Raised(RuntimeError) && calls == old(calls)
      ensures hasScreen && sceneId !in scenes ==> status == Raised(KeyError) && calls == old(calls)
      ensures hasScreen && sceneId in scenes ==> status == Done && calls == old(calls) + [Entered(scenes[sceneId])]
    {
      if !hasScreen {
        return Raised(RuntimeError);
      }
      var current := CurrentScene();
      if current.Err? {
        return Raised(current.error);
      }
      calls := calls + [Entered(current.value)];
      status := Done;
    }
  }

  /** A run through the registry: a change to an unregistered id is accepted, and only the next
      change, which looks the active scene up, raises. */
  method UnregisteredTargetScenario() returns (s: Status)
    ensures s == Raised(KeyError)
  {
    var c := new Controller();
    var intro, menu := SceneRef("intro", 0), SceneRef("main_menu", 1);
    s := c.Populate([intro, menu]);
    assert s == Done;
    RegisteredSpec(map[], [intro, menu], "intro");
    RegisteredSpec(map[], [intro, menu], "main_menu");
    RegisteredSpec(map[], [intro, menu], "settings");
    assert c.scenes["intro"] == intro && c.scenes["main_menu"] == menu && "settings" !in c.scenes;
    s := c.ChangeScene("main_menu");
    assert s == Done && c.sceneId == "main_menu" && c.calls == [Exited(intro)];
    s := c.ChangeScene("settings");
    assert s == Done && c.sceneId == "settings" && c.calls == [Exited(intro), Exited(menu)];
    s := c.ChangeScene("main_menu");
    assert s == Raised(KeyError) && c.sceneId == "settings";
  }
}
