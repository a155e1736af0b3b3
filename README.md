# UniverseCatch menus and widgets, modelled in Dafny

UniverseCatch is a pygame card game. This project models the part of its user interface that is
plain bookkeeping once drawing is stripped away:

- **The widgets.** `Component` tracks hover state. The standalone `Button` has a hover flag and an
  action. The `Dropdown` is an anchor rectangle that unfolds a list of option rows below itself.
- **The controller.** It keeps the registry of scenes by name, the active scene id and the running
  flag. It forwards events to the current scene.
- **The support stores.** The music playlist advances cyclically on each end-of-track event. The
  localization store falls back to the key itself and derives a language code from each file name.
  A notification's visibility runs on a timer.
- **The concrete scenes.** These are the settings, music settings, multiplayer, language settings
  and main menus. Each lays its widgets out centred across an 800-pixel display, stacked vertically.
  Each adds widgets to its lists on entry and clears them on exit.

Rectangles are integer `(x, y, w, h)` values. Hit-testing is half-open: the left and top edges are
inside, the right and bottom edges are not. Events form a datatype: `Motion`, `Down`, `Quit`,
`TrackEnd` and `Other`.

Callbacks are not executed. Instead, the model records each one as a `Command` value in a sequence
such as `issued`, `invoked` or `selections`, so "called exactly once, with this key" can be stated.
Python exceptions become `Result` and `Status` values that name the exception class.

The parts of the controller that the scenes use but no modelled file defines are abstracted:
- `lang` and `music.paused` become the `Scenes.Host` class.
- `localizations` is a `Localization.Localizations` object.
- `GameConfig.LANGUAGES` becomes an `Items` parameter: a non-empty, insertion-ordered map from
  language code to display name.

Each core file is modelled in the form it has in the source:
- Widgets, the controller, the music player, the notification and the scenes are classes whose
  methods change their fields.
- Each class method is proved against a pure specification function, such as `Buttons.React`,
  `Dropdowns.Classify`, `Control.Registered`, `Audio.AdvanceBy` or `Scenes.Built`.
- Lemmas then state what the source promises about those functions.

Where the code and its written description disagree, the model follows the code:
- `change_scene` neither checks that the target is registered nor enters the new scene. A language pick changes to the language scene itself, so after `on_exit` the scene stays empty: no dropdown and no back button.
- `select_item` on an unknown key raises `KeyError` after `selected_key` has already been
  overwritten.
- `Button` fires on the hover flag from the last motion event, for any mouse button.
- The `Dropdown` constructor fails on empty `items` only when no truthy `selected_key` is given.

## Model

| member | source | states |
|---|---|---|
| Geometry.MoveTo | source/scenes/language_settings.py:87 | Setting `topleft` puts the corner at the given point and keeps the size; the moved rectangle contains exactly the points that the original contains after translation. |
| Geometry.FirstRowHit | source/components/dropdown.py:114-125 | The row scan stops at the first row, in display order, that contains the point. No earlier row contains it. `None` means no row among the `n` contains it. |
| Geometry.RowsDisjoint | source/components/dropdown.py:115-121 | No point lies in two different option rows, so the first hit is the only hit. |
| Geometry.RowsBelowAnchor | source/components/dropdown.py:110-121 | No option row overlaps the anchor, so a click in a row never reaches the toggle branch. |
| Geometry.RowIndexOf | source/components/dropdown.py:115-121 | Row `i` contains a point iff the point is in the anchor's column, below the anchor, and its depth divided by the row height is `i+1`. |
| Geometry.FirstRowHitClosedForm | source/components/dropdown.py:114-125 | The row a click selects, in closed form: `(py-y) div h - 1` when the point is in the column and that row exists, otherwise none. |
| Components.HoverNotice | source/components/component.py:80-84 | A message is logged iff the hover state changed: "Hovering" going false to true, "No longer hovering" going true to false. |
| Components.Gate | source/components/component.py:104-105 | `log` emits exactly the given message when debugging is on, and nothing otherwise. |
| Components.HoverNotices | source/components/component.py:72-85 | Over a run of motion, at most one hover message per motion event is logged. |
| Components.HoverNoticesAlternate | source/components/component.py:79-85 | Over any run of motion, hover messages strictly alternate. The first message announces a change away from the initial state and the last one announces the final state. No message means the state never changed. |
| Components.Component.constructor | source/components/component.py:38-48 | `rect` is built from position and size; `is_hovered` and `was_hovered` start false. |
| Components.Component.CollidePoint | source/components/component.py:60-70 | True iff `x <= px < x+w` and `y <= py < y+h`. |
| Components.Component.Log | source/components/component.py:97-105 | The message is emitted iff `debug`. |
| Components.Component.CheckHover | source/components/component.py:72-85 | Afterwards `is_hovered` is whether the rectangle contains the point and `was_hovered == is_hovered`. A message is logged exactly on a change. |
| Components.Component.HandleEvent | source/components/component.py:87-95 | Motion updates the hover state as `CheckHover` does; every other event leaves all fields unchanged. |
| Buttons.React | source/components/button.py:46-59 | Motion sets `hovered` to the hit-test of the new position and requests a cursor chosen from the old flag. A press of any button fires iff the flag is set. Other events change nothing. |
| Buttons.HoveredAfter | source/components/button.py:46-57 | The hover flag after a sequence of events; without motion events it keeps its initial value. |
| Buttons.HoveredIsLastMotion | source/components/button.py:53-57 | After any event sequence, the hover flag is the hit-test of the most recent motion event, or the initial flag if there was none. |
| Buttons.FiresIffLastMotionInside | source/components/button.py:53-59 | The action runs on event `i` iff it is a press and the latest motion before it ended inside the button, whatever the press position. |
| Buttons.PressOutsideFires | source/components/button.py:57-59 | A press outside the button still fires it when the mouse last moved inside. |
| Buttons.PressInsideWithoutMotionMisses | source/components/button.py:31-59 | A press inside a new button does not fire before any motion event. |
| Buttons.Button.constructor | source/components/button.py:13-31 | The rectangle, text, colours and action are stored; `hovered` starts false. |
| Buttons.Button.FillColor | source/components/button.py:40 | `draw` fills with the hover colour iff hovered, else the normal colour. |
| Buttons.Button.HandleEvent | source/components/button.py:46-59 | The new flag, the action invocations (at most one per event) and the cursor requests are those `React` gives. |
| Dropdowns.InitialSelection | source/components/dropdown.py:54 | The selection is the given key when truthy, else the first key in insertion order. It fails with `StopIteration` iff the key is falsy and there are no items. |
| Dropdowns.InitialSelectionIsKey | source/components/dropdown.py:54 | Without a truthy explicit key, the initial selection is one of the items. |
| Dropdowns.RectOf | source/components/component.py:44 | `pygame.Rect(position, size)` succeeds iff both are number pairs, and is then that rectangle. |
| Dropdowns.SuperCallAsWrittenRaises | source/components/dropdown.py:47 | As written, the base constructor receives the name as `position`, so building the rectangle raises `TypeError` for every dropdown. |
| Dropdowns.SuperCallIntendedRect | source/components/dropdown.py:47 | With arguments bound by name, the rectangle is the dropdown's position and size, and the name is kept. |
| Dropdowns.Classify | source/components/dropdown.py:108-127 | A pick happens only on a left press while unfolded, at a row in range that contains the press. |
| Dropdowns.PickIsOnlyRow | source/components/dropdown.py:112-125 | A picked row is the only row containing the press, and the press is off the anchor. |
| Dropdowns.ClassifyCases | source/components/dropdown.py:108-127 | Flip iff a left press on the anchor. Pick or dismiss iff a left press off the anchor while unfolded. Dismiss only when no row contains the press. |
| Dropdowns.ExpandedAfter | source/components/dropdown.py:109-127 | `expanded` changes iff the press flips it or folds an unfolded list; a pick or dismissal always leaves it false. |
| Dropdowns.Picked | source/components/dropdown.py:143-146 | The callback receives at most one key: the picked row's key, and only when an action is set. |
| Dropdowns.PickedOn | source/components/dropdown.py:109-124 | At most one key reaches the callback per event: the key of the row a left press lands in, only while the list is unfolded and only when there is a callback. |
| Dropdowns.AfterEvent | source/components/dropdown.py:101-127 | The rectangle never moves. Hover flags change only on motion, and then follow the mouse. Selection, unfolded state and callbacks change only on a press. A selection that is a key stays one. A key handed to the callback becomes the selection and folds the list. Nothing is logged without debugging. |
| Dropdowns.Dropdown.constructor | source/components/dropdown.py:47-55 | The rectangle is position and size (arguments bound by name), hover flags are false, `selected_key` is the initial selection and `expanded` is false. |
| Dropdowns.Dropdown.Toggle | source/components/dropdown.py:129-134 | `expanded` flips, the new state is logged when debugging, and nothing else changes. |
| Dropdowns.Dropdown.SelectItem | source/components/dropdown.py:136-146 | `selected_key` is overwritten first. A known key is logged and passed to the action exactly once if there is one. An unknown key raises `KeyError` with no log and no callback. |
| Dropdowns.Dropdown.HandlePress | source/components/dropdown.py:109-127 | Per `Classify`: flip toggles; pick selects that key, calls back once and folds; dismiss folds with the selection kept; ignore changes nothing. |
| Dropdowns.Dropdown.HandleEvent | source/components/dropdown.py:101-127 | Hover tracking, then press handling as `HandlePress`. A selection that is an item stays an item. The new `expanded` is `ExpandedAfter` and the callbacks are `Picked`. The whole new state is `AfterEvent` of the old one. |
| Control.RegisteredSpec | source/controller.py:52-71 | After `populate`, a name is registered iff it was before or a listed scene has it. It maps to the last listed scene of that name, and other names keep their scene. |
| Control.Registered | source/controller.py:52-62 | The registry after `populate` registers each listed scene in turn; the last listed scene is registered under its own name. |
| Control.ForwardAll | source/controller.py:89-94 | One forwarding call per event, in order, each to the given scene. |
| Control.Controller.constructor | source/controller.py:14-26 | Empty registry, `scene_id == "intro"`, `running`, no screen. |
| Control.Controller.CurrentScene | source/controller.py:28-39 | The scene registered under `scene_id`, or `KeyError` iff that id is unregistered. |
| Control.Controller.Set | source/controller.py:41-50 | Afterwards the screen exists. |
| Control.Controller.AddScene | source/controller.py:64-71 | The scene is stored under its name, replacing any earlier one. |
| Control.Controller.Populate | source/controller.py:52-62 | An empty list raises `ValueError` and registers nothing; otherwise the registry is `Registered(old, list)`. |
| Control.Controller.ChangeScene | source/controller.py:75-83 | Exits the current scene exactly once, then sets `scene_id` to the target, registered or not, without entering it. An unregistered current id raises `KeyError` before anything changes. |
| Control.Controller.EventHandler | source/controller.py:85-94 | Every event, Quit included, is forwarded in order; `running` becomes false iff a Quit arrived. With an unregistered current scene the first event raises. |
| Control.Controller.Start | source/controller.py:105-123 | No screen raises `RuntimeError`. Otherwise the current scene is entered once, or `KeyError` is raised if it is unregistered; that is the exception in flight before the `finally` clause, whose `exit()` (not modelled) replaces it with `SystemExit`. |
| Control.UnregisteredTargetScenario | source/controller.py:75-83 | A change to an unregistered id is accepted and exits the current scene; the next change, which looks the active scene up, raises `KeyError`. |
| Audio.ManifestFile | source/constants/resource.py:31-34 | The file a manifest name maps to. |
| Audio.ManifestTracks | source/music.py:36-37 | One entry per manifest key, in manifest order. |
| Audio.Advance | source/music.py:85-95 | One track end moves to the next track, wrapping from the last to the first; the index stays below the playlist length. |
| Audio.AdvanceBy | source/music.py:85-95 | No track end keeps the track; any positive number of track ends leaves an index below the playlist length. |
| Audio.AdvanceByClosedForm | source/music.py:89-90 | After `k` track ends from track `t`, the current track is `(t+k) mod n`. |
| Audio.CycleReturns | source/music.py:89-90 | `n` track ends bring the cycle back to its start. |
| Audio.CycleReaches | source/music.py:89-90 | Every track comes up within `n` track ends. |
| Audio.CycleVisitsAll | source/music.py:89-90 | The index stays in range for any number of track ends, returns after `n`, and reaches every track. |
| Audio.Music.constructor | source/music.py:16-26 | Empty playlist, `current_track == 0`, no mixer. |
| Audio.Music.LoadMusic | source/music.py:41-51 | A name outside the manifest leaves the playlist unchanged; otherwise exactly one entry for it is appended. |
| Audio.Music.InitMusic | source/music.py:28-39 | The mixer is set up and the manifest's entries are appended in manifest order. |
| Audio.Music.PlayCurrentTrack | source/music.py:53-61 | Plays `playlist[current_track]`. An index out of range raises `IndexError`; no mixer raises `AttributeError`. |
| Audio.Music.PlayMusic | source/music.py:63-71 | An empty playlist changes nothing. Otherwise `current_track` becomes 0 and track 0 is played. |
| Audio.Music.HandleEvent | source/music.py:85-95 | A track end advances `current_track` cyclically, keeping it in range, and plays that track. An empty playlist raises `ZeroDivisionError`. Other events change nothing. |
| Localization.Lookup | source/localizations.py:45-54 | `data[lang][key]` when both exist, otherwise the key itself; never an error. |
| Localization.Index | source/scenes/settings_menu.py:83-97 | Indexing a looked-up section by a label succeeds iff it is a section holding the label. A missing label raises `KeyError`; the string fallback raises `TypeError`. |
| Localization.MissingSectionRaises | source/localizations.py:50-54 | A language without the section makes every label lookup in it raise `TypeError`. |
| Localization.LabelLookup | source/localizations.py:50-54 | `get_key(section, lang)[field]` succeeds iff that label exists, and then yields it. |
| Localization.LanguageCode | source/localizations.py:27 | The code is the longest dot-free prefix of the file name, ending just before the first dot. |
| Localization.LanguageCodeOfFileName | source/localizations.py:26-34 | `<code>.json` ends in ".json" and gives back `code` when the code has no dot. |
| Localization.FileName | source/localizations.py:34 | The file name of a code is the code followed by ".json". |
| Localization.SecondExtension | source/localizations.py:26-28 | A listed "en.backup.json" makes the store load "en.json". |
| Localization.LoadOne | source/localizations.py:30-43 | An existing file adds or replaces exactly its code with the file's contents; a missing one changes nothing; other codes keep their tables. |
| Localization.LoadedAll | source/localizations.py:21-28 | Loading a listing never removes a language, and every newly present language holds the contents of its own ".json" file. |
| Localization.LoadedAllSpec | source/localizations.py:21-43 | After loading a listing, a language is present iff it was before or a listed ".json" name gives its code and its file exists. A loaded language holds its file's contents; others are unchanged. |
| Localization.Localizations.constructor | source/localizations.py:11-19 | The directory is stored and `data` is empty. |
| Localization.Localizations.Open | source/localizations.py:11-19 | Succeeds iff the directory exists, otherwise raises `FileNotFoundError`. |
| Localization.Localizations.LoadLocalization | source/localizations.py:30-43 | A missing file returns an empty map and leaves `data` unchanged. Otherwise the parsed table is stored under the code, returned, and other languages are kept. |
| Localization.Localizations.LoadAllLocalizations | source/localizations.py:21-28 | `data` becomes `LoadedAll` of the listing. |
| Localization.Localizations.GetKey | source/localizations.py:45-54 | The lookup with key fallback, as `Lookup`. |
| Notifications.HiddenStaysHidden | source/components/notification.py:44 | Once hidden, a notification stays hidden through any updates. |
| Notifications.VisibleAfter | source/components/notification.py:40-49 | After updates at the given times, an update later than `duration` after the show leaves the notification hidden. |
| Notifications.VisibleUntilExpiry | source/components/notification.py:44-47 | A shown notification stays visible through updates iff every update came at most `duration` after it was shown; an update at exactly `duration` keeps it. |
| Notifications.Notification.constructor | source/components/notification.py:15-31 | Invisible, `start_time == 0`, the given duration. |
| Notifications.Notification.WithDefaultDuration | source/components/notification.py:15 | The duration defaults to 2000. |
| Notifications.Notification.Init | source/components/notification.py:33-38 | The font exists afterwards. |
| Notifications.Notification.Show | source/components/notification.py:51-60 | `start_time` becomes now and `visible` true. Without `init` rendering raises `AttributeError` and nothing changes. |
| Notifications.Notification.Update | source/components/notification.py:40-49 | Visible afterwards iff visible before and at most `duration` has elapsed. |
| Scenes.StackedPosition | source/scenes/settings_menu.py:39-41 | `x` is `(800-w) div 2`, centring with the odd pixel on the right; `y` lies `index*(h+10)` below the offset. |
| Scenes.StackedRect | source/scenes/settings_menu.py:24-41 | The rectangle at the stacked position with the given size; it is centred on the 800-pixel-wide screen, with at most one pixel more on the right. |
| Scenes.StackedApart | source/scenes/settings_menu.py:40 | A later slot starts at least a widget height plus the gap below an earlier one. |
| Scenes.StackedDisjoint | source/scenes/settings_menu.py:39-41 | Widgets in different slots never overlap. |
| Scenes.StackedButton | source/scenes/settings_menu.py:43-71 | `add_button`'s button: 200 by 50 at the computed position, with the given name, label and action, not hovered. |
| Scenes.Step | source/components/button.py:46-57 | A button handling an event changes only its hover flag, which motion sets to the hit-test and other events keep. |
| Scenes.Fired | source/components/button.py:58-59 | A button issues its action, once, exactly on a press while hovered. |
| Scenes.FiredBy | source/scenes/settings_menu.py:108-110 | The buttons issue at most one command each. |
| Scenes.ExitsOn | source/controller.py:75-83 | A button ends dispatch exactly when a press finds it hovered and its action changes scene. |
| Scenes.FeedAll | source/scenes/settings_menu.py:108-110 | Every button handles the event; the list keeps its length and order. |
| Scenes.FiredByHovered | source/components/button.py:58-59 | A command is issued iff the event is a press and some hovered button has that action; non-presses issue nothing. |
| Scenes.FirstExit | source/controller.py:75-83 | The first button whose action fires on the event and changes scene; no button before it does, and none at all when there is no such button. |
| Scenes.Reached | source/scenes/settings_menu.py:103-110 | The buttons that handle the event: all of them exactly when none changes scene. |
| Scenes.FiredByNoExit | source/scenes/settings_menu.py:108-110 | Buttons none of which changes scene issue no scene change. |
| Scenes.AtMostOneSceneChange | source/controller.py:75-83 | One event makes a scene's buttons request at most one scene change. It is the last command issued, it is issued iff some button changes scene, and it is that first button's action. |
| Scenes.Forward | source/scenes/settings_menu.py:108-110 | The loop over the buttons stops after the first button whose action changes scene: it reports that button as `FirstExit`, and yields `FeedAll` and `FiredBy` of the buttons reached. |
| Scenes.BuiltIsOkPrefix | source/scenes/settings_menu.py:73-101 | The buttons added are those of the slots before the first failed label lookup, in order. Entry ends normally iff every slot got its button; otherwise it raises the first failure's error. |
| Scenes.Built | source/scenes/settings_menu.py:43-71 | A run of `add_button` calls adds the first slot's button when its label is found, and nothing once a lookup fails. |
| Scenes.Outcome | source/scenes/settings_menu.py:73-101 | A run of `add_button` calls ends normally when there are no slots, and raises the first slot's lookup error when that lookup fails. |
| Scenes.Host.TogglePause | source/scenes/music_settings.py:81-82 | `music.toggle_pause` inverts the pause flag. |
| SettingsMenu.EnterLayout | source/scenes/settings_menu.py:80-101 | With all labels present: exactly language, music and back at (300,100), (300,160), (300,220), requesting "language_config", "music_config", "main_menu". |
| SettingsMenu.EnterWithoutSection | source/scenes/settings_menu.py:76-87 | A language without a "settings" section adds nothing and raises `TypeError`. |
| SettingsMenu.SettingsMenuScene.constructor | source/scenes/settings_menu.py:16-22 | No background and no buttons. |
| SettingsMenu.SettingsMenuScene.OnEnter | source/scenes/settings_menu.py:73-101 | Appends `Built` of the three slots to the existing buttons and ends as `Outcome`. |
| SettingsMenu.SettingsMenuScene.OnExit | source/scenes/settings_menu.py:103-106 | Empties `buttons` and clears the background. |
| SettingsMenu.SettingsMenuScene.HandleEvent | source/scenes/settings_menu.py:108-110 | Issued commands grow by `FiredBy` of the buttons reached. With no scene change the buttons become `FeedAll` and the background stays. After one, `on_exit` has run: no buttons, no background. |
| MusicSettings.StateField | source/scenes/music_settings.py:85-99 | The label field is "off" iff paused and "on" iff playing. |
| MusicSettings.EnterLayout | source/scenes/music_settings.py:95-128 | With all labels present: state, volume up, volume down and back at y = 100, 160, 220, 280, x = 300. The state label shows the pause state; back requests "settings_scene". |
| MusicSettings.MusicSettingsScene.constructor | source/scenes/music_settings.py:16-22 | No background and no buttons. |
| MusicSettings.MusicSettingsScene.OnEnter | source/scenes/music_settings.py:87-128 | Appends `Built` of the four slots and ends as `Outcome`. From empty, on success, the state button shows the current state. |
| MusicSettings.MusicSettingsScene.ToggleMusic | source/scenes/music_settings.py:73-100 | With no buttons the index raises and nothing changes. Otherwise pause flips and the first button is relabelled from the new state, so the label shows the state. |
| MusicSettings.MusicSettingsScene.OnExit | source/scenes/music_settings.py:130-133 | Empties `buttons` and clears the background. |
| MusicSettings.MusicSettingsScene.HandleEvent | source/scenes/music_settings.py:135-137 | Issued commands grow by `FiredBy` of the buttons reached. With no scene change the buttons become `FeedAll` and the background stays. After one, `on_exit` has run: no buttons, no background. |
| MultiplayerMenu.EnterLayout | source/scenes/multiplayer_menu.py:80-102 | With all labels present: create, join and back at y = 100, 160, 340 (slots 0, 1, 4), x = 300, requesting "create_room_scene", "join_room_scene", "main_menu". |
| MultiplayerMenu.EnterWithoutBack | source/scenes/multiplayer_menu.py:96-102 | Without the "back" label, entry keeps exactly the create and join buttons and raises: `TypeError` when the language has no "global" section or it is a plain string, `KeyError` when the section lacks the label. |
| MultiplayerMenu.MultiplayerMenuScene.constructor | source/scenes/multiplayer_menu.py:16-22 | No background and no buttons. |
| MultiplayerMenu.MultiplayerMenuScene.OnEnter | source/scenes/multiplayer_menu.py:73-102 | Appends `Built` of the three slots and ends as `Outcome`. |
| MultiplayerMenu.MultiplayerMenuScene.OnExit | source/scenes/multiplayer_menu.py:104-107 | Empties `buttons` and clears the background. |
| MultiplayerMenu.MultiplayerMenuScene.HandleEvent | source/scenes/multiplayer_menu.py:109-111 | Issued commands grow by `FiredBy` of the buttons reached. With no scene change the buttons become `FeedAll` and the background stays. After one, `on_exit` has run: no buttons, no background. |
| LanguageSettings.DropdownRect | source/scenes/language_settings.py:107-127 | The dropdown's anchor after `add_element(…, 0, 100)` is (300, 100, 200, 50). |
| LanguageSettings.BackButton | source/scenes/language_settings.py:129-134 | The back button of slot 4 with no offset: at (300, 240), 200 by 50, not hovered, requesting "settings_scene". |
| LanguageSettings.BackButtonUnderSecondRow | source/scenes/language_settings.py:107-134 | The back button is at (300, 240), clear of the anchor. With two or more languages, the unfolded second row covers its top, so a press at (300, 245) lands on both. After motion there the back button is hovered, fires on the press and changes scene first, so the dropdown never sees the press. |
| LanguageSettings.FirstReportFrom | source/scenes/language_settings.py:145-146 | The first dropdown from a position on that hands a key to its callback; none before it does, and none at all when there is no such dropdown. |
| LanguageSettings.FirstReport | source/scenes/language_settings.py:145-146 | The first dropdown that hands a key to its callback; none before it does, and none at all when there is no such dropdown. |
| LanguageSettings.FedStates | source/scenes/language_settings.py:145-146 | With no dropdown handled, every dropdown keeps its state; handled dropdowns keep their rectangles. |
| LanguageSettings.Handled | source/scenes/language_settings.py:145-146 | The dropdowns that handle the event: all of them, or those up to and including the first to report a key. |
| LanguageSettings.LanguagePick | source/scenes/language_settings.py:90-98 | Nothing when no dropdown reports a key. Otherwise exactly two commands: set the language of the row the press landed in, in the first dropdown unfolded over it, then change to "language_settings_scene". |
| LanguageSettings.LanguageSettingsScene.constructor | source/scenes/language_settings.py:16-23 | No background, buttons or elements; an empty, fresh footprint. |
| LanguageSettings.LanguageSettingsScene.ChangeLanguage | source/scenes/language_settings.py:90-98 | Sets the language to `l`, then requests this scene's own name. |
| LanguageSettings.LanguageSettingsScene.AddElement | source/scenes/language_settings.py:74-88 | Moves the element's corner to the slot its own size gives it and appends it; earlier elements are unchanged. |
| LanguageSettings.LanguageSettingsScene.OnEnter | source/scenes/language_settings.py:100-134 | Adds one new dropdown at (300,100) whose selection is the current language (the first language if that is empty), unfolded false. Then back at slot 4 with offset 0, or raises with the dropdown kept. |
| LanguageSettings.LanguageSettingsScene.OnExit | source/scenes/language_settings.py:136-140 | Empties `buttons` and `elements`, clears the background. |
| LanguageSettings.LanguageSettingsScene.FeedDropdown | source/scenes/language_settings.py:145-146 | One dropdown's whole state becomes `AfterEvent` of its old one, and it returns the key it reported, if any; the other dropdowns are untouched. |
| LanguageSettings.LanguageSettingsScene.FeedDropdowns | source/scenes/language_settings.py:145-146 | Dropdowns handle the event in list order until one reports a key. That runs `change_language` (`LanguagePick`) and `on_exit`, and the rest are untouched. Without a report all have handled it and nothing else changes. |
| LanguageSettings.LanguageSettingsScene.FeedNext | source/scenes/language_settings.py:145-146 | One more dropdown handles the event; a key it reports is the key of the first reporting dropdown. |
| LanguageSettings.LanguageSettingsScene.Leave | source/scenes/language_settings.py:90-98 | Issues the language switch and the change to this scene, whose `on_exit` empties both lists and clears the background. |
| LanguageSettings.LanguageSettingsScene.ExitBeforeDropdowns | source/scenes/language_settings.py:136-146 | A button's scene change runs `on_exit` before any dropdown has handled the event: the dropdowns keep their states. |
| LanguageSettings.LanguageSettingsScene.HandleEvent | source/scenes/language_settings.py:142-146 | Buttons first, then dropdowns, until the first scene change, which runs `on_exit`. A back press issues only its `FiredBy` and no dropdown handles the event. Otherwise the buttons' commands are followed by `LanguagePick`, and each dropdown reached is in state `AfterEvent`, the rest unchanged. |
| MainMenu.MainMenuScene.constructor | source/scenes/main_menu.py:18-24 | No background and no buttons. |
| MainMenu.MainMenuScene.OnEnter | source/scenes/main_menu.py:26-45 | Appends exactly one play button at (100,100), 100 by 50, requesting "intro"; a failed label lookup raises and adds nothing. |
| MainMenu.MainMenuScene.OnExit | source/scenes/main_menu.py:47 | Changes nothing, so each further entry adds another play button. |
| MainMenu.MainMenuScene.HandleEvent | source/scenes/main_menu.py:56 | Changes nothing. |
| MainMenu.PlayButton | source/scenes/main_menu.py:26-45 | The play button at (100, 100), 100 by 50, not hovered, labelled as given and requesting "intro". |
| MainMenu.ReentryScenario | source/scenes/main_menu.py:26-47 | Entering, exiting and entering again leaves two identical play buttons, since `on_exit` does nothing. |

## Left out

- Rendering is not modelled: every `draw` and `update` body, fonts, `blit`, `screen.fill`, and the cursor calls in the dropdown's row drawing. These are foreign library calls with no state the model can check.
- `Controller.set` is reduced to a flag. The frame loop in `start` is not modelled: clock ticks, `display.update`, `pyg.quit`, `exit` and the `update` call. This is windowing, timing and process exit.
- Audio playback is left out: `pg.mixer`, `stop_music` and `set_volume`. `Audio.Music.PlayCurrentTrack` records the track handed to the mixer instead of playing it.
- The volume buttons stand for the evidently intended behaviour: they issue `VolumeUp` and `VolumeDown`. As written their actions raise `AttributeError`, because `Music` has no `get_volume`; the float arithmetic and `set_volume` are not modelled.
- Filesystem work is passed in as parameters: the directory check, `os.listdir`, `isfile`, `json.load`. Paths are kept as directory and file-name parts, without `normpath`.
- Parsed JSON is reduced to strings and sections of labels.
- Logging is not modelled, except the widgets' debug messages, which are recorded in `emitted`. Controller and scene debug prints are left out.
- Callbacks are recorded as `Command` values, not run; the controller's side of a requested scene change (its `scene_id`) is not updated by the scenes. The scene's own side is modelled: the scene gets events only as the current scene, so `change_scene` runs its `on_exit`, which ends event dispatch.
- The controller sees scenes as abstract `SceneRef` values and records its calls into them. The concrete scene classes are modelled separately.
- Scene-owned buttons are records (name, label, command, rectangle, hover flag). The scenes pass keyword arguments that `Button.__init__` does not accept, so the source's scene buttons could not be built at all. The records follow `Button`'s event behaviour.
- Scene-owned buttons do not record cursor requests.
- `lang`, `set_language`, `localizations`, `music.paused`, `toggle_pause` and `GameConfig.LANGUAGES` are used by scenes but defined in no modelled file. They are the `Scenes.Host` class, a `Localizations` object and an `Items` parameter.
- The base `Scene` class and the intro scene are not part of this model. The base class's constructor does not match its subclasses, and the intro scene does nothing.
- server.py, client.py, text.py, image.py, the entity classes and the entry points are not part of this model.
- The settings menu requests "language_config" and "music_config". No scene registers under those names, so the next scene change after following one raises (`Control.UnregisteredTargetScenario`).
- The language settings scene looks up its unused "music_settings" section; that lookup is not modelled. The lookup cannot raise.
- MusicSettings.MusicSettingsScene.HandleEvent: records `ToggleMusic` and keeps dispatching. In the source the state button's `toggle_music` runs during dispatch, and when its relabel lookup raises (the "music_settings" section lacks "on" or "off") the exception aborts the button loop, so later buttons do not see the event.
- MusicSettings.MusicSettingsScene.ToggleMusic: relabels the button's `text`. The source assigns an attribute `textContent`, which `draw` never reads, so on screen the label would not change. The model states the evidently intended relabelling.
- Dropdowns.Dropdown.constructor: binds the base constructor's arguments by name, as evidently intended. As written, construction raises (see Findings).
- Dropdowns.Picked: is total. A row index past the last key gives nothing; `Classify` never produces one.
- LanguageSettings.LanguageSettingsScene.HandleEvent: requires the dropdowns to be distinct objects with distinct component parts. `on_enter` always creates a fresh one, so this always holds.

## Findings

| source | as written | input that shows it | evidently intended | confidence | as-written member | corrected member |
|---|---|---|---|---|---|---|
| source/components/dropdown.py:47 | `super().__init__(scene, size, name, position, color, visible, debug)` passes, by position, the name as `position`, the position as `color` and the colour as `name` | any dropdown, e.g. the language dropdown with name "language_dropdown" and position (0, 0): `pygame.Rect("language_dropdown", (200, 50))` raises `TypeError` | each argument bound to the parameter of its name, so the rectangle is the dropdown's position and size | not executed | Dropdowns.SuperCallAsWrittenRaises | Dropdowns.SuperCallIntendedRect |
