/** The music playlist: tracks from a fixed manifest, played in a cycle. */
module Audio {
  import opened Outcomes
  import opened Arith
  import opened Events

  /** The music manifest `ResourceConfig.MUSICS` in insertion order: track name, file name. */
  const Manifest: seq<(string, string)> := [("Calm Cosmos", "calm_cosmos.mp3"), ("Deep Space", "deep_space.mp3")]

  /** Whether `name` is a key of the manifest. */
  predicate InManifest(name: string) {
    exists i :: 0 <= i < |Manifest| && Manifest[i].0 == name
  }

  /** The file the manifest gives for `name`. */
  function ManifestFile(name: string): (f: string)
    requires InManifest(name)
    ensures exists i :: 0 <= i < |Manifest| && Manifest[i] == (name, f)
  {
    if name == Manifest[0].0 then Manifest[0].1 else Manifest[1].1
  }

  /** A playlist entry: the track's name and its file, `os.path.join(dir, fileName)` normalised,
      kept as the two parts it is built from. */
  datatype Track = Track(name: string, dir: string, fileName: string)

  /** The entries `init_music` appends: one per manifest key, in manifest order. */
  function ManifestTracks(dir: string): (ts: seq<Track>)
    ensures |ts| == |Manifest|
    ensures forall i :: 0 <= i < |ts| ==> ts[i] == Track(Manifest[i].0, dir, Manifest[i].1)
  {
    seq(|Manifest|, i requires 0 <= i < |Manifest| => Track(Manifest[i].0, dir, Manifest[i].1))
  }

  /** The track after `t` in a playlist of `n`, wrapping to the first after the last. */
  function Advance(t: nat, n: nat): (r: nat)
    requires n > 0
    ensures r < n
    ensures t + 1 < n ==> r == t + 1
    ensures t + 1 == n ==> r == 0
  {
    (t + 1) % n
  }

  /** The track after `k` end-of-track notifications, starting from `t`. */
  function AdvanceBy(t: nat, n: nat, k: nat): (r: nat)
    requires n > 0
    ensures k == 0 ==> r == t
    ensures k > 0 ==> r < n
  {
    if k == 0 then t else Advance(AdvanceBy(t, n, k - 1), n)
  }

  /** One more track end adds one modulo the playlist length. */
  lemma {:induction false} AdvanceStep(t: nat, n: nat, k: nat)
    requires n > 0 && k > 0
    requires AdvanceBy(t, n, k - 1) == (t + (k - 1)) % n
    ensures AdvanceBy(t, n, k) == (t + k) % n
  {
    ModAddOne(t + (k - 1), n);
  }

  /** After `k` track ends the current track is `t + k` modulo the playlist length. */
  lemma {:induction false} AdvanceByClosedForm(t: nat, n: nat, k: nat)
    requires n > 0 && t < n
    ensures AdvanceBy(t, n, k) == (t + k) % n
  {
    if k == 0 {
      ModBand(t, n, 0);
    } else {
      AdvanceByClosedForm(t, n, k - 1);
      AdvanceStep(t, n, k);
    }
  }

  /** `n` track ends bring the cycle back to where it started. */
  lemma {:induction false} CycleReturns(t: nat, n: nat)
    requires n > 0 && t < n
    ensures AdvanceBy(t, n, n) == t
  {
    AdvanceByClosedForm(t, n, n);
    assert 1 * n == n;
    ModBand(t + n, n, 1);
  }

  /** Track `j` comes up after `j - t` ends, or `j + n - t` when it lies before `t`. */
  lemma {:induction false} CycleReaches(t: nat, n: nat, j: nat)
    requires n > 0 && t < n && j < n
    ensures AdvanceBy(t, n, if t <= j then j - t else j + n - t) == j
  {
    if t <= j {
      AdvanceByClosedForm(t, n, j - t);
      assert 0 * n == 0;
      ModBand(j, n, 0);
    } else {
      AdvanceByClosedForm(t, n, j + n - t);
      assert 1 * n == n;
      ModBand(j + n, n, 1);
    }
  }

  /** The cycle stays in range, returns to its start after `n` ends, and reaches every track
      within `n` ends. */
  lemma CycleVisitsAll(t: nat, n: nat, j: nat)
    requires n > 0 && t < n && j < n
    ensures AdvanceBy(t, n, n) == t
    ensures AdvanceBy(t, n, if t <= j then j - t else j + n - t) == j
    ensures forall k: nat :: AdvanceBy(t, n, k) < n
  {
    CycleReturns(t, n);
    CycleReaches(t, n, j);
    forall k: nat ensures AdvanceBy(t, n, k) < n {
      AdvanceByClosedForm(t, n, k);
    }
  }

  /** `Music`: the playlist, the index of the current track, and the mixer handle, present
      once `init_music` ran. `played` records every track handed to the mixer. */
  class Music {
    const path: string
    const debug: bool
    var mixerReady: bool
    var playlist: seq<Track>
    var currentTrack: nat
    var played: seq<Track>

    /** The current index is in range whenever the playlist is not empty. */
    ghost predicate Valid()
      reads this
    {
      currentTrack == 0 || currentTrack < |playlist|
    }

    constructor(musicPath: string, debug: bool)
      ensures path == musicPath && this.debug == debug
      ensures playlist == [] && currentTrack == 0 && !mixerReady && played == []
      ensures Valid()
    {
      path := musicPath;
      this.debug := debug;
      mixerReady := false;
      playlist := [];
      currentTrack := 0;
      played := [];
    }

    /** `load_music`: appends the manifest entry for `name`; a name outside the manifest is
      logged and ignored. */
    method LoadMusic(name: string)
      requires Valid()
      modifies this`playlist
      ensures Valid()
      ensures !InManifest(name) ==> playlist == old(playlist)
      ensures InManifest(name) ==> playlist == old(playlist) + [Track(name, path, ManifestFile(name))]
    {
      if !InManifest(name) {
        return;
      }
      playlist := playlist + [Track(name, path, ManifestFile(name))];
    }

    /** `init_music`: sets up the mixer and loads every manifest entry in order. */
    method InitMusic()
      requires Valid()
      modifies this`playlist, this`mixerReady
      ensures Valid() && mixerReady
      ensures playlist == old(playlist) + ManifestTracks(path)
    {
      mixerReady := true;
      for i := 0 to |Manifest|
        invariant Valid() && mixerReady
        invariant playlist == old(playlist) + ManifestTracks(path)[..i]
      {
        assert InManifest(Manifest[i].0);
        assert ManifestFile(Manifest[i].0) == Manifest[i].1;
        LoadMusic(Manifest[i].0);
        assert ManifestTracks(path)[..i + 1] == ManifestTracks(path)[..i] + [ManifestTracks(path)[i]];
      }
      assert ManifestTracks(path)[..|Manifest|] == ManifestTracks(path);
    }

    /** `play_current_track`: hands `playlist[current_track]` to the mixer. */
    method PlayCurrentTrack() returns (status: Status)
      modifies this`played
      ensures currentTrack >= |playlist| ==> status == Raised(IndexError) && played == old(played)
      ensures currentTrack < |playlist| && !mixerReady ==> status == Raised(AttributeError) && played == old(played)
      ensures currentTrack < |playlist| && mixerReady ==> status == Done && played == old(played) + [playlist[currentTrack]]
    {
      if currentTrack >= |playlist| {
        return Raised(IndexError);
      }
      var track := playlist[currentTrack];
      if !mixerReady {
        return Raised(AttributeError);
      }
      played := played + [track];
      status := Done;
    }

    /** `play_music`: from the first track; an empty playlist is logged and ignored. */
    method PlayMusic() returns (status: Status)
      requires Valid()
      modifies this`currentTrack, this`played
      ensures Valid()
      ensures playlist == [] ==> status == Done && currentTrack == old(currentTrack) && played == old(played)
      ensures playlist != [] ==> currentTrack == 0
      ensures playlist != [] && mixerReady ==> status == Done && played == old(played) + [playlist[0]]
      ensures playlist != [] && !mixerReady ==> status == Raised(AttributeError) && played == old(played)
    {
      if playlist == [] {
        return Done;
      }
      currentTrack := 0;
      status := PlayCurrentTrack();
    }

    /** `handle_event`: the end of a track moves to the next one, cyclically, and plays it;
      with an empty playlist the remainder by zero raises. */
    method HandleEvent(e: Event) returns (status: Status)
      requires Valid()
      modifies this`currentTrack, this`played
      ensures Valid()
      ensures !e.TrackEnd? ==> status == Done && currentTrack == old(currentTrack) && played == old(played)
      ensures e.TrackEnd? && playlist == [] ==>
        status == Raised(ZeroDivisionError) && currentTrack == old(currentTrack) && played == old(played)
      ensures e.TrackEnd? && playlist != [] ==> currentTrack == Advance(old(currentTrack), |playlist|)
      ensures e.TrackEnd? && playlist != [] && mixerReady ==>
        status == Done && played == old(played) + [playlist[currentTrack]]
      ensures e.TrackEnd? && playlist != [] && !mixerReady ==>
        status == Raised(AttributeError) && played == old(played)
    {
      if !e.TrackEnd? {
        return Done;
      }
      if |playlist| == 0 {
        return Raised(ZeroDivisionError);
      }
      currentTrack := (currentTrack + 1) % |playlist|;
      status := PlayCurrentTrack();
    }
  }
}
