/** The background-music library: the fixed catalogue of tracks, the
    start-up step that fills the music directory without overwriting
    anything, the key-to-file lookup, and the mixing of a narration with a
    looped, attenuated and trimmed music bed. Decoding and encoding audio
    are opaque: a decoded clip is its sequence of per-millisecond levels in
    decibels, and whether an export succeeds is a parameter. */
module MusicLibrary {
  import opened Base

  /** A file in the music directory: a real recording, or the silent
      placeholder written in its stead. */
  datatype Track = Recording(id: nat) | Silence(ms: nat)

  /** MUSIC_DIR, relative to the project's base directory. */
  const MusicDir: string := "static/music/"

  /** `create_silent_audio`'s default duration, ten seconds. */
  const PlaceholderMs: nat := 10000

  /** MUSIC_OPTIONS: key and display name, in declaration order. */
  const MusicOptions: seq<(string, string)> := [
    ("elegant", "Elegant Corporate"),
    ("inspiring", "İlham Verici"),
    ("modern", "Modern Kurumsal"),
    ("relaxing", "Rahatlatıcı"),
    ("nature", "Doğa Sesleri"),
    ("custom", "Kendi Müziğiniz"),
    ("no_music", "Müzik Yok")
  ]

  /** The five tracks `initialize_music_library` provides: key and file name. */
  const SampleFiles: seq<(string, string)> := [
    ("elegant", "elegant_corporate.mp3"),
    ("inspiring", "inspiring_ambient.mp3"),
    ("modern", "modern_corporate.mp3"),
    ("relaxing", "relaxing_ambient.mp3"),
    ("nature", "nature_sounds.mp3")
  ]

  predicate IsOption(key: string)
  {
    exists i :: 0 <= i < |MusicOptions| && MusicOptions[i].0 == key
  }

  function FileNames(pairs: seq<(string, string)>): (names: seq<string>)
    ensures |names| == |pairs| && forall i :: 0 <= i < |pairs| ==> names[i] == pairs[i].1
  {
    if |pairs| == 0 then [] else FileNames(pairs[..|pairs| - 1]) + [pairs[|pairs| - 1].1]
  }

  /** `download_music`'s file name for a key: none for a key outside the
      options or for "custom" and "no_music", else the track's fixed name
      (the generic "{key}_music.mp3" is never reached by a real option). */
  function TrackFile(musicType: string): Option<string>
  {
    if !IsOption(musicType) || musicType == "custom" || musicType == "no_music" then None
    else if musicType == "elegant" then Some("elegant_corporate.mp3")
    else if musicType == "inspiring" then Some("inspiring_ambient.mp3")
    else if musicType == "modern" then Some("modern_corporate.mp3")
    else if musicType == "relaxing" then Some("relaxing_ambient.mp3")
    else if musicType == "nature" then Some("nature_sounds.mp3")
    else Some(musicType + "_music.mp3")
  }

  /** A key has a track exactly when it is one of the five sample keys, and
      its file is the one the start-up step provides for that same key. */
  lemma TrackFileMatchesSamples(musicType: string)
    ensures TrackFile(musicType).Some? <==> exists i :: 0 <= i < |SampleFiles| && SampleFiles[i].0 == musicType
    ensures forall i :: 0 <= i < |SampleFiles| && SampleFiles[i].0 == musicType ==> TrackFile(musicType) == Some(SampleFiles[i].1)
  {
    if musicType in ["elegant", "inspiring", "modern", "relaxing", "nature"] {
      var j :| 0 <= j < 5 && ["elegant", "inspiring", "modern", "relaxing", "nature"][j] == musicType;
      assert MusicOptions[j].0 == musicType;
      assert SampleFiles[j].0 == musicType;
    } else {
      if IsOption(musicType) {
        var j :| 0 <= j < |MusicOptions| && MusicOptions[j].0 == musicType;
        assert j >= 5;
      }
    }
  }

  /** The directory after the start-up step has looked at `names` in order:
      a present file is left alone, a missing one is copied from the samples
      or, failing that, replaced by a silent placeholder when the export
      works. */
  function Initialised(files: map<string, Track>, samples: map<string, Track>, exportWorks: bool, names: seq<string>): map<string, Track>
  {
    if |names| == 0 then files
    else
      var prev := Initialised(files, samples, exportWorks, names[..|names| - 1]);
      var f := names[|names| - 1];
      if f in prev then prev
      else if f in samples then prev[f := samples[f]]
      else if exportWorks then prev[f := Silence(PlaceholderMs)]
      else prev
  }

  /** Start-up never overwrites an existing file, touches only the names it
      is given, and leaves each name present exactly when it was there, has
      a sample, or a placeholder could be written; a sample is copied as is. */
  lemma {:induction false} InitialisedFacts(files: map<string, Track>, samples: map<string, Track>, exportWorks: bool, names: seq<string>)
    ensures var r := Initialised(files, samples, exportWorks, names);
      (forall k :: k in files ==> k in r && r[k] == files[k])
      && (forall k :: k in r && k !in files ==> k in names)
      && (forall i :: 0 <= i < |names| ==> (names[i] in r <==> names[i] in files || names[i] in samples || exportWorks))
      && (forall k :: k in r && k !in files && k in samples ==> r[k] == samples[k])
      && (forall k :: k in r && k !in files && k !in samples ==> r[k] == Silence(PlaceholderMs))
  {
    if |names| > 0 {
      var init := names[..|names| - 1];
      InitialisedFacts(files, samples, exportWorks, init);
      var prev := Initialised(files, samples, exportWorks, init);
      var r := Initialised(files, samples, exportWorks, names);
      forall i | 0 <= i < |names|
        ensures names[i] in r <==> names[i] in files || names[i] in samples || exportWorks
      {
        if i < |names| - 1 {
          assert names[i] == init[i];
        }
      }
    }
  }

  /** A directory every one of whose names is present, or could not be
      provided, is left as it is. */
  lemma {:induction false} InitialisedStable(files: map<string, Track>, samples: map<string, Track>, exportWorks: bool, names: seq<string>)
    requires forall i :: 0 <= i < |names| ==> names[i] in files || (names[i] !in samples && !exportWorks)
    ensures Initialised(files, samples, exportWorks, names) == files
  {
    if |names| > 0 {
      InitialisedStable(files, samples, exportWorks, names[..|names| - 1]);
    }
  }

  /** Running the start-up step a second time changes nothing. */
  lemma InitialiseIdempotent(files: map<string, Track>, samples: map<string, Track>, exportWorks: bool, names: seq<string>)
    ensures var once := Initialised(files, samples, exportWorks, names);
      Initialised(once, samples, exportWorks, names) == once
  {
    InitialisedFacts(files, samples, exportWorks, names);
    InitialisedStable(Initialised(files, samples, exportWorks, names), samples, exportWorks, names);
  }

  /** What `download_music` as written does to the directory and returns:
      a missing track file is replaced by a placeholder, whose export may
      fail without the function noticing, and the path is returned anyway. */
  function DownloadAsWritten(files: map<string, Track>, musicType: string, exportWorks: bool): (map<string, Track>, Option<string>)
  {
    match TrackFile(musicType)
    case None => (files, None)
    case Some(f) =>
      var after := if f !in files && exportWorks then files[f := Silence(PlaceholderMs)] else files;
      (after, Some(MusicDir + f))
  }

  /** With no track file and an export that fails, the path of a file that
      does not exist is returned. */
  lemma DownloadReturnsMissingFile()
    ensures var r := DownloadAsWritten(map[], "elegant", false);
      r.1 == Some(MusicDir + "elegant_corporate.mp3") && "elegant_corporate.mp3" !in r.0
  {
    assert MusicOptions[0].0 == "elegant";
  }

  /** The directory `download_music` leaves and what it returns, with the
      handler the code evidently intends: no path when the placeholder
      could not be written. */
  function Download(files: map<string, Track>, musicType: string, exportWorks: bool): (r: (map<string, Track>, Option<string>))
    ensures r.1.Some? ==> TrackFile(musicType).Some? && r.1.value == MusicDir + TrackFile(musicType).value
                          && TrackFile(musicType).value in r.0
    ensures TrackFile(musicType).None? ==> r == (files, None)
    ensures TrackFile(musicType).Some? ==> (r.1.None? <==> TrackFile(musicType).value !in files && !exportWorks)
    ensures forall k :: k in files ==> k in r.0 && r.0[k] == files[k]
    ensures forall k :: k in r.0 && k !in files ==> Some(k) == TrackFile(musicType) && r.0[k] == Silence(PlaceholderMs)
  {
    match TrackFile(musicType)
    case None => (files, None)
    case Some(f) =>
      if f in files then (files, Some(MusicDir + f))
      else if exportWorks then (files[f := Silence(PlaceholderMs)], Some(MusicDir + f))
      else (files, None)
  }

  /** The two agree on the directory, and on the path whenever the file exists. */
  lemma DownloadCorrection(files: map<string, Track>, musicType: string, exportWorks: bool)
    ensures Download(files, musicType, exportWorks).0 == DownloadAsWritten(files, musicType, exportWorks).0
    ensures Download(files, musicType, exportWorks).1.None? && DownloadAsWritten(files, musicType, exportWorks).1.Some?
            <==> TrackFile(musicType).Some? && TrackFile(musicType).value !in files && !exportWorks
  {
  }

  /** The music directory, whose files the start-up step and the lookup create. */
  class MusicDirectory {
    var files: map<string, Track>

    constructor(initial: map<string, Track>)
      ensures files == initial
    {
      files := initial;
    }

    /** `initialize_music_library`, given the sample directory's files. */
    method Initialize(samples: map<string, Track>, exportWorks: bool)
      modifies this
      ensures files == Initialised(old(files), samples, exportWorks, FileNames(SampleFiles))
    {
      var names := FileNames(SampleFiles);
      var i := 0;
      while i < |names|
        invariant 0 <= i <= |names|
        invariant files == Initialised(old(files), samples, exportWorks, names[..i])
      {
        assert names[..i + 1][..i] == names[..i];
        var f := names[i];
        if f !in files {
          if f in samples {
            files := files[f := samples[f]];
          } else if exportWorks {
            files := files[f := Silence(PlaceholderMs)];
          }
        }
        i := i + 1;
      }
      assert names[..i] == names;
    }

    /** `download_music`, with a failed placeholder reported as no path. */
    method DownloadMusic(musicType: string, exportWorks: bool) returns (path: Option<string>)
      modifies this
      ensures (files, path) == Download(old(files), musicType, exportWorks)
    {
      var name := TrackFile(musicType);
      if name.None? {
        return None;
      }
      var f := name.value;
      if f !in files {
        if !exportWorks {
          return None;
        }
        files := files[f := Silence(PlaceholderMs)];
      }
      return Some(MusicDir + f);
    }
  }

  // ----------------------------------------------------------------- mixing

  /** `music - (10 - int(music_volume * 10))`: the attenuation in decibels. */
  function AttenuationDb(volume: real): (db: int)
    ensures 0.0 <= volume <= 1.0 ==> 0 <= db <= 10
    ensures volume == 0.2 ==> db == 8
  {
    10 - Trunc(volume * 10.0)
  }

  function Attenuated(levels: seq<int>, db: int): (r: seq<int>)
    ensures |r| == |levels| && forall i :: 0 <= i < |r| ==> r[i] == levels[i] - db
  {
    seq(|levels|, i requires 0 <= i < |levels| => levels[i] - db)
  }

  /** `segment * k`: the clip played `k` times in a row. */
  function Repeated(s: seq<int>, k: nat): seq<int>
  {
    if k == 0 then [] else Repeated(s, k - 1) + s
  }

  lemma {:induction false} RepeatedLength(s: seq<int>, k: nat)
    ensures |Repeated(s, k)| == k * |s|
  {
    if k > 0 {
      RepeatedLength(s, k - 1);
      assert (k - 1) * |s| + |s| == k * |s|;
    }
  }

  /** `a == q * n + r` with `0 <= r < n` fixes the remainder. */
  lemma ModOf(a: int, n: int, q: int, r: int)
    requires n > 0 && 0 <= r < n && a == q * n + r
    ensures a % n == r
  {
    var d := q - a / n;
    assert a == (a / n) * n + a % n;
    assert d * n == a % n - r;
  }

  /** The `i`-th millisecond of a repeated clip is the clip's `i mod |s|`-th. */
  lemma {:induction false} RepeatedAt(s: seq<int>, k: nat, i: int)
    requires |s| > 0 && 0 <= i < k * |s|
    ensures |Repeated(s, k)| == k * |s| && Repeated(s, k)[i] == s[i % |s|]
  {
    RepeatedLength(s, k);
    RepeatedLength(s, k - 1);
    var r := Repeated(s, k - 1);
    if i < |r| {
      RepeatedAt(s, k - 1, i);
    } else {
      ModOf(i, |s|, k - 1, i - |r|);
    }
  }

  /** `int(v / m) + 1` copies of `m` milliseconds outlast `v`. */
  lemma LongEnough(v: nat, m: nat)
    requires m > 0
    ensures v < (v / m + 1) * m
  {
    assert v == (v / m) * m + v % m;
    assert (v / m + 1) * m == (v / m) * m + m;
  }

  /** Each millisecond of a mix: the narration's level and the bed's. */
  datatype Layered = Layered(voice: int, music: int)

  /** `mix_audio`: the narration with the attenuated music looped under it
      and cut to its length; None when either file does not decode, when the
      music is empty under a longer narration (a division by zero), or when
      the export fails. The result is the written file's path and contents. */
  method MixAudio(voice: Option<seq<int>>, music: Option<seq<int>>, musicVolume: real, tempDir: string, exportWorks: bool)
    returns (r: Option<(string, seq<Layered>)>)
    ensures r.Some? <==> voice.Some? && music.Some? && exportWorks && !(|voice.value| > |music.value| == 0)
    ensures r.Some? ==> r.value.0 == tempDir + "/mixed_audio.mp3"
    ensures r.Some? ==> var v, m, mix := voice.value, music.value, r.value.1;
      |mix| == |v| && forall i :: 0 <= i < |v| ==> mix[i] == Layered(v[i], m[i % |m|] - AttenuationDb(musicVolume))
  {
    if voice.None? || music.None? {
      return None;
    }
    var v := voice.value;
    var bed := Attenuated(music.value, AttenuationDb(musicVolume));
    if |v| > |bed| {
      if |bed| == 0 {
        return None;
      }
      var repeats := Trunc(|v| as real / |bed| as real) + 1;
      TruncOfQuotient(|v|, |bed|);
      LongEnough(|v|, |bed|);
      var looped := Repeated(bed, repeats);
      RepeatedLength(bed, repeats);
      forall i | 0 <= i < |v| ensures |looped| == repeats * |bed| && looped[i] == bed[i % |bed|] {
        RepeatedAt(bed, repeats, i);
      }
      bed := looped;
    } else {
      forall i | 0 <= i < |v| ensures i % |bed| == i {
        ModOf(i, |bed|, 0, i);
      }
    }
    bed := bed[..|v|];
    var mix := seq(|v|, i requires 0 <= i < |v| => Layered(v[i], bed[i]));
    if !exportWorks {
      return None;
    }
    return Some((tempDir + "/mixed_audio.mp3", mix));
  }
}
