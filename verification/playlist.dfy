/** The audio item of an xSchedule playlist: it holds the path of an audio
    file, the file's duration, whether it drives the playlist step's clock,
    and at most one open `AudioManager` playing the file.

    The file system and the decoder are not modelled: whether a file exists,
    the length a fast header probe reports and the length the decoder
    reports enter through a `Media` value. */
module PlayList {

  /** What the item can learn about files without decoding them
      (`wxFile::Exists`, `AudioManager::GetAudioFileLength`) and what an
      opened decoder reports (`AudioManager::LengthMS`). */
  datatype Media = Media(
    fileExists: string -> bool,
    probeLengthMS: string -> nat,
    decodedLengthMS: string -> nat)

  /** The commands an `AudioManager` receives, in order. */
  datatype Command =
    | VolumeCmd(volume: int)
    | PlayCmd(startMS: nat, lengthMS: nat)
    | ResumeCmd
    | PauseCmd
    | StopCmd

  /** An open decoder and player for one audio file. Its playback is
      recorded as the list of commands it has been given; its position is
      where the last `Play(start, length)` started. */
  class AudioManager {
    const file: string
    const lengthMS: nat
    var log: seq<Command>
    var position: nat

    constructor (file: string, media: Media)
      ensures this.file == file && lengthMS == media.decodedLengthMS(file)
      ensures log == [] && position == 0
    {
      this.file := file;
      lengthMS := media.decodedLengthMS(file);
      log := [];
      position := 0;
    }

    function LengthMS(): nat {
      lengthMS
    }

    function Tell(): nat
      reads this
    {
      position
    }

    method SetVolume(volume: int)
      modifies this
      ensures log == old(log) + [VolumeCmd(volume)] && position == old(position)
    {
      log := log + [VolumeCmd(volume)];
    }

    method Play(startMS: nat, lengthMS: nat)
      modifies this
      ensures log == old(log) + [PlayCmd(startMS, lengthMS)] && position == startMS
    {
      log := log + [PlayCmd(startMS, lengthMS)];
      position := startMS;
    }

    /** `Play()` without arguments: resume where paused. */
    method Resume()
      modifies this
      ensures log == old(log) + [ResumeCmd] && position == old(position)
    {
      log := log + [ResumeCmd];
    }

    method Pause()
      modifies this
      ensures log == old(log) + [PauseCmd] && position == old(position)
    {
      log := log + [PauseCmd];
    }

    method Stop()
      modifies this
      ensures log == old(log) + [StopCmd] && position == old(position)
    {
      log := log + [StopCmd];
    }
  }

  // ---------------------------------------------------------------------
  // Audio extensions

  const AudioExtensions: set<string> := {"mp3", "ogg", "mid", "au", "wav", "m4a", "wma", "m4p"}

  /** `IsAudio`: whether a file extension, given without its dot, names an
      audio format. */
  function IsAudio(ext: string): (r: bool)
    ensures r <==> ext in AudioExtensions
  {
    || ext == "mp3" || ext == "ogg" || ext == "mid" || ext == "au"
    || ext == "wav" || ext == "m4a" || ext == "wma" || ext == "m4p"
  }

  predicate IsUpper(c: char) {
    'A' <= c <= 'Z'
  }

  /** The comparison is exact: an audio extension is two or three
      characters, none of them a dot or an upper-case letter, so ".mp3" and
      "MP3" are not audio. */
  lemma AudioExtensionShape(ext: string)
    ensures IsAudio(ext) ==>
      && 2 <= |ext| <= 3
      && forall i :: 0 <= i < |ext| ==> ext[i] != '.' && !IsUpper(ext[i])
  {
  }

  lemma ExtensionWithDotIsNotAudio(ext: string)
    requires |ext| > 0 && ext[0] == '.'
    ensures !IsAudio(ext)
  {
  }

  lemma UpperCaseExtensionIsNotAudio(ext: string)
    requires exists i :: 0 <= i < |ext| && IsUpper(ext[i])
    ensures !IsAudio(ext)
  {
  }

  // ---------------------------------------------------------------------
  // File names

  /** The index of the last occurrence of `c` in `s`, if any. */
  function LastIndexOf(s: string, c: char): (r: int)
    ensures -1 <= r < |s|
    ensures r >= 0 ==> s[r] == c
    ensures forall i :: r < i < |s| ==> s[i] != c
  {
    if s == [] then -1
    else if s[|s| - 1] == c then |s| - 1
    else LastIndexOf(s[..|s| - 1], c)
  }

  /** The part of a path after its last separator ('/'). */
  function BaseName(path: string): (name: string)
    ensures '/' !in name
    ensures |name| <= |path| && name == path[|path| - |name|..]
  {
    path[LastIndexOf(path, '/') + 1..]
  }

  /** A file name without its extension: the extension starts at the last
      dot, except that a dot in first place (a hidden file) starts none. */
  function Stem(name: string): (stem: string)
    ensures |stem| <= |name| && stem == name[..|stem|]
    ensures name != [] ==> stem != []
  {
    var dot := LastIndexOf(name, '.');
    if dot > 0 then name[..dot] else name
  }

  /** `wxFileName(path).GetName()`. */
  function FileName(path: string): (r: string)
    ensures '/' !in r
    ensures |r| <= |path|
    ensures path != [] && path[|path| - 1] != '/' ==> r != []
  {
    Stem(BaseName(path))
  }

  /** A path made of a directory, a name and an extension gives back the
      name. */
  lemma FileNameOfComposedPath(dir: string, name: string, ext: string)
    requires name != [] && '/' !in name
    requires '/' !in ext && '.' !in ext
    ensures FileName(dir + "/" + name + "." + ext) == name
  {
    var tail := name + "." + ext;
    assert dir + "/" + name + "." + ext == dir + "/" + tail;
    assert '/' !in tail by {
      assert forall i :: 0 <= i < |tail| ==> tail[i] == if i < |name| then name[i] else ("." + ext)[i - |name|];
    }
    BaseNameAfterSeparator(dir, tail);
    StemBeforeExtension(name, ext);
  }

  /** The base name of `dir/tail` is `tail` when `tail` has no separator. */
  lemma BaseNameAfterSeparator(dir: string, tail: string)
    requires '/' !in tail
    ensures BaseName(dir + "/" + tail) == tail
  {
    var path := dir + "/" + tail;
    assert path == (dir + "/") + tail;
    LastIndexAfterSuffix(dir + "/", tail, '/');
    assert path[|dir| + 1..] == tail;
  }

  /** The stem of `name.ext` is `name` when `ext` has no dot and `name` is
      not empty. */
  lemma StemBeforeExtension(name: string, ext: string)
    requires name != [] && '.' !in ext
    ensures Stem(name + "." + ext) == name
  {
    var full := name + "." + ext;
    assert full == name + ("." + ext);
    LastIndexAfterSuffix(name, "." + ext, '.');
    assert ("." + ext)[1..] == ext;
    assert full[..|name|] == name;
  }

  /** When `t` holds `c` exactly at its start, or not at all, the last `c`
      of `s + t` is found from `t`. */
  lemma {:induction false} LastIndexAfterSuffix(s: string, t: string, c: char)
    requires (|t| > 0 && t[0] == c && c !in t[1..]) || (|s| > 0 && s[|s| - 1] == c && c !in t)
    ensures LastIndexOf(s + t, c) == if |t| > 0 && t[0] == c then |s| else |s| - 1
  {
    var u := s + t;
    var expected := if |t| > 0 && t[0] == c then |s| else |s| - 1;
    assert u[expected] == c;
    forall i | expected < i < |u|
      ensures u[i] != c
    {
      if |t| > 0 && t[0] == c {
        assert u[i] == t[1..][i - |s| - 1];
      } else {
        assert u[i] == t[i - |s|];
      }
    }
  }

  // ---------------------------------------------------------------------
  // The playlist item

  class PlayListItemAudio {
    var audioFile: string
    var durationMS: nat
    var controlsTimingCache: bool
    var audioManager: AudioManager?
    /** Inherited from PlayListItem: the edit counter, and the volume
        (-1 when none is set). */
    var changeCount: int
    var volume: int
    /** How many AudioManagers this item has opened and not yet deleted. */
    ghost var openHandles: nat

    /** The handle is the only open AudioManager: none is leaked. */
    ghost predicate Valid()
      reads this
    {
      openHandles == if audioManager == null then 0 else 1
    }

    /** Whether this item's playback clock drives the playlist step: the
        cached flag, which only an existing file sets. */
    function ControlsTiming(): (timing: bool)
      reads this
      ensures timing <==> controlsTimingCache
    {
      controlsTimingCache
    }

    /** A new item: no file, no duration, no handle, not timing. */
    constructor ()
      ensures Valid()
      ensures audioFile == "" && durationMS == 0 && !controlsTimingCache && audioManager == null
      ensures changeCount == 0 && volume == -1
    {
      audioFile := "";
      durationMS := 0;
      controlsTimingCache := false;
      audioManager := null;
      changeCount := 0;
      volume := -1;
      openHandles := 0;
    }

    /** An item loaded from its XML node: the "AudioFile" attribute (empty
        when absent) and its duration probed. */
    constructor FromNode(attributes: map<string, string>, media: Media)
      ensures Valid() && audioManager == null && changeCount == 0 && volume == -1
      ensures audioFile == (if "AudioFile" in attributes then attributes["AudioFile"] else "")
      ensures durationMS == ProbedDuration(audioFile, media)
      ensures controlsTimingCache == media.fileExists(audioFile)
    {
      audioFile := "";
      durationMS := 0;
      controlsTimingCache := false;
      audioManager := null;
      changeCount := 0;
      volume := -1;
      openHandles := 0;
      new;
      audioFile := if "AudioFile" in attributes then attributes["AudioFile"] else "";
      FastSetDuration(media);
    }

    /** The title of every audio item. */
    function GetTitle(): (title: string)
      ensures title == "Audio"
    {
      "Audio"
    }

    /** The name shown for the item: the audio file's name, or the title
        when the path has none. */
    function GetNameNoTime(): (name: string)
      reads this
      ensures name != []
      ensures FileName(audioFile) != [] ==> name == FileName(audioFile)
      ensures FileName(audioFile) == [] ==> name == GetTitle()
    {
      var n := FileName(audioFile);
      if n == "" then GetTitle() else n
    }

    /** Sets the duration from a fast probe of the file: 0 when it does not
        exist. An existing file makes the item timing; a missing one does
        not undo that. */
    method FastSetDuration(media: Media)
      modifies this`durationMS, this`controlsTimingCache
      ensures durationMS == ProbedDuration(audioFile, media)
      ensures controlsTimingCache == (old(controlsTimingCache) || media.fileExists(audioFile))
    {
      durationMS := 0;
      if media.fileExists(audioFile) {
        durationMS := media.probeLengthMS(audioFile);
        controlsTimingCache := true;
      }
    }

    /** A new path is stored, probed and counted as one change; the same
        path changes nothing. The open handle, if any, is kept. */
    method SetAudioFile(file: string, media: Media)
      modifies this`audioFile, this`durationMS, this`controlsTimingCache, this`changeCount
      ensures file == old(audioFile) ==> unchanged(this)
      ensures file != old(audioFile) ==>
        && audioFile == file
        && durationMS == ProbedDuration(file, media)
        && controlsTimingCache == (old(controlsTimingCache) || media.fileExists(file))
        && changeCount == old(changeCount) + 1
    {
      if audioFile != file {
        audioFile := file;
        FastSetDuration(media);
        changeCount := changeCount + 1;
      }
    }

    /** Deletes the handle, if any. Without a handle it changes nothing, so
        a second call is a no-op. */
    method CloseFiles()
      requires Valid()
      modifies this`audioManager, this`openHandles
      ensures Valid() && audioManager == null && openHandles == 0
      ensures old(audioManager) == null ==> unchanged(this)
    {
      if audioManager != null {
        audioManager := null;
        openHandles := openHandles - 1;
      }
    }

    /** Releases any handle, then opens the file when it exists: the volume
        is applied when set, the duration becomes the decoder's length and
        the item becomes timing. A missing file leaves no handle and the
        duration and timing flag as they were. */
    method LoadFiles(media: Media)
      requires Valid()
      modifies this`audioManager, this`openHandles, this`durationMS, this`controlsTimingCache
      ensures Valid()
      ensures media.fileExists(audioFile) ==>
        && audioManager != null && fresh(audioManager)
        && audioManager.file == audioFile
        && audioManager.log == (if volume != -1 then [VolumeCmd(volume)] else [])
        && audioManager.position == 0
        && durationMS == audioManager.LengthMS() == media.decodedLengthMS(audioFile)
        && controlsTimingCache
    ensures !media.fileExists(audioFile) ==>
        && audioManager == null
        && durationMS == old(durationMS) && controlsTimingCache == old(controlsTimingCache)
    {
      CloseFiles();
      if media.fileExists(audioFile) {
        var am := new AudioManager(audioFile, media);
        audioManager := am;
        openHandles := openHandles + 1;
        if volume != -1 {
          am.SetVolume(volume);
        }
        durationMS := am.LengthMS();
        controlsTimingCache := true;
      }
    }

    /** Loads the file and, when the item is timing and a handle is open,
        plays it from 0 for its full length. */
    method Start(media: Media)
      requires Valid()
      modifies this
      ensures Valid() && audioFile == old(audioFile) && changeCount == old(changeCount) && volume == old(volume)
      ensures media.fileExists(audioFile) ==>
        && audioManager != null && fresh(audioManager)
        && audioManager.log ==
             (if volume != -1 then [VolumeCmd(volume)] else []) + [PlayCmd(0, audioManager.LengthMS())]
        && audioManager.Tell() == 0
        && durationMS == media.decodedLengthMS(audioFile)
        && ControlsTiming()
      ensures !media.fileExists(audioFile) ==>
        && audioManager == null
        && durationMS == old(durationMS) && controlsTimingCache == old(controlsTimingCache)
    {
      LoadFiles(media);
      if ControlsTiming() && audioManager != null {
        audioManager.Play(0, audioManager.LengthMS());
      }
    }

    /** Stops the handle, if any, and releases it. */
    method Stop()
      requires Valid()
      modifies this, audioManager
      ensures Valid() && audioManager == null
      ensures audioFile == old(audioFile) && durationMS == old(durationMS)
      ensures controlsTimingCache == old(controlsTimingCache)
      ensures changeCount == old(changeCount) && volume == old(volume)
      ensures old(audioManager) != null ==> old(audioManager).log == old(audioManager.log) + [StopCmd]
    {
      if audioManager != null {
        audioManager.Stop();
      }
      CloseFiles();
    }

    /** Pauses or resumes the handle; without one, nothing happens. */
    method Pause(pause: bool)
      modifies audioManager
      ensures audioManager != null ==>
        audioManager.log == old(audioManager.log) + [if pause then PauseCmd else ResumeCmd]
      ensures audioManager != null ==> audioManager.Tell() == old(audioManager.Tell())
    {
      if audioManager != null {
        if pause {
          audioManager.Pause();
        } else {
          audioManager.Resume();
        }
      }
    }

    method Suspend(suspend: bool)
      modifies audioManager
      ensures audioManager != null ==>
        audioManager.log == old(audioManager.log) + [if suspend then PauseCmd else ResumeCmd]
      ensures audioManager != null ==> audioManager.Tell() == old(audioManager.Tell())
    {
      Pause(suspend);
    }

    /** Plays the open file again from the start when the item is timing. */
    method Restart()
      modifies audioManager
      ensures ControlsTiming() && audioManager != null ==>
        && audioManager.log == old(audioManager.log) + [StopCmd, PlayCmd(0, audioManager.LengthMS())]
        && audioManager.Tell() == 0
      ensures !ControlsTiming() && audioManager != null ==> unchanged(audioManager)
    {
      if ControlsTiming() && audioManager != null {
        audioManager.Stop();
        audioManager.Play(0, audioManager.LengthMS());
      }
    }

    /** The playback position: the handle's, when the item is timing and a
        handle is open, and 0 otherwise. */
    method GetPositionMS() returns (position: nat)
      ensures ControlsTiming() && audioManager != null ==> position == audioManager.Tell()
      ensures !ControlsTiming() || audioManager == null ==> position == 0
    {
      if ControlsTiming() && audioManager != null {
        return audioManager.Tell();
      }
      return 0;
    }

    /** A new item with this one's file, duration and timing flag, and no
        handle of its own. */
    method Copy() returns (res: PlayListItemAudio)
      ensures fresh(res) && res.Valid() && res.audioManager == null
      ensures res.audioFile == audioFile && res.durationMS == durationMS
      ensures res.controlsTimingCache == controlsTimingCache
    {
      res := new PlayListItemAudio();
      res.audioFile := audioFile;
      res.durationMS := durationMS;
      res.controlsTimingCache := controlsTimingCache;
    }
  }

  /** The duration a fast probe gives a path: its probed length when the
      file exists, 0 otherwise. */
  function ProbedDuration(file: string, media: Media): (d: nat)
    ensures !media.fileExists(file) ==> d == 0
  {
    if media.fileExists(file) then media.probeLengthMS(file) else 0
  }

  // ---------------------------------------------------------------------
  // Lifecycles

  /** Starting an item whose file is missing opens nothing and reports
      position 0; stopping it afterwards also holds no handle. */
  method StartMissingFile(file: string, media: Media) returns (position: nat, duration: nat, open: bool)
    requires !media.fileExists(file)
    ensures position == 0 && duration == 0 && !open
  {
    var item := new PlayListItemAudio();
    item.SetAudioFile(file, media);
    item.Start(media);
    position := item.GetPositionMS();
    duration := item.durationMS;
    item.Stop();
    open := item.audioManager != null;
  }

  /** Starting an item whose file exists plays it from 0 and makes it the
      clock; stopping it releases the handle, after which the position is
      0 again. When probe and decoder agree, the duration the item shows
      before opening the file equals the one it shows once playing. The
      file system does not change between the calls. */
  method StartThenStop(file: string, media: Media)
    returns (probed: nat, playing: nat, positionPlaying: nat, positionStopped: nat, open: bool)
    requires file != "" && media.fileExists(file)
    ensures positionPlaying == 0 && positionStopped == 0 && !open
    ensures probed == media.probeLengthMS(file) && playing == media.decodedLengthMS(file)
  {
    var item := new PlayListItemAudio();
    item.SetAudioFile(file, media);
    probed := item.durationMS;
    item.Start(media);
    playing := item.durationMS;
    positionPlaying := item.GetPositionMS();
    item.Stop();
    positionStopped := item.GetPositionMS();
    open := item.audioManager != null;
  }
}
