/**
 * The downloader's global state and the handlers its buttons call
 * (MTXYTDOWNLOADER.py:60, 73, 76-81, 105-165), updating that state in
 * place. Each handler is proved against the pure model in Orchestrator;
 * the two JSON files are fields holding their contents.
 */
module App {
  import opened Wrappers
  import opened UserPreferences
  import History
  import Commands
  import opened Orchestrator

  class Downloader {
    /** YTDLP_PATH: the yt-dlp executable beside the program. */
    const ytdlpPath: string
    /** The global `memory` dictionary. */
    var memory: Preferences
    /** The global list `download_history["downloads"]`. */
    var downloads: seq<string>
    /** The contents of user_preferences.json (None: no such file). */
    var memoryFile: Option<Preferences>
    /** The `downloads` list of download_history.json (None: no such file). */
    var historyFile: Option<seq<string>>

    /** What is held in memory is what loading the two files gives. */
    ghost predicate Valid()
      reads this
    {
      memory == UserPreferences.Load(memoryFile) && downloads == History.Load(historyFile)
    }

    /** The two globals as the session model sees them. */
    function Snapshot(): State
      reads this
    {
      State(memory, downloads)
    }

    /** Start-up: load_memory and load_download_history. */
    constructor (ytdlpPath: string, memoryFile: Option<Preferences>, historyFile: Option<seq<string>>)
      ensures Valid()
      ensures this.ytdlpPath == ytdlpPath && this.memoryFile == memoryFile && this.historyFile == historyFile
      ensures Snapshot() == Start(memoryFile, historyFile)
    {
      this.ytdlpPath := ytdlpPath;
      this.memoryFile := memoryFile;
      this.historyFile := historyFile;
      memory := UserPreferences.Load(memoryFile);
      downloads := History.Load(historyFile);
    }

    /** is_duplicate: the URL is already in the history. */
    method IsDuplicate(url: string) returns (dup: bool)
      ensures dup == History.IsDuplicate(downloads, url)
    {
      dup := url in downloads;
    }

    /** add_to_history: append the URL, then save the history file. */
    method AddToHistory(url: string)
      requires Valid()
      modifies this
      ensures Valid()
      ensures downloads == History.Appended(old(downloads), url) && historyFile == Some(downloads)
      ensures memory == old(memory) && memoryFile == old(memoryFile)
    {
      downloads := downloads + [url];
      historyFile := Some(downloads);
    }

    /**
     * download_video: refuse an empty URL, then a duplicate, then a missing
     * output folder; otherwise run the command and record the URL.
     * `resolution` is the resolution dropdown's text and `toolResult` what
     * happened in run_command; an uncaught exception ends the handler there.
     */
    method DownloadVideo(url: string, resolution: string, toolResult: ToolResult) returns (outcome: Outcome)
      requires Valid()
      modifies this
      ensures Valid()
      ensures (outcome, downloads) == Handle(ytdlpPath, old(memory), old(downloads), Request(url, Video(resolution), toolResult))
      ensures memory == old(memory) && memoryFile == old(memoryFile)
      ensures !outcome.Ran? ==> historyFile == old(historyFile)
    {
      if url == "" {
        return MissingUrl;
      }
      var dup := IsDuplicate(url);
      if dup {
        return AlreadyDownloaded;
      }
      var outputDir := memory.outputFolder;
      if outputDir == "" {
        return MissingFolder;
      }
      var command := Commands.VideoCommand(ytdlpPath, memory.subtitles, resolution, outputDir, url);
      if toolResult == Raised {
        return Interrupted(command);
      }
      AddToHistory(url);
      outcome := Ran(command, toolResult);
    }

    /**
     * download_audio: the same checks in the same order; the command
     * extracts mp3 audio at the bitrate dropdown's value.
     */
    method DownloadAudio(url: string, bitrate: string, toolResult: ToolResult) returns (outcome: Outcome)
      requires Valid()
      modifies this
      ensures Valid()
      ensures (outcome, downloads) == Handle(ytdlpPath, old(memory), old(downloads), Request(url, Audio(bitrate), toolResult))
      ensures memory == old(memory) && memoryFile == old(memoryFile)
      ensures !outcome.Ran? ==> historyFile == old(historyFile)
    {
      if url == "" {
        return MissingUrl;
      }
      var dup := IsDuplicate(url);
      if dup {
        return AlreadyDownloaded;
      }
      var outputDir := memory.outputFolder;
      if outputDir == "" {
        return MissingFolder;
      }
      var command := Commands.AudioCommand(ytdlpPath, memory.subtitles, bitrate, outputDir, url);
      if toolResult == Raised {
        return Interrupted(command);
      }
      AddToHistory(url);
      outcome := Ran(command, toolResult);
    }

    /**
     * select_output_folder: `chosen` is what the folder dialog returned; a
     * cancelled dialog (empty) changes and saves nothing.
     */
    method SelectOutputFolder(chosen: string)
      requires Valid()
      modifies this
      ensures Valid()
      ensures memory == WithFolder(old(memory), chosen)
      ensures memoryFile == if chosen != "" then Some(memory) else old(memoryFile)
      ensures downloads == old(downloads) && historyFile == old(historyFile)
    {
      if chosen != "" {
        memory := memory.(outputFolder := chosen);
        memoryFile := Some(memory);
      }
    }

    /** toggle_subtitles: flip the flag, then save the preferences file. */
    method ToggleSubtitles()
      requires Valid()
      modifies this
      ensures Valid()
      ensures memory == Toggled(old(memory)) && memoryFile == Some(memory)
      ensures downloads == old(downloads) && historyFile == old(historyFile)
    {
      memory := memory.(subtitles := !memory.subtitles);
      memoryFile := Some(memory);
    }

    /** A press of one of the window's buttons, dispatched to its handler. */
    method Press(e: Event) returns (outcome: Option<Outcome>)
      requires Valid()
      modifies this
      ensures Valid()
      ensures Snapshot() == Step(ytdlpPath, old(Snapshot()), e)
      ensures e.Download? ==> memoryFile == old(memoryFile)
      ensures !e.Download? ==> historyFile == old(historyFile)
      ensures e.ToggleSubtitles? ==> memoryFile == Some(memory)
      ensures e.SelectOutputFolder? ==> memoryFile == if e.chosen != "" then Some(memory) else old(memoryFile)
      ensures outcome.Some? <==> e.Download?
      ensures e.Download? ==> outcome.value == Handle(ytdlpPath, old(memory), old(downloads), e.req).0
      ensures e.Download? ==> historyFile == if outcome.value.Ran? then Some(downloads) else old(historyFile)
    {
      match e {
        case Download(Request(url, Video(resolution), toolResult)) =>
          var o := DownloadVideo(url, resolution, toolResult);
          outcome := Some(o);
        case Download(Request(url, Audio(bitrate), toolResult)) =>
          var o := DownloadAudio(url, bitrate, toolResult);
          outcome := Some(o);
        case ToggleSubtitles =>
          ToggleSubtitles();
          outcome := None;
        case SelectOutputFolder(chosen) =>
          SelectOutputFolder(chosen);
          outcome := None;
      }
    }
  }
}
