# MTX YT Downloader — request-handling core in Dafny

This project models the request-handling core of MTX YT Downloader
(`MTXYTDOWNLOADER.py`). The program is a Tkinter front-end that builds yt-dlp
command lines. The model has four parts:

- **Preferences** (`UserPreferences`). The `memory` record has the keys
  `output_folder`, `video_resolution`, `audio_quality` and `subtitles`. It has
  documented defaults, the subtitle toggle and the guarded folder update.
- **Download history** (`History`). This is the ordered list of URLs. It has
  an exact-match duplicate test and an append at the end.
- **Command builders** (`Commands`). These are the two f-strings of
  `download_video` and `download_audio`, written as the code splices them.
  Lemmas relate each one to the argument vector it spells, joined by spaces.
- **Decision sequence** (`Orchestrator`, `App`). The checks run in this order:
  empty URL, then duplicate, then missing output folder. After that the
  command is built and run, and the URL is appended. `Orchestrator` states
  this as pure functions for one request (`Handle`) and for a session of button
  presses (`Step`, `Run`). `App.Downloader` is a class that holds the two
  globals and the contents of the two JSON files. Its handlers update them in
  place, and each handler is proved against `Handle`, `Toggled` or `WithFolder`.

Inputs from the outside world are parameters:

- the text of the URL field;
- the values read from the resolution and bitrate dropdowns;
- the folder returned by the folder dialog (empty when cancelled);
- what happened inside `run_command` (`ToolResult`);
- whether each JSON file exists, and what it holds (`Option`);
- the yt-dlp path.

## Behaviour as written

The model follows the code as written. It adds none of the following
safeguards:

- **URL check.** The check is `not url`. A URL made only of whitespace is not
  refused as empty, and no trimming takes place (`Handle`: `MissingUrl`
  exactly when the URL is `""`).
- **Duplicate test.** The test is exact string equality. No normalisation
  takes place.
- **No escaping.** The URL is spliced unquoted. The folder is placed inside
  double quotes without escaping. `UnquotedUrlSplitsArguments` shows that a
  video URL with a space becomes two space-separated words of the command
  line, and `UnquotedAudioUrlSplitsArguments` shows the same for audio.
  `FolderUrlBoundaryAmbiguous` and `AudioFolderUrlBoundaryAmbiguous` show that two different (folder, URL)
  pairs can give the same command line. So the command line does not mark
  where the URL begins and ends. Because the command runs through a shell, an
  `&` in an ordinary playlist URL (`watch?v=…&list=…`) separates commands.
- **Failed downloads are recorded.** `run_command` catches `CalledProcessError`,
  so `add_to_history` runs after a failed download too. A failed URL is then
  refused as a duplicate later (`ToolResultIgnored`, `RepeatIsDuplicate`).
  Only `CalledProcessError` is caught. Any other exception in `run_command`
  leaves the handler before `add_to_history`, so the URL is not recorded.
  Examples are a command line `subprocess.run` refuses, a shell that cannot
  start, or a failing message box or speech engine. Such a request's outcome
  is `Interrupted`.
- **Defaults only when a file is absent.** A file that exists is returned as
  `json.load` gives it. A malformed file is not caught and does not fall back
  to the defaults.

## Model

| member | source | states |
|---|---|---|
| `UserPreferences.Load` | MTXYTDOWNLOADER.py:50-54 | The stored record when the file exists. When it is absent, the defaults: empty folder, resolution "best", quality "128", subtitles off |
| `UserPreferences.Toggled` | MTXYTDOWNLOADER.py:163-165 | The subtitle flag is negated. Folder, resolution and quality are unchanged |
| `UserPreferences.ToggleTwice` | MTXYTDOWNLOADER.py:163-165 | Toggling twice restores the record |
| `UserPreferences.WithFolder` | MTXYTDOWNLOADER.py:155-159 | A non-empty chosen folder replaces the output folder. An empty choice leaves the record unchanged. The other fields never change |
| `UserPreferences.FolderNeverCleared` | MTXYTDOWNLOADER.py:155-159 | After a selection, the folder is empty exactly when it was empty before and the dialog was cancelled |
| `History.Load` | MTXYTDOWNLOADER.py:63-67 | The stored list when the file exists. When it is absent, the empty list |
| `History.IsDuplicate` | MTXYTDOWNLOADER.py:76-77 | True exactly when some stored entry is equal to the URL as a string |
| `History.Appended` | MTXYTDOWNLOADER.py:79-81 | Grows by one. The URL is last. Every earlier entry keeps its index |
| `History.AppendedDuplicates` | MTXYTDOWNLOADER.py:76-81 | After an append, the URL is a duplicate. Any other string is a duplicate exactly when it was before |
| `History.AppendKeepsNoRepeats` | MTXYTDOWNLOADER.py:76-81 | Appending a URL that is not yet a duplicate keeps a repeat-free history repeat-free |
| `Commands.VideoArgs` | MTXYTDOWNLOADER.py:124-125 | Nine words: the quoted tool path first, the URL last. The subtitle word is `--write-sub` exactly when subtitles are on and empty otherwise. Then come `-f` and the quoted selector, which uses the same height bound twice. Then `--merge-output-format mp4`. Then `-o` and the quoted output template `<folder>/%(title)s.%(ext)s` |
| `Commands.AudioArgs` | MTXYTDOWNLOADER.py:149-150 | Twelve words: the quoted tool path first, the URL last. The subtitle word is as for video. Then `-x --audio-format mp3`. Then `--audio-quality` followed by the bitrate. Then `--embed-metadata --embed-thumbnail`. Then `-o` and the quoted template |
| `Commands.VideoCommand` | MTXYTDOWNLOADER.py:124-125 | The string begins with the double-quoted tool path and a space. It ends with a space and then the URL verbatim |
| `Commands.AudioCommand` | MTXYTDOWNLOADER.py:149-150 | The string begins with the double-quoted tool path and a space. It ends with a space and then the URL verbatim |
| `Commands.VideoCommandIsJoinedArgs` | MTXYTDOWNLOADER.py:124-125 | The spliced video string equals its argument vector joined by single spaces |
| `Commands.AudioCommandIsJoinedArgs` | MTXYTDOWNLOADER.py:149-150 | The spliced audio string equals its argument vector joined by single spaces |
| `Commands.VideoSubtitleFlag` | MTXYTDOWNLOADER.py:124-125 | `--write-sub` stands right after the quoted tool path exactly when subtitles are on. Turning them on inserts that word there and changes nothing else |
| `Commands.AudioSubtitleFlag` | MTXYTDOWNLOADER.py:149-150 | The same for the audio command |
| `Commands.UnquotedUrlSplitsArguments` | MTXYTDOWNLOADER.py:125 | A video URL `x y` gives the command line of URL `x` followed by one more space-separated word `y`. The URL is not quoted |
| `Commands.UnquotedAudioUrlSplitsArguments` | MTXYTDOWNLOADER.py:150 | An audio URL `x y` gives the command line of URL `x` followed by one more space-separated word `y` |
| `Commands.AudioFolderUrlBoundaryAmbiguous` | MTXYTDOWNLOADER.py:150 | Moving text between the folder and the URL of an audio command across `/%(title)s.%(ext)s" ` leaves the command unchanged |
| `Commands.FolderUrlBoundaryAmbiguous` | MTXYTDOWNLOADER.py:125 | Moving text between the folder and the URL across `/%(title)s.%(ext)s" ` leaves the command unchanged. Nothing is escaped |
| `Orchestrator.Handle` | MTXYTDOWNLOADER.py:105-152 | `MissingUrl` exactly for the empty URL. `AlreadyDownloaded` exactly for a non-empty URL already in the history. `MissingFolder` exactly when both checks pass and the output folder is empty. Otherwise the mode's command is built. If an uncaught exception escapes the run, the outcome is `Interrupted` and the history is unchanged. If not, the outcome is `Ran` and the history gains exactly the URL at its end. Every refusal leaves the history unchanged |
| `Orchestrator.ToolResultIgnored` | MTXYTDOWNLOADER.py:93-102 | A success or a failure of the tool gives the same outcome kind, the same command and the same history. An uncaught exception leaves the history unchanged |
| `Orchestrator.RepeatIsDuplicate` | MTXYTDOWNLOADER.py:105-127 | After a request that ran, the next request for the same URL is refused as a duplicate. This holds in either mode and under any preferences |
| `Orchestrator.FreshInstallNeedsFolder` | MTXYTDOWNLOADER.py:117-122 | With neither file present, every non-empty URL is refused for the missing output folder |
| `Orchestrator.NoticeFor` | MTXYTDOWNLOADER.py:93-122 | The two input errors give a warning titled "Input Error". Only a failed tool run gives an error box, and its text is "An error occurred: " followed by the exception's text. The notice of a run ended by an uncaught exception is not modelled |
| `Orchestrator.Step` | MTXYTDOWNLOADER.py:105-165 | A download press changes only the history. A toggle or folder press changes only the preferences |
| `Orchestrator.SessionHistoryGrows` | MTXYTDOWNLOADER.py:105-152 | Over any sequence of presses, the history keeps its old entries as a prefix. Every entry gained is a non-empty URL of one of the session's download requests |
| `Orchestrator.SessionKeepsNoRepeats` | MTXYTDOWNLOADER.py:105-152 | A history without repeats stays without repeats over any session |
| `Orchestrator.SessionKeepsFolder` | MTXYTDOWNLOADER.py:155-165 | Once an output folder is set, no sequence of presses empties it |
| `App.Downloader.constructor` | MTXYTDOWNLOADER.py:50-73 | The globals are loaded from the file contents. The in-memory state matches the files |
| `App.Downloader.IsDuplicate` | MTXYTDOWNLOADER.py:76-77 | True exactly when the URL occurs in the current history |
| `App.Downloader.AddToHistory` | MTXYTDOWNLOADER.py:79-81 | The history gains the URL at its end and the history file is saved with it. The preferences are untouched |
| `App.Downloader.DownloadVideo` | MTXYTDOWNLOADER.py:105-127 | The outcome and the new history are those of `Handle` in video mode. The preferences are unchanged. After a refusal, the history file is unchanged |
| `App.Downloader.DownloadAudio` | MTXYTDOWNLOADER.py:130-152 | The outcome and the new history are those of `Handle` in audio mode. The preferences are unchanged. After a refusal, the history file is unchanged |
| `App.Downloader.SelectOutputFolder` | MTXYTDOWNLOADER.py:155-160 | The preferences become `WithFolder`. The file is saved only when a folder was chosen. The history is untouched |
| `App.Downloader.ToggleSubtitles` | MTXYTDOWNLOADER.py:163-167 | The preferences become `Toggled` and the file is saved. The history is untouched |
| `App.Downloader.Press` | MTXYTDOWNLOADER.py:212-222 | A button press changes the globals exactly as `Step` does. Download presses report `Handle`'s outcome and leave the preferences file unchanged. Other presses leave the history file unchanged. A toggle press saves the new preferences. A folder press saves them only when a folder was chosen. A download press writes the history file only when the outcome is `Ran`, with the new history |

## Left out

- The Tkinter window, its widgets, the exit dialog and `mainloop` are presentation only. The dropdowns and the URL field appear as parameters.
- Text-to-speech (`speak`, `pyttsx3`) and the unused `speech_recognition` import are left out. The spoken phrase of each download outcome other than `Interrupted` is recorded in `NoticeFor`. The phrases for the toggle and for the folder update are not modelled.
- `subprocess.run(..., shell=True)` runs an external process. Its result is the `ToolResult` parameter. How a shell splits the command is not modelled. The four splice lemmas speak only of the words joined by single spaces.
- JSON reading and writing and `os.path.exists` are file I/O. Each file is a field that holds its contents, or `None` when the file is absent. Malformed JSON and records with missing or extra keys are not modelled, because the code does not handle them. The fixed-shape record assumes well-formed files.
- The keys `video_resolution` and `audio_quality` are loaded and saved but never read by the handlers. The dropdowns start at "1080" and "128" on their own.
- `Orchestrator.NoticeFor`: the notice of an `Interrupted` run is not modelled and is given as `None`. The exception may escape before any message box or after one. For example, `speak` can raise after the Success box (lines 96-97) or after the Error box (lines 101-102) has been shown.
- `Orchestrator.Handle`, `App.Downloader.DownloadVideo`, `App.Downloader.DownloadAudio`: a failed save is not modelled. If `save_download_history` raises, the URL stays in the in-memory history but not in the file. The model always writes the file, so it does not capture that state.
- `App.Downloader.ToggleSubtitles`, `App.Downloader.SelectOutputFolder`, `App.Downloader.Press`: a failed `save_memory` is not modelled. The model always writes the preferences file when the source calls `save_memory`.
- `download_multiple_videos` is left out because its point is concurrency through `ThreadPoolExecutor`. It also passes raw URLs to `run_command` as commands.
- `check_dependencies` is left out. It checks the filesystem and calls `sys.exit`.
- Logging and `log_error` are left out as an output sink.
- `YTDLP_PATH` is computed from the program's directory with `os.path.join`. Here it is the parameter `ytdlpPath`. `FFMPEG_PATH` is used only by the dependency check.
