/**
 * The request decision sequence shared by download_video and
 * download_audio (MTXYTDOWNLOADER.py:105-152), as pure functions: one
 * request against the preferences and the history, and a whole session of
 * button presses. The class in module App runs the same steps in place.
 */
module Orchestrator {
  import opened Wrappers
  import opened UserPreferences
  import History
  import Commands

  /** The button pressed, with the value its dropdown held at that moment. */
  datatype Mode = Video(resolution: string) | Audio(bitrate: string)

  /**
   * What happened inside run_command. It catches CalledProcessError and
   * reports it; `detail` stands for the exception's text. `Raised` is any
   * other exception (subprocess.run refusing the command line, the shell
   * not starting, the message box or the speech engine failing): it is not
   * caught and leaves the handler before add_to_history.
   */
  datatype ToolResult = Completed | ProcessError(detail: string) | Raised

  /** A result that run_command handled itself: the run reached add_to_history. */
  type CaughtResult = r: ToolResult | !r.Raised? witness Completed

  /** One press of a download button: the URL field's text, the mode, and what the tool will do. */
  datatype Request = Request(url: string, mode: Mode, result: ToolResult)

  /** How a request ends. */
  datatype Outcome =
    | MissingUrl
    | AlreadyDownloaded
    | MissingFolder
    | Ran(command: string, result: CaughtResult)
    | Interrupted(command: string)

  /** The command line for a request that passed every check. */
  function BuildCommand(tool: string, prefs: Preferences, mode: Mode, url: string): string {
    match mode
    case Video(resolution) => Commands.VideoCommand(tool, prefs.subtitles, resolution, prefs.outputFolder, url)
    case Audio(bitrate) => Commands.AudioCommand(tool, prefs.subtitles, bitrate, prefs.outputFolder, url)
  }

  /**
   * One request: the empty URL is refused first, then a URL already in the
   * history, then a missing output folder; otherwise the command is run
   * and the URL is appended whether the tool succeeded or failed, unless an
   * uncaught exception escaped run_command. Returns the outcome and the
   * history afterwards.
   */
  function Handle(tool: string, prefs: Preferences, history: seq<string>, req: Request): (r: (Outcome, seq<string>))
    ensures r.0 == MissingUrl <==> req.url == ""
    ensures r.0 == AlreadyDownloaded <==> req.url != "" && History.IsDuplicate(history, req.url)
    ensures r.0 == MissingFolder <==>
      req.url != "" && !History.IsDuplicate(history, req.url) && prefs.outputFolder == ""
    ensures r.0.Interrupted? <==>
      req.url != "" && !History.IsDuplicate(history, req.url) && prefs.outputFolder != "" && req.result == Raised
    ensures (r.0.Ran? || r.0.Interrupted?) ==> r.0.command == BuildCommand(tool, prefs, req.mode, req.url)
    ensures r.0.Ran? ==> r.0.result == req.result
    ensures !r.0.Ran? ==> r.1 == history
    ensures r.0.Ran? ==> r.1 == History.Appended(history, req.url)
  {
    if req.url == "" then (MissingUrl, history)
    else if History.IsDuplicate(history, req.url) then (AlreadyDownloaded, history)
    else if prefs.outputFolder == "" then (MissingFolder, history)
    else
      var command := BuildCommand(tool, prefs, req.mode, req.url);
      if req.result == Raised then (Interrupted(command), history)
      else (Ran(command, req.result), History.Appended(history, req.url))
  }

  /**
   * The tool's success or failure changes neither which outcome a request
   * gets nor the history: a failed download is recorded like a finished one.
   * Only an exception that escapes run_command keeps the URL out.
   */
  lemma ToolResultIgnored(tool: string, prefs: Preferences, history: seq<string>, url: string, mode: Mode, a: ToolResult, b: ToolResult)
    ensures var ra, rb := Handle(tool, prefs, history, Request(url, mode, a)), Handle(tool, prefs, history, Request(url, mode, b));
      (a.Raised? == b.Raised? ==>
        ra.1 == rb.1 && ra.0.Ran? == rb.0.Ran? && (!ra.0.Ran? ==> ra.0 == rb.0)
        && (ra.0.Ran? ==> ra.0.command == rb.0.command))
      && (a.Raised? ==> ra.1 == history)
  {
  }

  /**
   * A request that ran makes the next request for the same URL a duplicate,
   * whatever its mode and whatever preferences changed in between.
   */
  lemma RepeatIsDuplicate(tool: string, prefs: Preferences, history: seq<string>, req: Request, prefs': Preferences, req': Request)
    requires Handle(tool, prefs, history, req).0.Ran?
    requires req'.url == req.url
    ensures Handle(tool, prefs', Handle(tool, prefs, history, req).1, req').0 == AlreadyDownloaded
  {
  }

  /**
   * With neither file present, every non-empty URL is refused for want of an
   * output folder: the defaults leave it empty.
   */
  lemma FreshInstallNeedsFolder(tool: string, req: Request)
    requires req.url != ""
    ensures Handle(tool, UserPreferences.Load(None), History.Load(None), req).0 == MissingFolder
  {
  }

  /** The kind of message box a notice opens. */
  datatype DialogKind = Warning | Info | Error

  /** The message box and the spoken phrase that report an outcome. */
  datatype Notice = Notice(kind: DialogKind, title: string, text: string, spoken: string)

  /**
   * The message box and phrase of each outcome (MTXYTDOWNLOADER.py:96-102,
   * 107-108, 112-113, 120-121). The notice of an interrupted run is not
   * modelled (None): the exception may escape before or after a message box.
   */
  function NoticeFor(o: Outcome): (n: Option<Notice>)
    ensures n.None? <==> o.Interrupted?
    ensures n.Some? ==> (n.value.kind == Warning <==> o.MissingUrl? || o.MissingFolder?)
    ensures n.Some? ==> (n.value.kind == Error <==> o.Ran? && o.result.ProcessError?)
    ensures n.Some? ==> (n.value.title == "Input Error" <==> n.value.kind == Warning)
    ensures o.Ran? && o.result.ProcessError? ==> n.Some? && n.value.text == "An error occurred: " + o.result.detail
  {
    match o
    case MissingUrl => Some(Notice(Warning, "Input Error", "Please enter a valid URL.", "Please enter a valid URL."))
    case AlreadyDownloaded =>
      Some(Notice(Info, "Duplicate File", "This URL has already been downloaded.", "This file has already been downloaded."))
    case MissingFolder =>
      Some(Notice(Warning, "Input Error", "Please select an output folder.", "Please select an output folder."))
    case Ran(_, result) =>
      if result.ProcessError? then
        Some(Notice(Error, "Error", "An error occurred: " + result.detail,
                    "An error occurred during the download. Please check the logs."))
      else
        Some(Notice(Info, "Success", "Download completed successfully!", "Download completed successfully."))
    case Interrupted(_) => None
  }

  // A session: the buttons of the window pressed one after another.

  /** A press of one of the window's buttons. */
  datatype Event = Download(req: Request) | ToggleSubtitles | SelectOutputFolder(chosen: string)

  /** The two global records: `memory` and `download_history["downloads"]`. */
  datatype State = State(prefs: Preferences, history: seq<string>)

  /** The state at start-up, from the two files' contents (None: file absent). */
  function Start(storedPrefs: Option<Preferences>, storedHistory: Option<seq<string>>): State {
    State(UserPreferences.Load(storedPrefs), History.Load(storedHistory))
  }

  /** One button press. */
  function Step(tool: string, s: State, e: Event): (t: State)
    ensures e.Download? ==> t.prefs == s.prefs
    ensures !e.Download? ==> t.history == s.history
  {
    match e
    case Download(req) => s.(history := Handle(tool, s.prefs, s.history, req).1)
    case ToggleSubtitles => s.(prefs := Toggled(s.prefs))
    case SelectOutputFolder(chosen) => s.(prefs := WithFolder(s.prefs, chosen))
  }

  /** A sequence of button presses, in order. */
  function Run(tool: string, s: State, events: seq<Event>): State
    decreases |events|
  {
    if events == [] then s else Run(tool, Step(tool, s, events[0]), events[1..])
  }

  /** URL of some download request among the events. */
  ghost predicate Requested(events: seq<Event>, url: string) {
    exists j :: 0 <= j < |events| && events[j].Download? && events[j].req.url == url
  }

  /**
   * Over a session the history only grows at its end, and every entry it
   * gains is the non-empty URL of one of the session's download requests.
   */
  lemma {:induction false} SessionHistoryGrows(tool: string, s: State, events: seq<Event>)
    ensures var t := Run(tool, s, events);
      |s.history| <= |t.history| && t.history[..|s.history|] == s.history
      && forall i :: |s.history| <= i < |t.history| ==> t.history[i] != "" && Requested(events, t.history[i])
    decreases |events|
  {
    if events != [] {
      var s' := Step(tool, s, events[0]);
      var t := Run(tool, s, events);
      SessionHistoryGrows(tool, s', events[1..]);
      assert |s.history| <= |s'.history| && s'.history[..|s.history|] == s.history;
      forall i | |s.history| <= i < |t.history|
        ensures t.history[i] != "" && Requested(events, t.history[i])
      {
        if i < |s'.history| {
          assert t.history[i] == s'.history[i];
          assert events[0].Download? && i == |s.history| && s'.history[i] == events[0].req.url;
        } else {
          var j :| 0 <= j < |events[1..]| && events[1..][j].Download? && events[1..][j].req.url == t.history[i];
          assert events[j + 1] == events[1..][j];
        }
      }
    }
  }

  /**
   * Starting from a history without repeats, no session stores a URL twice:
   * the duplicate check guards every append.
   */
  lemma {:induction false} SessionKeepsNoRepeats(tool: string, s: State, events: seq<Event>)
    requires History.NoRepeats(s.history)
    ensures History.NoRepeats(Run(tool, s, events).history)
    decreases |events|
  {
    if events != [] {
      var s' := Step(tool, s, events[0]);
      if events[0].Download? && Handle(tool, s.prefs, s.history, events[0].req).0.Ran? {
        History.AppendKeepsNoRepeats(s.history, events[0].req.url);
      }
      SessionKeepsNoRepeats(tool, s', events[1..]);
    }
  }

  /** Once an output folder is chosen, no later press empties it. */
  lemma {:induction false} SessionKeepsFolder(tool: string, s: State, events: seq<Event>)
    requires s.prefs.outputFolder != ""
    ensures Run(tool, s, events).prefs.outputFolder != ""
    decreases |events|
  {
    if events != [] {
      SessionKeepsFolder(tool, Step(tool, s, events[0]), events[1..]);
    }
  }
}
