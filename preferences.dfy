/**
 * The preferences record that the downloader keeps in its global `memory`
 * dictionary and persists as JSON in user_preferences.json
 * (MTXYTDOWNLOADER.py:26, 50-60).
 */
module UserPreferences {
  import opened Wrappers

  /** The four keys of the preferences file, in a fixed shape. */
  datatype Preferences = Preferences(
    outputFolder: string,
    videoResolution: string,
    audioQuality: string,
    subtitles: bool)

  /** The record used when the preferences file does not exist. */
  function Defaults(): Preferences {
    Preferences("", "best", "128", false)
  }

  /**
   * load_memory: the stored record when the file exists, the documented
   * defaults otherwise. `stored` is the file's contents (None: no file).
   */
  function Load(stored: Option<Preferences>): (p: Preferences)
    ensures stored.Some? ==> p == stored.value
    ensures stored.None? ==>
      p.outputFolder == "" && p.videoResolution == "best" &&
      p.audioQuality == "128" && !p.subtitles
  {
    match stored
    case Some(saved) => saved
    case None => Defaults()
  }

  /** toggle_subtitles: flips the subtitle flag and touches nothing else. */
  function Toggled(p: Preferences): (r: Preferences)
    ensures r.subtitles == !p.subtitles
    ensures r.outputFolder == p.outputFolder
    ensures r.videoResolution == p.videoResolution && r.audioQuality == p.audioQuality
  {
    p.(subtitles := !p.subtitles)
  }

  /** Toggling twice gives back the record one started from. */
  lemma ToggleTwice(p: Preferences)
    ensures Toggled(Toggled(p)) == p
  {
  }

  /**
   * select_output_folder: the folder the dialog returned replaces the
   * output folder, unless the dialog was cancelled (an empty string).
   */
  function WithFolder(p: Preferences, chosen: string): (r: Preferences)
    ensures chosen != "" ==> r.outputFolder == chosen
    ensures chosen == "" ==> r == p
    ensures r.subtitles == p.subtitles
    ensures r.videoResolution == p.videoResolution && r.audioQuality == p.audioQuality
  {
    if chosen != "" then p.(outputFolder := chosen) else p
  }

  /**
   * Selecting a folder never clears one: the output folder is empty
   * afterwards exactly when it was empty before and the dialog was cancelled.
   */
  lemma FolderNeverCleared(p: Preferences, chosen: string)
    ensures WithFolder(p, chosen).outputFolder == "" <==> p.outputFolder == "" && chosen == ""
  {
  }
}
