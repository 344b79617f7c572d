/**
 * The download history: the list `download_history["downloads"]` of URLs,
 * persisted as JSON in download_history.json (MTXYTDOWNLOADER.py:27, 63-81).
 */
module History {
  import opened Wrappers

  /**
   * load_download_history: the stored list when the file exists, the empty
   * list otherwise. `stored` is the file's `downloads` list (None: no file).
   */
  function Load(stored: Option<seq<string>>): (h: seq<string>)
    ensures stored.None? ==> h == []
    ensures stored.Some? ==> h == stored.value
  {
    match stored
    case Some(saved) => saved
    case None => []
  }

  /**
   * is_duplicate: an exact string match against some stored entry; no
   * trimming, case folding or other normalisation.
   */
  function IsDuplicate(history: seq<string>, url: string): (b: bool)
    ensures b <==> exists i :: 0 <= i < |history| && history[i] == url
  {
    url in history
  }

  /** add_to_history: the URL goes at the end; earlier entries keep their places. */
  function Appended(history: seq<string>, url: string): (h: seq<string>)
    ensures |h| == |history| + 1
    ensures h[|history|] == url
    ensures forall i :: 0 <= i < |history| ==> h[i] == history[i]
  {
    history + [url]
  }

  /** After the append, the URL is a duplicate and so is every earlier one, and nothing else is. */
  lemma AppendedDuplicates(history: seq<string>, url: string, other: string)
    ensures IsDuplicate(Appended(history, url), url)
    ensures IsDuplicate(Appended(history, url), other) <==> other == url || IsDuplicate(history, other)
  {
  }

  /** No URL is stored twice. */
  ghost predicate NoRepeats(history: seq<string>) {
    forall i, j :: 0 <= i < j < |history| ==> history[i] != history[j]
  }

  /** Appending only URLs that are not yet duplicates keeps the history free of repeats. */
  lemma AppendKeepsNoRepeats(history: seq<string>, url: string)
    requires NoRepeats(history) && !IsDuplicate(history, url)
    ensures NoRepeats(Appended(history, url))
  {
  }
}
