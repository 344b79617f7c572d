/**
 * The yt-dlp command lines built by download_video and download_audio
 * (MTXYTDOWNLOADER.py:124-125, 149-150). Each is one string handed to a
 * shell. Two views are given: the string exactly as the code splices it,
 * and the argument vector it is meant to spell, joined by single spaces.
 * The URL and the folder are spliced in unescaped.
 */
module Commands {

  /** A double-quoted word, as the code writes the tool path and the output template. */
  function Quote(s: string): string {
    "\"" + s + "\""
  }

  /** The subtitle word: `--write-sub` when subtitles are on, empty otherwise. */
  function SubtitleArg(subtitles: bool): string {
    if subtitles then "--write-sub" else ""
  }

  /** The `-f` format selector: the same height bound on both alternatives. */
  function FormatSelector(resolution: string): string {
    "bestvideo[height<=" + resolution + "]+bestaudio/best[height<=" + resolution + "]"
  }

  /** The `-o` output template under the chosen folder. */
  function OutputTemplate(folder: string): string {
    folder + "/%(title)s.%(ext)s"
  }

  /** Words separated by single spaces (an empty word leaves two spaces in a row). */
  function Join(words: seq<string>): string
    decreases |words|
  {
    if |words| == 0 then ""
    else if |words| == 1 then words[0]
    else words[0] + " " + Join(words[1..])
  }

  /** The argument vector of a video download. */
  function VideoArgs(tool: string, subtitles: bool, resolution: string, folder: string, url: string): (args: seq<string>)
    ensures |args| == 9 && args[0] == Quote(tool) && args[8] == url
    ensures args[1] == "--write-sub" <==> subtitles
    ensures args[1] == "" <==> !subtitles
    ensures args[2] == "-f" && args[3] == Quote(FormatSelector(resolution))
    ensures args[4] == "--merge-output-format" && args[5] == "mp4"
    ensures args[6] == "-o" && args[7] == Quote(OutputTemplate(folder))
  {
    [Quote(tool), SubtitleArg(subtitles), "-f", Quote(FormatSelector(resolution)),
     "--merge-output-format", "mp4", "-o", Quote(OutputTemplate(folder)), url]
  }

  /** The argument vector of an audio download. */
  function AudioArgs(tool: string, subtitles: bool, bitrate: string, folder: string, url: string): (args: seq<string>)
    ensures |args| == 12 && args[0] == Quote(tool) && args[11] == url
    ensures args[1] == "--write-sub" <==> subtitles
    ensures args[1] == "" <==> !subtitles
    ensures args[2] == "-x" && args[3] == "--audio-format" && args[4] == "mp3"
    ensures args[5] == "--audio-quality" && args[6] == bitrate
    ensures args[7] == "--embed-metadata" && args[8] == "--embed-thumbnail"
    ensures args[9] == "-o" && args[10] == Quote(OutputTemplate(folder))
  {
    [Quote(tool), SubtitleArg(subtitles), "-x", "--audio-format", "mp3", "--audio-quality", bitrate,
     "--embed-metadata", "--embed-thumbnail", "-o", Quote(OutputTemplate(folder)), url]
  }

  /** The video command string as download_video splices it. */
  function VideoCommand(tool: string, subtitles: bool, resolution: string, folder: string, url: string): (cmd: string)
    ensures |cmd| > |tool| + 3 && cmd[..|tool| + 3] == Quote(tool) + " "
    ensures |cmd| > |url| && cmd[|cmd| - |url| - 1] == ' ' && cmd[|cmd| - |url|..] == url
  {
    "\"" + tool + "\" " + SubtitleArg(subtitles) +
    " -f \"bestvideo[height<=" + resolution + "]+bestaudio/best[height<=" + resolution +
    "]\" --merge-output-format mp4 -o \"" + folder + "/%(title)s.%(ext)s\" " + url
  }

  /** The audio command string as download_audio splices it. */
  function AudioCommand(tool: string, subtitles: bool, bitrate: string, folder: string, url: string): (cmd: string)
    ensures |cmd| > |tool| + 3 && cmd[..|tool| + 3] == Quote(tool) + " "
    ensures |cmd| > |url| && cmd[|cmd| - |url| - 1] == ' ' && cmd[|cmd| - |url|..] == url
  {
    "\"" + tool + "\" " + SubtitleArg(subtitles) +
    " -x --audio-format mp3 --audio-quality " + bitrate +
    " --embed-metadata --embed-thumbnail -o \"" + folder + "/%(title)s.%(ext)s\" " + url
  }

  /** Appending a word to a non-empty vector appends a space and the word. */
  lemma {:induction false} JoinSnoc(words: seq<string>, w: string)
    requires words != []
    ensures Join(words + [w]) == Join(words) + " " + w
    decreases |words|
  {
    if |words| == 1 {
      assert (words + [w])[1..] == [w];
    } else {
      assert (words + [w])[1..] == words[1..] + [w];
      JoinSnoc(words[1..], w);
    }
  }

  /** Nine and twelve words, joined left to right. */
  lemma Join9(w0: string, w1: string, w2: string, w3: string, w4: string, w5: string, w6: string, w7: string, w8: string)
    ensures Join([w0, w1, w2, w3, w4, w5, w6, w7, w8]) == w0 + " " + w1 + " " + w2 + " " + w3 + " " + w4 + " " + w5 + " " + w6 + " " + w7 + " " + w8
  {
    JoinSnoc([w0], w1);
    assert [w0] + [w1] == [w0, w1];
    JoinSnoc([w0, w1], w2);
    assert [w0, w1] + [w2] == [w0, w1, w2];
    JoinSnoc([w0, w1, w2], w3);
    assert [w0, w1, w2] + [w3] == [w0, w1, w2, w3];
    JoinSnoc([w0, w1, w2, w3], w4);
    assert [w0, w1, w2, w3] + [w4] == [w0, w1, w2, w3, w4];
    JoinSnoc([w0, w1, w2, w3, w4], w5);
    assert [w0, w1, w2, w3, w4] + [w5] == [w0, w1, w2, w3, w4, w5];
    JoinSnoc([w0, w1, w2, w3, w4, w5], w6);
    assert [w0, w1, w2, w3, w4, w5] + [w6] == [w0, w1, w2, w3, w4, w5, w6];
    JoinSnoc([w0, w1, w2, w3, w4, w5, w6], w7);
    assert [w0, w1, w2, w3, w4, w5, w6] + [w7] == [w0, w1, w2, w3, w4, w5, w6, w7];
    JoinSnoc([w0, w1, w2, w3, w4, w5, w6, w7], w8);
    assert [w0, w1, w2, w3, w4, w5, w6, w7] + [w8] == [w0, w1, w2, w3, w4, w5, w6, w7, w8];
  }

  lemma Join12(w0: string, w1: string, w2: string, w3: string, w4: string, w5: string, w6: string, w7: string, w8: string, w9: string, w10: string, w11: string)
    ensures Join([w0, w1, w2, w3, w4, w5, w6, w7, w8, w9, w10, w11]) == w0 + " " + w1 + " " + w2 + " " + w3 + " " + w4 + " " + w5 + " " + w6 + " " + w7 + " " + w8 + " " + w9 + " " + w10 + " " + w11
  {
    JoinSnoc([w0], w1);
    assert [w0] + [w1] == [w0, w1];
    JoinSnoc([w0, w1], w2);
    assert [w0, w1] + [w2] == [w0, w1, w2];
    JoinSnoc([w0, w1, w2], w3);
    assert [w0, w1, w2] + [w3] == [w0, w1, w2, w3];
    JoinSnoc([w0, w1, w2, w3], w4);
    assert [w0, w1, w2, w3] + [w4] == [w0, w1, w2, w3, w4];
    JoinSnoc([w0, w1, w2, w3, w4], w5);
    assert [w0, w1, w2, w3, w4] + [w5] == [w0, w1, w2, w3, w4, w5];
    JoinSnoc([w0, w1, w2, w3, w4, w5], w6);
    assert [w0, w1, w2, w3, w4, w5] + [w6] == [w0, w1, w2, w3, w4, w5, w6];
    JoinSnoc([w0, w1, w2, w3, w4, w5, w6], w7);
    assert [w0, w1, w2, w3, w4, w5, w6] + [w7] == [w0, w1, w2, w3, w4, w5, w6, w7];
    JoinSnoc([w0, w1, w2, w3, w4, w5, w6, w7], w8);
    assert [w0, w1, w2, w3, w4, w5, w6, w7] + [w8] == [w0, w1, w2, w3, w4, w5, w6, w7, w8];
    JoinSnoc([w0, w1, w2, w3, w4, w5, w6, w7, w8], w9);
    assert [w0, w1, w2, w3, w4, w5, w6, w7, w8] + [w9] == [w0, w1, w2, w3, w4, w5, w6, w7, w8, w9];
    JoinSnoc([w0, w1, w2, w3, w4, w5, w6, w7, w8, w9], w10);
    assert [w0, w1, w2, w3, w4, w5, w6, w7, w8, w9] + [w10] == [w0, w1, w2, w3, w4, w5, w6, w7, w8, w9, w10];
    JoinSnoc([w0, w1, w2, w3, w4, w5, w6, w7, w8, w9, w10], w11);
    assert [w0, w1, w2, w3, w4, w5, w6, w7, w8, w9, w10] + [w11] == [w0, w1, w2, w3, w4, w5, w6, w7, w8, w9, w10, w11];
  }

  // Regrouping steps between the spliced strings and the joined words.

  lemma QuotedHead(tool: string, sub: string)
    ensures Quote(tool) + " " + sub == "\"" + tool + "\" " + sub
  {
  }

  lemma QuotedAfterFlag(x: string, s: string)
    ensures x + " " + "-f" + " " + Quote(s) == x + " -f \"" + s + "\""
  {
  }

  lemma SelectorSplice(x: string, resolution: string)
    ensures x + " -f \"" + FormatSelector(resolution) + "\""
         == x + " -f \"bestvideo[height<=" + resolution + "]+bestaudio/best[height<=" + resolution + "]\""
  {
  }

  lemma QuotedSelector(x: string, resolution: string)
    ensures x + " " + "-f" + " " + Quote(FormatSelector(resolution))
         == x + " -f \"bestvideo[height<=" + resolution + "]+bestaudio/best[height<=" + resolution + "]\""
  {
    QuotedAfterFlag(x, FormatSelector(resolution));
    SelectorSplice(x, resolution);
  }

  lemma MergeAndTemplate(x: string, folder: string)
    ensures x + " " + "--merge-output-format" + " " + "mp4" + " " + "-o" + " " + Quote(OutputTemplate(folder))
         == x + " --merge-output-format mp4 -o \"" + folder + "/%(title)s.%(ext)s\""
  {
    assert x + " " + "--merge-output-format" + " " + "mp4" + " " + "-o" == x + " --merge-output-format mp4 -o";
  }

  lemma ClosingQuote(x: string, folder: string)
    ensures x + "]\"" + " --merge-output-format mp4 -o \"" + folder
         == x + "]\" --merge-output-format mp4 -o \"" + folder
  {
  }

  lemma AudioOptions(x: string, bitrate: string)
    ensures x + " " + "-x" + " " + "--audio-format" + " " + "mp3" + " " + "--audio-quality" + " " + bitrate
         == x + " -x --audio-format mp3 --audio-quality " + bitrate
  {
  }

  lemma EmbedAndTemplate(x: string, folder: string)
    ensures x + " " + "--embed-metadata" + " " + "--embed-thumbnail" + " " + "-o" + " " + Quote(OutputTemplate(folder))
         == x + " --embed-metadata --embed-thumbnail -o \"" + folder + "/%(title)s.%(ext)s\""
  {
    assert x + " " + "--embed-metadata" + " " + "--embed-thumbnail" + " " + "-o" == x + " --embed-metadata --embed-thumbnail -o";
  }

  lemma TrailingUrl(x: string, url: string)
    ensures x + "/%(title)s.%(ext)s\"" + " " + url == x + "/%(title)s.%(ext)s\" " + url
  {
  }

  /** The spliced video string is its argument vector joined by spaces. */
  lemma VideoCommandIsJoinedArgs(tool: string, subtitles: bool, resolution: string, folder: string, url: string)
    ensures VideoCommand(tool, subtitles, resolution, folder, url) == Join(VideoArgs(tool, subtitles, resolution, folder, url))
  {
    var a := VideoArgs(tool, subtitles, resolution, folder, url);
    assert a == [a[0], a[1], a[2], a[3], a[4], a[5], a[6], a[7], a[8]];
    Join9(a[0], a[1], a[2], a[3], a[4], a[5], a[6], a[7], a[8]);
    var sub := SubtitleArg(subtitles);
    QuotedHead(tool, sub);
    var c2 := "\"" + tool + "\" " + sub;
    QuotedSelector(c2, resolution);
    var c6 := c2 + " -f \"bestvideo[height<=" + resolution + "]+bestaudio/best[height<=" + resolution;
    MergeAndTemplate(c6 + "]\"", folder);
    ClosingQuote(c6, folder);
    TrailingUrl(c6 + "]\" --merge-output-format mp4 -o \"" + folder, url);
  }

  /** The spliced audio string is its argument vector joined by spaces. */
  lemma AudioCommandIsJoinedArgs(tool: string, subtitles: bool, bitrate: string, folder: string, url: string)
    ensures AudioCommand(tool, subtitles, bitrate, folder, url) == Join(AudioArgs(tool, subtitles, bitrate, folder, url))
  {
    var a := AudioArgs(tool, subtitles, bitrate, folder, url);
    assert a == [a[0], a[1], a[2], a[3], a[4], a[5], a[6], a[7], a[8], a[9], a[10], a[11]];
    Join12(a[0], a[1], a[2], a[3], a[4], a[5], a[6], a[7], a[8], a[9], a[10], a[11]);
    var sub := SubtitleArg(subtitles);
    QuotedHead(tool, sub);
    var c2 := "\"" + tool + "\" " + sub;
    AudioOptions(c2, bitrate);
    var c4 := c2 + " -x --audio-format mp3 --audio-quality " + bitrate;
    EmbedAndTemplate(c4, folder);
    TrailingUrl(c4 + " --embed-metadata --embed-thumbnail -o \"" + folder, url);
  }

  /** `--write-sub` stands at position `at` of the command. */
  predicate HasFlagAt(cmd: string, at: nat) {
    at + 11 <= |cmd| && cmd[at..at + 11] == "--write-sub"
  }

  lemma {:induction false} JoinCons(w: string, rest: seq<string>)
    requires rest != []
    ensures Join([w] + rest) == w + " " + Join(rest)
  {
    assert ([w] + rest)[1..] == rest;
  }

  /**
   * The subtitle word sits right after the quoted tool path and a space;
   * the rest of a command does not depend on it.
   */
  lemma {:induction false} SubtitleSlot(args: seq<string>, at: nat)
    requires |args| >= 3 && at == |args[0]| + 1
    ensures Join(args) == args[0] + " " + args[1] + " " + Join(args[2..])
    ensures Join(args)[..at] == args[0] + " "
    ensures Join(args)[at..] == args[1] + " " + Join(args[2..])
  {
    assert args == [args[0]] + args[1..];
    JoinCons(args[0], args[1..]);
    assert args[1..] == [args[1]] + args[2..];
    assert args[1..][1..] == args[2..];
    JoinCons(args[1], args[2..]);
  }

  /** The flag is present exactly when the subtitle word is `--write-sub` rather than empty. */
  lemma {:induction false} FlagInSlot(args: seq<string>, at: nat)
    requires |args| >= 3 && at == |args[0]| + 1
    requires args[1] == "" || args[1] == "--write-sub"
    ensures HasFlagAt(Join(args), at) <==> args[1] == "--write-sub"
  {
    SubtitleSlot(args, at);
    var rest := args[1] + " " + Join(args[2..]);
    assert Join(args)[at..] == rest;
    if args[1] == "" {
      assert rest[0] == ' ';
      assert Join(args)[at] == ' ';
    } else {
      assert rest[..11] == "--write-sub";
      assert Join(args)[at..at + 11] == rest[..11];
    }
  }

  /** Two vectors that differ only in an empty versus a `--write-sub` subtitle word. */
  lemma {:induction false} FlagInserted(on: seq<string>, off: seq<string>, at: nat)
    requires |on| >= 3 && |off| == |on| && on[0] == off[0] && at == |on[0]| + 1
    requires on[1] == "--write-sub" && off[1] == "" && on[2..] == off[2..]
    ensures Join(on) == Join(off)[..at] + "--write-sub" + Join(off)[at..]
  {
    SubtitleSlot(on, at);
    SubtitleSlot(off, at);
  }

  /**
   * In a video command `--write-sub` follows the quoted tool path exactly
   * when subtitles are on, and switching them on inserts that word and
   * changes nothing else.
   */
  lemma VideoSubtitleFlag(tool: string, subtitles: bool, resolution: string, folder: string, url: string)
    ensures HasFlagAt(VideoCommand(tool, subtitles, resolution, folder, url), |tool| + 3) <==> subtitles
    ensures var off := VideoCommand(tool, false, resolution, folder, url);
      VideoCommand(tool, true, resolution, folder, url) == off[..|tool| + 3] + "--write-sub" + off[|tool| + 3..]
  {
    VideoCommandIsJoinedArgs(tool, subtitles, resolution, folder, url);
    VideoCommandIsJoinedArgs(tool, true, resolution, folder, url);
    VideoCommandIsJoinedArgs(tool, false, resolution, folder, url);
    FlagInSlot(VideoArgs(tool, subtitles, resolution, folder, url), |tool| + 3);
    FlagInserted(VideoArgs(tool, true, resolution, folder, url), VideoArgs(tool, false, resolution, folder, url), |tool| + 3);
  }

  /**
   * In an audio command `--write-sub` follows the quoted tool path exactly
   * when subtitles are on, and switching them on inserts that word and
   * changes nothing else.
   */
  lemma AudioSubtitleFlag(tool: string, subtitles: bool, bitrate: string, folder: string, url: string)
    ensures HasFlagAt(AudioCommand(tool, subtitles, bitrate, folder, url), |tool| + 3) <==> subtitles
    ensures var off := AudioCommand(tool, false, bitrate, folder, url);
      AudioCommand(tool, true, bitrate, folder, url) == off[..|tool| + 3] + "--write-sub" + off[|tool| + 3..]
  {
    AudioCommandIsJoinedArgs(tool, subtitles, bitrate, folder, url);
    AudioCommandIsJoinedArgs(tool, true, bitrate, folder, url);
    AudioCommandIsJoinedArgs(tool, false, bitrate, folder, url);
    FlagInSlot(AudioArgs(tool, subtitles, bitrate, folder, url), |tool| + 3);
    FlagInserted(AudioArgs(tool, true, bitrate, folder, url), AudioArgs(tool, false, bitrate, folder, url), |tool| + 3);
  }

  /**
   * The URL is spliced in unquoted: a URL holding a space gives the command
   * line of the URL's first part followed by one more argument.
   */
  lemma UnquotedUrlSplitsArguments(tool: string, subtitles: bool, resolution: string, folder: string, x: string, y: string)
    ensures VideoCommand(tool, subtitles, resolution, folder, x + " " + y)
         == Join(VideoArgs(tool, subtitles, resolution, folder, x) + [y])
  {
    var a := VideoArgs(tool, subtitles, resolution, folder, x);
    var b := VideoArgs(tool, subtitles, resolution, folder, x + " " + y);
    VideoCommandIsJoinedArgs(tool, subtitles, resolution, folder, x + " " + y);
    assert b == a[..8] + [x + " " + y];
    assert a == a[..8] + [x];
    JoinSnoc(a[..8], x + " " + y);
    JoinSnoc(a[..8], x);
    JoinSnoc(a, y);
  }

  /**
   * Nothing marks where the output folder ends and the URL begins: moving
   * text between the two can leave the command unchanged.
   */
  lemma FolderUrlBoundaryAmbiguous(tool: string, subtitles: bool, resolution: string, folder: string, x: string, url: string)
    ensures var tail := "/%(title)s.%(ext)s\" ";
      VideoCommand(tool, subtitles, resolution, folder + tail + x, url)
      == VideoCommand(tool, subtitles, resolution, folder, x + tail + url)
  {
  }

  /** The same for the audio command: its URL is spliced in unquoted too. */
  lemma UnquotedAudioUrlSplitsArguments(tool: string, subtitles: bool, bitrate: string, folder: string, x: string, y: string)
    ensures AudioCommand(tool, subtitles, bitrate, folder, x + " " + y)
         == Join(AudioArgs(tool, subtitles, bitrate, folder, x) + [y])
  {
    var a := AudioArgs(tool, subtitles, bitrate, folder, x);
    var b := AudioArgs(tool, subtitles, bitrate, folder, x + " " + y);
    AudioCommandIsJoinedArgs(tool, subtitles, bitrate, folder, x + " " + y);
    assert b == a[..11] + [x + " " + y];
    assert a == a[..11] + [x];
    JoinSnoc(a[..11], x + " " + y);
    JoinSnoc(a[..11], x);
    JoinSnoc(a, y);
  }

  /** The same for the audio command: the folder and the URL share no marked boundary. */
  lemma AudioFolderUrlBoundaryAmbiguous(tool: string, subtitles: bool, bitrate: string, folder: string, x: string, url: string)
    ensures var tail := "/%(title)s.%(ext)s\" ";
      AudioCommand(tool, subtitles, bitrate, folder + tail + x, url)
      == AudioCommand(tool, subtitles, bitrate, folder, x + tail + url)
  {
  }
}
