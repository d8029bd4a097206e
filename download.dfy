/**
 * The yt-dlp configuration used to fetch the audio track of a video, and the
 * file name template the audio is written to.
 */
module Download {
  import opened Json
  import opened Strings

  const FormatKey: string := "format"
  const TemplateKey: string := "outtmpl"
  const BestAudio: string := "bestaudio/best"

  /** The switches that keep yt-dlp silent and limited to a single video. */
  const QuietFlags: set<string> := {"quiet", "noplaylist", "no_warnings", "noprogress", "no_color"}

  /** `get_youtube_download_opts(output_path)` */
  function YoutubeDownloadOpts(outputPath: string): (r: Value)
    ensures r.Obj?
    ensures r.fields.Keys == QuietFlags + {FormatKey, TemplateKey, "logger"}
    ensures r.fields[FormatKey] == Str(BestAudio)
    ensures r.fields[TemplateKey] == Str(outputPath)
    ensures forall k :: k in QuietFlags ==> r.fields[k] == Bool(true)
    ensures r.fields["logger"] == Null
  {
    Obj(map[
      FormatKey := Str(BestAudio),
      TemplateKey := Str(outputPath),
      "quiet" := Bool(true),
      "noplaylist" := Bool(true),
      "no_warnings" := Bool(true),
      "noprogress" := Bool(true),
      "logger" := Null,
      "no_color" := Bool(true)])
  }

  /** The output path is the only thing the options depend on, and it can be
      read back from them: two option sets agree exactly when their paths do,
      and otherwise differ in the template entry alone. */
  lemma OptsDependOnlyOnPath(p: string, q: string)
    ensures YoutubeDownloadOpts(p) == YoutubeDownloadOpts(q) <==> p == q
    ensures forall k :: k in YoutubeDownloadOpts(p).fields && k != TemplateKey ==>
              YoutubeDownloadOpts(p).fields[k] == YoutubeDownloadOpts(q).fields[k]
  {
    if YoutubeDownloadOpts(p) == YoutubeDownloadOpts(q) {
      assert Str(p) == YoutubeDownloadOpts(p).fields[TemplateKey];
    }
  }

  /** `MEDIA_ROOT / 'temp_audio' / '%(id)s.%(ext)s'`: yt-dlp fills in the
      video id and the audio extension. */
  const AudioDir: string := "temp_audio"
  const NameTemplate: string := "%(id)s.%(ext)s"

  /** The output path handed to `get_youtube_download_opts` by
      `download_youtube_audio`. */
  function OutputTemplate(mediaRoot: string): (r: string)
    ensures StartsWith(r, mediaRoot)
    ensures EndsWith(r, "/" + AudioDir + "/" + NameTemplate)
    ensures |r| == |mediaRoot| + 1 + |AudioDir| + 1 + |NameTemplate|
  {
    var suffix := "/" + AudioDir + "/" + NameTemplate;
    assert (mediaRoot + suffix)[..|mediaRoot|] == mediaRoot;
    assert (mediaRoot + suffix)[|mediaRoot|..] == suffix;
    mediaRoot + suffix
  }

  /** The options used for the fixture path: best audio, written to that path,
      without console output. */
  lemma OptsForFixturePath()
    ensures var opts := YoutubeDownloadOpts("/path/to/output");
            && opts.fields[FormatKey] == Str("bestaudio/best")
            && opts.fields[TemplateKey] == Str("/path/to/output")
            && opts.fields["quiet"] == Bool(true)
  {
  }
}
