/**
 * Saving the canvas: the rule that picks the file name, and the fixed image size.
 * The file dialog, the rendering and the write itself are not modelled.
 */
module SavePath {
  import opened Wrappers

  /** The scene rectangle set by the window, and so the size of every saved image. */
  const SceneWidth := 800
  const SceneHeight := 600

  /** The file suffixes that are kept as typed, compared without regard to case. */
  const ImageSuffixes: seq<string> := [".png", ".jpg", ".bmp"]
  const DefaultSuffix := ".png"

  /** Lower-cases an ASCII letter and leaves every other character alone. */
  function LowerChar(c: char): char
  {
    if 'A' <= c <= 'Z' then (c as int + 32) as char else c
  }

  /** QString::endsWith(suffix, Qt::CaseInsensitive), for a suffix written in lower case. */
  predicate EndsWithIgnoringCase(s: string, suffix: string)
    ensures EndsWithIgnoringCase(s, suffix) ==> |suffix| <= |s|
    ensures |suffix| <= |s| && s[|s| - |suffix|..] == suffix && (forall c :: c in suffix ==> LowerChar(c) == c) ==>
              EndsWithIgnoringCase(s, suffix)
  {
    |suffix| <= |s| && forall i :: 0 <= i < |suffix| ==> LowerChar(s[|s| - |suffix| + i]) == suffix[i]
  }

  /** The test saveAsImage makes: the path ends in .png, .jpg or .bmp, in any case. */
  predicate HasImageSuffix(path: string)
    ensures HasImageSuffix(path) <==>
      EndsWithIgnoringCase(path, ".png") || EndsWithIgnoringCase(path, ".jpg") || EndsWithIgnoringCase(path, ".bmp")
  {
    assert ImageSuffixes == [ImageSuffixes[0], ImageSuffixes[1], ImageSuffixes[2]];
    exists k :: 0 <= k < |ImageSuffixes| && EndsWithIgnoringCase(path, ImageSuffixes[k])
  }

  /** Appending a suffix makes the string end with it. */
  lemma AppendedSuffixEnds(path: string, suffix: string)
    requires forall i :: 0 <= i < |suffix| ==> LowerChar(suffix[i]) == suffix[i]
    ensures EndsWithIgnoringCase(path + suffix, suffix)
  {
    var s := path + suffix;
    forall i | 0 <= i < |suffix| ensures LowerChar(s[|s| - |suffix| + i]) == suffix[i] {
      assert s[|s| - |suffix| + i] == suffix[i];
    }
  }

  /**
   * The name saveAsImage writes to: none when the dialog gave no path; the path as given
   * when it ends in .png, .jpg or .bmp in any case; otherwise the path with .png added.
   */
  function SaveFileName(path: string): (r: Option<string>)
    ensures r.None? <==> path == []
    ensures r.Some? ==> HasImageSuffix(r.value)
    ensures r.Some? ==> path <= r.value && (r.value == path <==> HasImageSuffix(path))
    ensures r.Some? && r.value != path ==> r.value == path + DefaultSuffix
  {
    if path == [] then None
    else if HasImageSuffix(path) then Some(path)
    else
      AppendedSuffixEnds(path, DefaultSuffix);
      assert EndsWithIgnoringCase(path + DefaultSuffix, ImageSuffixes[0]);
      Some(path + DefaultSuffix)
  }

  /** Choosing the name twice changes nothing more. */
  lemma SaveFileNameIdempotent(path: string)
    requires path != []
    ensures SaveFileName(SaveFileName(path).value) == SaveFileName(path)
  {
  }

  /** A suffix outside the three, such as .jpeg, still gets .png appended. */
  lemma JpegGetsPngAppended()
    ensures SaveFileName("photo.jpeg") == Some("photo.jpeg.png")
  {
    var path := "photo.jpeg";
    assert |path| == 10 && path[6] == 'j' && LowerChar('j') == 'j';
    forall k | 0 <= k < |ImageSuffixes| ensures !EndsWithIgnoringCase(path, ImageSuffixes[k]) {
      var suffix := ImageSuffixes[k];
      assert |suffix| == 4 && suffix[0] == '.';
      assert LowerChar(path[|path| - |suffix| + 0]) != suffix[0];
    }
    assert !HasImageSuffix(path);
    assert path + DefaultSuffix == "photo.jpeg.png";
  }

  /** An accepted suffix is recognised in upper case and kept as typed. */
  lemma UpperCaseSuffixKept()
    ensures SaveFileName("scan.BMP") == Some("scan.BMP")
  {
    var path := "scan.BMP";
    assert EndsWithIgnoringCase(path, ImageSuffixes[2]) by {
      assert LowerChar('B') == 'b' && LowerChar('M') == 'm' && LowerChar('P') == 'p';
    }
  }

  /** What saveAsImage renders: the file it writes and the size of the image. */
  datatype ExportJob = ExportJob(fileName: string, width: int, height: int)

  /**
   * saveAsImage: an empty path aborts; otherwise the image is always the size of the
   * scene rectangle, whatever has been drawn, and goes to a file with an image suffix.
   */
  function ExportTarget(path: string): (job: Option<ExportJob>)
    ensures job.None? <==> path == []
    ensures job.Some? ==> job.value.width == SceneWidth && job.value.height == SceneHeight
    ensures job.Some? ==> HasImageSuffix(job.value.fileName) && path <= job.value.fileName
    ensures job.Some? ==> SaveFileName(path) == Some(job.value.fileName)
  {
    match SaveFileName(path)
    case None => None
    case Some(name) => Some(ExportJob(name, SceneWidth, SceneHeight))
  }
}
