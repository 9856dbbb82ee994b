/** `get_download_url`: the download URL of a result file. */
module UrlUtils {
  import Text

  /** The file name part: what follows the last `/`, or the whole name when it has none. */
  function FileName(filename: string): (r: string)
    ensures '/' !in r
    ensures '/' !in filename ==> r == filename
    ensures '/' in filename ==> |r| < |filename| && filename[|filename| - |r| - 1] == '/' && filename[|filename| - |r|..] == r
  {
    if '/' in filename then Text.AfterLast(filename, '/') else filename
  }

  /** `BASE_URL` + `DOWNLOAD_URL_PREFIX` (together `downloadBase`) + `/` + the file name. */
  function GetDownloadUrl(downloadBase: string, filename: string): (r: string)
    ensures r == downloadBase + "/" + FileName(filename)
  {
    downloadBase + "/" + FileName(filename)
  }

  /** Passing a path or just its file name gives the same URL. */
  lemma PathOrName(downloadBase: string, dir: string, name: string)
    requires '/' !in name
    ensures GetDownloadUrl(downloadBase, dir + "/" + name) == GetDownloadUrl(downloadBase, name)
  {
    var p := dir + "/" + name;
    assert p[|dir|] == '/';
    var i := Text.RFind(p, '/');
    assert i == |dir| by {
      assert forall k :: |dir| < k < |p| ==> p[k] == name[k - |dir| - 1];
    }
    assert p[i + 1..] == name;
  }
}
