/** Upload helpers: the audio type check, the upload size probe, the saved path, file removal. */
module Files {
  import Text

  /** The file system: each path holds its bytes. Removing a path in `locked` raises (a
      permission error, say); every other operation succeeds. */
  class FileSystem {
    var files: map<string, seq<bv8>>
    const locked: set<string>

    constructor(files: map<string, seq<bv8>>, locked: set<string>)
      ensures this.files == files && this.locked == locked
    {
      this.files := files;
      this.locked := locked;
    }

    /** `os.path.exists`. */
    predicate Exists(path: string)
      reads this
    {
      path in files
    }

    /** `os.path.exists(p)` then `os.remove(p)` inside `try`, as `delete_file` and the service's
        cleanup do it: True exactly when the file existed and was removed. */
    method RemoveIfExists(path: string) returns (removed: bool)
      modifies this
      ensures removed <==> (path in old(files) && path !in locked)
      ensures files == if removed then old(files) - {path} else old(files)
    {
      if path in files && path !in locked {
        files := files - {path};
        return true;
      }
      return false;
    }
  }

  /** `os.path.splitext(p)[1]` on POSIX: from the last `.` after the last `/`, unless everything
      before that dot in the final component is dots (a hidden file has no extension). */
  function Ext(p: string): (e: string)
    ensures e == [] || (e[0] == '.' && |e| <= |p| && p[|p| - |e|..] == e)
  {
    var sep := Text.RFind(p, '/');
    var dot := Text.RFind(p, '.');
    if dot > sep && HasNonDot(p, sep + 1, dot) then p[dot..] else []
  }

  /** Some character of `p[lo..hi]` is not a dot. */
  predicate HasNonDot(p: string, lo: int, hi: int)
    requires 0 <= lo <= hi <= |p|
  {
    exists k :: lo <= k < hi && p[k] != '.'
  }

  const AudioExtensions: seq<string> := [".mp3", ".wav", ".m4a", ".ogg", ".flac"]
  const AudioMimeTypes: seq<string> :=
    ["audio/mpeg", "audio/mp3", "audio/wav", "audio/x-wav", "audio/m4a", "audio/ogg", "audio/flac", "audio/x-flac"]

  /** `validate_audio_file`: the lower-cased extension is an audio extension, or the declared
      content type is an audio MIME type. */
  function ValidAudioFile(filename: string, contentType: string): (ok: bool)
    ensures contentType in AudioMimeTypes ==> ok
    ensures Ext(filename) == [] ==> (ok <==> contentType in AudioMimeTypes)
  {
    Text.Lower(Ext(filename)) in AudioExtensions || contentType in AudioMimeTypes
  }

  /** A dot followed by characters that are neither a dot nor a path separator: the shape of
      every extension `splitext` returns. */
  predicate IsExtShape(e: string) {
    e != [] && e[0] == '.' && forall k :: 0 < k < |e| ==> e[k] != '.' && e[k] != '/'
  }

  /** The final path component of `stem` has a character other than a dot. */
  predicate HasStem(stem: string) {
    HasNonDot(stem, Text.RFind(stem, '/') + 1, |stem|)
  }

  /** `RFind` is fixed by the facts its contract states. */
  lemma RFindIs(s: string, c: char, r: int)
    requires -1 <= r < |s| && (r >= 0 ==> s[r] == c)
    requires forall k :: r < k < |s| ==> s[k] != c
    ensures Text.RFind(s, c) == r
  {
  }

  /** `splitext(stem + e)[1] == e` when `e` has an extension's shape and `stem` names a file. */
  lemma ExtOfStemAndSuffix(stem: string, e: string)
    requires IsExtShape(e) && HasStem(stem)
    ensures Ext(stem + e) == e
  {
    var q := stem + e;
    var sep := Text.RFind(stem, '/');
    RFindIs(q, '/', sep);
    RFindIs(q, '.', |stem|);
    var k :| sep + 1 <= k < |stem| && stem[k] != '.';
    assert q[k] != '.';
    assert q[|stem|..] == e;
  }

  /** A name that is a dot and an extension-shaped rest (`.mp3`) is a hidden file: it has no
      extension, so only the content type can make it valid. */
  lemma HiddenFileHasNoExt(e: string, contentType: string)
    requires IsExtShape(e)
    ensures Ext(e) == []
    ensures ValidAudioFile(e, contentType) <==> contentType in AudioMimeTypes
  {
    RFindIs(e, '/', -1);
    RFindIs(e, '.', 0);
  }

  /** Lower-casing leaves dots and separators where they were. */
  lemma ExtShapeOfLower(e: string)
    requires IsExtShape(Text.Lower(e))
    ensures IsExtShape(e)
  {
    assert forall k :: 0 <= k < |e| ==> Text.Lower(e)[k] == Text.LowerChar(e[k]);
  }

  /** A listed extension in any letter case is accepted whatever the content type. */
  lemma ListedExtensionAccepted(stem: string, e: string, contentType: string)
    requires Text.Lower(e) in AudioExtensions && HasStem(stem)
    ensures ValidAudioFile(stem + e, contentType)
  {
    assert IsExtShape(Text.Lower(e));
    ExtShapeOfLower(e);
    ExtOfStemAndSuffix(stem, e);
  }

  /** An extension that is not listed, with a content type that is not listed either, is
      refused. */
  lemma UnlistedRefused(stem: string, e: string, contentType: string)
    requires IsExtShape(e) && HasStem(stem)
    requires Text.Lower(e) !in AudioExtensions && contentType !in AudioMimeTypes
    ensures !ValidAudioFile(stem + e, contentType)
  {
    ExtOfStemAndSuffix(stem, e);
  }

  /** A plain name with no dot and no separator has a stem. */
  lemma PlainStem(stem: string)
    requires stem != [] && forall k :: 0 <= k < |stem| ==> stem[k] != '.' && stem[k] != '/'
    ensures HasStem(stem)
  {
    RFindIs(stem, '/', -1);
    assert stem[0] != '.';
  }

  /** `song.MP3` uploaded as `application/octet-stream` is accepted. */
  lemma UpperCaseExtensionExample()
    ensures ValidAudioFile("song.MP3", "application/octet-stream")
  {
    PlainStem("song");
    assert Text.Lower(".MP3") == ".mp3";
    ListedExtensionAccepted("song", ".MP3", "application/octet-stream");
    assert "song" + ".MP3" == "song.MP3";
  }

  /** `notes.txt` sent as `text/plain` is refused. */
  lemma UnlistedExample()
    ensures !ValidAudioFile("notes.txt", "text/plain")
  {
    PlainStem("notes");
    assert Text.Lower(".txt") == ".txt";
    UnlistedRefused("notes", ".txt", "text/plain");
    assert "notes" + ".txt" == "notes.txt";
  }

  /** `.mp3` sent as `application/octet-stream` is refused: it is a hidden file, not an MP3. */
  lemma HiddenFileExample()
    ensures !ValidAudioFile(".mp3", "application/octet-stream")
  {
    HiddenFileHasNoExt(".mp3", "application/octet-stream");
  }

  lemma RFindLower(p: string, c: char)
    requires c == '.' || c == '/'
    ensures Text.RFind(Text.Lower(p), c) == Text.RFind(p, c)
  {
    var q := Text.Lower(p);
    assert forall k :: 0 <= k < |p| ==> (q[k] == c <==> p[k] == c);
  }

  /** Lower-casing commutes with taking the extension, so the check is case-insensitive:
      `Photo.MP3` and `photo.mp3` are judged alike. */
  lemma ExtOfLower(p: string)
    ensures Ext(Text.Lower(p)) == Text.Lower(Ext(p))
  {
    var q := Text.Lower(p);
    RFindLower(p, '.');
    RFindLower(p, '/');
    var sep := Text.RFind(p, '/');
    var dot := Text.RFind(p, '.');
    if dot > sep {
      assert HasNonDot(q, sep + 1, dot) <==> HasNonDot(p, sep + 1, dot) by {
        assert forall k :: 0 <= k < |p| ==> (q[k] == '.' <==> p[k] == '.');
      }
      assert q[dot..] == Text.Lower(p[dot..]);
    }
  }

  /** The validity of an upload depends on its file name only through the lower-cased name. */
  lemma ValidAudioFileCaseInsensitive(f: string, g: string, contentType: string)
    requires Text.Lower(f) == Text.Lower(g)
    ensures ValidAudioFile(f, contentType) == ValidAudioFile(g, contentType)
  {
    ExtOfLower(f);
    ExtOfLower(g);
    LowerIdempotent(Ext(f));
    LowerIdempotent(Ext(g));
    assert Text.Lower(Text.Lower(Ext(f))) == Text.Lower(Ext(Text.Lower(g)));
  }

  lemma LowerIdempotent(s: string)
    ensures Text.Lower(Text.Lower(s)) == Text.Lower(s)
  {
  }

  /** The path `save_upload_file` writes: the upload directory joined with the task id and the
      lower-cased extension. */
  function UploadPath(uploadDir: string, taskId: string, filename: string): string {
    Text.PathJoin(uploadDir, taskId + Text.Lower(Ext(filename)))
  }

  /** An upload: its bytes and the stream position. */
  class Upload {
    const content: seq<bv8>
    var position: int

    constructor(content: seq<bv8>, position: int)
      ensures this.content == content && this.position == position
    {
      this.content := content;
      this.position := position;
    }

    /** `get_file_size_mb`: seeks to the end to read the size, then restores the position. */
    method SizeMb() returns (mb: real)
      modifies this
      ensures mb == |content| as real / (1024 * 1024) as real
      ensures position == old(position)
    {
      var current := position;
      position := |content|;
      var size := position;
      position := current;
      return size as real / (1024 * 1024) as real;
    }

    /** `save_upload_file`: rewinds the stream and copies all of it to the upload path. */
    method SaveTo(fs: FileSystem, uploadDir: string, taskId: string, filename: string) returns (path: string)
      modifies this, fs
      ensures path == UploadPath(uploadDir, taskId, filename)
      ensures fs.files == old(fs.files)[path := content]
      ensures position == |content|
    {
      path := UploadPath(uploadDir, taskId, filename);
      position := 0;
      fs.files := fs.files[path := content[position..]];
      position := |content|;
    }
  }

  /** `delete_file`: True exactly when the file existed and was removed; it never raises. */
  method DeleteFile(fs: FileSystem, path: string) returns (ok: bool)
    modifies fs
    ensures ok <==> (path in old(fs.files) && path !in fs.locked)
    ensures fs.files == if ok then old(fs.files) - {path} else old(fs.files)
  {
    ok := fs.RemoveIfExists(path);
  }
}
