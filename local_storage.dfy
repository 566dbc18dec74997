/**
 * The default file storage of the back end (`services/storage/local.py`):
 * uploaded files are written under one directory with a fresh name, made of
 * a random hex identifier and the original file's extension, and are
 * served back under "/static/uploads/". The file system is a map from path
 * to content; the random identifier is a parameter.
 */
module LocalStorage {
  import opened Text

  // ---------------------------------------------------------------------------
  // Path names, with the rules of Python's `pathlib.PurePosixPath`.

  /** A path component pathlib keeps: empty ones and "." are dropped when a path is parsed. */
  predicate Kept(c: string) {
    c != "" && c != "."
  }

  /**
   * `Path(p).name`: the last component pathlib keeps, "" when there is none
   * (the root, ".", or an empty path).
   */
  function Name(p: string): (r: string)
    ensures '/' !in r
    ensures r == "" || Kept(r)
    ensures |r| <= |p|
    decreases |p|
  {
    var last := AfterLast(p, '/');
    if Kept(last) then last
    else if |last| < |p| then Name(p[..|p| - |last| - 1])
    else ""
  }

  /** A trailing slash, or a trailing "." component, does not change the name. */
  lemma NameIgnoresTrailing(p: string)
    ensures Name(p + "/") == Name(p)
    ensures Name(p + "/.") == Name(p)
  {
    assert (p + "/")[..|p|] == p;
    assert p + "/." == p + ['/'] + ".";
    AfterLastSeparator(p, ".", '/');
    assert (p + "/.")[..|p|] == p;
  }

  /** Neither the root nor the working directory has a name. */
  lemma NamelessPaths()
    ensures Name("/") == "" && Name(".") == "" && Name("") == ""
  {
    assert "/"[..0] == "";
    assert AfterLast(".", '/') == ".";
  }

  /** A kept component without a slash is the name of itself and of any path it is joined to. */
  lemma NameOfJoined(dir: string, name: string)
    requires Kept(name) && '/' !in name
    ensures Name(Join(dir, name)) == name
    ensures Name(name) == name
  {
    AfterLastAbsent(name, '/');
    if dir != "" && dir != "." {
      if dir[|dir| - 1] == '/' {
        assert dir == dir[..|dir| - 1] + ['/'];
        NameAfterSeparator(dir[..|dir| - 1], name);
      } else {
        NameAfterSeparator(dir, name);
      }
    }
  }

  /** What follows the last slash is the name, when it is kept. */
  lemma NameAfterSeparator(head: string, name: string)
    requires Kept(name) && '/' !in name
    ensures Name(head + ['/'] + name) == name
  {
    AfterLastSeparator(head, name, '/');
  }

  /**
   * `Path(name).suffix`: from the last dot of the name on, provided that dot
   * is neither the first character nor the last; "" otherwise.
   */
  function Suffix(name: string): (r: string)
    ensures r != [] ==> |r| >= 2 && r[0] == '.' && '.' !in r[1..]
    ensures |r| < |name| || r == []
  {
    var after := AfterLast(name, '.');
    if after != [] && |after| < |name| - 1 then "." + after else ""
  }

  /** A name with an extension after a non-empty stem has that extension as its suffix. */
  lemma SuffixOfExtension(stem: string, ext: string)
    requires stem != "" && ext != "" && '.' !in ext
    ensures Suffix(stem + "." + ext) == "." + ext
  {
    assert stem + "." + ext == stem + ['.'] + ext;
    AfterLastSeparator(stem, ext, '.');
  }

  /** The suffix is the tail of the name, after at least one character. */
  lemma SuffixIsTail(name: string)
    ensures Suffix(name) == name[|name| - |Suffix(name)|..]
  {
    AfterLastIsSuffix(name, '.');
    DotThenTail(name, AfterLast(name, '.'));
  }

  /** The text after the last dot, with the dot, is a tail too. */
  lemma DotThenTail(name: string, after: string)
    requires |after| <= |name| && after == name[|name| - |after|..]
    requires |after| < |name| ==> name[|name| - |after| - 1] == '.'
    ensures var r := if after != [] && |after| < |name| - 1 then "." + after else "";
      r == name[|name| - |r|..]
  {
    if after != [] && |after| < |name| - 1 {
      var k := |name| - |after|;
      assert name[k - 1..] == [name[k - 1]] + name[k..];
    }
  }

  /** A name without a dot has no suffix. */
  lemma NoDotNoSuffix(name: string)
    requires '.' !in name
    ensures Suffix(name) == ""
  {
    AfterLastAbsent(name, '.');
  }

  /** Nor has a hidden file's name, whose only dot is its first character. */
  lemma LeadingDotNoSuffix(name: string)
    requires |name| >= 1 && name[0] == '.' && '.' !in name[1..]
    ensures Suffix(name) == ""
  {
    assert name == [] + ['.'] + name[1..];
    AfterLastSeparator([], name[1..], '.');
  }

  /** What `uuid.uuid4().hex` produces: 32 lower-case hexadecimal digits. */
  predicate UuidHex(h: string) {
    |h| == 32 && forall i :: 0 <= i < |h| ==> ('0' <= h[i] <= '9' || 'a' <= h[i] <= 'f')
  }

  /** Lines 25-26: the stored name, the identifier followed by the uploaded file's suffix. */
  function StoredName(hex: string, filename: string): (r: string)
    requires UuidHex(hex)
    ensures |r| >= 32 && r[..32] == hex
    ensures '/' !in r
    ensures filename == "" ==> r == hex
    ensures filename != "" ==> r == hex + Suffix(Name(filename))
  {
    var ext := if filename != "" then Suffix(Name(filename)) else "";
    assert '/' !in ext by {
      if ext != [] {
        var name := Name(filename);
        SuffixIsTail(name);
        forall i | 0 <= i < |ext| ensures ext[i] != '/' {
          assert ext[i] == name[|name| - |ext| + i];
        }
      }
    }
    hex + ext
  }

  /** The stored file keeps the uploaded file's extension, so it is served with the same type. */
  lemma StoredNameKeepsSuffix(hex: string, filename: string)
    requires UuidHex(hex)
    ensures Suffix(StoredName(hex, filename)) == if filename == "" then "" else Suffix(Name(filename))
  {
    if filename == "" || Suffix(Name(filename)) == "" {
      NoDotNoSuffix(hex);
    } else {
      var after := AfterLast(Name(filename), '.');
      assert '.' !in after;
      assert StoredName(hex, filename) == hex + ['.'] + after;
      AfterLastSeparator(hex, after, '.');
    }
  }

  /** An uploaded "report.pdf", or any such name, is stored as the identifier followed by ".pdf". */
  lemma StoredNameKeepsExtension(hex: string, dir: string, stem: string, ext: string)
    requires UuidHex(hex)
    requires stem != "" && ext != "" && '/' !in stem && '/' !in ext && '.' !in ext
    ensures StoredName(hex, Join(dir, stem + "." + ext)) == hex + "." + ext
  {
    var name := stem + "." + ext;
    assert '/' !in name by {
      forall i | 0 <= i < |name| ensures name[i] != '/' {
        if i < |stem| { assert name[i] == stem[i]; }
        else if i > |stem| { assert name[i] == ext[i - |stem| - 1]; }
      }
    }
    NameOfJoined(dir, name);
    SuffixOfExtension(stem, ext);
  }

  /** Two different identifiers never give the same stored name, whatever the files are called. */
  lemma StoredNamesDistinct(hex1: string, filename1: string, hex2: string, filename2: string)
    requires UuidHex(hex1) && UuidHex(hex2) && hex1 != hex2
    ensures StoredName(hex1, filename1) != StoredName(hex2, filename2)
  {
    assert StoredName(hex1, filename1)[..32] != StoredName(hex2, filename2)[..32];
  }

  /**
   * Line 27: `upload_dir / name` as `str` prints it; the directory is given as
   * pathlib prints it, so "" and "." both stand for the working directory and
   * only the root ends in a slash.
   */
  function Join(dir: string, name: string): (r: string)
    ensures dir != "" && dir != "." ==> StartsWith(r, dir)
    ensures dir != "" && dir[|dir| - 1] == '/' ==> r == dir + name
    ensures dir != "" && dir != "." && dir[|dir| - 1] != '/' ==> r == dir + "/" + name
  {
    if dir == "" || dir == "." then name
    else if dir[|dir| - 1] == '/' then dir + name
    else dir + "/" + name
  }

  /** Line 44: the URL the static file server answers for a stored file. */
  function GetUrl(path: string): (r: string)
    ensures StartsWith(r, "/static/uploads/")
    ensures '/' !in r[16..]
  {
    assert ("/static/uploads/" + Name(path))[16..] == Name(path);
    "/static/uploads/" + Name(path)
  }

  /** The URL depends on the last path component only, not on the directory the file lies in. */
  lemma UrlIgnoresDirectory(dir1: string, dir2: string, name: string)
    requires Kept(name) && '/' !in name
    ensures GetUrl(Join(dir1, name)) == GetUrl(Join(dir2, name)) == "/static/uploads/" + name
  {
    NameOfJoined(dir1, name);
    NameOfJoined(dir2, name);
  }

  /** The URL of an uploaded file names exactly the stored name. */
  lemma UploadedUrl(dir: string, hex: string, filename: string)
    requires UuidHex(hex)
    ensures GetUrl(Join(dir, StoredName(hex, filename))) == "/static/uploads/" + StoredName(hex, filename)
  {
    assert StoredName(hex, filename)[0] != '.';
    UrlIgnoresDirectory(dir, "", StoredName(hex, filename));
  }

  // ---------------------------------------------------------------------------
  // The storage.

  class LocalFileStorage {
    /** `UPLOAD_DIR`, as pathlib prints it. */
    const uploadDir: string
    /** The files under the directory: path to content. */
    var files: map<string, seq<bv8>>

    /** Lines 18-20: the directory, with whatever it already holds. */
    constructor (uploadDir: string, existing: map<string, seq<bv8>>)
      ensures this.uploadDir == uploadDir && files == existing
    {
      this.uploadDir := uploadDir;
      files := existing;
    }

    /**
     * Lines 22-32: writes the data under a fresh name and returns its path;
     * `hex` is the random identifier. A file already at that path is
     * overwritten, as opening it for writing does.
     */
    method Upload(fileData: seq<bv8>, filename: string, contentType: string, hex: string) returns (path: string)
      requires UuidHex(hex)
      modifies this
      ensures path == Join(uploadDir, StoredName(hex, filename))
      ensures files == old(files)[path := fileData]
    {
      var ext := if filename != "" then Suffix(Name(filename)) else "";
      var uniqueName := hex + ext;
      path := Join(uploadDir, uniqueName);
      files := files[path := fileData];
    }

    /** Lines 34-40: removes the file if it is there and says whether it was. */
    method Delete(filePath: string) returns (existed: bool)
      modifies this
      ensures existed <==> filePath in old(files)
      ensures files == old(files) - {filePath}
      ensures !existed ==> files == old(files)
    {
      existed := filePath in files;
      if existed {
        files := files - {filePath};
      }
    }

    /** Line 44. */
    method Url(filePath: string) returns (url: string)
      ensures url == GetUrl(filePath)
    {
      url := "/static/uploads/" + Name(filePath);
    }
  }

  /** Uploading a fresh file and deleting the returned path gives back the files as they were. */
  lemma UploadThenDelete(files: map<string, seq<bv8>>, path: string, data: seq<bv8>)
    requires path !in files
    ensures files[path := data] - {path} == files
  {
    assert (files[path := data] - {path}).Keys == files.Keys;
  }
}
