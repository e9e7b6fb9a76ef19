// The backend image upload service: size and extension checks, the public id
// derived from the file name, and the hand-off to the image host (a function
// parameter). File reading is an outcome parameter.
module CloudinaryService {
  import opened Wrappers
  import opened BackendErrors
  import Text
  import Seqs

  datatype UploadResult = UploadResult(url: string, publicId: string, width: int, height: int, format: string, size: int)

  /** `filepath.Ext`: the suffix from the last '.' of the final path element, or
      "" when that element has no '.'. */
  function Ext(path: string): (e: string)
    ensures |e| <= |path| && e == path[|path| - |e|..]
    decreases |path|
  {
    if path == [] then ""
    else
      var c := path[|path| - 1];
      if c == '/' then ""
      else if c == '.' then "."
      else
        var e := Ext(path[..|path| - 1]);
        if e == "" then "" else e + [c]
  }

  /** An extension starts at a dot and holds no other dot and no separator. */
  lemma {:induction false} ExtShape(path: string)
    ensures Ext(path) == "" || (Ext(path)[0] == '.' && forall k :: 1 <= k < |Ext(path)| ==> Ext(path)[k] != '.' && Ext(path)[k] != '/')
    decreases |path|
  {
    if path != [] && path[|path| - 1] != '/' && path[|path| - 1] != '.' {
      var init := path[..|path| - 1];
      ExtShape(init);
      var e := Ext(init);
      if e != "" {
        assert Ext(path) == e + [path[|path| - 1]];
      }
    }
  }

  /** A final path element without '.' has no extension. */
  lemma {:induction false} ExtEmptyWithoutDot(path: string)
    requires forall k :: 0 <= k < |path| ==> path[k] != '.'
    ensures Ext(path) == ""
    decreases |path|
  {
    if path != [] {
      ExtEmptyWithoutDot(path[..|path| - 1]);
    }
  }

  /** One more character that is neither '.' nor '/' extends a found extension. */
  lemma ExtAppendPlain(init: string, c: char)
    requires c != '.' && c != '/'
    ensures Ext(init + [c]) == if Ext(init) == "" then "" else Ext(init) + [c]
  {
    assert (init + [c])[..|init + [c]| - 1] == init;
  }

  lemma SplitLast(path: string, i: int)
    requires -1 <= i && i + 1 < |path|
    ensures path == path[..|path| - 1] + [path[|path| - 1]]
    ensures path[..|path| - 1][..i + 1] == path[..i + 1]
    ensures path[i + 1..] == path[..|path| - 1][i + 1..] + [path[|path| - 1]]
  {
  }

  lemma {:induction false} ExtSkipsTail(path: string, i: int)
    requires -1 <= i < |path|
    requires forall k :: i < k < |path| ==> path[k] != '.' && path[k] != '/'
    ensures Ext(path) == if Ext(path[..i + 1]) == "" then "" else Ext(path[..i + 1]) + path[i + 1..]
    decreases |path| - i
  {
    if i + 1 < |path| {
      var init := path[..|path| - 1];
      var c := path[|path| - 1];
      SplitLast(path, i);
      ExtSkipsTail(init, i);
      ExtAppendPlain(init, c);
      Seqs.Assoc(Ext(path[..i + 1]), init[i + 1..], [c]);
    } else {
      assert path[..i + 1] == path;
    }
  }

  /** Go's loop from the end of the name towards the last separator. */
  method FilepathExt(path: string) returns (ext: string)
    ensures ext == Ext(path)
  {
    var i := |path| - 1;
    while i >= 0 && path[i] != '/'
      invariant -1 <= i < |path|
      invariant forall k :: i < k < |path| ==> path[k] != '.' && path[k] != '/'
    {
      if path[i] == '.' {
        ExtSkipsTail(path, i);
        assert Ext(path[..i + 1]) == ".";
        return path[i..];
      }
      i := i - 1;
    }
    ExtSkipsTail(path, i);
    return "";
  }

  function TrimPrefix(s: string, prefix: string): string
  {
    if prefix <= s then s[|prefix|..] else s
  }

  function TrimSuffix(s: string, suffix: string): string
  {
    if |suffix| <= |s| && s[|s| - |suffix|..] == suffix then s[..|s| - |suffix|] else s
  }

  /** The extension as the type check reads it: lower-cased without its dot. */
  function ExtensionOf(filename: string): (r: string)
    ensures forall k :: 0 <= k < |r| ==> r[k] != '.' && r[k] != '/'
  {
    ExtShape(filename);
    var e := Ext(filename);
    Text.Lower(TrimPrefix(e, "."))
  }

  /** The public id requested from the host: the name without its extension, '_'
      and the nanosecond timestamp. */
  function PublicId(filename: string, timestamp: int): (r: string)
    ensures r == filename[..|filename| - |Ext(filename)|] + "_" + Text.IntToString(timestamp)
  {
    TrimSuffix(filename, Ext(filename)) + "_" + Text.IntToString(timestamp)
  }

  predicate Allowed(ext: string, allowedTypes: seq<string>)
  {
    exists k :: 0 <= k < |allowedTypes| && ext == Text.Lower(allowedTypes[k])
  }

  /** The allow-list scan: true as soon as one entry, lower-cased, equals `ext`. */
  method IsAllowedFileType(ext: string, allowedTypes: seq<string>) returns (ok: bool)
    ensures ok <==> Allowed(ext, allowedTypes)
  {
    var i := 0;
    while i < |allowedTypes|
      invariant 0 <= i <= |allowedTypes|
      invariant forall k :: 0 <= k < i ==> ext != Text.Lower(allowedTypes[k])
    {
      if ext == Text.Lower(allowedTypes[i]) {
        return true;
      }
      i := i + 1;
    }
    return false;
  }

  /** Upload of one file: the size check, then the type check, then the read,
      then the upload under the derived public id. `upload(folder, publicId)` is
      the host's answer, None for a failed upload. */
  method UploadImage(filename: string, size: int, maxSize: int, allowedTypes: seq<string>, folder: string,
                     readOk: bool, timestamp: int, upload: (string, string) -> Option<UploadResult>)
    returns (r: Result<UploadResult, ServiceError>)
    ensures size > maxSize ==> r == Err(FileTooLarge)
    ensures size <= maxSize && !Allowed(ExtensionOf(filename), allowedTypes) ==> r == Err(InvalidFileType)
    ensures size <= maxSize && Allowed(ExtensionOf(filename), allowedTypes) ==>
      r == if !readOk then Err(Internal("failed to read file"))
           else if upload(folder, PublicId(filename, timestamp)).None? then Err(UploadFailed)
           else Ok(upload(folder, PublicId(filename, timestamp)).value)
  {
    if size > maxSize {
      return Err(FileTooLarge);
    }
    var dotted := FilepathExt(filename);
    var ext := Text.Lower(TrimPrefix(dotted, "."));
    var allowed := IsAllowedFileType(ext, allowedTypes);
    if !allowed {
      return Err(InvalidFileType);
    }
    if !readOk {
      return Err(Internal("failed to read file"));
    }
    var suffix := FilepathExt(filename);
    var publicId := TrimSuffix(filename, suffix) + "_" + Text.IntToString(timestamp);
    var result := upload(folder, publicId);
    if result.None? {
      return Err(UploadFailed);
    }
    return Ok(result.value);
  }

  /** The extension of a path is what follows its last dot, when no separator
      comes after that dot. */
  lemma ExtAfterLastDot(path: string, i: nat)
    requires i < |path| && path[i] == '.'
    requires forall k :: i < k < |path| ==> path[k] != '.' && path[k] != '/'
    ensures Ext(path) == path[i..]
  {
    ExtSkipsTail(path, i);
    assert path[..i + 1][i] == '.';
    assert Ext(path[..i + 1]) == ".";
  }

  /** The extension check is case-insensitive on both sides and keeps only what
      follows the last dot. */
  lemma PngExtension()
    ensures ExtensionOf("photo.final.PNG") == "png"
  {
    var name := "photo.final.PNG";
    ExtAfterLastDot(name, 11);
    assert name[11..] == ".PNG";
    assert TrimPrefix(".PNG", ".") == "PNG";
    assert Text.Lower("PNG") == "png";
  }

  lemma NoExtension()
    ensures ExtensionOf("archive") == ""
  {
    ExtEmptyWithoutDot("archive");
  }

  /** The extension is compared after lower-casing both sides. */
  lemma UpperCaseAllowed()
    ensures Allowed(ExtensionOf("photo.final.PNG"), ["jpg", "PNG"])
  {
    PngExtension();
    var allowed := ["jpg", "PNG"];
    assert "png" == Text.Lower(allowed[1]);
  }
}
