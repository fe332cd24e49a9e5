/**
 * The upload API route, reduced to its naming logic: which files are taken, which
 * folder they go to, how each stored name is built, and the URLs returned. File
 * contents, the WebP conversion and the clock are outside the model; the clock
 * readings are a parameter, one per file.
 */
module UploadRoute {
  import opened Wrappers
  import opened Text

  /** An uploaded file: only its name matters here. */
  datatype File = File(name: string)

  /** The form fields the route reads; `None` is a missing field. */
  datatype UploadForm = UploadForm(files: seq<File>, file: Option<File>,
                                   uploadType: Option<string>, folder: Option<string>)

  datatype Response = Uploaded(urls: seq<string>, url: Option<string>) | Failed(status: nat, error: string)

  const MsgNoFiles: string := "No files uploaded"

  /** `getAll('files')`, or the single `file` when that list is empty. */
  function Selected(f: UploadForm): (r: seq<File>)
    ensures |f.files| > 0 ==> r == f.files
    ensures |f.files| == 0 ==> r == (if f.file.Some? then [f.file.value] else [])
  {
    if |f.files| > 0 then f.files else if f.file.Some? then [f.file.value] else []
  }

  /** `type || folder || 'products'` */
  function Folder(f: UploadForm): (r: string)
    ensures r != ""
    ensures f.uploadType.Some? && f.uploadType.value != "" ==> r == f.uploadType.value
    ensures !(f.uploadType.Some? && f.uploadType.value != "") && f.folder.Some? && f.folder.value != "" ==>
              r == f.folder.value
  {
    if f.uploadType.Some? && f.uploadType.value != "" then f.uploadType.value
    else if f.folder.Some? && f.folder.value != "" then f.folder.value
    else "products"
  }

  /** `[a-zA-Z0-9.-]` */
  predicate SafeChar(c: char) { IsAsciiLetter(c) || IsDigit(c) || c == '.' || c == '-' }

  /** `name.replace(/[^a-zA-Z0-9.-]/g, '_')` */
  function Sanitize(name: string): (r: string)
    ensures |r| == |name|
    ensures forall i :: 0 <= i < |name| ==> r[i] == if SafeChar(name[i]) then name[i] else '_'
  {
    seq(|name|, i requires 0 <= i < |name| => if SafeChar(name[i]) then name[i] else '_')
  }

  /** A sanitised name holds only letters, digits, dots, hyphens and underscores, and
      sanitising it again changes nothing. */
  lemma SanitizeIdempotent(name: string)
    ensures forall i :: 0 <= i < |Sanitize(name)| ==> SafeChar(Sanitize(name)[i]) || Sanitize(name)[i] == '_'
    ensures Sanitize(Sanitize(name)) == Sanitize(name)
  {
  }

  /** The position of the last `c` in `s`. */
  function LastIndex(s: string, c: char): (r: Option<nat>)
    ensures r.None? ==> c !in s
    ensures r.Some? ==> r.value < |s| && s[r.value] == c && forall j :: r.value < j < |s| ==> s[j] != c
  {
    if s == [] then None
    else if s[|s| - 1] == c then Some(|s| - 1)
    else LastIndex(s[..|s| - 1], c)
  }

  /** `path.extname(name)` for a name without `/`: from the last dot to the end, unless
      there is no dot, the only dot opens the name, or the name is `..`. */
  function Extname(name: string): (e: string)
    ensures |e| <= |name|
  {
    match LastIndex(name, '.')
    case None => ""
    case Some(d) => if d == 0 || name == ".." then "" else name[d..]
  }

  /** The extension is empty, or a dot and no further dot, ending the name and shorter
      than it; it is empty exactly when the name has no dot after its first character
      or is `..`. */
  lemma ExtnameShape(name: string)
    ensures var e := Extname(name);
            && (e == "" || (e[0] == '.' && |e| < |name| && EndsWith(name, e) && '.' !in e[1..]))
            && (e == "" <==> name == ".." || forall j :: 0 < j < |name| ==> name[j] != '.')
  {
    var e := Extname(name);
    match LastIndex(name, '.')
    case None =>
    case Some(d) =>
      if d != 0 && name != ".." {
        assert name[|name| - |e|..] == e;
        assert e[0] == name[d];
        forall j | 0 <= j < |e| - 1 ensures e[1..][j] != '.' {
          assert e[1..][j] == name[d + 1 + j];
        }
      }
  }

  /** `path.basename(name, ext)` for a name without `/` and a non-empty `ext`: the name
      with `ext` cut off its end when it ends with exactly `ext` (case-sensitively), and
      the empty string when the name is `ext` itself. */
  function Basename(name: string, ext: string): string {
    if EndsWith(name, ext) then name[..|name| - |ext|] else name
  }

  const ImageExts: seq<string> := [".jpg", ".jpeg", ".png", ".gif", ".bmp", ".tiff"]

  /** The route's image test: the lower-cased extension is one of `ImageExts`. */
  predicate IsImage(name: string) { ToLower(Extname(name)) in ImageExts }

  /** The name as the route builds it: the extension is lower-cased for the image test
      but cut off the original name case-sensitively. */
  function StoredNameAsWritten(timestamp: nat, name: string): string {
    var original := Sanitize(name);
    var ext := ToLower(Extname(original));
    if IsImage(original) then NatToString(timestamp) + "-" + Basename(original, ext) + ".webp"
    else NatToString(timestamp) + "-" + original
  }

  /** As the route names a file: `<timestamp>-` first; an image gets `.webp` either in
      place of its extension or, when the case-sensitive cut misses, after the whole
      name; any other file keeps its sanitised name whole. */
  lemma StoredNameAsWrittenShape(timestamp: nat, name: string)
    ensures var original := Sanitize(name);
            var prefix := NatToString(timestamp) + "-";
            var r := StoredNameAsWritten(timestamp, name);
            && StartsWith(r, prefix)
            && (IsImage(original) ==>
                  r == prefix + Stem(original) + ".webp" || r == prefix + original + ".webp")
            && (!IsImage(original) ==> r == prefix + original)
  {
    var original := Sanitize(name);
    var prefix := NatToString(timestamp) + "-";
    var ext := ToLower(Extname(original));
    var rest := if IsImage(original) then Basename(original, ext) + ".webp" else original;
    var r := StoredNameAsWritten(timestamp, name);
    assert r == prefix + rest;
    assert r[..|prefix|] == prefix;
    if IsImage(original) && EndsWith(original, ext) {
      ExtnameShape(original);
      assert |ext| == |Extname(original)|;
      assert Basename(original, ext) == Stem(original);
    }
  }

  /** An image whose extension has an upper-case letter keeps that extension in front
      of the new one: `photo.JPG` is stored as `<timestamp>-photo.JPG.webp`. */
  lemma UpperCaseExtensionKept(timestamp: nat, name: string)
    requires var ext := Extname(Sanitize(name)); ToLower(ext) in ImageExts && ToLower(ext) != ext
    ensures StoredNameAsWritten(timestamp, name) == NatToString(timestamp) + "-" + Sanitize(name) + ".webp"
    ensures EndsWith(StoredNameAsWritten(timestamp, name), Extname(Sanitize(name)) + ".webp")
  {
    var original := Sanitize(name);
    var ext := Extname(original);
    var lower := ToLower(ext);
    ExtnameShape(original);
    assert EndsWith(original, ext);
    assert !EndsWith(original, lower) by {
      assert |lower| == |ext|;
      assert original[|original| - |ext|..] == ext;
    }
    assert Basename(original, lower) == original;
    assert IsImage(original);
    var prefix := NatToString(timestamp) + "-";
    assert StoredNameAsWritten(timestamp, name) == prefix + original + ".webp";
    EndsWithAppend(prefix + original, ext, ".webp");
    EndsWithPrepend(prefix, original, ext);
  }

  lemma EndsWithAppend(s: string, suffix: string, t: string)
    requires EndsWith(s, suffix)
    ensures EndsWith(s + t, suffix + t)
  {
    assert (s + t)[|s + t| - |suffix + t|..] == s[|s| - |suffix|..] + t;
  }

  lemma EndsWithPrepend(p: string, s: string, suffix: string)
    requires EndsWith(s, suffix)
    ensures EndsWith(p + s, suffix)
  {
    assert (p + s)[|p + s| - |suffix|..] == s[|s| - |suffix|..];
  }

  lemma PhotoJpgExample(timestamp: nat)
    ensures StoredNameAsWritten(timestamp, "photo.JPG") == NatToString(timestamp) + "-" + "photo.JPG" + ".webp"
    ensures StoredName(timestamp, "photo.JPG") == NatToString(timestamp) + "-" + "photo" + ".webp"
  {
    var name := "photo.JPG";
    PhotoJpgParts();
    UpperCaseExtensionKept(timestamp, name);
    StoredNameShape(timestamp, name);
    assert Stem(name) == "photo";
  }

  /** The pieces of `photo.JPG`: already safe, extension `.JPG`, an image. */
  lemma PhotoJpgParts()
    ensures Sanitize("photo.JPG") == "photo.JPG"
    ensures Extname("photo.JPG") == ".JPG"
    ensures ToLower(".JPG") == ".jpg" && IsImage("photo.JPG")
  {
    var name := "photo.JPG";
    assert forall i :: 0 <= i < |name| ==> SafeChar(name[i]);
    assert LastIndex(name, '.') == Some(5);
  }


  /** The name with its extension cut off, whatever the extension's case. */
  function Stem(name: string): string {
    name[..|name| - |Extname(name)|]
  }

  /** The stem and the extension make up the name. */
  lemma StemExtname(name: string)
    ensures Stem(name) + Extname(name) == name
  {
    ExtnameShape(name);
    var e := Extname(name);
    if e != "" {
      assert name[|name| - |e|..] == e;
    }
  }

  /** The stored name: `<timestamp>-<stem>.webp` for an image, `<timestamp>-<name>`
      otherwise, with the name sanitised. */
  function StoredName(timestamp: nat, name: string): string {
    var original := Sanitize(name);
    if IsImage(original) then NatToString(timestamp) + "-" + Stem(original) + ".webp"
    else NatToString(timestamp) + "-" + original
  }

  /** An image keeps its stem and gets the `.webp` extension in place of its own; any
      other file keeps its sanitised name whole. Both start with the timestamp. */
  lemma StoredNameShape(timestamp: nat, name: string)
    ensures var original := Sanitize(name);
            var prefix := NatToString(timestamp) + "-";
            && (IsImage(original) ==>
                  && StoredName(timestamp, name) == prefix + Stem(original) + ".webp"
                  && Stem(original) + Extname(original) == original)
            && (!IsImage(original) ==> StoredName(timestamp, name) == prefix + original)
            && StartsWith(StoredName(timestamp, name), prefix)
  {
    var original := Sanitize(name);
    StemExtname(original);
    var prefix := NatToString(timestamp) + "-";
    var rest := if IsImage(original) then Stem(original) + ".webp" else original;
    var r := StoredName(timestamp, name);
    assert r == prefix + rest;
    assert r[..|prefix|] == prefix;
  }

  /** With a lower-case extension the route's name is the intended one. */
  lemma LowerCaseExtensionAgrees(timestamp: nat, name: string)
    requires ToLower(Extname(Sanitize(name))) == Extname(Sanitize(name))
    ensures StoredNameAsWritten(timestamp, name) == StoredName(timestamp, name)
  {
    var original := Sanitize(name);
    var ext := Extname(original);
    if IsImage(original) {
      ExtnameShape(original);
      assert EndsWith(original, ext);
      assert Basename(original, ext) == Stem(original);
    }
  }

  /** `/uploads/<type>/<name>` */
  function Url(folder: string, storedName: string): string {
    "/uploads/" + folder + "/" + storedName
  }

  /** The stored names of the files in order, as the route builds them: the i-th file
      is named with the i-th clock reading. */
  function StoredNames(files: seq<File>, clock: seq<nat>): (r: seq<string>)
    requires |clock| >= |files|
    ensures |r| == |files|
    ensures forall i :: 0 <= i < |files| ==> r[i] == StoredNameAsWritten(clock[i], files[i].name)
  {
    seq(|files|, i requires 0 <= i < |files| => StoredNameAsWritten(clock[i], files[i].name))
  }

  /** The URL of each stored name, in order. */
  function Urls(folder: string, names: seq<string>): (r: seq<string>)
    ensures |r| == |names|
  {
    seq(|names|, i requires 0 <= i < |names| => Url(folder, names[i]))
  }

  /** The folder the files are written to. */
  class UploadDir {
    /** The paths written, relative to `public`, in order. */
    var written: seq<string>

    constructor()
      ensures written == []
    {
      written := [];
    }

    /** Writes the files under the given names, one after the other, and returns their
        URLs. */
    method WriteAll(folder: string, names: seq<string>) returns (urls: seq<string>)
      modifies this
      ensures urls == Urls(folder, names)
      ensures written == old(written) + urls
    {
      urls := [];
      for i := 0 to |names|
        invariant |urls| == i
        invariant forall k :: 0 <= k < i ==> urls[k] == Url(folder, names[k])
        invariant written == old(written) + urls
      {
        var u := Url(folder, names[i]);
        written := written + [u];
        urls := urls + [u];
      }
    }

    /** `POST /api/upload`; `clock[i]` is the clock reading taken for the i-th file. */
    method Post(f: UploadForm, clock: seq<nat>) returns (resp: Response)
      requires |clock| >= |Selected(f)|
      modifies this
      ensures Selected(f) == [] ==> resp == Failed(400, MsgNoFiles) && written == old(written)
      ensures Selected(f) != [] ==>
                var urls := Urls(Folder(f), StoredNames(Selected(f), clock));
                && resp == Uploaded(urls, Some(urls[0]))
                && written == old(written) + urls
    {
      var files := Selected(f);
      if |files| == 0 {
        return Failed(400, MsgNoFiles);
      }
      var urls := WriteAll(Folder(f), StoredNames(files, clock));
      resp := Uploaded(urls, Some(urls[0]));
    }
  }
}
