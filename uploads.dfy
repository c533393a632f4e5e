/** The upload rules of src/app.ts: the multer `fileFilter`, which accepts a `document`
  * only as PDF and an `image` only as JPEG/PNG/GIF, and the `objectName` callback, which
  * builds the storage key of an uploaded file and records it as `file.filename`. */
module Uploads {
  import opened Base
  import opened Text
  import opened Errors

  /** The multer file description the filter sees. */
  datatype FilePart = FilePart(fieldname: string, originalname: string, mimetype: string)

  /** `cb(null, true)` or `cb(errorMessage)`. */
  datatype FilterDecision = Accept | Reject(error: ErrorMessage)

  /** The last position of `c` in `s`, or -1 when it does not occur. */
  function LastIndexOf(s: string, c: char): (i: int)
    ensures -1 <= i < |s|
    ensures i == -1 ==> c !in s
    ensures 0 <= i ==> s[i] == c && forall j :: i < j < |s| ==> s[j] != c
  {
    if s == [] then -1
    else if s[|s| - 1] == c then |s| - 1
    else LastIndexOf(s[..|s| - 1], c)
  }

  /** The path without its trailing slashes. */
  function StripTrailingSlashes(p: string): (r: string)
    ensures |r| <= |p| && r == p[..|r|]
    ensures r == [] || r[|r| - 1] != '/'
  {
    if p != [] && p[|p| - 1] == '/' then StripTrailingSlashes(p[..|p| - 1]) else p
  }

  /** The last path component. */
  function BaseName(p: string): (b: string)
    ensures '/' !in b
  {
    var q := StripTrailingSlashes(p);
    q[LastIndexOf(q, '/') + 1..]
  }

  /** What `StripTrailingSlashes` drops is slashes only. */
  lemma {:induction false} StrippedAreSlashes(p: string)
    ensures forall j :: |StripTrailingSlashes(p)| <= j < |p| ==> p[j] == '/'
    decreases |p|
  {
    if p != [] && p[|p| - 1] == '/' {
      StrippedAreSlashes(p[..|p| - 1]);
    }
  }

  /** The base name is what follows the last slash once trailing slashes are dropped, and
    * it is empty only for a path made of slashes. */
  lemma BaseNameIsLastComponent(p: string)
    ensures var q, b := StripTrailingSlashes(p), BaseName(p);
      |b| <= |q| && b == q[|q| - |b|..] && (|b| == |q| || q[|q| - |b| - 1] == '/')
    ensures BaseName(p) == [] <==> forall j :: 0 <= j < |p| ==> p[j] == '/'
  {
    var q := StripTrailingSlashes(p);
    StrippedAreSlashes(p);
    if q != [] {
      assert BaseName(p)[|BaseName(p)| - 1] == q[|q| - 1] == p[|q| - 1];
    }
  }

  /** `path.extname` (POSIX): from the last dot of the last path component to its end;
    * empty when that component has no dot, starts with its only dot (`.bashrc`), or is `..`. */
  function ExtName(p: string): (e: string)
    ensures e == "" || (e[0] == '.' && '/' !in e && '.' !in e[1..])
    ensures e != "" ==> exists k :: 0 < k < |BaseName(p)| && BaseName(p)[k..] == e
    ensures e == "" <==> BaseName(p) == ".." || BaseName(p) == [] || '.' !in BaseName(p)[1..]
  {
    var b := BaseName(p);
    var dot := LastIndexOf(b, '.');
    assert b != [] ==> forall j :: 1 <= j < |b| ==> b[j] == b[1..][j - 1];
    if dot <= 0 || b == ".." then ""
    else
      assert forall j :: 1 <= j < |b| - dot ==> b[dot..][j] == b[dot + j];
      b[dot..]
  }

  /** `/a|b|.../.test(s)`: one of the literal alternatives occurs in `s`. */
  predicate MatchesAny(s: string, alternatives: seq<string>)
  {
    exists i :: 0 <= i < |alternatives| && Contains(s, alternatives[i])
  }

  const DocumentTypes: seq<string> := ["pdf"]
  const ImageTypes: seq<string> := ["jpeg", "jpg", "png", "gif"]

  const DocumentRejected := ErrorMessage("create_document_error", InvalidInput,
    [FieldError("document", ["Văn bản chỉ chấp nhận file /pdf/"])])

  const ImageRejected := ErrorMessage("create_image_error", InvalidInput,
    [FieldError("thumbnail", ["Ảnh chỉ chấp nhận file /jpeg|jpg|png|gif/"])])

  /** Both the MIME type and the lower-cased extension must match the field's types. */
  predicate TypeAndExtensionMatch(f: FilePart, types: seq<string>)
  {
    MatchesAny(f.mimetype, types) && MatchesAny(LowerAscii(ExtName(f.originalname)), types)
  }

  /** The multer `fileFilter`: a `document` is accepted exactly when its MIME type and its
    * lower-cased extension both contain "pdf", an `image` exactly when both contain one of
    * jpeg/jpg/png/gif; a file under any other field is accepted unchecked. */
  function FileFilter(f: FilePart): (d: FilterDecision)
    ensures f.fieldname == "document" ==> (d.Accept? <==> TypeAndExtensionMatch(f, DocumentTypes))
    ensures f.fieldname == "image" ==> (d.Accept? <==> TypeAndExtensionMatch(f, ImageTypes))
    ensures f.fieldname != "document" && f.fieldname != "image" ==> d == Accept
    ensures d.Reject? ==> d.error == (if f.fieldname == "document" then DocumentRejected else ImageRejected)
  {
    if f.fieldname == "document" then
      if TypeAndExtensionMatch(f, DocumentTypes) then Accept else Reject(DocumentRejected)
    else if f.fieldname == "image" then
      if TypeAndExtensionMatch(f, ImageTypes) then Accept else Reject(ImageRejected)
    else Accept
  }

  /** A document or an image whose name has no extension is refused whatever its MIME type. */
  lemma NoExtensionRefused(f: FilePart)
    requires f.fieldname == "document" || f.fieldname == "image"
    requires ExtName(f.originalname) == ""
    ensures FileFilter(f).Reject?
  {
    var e := LowerAscii(ExtName(f.originalname));
    assert e == [];
    var types := if f.fieldname == "document" then DocumentTypes else ImageTypes;
    forall i | 0 <= i < |types| ensures !Contains(e, types[i]) {
      assert |types[i]| > 0;
    }
    assert !MatchesAny(e, types);
  }

  /** The folder part of the key: the route's `category` parameter for the field `file`
    * (rendered "undefined" when the route has none), the field name otherwise. */
  function Folder(fieldname: string, category: Option<string>): string
  {
    if fieldname == "file" then (if category.Some? then category.value else "undefined")
    else fieldname
  }

  /** `<folder>/<fieldname>_<Date.now()>_<originalname>`. */
  function ObjectKey(fieldname: string, originalname: string, category: Option<string>, now: nat): string
  {
    Folder(fieldname, category) + "/" + fieldname + "_" + Decimal(now) + "_" + originalname
  }

  /** Two uploads of the same file under the same field get different keys whenever they
    * happen at different milliseconds. */
  lemma {:induction false} KeysDifferByTime(
    fieldname: string, originalname: string, category: Option<string>, t1: nat, t2: nat)
    requires t1 != t2
    ensures ObjectKey(fieldname, originalname, category, t1) != ObjectKey(fieldname, originalname, category, t2)
  {
    var prefix := Folder(fieldname, category) + "/" + fieldname + "_";
    var suffix := "_" + originalname;
    var d1, d2 := Decimal(t1), Decimal(t2);
    assert ObjectKey(fieldname, originalname, category, t1) == prefix + d1 + suffix;
    assert ObjectKey(fieldname, originalname, category, t2) == prefix + d2 + suffix;
    if prefix + d1 + suffix == prefix + d2 + suffix {
      var k1 := prefix + d1 + suffix;
      assert |d1| == |d2|;
      assert d1 == k1[|prefix|..|prefix| + |d1|];
      assert d2 == (prefix + d2 + suffix)[|prefix|..|prefix| + |d2|];
      DecimalInjective(t1, t2);
    }
  }

  /** The stored object, as multer's storage engine hands it around. */
  class UploadedFile {
    const fieldname: string
    const originalname: string
    const mimetype: string
    var filename: Option<string>

    constructor (fieldname: string, originalname: string, mimetype: string)
      ensures this.fieldname == fieldname && this.originalname == originalname
      ensures this.mimetype == mimetype && filename == None
    {
      this.fieldname, this.originalname, this.mimetype := fieldname, originalname, mimetype;
      filename := None;
    }

    /** The `objectName` callback: it computes the key at time `now`, stores it in
      * `file.filename` (from which the handlers build avatar URLs) and hands it to the
      * storage engine. */
    method AssignObjectName(category: Option<string>, now: nat) returns (key: string)
      modifies this`filename
      ensures key == ObjectKey(fieldname, originalname, category, now)
      ensures filename == Some(key)
    {
      key := ObjectKey(fieldname, originalname, category, now);
      filename := Some(key);
    }
  }
}
