/**
 * Upload validation and file-name sanitising of the backend: the size and
 * type checks an upload must pass, the safe name a file is stored under,
 * and the three kinds of file the preview code distinguishes.  The upload
 * is given by its size, content type and file name.
 */
module FileUtils {
  import opened Common
  import opened Text

  /** `MAX_FILE_SIZE`: 50 MiB. */
  const MaxFileSize: nat := 50 * 1024 * 1024

  /** One entry of `ALLOWED_MIME_TYPES`: a content type and the extensions that go with it. */
  type MimeEntry = (string, seq<string>)

  /** `ALLOWED_MIME_TYPES`, in declaration order (the long Office names written in two pieces). */
  const AllowedMimeTypes: seq<MimeEntry> := [
    ("application/pdf", [".pdf"]),
    ("application/msword", [".doc"]),
    ("application/" + "vnd.openxmlformats-officedocument.wordprocessingml.document", [".docx"]),
    ("application/" + "vnd.ms-excel", [".xls"]),
    ("application/" + "vnd.openxmlformats-officedocument.spreadsheetml.sheet", [".xlsx"]),
    ("application/" + "vnd.ms-powerpoint", [".ppt"]),
    ("application/" + "vnd.openxmlformats-officedocument.presentationml.presentation", [".pptx"]),
    ("text/plain", [".txt"]),
    ("text/csv", [".csv"]),
    ("image/jpeg", [".jpg", ".jpeg"]),
    ("image/png", [".png"]),
    ("image/gif", [".gif"]),
    ("image/webp", [".webp"]),
    ("image/svg+xml", [".svg"]),
    ("image/tiff", [".tiff", ".tif"]),
    ("application/zip", [".zip"]),
    ("application/x-rar-compressed", [".rar"]),
    ("application/x-7z-compressed", [".7z"])
  ]

  function TypeName(e: MimeEntry): string
  {
    e.0
  }

  /** `ALLOWED_MIME_TYPES.get(content_type)`: the extensions of the first entry for the type. */
  function Lookup(table: seq<MimeEntry>, contentType: string): (r: Option<seq<string>>)
    ensures r.None? <==> forall i :: 0 <= i < |table| ==> table[i].0 != contentType
    ensures r.Some? ==> exists i :: 0 <= i < |table| && table[i] == (contentType, r.value)
  {
    if table == [] then None
    else if table[0].0 == contentType then Some(table[0].1)
    else
      var r := Lookup(table[1..], contentType);
      assert forall i :: 1 <= i < |table| ==> table[i] == table[1..][i - 1];
      r
  }

  /** Index of the last `c` in `s`, or -1. */
  function LastIndexOf(s: string, c: char): (r: int)
    ensures -1 <= r < |s|
    ensures r >= 0 ==> s[r] == c
    ensures forall j :: r < j < |s| ==> s[j] != c
  {
    if s == [] then -1
    else if s[|s| - 1] == c then |s| - 1
    else LastIndexOf(s[..|s| - 1], c)
  }

  /** The path ends in a "." component: it is "." or ends with "/.". */
  predicate EndsWithDotComponent(p: string)
  {
    |p| >= 1 && p[|p| - 1] == '.' && (|p| == 1 || p[|p| - 2] == '/')
  }

  /**
   * Drops trailing "/" characters and trailing "." components, which a
   * path's final component ignores: pathlib leaves both out when it parses.
   */
  function StripTrailing(p: string): (r: string)
    ensures |r| <= |p| && r == p[..|r|]
    ensures r == [] || (r[|r| - 1] != '/' && !EndsWithDotComponent(r))
  {
    if p == [] then p
    else if p[|p| - 1] == '/' || EndsWithDotComponent(p) then StripTrailing(p[..|p| - 1])
    else p
  }

  /** The text after the last "/" of `q`. */
  function AfterLastSlash(q: string): (r: string)
    ensures '/' !in r
    ensures '/' !in q ==> r == q
  {
    if q == [] || q[|q| - 1] == '/' then [] else AfterLastSlash(q[..|q| - 1]) + [q[|q| - 1]]
  }

  /** `Path(p).name`: the final component, with trailing "/" and "." components ignored. */
  function BaseName(p: string): (r: string)
    ensures '/' !in r && r != "."
    ensures '/' !in p && p != "." ==> r == p
  {
    var q := StripTrailing(p);
    DotNameEndsPath(q);
    PlainPathKept(p);
    AfterLastSlash(q)
  }

  /** A path with no "/" that is not "." has nothing to strip. */
  lemma PlainPathKept(p: string)
    ensures '/' !in p && p != "." ==> StripTrailing(p) == p
  {
    if '/' !in p && |p| >= 2 {
      assert p[|p| - 2] != '/';
    }
    if |p| == 1 && p[0] == '.' {
      assert p == ".";
    }
  }

  /** A final component "." means the path ends in a "." component. */
  lemma DotNameEndsPath(q: string)
    ensures AfterLastSlash(q) == "." ==> EndsWithDotComponent(q)
  {
    var r := AfterLastSlash(q);
    AfterLastSlashIsSuffix(q);
    if r == "." {
      assert q[|q| - 1] == r[0];
    }
  }

  /** The final component is the end of the path, right after a "/" when it is not the whole path. */
  lemma {:induction false} AfterLastSlashIsSuffix(q: string)
    ensures |AfterLastSlash(q)| <= |q| && AfterLastSlash(q) == q[|q| - |AfterLastSlash(q)|..]
    ensures |AfterLastSlash(q)| < |q| ==> q[|q| - |AfterLastSlash(q)| - 1] == '/'
  {
    if q != [] && q[|q| - 1] != '/' {
      AfterLastSlashIsSuffix(q[..|q| - 1]);
    }
  }

  /** A trailing "/" adds nothing to the final component. */
  lemma BaseNameSkipsSlash(p: string)
    ensures BaseName(p + "/") == BaseName(p)
  {
    assert (p + "/")[..|p|] == p;
  }

  /** A trailing "/." adds nothing to the final component. */
  lemma BaseNameSkipsDot(p: string)
    ensures BaseName(p + "/.") == BaseName(p)
  {
    var d := p + "/.";
    assert d[|d| - 1] == '.' && d[|d| - 2] == '/';
    assert d[..|d| - 1] == p + "/";
    assert StripTrailing(d) == StripTrailing(p + "/");
    BaseNameSkipsSlash(p);
  }

  /**
   * `PurePath.suffix` of a final component: from its last dot, when that dot
   * is neither its first nor its last character; otherwise "".
   */
  function NameSuffix(name: string): (r: string)
  {
    var i := LastIndexOf(name, '.');
    if 0 < i < |name| - 1 then name[i..] else ""
  }

  /** `Path(p).suffix`: the suffix of the final component. */
  function Suffix(p: string): (r: string)
  {
    NameSuffix(BaseName(p))
  }

  /** A suffix is empty or a dot followed by at least one character and no further dot. */
  lemma SuffixShape(p: string)
    ensures Suffix(p) == "" || (|Suffix(p)| >= 2 && Suffix(p)[0] == '.' && '.' !in Suffix(p)[1..])
  {
  }

  /**
   * `validate_file`: the size first (too large, then empty), then the content
   * type, then, when the upload has a non-empty file name, its lowercased
   * suffix against the extensions listed for the type.
   */
  function ValidateFile(size: nat, contentType: Option<string>, filename: Option<string>): Result<()>
  {
    if size > MaxFileSize then Err(413, "File too large. Maximum size is 50MB")
    else if size == 0 then Err(400, "Empty file not allowed")
    else if contentType.None? || Lookup(AllowedMimeTypes, contentType.value).None? then
      Err(400, "File type '" + OrElseNone(contentType) + "' not allowed. Allowed types: "
        + Join(Map(AllowedMimeTypes, TypeName), ", "))
    else if filename.Some? && filename.value != ""
      && Lower(Suffix(filename.value)) !in Lookup(AllowedMimeTypes, contentType.value).value then
      Err(400, ExtensionMismatch(Lower(Suffix(filename.value)), contentType.value))
    else Ok(())
  }

  /** The detail of a refused extension. */
  function ExtensionMismatch(ext: string, contentType: string): string
  {
    "File extension '" + ext + "' doesn't match MIME type '" + contentType + "'"
  }

  /** An f-string prints a missing value as "None". */
  function OrElseNone(x: Option<string>): string
  {
    if x.Some? then x.value else "None"
  }

  /** The type is one `ALLOWED_MIME_TYPES` lists. */
  predicate Allowed(contentType: string)
  {
    exists i :: 0 <= i < |AllowedMimeTypes| && AllowedMimeTypes[i].0 == contentType
  }

  /** The lowercased suffix is one the (allowed) type lists. */
  predicate ExtensionFits(contentType: string, filename: string)
    requires Allowed(contentType)
  {
    Lower(Suffix(filename)) in Lookup(AllowedMimeTypes, contentType).value
  }

  /**
   * An upload passes exactly when it is non-empty, at most 50 MiB, of an
   * allowed type and, when it has a file name, with a fitting extension.
   * The checks run in order: an oversized upload is refused with 413
   * whatever its type, an empty one with 400 before its type is looked at,
   * and a file without a name skips the extension check.
   */
  lemma ValidateMeaning(size: nat, contentType: Option<string>, filename: Option<string>)
    ensures ValidateFile(size, contentType, filename).Ok? <==>
      && 0 < size <= MaxFileSize
      && contentType.Some? && Allowed(contentType.value)
      && (filename.None? || filename.value == "" || ExtensionFits(contentType.value, filename.value))
    ensures size > MaxFileSize ==> ValidateFile(size, contentType, filename) == Err(413, "File too large. Maximum size is 50MB")
    ensures size == 0 ==> ValidateFile(size, contentType, filename) == Err(400, "Empty file not allowed")
    ensures 0 < size <= MaxFileSize && (contentType.None? || !Allowed(contentType.value)) ==>
      ValidateFile(size, contentType, filename).Err? && ValidateFile(size, contentType, filename).status == 400
    ensures ValidateFile(size, contentType, filename).Err? ==> ValidateFile(size, contentType, filename).status in {400, 413}
  {
  }

  /** Exactly 50 MiB passes; the suffix is compared after lowercasing. */
  lemma ExactLimitAccepted()
    ensures ValidateFile(MaxFileSize, Some("application/pdf"), Some("Deed.PDF")) == Ok(())
  {
    var name := "Deed.PDF";
    assert StripTrailing(name) == name;
    assert BaseName(name) == name;
    assert name[4] == '.';
    assert LastIndexOf(name, '.') == 4;
    assert Suffix(name) == ".PDF";
    assert Lower(".PDF") == ".pdf";
    assert Lookup(AllowedMimeTypes, "application/pdf") == Some([".pdf"]);
  }

  /** A named file whose name has no suffix fails the extension check, even for plain text. */
  lemma NameWithoutSuffixRefused()
    ensures ValidateFile(10, Some("application/pdf"), Some("notes")) ==
      Err(400, ExtensionMismatch("", "application/pdf"))
  {
    var name := "notes";
    assert StripTrailing(name) == name;
    assert BaseName(name) == name;
    assert LastIndexOf(name, '.') == -1;
    assert Suffix(name) == "";
    assert Lower("") == "";
    assert Lookup(AllowedMimeTypes, "application/pdf") == Some([".pdf"]);
  }

  /** A name ending in "/." is checked by the component before it, so "deed.pdf/." passes wherever "deed.pdf" does. */
  lemma DotComponentIgnored(size: nat, contentType: Option<string>, name: string)
    ensures name != "" ==>
      ValidateFile(size, contentType, Some(name + "/.")) == ValidateFile(size, contentType, Some(name))
  {
    BaseNameSkipsDot(name);
    assert |name + "/."| > 0;
  }

  /** `filename.replace("/", "_").replace("\\", "_").replace("..", "_")`. */
  function Sanitized(filename: string): string
  {
    ReplaceAll(ReplaceAll(ReplaceAll(filename, "/", "_"), "\\", "_"), "..", "_")
  }

  /**
   * `os.path.splitext`: the extension runs from the last dot after the last
   * "/", provided some character before that dot in the final component is
   * not a dot; otherwise there is none.
   */
  function SplitExt(p: string): (r: (string, string))
    ensures r.0 + r.1 == p
    ensures r.1 == "" || r.1[0] == '.'
  {
    var sep := LastIndexOf(p, '/');
    var dot := LastIndexOf(p, '.');
    if dot > sep && exists j :: sep < j < dot && p[j] != '.' then (p[..dot], p[dot..]) else (p, "")
  }

  /** Python's `s[:k]`: a negative `k` counts from the end. */
  function SliceTo(s: string, k: int): (r: string)
    ensures |r| <= |s| && r == s[..|r|]
    ensures 0 <= k <= |s| ==> |r| == k
  {
    if k >= 0 then (if k <= |s| then s[..k] else s)
    else if -k <= |s| then s[..|s| + k] else ""
  }

  /**
   * `get_safe_filename`: a missing name is refused; separators and ".." are
   * replaced by "_"; a result over 255 characters is cut, keeping the extension.
   */
  function GetSafeFilename(filename: string): Result<string>
  {
    if filename == "" then Err(400, "Missing filename")
    else
      var safe := Sanitized(filename);
      if |safe| > 255 then
        var parts := SplitExt(safe);
        Ok(SliceTo(parts.0, 255 - |parts.1|) + parts.1)
      else Ok(safe)
  }

  /** Characters of a replacement come from the text or from the replacement. */
  lemma {:induction false} ReplaceAllChars(s: string, pat: string, rep: string)
    requires |pat| > 0
    ensures forall c :: c in ReplaceAll(s, pat, rep) ==> c in s || c in rep
    decreases |s|
  {
    if |s| >= |pat| {
      if s[..|pat|] == pat {
        ReplaceAllChars(s[|pat|..], pat, rep);
      } else {
        ReplaceAllChars(s[1..], pat, rep);
      }
    }
  }

  /** Replacing ".." leaves no two adjacent dots. */
  predicate NoDoubleDot(s: string)
  {
    forall i :: 0 <= i < |s| - 1 ==> !(s[i] == '.' && s[i + 1] == '.')
  }

  /** The first character after replacing "..": "_" where a ".." started, otherwise the same. */
  lemma ReplaceDotsHead(s: string)
    requires s != []
    ensures ReplaceAll(s, "..", "_") != []
    ensures ReplaceAll(s, "..", "_")[0] == if StartsWith(s, "..") then '_' else s[0]
  {
  }

  lemma {:induction false} ReplaceDotsNoDoubleDot(s: string)
    ensures NoDoubleDot(ReplaceAll(s, "..", "_"))
    decreases |s|
  {
    if |s| >= 2 {
      if s[..2] == ".." {
        ReplaceDotsNoDoubleDot(s[2..]);
      } else {
        var rest := ReplaceAll(s[1..], "..", "_");
        ReplaceDotsNoDoubleDot(s[1..]);
        ReplaceDotsHead(s[1..]);
        assert s[0] == '.' ==> s[1] != '.';
        assert ReplaceAll(s, "..", "_") == [s[0]] + rest;
      }
    }
  }

  /** A name with a character left in it is never emptied by the replacements. */
  lemma {:induction false} ReplaceAllNonEmpty(s: string, pat: string, rep: string)
    requires |pat| > 0 && s != [] && rep != []
    ensures ReplaceAll(s, pat, rep) != []
  {
  }

  /**
   * A name is refused exactly when it is empty. A safe name is never empty
   * and holds no "/" or "\"; when no cut was needed it holds no "..", and
   * every character of it comes from the name or is "_".
   */
  lemma SafeFilenameMeaning(filename: string)
    ensures GetSafeFilename(filename).Err? <==> filename == ""
    ensures filename == "" ==> GetSafeFilename(filename) == Err(400, "Missing filename")
    ensures GetSafeFilename(filename).Ok? ==>
      var r := GetSafeFilename(filename).value;
      && r != []
      && '/' !in r && '\\' !in r
      && (forall c :: c in r ==> c in filename || c == '_')
      && (|Sanitized(filename)| <= 255 ==> r == Sanitized(filename) && NoDoubleDot(r) && !Contains(r, ".."))
  {
    if filename != "" {
      var safe := Sanitized(filename);
      SanitizedMeaning(filename);
      var r := GetSafeFilename(filename).value;
      if |safe| > 255 {
        var parts := SplitExt(safe);
        var head := SliceTo(parts.0, 255 - |parts.1|);
        assert r == head + parts.1;
        assert forall c :: c in head ==> c in parts.0;
        assert forall c :: c in parts.1 ==> c in safe;
        assert forall c :: c in parts.0 ==> c in safe;
        if parts.1 == [] {
          assert |head| == 255;
        }
      } else {
        forall i | 0 <= i <= |r| - 2
          ensures !OccursAt(r, "..", i)
        {
          assert r[i..i + 2] == [r[i], r[i + 1]];
        }
      }
    }
  }

  /**
   * The three replacements leave no "/", no "\" and no "..", bring in no
   * character but "_", and never empty a name.
   */
  lemma SanitizedMeaning(filename: string)
    ensures var safe := Sanitized(filename);
      && '/' !in safe && '\\' !in safe && NoDoubleDot(safe)
      && (forall c :: c in safe ==> c in filename || c == '_')
      && (filename != "" ==> safe != "")
  {
    var s1 := ReplaceAll(filename, "/", "_");
    var s2 := ReplaceAll(s1, "\\", "_");
    ReplaceAllSingle(filename, '/', "_");
    ReplaceCharRemoves(filename, '/', "_");
    ReplaceAllSingle(s1, '\\', "_");
    ReplaceCharRemoves(s1, '\\', "_");
    ReplaceAllChars(filename, "/", "_");
    ReplaceAllChars(s1, "\\", "_");
    ReplaceAllChars(s2, "..", "_");
    if filename != "" {
      ReplaceAllNonEmpty(filename, "/", "_");
      ReplaceAllNonEmpty(s1, "\\", "_");
      ReplaceAllNonEmpty(s2, "..", "_");
    }
    ReplaceDotsNoDoubleDot(s2);
  }

  /**
   * A cut name is exactly 255 characters and ends in the original extension,
   * when that extension is shorter than 255 characters.
   */
  lemma LongNameKeepsExtension(filename: string)
    requires |Sanitized(filename)| > 255
    requires |SplitExt(Sanitized(filename)).1| < 255
    ensures filename != ""
    ensures GetSafeFilename(filename).Ok?
    ensures |GetSafeFilename(filename).value| == 255
    ensures EndsWith(GetSafeFilename(filename).value, SplitExt(Sanitized(filename)).1)
    ensures StartsWith(Sanitized(filename), GetSafeFilename(filename).value[..255 - |SplitExt(Sanitized(filename)).1|])
  {
    SanitizedEmpty();
    CutKeepsExtension(Sanitized(filename));
  }

  lemma SanitizedEmpty()
    ensures Sanitized("") == ""
  {
  }

  /** Cutting a long name keeps its extension whole and the start of its stem. */
  lemma CutKeepsExtension(safe: string)
    requires |safe| > 255 && |SplitExt(safe).1| < 255
    ensures var parts := SplitExt(safe);
      var r := SliceTo(parts.0, 255 - |parts.1|) + parts.1;
      && |r| == 255 && EndsWith(r, parts.1) && StartsWith(safe, r[..255 - |parts.1|])
  {
    var parts := SplitExt(safe);
    var head := SliceTo(parts.0, 255 - |parts.1|);
    var r := head + parts.1;
    assert r[..255 - |parts.1|] == head;
    assert safe[..|head|] == parts.0[..|head|];
  }

  /** `is_image_file`. */
  predicate IsImageFile(mimeType: string)
  {
    StartsWith(mimeType, "image/")
  }

  /** `is_pdf_file`. */
  predicate IsPdfFile(mimeType: string)
  {
    mimeType == "application/pdf"
  }

  /** The types `is_office_document` recognises. */
  const OfficeTypes: seq<string> := [
    "application/msword",
    "application/" + "vnd.openxmlformats-officedocument.wordprocessingml.document",
    "application/" + "vnd.ms-excel",
    "application/" + "vnd.openxmlformats-officedocument.spreadsheetml.sheet",
    "application/" + "vnd.ms-powerpoint",
    "application/" + "vnd.openxmlformats-officedocument.presentationml.presentation"
  ]

  /** `is_office_document`. */
  predicate IsOfficeDocument(mimeType: string)
  {
    mimeType in OfficeTypes
  }

  /**
   * The three kinds are pairwise disjoint, and every PDF and office type is
   * one an upload may have.
   */
  lemma FileKindsDisjoint(mimeType: string)
    ensures !(IsImageFile(mimeType) && IsPdfFile(mimeType))
    ensures !(IsImageFile(mimeType) && IsOfficeDocument(mimeType))
    ensures !(IsPdfFile(mimeType) && IsOfficeDocument(mimeType))
    ensures (IsPdfFile(mimeType) || IsOfficeDocument(mimeType)) ==> Allowed(mimeType)
  {
    if IsImageFile(mimeType) {
      assert mimeType[0] == 'i';
    }
    if IsPdfFile(mimeType) {
      assert AllowedMimeTypes[0].0 == mimeType;
    }
    if IsOfficeDocument(mimeType) {
      var k :| 0 <= k < |OfficeTypes| && OfficeTypes[k] == mimeType;
      assert AllowedMimeTypes[k + 1].0 == mimeType;
      assert mimeType[0] == 'a' by {
        assert k == 0 || k == 1 || k == 2 || k == 3 || k == 4 || k == 5;
      }
    }
  }
}
