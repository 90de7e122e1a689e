/**
 * The file room: the search box over the matter's files and the kind of
 * inline preview the drawer shows for the selected file.
 */
module FilesRoom {
  import opened Common
  import opened Text
  import opened Entities
  import GlobalSearch

  /**
   * `filtered`: every file for a query blank after trimming, otherwise the
   * files whose lowercased "filename mime uploader" contains the lowercased
   * query (the same text the global search looks in).
   */
  function Filtered(files: seq<FileItem>, q: string): seq<FileItem>
  {
    var qq := Lower(Trim(q));
    if qq == "" then files else Filter(files, GlobalSearch.FileMatches(qq))
  }

  /**
   * A blank query keeps the list as it is; any other keeps, in order, exactly
   * the files whose text contains it.
   */
  lemma FilteredMeaning(files: seq<FileItem>, q: string)
    ensures Trim(q) == "" ==> Filtered(files, q) == files
    ensures Trim(q) != "" ==> SubsequenceOf(Filtered(files, q), files)
    ensures Trim(q) != "" ==> forall f :: f in Filtered(files, q) <==>
      f in files && Contains(Lower(GlobalSearch.FileHaystack(f)), Lower(Trim(q)))
  {
    var qq := Lower(Trim(q));
    if qq != "" {
      FilterIsSubsequence(files, GlobalSearch.FileMatches(qq));
      FilterMembers(files, GlobalSearch.FileMatches(qq));
    }
  }

  /** The file room and the global search find the same files for the same non-blank query. */
  lemma SameFilesAsGlobalSearch(files: seq<FileItem>, q: string)
    requires Trim(q) != ""
    ensures GlobalSearch.FilePart(Lower(Trim(q)), files) == Map(Filtered(files, q), GlobalSearch.AsFileHit)
  {
  }

  /** What the drawer shows. */
  datatype Preview = PdfFrame | ImageTag | NoPreview

  /** `(mime_type ?? "")`: "pdf" anywhere picks the frame, checked first; then an "image/" prefix. */
  function PreviewKind(mimeType: Option<string>): Preview
  {
    var m := OrElse(mimeType, "");
    if Contains(m, "pdf") then PdfFrame
    else if StartsWith(m, "image/") then ImageTag
    else NoPreview
  }

  /** The preview kind, case by case; a file without a type has no preview. */
  lemma PreviewCases(mimeType: Option<string>)
    ensures PreviewKind(mimeType) == PdfFrame <==> mimeType.Some? && Contains(mimeType.value, "pdf")
    ensures PreviewKind(mimeType) == ImageTag <==>
      mimeType.Some? && !Contains(mimeType.value, "pdf") && StartsWith(mimeType.value, "image/")
    ensures mimeType.None? ==> PreviewKind(mimeType) == NoPreview
  {
    if mimeType.None? {
      assert !Contains("", "pdf");
    }
  }

  /** The PDF check comes first: an image type that mentions "pdf" gets the PDF frame. */
  lemma PdfCheckedFirst()
    ensures PreviewKind(Some("image/x-pdf")) == PdfFrame
  {
    assert OccursAt("image/x-pdf", "pdf", 8);
  }
}
