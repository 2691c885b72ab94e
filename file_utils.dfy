/** File-name checks of apis/v1/utils/utils.py: the extension allow-list and
    the content type sent to the blob storage. */
module FileUtils {
  import opened Wrappers
  import opened Strings

  /** `ALLOWED_EXTENSIONS`: the entries carry no leading dot. */
  const AllowedExtensions: seq<string> := ["pdf", "docx"]

  const PdfType := "application/pdf"
  const DocxType := "application/vnd.openxmlformats-officedocument.wordprocessingml.document"
  const DocType := "application/msword"
  const TextType := "text/plain"
  const OctetStream := "application/octet-stream"

  /** The 400 detail that lists the allowed extensions. */
  function RejectionDetail(allowed: seq<string>): string {
    "File extension not allowed. Allowed extensions are " + Join(", ", allowed)
  }

  /** `validate_file_extension`: passes when the lower-cased name ends with
      one of the allowed strings, raises 400 otherwise. */
  function ValidateFileExtension(fileName: string, allowed: seq<string>): (r: Result<()>)
    ensures r.Ok? <==> exists i :: 0 <= i < |allowed| && EndsWith(Lower(fileName), allowed[i])
    ensures r.Err? ==> r.error == Http(BadRequest, RejectionDetail(allowed))
  {
    if exists e :: e in allowed && EndsWith(Lower(fileName), e) then Ok(())
    else Err(Http(BadRequest, RejectionDetail(allowed)))
  }

  /** With the default list the check is a suffix test without a dot: a
      name such as "resumepdf" passes. */
  lemma AcceptsNameWithoutDot()
    ensures ValidateFileExtension("resumepdf", AllowedExtensions).Ok?
  {
    LowerOfLowerCase("resumepdf");
    assert EndsWith("resumepdf", AllowedExtensions[0]);
  }

  /** Upper-case extensions pass. */
  lemma AcceptsUpperCase()
    ensures ValidateFileExtension("CV.PDF", AllowedExtensions).Ok?
  {
    var name := Lower("CV.PDF");
    assert name[3..] == "pdf";
    assert EndsWith(name, AllowedExtensions[0]);
  }

  /** ".doc" is not on the default list: a name ending in ".doc", in any
      case, is refused. */
  lemma RejectsDoc(fileName: string)
    requires EndsWith(Lower(fileName), ".doc")
    ensures ValidateFileExtension(fileName, AllowedExtensions).Err?
  {
    var name := Lower(fileName);
    assert name[|name| - 1] == 'c';
    assert "pdf"[2] == 'f' && "docx"[3] == 'x';
    forall i | 0 <= i < |AllowedExtensions| ensures !EndsWith(name, AllowedExtensions[i]) {
      var e := AllowedExtensions[i];
      if |e| <= |name| {
        assert name[|name| - |e|..][|e| - 1] != e[|e| - 1];
      }
    }
  }

  /** The detail names the default list. */
  lemma DefaultRejectionDetail()
    ensures RejectionDetail(AllowedExtensions) == "File extension not allowed. Allowed extensions are pdf, docx"
  {
    assert Join(", ", ["docx"]) == "docx";
    assert Join(", ", AllowedExtensions) == "pdf" + ", " + "docx";
  }

  /** The check looks at the lower-cased name only. */
  lemma ValidateIgnoresCase(fileName: string, allowed: seq<string>)
    ensures ValidateFileExtension(Lower(fileName), allowed) == ValidateFileExtension(fileName, allowed)
  {
    LowerIdempotent(fileName);
  }

  /** `get_content_type`: the first matching suffix, tested on the lower-cased
      name in the order .pdf, .docx, .doc, .txt. */
  function GetContentType(fileName: string): (r: string)
    ensures r == PdfType || r == DocxType || r == DocType || r == TextType || r == OctetStream
    ensures EndsWith(Lower(fileName), ".pdf") ==> r == PdfType
    ensures r == OctetStream <==>
      !(EndsWith(Lower(fileName), ".pdf") || EndsWith(Lower(fileName), ".docx")
        || EndsWith(Lower(fileName), ".doc") || EndsWith(Lower(fileName), ".txt"))
  {
    TypeBySuffix(Lower(fileName))
  }

  /** The suffix tests of `get_content_type`, on the lower-cased name. */
  function TypeBySuffix(name: string): string {
    if EndsWith(name, ".pdf") then PdfType
    else if EndsWith(name, ".docx") then DocxType
    else if EndsWith(name, ".doc") then DocType
    else if EndsWith(name, ".txt") then TextType
    else OctetStream
  }

  /** The content type does not depend on letter case. */
  lemma ContentTypeIgnoresCase(fileName: string)
    ensures GetContentType(Lower(fileName)) == GetContentType(fileName)
  {
    LowerIdempotent(fileName);
  }

  /** A name ending in ".docx", in any case, gets the Word type: ".pdf"
      cannot match as well, and ".docx" is tested before ".doc". */
  lemma ContentTypeDocx(fileName: string)
    requires EndsWith(Lower(fileName), ".docx")
    ensures GetContentType(fileName) == DocxType
  {
    LastLetterDiffers(Lower(fileName), ".docx", ".pdf");
  }

  /** A name ending in ".doc", in any case, gets the msword type: it can end
      neither with ".pdf" nor with ".docx". */
  lemma ContentTypeDoc(fileName: string)
    requires EndsWith(Lower(fileName), ".doc")
    ensures GetContentType(fileName) == DocType
  {
    var name := Lower(fileName);
    LastLetterDiffers(name, ".doc", ".pdf");
    LastLetterDiffers(name, ".doc", ".docx");
  }

  /** A name ending in ".txt", in any case, gets the text type: none of the
      three earlier suffixes can match as well. */
  lemma ContentTypeTxt(fileName: string)
    requires EndsWith(Lower(fileName), ".txt")
    ensures GetContentType(fileName) == TextType
  {
    var name := Lower(fileName);
    LastLetterDiffers(name, ".txt", ".pdf");
    LastLetterDiffers(name, ".txt", ".docx");
    LastLetterDiffers(name, ".txt", ".doc");
  }

  /** Two suffixes with different last letters cannot both end a name. */
  lemma LastLetterDiffers(name: string, a: string, b: string)
    requires EndsWith(name, a) && a != [] && b != [] && a[|a| - 1] != b[|b| - 1]
    ensures !EndsWith(name, b)
  {
    assert name[|name| - 1] == a[|a| - 1];
    if |b| <= |name| {
      assert name[|name| - |b|..][|b| - 1] == name[|name| - 1];
    }
  }

  /** A name without a dot gets the default type, even when it ends in
      the letters of an extension. */
  lemma ContentTypeWithoutDot(fileName: string)
    requires forall i :: 0 <= i < |fileName| ==> fileName[i] != '.'
    ensures GetContentType(fileName) == OctetStream
  {
    var name := Lower(fileName);
    assert forall i :: 0 <= i < |name| ==> name[i] != '.';
    NoDotNoSuffix(name, ".pdf");
    NoDotNoSuffix(name, ".docx");
    NoDotNoSuffix(name, ".doc");
    NoDotNoSuffix(name, ".txt");
  }

  /** A name without a dot does not end with a suffix that starts with one. */
  lemma NoDotNoSuffix(name: string, suffix: string)
    requires forall i :: 0 <= i < |name| ==> name[i] != '.'
    requires suffix != [] && suffix[0] == '.'
    ensures !EndsWith(name, suffix)
  {
    if |suffix| <= |name| {
      assert name[|name| - |suffix|..][0] != suffix[0];
    }
  }
}
