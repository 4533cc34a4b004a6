/** Image upload: the emptiness and size checks, the extension kept from
    the client's file name, and the URLs built for the stored file. The
    directory creation and the file write are effects outside the model;
    their IOException is an input. The attachment insert is assumed to
    succeed. */
module BlogController {
  import opened Common

  /** 50 MiB. */
  const MaxSize: int := 50 * 1024 * 1024
  const ImagesPath: string := "/images/"
  const EmptyFileMessage: string := "파일이 비어 있습니다."
  const TooLargeMessage: string := "파일 크기는 50MB를 초과할 수 없습니다."
  const UploadFailedPrefix: string := "파일 업로드 실패: "

  /** An uploaded part; a part is empty when it has zero bytes. */
  datatype MultipartFile = MultipartFile(originalFilename: string, contentType: Option<string>, size: nat)
  {
    predicate IsEmpty()
    {
      size == 0
    }
  }

  /** The attachment row written for a stored image. */
  datatype BlogAttachment = BlogAttachment(blogPostId: Option<int>, fileUrl: string, fileType: Option<string>, fileSize: int)

  datatype UploadResponse =
    | BadRequest(error: string)                        // 400
    | Uploaded(url: string, attachment: BlogAttachment) // 200; the attachment is saved
    | UploadFailed(error: string)                      // 500, an IOException from the file system

  /** Java `String.lastIndexOf(char)`: the last position holding `c`, or -1. */
  function LastIndexOf(s: string, c: char): (i: int)
    ensures -1 <= i < |s|
    ensures i >= 0 ==> s[i] == c
    ensures forall j :: i < j < |s| ==> s[j] != c
  {
    if s == [] then -1
    else if s[|s| - 1] == c then |s| - 1
    else LastIndexOf(s[..|s| - 1], c)
  }

  /** The suffix from the last '.' when the name has one, else "": empty
      exactly for names without a '.', otherwise a suffix of the name that
      starts with its only '.'. */
  function Extension(filename: string): (ext: string)
    ensures ext == "" <==> '.' !in filename
    ensures ext != "" ==> ext[0] == '.' && '.' !in ext[1..]
    ensures |ext| <= |filename| && filename[|filename| - |ext|..] == ext
  {
    if '.' in filename then filename[LastIndexOf(filename, '.')..] else ""
  }

  /** The stored name is the random id followed by the extension; for an id
      without '.' (a UUID), the stored name has the same extension as the
      client's name. */
  lemma ExtensionPreserved(id: string, filename: string)
    requires '.' !in id
    ensures Extension(id + Extension(filename)) == Extension(filename)
  {
  }

  /** Java `Character.isWhitespace`: the Unicode space, line and paragraph
      separators other than the three no-break spaces, and the ASCII and
      information-separator controls U+0009-U+000D, U+001C-U+001F. */
  predicate IsJavaWhitespace(c: char)
  {
    var n := c as int;
    || 0x09 <= n <= 0x0D
    || 0x1C <= n <= 0x20
    || n == 0x1680
    || 0x2000 <= n <= 0x2006
    || 0x2008 <= n <= 0x200A
    || n == 0x2028 || n == 0x2029 || n == 0x205F || n == 0x3000
  }

  /** Java `String.isBlank`. */
  predicate IsBlank(s: string)
  {
    forall i :: 0 <= i < |s| ==> IsJavaWhitespace(s[i])
  }

  /** The public URL: the configured backend URL in front of the image path
      when that URL is set and not blank. */
  function FullImageUrl(backendUrl: Option<string>, imageUrl: string): string
  {
    if backendUrl.Some? && !IsBlank(backendUrl.value) then backendUrl.value + imageUrl else imageUrl
  }

  /** One upload. `cleanPath` is the path normaliser applied to the client's
      name, `randomId` the fresh UUID text, and `ioError` the message of an
      IOException from creating the directory or writing the file. */
  function UploadImage(file: MultipartFile, cleanPath: string -> string, randomId: string,
                       backendUrl: Option<string>, ioError: Option<string>): UploadResponse
  {
    if file.IsEmpty() then BadRequest(EmptyFileMessage)
    else if file.size > MaxSize then BadRequest(TooLargeMessage)
    else if ioError.Some? then UploadFailed(UploadFailedPrefix + ioError.value)
    else
      var newFilename := randomId + Extension(cleanPath(file.originalFilename));
      var imageUrl := ImagesPath + newFilename;
      Uploaded(FullImageUrl(backendUrl, imageUrl), BlogAttachment(None, imageUrl, file.contentType, file.size))
  }

  /** The checks in order: empty first (even for any other input), then
      anything over 50 MiB; a file of exactly 50 MiB passes them. */
  lemma UploadChecks(file: MultipartFile, cleanPath: string -> string, randomId: string,
                     backendUrl: Option<string>, ioError: Option<string>)
    ensures var r := UploadImage(file, cleanPath, randomId, backendUrl, ioError);
      && (file.size == 0 ==> r == BadRequest(EmptyFileMessage))
      && (file.size > 52428800 ==> r == BadRequest(TooLargeMessage))
      && (0 < file.size <= 52428800 && ioError.None? ==> r.Uploaded?)
      && (r.BadRequest? <==> file.size == 0 || file.size > 52428800)
  {
  }

  /** A stored upload: the attachment has no post yet, the file's size and
      type, and the URL "/images/" + id + extension; the returned URL ends
      with that path and starts with the backend URL when one is set. */
  lemma UploadedFile(file: MultipartFile, cleanPath: string -> string, randomId: string,
                     backendUrl: Option<string>, ioError: Option<string>)
    requires UploadImage(file, cleanPath, randomId, backendUrl, ioError).Uploaded?
    ensures var r := UploadImage(file, cleanPath, randomId, backendUrl, ioError);
      var imageUrl := ImagesPath + randomId + Extension(cleanPath(file.originalFilename));
      && r.attachment == BlogAttachment(None, imageUrl, file.contentType, file.size)
      && |imageUrl| <= |r.url| && r.url[|r.url| - |imageUrl|..] == imageUrl
      && (backendUrl.Some? && !IsBlank(backendUrl.value) ==> r.url == backendUrl.value + imageUrl)
      && (backendUrl.None? || IsBlank(backendUrl.value) ==> r.url == imageUrl)
  {
  }

  /** An empty or all-whitespace backend URL is ignored. */
  lemma BlankBackendIgnored(backendUrl: string, imageUrl: string)
    requires IsBlank(backendUrl)
    ensures FullImageUrl(Some(backendUrl), imageUrl) == imageUrl
    ensures FullImageUrl(Some(""), imageUrl) == imageUrl
    ensures FullImageUrl(Some(" \t"), imageUrl) == imageUrl
  {
  }
}
