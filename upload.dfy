/**
 * The pure part of `upload_file`: the extension allow-list and the reply
 * that wraps the uploaded text in a fenced code block.
 */
module Upload {
  import opened Wrappers
  import opened Text
  import Json
  import Http

  /** `ALLOWED_EXTENSIONS` of the application config. */
  const AllowedExtensions: set<string> := {"txt", "pdf", "docx"}

  /** `f` is `pre + "." + ext` with no `.` in `ext`: the split at the last dot. */
  predicate SplitsAtLastDot(f: string, pre: string, ext: string) {
    f == pre + "." + ext && '.' !in ext
  }

  /** `filename.rsplit('.', 1)[1]`, or None when the name has no dot. */
  function Extension(filename: string): (r: Option<string>)
    ensures r.None? <==> '.' !in filename
    ensures r.Some? ==> |r.value| < |filename|
    ensures r.Some? ==> SplitsAtLastDot(filename, filename[..|filename| - |r.value| - 1], r.value)
  {
    match LastIndexOf(filename, '.')
    case None => None
    case Some(i) =>
      var ext := filename[i + 1..];
      assert filename == filename[..i] + "." + ext;
      assert '.' !in ext by {
        forall k | 0 <= k < |ext| ensures ext[k] != '.' {
          assert ext[k] == filename[i + 1 + k];
        }
      }
      Some(ext)
  }

  /** Whatever split at the last dot one writes down, Extension finds that same one. */
  lemma ExtensionOfSplit(f: string, pre: string, ext: string)
    requires SplitsAtLastDot(f, pre, ext)
    ensures Extension(f) == Some(ext)
  {
    assert f[|pre|] == '.';
    var i := LastIndexOf(f, '.').value;
    assert f[i + 1..] == ext;
  }

  /**
   * `allowed_file`: true exactly when the name splits at its last dot into
   * an extension whose lower-case form is allowed.
   */
  function AllowedFile(filename: string): (ok: bool)
    ensures ok <==> exists pre, ext :: SplitsAtLastDot(filename, pre, ext) && Lower(ext) in AllowedExtensions
  {
    assert forall pre, ext | SplitsAtLastDot(filename, pre, ext) :: Extension(filename) == Some(ext) by {
      forall pre, ext | SplitsAtLastDot(filename, pre, ext) ensures Extension(filename) == Some(ext) {
        ExtensionOfSplit(filename, pre, ext);
      }
    }
    match Extension(filename)
    case None => false
    case Some(ext) => Lower(ext) in AllowedExtensions
  }

  /** Two extensions that lower-case alike are accepted or refused together, whatever comes before the dot. */
  lemma AllowedFileIgnoresCaseOf(pre: string, e1: string, e2: string)
    requires '.' !in e1 && Lower(e1) == Lower(e2)
    ensures AllowedFile(pre + "." + e1) == AllowedFile(pre + "." + e2)
  {
    assert '.' !in e2 by {
      forall k | 0 <= k < |e2| ensures e2[k] != '.' {
        assert Lower(e1)[k] == Lower(e2)[k];
      }
    }
    ExtensionOfSplit(pre + "." + e1, pre, e1);
    ExtensionOfSplit(pre + "." + e2, pre, e2);
  }

  /** The extension is compared without regard to case. */
  lemma AllowedFileIgnoresCase()
    ensures AllowedFile("a.TXT")
    ensures AllowedFile("report.Docx")
  {
    ExtensionOfSplit("a.TXT", "a", "TXT");
    assert Lower("TXT") == "txt";
    ExtensionOfSplit("report.Docx", "report", "Docx");
    assert Lower("Docx") == "docx";
  }

  /** Only the text after the last dot is the extension. */
  lemma AllowedFileUsesLastDot()
    ensures AllowedFile("x.tar.txt")
    ensures !AllowedFile("a.txt.exe")
  {
    ExtensionOfSplit("x.tar.txt", "x.tar", "txt");
    LowerOfLowerCase("txt");
    ExtensionOfSplit("a.txt.exe", "a.txt", "exe");
    LowerOfLowerCase("exe");
  }

  /** A name without a dot, or ending in one, is refused. */
  lemma AllowedFileNeedsExtension()
    ensures !AllowedFile("txt")
    ensures !AllowedFile("a.")
  {
  }

  /**
   * `filename.split('.')[-1]`: the text after the last dot, or the whole
   * name when it has none. Its case is kept.
   */
  function FenceTag(filename: string): (tag: string)
    ensures '.' !in tag
    ensures |tag| <= |filename| && filename[|filename| - |tag|..] == tag
    ensures |tag| == |filename| || filename[|filename| - |tag| - 1] == '.'
  {
    match Extension(filename)
    case None => filename
    case Some(ext) => ext
  }

  /**
   * The code fence: three backticks and the tag, a line break, the content,
   * a line break and three closing backticks.
   */
  function Fence(tag: string, content: string): (r: string)
    ensures |r| == |tag| + |content| + 8
    ensures r[..3] == "```" && r[3..3 + |tag|] == tag && r[3 + |tag|] == '\n'
    ensures r[4 + |tag|..|r| - 4] == content && r[|r| - 4..] == "\n```"
  {
    "```" + tag + "\n" + content + "\n```"
  }

  /** Reads a code fence back into its language tag and its content. */
  function Unfence(s: string): Option<(string, string)> {
    if |s| < 8 || s[..3] != "```" || s[|s| - 4..] != "\n```" then None
    else
      var body := s[3..|s| - 4];
      match FirstIndexOf(body, '\n')
      case None => None
      case Some(k) => Some((body[..k], body[k + 1..]))
  }

  /** A fence whose tag has no line break gives back its tag and its content unchanged. */
  lemma UnfenceFence(tag: string, content: string)
    requires '\n' !in tag
    ensures Unfence(Fence(tag, content)) == Some((tag, content))
  {
    var s := Fence(tag, content);
    assert s[..3] == "```";
    assert s[|s| - 4..] == "\n```";
    var body := s[3..|s| - 4];
    assert body == tag + "\n" + content;
    assert body[|tag|] == '\n';
    assert body[..|tag|] == tag;
    var k := FirstIndexOf(body, '\n').value;
    assert body[k + 1..] == content;
  }

  /** The upload reply: one assistant choice whose content is the fenced file text. */
  function UploadReply(filename: string, content: string): Json.Value {
    Json.SingleChoice(Json.AssistantMessage(Fence(FenceTag(filename), content)))
  }

  /**
   * `upload_file` after Flask and the filesystem. `original` is the uploaded
   * file's name (None when no `file` part was sent), `sanitised` the name
   * `secure_filename` gives it, and `content` the text read back from disk
   * (None when saving, reading as UTF-8 or removing the file raised).
   */
  function UploadFile(original: Option<string>, sanitised: string, content: Option<string>): (r: Http.Response)
    ensures original.None? ==> r == Http.Fail(400, "No file uploaded")
    ensures original == Some("") ==> r == Http.Fail(400, "Empty filename")
    ensures original.Some? && original.value != "" && !AllowedFile(original.value) ==>
      r == Http.Fail(400, "Unsupported file type")
    ensures r.Ok? <==> original.Some? && AllowedFile(original.value) && content.Some?
    ensures original.Some? && original.value != "" && AllowedFile(original.value) && content.None? ==>
      r == Http.InternalError
    ensures r.Ok? ==>
      r.body == Json.SingleChoice(Json.AssistantMessage(Fence(FenceTag(sanitised), content.value)))
  {
    if original.None? then Http.Fail(400, "No file uploaded")
    else if original.value == "" then Http.Fail(400, "Empty filename")
    else if AllowedFile(original.value) then
      match content
      case None => Http.InternalError
      case Some(text) => Http.Ok(UploadReply(sanitised, text))
    else Http.Fail(400, "Unsupported file type")
  }

  /** An upload of `a.txt` holding `hi` is answered with "```txt\nhi\n```". */
  lemma UploadExample()
    ensures UploadFile(Some("a.txt"), "a.txt", Some("hi")) == Http.Ok(UploadReply("a.txt", "hi"))
    ensures Fence(FenceTag("a.txt"), "hi") == "```txt\nhi\n```"
  {
    ExtensionOfSplit("a.txt", "a", "txt");
    LowerOfLowerCase("txt");
    assert FenceTag("a.txt") == "txt";
  }

  /** The fence tag keeps the case of the file name: `A.TXT` gives "```TXT\nhi\n```". */
  lemma FenceKeepsCase()
    ensures Fence(FenceTag("A.TXT"), "hi") == "```TXT\nhi\n```"
  {
    ExtensionOfSplit("A.TXT", "A", "TXT");
    assert FenceTag("A.TXT") == "TXT";
  }
}
