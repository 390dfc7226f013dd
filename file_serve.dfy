/**
 * Serving generated quotations and stored price lists over HTTP
 * (src/communication/whatsapp/file_serve.rs). The URL-decoding of the path segment and the
 * filesystem read are inputs: `decoded` is the decoding's outcome (None when it fails) and
 * `read` maps a path to its contents or to the I/O error's text.
 */
module FileServe {

  import opened Wrappers
  import opened Text

  /** `is_safe_filename`. `len()` counts UTF-8 bytes and `trim()` removes Unicode white space. */
  function IsSafeFilename(name: string): (r: bool)
  {
    !Contains(name, "..")
    && '/' !in name
    && '\\' !in name
    && !StartsWith(name, ".")
    && name != []
    && Trim(name) != []
    && Utf8Len(name) <= 255
  }

  /** A name is a single, visible path component of at most 255 UTF-8 bytes. */
  predicate SingleVisibleComponent(name: string)
  {
    && (forall i :: 0 <= i < |name| ==> name[i] != '/' && name[i] != '\\')
    && !HasDotDot(name)
    && 0 < |name|
    && name[0] != '.'
    && !AllWhitespace(name)
    && Utf8Len(name) <= 255
  }

  /** `name` has two consecutive dots somewhere. */
  predicate HasDotDot(name: string)
  {
    exists i :: 0 <= i < |name| - 1 && name[i] == '.' && name[i + 1] == '.'
  }

  lemma {:induction false} ContainsDotDotIff(name: string)
    ensures Contains(name, "..") <==> HasDotDot(name)
  {
    ContainsIff(name, "..");
    if Contains(name, "..") {
      var i :| OccursAt(name, "..", i);
      assert name[i] == name[i..i + 2][0];
      assert name[i + 1] == name[i..i + 2][1];
    }
    if HasDotDot(name) {
      var i :| 0 <= i < |name| - 1 && name[i] == '.' && name[i + 1] == '.';
      assert name[i..i + 2] == "..";
      assert OccursAt(name, "..", i);
    }
  }

  /**
   * A name is safe exactly when it has no separator, no "..", no leading '.', is neither empty
   * nor blank, and fits in 255 bytes.
   */
  lemma SafeFilenameIff(name: string)
    ensures IsSafeFilename(name) <==> SingleVisibleComponent(name)
  {
    ContainsDotDotIff(name);
    TrimEmptyIffAllWhitespace(name);
    if SingleVisibleComponent(name) {
      assert IsSafeFilename(name);
    }
    if IsSafeFilename(name) {
      assert SingleVisibleComponent(name);
    }
  }

  /** Names made of one repeated character, such as the 255 and 256 `a`s of the tests. */
  function Repeat(c: char, n: nat): (r: string)
    ensures |r| == n
    ensures forall i :: 0 <= i < n ==> r[i] == c
  {
    seq(n, _ => c)
  }

  lemma RepeatAsciiIsSafe(n: nat)
    ensures IsSafeFilename(Repeat('a', n)) <==> 1 <= n <= 255
  {
    var s := Repeat('a', n);
    Utf8LenAscii(s);
    SafeFilenameIff(s);
    if 1 <= n {
      assert !IsWhitespace(s[0]);
    }
  }

  /** An ASCII name with a visible first character and no separator or "..", of at most 255 bytes, is safe. */
  lemma {:induction false} PlainAsciiNameIsSafe(name: string)
    requires 0 < |name| <= 255 && name[0] != '.' && !IsWhitespace(name[0])
    requires forall i :: 0 <= i < |name| ==> name[i] as int < 0x80 && name[i] != '/' && name[i] != '\\'
    requires !HasDotDot(name)
    ensures IsSafeFilename(name)
  {
    Utf8LenAscii(name);
    SafeFilenameIff(name);
  }

  // Names accepted and rejected beside `is_safe_filename`, one ordinary name per lemma.

  lemma AcceptsDocumentName()
    ensures IsSafeFilename("document.pdf")
  {
    PlainAsciiNameIsSafe("document.pdf");
  }

  lemma AcceptsQuotationName()
    ensures IsSafeFilename("quotation_2024_001.pdf")
  {
    PlainAsciiNameIsSafe("quotation_2024_001.pdf");
  }

  lemma AcceptsPriceListName()
    ensures IsSafeFilename("price-list-kei.pdf")
  {
    PlainAsciiNameIsSafe("price-list-kei.pdf");
  }

  /** Traversal attempts, hidden files and the bare dot names are rejected. */
  lemma RejectsTraversalAndHidden()
    ensures !IsSafeFilename("../etc/passwd")
    ensures !IsSafeFilename("..\\windows\\system32")
    ensures !IsSafeFilename(".env")
    ensures !IsSafeFilename("..")
    ensures !IsSafeFilename(".")
  {
  }

  /** Names with a directory separator are rejected. */
  lemma RejectsSeparators()
    ensures !IsSafeFilename("dir/file.pdf")
    ensures !IsSafeFilename("dir/../file.pdf")
    ensures !IsSafeFilename("folder\\file.pdf")
    ensures !IsSafeFilename("/etc/passwd")
  {
    assert "dir/file.pdf"[3] == '/';
    assert "dir/../file.pdf"[3] == '/';
    assert "folder\\file.pdf"[6] == '\\';
  }

  /** Empty, blank and overlong names are rejected. */
  lemma RejectsEmptyBlankAndLong()
    ensures !IsSafeFilename("")
    ensures !IsSafeFilename(" ")
    ensures !IsSafeFilename(Repeat('a', 256))
  {
    TrimEmptyIffAllWhitespace(" ");
    RepeatAsciiIsSafe(256);
  }

  datatype StatusCode = OK | BadRequest | NotFound

  type Bytes = seq<bv8>

  /**
   * What a request produces: the response (the PDF bytes or an error status), the path that was
   * read if any, and the alert sent to the error channel if any.
   */
  datatype ServeOutcome = ServeOutcome(response: Result<Bytes, StatusCode>, pathRead: Option<string>, alert: Option<string>)

  const ArtifactsDir := "artifacts/"
  const PricelistsDir := "assets/pricelists/"

  /** The shared body of `serve_file` and `serve_assets_file`, reading below `dir`. */
  function ServeFrom(dir: string, decoded: Option<string>, read: string -> Result<Bytes, string>): (r: ServeOutcome)
  {
    if decoded.None? || !IsSafeFilename(decoded.value) then
      ServeOutcome(Failure(BadRequest), None, None)
    else
      var path := dir + decoded.value;
      var contents := read(path);
      if contents.Success? then ServeOutcome(Success(contents.value), Some(path), None)
      else ServeOutcome(Failure(NotFound), Some(path),
                        Some("\U{274C} File Serve Error\n\nFile: " + path + "\nError: " + contents.error))
  }

  function ServeFile(decoded: Option<string>, read: string -> Result<Bytes, string>): ServeOutcome
  {
    ServeFrom(ArtifactsDir, decoded, read)
  }

  function ServeAssetsFile(decoded: Option<string>, read: string -> Result<Bytes, string>): ServeOutcome
  {
    ServeFrom(PricelistsDir, decoded, read)
  }

  /**
   * A name that fails to decode or is unsafe gets BAD_REQUEST with nothing read and no alert.
   * Otherwise exactly the file `dir + name` is read, it lies directly in `dir` (no separator
   * after the directory prefix), its contents are returned, and a failed read gives NOT_FOUND
   * together with an alert naming the path.
   */
  lemma {:induction false} ServeFromSpec(dir: string, decoded: Option<string>, read: string -> Result<Bytes, string>)
    ensures var o := ServeFrom(dir, decoded, read);
      && (decoded.None? || !IsSafeFilename(decoded.value) <==> o.response == Failure(BadRequest))
      && (o.response == Failure(BadRequest) ==> o.pathRead.None? && o.alert.None?)
      && (o.pathRead.Some? ==>
            && decoded.Some? && IsSafeFilename(decoded.value)
            && o.pathRead.value == dir + decoded.value
            && (forall i :: |dir| <= i < |o.pathRead.value| ==> o.pathRead.value[i] != '/')
            && (read(o.pathRead.value).Success? ==> o.response == Success(read(o.pathRead.value).value) && o.alert.None?)
            && (read(o.pathRead.value).Failure? ==> o.response == Failure(NotFound) && o.alert.Some?))
  {
    if decoded.Some? && IsSafeFilename(decoded.value) {
      SafeFilenameIff(decoded.value);
      var path := dir + decoded.value;
      forall i | |dir| <= i < |path|
        ensures path[i] != '/'
      {
        assert path[i] == decoded.value[i - |dir|];
      }
    }
  }

  /** Both handlers read only inside their own directory. */
  lemma HandlersReadOnlyInTheirDirectory(decoded: Option<string>, read: string -> Result<Bytes, string>)
    ensures ServeFile(decoded, read).pathRead.Some? ==>
              StartsWith(ServeFile(decoded, read).pathRead.value, "artifacts/")
    ensures ServeAssetsFile(decoded, read).pathRead.Some? ==>
              StartsWith(ServeAssetsFile(decoded, read).pathRead.value, "assets/pricelists/")
  {
    ServeFromSpec(ArtifactsDir, decoded, read);
    ServeFromSpec(PricelistsDir, decoded, read);
    if decoded.Some? {
      assert (ArtifactsDir + decoded.value)[..|ArtifactsDir|] == ArtifactsDir;
      assert (PricelistsDir + decoded.value)[..|PricelistsDir|] == PricelistsDir;
    }
  }
}
