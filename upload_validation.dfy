/** The upload and import request checks of file_processing/serializers.py:
 *  FileUploadSerializer.validate_file and validate_supermarket, and
 *  ProductImportSerializer.validate_upload_session. */
module UploadValidation {
  import opened Wrappers
  import opened Texts
  import opened UploadSessions

  /** A check either passes with a value or fails with its message. */
  datatype Checked<T> = Pass(value: T) | Fail(message: string)

  /** The largest accepted upload: 10 MB. */
  const MaxUploadBytes: int := 10 * 1024 * 1024

  const TooLarge := "File size cannot exceed 10MB"

  /** The extensions allowed per upload type, or None for a type the table
   *  does not list (the raw request value is looked up, so "excel" is not
   *  listed). */
  function AllowedExtensions(uploadType: string): (r: Option<seq<string>>)
    ensures r.Some? <==> uploadType in {"EXCEL", "IMAGE", "CSV"}
  {
    if uploadType == "EXCEL" then Some([".xlsx", ".xls"])
    else if uploadType == "IMAGE" then Some([".jpg", ".jpeg", ".png", ".bmp", ".tiff"])
    else if uploadType == "CSV" then Some([".csv"])
    else None
  }

  /** s.split('.')[-1]: the longest dot-free tail of s. */
  function AfterLastDot(s: string): (r: string)
    ensures |r| <= |s| && r == s[|s| - |r|..]
    ensures '.' !in r
    ensures |r| < |s| ==> s[|s| - |r| - 1] == '.'
  {
    if '.' !in s then s else AfterLastDot(s[1..])
  }

  /** The extension compared against the table: the text after the last
   *  dot of the lower-cased name, with a dot put in front. */
  function Extension(name: string): string
  {
    "." + AfterLastDot(Lower(name))
  }

  function BadType(uploadType: string, allowed: seq<string>): string
  {
    "Invalid file type for " + uploadType + ". Allowed: " + Join(allowed, ", ")
  }

  /** validate_file: the size check first, then the extension check, which
   *  applies only to an upload type the table lists. */
  function ValidateFile(size: int, name: string, uploadType: Option<string>): (r: Checked<()>)
    ensures r.Pass? <==>
      size <= MaxUploadBytes
      && (uploadType.None? || AllowedExtensions(uploadType.value).None?
          || Extension(name) in AllowedExtensions(uploadType.value).value)
    ensures size > MaxUploadBytes ==> r == Fail(TooLarge)
  {
    if size > MaxUploadBytes then Fail(TooLarge)
    else if uploadType.Some? && AllowedExtensions(uploadType.value).Some? then
      var allowed := AllowedExtensions(uploadType.value).value;
      if Extension(name) in allowed then Pass(()) else Fail(BadType(uploadType.value, allowed))
    else Pass(())
  }

  /** The last dot decides: whatever comes before it, the extension is the
   *  dot-free text after it. */
  lemma {:induction false} AfterLastDotSplit(base: string, ext: string)
    requires '.' !in ext
    ensures AfterLastDot(base + "." + ext) == ext
  {
    var s := base + "." + ext;
    var r := AfterLastDot(s);
    assert s[|s| - |ext| - 1] == '.';
    assert r == ext;
  }

  lemma {:induction false} LowerAppend(a: string, b: string)
    ensures Lower(a + b) == Lower(a) + Lower(b)
  {
    assert forall i :: 0 <= i < |a + b| ==> Lower(a + b)[i] == (Lower(a) + Lower(b))[i];
  }

  /** The extension of a name ending in a dot and a dot-free tail. */
  lemma {:induction false} ExtensionOf(base: string, tail: string)
    requires '.' !in tail
    ensures Extension(base + "." + tail) == "." + Lower(tail)
  {
    LowerAppend(base + ".", tail);
    LowerAppend(base, ".");
    assert Lower(".") == ".";
    assert Lower(base + "." + tail) == Lower(base) + "." + Lower(tail);
    assert '.' !in Lower(tail);
    AfterLastDotSplit(Lower(base), Lower(tail));
  }

  /** A name with no dot at all is its own extension: a file called "xlsx"
   *  passes as an Excel upload. */
  lemma {:induction false} DotlessNamePasses()
    ensures ValidateFile(100, "xlsx", Some("EXCEL")) == Pass(())
  {
    assert '.' !in Lower("xlsx");
    assert Extension("xlsx") == ".xlsx";
  }

  /** Exactly 10 MB passes with a listed extension; one byte more fails on
   *  size whatever the name. */
  lemma {:induction false} SizeBoundary(base: string)
    ensures ValidateFile(MaxUploadBytes, base + "." + "xlsx", Some("EXCEL")) == Pass(())
    ensures ValidateFile(MaxUploadBytes + 1, base + "." + "xlsx", Some("EXCEL")) == Fail(TooLarge)
  {
    ExtensionOf(base, "xlsx");
    assert Extension(base + "." + "xlsx") == ".xlsx";
  }

  /** The check ignores the case of the name. */
  lemma {:induction false} CaseIgnored(size: int, name: string, uploadType: Option<string>)
    ensures ValidateFile(size, Lower(name), uploadType) == ValidateFile(size, name, uploadType)
  {
    LowerIdempotent(name);
  }

  /** An upload type outside the table skips the extension check. */
  lemma {:induction false} UnlistedTypeSkipsExtension(size: int, name: string, uploadType: string)
    requires size <= MaxUploadBytes && uploadType !in {"EXCEL", "IMAGE", "CSV"}
    ensures ValidateFile(size, name, Some(uploadType)) == Pass(())
  {
  }

  /** Only the last extension counts: "report.xlsx.exe" is not an Excel file. */
  lemma {:induction false} DoubleExtensionRejected(size: int, base: string)
    ensures ValidateFile(size, base + "." + "exe", Some("EXCEL")).Fail?
  {
    ExtensionOf(base, "exe");
    assert Extension(base + "." + "exe") == ".exe";
  }

  // ---------------------------------------------------------------------
  // Ownership checks

  const SupermarketNotFound := "Supermarket not found"
  const NoUploadPermission := "You don't have permission to upload to this supermarket"

  /** validate_supermarket over the owner of each supermarket. */
  function ValidateSupermarket(id: nat, user: nat, owners: map<nat, nat>): (r: Checked<nat>)
    ensures r.Pass? <==> id in owners && owners[id] == user
    ensures r.Pass? ==> r.value == id
    ensures id !in owners <==> r == Fail(SupermarketNotFound)
  {
    if id !in owners then Fail(SupermarketNotFound)
    else if owners[id] != user then Fail(NoUploadPermission)
    else Pass(id)
  }

  /** What validate_upload_session reads of a session. */
  datatype SessionView = SessionView(user: nat, status: SessionStatus)

  const SessionNotFound := "Upload session not found"
  const NoSessionPermission := "You don't have permission to access this upload session"
  const NotCompleted := "Upload session is not completed yet"

  /** validate_upload_session: the session must exist, belong to the user
   *  and be COMPLETED, checked in that order. */
  function ValidateUploadSession(id: nat, user: nat, sessions: map<nat, SessionView>): (r: Checked<nat>)
    ensures r.Pass? <==> id in sessions && sessions[id].user == user && sessions[id].status == Completed
    ensures r.Pass? ==> r.value == id
    ensures id in sessions && sessions[id].user != user ==> r == Fail(NoSessionPermission)
  {
    if id !in sessions then Fail(SessionNotFound)
    else if sessions[id].user != user then Fail(NoSessionPermission)
    else if sessions[id].status != Completed then Fail(NotCompleted)
    else Pass(id)
  }

  /** Another user's session is refused on ownership even when it is not
   *  completed: ownership is checked first. */
  lemma {:induction false} OwnershipCheckedFirst(id: nat, user: nat, other: nat)
    requires user != other
    ensures ValidateUploadSession(id, user, map[id := SessionView(other, Processing)]) == Fail(NoSessionPermission)
  {
  }
}
