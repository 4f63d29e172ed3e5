/**
 * The file-type rule and the input checks both upload handlers run before doing any work
 * (server/routes/verifier_routes.py and server/routes/issuer_routes.py hold identical copies
 * of `allowed_file` and the same check order).
 */
module UploadRules {
  import opened Wrappers
  import opened Text
  import opened AccountModel
  import Store

  const AllowedExtensions: set<string> := {"png", "jpg", "jpeg", "gif", "pdf", "tiff", "bmp"}

  /** allowed_file: there is a dot, and the lower-cased text after the last dot is an allowed extension. */
  predicate AllowedFile(filename: string) {
    '.' in filename && Lower(AfterLast(filename, '.')) in AllowedExtensions
  }

  /** The suffix after a dot that has no dot after it is exactly what `rsplit('.', 1)` keeps. */
  lemma AfterLastIsSuffixAfterLastDot(f: string, i: nat)
    requires i < |f| && f[i] == '.' && '.' !in f[i + 1..]
    ensures AfterLast(f, '.') == f[i + 1..]
  {
  }

  /** allowed_file accepts a name exactly when some dot, the last one, is followed by an allowed extension. */
  lemma AllowedFileIff(f: string)
    ensures AllowedFile(f) <==>
      exists i :: 0 <= i < |f| && f[i] == '.' && '.' !in f[i + 1..] && Lower(f[i + 1..]) in AllowedExtensions
  {
    if AllowedFile(f) {
      var r := AfterLast(f, '.');
      var i := |f| - |r| - 1;
      assert f[i + 1..] == r;
    }
    if exists i :: 0 <= i < |f| && f[i] == '.' && '.' !in f[i + 1..] && Lower(f[i + 1..]) in AllowedExtensions {
      var i :| 0 <= i < |f| && f[i] == '.' && '.' !in f[i + 1..] && Lower(f[i + 1..]) in AllowedExtensions;
      AfterLastIsSuffixAfterLastDot(f, i);
    }
  }

  /** The extension is matched case-insensitively. */
  lemma UpperCaseExtensionAccepted()
    ensures AllowedFile("x.PDF")
  {
    AfterLastIsSuffixAfterLastDot("x.PDF", 1);
    assert Lower("PDF") == "pdf";
  }

  /** Only the last extension counts, so a double extension ending in a foreign one is refused. */
  lemma DoubleExtensionRejected()
    ensures !AllowedFile("a.pdf.exe")
  {
    AfterLastIsSuffixAfterLastDot("a.pdf.exe", 5);
    assert Lower("exe") == "exe";
  }

  /** A name without a dot, or ending in a dot, is refused. */
  lemma MissingExtensionRejected()
    ensures !AllowedFile("noext") && !AllowedFile("x.")
  {
    AfterLastIsSuffixAfterLastDot("x.", 1);
    assert "noext"[2] != '.';
  }

  datatype Role = IssuerRole | VerifierRole

  /** The multipart request: the file part's name (`None` without a file part) and the form fields. */
  datatype UploadForm = UploadForm(filename: Option<string>, actorId: Option<string>, documentType: Option<string>)

  /** What the cloud storage upload returned. */
  datatype CloudUpload = CloudFailed(error: string) | CloudStored(secureUrl: string, publicId: string)

  datatype Validation =
    | Accepted(filename: string, actorId: string, actor: Account)
    | Rejected(code: nat, error: string)

  /** A form value Python treats as true: present and not empty. */
  predicate Given(v: Option<string>) {
    v.Some? && v.value != ""
  }

  function IdRequiredMessage(role: Role): string {
    if role == IssuerRole then "Issuer ID is required" else "Verifier ID is required"
  }

  function NotFoundMessage(role: Role): string {
    if role == IssuerRole then "Issuer not found" else "Verifier not found"
  }

  /**
   * The account lookup. get_issuer converts the id to an ObjectId first, which raises on
   * malformed text; get_verifier looks the text up as it is.
   */
  function LookupActor(role: Role, id: string, actors: seq<Account>): (r: Validation)
    ensures r.Accepted? ==> r.actor in actors && r.actor.id == id && r.actorId == id
    ensures r.Rejected? ==> r.code == 404 || (r.code == 500 && role == IssuerRole)
  {
    if role == IssuerRole && !Store.IsObjectIdText(id) then Rejected(500, "Failed to upload document")
    else match Store.FindAccountById(actors, id)
      case None => Rejected(404, NotFoundMessage(role))
      case Some(a) => Accepted("", id, a)
  }

  lemma FindAccountByIdSpec(actors: seq<Account>, id: string)
    ensures Store.FindAccountById(actors, id).Some? <==> exists a :: a in actors && a.id == id
    ensures Store.FindAccountById(actors, id).Some? ==>
      Store.FindAccountById(actors, id).value in actors && Store.FindAccountById(actors, id).value.id == id
  {
    var k := Store.FirstIndex(actors, (a: Account) => a.id == id);
    if k.None? {
      forall a | a in actors ensures a.id != id {
        var j :| 0 <= j < |actors| && actors[j] == a;
      }
    }
  }

  /**
   * The checks of both upload handlers, in their order: no file part, empty filename,
   * disallowed extension, missing id (all 400), then the account lookup: a malformed issuer
   * id 500, an unknown account 404. The first failing check decides the response.
   */
  function ValidateUpload(role: Role, form: UploadForm, actors: seq<Account>): (v: Validation)
    ensures form.filename.None? ==> v == Rejected(400, "No file uploaded")
    ensures form.filename == Some("") ==> v == Rejected(400, "No file selected")
    ensures Given(form.filename) && !AllowedFile(form.filename.value) ==> v == Rejected(400, "Invalid file type")
    ensures Given(form.filename) && AllowedFile(form.filename.value) && !Given(form.actorId) ==>
      v == Rejected(400, IdRequiredMessage(role))
    ensures Given(form.filename) && AllowedFile(form.filename.value) && Given(form.actorId)
            && role == IssuerRole && !Store.IsObjectIdText(form.actorId.value) ==>
      v == Rejected(500, "Failed to upload document")
    ensures Given(form.filename) && AllowedFile(form.filename.value) && Given(form.actorId)
            && (role == VerifierRole || Store.IsObjectIdText(form.actorId.value))
            && (forall a :: a in actors ==> a.id != form.actorId.value) ==>
      v == Rejected(404, NotFoundMessage(role))
    ensures v.Accepted? <==>
      Given(form.filename) && AllowedFile(form.filename.value) && Given(form.actorId)
      && (role == VerifierRole || Store.IsObjectIdText(form.actorId.value))
      && exists a :: a in actors && a.id == form.actorId.value
    ensures v.Accepted? ==>
      v.filename == form.filename.value && v.actorId == form.actorId.value && v.actor in actors && v.actor.id == v.actorId
    ensures v.Rejected? ==> v.code in {400, 404, 500}
  {
    FindAccountByIdSpec(actors, if form.actorId.Some? then form.actorId.value else "");
    if form.filename.None? then Rejected(400, "No file uploaded")
    else if form.filename.value == "" then Rejected(400, "No file selected")
    else if !AllowedFile(form.filename.value) then Rejected(400, "Invalid file type")
    else if !Given(form.actorId) then Rejected(400, IdRequiredMessage(role))
    else match LookupActor(role, form.actorId.value, actors)
      case Rejected(code, error) => Rejected(code, error)
      case Accepted(_, id, a) => Accepted(form.filename.value, id, a)
  }
}
