/**
 * Issuer, verifier and institute records as server/models/issuer_model.py,
 * verifier_model.py and institute_model.py build them before inserting.
 */
module AccountModel {
  import opened Wrappers

  /** A user record; `None` is a key the record does not have. */
  datatype Account = Account(
    id: string,
    name: Option<string>,
    email: Option<string>,
    password: Option<string>,
    institution: Option<string>,
    role: string,
    documents: seq<string>)

  /** create_issuer: every field the route passes is kept. */
  function NewIssuer(id: string, name: string, email: string, passwordHash: string, institution: string): (a: Account)
    ensures a.email == Some(email) && a.password == Some(passwordHash) && a.role == "issuer"
    ensures a.name == Some(name) && a.institution == Some(institution) && a.documents == []
  {
    Account(id, Some(name), Some(email), Some(passwordHash), Some(institution), "issuer", [])
  }

  /**
   * create_verifier: only the name is kept (with an absent organization and an empty upload
   * list); the email, password hash and institution the route passes are dropped.
   */
  function NewVerifier(id: string, name: string): (a: Account)
    ensures a.email.None? && a.password.None? && a.institution.None?
    ensures a.name == Some(name) && a.role == "verifier" && a.documents == []
  {
    Account(id, Some(name), None, None, None, "verifier", [])
  }

  /** An institute record; the creation time is not part of the model. */
  datatype Institute = Institute(id: string, name: Option<string>, kind: Option<string>, secretKey: Option<string>)
}
