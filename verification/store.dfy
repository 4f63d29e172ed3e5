/**
 * The MongoDB collections the routes use (server/database.py), as one object whose fields
 * the routes update in place. Collections are sequences in natural (insertion) order;
 * `find_one` is the first match.
 */
module Store {
  import opened Wrappers
  import opened DocumentModel
  import opened AccountModel

  /** The index of the first element satisfying `p`, as `find_one` picks it. */
  function FirstIndex<T>(s: seq<T>, p: T -> bool): (r: Option<nat>)
    ensures r.Some? ==> r.value < |s| && p(s[r.value]) && forall j :: 0 <= j < r.value ==> !p(s[j])
    ensures r.None? ==> forall j :: 0 <= j < |s| ==> !p(s[j])
  {
    if s == [] then None
    else if p(s[0]) then Some(0)
    else match FirstIndex(s[1..], p)
      case None => None
      case Some(k) => Some(k + 1)
  }

  /** Appending an element never changes an existing first match, and is found only when nothing earlier matches. */
  lemma {:induction false} FirstIndexAppend<T>(s: seq<T>, x: T, p: T -> bool)
    ensures FirstIndex(s, p).Some? ==> FirstIndex(s + [x], p) == FirstIndex(s, p)
    ensures FirstIndex(s, p).None? && !p(x) ==> FirstIndex(s + [x], p).None?
    ensures FirstIndex(s, p).None? && p(x) ==> FirstIndex(s + [x], p) == Some(|s|)
  {
    if s != [] {
      assert (s + [x])[1..] == s[1..] + [x];
      FirstIndexAppend(s[1..], x, p);
    }
  }

  predicate IsHexDigit(c: char) {
    '0' <= c <= '9' || 'a' <= c <= 'f' || 'A' <= c <= 'F'
  }

  /** `ObjectId(text)` succeeds exactly on 24 hexadecimal digits and raises otherwise. */
  predicate IsObjectIdText(s: string) {
    |s| == 24 && forall i :: 0 <= i < |s| ==> IsHexDigit(s[i])
  }

  function FindAccountById(accounts: seq<Account>, id: string): Option<Account> {
    match FirstIndex(accounts, (a: Account) => a.id == id)
    case None => None
    case Some(k) => Some(accounts[k])
  }

  function FindAccountByEmail(accounts: seq<Account>, email: string): (r: Option<Account>)
    ensures r.Some? ==> r.value in accounts && r.value.email == Some(email)
    ensures r.None? ==> forall a :: a in accounts ==> a.email != Some(email)
  {
    match FirstIndex(accounts, (a: Account) => a.email == Some(email))
    case None => None
    case Some(k) => Some(accounts[k])
  }

  function FindDocumentById(docs: seq<Document>, id: string): Option<Document> {
    match FirstIndex(docs, (d: Document) => d.id == id)
    case None => None
    case Some(k) => Some(docs[k])
  }

  /** `$push` of `item` onto the `documents` list of the first account with that id. */
  function PushDocument(accounts: seq<Account>, id: string, item: string): (r: seq<Account>)
    ensures |r| == |accounts|
    ensures (forall a :: a in accounts ==> a.id != id) ==> r == accounts
    ensures (exists a :: a in accounts && a.id == id) ==>
      exists k :: 0 <= k < |accounts| && accounts[k].id == id && (forall j :: 0 <= j < k ==> accounts[j].id != id)
        && r == accounts[k := accounts[k].(documents := accounts[k].documents + [item])]
  {
    match FirstIndex(accounts, (a: Account) => a.id == id)
    case None => accounts
    case Some(k) => accounts[k := accounts[k].(documents := accounts[k].documents + [item])]
  }

  /** `$addToSet` of `item` onto the `documents` list of the first account with that id. */
  function AddDocumentOnce(accounts: seq<Account>, id: string, item: string): (r: seq<Account>)
    ensures |r| == |accounts|
    ensures (forall a :: a in accounts ==> a.id != id) ==> r == accounts
    ensures (exists a :: a in accounts && a.id == id) ==>
      exists k :: 0 <= k < |accounts| && accounts[k].id == id && (forall j :: 0 <= j < k ==> accounts[j].id != id)
        && (item in accounts[k].documents ==> r == accounts)
        && (item !in accounts[k].documents ==> r == accounts[k := accounts[k].(documents := accounts[k].documents + [item])])
  {
    match FirstIndex(accounts, (a: Account) => a.id == id)
    case None => accounts
    case Some(k) =>
      if item in accounts[k].documents then accounts
      else accounts[k := accounts[k].(documents := accounts[k].documents + [item])]
  }

  /** The re-verification update of one record: `$addToSet` of the verifier and `$set` of the score. */
  function Reverified(d: Document, verifierId: string, score: real): (e: Document)
    ensures verifierId in e.verifiedBy && e.aiScore == score
    ensures verifierId in d.verifiedBy ==> e.verifiedBy == d.verifiedBy
    ensures verifierId !in d.verifiedBy ==> e.verifiedBy == d.verifiedBy + [verifierId]
  {
    d.(verifiedBy := if verifierId in d.verifiedBy then d.verifiedBy else d.verifiedBy + [verifierId], aiScore := score)
  }

  class Mongo {
    var documents: seq<Document>
    var issuers: seq<Account>
    var verifiers: seq<Account>
    var institutes: seq<Institute>

    constructor ()
      ensures documents == [] && issuers == [] && verifiers == [] && institutes == []
    {
      documents, issuers, verifiers, institutes := [], [], [], [];
    }

    /** create_document: builds the record from `data` and inserts it; `id` is the new ObjectId. */
    method CreateDocument(id: string, data: DocumentData) returns (docId: string)
      modifies this`documents
      ensures docId == id
      ensures documents == old(documents) + [NewDocument(id, data)]
    {
      documents := documents + [NewDocument(id, data)];
      docId := id;
    }

    /**
     * add_verifier: `$push` of the verifier id onto the first document with id `docId`;
     * every other document is unchanged, and nothing changes when there is none.
     */
    method AddVerifier(docId: string, verifierId: string)
      modifies this`documents
      ensures |documents| == |old(documents)|
      ensures match FirstIndex(old(documents), (d: Document) => d.id == docId)
        case None => documents == old(documents)
        case Some(k) => documents == old(documents)[k := WithVerifier(old(documents)[k], verifierId)]
    {
      var k := FirstIndex(documents, (d: Document) => d.id == docId);
      if k.Some? {
        documents := documents[k.value := WithVerifier(documents[k.value], verifierId)];
      }
    }

    /** The update of verify_document_by_id on the first document with id `docId`. */
    method ReverifyDocument(docId: string, verifierId: string, score: real)
      modifies this`documents
      ensures match FirstIndex(old(documents), (d: Document) => d.id == docId)
        case None => documents == old(documents)
        case Some(k) => documents == old(documents)[k := Reverified(old(documents)[k], verifierId, score)]
    {
      var k := FirstIndex(documents, (d: Document) => d.id == docId);
      if k.Some? {
        documents := documents[k.value := Reverified(documents[k.value], verifierId, score)];
      }
    }

    method AddVerifierDocumentOnce(verifierId: string, docId: string)
      modifies this`verifiers
      ensures verifiers == AddDocumentOnce(old(verifiers), verifierId, docId)
    {
      verifiers := AddDocumentOnce(verifiers, verifierId, docId);
    }

    method InsertIssuer(a: Account)
      modifies this`issuers
      ensures issuers == old(issuers) + [a]
    {
      issuers := issuers + [a];
    }

    method InsertVerifier(a: Account)
      modifies this`verifiers
      ensures verifiers == old(verifiers) + [a]
    {
      verifiers := verifiers + [a];
    }

    method InsertInstitute(i: Institute)
      modifies this`institutes
      ensures institutes == old(institutes) + [i]
    {
      institutes := institutes + [i];
    }

    method PushIssuerDocument(issuerId: string, docId: string)
      modifies this`issuers
      ensures issuers == PushDocument(old(issuers), issuerId, docId)
    {
      issuers := PushDocument(issuers, issuerId, docId);
    }

    method PushVerifierDocument(verifierId: string, docId: string)
      modifies this`verifiers
      ensures verifiers == PushDocument(old(verifiers), verifierId, docId)
    {
      verifiers := PushDocument(verifiers, verifierId, docId);
    }
  }
}
