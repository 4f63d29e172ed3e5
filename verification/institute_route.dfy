/**
 * Institute registration and the institute list (server/routes/institute_route.py). A body
 * that is not JSON makes `data.get` raise, which the handler answers with 500.
 */
module InstituteRoute {
  import opened Wrappers
  import opened AccountModel
  import opened UploadRules
  import opened Store
  import opened UserRoutes

  datatype InstituteResponse =
    | InstituteError(code: nat, error: string)
    | InstituteRegistered(message: string, instituteId: string, instituteName: string)

  /** The first institute with that name, as `find_one({"name": name})` returns it. */
  function FindInstituteByName(institutes: seq<Institute>, name: string): (r: Option<Institute>)
    ensures r.Some? ==> r.value in institutes && r.value.name == Some(name)
    ensures r.None? ==> forall i :: i in institutes ==> i.name != Some(name)
  {
    match FirstIndex(institutes, (i: Institute) => i.name == Some(name))
    case None => None
    case Some(k) => Some(institutes[k])
  }

  /**
   * The checks of register_institute, in order: a JSON body (500), then name, type and
   * secret key (400 each), then an unused name (409); `None` when all pass.
   */
  function CheckInstitute(p: Payload, institutes: seq<Institute>): (r: Option<InstituteResponse>)
    ensures p.None? ==> r == Some(InstituteError(500, "Failed to register institute"))
    ensures p.Some? && !Given(Field(p.value, "name")) ==> r == Some(InstituteError(400, "Institute name is required"))
    ensures p.Some? && Given(Field(p.value, "name")) && !Given(Field(p.value, "type")) ==>
      r == Some(InstituteError(400, "Institute type is required"))
    ensures p.Some? && Given(Field(p.value, "name")) && Given(Field(p.value, "type"))
            && !Given(Field(p.value, "secret_key")) ==>
      r == Some(InstituteError(400, "Secret key is required"))
    ensures r.None? <==>
      p.Some? && Given(Field(p.value, "name")) && Given(Field(p.value, "type")) && Given(Field(p.value, "secret_key"))
      && FindInstituteByName(institutes, p.value["name"]).None?
    ensures r.Some? ==> r.value.InstituteError? && r.value.code in {400, 409, 500}
    ensures p.Some? && Given(Field(p.value, "name")) && Given(Field(p.value, "type"))
            && Given(Field(p.value, "secret_key")) && FindInstituteByName(institutes, p.value["name"]).Some? ==>
      r == Some(InstituteError(409, "Institute with this name already exists"))
    ensures r.Some? && r.value.code == 409 ==> FindInstituteByName(institutes, p.value["name"]).Some?
  {
    if p.None? then Some(InstituteError(500, "Failed to register institute"))
    else
      var body := p.value;
      if !Given(Field(body, "name")) then Some(InstituteError(400, "Institute name is required"))
      else if !Given(Field(body, "type")) then Some(InstituteError(400, "Institute type is required"))
      else if !Given(Field(body, "secret_key")) then Some(InstituteError(400, "Secret key is required"))
      else if FindInstituteByName(institutes, body["name"]).Some? then
        Some(InstituteError(409, "Institute with this name already exists"))
      else None
  }

  /**
   * POST /register: a rejected request inserts nothing; an accepted one inserts the institute
   * with its name, type and secret key and answers 201 with the requested name.
   */
  method RegisterInstitute(db: Mongo, p: Payload, newId: string) returns (resp: InstituteResponse)
    modifies db
    ensures CheckInstitute(p, old(db.institutes)).Some? ==>
      resp == CheckInstitute(p, old(db.institutes)).value && unchanged(db)
    ensures CheckInstitute(p, old(db.institutes)).None? ==>
      && resp == InstituteRegistered("Institute registered successfully", newId, p.value["name"])
      && db.institutes == old(db.institutes)
           + [Institute(newId, Some(p.value["name"]), Some(p.value["type"]), Some(p.value["secret_key"]))]
      && db.documents == old(db.documents) && db.issuers == old(db.issuers) && db.verifiers == old(db.verifiers)
    ensures resp.InstituteRegistered? <==> CheckInstitute(p, old(db.institutes)).None?
  {
    var check := CheckInstitute(p, db.institutes);
    if check.Some? {
      return check.value;
    }
    var body := p.value;
    db.InsertInstitute(Institute(newId, Some(body["name"]), Some(body["type"]), Some(body["secret_key"])));
    resp := InstituteRegistered("Institute registered successfully", newId, body["name"]);
  }

  /** A name, once registered, is refused with 409 from then on. */
  lemma {:induction false} RegisteredNameRefused(institutes: seq<Institute>, p: Payload, q: Payload, newId: string)
    requires CheckInstitute(p, institutes).None?
    requires q.Some? && Given(Field(q.value, "name")) && Given(Field(q.value, "type")) && Given(Field(q.value, "secret_key"))
    requires q.value["name"] == p.value["name"]
    ensures CheckInstitute(q, institutes + [Institute(newId, Some(p.value["name"]), Some(p.value["type"]),
                                                      Some(p.value["secret_key"]))])
            == Some(InstituteError(409, "Institute with this name already exists"))
  {
    var i := Institute(newId, Some(p.value["name"]), Some(p.value["type"]), Some(p.value["secret_key"]));
    FirstIndexAppend(institutes, i, (j: Institute) => j.name == Some(p.value["name"]));
  }

  /** One dropdown entry: id, name and type as stored. */
  datatype InstituteOption = InstituteOption(id: string, name: Option<string>, kind: Option<string>)

  /** GET /list: one entry per stored institute, in order. */
  function ListInstitutes(institutes: seq<Institute>): (r: seq<InstituteOption>)
    ensures |r| == |institutes|
    ensures forall k :: 0 <= k < |r| ==>
      r[k].id == institutes[k].id && r[k].name == institutes[k].name && r[k].kind == institutes[k].kind
  {
    seq(|institutes|, k requires 0 <= k < |institutes| =>
      InstituteOption(institutes[k].id, institutes[k].name, institutes[k].kind))
  }

  /** A registration adds exactly one entry to the list, at the end, with the requested name and type. */
  lemma RegistrationExtendsList(institutes: seq<Institute>, i: Institute)
    ensures ListInstitutes(institutes + [i]) == ListInstitutes(institutes) + [InstituteOption(i.id, i.name, i.kind)]
  {
    assert ListInstitutes(institutes + [i])[..|institutes|] == ListInstitutes(institutes);
  }
}
