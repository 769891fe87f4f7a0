/** Reading and updating the registered company
    (server/controllers/companyController.js). */
module CompanyController {
  import opened Common
  import opened CompanyModel

  const IdRequired: string := "Company ID is required"
  const NoData: string := "No data provided for update"
  const InvalidCompanyId: string := "Invalid company ID"
  const CompanyNotFound: string := "Company not found"

  /** `getCompany`: the stored company, or `null` when none is registered. */
  function GetCompany(companies: CompanyCollection): (r: Response<Option<Company>>)
    requires companies.Valid()
    reads companies
    ensures r.Ok? && r.status == 200
    ensures r.body.None? <==> companies.docs == []
    ensures r.body.Some? ==> companies.docs == [r.body.value]
  {
    if companies.docs == [] then Ok(200, None) else Ok(200, Some(companies.docs[0]))
  }

  /** `updateCompany`: two guards, then `findByIdAndUpdate`; a malformed id
      raises a CastError, which is answered as an invalid id. Update
      validators are off, so a new password is stored as given, unhashed. */
  method UpdateCompany(companies: CompanyCollection, id: string, body: CompanyFields)
    returns (res: Response<Company>)
    requires companies.Valid()
    modifies companies
    ensures companies.Valid()
    ensures id == "" ==> res == Fail(400, IdRequired)
    ensures id != "" && body == NoFields ==> res == Fail(400, NoData)
    ensures id != "" && body != NoFields && !IsObjectId(id) ==> res == Fail(400, InvalidCompanyId)
    ensures id != "" && body != NoFields && IsObjectId(id) ==>
      if exists c :: c in old(companies.docs) && c.id == id
      then res == Ok(200, PatchCompany(old(companies.docs)[0], body)) && companies.docs == [res.body]
      else res == Fail(404, CompanyNotFound)
    ensures res.Fail? ==> companies.docs == old(companies.docs)
  {
    if id == "" {
      return Fail(400, IdRequired);
    }
    if body == NoFields {
      return Fail(400, NoData);
    }
    if !IsObjectId(id) {
      return Fail(400, InvalidCompanyId);
    }
    if companies.docs == [] || companies.docs[0].id != id {
      return Fail(404, CompanyNotFound);
    }
    var c := PatchCompany(companies.docs[0], body);
    companies.docs := [c];
    res := Ok(200, c);
  }
}
