/** The `Company` schema (server/models/Company.js) and its collection. */
module CompanyModel {
  import opened Common

  datatype Company = Company(id: Id, fssaiNumber: string, gstNumber: Option<string>, phoneNumber: string,
                             alternateNumber: Option<string>, ownerName: string, email: string,
                             logo: Option<string>, password: string, createdAt: int)

  /** A registration or update body; absent fields are `None`. */
  datatype CompanyFields = CompanyFields(fssaiNumber: Option<string>, gstNumber: Option<string>,
                                         phoneNumber: Option<string>, alternateNumber: Option<string>,
                                         ownerName: Option<string>, email: Option<string>,
                                         logo: Option<string>, password: Option<string>)

  const NoFields := CompanyFields(None, None, None, None, None, None, None, None)

  /** `fssaiNumber`, `phoneNumber`, `ownerName`, `email` and `password` are required. */
  predicate ValidCompany(c: Company)
  {
    c.fssaiNumber != "" && c.phoneNumber != "" && c.ownerName != "" && c.email != "" && c.password != ""
  }

  /** `new Company({...})` from the registration fields, with the password
      field replaced by its hash. */
  function NewCompany(body: CompanyFields, hashedPassword: string, id: Id, now: int): (c: Company)
    ensures c.password == hashedPassword && c.id == id && c.createdAt == now
  {
    Company(id, Get(body.fssaiNumber, ""), body.gstNumber, Get(body.phoneNumber, ""), body.alternateNumber,
            Get(body.ownerName, ""), Get(body.email, ""), body.logo, hashedPassword, now)
  }

  function PatchCompany(c: Company, body: CompanyFields): (r: Company)
    ensures r.id == c.id && r.createdAt == c.createdAt
    ensures r.fssaiNumber == Get(body.fssaiNumber, c.fssaiNumber) && r.email == Get(body.email, c.email)
    ensures r.password == Get(body.password, c.password)
    ensures r.phoneNumber == Get(body.phoneNumber, c.phoneNumber) && r.ownerName == Get(body.ownerName, c.ownerName)
    ensures body.gstNumber.Some? ==> r.gstNumber == body.gstNumber
    ensures body.gstNumber.None? ==> r.gstNumber == c.gstNumber
    ensures body.alternateNumber.Some? ==> r.alternateNumber == body.alternateNumber
    ensures body.alternateNumber.None? ==> r.alternateNumber == c.alternateNumber
    ensures body.logo.Some? ==> r.logo == body.logo
    ensures body.logo.None? ==> r.logo == c.logo
    ensures body == NoFields ==> r == c
  {
    c.(fssaiNumber := Get(body.fssaiNumber, c.fssaiNumber),
       gstNumber := if body.gstNumber.Some? then body.gstNumber else c.gstNumber,
       phoneNumber := Get(body.phoneNumber, c.phoneNumber),
       alternateNumber := if body.alternateNumber.Some? then body.alternateNumber else c.alternateNumber,
       ownerName := Get(body.ownerName, c.ownerName),
       email := Get(body.email, c.email),
       logo := if body.logo.Some? then body.logo else c.logo,
       password := Get(body.password, c.password))
  }

  class CompanyCollection {
    var docs: seq<Company>

    /** The registration handler admits one company at most, so the unique
        keys (`_id`, `fssaiNumber`, `gstNumber`, `email`) hold trivially. */
    ghost predicate Valid()
      reads this
    {
      |docs| <= 1
    }

    constructor()
      ensures Valid() && docs == []
    {
      docs := [];
    }
  }
}
