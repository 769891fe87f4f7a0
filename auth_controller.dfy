/** Registration, login and the existence check
    (server/controllers/authController.js). Hashing, hash comparison and token
    signing are parameters: `hash` stands for `bcrypt.hash(_, 10)`, `matches`
    for `bcrypt.compare` and `sign` for signing `{companyId}` with the server's
    secret. */
module AuthController {
  import opened Common
  import opened CompanyModel

  const OnlyOneCompany: string := "Only one company can be registered"
  const CompanyNotFound: string := "Company not found"
  const InvalidCredentials: string := "Invalid credentials"
  /** What `bcrypt` throws when the password is `undefined`. */
  const HashOfUndefined: string := "Illegal arguments: undefined, number"
  const CompareWithUndefined: string := "Illegal arguments: undefined, string"

  /** What registration and login answer on success. */
  datatype Session = Session(token: string, company: Company)

  /** A bcrypt hash is a 60-character string. */
  ghost predicate BcryptLike(hash: string -> string)
  {
    forall s :: |hash(s)| == 60
  }

  /** `createCompany`: refused while a company is stored; otherwise the
      company is stored with the hash of its password and answered with a
      token for its id. */
  method CreateCompany(companies: CompanyCollection, body: CompanyFields, hash: string -> string,
                       sign: Id -> string, newId: Id, now: int)
    returns (res: Response<Session>)
    requires companies.Valid() && BcryptLike(hash)
    modifies companies
    ensures companies.Valid()
    ensures |old(companies.docs)| > 0 ==> res == Fail(400, OnlyOneCompany)
    ensures |old(companies.docs)| == 0 && body.password.None? ==> res == Fail(400, HashOfUndefined)
    ensures |old(companies.docs)| == 0 && body.password.Some? ==>
      var c := NewCompany(body, hash(body.password.value), newId, now);
      if ValidCompany(c) then res == Ok(201, Session(sign(newId), c))
      else res == Fail(400, ValidationMessage("Company"))
    ensures res.Ok? ==> companies.docs == [res.body.company] && res.body.token == sign(res.body.company.id)
    ensures res.Fail? ==> companies.docs == old(companies.docs)
  {
    if |companies.docs| > 0 {
      return Fail(400, OnlyOneCompany);
    }
    if body.password.None? {
      return Fail(400, HashOfUndefined);
    }
    var hashed := hash(body.password.value);
    var c := NewCompany(body, hashed, newId, now);
    if !ValidCompany(c) {
      return Fail(400, ValidationMessage("Company"));
    }
    companies.docs := companies.docs + [c];
    res := Ok(201, Session(sign(newId), c));
  }

  /** `Company.findOne({email})`; a filter on an absent email is dropped, so
      it matches the first company. */
  function FindByEmail(docs: seq<Company>, email: Option<string>): (r: Option<Company>)
    ensures r.Some? ==> r.value in docs && (email.Some? ==> r.value.email == email.value)
    ensures r.None? <==> docs == [] || (email.Some? && forall c :: c in docs ==> c.email != email.value)
  {
    if docs == [] then None
    else if email.None? || docs[0].email == email.value then Some(docs[0])
    else FindByEmail(docs[1..], email)
  }

  /** `login`: 404 for an unknown email, 400 when the password does not match
      the stored hash, otherwise a token for the company together with it. */
  function Login(companies: CompanyCollection, email: Option<string>, password: Option<string>,
                 matches: (string, string) -> bool, sign: Id -> string): (r: Response<Session>)
    reads companies
    ensures FindByEmail(companies.docs, email).None? ==> r == Fail(404, CompanyNotFound)
    ensures r.Ok? <==> (FindByEmail(companies.docs, email).Some? && password.Some? &&
                        matches(password.value, FindByEmail(companies.docs, email).value.password))
    ensures r.Ok? ==> (r.status == 200 && r.body.company in companies.docs &&
                       r.body.token == sign(r.body.company.id) &&
                       matches(password.value, r.body.company.password))
    ensures r.Fail? && FindByEmail(companies.docs, email).Some? ==>
      r == Fail(400, if password.None? then CompareWithUndefined else InvalidCredentials)
  {
    match FindByEmail(companies.docs, email)
    case None => Fail(404, CompanyNotFound)
    case Some(c) =>
      if password.None? then Fail(400, CompareWithUndefined)
      else if !matches(password.value, c.password) then Fail(400, InvalidCredentials)
      else Ok(200, Session(sign(c.id), c))
  }

  /** `checkCompany`: `exists` is true exactly when a company is stored. */
  function CheckCompany(companies: CompanyCollection): (r: Response<bool>)
    reads companies
    ensures r.Ok? && r.status == 200 && (r.body <==> companies.docs != [])
  {
    Ok(200, |companies.docs| > 0)
  }
}
