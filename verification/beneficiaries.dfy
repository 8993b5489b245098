/** `GET` and `POST /api/beneficiaries`: list the caller's active payees and
    add a new one. An OAuth access token needs the "read_beneficiaries" scope
    for both; a login token needs none. */
module Beneficiaries {
  import opened Common
  import opened OAuth
  import opened BearerAuth
  import opened BankDb

  const BeneficiariesScope := "read_beneficiaries"

  /** The columns `GET` selects. */
  datatype BeneficiaryView = BeneficiaryView(
    id: string, name: string, upiId: Option<string>, accountNumber: Option<string>,
    ifsc: Option<string>, isActive: bool)

  /** The JSON body of `POST` ("" where absent). */
  datatype NewBeneficiary = NewBeneficiary(name: string, upiId: string, accountNumber: string, ifsc: string)

  function View(b: Beneficiary): BeneficiaryView {
    BeneficiaryView(b.id, b.name, b.upiId, b.accountNumber, b.ifsc, b.isActive)
  }

  function Caller(header: string, verify: Verifier): Option<string> {
    ScopedUserId(header, verify, BeneficiariesScope)
  }

  /** The rows `findMany({where: {userId, isActive: true}})` returns, in
      store order. */
  function ActiveBeneficiaries(beneficiaries: seq<Beneficiary>, userId: string): (r: seq<BeneficiaryView>)
    ensures |r| <= |beneficiaries|
    ensures forall i :: 0 <= i < |r| ==> r[i].isActive
  {
    if beneficiaries == [] then []
    else if beneficiaries[0].userId == userId && beneficiaries[0].isActive then
      [View(beneficiaries[0])] + ActiveBeneficiaries(beneficiaries[1..], userId)
    else ActiveBeneficiaries(beneficiaries[1..], userId)
  }

  /** The listing holds exactly the caller's active rows: every such row is
      listed, and every listed view is one of them. */
  lemma {:induction false} ActiveBeneficiariesMembers(beneficiaries: seq<Beneficiary>, userId: string)
    ensures forall b :: b in beneficiaries && b.userId == userId && b.isActive ==>
              View(b) in ActiveBeneficiaries(beneficiaries, userId)
    ensures forall v :: v in ActiveBeneficiaries(beneficiaries, userId) ==>
              exists b :: b in beneficiaries && b.userId == userId && b.isActive && View(b) == v
    decreases |beneficiaries|
  {
    if beneficiaries != [] {
      var rest := beneficiaries[1..];
      ActiveBeneficiariesMembers(rest, userId);
      assert forall b :: b in beneficiaries ==> b == beneficiaries[0] || b in rest;
      assert forall b :: b in rest ==> b in beneficiaries;
    }
  }

  /** The listing keeps the store's order: listing a concatenation lists the
      two halves one after the other. */
  lemma {:induction false} ActiveBeneficiariesAppend(a: seq<Beneficiary>, b: seq<Beneficiary>, userId: string)
    ensures ActiveBeneficiaries(a + b, userId) == ActiveBeneficiaries(a, userId) + ActiveBeneficiaries(b, userId)
    decreases |a|
  {
    if a == [] {
      assert a + b == b;
    } else {
      assert (a + b)[0] == a[0] && (a + b)[1..] == a[1..] + b;
      ActiveBeneficiariesAppend(a[1..], b, userId);
    }
  }

  /** `GET /api/beneficiaries`. */
  function List(beneficiaries: seq<Beneficiary>, header: string, verify: Verifier): (r: Response<seq<BeneficiaryView>>)
    ensures r.Error? <==> Caller(header, verify).None?
    ensures r.Error? ==> r == Error(401, "Unauthorized")
    ensures r.Ok? ==> r.body == ActiveBeneficiaries(beneficiaries, Caller(header, verify).value)
  {
    match Caller(header, verify)
    case None => Error(401, "Unauthorized")
    case Some(userId) => Ok(ActiveBeneficiaries(beneficiaries, userId))
  }

  /** The `POST` validation: a name, and a UPI id or else both an account
      number and an IFSC. */
  predicate ValidNewBeneficiary(req: NewBeneficiary) {
    req.name != "" && (req.upiId != "" || (req.accountNumber != "" && req.ifsc != ""))
  }

  /** `POST /api/beneficiaries`. `id` is the fresh id of the row. The new row
      is active (the column default). */
  method Add(db: Db, header: string, verify: Verifier, req: NewBeneficiary, id: string)
    returns (r: Response<Beneficiary>)
    requires db.Valid()
    modifies db`beneficiaries
    ensures db.Valid()
    ensures Caller(header, verify).None? ==>
              r == Error(401, "Unauthorized") && db.beneficiaries == old(db.beneficiaries)
    ensures Caller(header, verify).Some? && !ValidNewBeneficiary(req) ==>
              && r == Error(400, "Name and either UPI ID or account details are required")
              && db.beneficiaries == old(db.beneficiaries)
    ensures Caller(header, verify).Some? && ValidNewBeneficiary(req) ==>
              var b := Beneficiary(id, Caller(header, verify).value, req.name, OrNull(req.upiId),
                                   OrNull(req.accountNumber), OrNull(req.ifsc), true);
              r == Ok(b) && db.beneficiaries == old(db.beneficiaries) + [b]
  {
    var userId := Caller(header, verify);
    if userId.None? {
      return Error(401, "Unauthorized");
    }
    if !ValidNewBeneficiary(req) {
      return Error(400, "Name and either UPI ID or account details are required");
    }
    var b := Beneficiary(id, userId.value, req.name, OrNull(req.upiId), OrNull(req.accountNumber), OrNull(req.ifsc), true);
    db.beneficiaries := db.beneficiaries + [b];
    r := Ok(b);
  }

  /** A payee just added shows up in its owner's listing, after all the rows
      listed before. */
  lemma AddedBeneficiaryIsListed(beneficiaries: seq<Beneficiary>, b: Beneficiary)
    requires b.isActive
    ensures ActiveBeneficiaries(beneficiaries + [b], b.userId) ==
              ActiveBeneficiaries(beneficiaries, b.userId) + [View(b)]
  {
    ActiveBeneficiariesAppend(beneficiaries, [b], b.userId);
    assert ActiveBeneficiaries([b], b.userId) == [View(b)] + ActiveBeneficiaries([], b.userId);
  }
}
