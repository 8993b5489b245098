/** The banking database the banking routes read and write: users, accounts,
    beneficiaries, OAuth authorization grants, payment previews, transactions,
    bill previews and bill payments. Money is in integer paise (₹1 = 100
    paise) and times are integer milliseconds. */
module BankDb {
  import opened Common

  datatype User = User(id: string, name: string, email: string, phone: string, hashedPassword: string)

  datatype AccountType = Savings | Current

  /** "ACTIVE", or any other status (the routes only ever test for ACTIVE). */
  datatype AccountStatus = Active | Inactive

  datatype Account = Account(
    id: string, userId: string, kind: AccountType, accountNumber: string,
    ifsc: string, balance: int, status: AccountStatus)

  datatype Beneficiary = Beneficiary(
    id: string, userId: string, name: string, upiId: Option<string>,
    accountNumber: Option<string>, ifsc: Option<string>, isActive: bool)

  /** An `OAuthAuthorization` row; the store is keyed by its unique code. */
  datatype Grant = Grant(
    userId: string, clientId: string, code: string, scopes: seq<string>,
    redirectUri: string, codeChallenge: Option<string>,
    codeChallengeMethod: Option<string>, expiresAt: int, used: bool)

  /** The outcome of the payment rules: allowed, or the reasons why not. */
  datatype RulesResult = RulesResult(allowed: bool, reasons: seq<string>)

  datatype PreviewStatus = Pending | Confirmed | Executed | Expired | Cancelled

  datatype PaymentPreview = PaymentPreview(
    id: string, userId: string, fromAccountId: string, beneficiaryId: string,
    payMethod: string, requestedAmount: int, charges: int, finalDebitAmount: int,
    rulesResult: RulesResult, status: PreviewStatus,
    consentToken: Option<string>, expiresAt: int)

  /** A ledger entry's status: "SUCCESS" or "FAILED". */
  datatype TxnStatus = Succeeded | Failed

  datatype Transaction = Transaction(
    id: string, userId: string, fromAccountId: string, beneficiaryId: string,
    paymentPreviewId: Option<string>, payMethod: string, amount: int,
    status: TxnStatus, bankReferenceId: string, initiatedBy: string,
    channel: string)

  datatype BillPreview = BillPreview(
    id: string, userId: string, fromAccountId: string, billType: string,
    billerName: string, consumerNumber: string, amount: int, charges: int,
    finalDebitAmount: int, status: PreviewStatus, consentToken: string,
    expiresAt: int)

  datatype BillPayment = BillPayment(
    id: string, userId: string, fromAccountId: string, billPreviewId: string,
    billType: string, billerName: string, consumerNumber: string, amount: int,
    status: TxnStatus, bankReferenceId: string, initiatedBy: string)

  /** At most one transaction references any preview id: the idempotency
      anchor of payment execution. */
  ghost predicate UniquePreviewLinks(txns: seq<Transaction>) {
    forall i, j :: 0 <= i < j < |txns| && txns[i].paymentPreviewId.Some? ==>
      txns[i].paymentPreviewId != txns[j].paymentPreviewId
  }

  /** At most one bill payment references any bill preview id. */
  ghost predicate UniqueBillLinks(payments: seq<BillPayment>) {
    forall i, j :: 0 <= i < j < |payments| ==> payments[i].billPreviewId != payments[j].billPreviewId
  }

  ghost predicate BalancesNonNegative(accounts: map<string, Account>) {
    forall k :: k in accounts ==> accounts[k].balance >= 0
  }

  /** `transaction.findFirst({ where: { paymentPreviewId } })`: the first
      transaction that references the preview. */
  function TransactionFor(txns: seq<Transaction>, previewId: string): (r: Option<Transaction>)
    ensures r.None? <==> forall t :: t in txns ==> t.paymentPreviewId != Some(previewId)
    ensures r.Some? ==> r.value in txns && r.value.paymentPreviewId == Some(previewId)
  {
    if txns == [] then None
    else if txns[0].paymentPreviewId == Some(previewId) then Some(txns[0])
    else TransactionFor(txns[1..], previewId)
  }

  /** `billPayment.findFirst({ where: { billPreviewId } })`. */
  function BillPaymentFor(payments: seq<BillPayment>, previewId: string): (r: Option<BillPayment>)
    ensures r.None? <==> forall p :: p in payments ==> p.billPreviewId != previewId
    ensures r.Some? ==> r.value in payments && r.value.billPreviewId == previewId
  {
    if payments == [] then None
    else if payments[0].billPreviewId == previewId then Some(payments[0])
    else BillPaymentFor(payments[1..], previewId)
  }

  /** Appending an entry that references no preview, or a preview nothing
      references yet, keeps the links unique. */
  lemma AppendKeepsPreviewLinksUnique(txns: seq<Transaction>, t: Transaction)
    requires UniquePreviewLinks(txns)
    requires t.paymentPreviewId.None? || TransactionFor(txns, t.paymentPreviewId.value).None?
    ensures UniquePreviewLinks(txns + [t])
  {
    var all := txns + [t];
    forall i, j | 0 <= i < j < |all| && all[i].paymentPreviewId.Some?
      ensures all[i].paymentPreviewId != all[j].paymentPreviewId
    {
      if j == |txns| {
        assert all[i] in txns;
      }
    }
  }

  lemma AppendKeepsBillLinksUnique(payments: seq<BillPayment>, p: BillPayment)
    requires UniqueBillLinks(payments)
    requires BillPaymentFor(payments, p.billPreviewId).None?
    ensures UniqueBillLinks(payments + [p])
  {
    var all := payments + [p];
    forall i, j | 0 <= i < j < |all| ensures all[i].billPreviewId != all[j].billPreviewId {
      if j == |payments| {
        assert all[i] in payments;
      }
    }
  }

  class Db {
    var users: map<string, User>
    var accounts: map<string, Account>
    var beneficiaries: seq<Beneficiary>
    var grants: map<string, Grant>
    var previews: map<string, PaymentPreview>
    var transactions: seq<Transaction>
    var billPreviews: map<string, BillPreview>
    var billPayments: seq<BillPayment>

    /** The store's invariant: keys are the rows' ids, grants and previews
        refer to existing users and accounts, no balance is negative, and no
        preview is referenced by two ledger entries. */
    ghost predicate Valid()
      reads this
    {
      && (forall k :: k in users ==> users[k].id == k)
      && (forall k :: k in accounts ==> accounts[k].id == k)
      && BalancesNonNegative(accounts)
      && (forall k :: k in grants ==> grants[k].code == k && grants[k].userId in users)
      && (forall k :: k in previews ==> previews[k].id == k && previews[k].fromAccountId in accounts)
      && (forall k :: k in billPreviews ==> billPreviews[k].id == k && billPreviews[k].fromAccountId in accounts)
      && UniquePreviewLinks(transactions)
      && UniqueBillLinks(billPayments)
    }

    constructor ()
      ensures Valid()
      ensures users == map[] && accounts == map[] && beneficiaries == []
      ensures grants == map[] && previews == map[] && transactions == []
      ensures billPreviews == map[] && billPayments == []
    {
      users := map[];
      accounts := map[];
      beneficiaries := [];
      grants := map[];
      previews := map[];
      transactions := [];
      billPreviews := map[];
      billPayments := [];
    }
  }
}
