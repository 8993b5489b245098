/** `POST /api/auth/register`: validates the sign-up form in a fixed order,
    refuses a duplicate email or phone, and creates the user together with
    one SAVINGS account holding the ₹10,000 demo balance. */
module Register {
  import opened Common
  import opened BankDb

  /** The ₹10,000 starting balance, in paise. */
  const StartingBalance := 1_000_000
  const DemoIfsc := "DUMMY0001234"
  const DuplicateMessage := "User already exists with this email or phone number"

  /** The JSON body ("" where absent). */
  datatype RegisterRequest = RegisterRequest(name: string, email: string, phone: string, password: string)

  datatype RegisterReply =
    | Registered(userId: string, email: string, name: string, accountNumber: string)   // 201
    | RegisterRefused(refusal: Refusal)

  /** No character of `s` is `@` or JavaScript white space: `[^\s@]*`. */
  predicate PlainText(s: string) {
    forall k :: 0 <= k < |s| ==> s[k] != '@' && !IsJsWhitespace(s[k])
  }

  /** `e` splits as local part, "@" at `at`, host, "." at `dot`, suffix, each
      part non-empty plain text (the host and suffix may hold further dots). */
  ghost predicate EmailSplitAt(e: string, at: int, dot: int) {
    && 0 < at && at + 1 < dot && dot + 1 < |e|
    && e[at] == '@' && e[dot] == '.'
    && PlainText(e[..at]) && PlainText(e[at + 1..dot]) && PlainText(e[dot + 1..])
  }

  /** The language of `/^[^\s@]+@[^\s@]+\.[^\s@]+$/`. */
  ghost predicate EmailShape(e: string) {
    exists at, dot :: EmailSplitAt(e, at, dot)
  }

  /** The position of the first `c` in `s`, or |s|. */
  function IndexOf(s: string, c: char): (i: nat)
    ensures i <= |s|
    ensures i < |s| ==> s[i] == c
    ensures forall k :: 0 <= k < i ==> s[k] != c
  {
    if s == [] then 0 else if s[0] == c then 0 else 1 + IndexOf(s[1..], c)
  }

  /** The email test as a scan: one "@" after a non-empty local part, and in
      the domain a "." with at least one character on each side; no white
      space and no other "@" anywhere. */
  function ValidEmail(e: string): bool {
    var at := IndexOf(e, '@');
    if at == 0 || at == |e| then false
    else
      var domain := e[at + 1..];
      PlainText(e[..at]) && PlainText(domain) && |domain| >= 3 && '.' in domain[1..|domain| - 1]
  }

  /** The scan accepts exactly the strings the regular expression matches. */
  lemma EmailCheckMatchesShape(e: string)
    ensures ValidEmail(e) <==> EmailShape(e)
  {
    var at := IndexOf(e, '@');
    if ValidEmail(e) {
      var domain := e[at + 1..];
      var j :| 0 <= j < |domain[1..|domain| - 1]| && domain[1..|domain| - 1][j] == '.';
      var dot := at + 2 + j;
      assert e[dot] == '.';
      assert e[at + 1..dot] == domain[..j + 1];
      assert e[dot + 1..] == domain[j + 2..];
      assert EmailSplitAt(e, at, dot);
    }
    if EmailShape(e) {
      var a, d :| EmailSplitAt(e, a, d);
      assert e[a] == '@';
      assert forall k :: 0 <= k < a ==> e[k] == e[..a][k];
      assert at == a;
      var domain := e[at + 1..];
      forall k | 0 <= k < |domain| ensures domain[k] != '@' && !IsJsWhitespace(domain[k]) {
        if at + 1 + k < d {
          assert domain[k] == e[at + 1..d][k];
        } else if at + 1 + k > d {
          assert domain[k] == e[d + 1..][k - (d - at)];
        }
      }
      assert domain[1..|domain| - 1][d - at - 2] == '.';
    }
  }

  /** `/^[0-9]{10}$/`. */
  predicate ValidPhone(p: string) {
    |p| == 10 && AllAsciiDigits(p)
  }

  /** The form checks, in order: all four fields, email shape, ten-digit
      phone, a password of at least six characters. */
  function FormError(req: RegisterRequest): (r: Option<Refusal>)
    ensures req.name == "" || req.email == "" || req.phone == "" || req.password == "" ==>
              r == Some(Refusal(400, "All fields are required"))
    ensures r == Some(Refusal(400, "Invalid email format")) <==>
              req.name != "" && req.email != "" && req.phone != "" && req.password != "" && !EmailShape(req.email)
    ensures r == Some(Refusal(400, "Phone number must be 10 digits")) <==>
              req.name != "" && req.email != "" && req.phone != "" && req.password != "" &&
              EmailShape(req.email) && !ValidPhone(req.phone)
    ensures r == Some(Refusal(400, "Password must be at least 6 characters")) <==>
              req.name != "" && req.email != "" && req.phone != "" && req.password != "" &&
              EmailShape(req.email) && ValidPhone(req.phone) && |req.password| < 6
    ensures r.None? <==>
              req.name != "" && EmailShape(req.email) && ValidPhone(req.phone) && |req.password| >= 6
  {
    EmailCheckMatchesShape(req.email);
    if req.name == "" || req.email == "" || req.phone == "" || req.password == "" then
      Some(Refusal(400, "All fields are required"))
    else if !ValidEmail(req.email) then Some(Refusal(400, "Invalid email format"))
    else if !ValidPhone(req.phone) then Some(Refusal(400, "Phone number must be 10 digits"))
    else if |req.password| < 6 then Some(Refusal(400, "Password must be at least 6 characters"))
    else None
  }

  /** Some user already has this email or this phone. */
  predicate Taken(users: map<string, User>, email: string, phone: string) {
    exists id :: id in users && (users[id].email == email || users[id].phone == phone)
  }

  /** Some account already has this account number (its unique key). */
  predicate NumberTaken(accounts: map<string, Account>, accountNumber: string) {
    exists id :: id in accounts && accounts[id].accountNumber == accountNumber
  }

  /** `POST /api/auth/register`. `userId` and `accountId` are the fresh row
      ids, `accountNumber` the random `ACC…` number and `hashedPassword` the
      bcrypt hash of the password. A clash on a unique key (the account
      number) is answered like a duplicate user. */
  method Register(db: Db, req: RegisterRequest, userId: string, accountId: string,
                  accountNumber: string, hashedPassword: string) returns (r: RegisterReply)
    requires db.Valid()
    requires userId !in db.users && accountId !in db.accounts
    modifies db`users, db`accounts
    ensures db.Valid()
    ensures FormError(req).Some? ==>
              r == RegisterRefused(FormError(req).value) && db.users == old(db.users) && db.accounts == old(db.accounts)
    ensures FormError(req).None? && (Taken(old(db.users), req.email, req.phone) || NumberTaken(old(db.accounts), accountNumber)) ==>
              && r == RegisterRefused(Refusal(409, DuplicateMessage))
              && db.users == old(db.users) && db.accounts == old(db.accounts)
    ensures FormError(req).None? && !Taken(old(db.users), req.email, req.phone) && !NumberTaken(old(db.accounts), accountNumber) ==>
              && r == Registered(userId, req.email, req.name, accountNumber)
              && db.users == old(db.users)[userId := User(userId, req.name, req.email, req.phone, hashedPassword)]
              && db.accounts == old(db.accounts)[accountId :=
                   Account(accountId, userId, Savings, accountNumber, DemoIfsc, StartingBalance, Active)]
  {
    var error := FormError(req);
    if error.Some? {
      return RegisterRefused(error.value);
    }
    if Taken(db.users, req.email, req.phone) || NumberTaken(db.accounts, accountNumber) {
      return RegisterRefused(Refusal(409, DuplicateMessage));
    }
    db.users := db.users[userId := User(userId, req.name, req.email, req.phone, hashedPassword)];
    db.accounts := db.accounts[accountId := Account(accountId, userId, Savings, accountNumber, DemoIfsc, StartingBalance, Active)];
    r := Registered(userId, req.email, req.name, accountNumber);
  }

  /** After a registration no two users share an email: the store gains a
      user only when no existing one has the email or the phone. */
  lemma RegistrationKeepsEmailsDistinct(users: map<string, User>, email: string, phone: string, u: User)
    requires forall i, j :: i in users && j in users && i != j ==> users[i].email != users[j].email
    requires !Taken(users, email, phone) && u.email == email && u.id !in users
    ensures var after := users[u.id := u];
            forall i, j :: i in after && j in after && i != j ==> after[i].email != after[j].email
  {
  }
}
