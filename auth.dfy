// The sign-in stub (services/authService.ts): input check, role and display
// name derived from the e-mail address, and the simulated token. The two clock
// readings the stub takes, first for the token and then for the id, are parameters.

module Auth {
  import opened Types
  import Strings

  const AdminEmail: string := "admin@stridezero.com"
  const TokenPrefix: string := "eyJhbGciOiJIUzI1NiIsInR5cCI6IkpXVCJ9.simulated_token_"
  const MissingFieldsMessage: string := "Email and password are required"

  datatype Role = Admin | Customer

  function RoleName(r: Role): string
  {
    match r
    case Admin => "admin"
    case Customer => "customer"
  }

  datatype User = User(id: string, name: string, email: string, role: Role, token: string)

  /** Admin exactly when the lower-cased address is the reserved one. */
  function RoleFor(email: string): (r: Role)
    ensures r == Admin <==> Strings.ToLower(email) == AdminEmail
  {
    if Strings.ToLower(email) == AdminEmail then Admin else Customer
  }

  /** `email.split('@')[0]`: everything before the first '@', or the whole address. */
  function NameFromEmail(email: string): (r: string)
    ensures |r| <= |email| && r == email[..|r|]
    ensures '@' !in r
    ensures |r| < |email| ==> email[|r|] == '@'
  {
    if email == [] || email[0] == '@' then ""
    else [email[0]] + NameFromEmail(email[1..])
  }

  function Token(now: nat, role: Role): string
  {
    TokenPrefix + Strings.NatToDecimal(now) + "." + RoleName(role)
  }

  function UserId(now: nat): string
  {
    "user_" + Strings.NatToDecimal(now)
  }

  /** login: both fields required; the name comes from the address, which is kept as typed. */
  function Login(email: string, password: string, tokenTime: nat, idTime: nat): (r: Result<User, string>)
    ensures r.Err? <==> email == "" || password == ""
    ensures r.Err? ==> r.error == MissingFieldsMessage
    ensures r.Ok? ==> r.value.email == email && r.value.name == NameFromEmail(email)
    ensures r.Ok? ==> r.value.role == RoleFor(email) && r.value.token == Token(tokenTime, RoleFor(email))
    ensures r.Ok? ==> r.value.id == "user_" + Strings.NatToDecimal(idTime)
  {
    if email == "" || password == "" then Err(MissingFieldsMessage)
    else
      var role := RoleFor(email);
      Ok(User(UserId(idTime), NameFromEmail(email), email, role, Token(tokenTime, role)))
  }

  /** register: no field check; the given name and address are kept as typed. */
  function Register(name: string, email: string, password: string, tokenTime: nat, idTime: nat): (u: User)
    ensures u.name == name && u.email == email
    ensures u.role == RoleFor(email) && u.token == Token(tokenTime, RoleFor(email))
    ensures u.id == "user_" + Strings.NatToDecimal(idTime)
  {
    var role := RoleFor(email);
    User(UserId(idTime), name, email, role, Token(tokenTime, role))
  }

  /** The token ends with a dot and the role's name. */
  lemma TokenEndsWithRole(now: nat, role: Role)
    ensures Strings.EndsWith(Token(now, role), "." + RoleName(role))
  {
    var t := Token(now, role);
    var suffix := "." + RoleName(role);
    assert t == (TokenPrefix + Strings.NatToDecimal(now)) + suffix;
  }

  /** Addresses that differ only in ASCII letter case get the same role. */
  lemma RoleIgnoresCase(e1: string, e2: string)
    requires Strings.ToLower(e1) == Strings.ToLower(e2)
    ensures RoleFor(e1) == RoleFor(e2)
  {
  }

  /** The reserved address in capitals is still the administrator; any other address is a customer. */
  lemma AdminExamples()
    ensures RoleFor("ADMIN@StrideZero.com") == Admin
    ensures RoleFor("shopper@example.com") == Customer
  {
    assert Strings.ToLower("ADMIN@StrideZero.com") == AdminEmail;
    assert Strings.ToLower("shopper@example.com")[0] == 's';
  }

  /** Login and register agree on the role, and register accepts the empty input that login refuses. */
  lemma LoginRegisterAgree(name: string, email: string, password: string, tokenTime: nat, idTime: nat)
    ensures Login(email, password, tokenTime, idTime).Ok? ==>
      Login(email, password, tokenTime, idTime).value.role == Register(name, email, password, tokenTime, idTime).role
    ensures Login("", "", tokenTime, idTime).Err? && Register(name, "", "", tokenTime, idTime).role == Customer
  {
    assert Strings.ToLower("") == "";
  }

  /** Any '@'-free prefix that stops at an '@' or at the end is the login name: the name is determined. */
  lemma NameIsPartBeforeFirstAt(email: string, r: string)
    requires |r| <= |email| && r == email[..|r|]
    requires '@' !in r
    requires |r| < |email| ==> email[|r|] == '@'
    ensures NameFromEmail(email) == r
  {
    var n := NameFromEmail(email);
    assert |n| == |r|;
  }

  lemma NameExample()
    ensures NameFromEmail("jane.doe@mail.com") == "jane.doe"
    ensures NameFromEmail("nobody") == "nobody"
  {
    var e := "jane.doe@mail.com";
    assert e[..8] == "jane.doe" && e[8] == '@';
    NameIsPartBeforeFirstAt(e, "jane.doe");
    NameIsPartBeforeFirstAt("nobody", "nobody");
  }
}
