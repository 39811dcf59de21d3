/**
 * Account verification by one-time code and password login, with optional
 * two-factor codes. The account record is updated in place, so it is a class;
 * the behaviour switches of the two flows are fixed records of settings.
 *
 * `verify` and `loginUser` are modelled as written, where an asynchronous
 * call is used without being awaited, and beside each the flow with the call
 * awaited.
 */
module Auth {
  import opened Common
  import opened Helpers

  /** The account fields the two flows read and write. */
  class Account {
    var email: string
    var firstName: string
    var lastName: string
    var otp: Option<string>
    var otpGenerateAt: Option<int>   // milliseconds since the epoch; None is a null date
    var verifiedUser: bool
    var twoFactorAuthentication: bool

    constructor (email: string, firstName: string, lastName: string, otp: Option<string>,
                 otpGenerateAt: Option<int>, verifiedUser: bool, twoFactorAuthentication: bool)
      ensures this.email == email && this.firstName == firstName && this.lastName == lastName
      ensures this.otp == otp && this.otpGenerateAt == otpGenerateAt
      ensures this.verifiedUser == verifiedUser && this.twoFactorAuthentication == twoFactorAuthentication
    {
      this.email, this.firstName, this.lastName := email, firstName, lastName;
      this.otp, this.otpGenerateAt := otp, otpGenerateAt;
      this.verifiedUser, this.twoFactorAuthentication := verifiedUser, twoFactorAuthentication;
    }
  }

  /** What a successful login or verification hands back besides the token. */
  datatype Credentials = Credentials(firstName: string, lastName: string, email: string)

  /** `getCredentials`: the names and e-mail of the account, and nothing else. */
  function GetCredentials(user: Account): (c: Credentials)
    reads user
    ensures c.firstName == user.firstName && c.lastName == user.lastName && c.email == user.email
  {
    Credentials(user.firstName, user.lastName, user.email)
  }

  /** `requiredFields.filter(f => !fields[f])` */
  function Missing(names: seq<string>, values: seq<string>): seq<string>
    requires |names| == |values|
  {
    if names == [] then []
    else (if values[0] == "" then [names[0]] else []) + Missing(names[1..], values[1..])
  }

  /** Both flows' `validateFields`: null, or the missing field names in order. */
  function MissingFieldsMessage(names: seq<string>, values: seq<string>): Option<string>
    requires |names| == |values|
  {
    var missing := Missing(names, values);
    if |missing| > 0 then Some("Please provide required fields: " + Join(missing, ", ") + ".") else None
  }

  /** Helper: the missing names of a two-field request. */
  lemma MissingOfTwo(n1: string, n2: string, v1: string, v2: string)
    ensures Missing([n1, n2], [v1, v2]) == (if v1 == "" then [n1] else []) + (if v2 == "" then [n2] else [])
  {
    assert [n1, n2][1..] == [n2] && [v1, v2][1..] == [v2];
    assert [n2][1..] == [] && [v2][1..] == [];
    var last := if v2 == "" then [n2] else [];
    assert Missing([n2], [v2]) == last + Missing([], []);
    assert last + [] == last;
  }

  /** Helper: joining two names. */
  lemma JoinTwo(a: string, b: string, sep: string)
    ensures Join([a, b], sep) == a + sep + b
  {
    assert [a, b][1..] == [b];
  }

  /** The message for two required fields, spelled out case by case. */
  lemma TwoFieldsMessage(n1: string, n2: string, v1: string, v2: string)
    ensures MissingFieldsMessage([n1, n2], [v1, v2]) ==
              if v1 == "" && v2 == "" then Some("Please provide required fields: " + n1 + ", " + n2 + ".")
              else if v1 == "" then Some("Please provide required fields: " + n1 + ".")
              else if v2 == "" then Some("Please provide required fields: " + n2 + ".")
              else None
  {
    MissingOfTwo(n1, n2, v1, v2);
    var missing := Missing([n1, n2], [v1, v2]);
    if v1 == "" && v2 == "" {
      assert missing == [n1, n2];
      JoinTwo(n1, n2, ", ");
      var p := "Please provide required fields: ";
      assert p + (n1 + ", " + n2) + "." == p + n1 + ", " + n2 + ".";
    } else if v1 == "" {
      assert missing == [n1];
    } else if v2 == "" {
      assert missing == [n2];
    } else {
      assert missing == [];
    }
  }

  /** `validateFields` of the verification flow. */
  function ValidateVerifyFields(email: string, otp: string): (r: Option<string>)
    ensures r.None? <==> email != "" && otp != ""
    ensures email == "" && otp == "" ==> r == Some("Please provide required fields: email, otp.")
    ensures email == "" && otp != "" ==> r == Some("Please provide required fields: email.")
    ensures email != "" && otp == "" ==> r == Some("Please provide required fields: otp.")
  {
    TwoFieldsMessage("email", "otp", email, otp);
    assert "Please provide required fields: " + "email" + ", " + "otp" + "." == "Please provide required fields: email, otp.";
    assert "Please provide required fields: " + "email" + "." == "Please provide required fields: email.";
    assert "Please provide required fields: " + "otp" + "." == "Please provide required fields: otp.";
    MissingFieldsMessage(["email", "otp"], [email, otp])
  }

  /** `validateFields` of the login flow. */
  function ValidateLoginFields(email: string, password: string): (r: Option<string>)
    ensures r.None? <==> email != "" && password != ""
    ensures email == "" && password == "" ==> r == Some("Please provide required fields: email, password.")
    ensures email == "" && password != "" ==> r == Some("Please provide required fields: email.")
    ensures email != "" && password == "" ==> r == Some("Please provide required fields: password.")
  {
    TwoFieldsMessage("email", "password", email, password);
    assert "Please provide required fields: " + "email" + ", " + "password" + "." == "Please provide required fields: email, password.";
    assert "Please provide required fields: " + "email" + "." == "Please provide required fields: email.";
    assert "Please provide required fields: " + "password" + "." == "Please provide required fields: password.";
    MissingFieldsMessage(["email", "password"], [email, password])
  }

  // ---------------------------------------------------------------------------
  // Verification
  // ---------------------------------------------------------------------------

  /** The settings of the verification flow. */
  datatype VerifyConfig = VerifyConfig(userType: string, checkTokenExpiryFlag: bool, expiryTimeInMinutes: int)

  const DefaultVerify := VerifyConfig("<User Type>", true, 2)

  /**
   * `checkTokenExpiry`: the code has expired when strictly more than the
   * configured minutes have passed since it was generated. A null generation
   * date is the epoch.
   */
  function CheckTokenExpiry(cfg: VerifyConfig, otpGenerateAt: Option<int>, now: int): bool
  {
    var generatedAt := if otpGenerateAt.Some? then otpGenerateAt.value else 0;
    now - generatedAt > cfg.expiryTimeInMinutes * 60000
  }

  /** With the default settings, a code is valid for exactly two minutes: not expired at 120000 ms, expired one ms later. */
  lemma ExpiryBoundary(generatedAt: int)
    ensures !CheckTokenExpiry(DefaultVerify, Some(generatedAt), generatedAt + 120000)
    ensures CheckTokenExpiry(DefaultVerify, Some(generatedAt), generatedAt + 120001)
  {
  }

  /** Once expired, a code stays expired. */
  lemma ExpiryMonotone(cfg: VerifyConfig, otpGenerateAt: Option<int>, now: int, later: int)
    requires now <= later && CheckTokenExpiry(cfg, otpGenerateAt, now)
    ensures CheckTokenExpiry(cfg, otpGenerateAt, later)
  {
  }

  /**
   * `verifyOTP`: on a matching code the account becomes verified and its code
   * and generation date are cleared; otherwise nothing changes.
   */
  method VerifyOtp(user: Account, otp: string) returns (matched: bool)
    modifies user`otp, user`otpGenerateAt, user`verifiedUser
    ensures matched <==> old(user.otp) == Some(otp)
    ensures matched ==> user.otp.None? && user.otpGenerateAt.None? && user.verifiedUser
    ensures !matched ==> user.otp == old(user.otp) && user.otpGenerateAt == old(user.otpGenerateAt)
                         && user.verifiedUser == old(user.verifiedUser)
  {
    if user.otp == Some(otp) {
      user.otp := None;
      user.otpGenerateAt := None;
      user.verifiedUser := true;
      return true;
    }
    return false;
  }

  /** The rejections `verify` makes before it looks at the code, in order. */
  function VerifyRejection(cfg: VerifyConfig, email: string, otp: string, found: bool, alreadyVerified: bool,
                           otpGenerateAt: Option<int>, now: int): (r: Option<Reply>)
    ensures r.Some? ==> r.value.status == 400
    ensures ValidateVerifyFields(email, otp).Some? ==> r == Some(Reply(400, ValidateVerifyFields(email, otp).value))
    ensures ValidateVerifyFields(email, otp).None? && !found ==> r == Some(Reply(400, cfg.userType + " not found"))
    ensures ValidateVerifyFields(email, otp).None? && found && alreadyVerified ==> r == Some(Reply(400, "Already verified!"))
    ensures r.None? <==> ValidateVerifyFields(email, otp).None? && found && !alreadyVerified
                         && !(cfg.checkTokenExpiryFlag && CheckTokenExpiry(cfg, otpGenerateAt, now))
  {
    var invalid := ValidateVerifyFields(email, otp);
    if invalid.Some? then Some(Reply(400, invalid.value))
    else if !found then Some(Reply(400, cfg.userType + " not found"))
    else if alreadyVerified then Some(Reply(400, "Already verified!"))
    else if cfg.checkTokenExpiryFlag && CheckTokenExpiry(cfg, otpGenerateAt, now) then
      Some(Reply(400, "Token is expired, generate again"))
    else None
  }

  /**
   * `verify` as written: the result of `verifyOTP` is a promise, which is
   * always truthy, so once the rejections are passed the caller gets
   * credentials and a token whether or not the code matched. The account is
   * still only verified when it did.
   */
  method Verify(cfg: VerifyConfig, email: string, otp: string, user: Account?, now: int)
    returns (reply: Reply, session: Option<Credentials>)
    modifies user
    ensures var rejection := VerifyRejection(cfg, email, otp, user != null,
                                             user != null && old(user.verifiedUser),
                                             if user != null then old(user.otpGenerateAt) else None, now);
            && (rejection.Some? ==> reply == rejection.value && session.None?)
            && (rejection.None? ==>
                  && reply == Reply(200, cfg.userType + " verified and logged in successfully!")
                  && session == Some(GetCredentials(user))
                  && (user.verifiedUser <==> old(user.otp) == Some(otp)))
            && (rejection.Some? && user != null ==>
                  && user.verifiedUser == old(user.verifiedUser)
                  && user.otp == old(user.otp) && user.otpGenerateAt == old(user.otpGenerateAt))
    ensures user != null && !(user.verifiedUser && !old(user.verifiedUser)) ==>
              user.otp == old(user.otp) && user.otpGenerateAt == old(user.otpGenerateAt)
    ensures user != null ==> user.email == old(user.email) && user.firstName == old(user.firstName)
                             && user.lastName == old(user.lastName)
                             && user.twoFactorAuthentication == old(user.twoFactorAuthentication)
  {
    var rejection := VerifyRejection(cfg, email, otp, user != null, user != null && user.verifiedUser,
                                     if user != null then user.otpGenerateAt else None, now);
    if rejection.Some? {
      return rejection.value, None;
    }
    var _ := VerifyOtp(user, otp);
    // The un-awaited promise is truthy: the success branch is always taken.
    reply := Reply(200, cfg.userType + " verified and logged in successfully!");
    session := Some(GetCredentials(user));
  }

  /**
   * `verify` with `verifyOTP` awaited: a wrong code answers 400 "Invalid OTP!"
   * and changes nothing, and every success leaves the account verified.
   */
  method VerifyAwaited(cfg: VerifyConfig, email: string, otp: string, user: Account?, now: int)
    returns (reply: Reply, session: Option<Credentials>)
    modifies user
    ensures var rejection := VerifyRejection(cfg, email, otp, user != null,
                                             user != null && old(user.verifiedUser),
                                             if user != null then old(user.otpGenerateAt) else None, now);
            && (rejection.Some? ==> reply == rejection.value && session.None?)
            && (rejection.None? && old(user.otp) != Some(otp) ==> reply == Reply(400, "Invalid OTP!") && session.None?)
            && (reply.status == 200 <==> rejection.None? && old(user.otp) == Some(otp))
    ensures reply.status == 200 ==> user != null && user.verifiedUser && session == Some(GetCredentials(user))
    ensures reply.status != 200 ==> session.None?
    ensures user != null && reply.status != 200 ==>
              user.otp == old(user.otp) && user.otpGenerateAt == old(user.otpGenerateAt) && user.verifiedUser == old(user.verifiedUser)
    ensures user != null ==> user.email == old(user.email) && user.firstName == old(user.firstName)
                             && user.lastName == old(user.lastName)
                             && user.twoFactorAuthentication == old(user.twoFactorAuthentication)
  {
    var rejection := VerifyRejection(cfg, email, otp, user != null, user != null && user.verifiedUser,
                                     if user != null then user.otpGenerateAt else None, now);
    if rejection.Some? {
      return rejection.value, None;
    }
    var userVerified := VerifyOtp(user, otp);
    if userVerified {
      reply := Reply(200, cfg.userType + " verified and logged in successfully!");
      session := Some(GetCredentials(user));
    } else {
      reply := Reply(400, "Invalid OTP!");
      session := None;
    }
  }

  /**
   * The defect of `verify` on one input: an unverified account whose code is
   * "1234", checked within its two minutes with the code "0000", receives
   * credentials and a token and stays unverified; with the call awaited the
   * same request is refused.
   */
  method WrongOtpLogsIn() returns (asWritten: Reply, issued: bool, verifiedAfter: bool, awaited: Reply)
    ensures asWritten.status == 200 && issued && !verifiedAfter
    ensures awaited == Reply(400, "Invalid OTP!")
  {
    var user := new Account("ann@example.com", "Ann", "Lee", Some("1234"), Some(1000), false, false);
    var session;
    asWritten, session := Verify(DefaultVerify, "ann@example.com", "0000", user, 2000);
    issued := session.Some?;
    verifiedAfter := user.verifiedUser;
    var other := new Account("ann@example.com", "Ann", "Lee", Some("1234"), Some(1000), false, false);
    var refused;
    awaited, refused := VerifyAwaited(DefaultVerify, "ann@example.com", "0000", other, 2000);
  }

  // ---------------------------------------------------------------------------
  // Login
  // ---------------------------------------------------------------------------

  /** The settings of the login flow. */
  datatype LoginConfig = LoginConfig(userType: string, twoFactorFeature: bool, verfiedAccountCheck: bool)

  const DefaultLogin := LoginConfig("<User Type>", false, false)

  /**
   * `twoFactorLogin`: for an account with two-factor authentication on, store
   * a fresh four-digit code and its generation time (the code is then mailed);
   * otherwise change nothing.
   */
  method TwoFactorLogin(user: Account, now: int) returns (sent: bool)
    modifies user`otp, user`otpGenerateAt
    ensures sent == user.twoFactorAuthentication
    ensures sent ==> user.otp.Some? && |user.otp.value| == 4
                     && (forall i :: 0 <= i < 4 ==> user.otp.value[i] in Digits)
                     && user.otpGenerateAt == Some(now)
    ensures !sent ==> user.otp == old(user.otp) && user.otpGenerateAt == old(user.otpGenerateAt)
  {
    if user.twoFactorAuthentication {
      var code := GenerateOtp(4);
      user.otp := Some(code);
      user.otpGenerateAt := Some(now);
      return true;
    }
    return false;
  }

  /** The rejections `loginUser` makes before it issues anything, in order. */
  function LoginRejection(cfg: LoginConfig, email: string, password: string, found: bool, verified: bool,
                          passwordMatches: bool): (r: Option<Reply>)
    ensures r.Some? ==> r.value.status == 400
    ensures ValidateLoginFields(email, password).Some? ==> r == Some(Reply(400, ValidateLoginFields(email, password).value))
    ensures ValidateLoginFields(email, password).None? && !found ==> r == Some(Reply(400, cfg.userType + " not found"))
    ensures ValidateLoginFields(email, password).None? && found && cfg.verfiedAccountCheck && !verified ==>
              r == Some(Reply(400, cfg.userType + " not verified"))
    ensures r.None? <==> ValidateLoginFields(email, password).None? && found
                         && (cfg.verfiedAccountCheck ==> verified) && passwordMatches
  {
    var invalid := ValidateLoginFields(email, password);
    if invalid.Some? then Some(Reply(400, invalid.value))
    else if !found then Some(Reply(400, cfg.userType + " not found"))
    else if cfg.verfiedAccountCheck && !verified then Some(Reply(400, cfg.userType + " not verified"))
    else if !passwordMatches then Some(Reply(400, "Password does not match!"))
    else None
  }

  const CodeSent := "Two-factor authentication code has been sent to your email."

  /**
   * `loginUser` as written: with the two-factor feature on, the result of
   * `twoFactorLogin` is a promise, always truthy, so every correct password
   * gets "code sent" and no token, even for an account without two-factor
   * authentication (which then can never log in). With the feature off, a
   * correct password gets credentials and a token.
   */
  method LoginUser(cfg: LoginConfig, email: string, password: string, user: Account?, passwordMatches: bool, now: int)
    returns (reply: Reply, session: Option<Credentials>)
    modifies user
    ensures var rejection := LoginRejection(cfg, email, password, user != null,
                                            user != null && old(user.verifiedUser), passwordMatches);
            && (rejection.Some? ==> reply == rejection.value && session.None?)
            && (rejection.None? && cfg.twoFactorFeature ==> reply == Reply(200, CodeSent) && session.None?)
            && (rejection.None? && !cfg.twoFactorFeature ==>
                  reply == Reply(200, cfg.userType + " authenticated and logged in successfully!")
                  && session == Some(GetCredentials(user)))
    ensures user != null ==>
              && user.email == old(user.email) && user.firstName == old(user.firstName) && user.lastName == old(user.lastName)
              && user.verifiedUser == old(user.verifiedUser) && user.twoFactorAuthentication == old(user.twoFactorAuthentication)
    ensures user != null ==>
              var codeIssued := LoginRejection(cfg, email, password, true, old(user.verifiedUser), passwordMatches).None?
                                && cfg.twoFactorFeature && user.twoFactorAuthentication;
              && (codeIssued ==> user.otp.Some? && |user.otp.value| == 4 && user.otpGenerateAt == Some(now))
              && (!codeIssued ==> user.otp == old(user.otp) && user.otpGenerateAt == old(user.otpGenerateAt))
  {
    var rejection := LoginRejection(cfg, email, password, user != null, user != null && user.verifiedUser, passwordMatches);
    if rejection.Some? {
      return rejection.value, None;
    }
    if cfg.twoFactorFeature {
      var _ := TwoFactorLogin(user, now);
      // The un-awaited promise is truthy.
      return Reply(200, CodeSent), None;
    }
    reply := Reply(200, cfg.userType + " authenticated and logged in successfully!");
    session := Some(GetCredentials(user));
  }

  /**
   * `loginUser` with `twoFactorLogin` awaited: a code is sent exactly to
   * accounts with two-factor authentication on; every other correct password
   * gets credentials and a token.
   */
  method LoginUserAwaited(cfg: LoginConfig, email: string, password: string, user: Account?, passwordMatches: bool, now: int)
    returns (reply: Reply, session: Option<Credentials>)
    modifies user
    ensures var rejection := LoginRejection(cfg, email, password, user != null,
                                            user != null && old(user.verifiedUser), passwordMatches);
            && (rejection.Some? ==> reply == rejection.value && session.None?)
            && (rejection.None? ==>
                  && reply.status == 200
                  && (session.None? <==> cfg.twoFactorFeature && user.twoFactorAuthentication)
                  && (session.Some? ==> session == Some(GetCredentials(user))))
    ensures user != null ==>
              && user.email == old(user.email) && user.firstName == old(user.firstName) && user.lastName == old(user.lastName)
              && user.verifiedUser == old(user.verifiedUser) && user.twoFactorAuthentication == old(user.twoFactorAuthentication)
    ensures user != null ==>
              var codeIssued := LoginRejection(cfg, email, password, true, old(user.verifiedUser), passwordMatches).None?
                                && cfg.twoFactorFeature && user.twoFactorAuthentication;
              && (codeIssued ==> user.otp.Some? && |user.otp.value| == 4 && user.otpGenerateAt == Some(now))
              && (!codeIssued ==> user.otp == old(user.otp) && user.otpGenerateAt == old(user.otpGenerateAt))
  {
    var rejection := LoginRejection(cfg, email, password, user != null, user != null && user.verifiedUser, passwordMatches);
    if rejection.Some? {
      return rejection.value, None;
    }
    if cfg.twoFactorFeature {
      var sent := TwoFactorLogin(user, now);
      if sent {
        return Reply(200, CodeSent), None;
      }
    }
    reply := Reply(200, cfg.userType + " authenticated and logged in successfully!");
    session := Some(GetCredentials(user));
  }

  /**
   * The defect of `loginUser` on one input: with the two-factor feature on,
   * an account without two-factor authentication gives the right password
   * and gets no token and no code; with the call awaited it gets credentials.
   */
  method TwoFactorOffUserGetsNoToken() returns (asWritten: Reply, issued: bool, codeStored: bool, awaitedIssued: bool)
    ensures asWritten == Reply(200, CodeSent) && !issued && !codeStored
    ensures awaitedIssued
  {
    var cfg := LoginConfig("Student", true, false);
    var user := new Account("bo@example.com", "Bo", "Ng", None, None, true, false);
    var session;
    asWritten, session := LoginUser(cfg, "bo@example.com", "secret", user, true, 5000);
    issued := session.Some?;
    codeStored := user.otp.Some?;
    var other := new Account("bo@example.com", "Bo", "Ng", None, None, true, false);
    var _, again := LoginUserAwaited(cfg, "bo@example.com", "secret", other, true, 5000);
    awaitedIssued := again.Some?;
  }
}
