/** The sign-in page: a three-step machine (email, then role and name, then
    the one-time code) over the page's state, the role-to-route mapping it
    uses both for a signed-in visitor and after a successful verification,
    and the role-specific profile it files for a new user. The backend's
    replies are parameters; typing into a field is modelled as setting it,
    on the step where that field is shown. */
module AuthPage {
  import opened Opt
  import OtpAuth

  datatype Step = EmailStep | RoleStep | OtpStep

  /** Where a role's home is. */
  function RouteForRole(role: string): (route: string)
    ensures route in {"/drivers", "/garages", "/airlines", "/book"}
    ensures role == "driver" <==> route == "/drivers"
    ensures role == "garage_partner" <==> route == "/garages"
    ensures role == "airline_partner" <==> route == "/airlines"
  {
    match role
    case "driver" => "/drivers"
    case "garage_partner" => "/garages"
    case "airline_partner" => "/airlines"
    case _ => "/book"
  }

  /** The redirect for a visitor who is already signed in: only once the
      session has loaded and the profile's role is known, to that role's
      home. */
  function RedirectTarget(hasUser: bool, authLoading: bool, role: Option<string>): (r: Option<string>)
    ensures r.Some? <==> hasUser && !authLoading && role.Some? && role.value != ""
    ensures r.Some? ==> r.value == RouteForRole(role.value)
  {
    if hasUser && !authLoading && role.Some? && role.value != "" then Some(RouteForRole(role.value)) else None
  }

  /** The characters `String.prototype.trim` removes. */
  predicate IsSpace(c: char) {
    c in {'\t', '\n', '\U{B}', '\U{C}', '\r', ' ', '\U{A0}', '\U{1680}', '\U{2028}', '\U{2029}',
          '\U{202F}', '\U{205F}', '\U{3000}', '\U{FEFF}'}
    || '\U{2000}' <= c <= '\U{200A}'
  }

  /** `!s.trim()` */
  predicate Blank(s: string) {
    forall i :: 0 <= i < |s| ==> IsSpace(s[i])
  }

  /** The position of the first underscore. */
  function FirstUnderscore(s: string): (k: nat)
    requires '_' in s
    ensures k < |s| && s[k] == '_' && '_' !in s[..k]
  {
    if s[0] == '_' then 0
    else
      var k := FirstUnderscore(s[1..]);
      assert s[..k + 1] == [s[0]] + s[1..][..k];
      k + 1
  }

  /** `role.replace('_', ' ')`: the first underscore becomes a space. */
  function ReplaceFirstUnderscore(s: string): (r: string)
    ensures '_' !in s ==> r == s
    ensures '_' in s ==> r == s[..FirstUnderscore(s)] + " " + s[FirstUnderscore(s) + 1..]
  {
    if s == [] then []
    else if s[0] == '_' then [' '] + s[1..]
    else
      assert s == [s[0]] + s[1..];
      [s[0]] + ReplaceFirstUnderscore(s[1..])
  }

  /** A toast: a success or an error message. */
  datatype Toast = Info(text: string) | Problem(text: string)

  /** What `otp-auth/send-otp` gives back; an absent `error` is "". */
  datatype SendReply = SendThrew(message: string) | SendAnswered(success: bool, message: string, error: string)

  /** What `otp-auth/verify-otp` gives back. */
  datatype VerifyReply =
    | VerifyThrew(message: string)
    | VerifyAnswered(success: bool, isNewUser: bool, userId: string, error: string)

  /** `a || b` on strings. */
  function Or(a: string, b: string): string {
    if a != "" then a else b
  }

  /** The toast `sendOTP` shows for an email and the backend's reply. */
  function SendToast(email: string, reply: SendReply): Toast {
    if !OtpAuth.ValidEmail(email) then Problem("Please enter a valid email address")
    else match reply
      case SendThrew(message) => Problem(Or(message, "Failed to send OTP"))
      case SendAnswered(success, message, error) =>
        if success then Info(message) else Problem(Or(error, "Failed to send OTP"))
  }

  /** The record filed for a new user of a partner role. */
  datatype AuxProfile =
    | DriverProfile(userId: string, experienceYears: int, backgroundCheckStatus: string)
    | GarageProfile(userId: string, businessName: string, contactEmail: string, capacity: int)
    | AirlineProfile(userId: string, airlineName: string, contactPerson: string, emailAddress: string,
                     partnershipType: string, commissionRate: real)

  function AuxProfileFor(role: string, userId: string, fullName: string, email: string): (p: Option<AuxProfile>)
    ensures p.Some? <==> role in {"driver", "garage_partner", "airline_partner"}
    ensures p.Some? ==> p.value.userId == userId
    ensures role == "driver" ==> p == Some(DriverProfile(userId, 0, "pending"))
    ensures role == "garage_partner" ==> p == Some(GarageProfile(userId, fullName + "'s Garage", email, 10))
    ensures role == "airline_partner" ==>
      p == Some(AirlineProfile(userId, fullName + " Airlines", fullName, email, "standard", 0.05))
  {
    if role == "driver" then Some(DriverProfile(userId, 0, "pending"))
    else if role == "garage_partner" then Some(GarageProfile(userId, fullName + "'s Garage", email, 10))
    else if role == "airline_partner" then
      Some(AirlineProfile(userId, fullName + " Airlines", fullName, email, "standard", 0.05))
    else None
  }

  /** The `profiles` update a verification makes: name and role for a new
      user, the role alone for a returning one. */
  datatype ProfileWrite = ProfileWrite(userId: string, fullName: Option<string>, role: string)

  /** Everything `verifyOTP` does: whether it called the backend, its toast,
      the writes it made and where it navigates. */
  datatype VerifyOutcome = VerifyOutcome(
    called: bool,
    toast: Toast,
    profileWrite: Option<ProfileWrite>,
    aux: Option<AuxProfile>,
    navigateTo: Option<string>)

  class Page {
    var step: Step
    var email: string
    var selectedRole: string
    var fullName: string
    var otp: string
    var resendCooldown: int

    /** The cooldown stays within 0..30, the role step is reached only with
        an email the backend accepts, and the code step only with a name. */
    ghost predicate Valid()
      reads this
    {
      && 0 <= resendCooldown <= 30
      && (step != EmailStep ==> OtpAuth.ValidEmail(email))
      && (step == OtpStep ==> !Blank(fullName))
    }

    constructor ()
      ensures Valid()
      ensures step == EmailStep && email == "" && selectedRole == "passenger" && fullName == ""
      ensures otp == "" && resendCooldown == 0
    {
      step := EmailStep;
      email := "";
      selectedRole := "passenger";
      fullName := "";
      otp := "";
      resendCooldown := 0;
    }

    method EnterEmail(e: string)
      requires Valid() && step == EmailStep
      modifies this`email
      ensures Valid() && email == e
    {
      email := e;
    }

    method EnterName(name: string)
      requires Valid() && step == RoleStep
      modifies this`fullName
      ensures Valid() && fullName == name
    {
      fullName := name;
    }

    method SelectRole(role: string)
      requires Valid() && step == RoleStep
      modifies this`selectedRole
      ensures Valid() && selectedRole == role
    {
      selectedRole := role;
    }

    method EnterOtp(code: string)
      requires Valid() && step == OtpStep
      modifies this`otp
      ensures Valid() && otp == code
    {
      otp := code;
    }

    /** `sendOTP`: refuse an email the backend would refuse without calling
        it; on the backend's success move to the role step, from whichever
        step the call was made. */
    method SendOtp(reply: SendReply) returns (toast: Toast, called: bool)
      requires Valid()
      modifies this`step
      ensures Valid()
      ensures called <==> OtpAuth.ValidEmail(email)
      ensures !called ==> toast == Problem("Please enter a valid email address") && step == old(step)
      ensures called && reply.SendAnswered? && reply.success ==> toast == Info(reply.message) && step == RoleStep
      ensures called && reply.SendAnswered? && !reply.success ==>
        toast == Problem(Or(reply.error, "Failed to send OTP")) && step == old(step)
      ensures called && reply.SendThrew? ==>
        toast == Problem(Or(reply.message, "Failed to send OTP")) && step == old(step)
      ensures toast == SendToast(email, reply)
    {
      if !OtpAuth.ValidEmail(email) {
        return Problem("Please enter a valid email address"), false;
      }
      called := true;
      match reply
      case SendThrew(message) =>
        toast := Problem(Or(message, "Failed to send OTP"));
      case SendAnswered(success, message, error) =>
        if success {
          toast := Info(message);
          step := RoleStep;
        } else {
          toast := Problem(Or(error, "Failed to send OTP"));
        }
    }

    /** `proceedToOTP`, the role step's button: a name that is not blank
        moves to the code step and starts the 30-second resend cooldown. */
    method ProceedToOtp() returns (toast: Option<Toast>)
      requires Valid() && step == RoleStep
      modifies this`step, this`resendCooldown
      ensures Valid()
      ensures Blank(fullName) ==>
        toast == Some(Problem("Please enter your full name")) && step == old(step)
        && resendCooldown == old(resendCooldown)
      ensures !Blank(fullName) ==> toast == None && step == OtpStep && resendCooldown == 30
    {
      if Blank(fullName) {
        return Some(Problem("Please enter your full name"));
      }
      step := OtpStep;
      resendCooldown := 30;
      toast := None;
    }

    /** `handleResendOTP`: nothing while the cooldown runs, otherwise send
        again (which does not restart the cooldown). */
    method HandleResendOtp(reply: SendReply) returns (toast: Option<Toast>, called: bool)
      requires Valid()
      modifies this`step
      ensures Valid()
      ensures old(resendCooldown) > 0 ==> toast == None && !called && step == old(step)
      ensures old(resendCooldown) <= 0 ==>
        toast == Some(SendToast(email, reply)) && (called <==> OtpAuth.ValidEmail(email))
      ensures called && reply.SendAnswered? && reply.success ==> step == RoleStep
      ensures !(called && reply.SendAnswered? && reply.success) ==> step == old(step)
    {
      if resendCooldown > 0 {
        return None, false;
      }
      var t;
      t, called := SendOtp(reply);
      toast := Some(t);
    }

    /** `goBack`: the code step goes back to the role step, any other step to
        the email step; the typed code is cleared either way. */
    method GoBack()
      requires Valid()
      modifies this`step, this`otp
      ensures Valid()
      ensures step == (if old(step) == OtpStep then RoleStep else EmailStep)
      ensures otp == ""
    {
      if step == OtpStep {
        step := RoleStep;
      } else {
        step := EmailStep;
      }
      otp := "";
    }

    /** One second of the cooldown timer. */
    method Tick()
      requires Valid()
      modifies this`resendCooldown
      ensures Valid()
      ensures resendCooldown == if old(resendCooldown) > 0 then old(resendCooldown) - 1 else old(resendCooldown)
    {
      if resendCooldown > 0 {
        resendCooldown := resendCooldown - 1;
      }
    }

    /** `verifyOTP`: refuse a code that is not six characters without
        calling the backend; on success write the chosen role (and, for a new
        user, the name and the role's own profile) and go to the role's home.
        A new user whose profile write fails stays on the page. */
    method VerifyOtp(reply: VerifyReply, profileUpdateOk: bool) returns (o: VerifyOutcome)
      ensures o.called <==> |otp| == 6
      ensures !o.called ==> o == VerifyOutcome(false, Problem("Please enter the complete 6-digit code"), None, None, None)
      ensures o.called && reply.VerifyThrew? ==>
        o == VerifyOutcome(true, Problem(Or(reply.message, "Invalid OTP")), None, None, None)
      ensures o.called && reply.VerifyAnswered? && !reply.success ==>
        o == VerifyOutcome(true, Problem(Or(reply.error, "Invalid OTP")), None, None, None)
      ensures o.called && reply.VerifyAnswered? && reply.success && reply.isNewUser ==>
        && o.profileWrite == Some(ProfileWrite(reply.userId, Some(fullName), selectedRole))
        && (profileUpdateOk ==>
              o == VerifyOutcome(true,
                                 Info("Welcome! Your " + ReplaceFirstUnderscore(selectedRole) + " account has been created."),
                                 o.profileWrite, AuxProfileFor(selectedRole, reply.userId, fullName, email),
                                 Some(RouteForRole(selectedRole))))
        && (!profileUpdateOk ==>
              o == VerifyOutcome(true, Problem("Account created but profile setup failed. Please contact support."),
                                 o.profileWrite, None, None))
      ensures o.called && reply.VerifyAnswered? && reply.success && !reply.isNewUser ==>
        o == VerifyOutcome(true, Info("Welcome back!"), Some(ProfileWrite(reply.userId, None, selectedRole)), None,
                           Some(RouteForRole(selectedRole)))
      ensures o.navigateTo.Some? ==>
        o.called && reply.VerifyAnswered? && reply.success && o.navigateTo.value == RouteForRole(selectedRole)
    {
      if |otp| != 6 {
        return VerifyOutcome(false, Problem("Please enter the complete 6-digit code"), None, None, None);
      }
      match reply
      case VerifyThrew(message) =>
        o := VerifyOutcome(true, Problem(Or(message, "Invalid OTP")), None, None, None);
      case VerifyAnswered(success, isNewUser, userId, error) =>
        if !success {
          o := VerifyOutcome(true, Problem(Or(error, "Invalid OTP")), None, None, None);
        } else if isNewUser {
          var write := Some(ProfileWrite(userId, Some(fullName), selectedRole));
          if !profileUpdateOk {
            o := VerifyOutcome(true, Problem("Account created but profile setup failed. Please contact support."),
                               write, None, None);
          } else {
            var aux := AuxProfileFor(selectedRole, userId, fullName, email);
            var text := "Welcome! Your " + ReplaceFirstUnderscore(selectedRole) + " account has been created.";
            o := VerifyOutcome(true, Info(text), write, aux, Some(RouteForRole(selectedRole)));
          }
        } else {
          o := VerifyOutcome(true, Info("Welcome back!"), Some(ProfileWrite(userId, None, selectedRole)), None,
                             Some(RouteForRole(selectedRole)));
        }
    }
  }
}
