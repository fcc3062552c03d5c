/**
 * The sign-up page: the password rules, the list of unmet rules shown under
 * the field, and the two-step submit (account details, then the emailed
 * code).  The authentication calls are given outcomes.
 */
module Register {
  import opened Text
  import opened Wrappers
  import opened Notifications

  const PasswordMin: nat := 8

  /** A character of the class `[!@#$%^&*()_+\-=[\]{};':"\\|,.<>/?]`. */
  predicate IsSymbol(c: char)
  {
    c in "!@#$%^&*()_+-=[]{};':\"\\|,.<>/?"
  }

  predicate HasUpper(p: string) { exists i :: 0 <= i < |p| && IsUpperAscii(p[i]) }

  predicate HasDigit(p: string) { exists i :: 0 <= i < |p| && IsDigit(p[i]) }

  predicate HasSymbol(p: string) { exists i :: 0 <= i < |p| && IsSymbol(p[i]) }

  /** `isStrongPassword`. */
  predicate IsStrongPassword(p: string)
  {
    |p| >= PasswordMin && HasUpper(p) && HasDigit(p) && HasSymbol(p)
  }

  const TooShort := "At least 8 characters"
  const NoCapital := "One capital letter"
  const NoNumber := "One number"
  const NoSymbol := "One symbol"

  /** The four rule messages in the order they are listed. */
  const RuleMessages: seq<string> := [TooShort, NoCapital, NoNumber, NoSymbol]

  /** The position of a message in the listed order (4 for any other text). */
  function RuleIndex(m: string): nat
  {
    if m == TooShort then 0 else if m == NoCapital then 1 else if m == NoNumber then 2
    else if m == NoSymbol then 3 else 4
  }

  /** Whether the password fails the rule at position `k`. */
  function RuleFails(k: nat, p: string): bool
    requires k < 4
  {
    if k == 0 then |p| < PasswordMin
    else if k == 1 then !HasUpper(p)
    else if k == 2 then !HasDigit(p)
    else !HasSymbol(p)
  }

  /** The messages of the first `n` rules a non-empty password fails, in the listed order. */
  function Failed(p: string, n: nat): seq<string>
    requires n <= 4
  {
    if n == 0 then []
    else Failed(p, n - 1) + (if p != [] && RuleFails(n - 1, p) then [RuleMessages[n - 1]] else [])
  }

  /**
   * The first `n` rules' messages: at most `n` of them, each a rule message
   * of those rules, present exactly when the rule fails, in the listed order.
   */
  lemma FailedFacts(p: string, n: nat)
    requires n <= 4
    ensures |Failed(p, n)| <= n
    ensures forall i :: 0 <= i < |Failed(p, n)| ==> Failed(p, n)[i] in RuleMessages && RuleIndex(Failed(p, n)[i]) < n
    ensures forall k :: 0 <= k < n ==> (RuleMessages[k] in Failed(p, n) <==> p != [] && RuleFails(k, p))
    ensures forall i, j :: 0 <= i < j < |Failed(p, n)| ==> RuleIndex(Failed(p, n)[i]) < RuleIndex(Failed(p, n)[j])
  {
    FailedShape(p, n);
    FailedExactly(p, n);
    FailedOrdered(p, n);
  }

  lemma {:induction false} FailedShape(p: string, n: nat)
    requires n <= 4
    ensures |Failed(p, n)| <= n
    ensures forall i :: 0 <= i < |Failed(p, n)| ==> Failed(p, n)[i] in RuleMessages && RuleIndex(Failed(p, n)[i]) < n
  {
    if n > 0 {
      FailedShape(p, n - 1);
      assert RuleIndex(RuleMessages[n - 1]) == n - 1;
    }
  }

  lemma {:induction false} FailedExactly(p: string, n: nat)
    requires n <= 4
    ensures forall k :: 0 <= k < n ==> (RuleMessages[k] in Failed(p, n) <==> p != [] && RuleFails(k, p))
  {
    if n > 0 {
      FailedExactly(p, n - 1);
      FailedShape(p, n - 1);
      forall k | 0 <= k < n ensures RuleMessages[k] in Failed(p, n) <==> p != [] && RuleFails(k, p) {
        assert RuleIndex(RuleMessages[k]) == k;
      }
    }
  }

  lemma {:induction false} FailedOrdered(p: string, n: nat)
    requires n <= 4
    ensures forall i, j :: 0 <= i < j < |Failed(p, n)| ==> RuleIndex(Failed(p, n)[i]) < RuleIndex(Failed(p, n)[j])
  {
    if n > 0 {
      FailedOrdered(p, n - 1);
      FailedShape(p, n - 1);
      assert RuleIndex(RuleMessages[n - 1]) == n - 1;
    }
  }

  /** `passwordErrors`: the rules the password fails, in the listed order; nothing for an empty password. */
  method PasswordErrors(p: string) returns (errs: seq<string>)
    ensures p == [] ==> errs == []
    ensures |errs| <= 4
    ensures forall k :: 0 <= k < 4 ==> (RuleMessages[k] in errs <==> p != [] && RuleFails(k, p))
    ensures forall i :: 0 <= i < |errs| ==> errs[i] in RuleMessages
    ensures forall i, j :: 0 <= i < j < |errs| ==> RuleIndex(errs[i]) < RuleIndex(errs[j])
    ensures p != [] ==> (errs == [] <==> IsStrongPassword(p))
  {
    errs := [];
    if |p| > 0 && |p| < PasswordMin {
      errs := errs + [TooShort];
    }
    assert errs == Failed(p, 1);
    if |p| > 0 && !HasUpper(p) {
      errs := errs + [NoCapital];
    }
    assert errs == Failed(p, 2);
    if |p| > 0 && !HasDigit(p) {
      errs := errs + [NoNumber];
    }
    assert errs == Failed(p, 3);
    if |p| > 0 && !HasSymbol(p) {
      errs := errs + [NoSymbol];
    }
    assert errs == Failed(p, 4);
    FailedFacts(p, 4);
    if p != [] && errs == [] {
      assert forall k :: 0 <= k < 4 ==> !RuleFails(k, p);
    }
  }

  datatype Step = Details | Verify

  /** The authentication call a submit makes. */
  datatype AuthCall = NoCall | SignUp(email: string, password: string) | VerifyOtp(email: string, token: string)

  const WeakPassword := "Password must be at least 8 characters with one capital letter, one number, and one symbol."
  const BadCode := "Please enter a 6-digit code."

  class RegisterForm {
    var email: string
    var password: string
    var otp: string
    var error: Option<string>
    var step: Step

    constructor()
      ensures email == [] && password == [] && otp == [] && error == None && step == Details
    {
      email, password, otp, error, step := [], [], [], None, Details;
    }

    /**
     * `handleSubmit`.  `signUp` is the outcome of the sign-up call (`Ok(true)`
     * when it returns a session), `verify` that of the code check; the
     * method returns the call made, the toasts shown and the page navigated to.
     */
    method HandleSubmit(signUp: Result<bool>, verify: Result<()>)
      returns (call: AuthCall, notices: seq<Notice>, navigateTo: Option<string>)
      modifies this
      ensures email == old(email) && password == old(password) && otp == old(otp)
      // details step
      ensures old(step) == Details && !IsStrongPassword(password) ==>
                call == NoCall && error == Some(WeakPassword) && step == Details
                && notices == [] && navigateTo == None
      ensures old(step) == Details && IsStrongPassword(password) ==> call == SignUp(email, password)
      ensures old(step) == Details && IsStrongPassword(password) && signUp == Ok(true) ==>
                step == Details && error == None && navigateTo == Some("/dashboard")
                && notices == [Notice(Success, "Account created successfully!")]
      ensures old(step) == Details && IsStrongPassword(password) && signUp == Ok(false) ==>
                step == Verify && error == None && navigateTo == None
                && notices == [Notice(Success, "Verification code sent to your email!")]
      ensures old(step) == Details && IsStrongPassword(password) && signUp.Err? ==>
                step == Details && error == Some(signUp.message) && navigateTo == None
                && notices == [Notice(Error, signUp.message)]
      // verify step
      ensures old(step) == Verify ==> step == Verify
      ensures old(step) == Verify && |otp| != 6 ==>
                call == NoCall && error == Some(BadCode) && notices == [] && navigateTo == None
      ensures old(step) == Verify && |otp| == 6 ==> call == VerifyOtp(email, otp)
      ensures old(step) == Verify && |otp| == 6 && verify.Ok? ==>
                error == None && navigateTo == Some("/dashboard")
                && notices == [Notice(Success, "Account verified and created!")]
      ensures old(step) == Verify && |otp| == 6 && verify.Err? ==>
                error == Some(verify.message) && navigateTo == None && notices == [Notice(Error, verify.message)]
      // the only move between steps
      ensures step != old(step) ==>
                old(step) == Details && step == Verify && IsStrongPassword(password) && signUp == Ok(false)
    {
      error := None;
      notices, navigateTo := [], None;
      if step == Details {
        if !IsStrongPassword(password) {
          error := Some(WeakPassword);
          return NoCall, notices, navigateTo;
        }
        call := SignUp(email, password);
        if signUp.Ok? {
          if signUp.value {
            notices := notices + [Notice(Success, "Account created successfully!")];
            navigateTo := Some("/dashboard");
          } else {
            step := Verify;
            notices := notices + [Notice(Success, "Verification code sent to your email!")];
          }
        } else {
          error := Some(signUp.message);
          notices := notices + [Notice(Error, signUp.message)];
        }
      } else {
        if |otp| != 6 {
          error := Some(BadCode);
          return NoCall, notices, navigateTo;
        }
        call := VerifyOtp(email, otp);
        if verify.Ok? {
          notices := notices + [Notice(Success, "Account verified and created!")];
          navigateTo := Some("/dashboard");
        } else {
          error := Some(verify.message);
          notices := notices + [Notice(Error, verify.message)];
        }
      }
    }
  }
}
