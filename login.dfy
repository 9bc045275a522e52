/** pages/Login.tsx: the two-step sign-in screen. Step 1 takes a ten-digit mobile number and
    issues a six-digit code; step 2 takes the code in six one-character slots. Verification
    accepts any six filled slots: the issued code is stored but never compared. */
module Login {
  import opened Wrappers
  import opened Text
  import opened Seqs
  import opened JsNumber
  import opened App

  datatype LoginStep = MobileStep | OtpStep

  const MobileError: string := "Please enter a valid 10-digit mobile number"

  /** The seconds before "Resend OTP" is enabled. */
  const ResendDelay: int := 30

  const BlankOtp: seq<string> := ["", "", "", "", "", ""]

  /** The mobile input: the browser keeps at most 10 characters (`maxLength`), and the change
      handler drops every non-digit (`replace(/\D/g, '')`). */
  function MobileInput(raw: string): (r: string)
    ensures AllDigits(r) && |r| <= 10
    ensures IsSubsequence(r, Prefix(raw, 10))
    ensures forall c :: IsDigit(c) ==> multiset(r)[c] == multiset(Prefix(raw, 10))[c]
  {
    FilterIsSubsequence(Prefix(raw, 10), IsDigit);
    FilterMultiset(Prefix(raw, 10), IsDigit);
    Filter(Prefix(raw, 10), IsDigit)
  }

  /** Typing up to ten digits keeps them all. */
  lemma {:induction false} DigitsTypedAreKept(raw: string)
    requires |raw| <= 10 && AllDigits(raw)
    ensures MobileInput(raw) == raw
  {
    FilterKeepsAll(raw, IsDigit);
  }

  /** `Math.floor(100000 + Math.random() * 900000)` for a draw in [0, 1). */
  function GenerateOtp(draw: real): (n: int)
    requires 0.0 <= draw < 1.0
    ensures 100000 <= n <= 999999
  {
    (100000.0 + draw * 900000.0).Floor
  }

  /** The code as `toString()` renders it: always six digits. */
  function IssuedCode(draw: real): (s: string)
    requires 0.0 <= draw < 1.0
    ensures |s| == 6 && AllDigits(s) && DigitsValue(s) == GenerateOtp(draw)
  {
    SixDigitRendering(GenerateOtp(draw));
    DecimalRoundTrip(GenerateOtp(draw));
    DecimalString(GenerateOtp(draw))
  }

  /** A space is a keystroke `Number` accepts (it reads as 0), so a slot can hold a character
      that is not a digit, and six such slots pass the length check of verification. */
  lemma {:induction false} BlankKeystrokeFillsSlot()
    ensures !IsNaN(" ") && LastChar(" ") == " " && !IsDigit(' ')
  {
    SingleCharacterNumber(' ');
  }

  class LoginScreen {
    var step: LoginStep
    var mobile: string
    var otp: seq<string>
    var resendTimer: int
    var error: string
    /** The `generatedOTP` entry of local storage. */
    var issuedOtp: Option<string>

    ghost predicate Valid()
      reads this
    {
      && |otp| == 6 && (forall i :: 0 <= i < 6 ==> |otp[i]| <= 1)
      && 0 <= resendTimer <= ResendDelay
      && AllDigits(mobile) && |mobile| <= 10
      && (step == OtpStep ==> |mobile| == 10)
      && (issuedOtp.Some? ==> step == OtpStep && |issuedOtp.value| == 6 && AllDigits(issuedOtp.value))
    }

    /** The screen as it mounts: mobile step, everything empty, timer at 30. */
    constructor()
      ensures step == MobileStep && mobile == "" && otp == BlankOtp
      ensures resendTimer == ResendDelay && error == "" && issuedOtp.None?
      ensures Valid()
    {
      step := MobileStep;
      mobile := "";
      otp := BlankOtp;
      resendTimer := ResendDelay;
      error := "";
      issuedOtp := None;
    }

    /** A change of the mobile input. */
    method TypeMobile(raw: string)
      requires step == MobileStep && Valid()
      modifies this`mobile
      ensures mobile == MobileInput(raw) && Valid()
    {
      mobile := MobileInput(raw);
    }

    /** "Send OTP" (`handleSendOtp`), with the `Math.random()` draw passed in: anything but ten
        digits shows the error; ten digits issue a fresh code and open the code step with blank
        slots and the resend timer at 30. */
    method SendOtp(draw: real)
      requires step == MobileStep && Valid()
      requires 0.0 <= draw < 1.0
      modifies this`step, this`otp, this`resendTimer, this`error, this`issuedOtp
      ensures |mobile| != 10 ==>
        error == MobileError && step == MobileStep && otp == old(otp) &&
        resendTimer == old(resendTimer) && issuedOtp == old(issuedOtp)
      ensures |mobile| == 10 ==>
        error == "" && step == OtpStep && otp == BlankOtp &&
        resendTimer == ResendDelay && issuedOtp == Some(IssuedCode(draw))
      ensures Valid()
    {
      if |mobile| != 10 {
        error := MobileError;
        return;
      }
      error := "";
      issuedOtp := Some(IssuedCode(draw));
      step := OtpStep;
      resendTimer := ResendDelay;
      otp := BlankOtp;
    }

    /** A change of slot `index` (`handleOtpChange`): a value `Number` cannot read is ignored;
        otherwise the slot takes the value's last character (nothing, for an empty value). */
    method OtpChange(index: nat, value: string)
      requires step == OtpStep && index < 6 && Valid()
      modifies this`otp
      ensures IsNaN(value) ==> otp == old(otp)
      ensures !IsNaN(value) ==> otp == old(otp)[index := LastChar(value)]
      ensures Valid()
    {
      if IsNaN(value) {
        return;
      }
      otp := otp[index := LastChar(value)];
    }

    /** "Verify & Continue" (`handleVerifyOtp`): with fewer than six characters nothing happens;
        with six, whatever they are and whatever code was issued, the error is cleared, the
        stored code is removed and the store logs the user in with this mobile number. */
    method VerifyOtp(store: Store) returns (loggedIn: bool)
      requires step == OtpStep && Valid()
      modifies this`error, this`issuedOtp, store`isLoggedIn, store`mobile, store`userId
      ensures loggedIn <==> forall i :: 0 <= i < 6 ==> |otp[i]| == 1
      ensures !loggedIn ==>
        error == old(error) && issuedOtp == old(issuedOtp) &&
        store.isLoggedIn == old(store.isLoggedIn) && store.mobile == old(store.mobile) && store.userId == old(store.userId)
      ensures loggedIn ==>
        error == "" && issuedOtp.None? &&
        store.isLoggedIn && store.mobile == Some(mobile) && store.userId == Some(UserId(mobile))
      ensures Valid()
    {
      JoinShortParts(otp);
      if |Join(otp)| < 6 {
        return false;
      }
      error := "";
      issuedOtp := None;
      store.Login(mobile);
      loggedIn := true;
    }

    /** One second of the resend countdown, which runs only on the code step. */
    method Tick()
      requires Valid()
      modifies this`resendTimer
      ensures resendTimer == if step == OtpStep && old(resendTimer) > 0 then old(resendTimer) - 1 else old(resendTimer)
      ensures Valid()
    {
      if step == OtpStep && resendTimer > 0 {
        resendTimer := resendTimer - 1;
      }
    }

    /** "Resend OTP": a no-op while the countdown runs; afterwards blank slots, a fresh code and
        a new countdown. */
    method ResendOtp(draw: real)
      requires step == OtpStep && Valid()
      requires 0.0 <= draw < 1.0
      modifies this`otp, this`resendTimer, this`error, this`issuedOtp
      ensures old(resendTimer) > 0 ==>
        otp == old(otp) && resendTimer == old(resendTimer) && error == old(error) && issuedOtp == old(issuedOtp)
      ensures old(resendTimer) == 0 ==>
        otp == BlankOtp && resendTimer == ResendDelay && error == "" && issuedOtp == Some(IssuedCode(draw))
      ensures Valid()
    {
      if resendTimer > 0 {
        return;
      }
      otp := BlankOtp;
      resendTimer := ResendDelay;
      error := "";
      issuedOtp := Some(IssuedCode(draw));
    }

    /** "Change Number": back to the mobile step; the stored code is removed and the error
        cleared, while the slots and the countdown keep their values. */
    method ChangeNumber()
      requires step == OtpStep && Valid()
      modifies this`step, this`issuedOtp, this`error
      ensures step == MobileStep && issuedOtp.None? && error == "" && Valid()
    {
      step := MobileStep;
      issuedOtp := None;
      error := "";
    }
  }
}
