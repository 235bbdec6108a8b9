/** The sign-in page (`Login`): the e-mail check before an OTP is requested,
    the OTP check before it is verified, and the two-step flow between them. */
module Login {
  import opened Wrappers
  import opened Text
  import opened Requests

  /** `email.trim().toLowerCase()`: the trimmed address, character by
      character lower-cased, so no white space is left at either end and no
      upper-case ASCII letter anywhere. */
  function NormalizeEmail(s: string): (e: string)
    ensures |e| == |Trim(s)| <= |s|
    ensures forall i :: 0 <= i < |e| ==> e[i] == LowerChar(Trim(s)[i])
    ensures e == [] || (!IsSpace(e[0]) && !IsSpace(e[|e| - 1]))
    ensures forall i :: 0 <= i < |e| ==> !('A' <= e[i] <= 'Z')
  {
    ToLower(Trim(s))
  }

  /** Normalising an already normalised address changes nothing. */
  lemma NormalizeIdempotent(s: string)
    ensures NormalizeEmail(NormalizeEmail(s)) == NormalizeEmail(s)
  {
    var e := NormalizeEmail(s);
    TrimmedIsFixed(e);
    ToLowerIdempotent(Trim(s));
  }

  /** The characters of the class `[a-z0-9._%+-]`. */
  predicate LocalChar(c: char)
  {
    ('a' <= c <= 'z') || ('0' <= c <= '9') || c == '.' || c == '_' || c == '%' || c == '+' || c == '-'
  }

  predicate AllLocal(s: string)
  {
    forall i :: 0 <= i < |s| ==> LocalChar(s[i])
  }

  const KietDomain := "@kiet.edu"

  /** Where the greedy run `[a-z0-9._%+-]+` that starts at `i` stops. */
  function LocalRunEnd(e: string, i: nat): (k: nat)
    requires i <= |e|
    ensures i <= k <= |e|
    ensures forall j :: i <= j < k ==> LocalChar(e[j])
    ensures k == |e| || !LocalChar(e[k])
    decreases |e| - i
  {
    if i < |e| && LocalChar(e[i]) then LocalRunEnd(e, i + 1) else i
  }

  /** `/^[a-z0-9._%+-]+@kiet\.edu$/.test(e)`. As `@` is outside the class,
      the greedy run never has to give characters back, so the pattern
      matches exactly when the run is non-empty and `@kiet.edu` follows it up
      to the end. */
  function KietTest(e: string): bool
  {
    var k := LocalRunEnd(e, 0);
    k > 0 && e[k..] == KietDomain
  }

  /** The pattern accepts exactly the addresses made of a non-empty local
      part over `[a-z0-9._%+-]` followed by `@kiet.edu`. */
  lemma KietTestIff(e: string)
    ensures KietTest(e) <==> exists local :: local != "" && AllLocal(local) && e == local + KietDomain
  {
    var k := LocalRunEnd(e, 0);
    if KietTest(e) {
      assert e == e[..k] + KietDomain;
    }
    if local :| local != "" && AllLocal(local) && e == local + KietDomain {
      assert e[|local|] == '@';
      assert forall j :: 0 <= j < |local| ==> e[j] == local[j];
      assert k == |local|;
      assert e[k..] == KietDomain;
    }
  }

  /** An accepted address holds exactly one `@`, the one before the
      domain. */
  lemma KietSingleAt(e: string)
    ensures KietTest(e) ==> '@' in e
    ensures KietTest(e) ==> forall i :: 0 <= i < |e| && e[i] == '@' ==> i == |e| - |KietDomain|
  {
    if KietTest(e) {
      var k := LocalRunEnd(e, 0);
      assert e[k..] == KietDomain;
      assert e[k] == '@';
      forall i | 0 <= i < |e| && e[i] == '@' ensures i == k {
        assert i >= k ==> e[i] == e[k..][i - k];
      }
    }
  }

  const InvalidEmail := "Please enter a valid email address"
  const NotKiet := "Only KIET email addresses are allowed"
  const SendFailed := "Failed to send OTP. Please try again."
  const EnterOtp := "Please enter the OTP"
  const InvalidOtp := "Invalid OTP. Please try again."

  /** The checks at the top of `handleSendOtp`, on the normalised address:
      first that it is non-empty and holds an `@`, then the KIET pattern. */
  function EmailError(email: string): Option<string>
  {
    NormalizedEmailError(NormalizeEmail(email))
  }

  function NormalizedEmailError(e: string): Option<string>
  {
    if e == "" || '@' !in e then Some(InvalidEmail)
    else if !KietTest(e) then Some(NotKiet)
    else None
  }

  /** Which message `EmailError` gives: the generic one for an empty address
      or one without `@`, the KIET one for any other address the pattern
      refuses, and none exactly for the addresses the pattern accepts. */
  lemma EmailErrorCases(email: string)
    ensures EmailError(email) == Some(InvalidEmail) <==> NormalizeEmail(email) == "" || '@' !in NormalizeEmail(email)
    ensures EmailError(email) == Some(NotKiet) <==> '@' in NormalizeEmail(email) && !KietTest(NormalizeEmail(email))
    ensures EmailError(email).None? <==> KietTest(NormalizeEmail(email))
  {
    KietSingleAt(NormalizeEmail(email));
  }

  /** An address the page accepts is, up to case and surrounding white
      space, a KIET address: the request carries its normalised form. */
  lemma AcceptedEmail(email: string)
    requires EmailError(email).None?
    ensures exists local :: local != "" && AllLocal(local) && NormalizeEmail(email) == local + KietDomain
  {
    EmailErrorCases(email);
    KietTestIff(NormalizeEmail(email));
  }

  /** The requests the page sends. */
  datatype Request = SendOtpRequest(emailId: string) | VerifyOtpRequest(emailId: string, otp: string)

  /** The mounted page. `requests` lists what was posted, oldest first;
      `route` is where it navigated, if anywhere. */
  class LoginPage {
    var email: string
    var otp: string
    var otpSent: bool
    var loading: bool
    var error: string
    var requests: seq<Request>
    var route: Option<string>

    constructor ()
      ensures email == "" && otp == "" && !otpSent && !loading && error == ""
      ensures requests == [] && route == None
    {
      email, otp, otpSent, loading, error := "", "", false, false, "";
      requests, route := [], None;
    }

    method OnEmailInput(text: string)
      modifies this
      ensures email == text && otp == old(otp) && otpSent == old(otpSent) && error == old(error)
      ensures requests == old(requests) && loading == old(loading) && route == old(route)
    {
      email := text;
    }

    method OnOtpInput(text: string)
      modifies this
      ensures otp == text && email == old(email) && otpSent == old(otpSent) && error == old(error)
      ensures requests == old(requests) && loading == old(loading) && route == old(route)
    {
      otp := text;
    }

    /** `handleSendOtp`: a failed check shows its message and posts nothing;
        otherwise the normalised address is posted, and the page moves to
        the OTP step only when the call succeeds. */
    method SendOtp(outcome: Outcome<()>)
      modifies this
      ensures email == old(email) && otp == old(otp) && route == old(route)
      ensures EmailError(old(email)).Some? ==>
        error == EmailError(old(email)).value && requests == old(requests)
        && otpSent == old(otpSent) && loading == old(loading)
      ensures EmailError(old(email)).None? ==>
        requests == old(requests) + [SendOtpRequest(NormalizeEmail(old(email)))] && !loading
      ensures EmailError(old(email)).None? && outcome.Success? ==> otpSent && error == ""
      ensures EmailError(old(email)).None? && outcome.Failure? ==>
        otpSent == old(otpSent) && error == ErrorText(outcome.serverMessage, SendFailed)
      ensures otpSent && !old(otpSent) ==> EmailError(old(email)).None? && outcome.Success?
    {
      ghost var address := email;
      var e := NormalizeEmail(email);
      var check := NormalizedEmailError(e);
      assert check == EmailError(address) && e == NormalizeEmail(address);
      error := "";
      if check.Some? {
        error := check.value;
        return;
      }
      loading := true;
      requests := requests + [SendOtpRequest(e)];
      if outcome.Success? {
        otpSent := true;
      } else {
        error := ErrorText(outcome.serverMessage, SendFailed);
      }
      loading := false;
    }

    /** `handleVerifyOtp`: a blank OTP shows "Please enter the OTP" and posts
        nothing. Otherwise the trimmed address (case kept) and the trimmed
        OTP are posted; success goes to the profile editor for a new user
        and home otherwise, failure shows the server's message or the
        default text. `isNewUser` is the success body. */
    method VerifyOtp(outcome: Outcome<bool>)
      modifies this
      ensures email == old(email) && otp == old(otp) && otpSent == old(otpSent)
      ensures IsBlank(old(otp)) ==>
        error == EnterOtp && requests == old(requests) && route == old(route) && loading == old(loading)
      ensures !IsBlank(old(otp)) ==> requests == old(requests) + [VerifyOtpRequest(Trim(old(email)), Trim(old(otp)))] && !loading
      ensures !IsBlank(old(otp)) && outcome.Success? ==>
        error == "" && route == Some(if outcome.body then "/editProfile" else "/")
      ensures !IsBlank(old(otp)) && outcome.Failure? ==>
        error == ErrorText(outcome.serverMessage, InvalidOtp) && route == old(route)
    {
      TrimEmptyIffBlank(otp);
      var code := Trim(otp);
      var address := Trim(email);
      error := "";
      if code == "" {
        error := EnterOtp;
        return;
      }
      loading := true;
      requests := requests + [VerifyOtpRequest(address, code)];
      if outcome.Success? {
        route := Some(if outcome.body then "/editProfile" else "/");
      } else {
        error := ErrorText(outcome.serverMessage, InvalidOtp);
      }
      loading := false;
    }

    /** `handleResendOtp`: the OTP and the error are cleared, then the send
        step runs again on the same address. */
    method ResendOtp(outcome: Outcome<()>)
      modifies this
      ensures otp == "" && email == old(email) && route == old(route)
      ensures EmailError(old(email)).Some? ==>
        error == EmailError(old(email)).value && requests == old(requests)
        && otpSent == old(otpSent) && loading == old(loading)
      ensures EmailError(old(email)).None? ==>
        requests == old(requests) + [SendOtpRequest(NormalizeEmail(old(email)))] && !loading
      ensures EmailError(old(email)).None? && outcome.Success? ==> otpSent && error == ""
      ensures EmailError(old(email)).None? && outcome.Failure? ==>
        otpSent == old(otpSent) && error == ErrorText(outcome.serverMessage, SendFailed)
    {
      otp := "";
      error := "";
      SendOtp(outcome);
    }

    /** "Change Email": back to the address step with the OTP and the error
        cleared. */
    method ChangeEmail()
      modifies this
      ensures !otpSent && otp == "" && error == ""
      ensures email == old(email) && requests == old(requests) && route == old(route) && loading == old(loading)
    {
      otpSent := false;
      otp := "";
      error := "";
    }
  }
}
