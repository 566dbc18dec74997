/**
 * The login form of the front end (`LoginForm.tsx`): e-mail/password sign-in
 * and social sign-in through Kakao or Google. Each handler awaits the
 * provider once, so it is modelled as the part before the await and the part
 * after it; the provider's answer is a parameter.
 */
module LoginForm {
  import opened Wrappers
  import opened Text
  import opened Navigation

  datatype Provider = Kakao | Google

  /** The provider name as the handler receives it (`"kakao" | "google"`). */
  function ProviderName(p: Provider): string {
    match p
    case Kakao => "kakao"
    case Google => "google"
  }

  const WrongCredentials := "이메일 또는 비밀번호가 올바르지 않습니다."

  /** Line 64: the message names the provider as written, then says the sign-in failed. */
  function OAuthFailure(p: Provider): (m: string)
    ensures StartsWith(m, ProviderName(p))
    ensures m != WrongCredentials
  {
    var m := ProviderName(p) + " 로그인에 실패했습니다. 다시 시도해 주세요.";
    assert m[0] != WrongCredentials[0];
    m
  }

  lemma OAuthFailuresDiffer()
    ensures OAuthFailure(Kakao) != OAuthFailure(Google)
  {
    assert OAuthFailure(Kakao)[0] == 'k';
  }

  /** The component state that the handlers change (lines 24-26). */
  datatype FormState = FormState(isLoading: bool, oauthLoading: Option<Provider>, error: Option<string>)

  const Initial := FormState(false, None, None)

  /** Lines 104, 127 and 133: the e-mail field, the password field and the submit button. */
  predicate CredentialsDisabled(s: FormState) {
    s.isLoading
  }

  /** Lines 159 and 195: both social buttons, disabled while either social sign-in runs. */
  predicate SocialDisabled(s: FormState) {
    s.oauthLoading.Some?
  }

  /** Lines 31-32. */
  function SubmitStarted(s: FormState): FormState {
    s.(isLoading := true, error := None)
  }

  /** Lines 40-47: a rejected sign-in shows the message and re-enables the form; success leaves it as it is. */
  function SubmitFinished(s: FormState, rejected: bool): FormState {
    if rejected then s.(error := Some(WrongCredentials), isLoading := false) else s
  }

  /** Lines 52-53. */
  function OAuthStarted(s: FormState, p: Provider): FormState {
    s.(oauthLoading := Some(p), error := None)
  }

  /** Lines 63-66. */
  function OAuthFinished(s: FormState, p: Provider, rejected: bool): FormState {
    if rejected then s.(error := Some(OAuthFailure(p)), oauthLoading := None) else s
  }

  /** A rejected password sign-in ends enabled, showing exactly the credentials message. */
  lemma RejectedSubmit(s: FormState)
    ensures var t := SubmitFinished(SubmitStarted(s), true);
      !CredentialsDisabled(t) && t.error == Some(WrongCredentials) && t.oauthLoading == s.oauthLoading
  {
  }

  /** An accepted password sign-in leaves the form disabled, without an error, while the page changes. */
  lemma AcceptedSubmit(s: FormState)
    ensures var t := SubmitFinished(SubmitStarted(s), false);
      CredentialsDisabled(t) && t.error.None? && t.oauthLoading == s.oauthLoading
  {
  }

  /** A rejected social sign-in re-enables both social buttons and names the provider in its message. */
  lemma RejectedOAuth(s: FormState, p: Provider)
    ensures var t := OAuthFinished(OAuthStarted(s, p), p, true);
      !SocialDisabled(t) && t.error.Some? && StartsWith(t.error.value, ProviderName(p)) && t.isLoading == s.isLoading
  {
  }

  /**
   * The two ways to sign in do not block each other: a pending password
   * sign-in leaves the social buttons as they were, and the other way round.
   */
  lemma IndependentLocks(s: FormState, p: Provider)
    ensures SocialDisabled(SubmitStarted(s)) == SocialDisabled(s)
    ensures CredentialsDisabled(OAuthStarted(s, p)) == CredentialsDisabled(s)
  {
  }

  /** Line 59: the address the provider sends the browser back to. */
  function CallbackAddress(origin: string): (r: string)
    ensures StartsWith(r, origin)
  {
    var r := origin + "/auth/callback";
    assert r[..|origin|] == origin;
    r
  }

  class Form {
    var isLoading: bool
    var oauthLoading: Option<Provider>
    var error: Option<string>
    const router: Router

    function State(): FormState
      reads this
    {
      FormState(isLoading, oauthLoading, error)
    }

    constructor (router: Router)
      ensures State() == Initial
      ensures this.router == router
    {
      isLoading := false;
      oauthLoading := None;
      error := None;
      this.router := router;
    }

    /** The part of `handleSubmit` before the provider answers. */
    method BeginSubmit()
      modifies this
      ensures State() == SubmitStarted(old(State()))
    {
      isLoading := true;
      error := None;
    }

    /** The part of `handleSubmit` after the provider answers; `rejected` is whether it returned an error. */
    method FinishSubmit(rejected: bool)
      modifies this, router
      ensures State() == SubmitFinished(old(State()), rejected)
      ensures rejected ==> router.history == old(router.history) && router.refreshes == old(router.refreshes)
      ensures !rejected ==> router.history == old(router.history) + ["/"] && router.refreshes == old(router.refreshes) + 1
    {
      if rejected {
        error := Some(WrongCredentials);
        isLoading := false;
        return;
      }
      router.Push("/");
      router.Refresh();
    }

    /** Lines 29-48, with no other event in between. */
    method HandleSubmit(rejected: bool)
      modifies this, router
      ensures State() == SubmitFinished(SubmitStarted(old(State())), rejected)
      ensures !rejected <==> router.history == old(router.history) + ["/"]
    {
      BeginSubmit();
      FinishSubmit(rejected);
    }

    /** The part of `handleOAuthLogin` before the provider answers; returns the callback address sent to it. */
    method BeginOAuth(p: Provider, origin: string) returns (redirectTo: string)
      modifies this
      ensures State() == OAuthStarted(old(State()), p)
      ensures redirectTo == CallbackAddress(origin)
    {
      oauthLoading := Some(p);
      error := None;
      redirectTo := origin + "/auth/callback";
    }

    /**
     * The part after the provider answers. On success the browser is sent to
     * the provider, so the form is left as it is.
     */
    method FinishOAuth(p: Provider, rejected: bool)
      modifies this
      ensures State() == OAuthFinished(old(State()), p, rejected)
    {
      if rejected {
        error := Some(ProviderName(p) + " 로그인에 실패했습니다. 다시 시도해 주세요.");
        oauthLoading := None;
      }
    }

    /** Lines 51-67, with no other event in between. */
    method HandleOAuthLogin(p: Provider, origin: string, rejected: bool) returns (redirectTo: string)
      modifies this
      ensures State() == OAuthFinished(OAuthStarted(old(State()), p), p, rejected)
      ensures redirectTo == CallbackAddress(origin)
    {
      redirectTo := BeginOAuth(p, origin);
      FinishOAuth(p, rejected);
    }
  }
}
