/** The site's public URLs and the links mailed to administrators and readers. */
module SiteUrl {

  const SiteBaseURL := "https://next.ftacademy.cn"
  const B2BBaseURL := SiteBaseURL + "/corporate"
  const UserBaseURL := SiteBaseURL + "/user"
  const ReaderVerification := UserBaseURL + "/verification"

  const PasswordResetPath := "/password-reset/"
  const VerifyAdminPath := "/verify/"
  const VerifyInvitationPath := "/verify-invitation/"

  predicate StartsWith(s: string, prefix: string) {
    |prefix| <= |s| && s[..|prefix|] == prefix
  }

  predicate EndsWith(s: string, suffix: string) {
    |suffix| <= |s| && s[|s| - |suffix|..] == suffix
  }

  /** The link of the administrator's password-reset letter. */
  function B2BPasswordResetURL(token: string): (url: string)
    ensures EndsWith(url, token)
    ensures StartsWith(url, B2BBaseURL)
  {
    B2BBaseURL + PasswordResetPath + token
  }

  /** The link that verifies an administrator's email. */
  function B2BVerifyAdminURL(token: string): (url: string)
    ensures EndsWith(url, token)
    ensures StartsWith(url, B2BBaseURL)
  {
    B2BBaseURL + VerifyAdminPath + token
  }

  /** The link of an invitation letter, carrying the invitation's token. */
  function B2BVerifyInvitationURL(token: string): (url: string)
    ensures EndsWith(url, token)
    ensures StartsWith(url, B2BBaseURL)
  {
    B2BBaseURL + VerifyInvitationPath + token
  }

  lemma BaseURLsUnderSite()
    ensures B2BBaseURL == SiteBaseURL + "/corporate"
    ensures UserBaseURL == SiteBaseURL + "/user"
    ensures ReaderVerification == SiteBaseURL + "/user/verification"
    ensures |B2BBaseURL| == 35
  {
  }

  /** Appending to a fixed prefix is injective. */
  lemma PrefixCancels(p: string, a: string, b: string)
    ensures p + a == p + b ==> a == b
  {
    if p + a == p + b {
      assert a == (p + a)[|p|..];
      assert b == (p + b)[|p|..];
    }
  }

  lemma PasswordResetURLInjective(a: string, b: string)
    ensures B2BPasswordResetURL(a) == B2BPasswordResetURL(b) ==> a == b
  {
    PrefixCancels(B2BBaseURL + PasswordResetPath, a, b);
  }

  lemma VerifyAdminURLInjective(a: string, b: string)
    ensures B2BVerifyAdminURL(a) == B2BVerifyAdminURL(b) ==> a == b
  {
    PrefixCancels(B2BBaseURL + VerifyAdminPath, a, b);
  }

  lemma VerifyInvitationURLInjective(a: string, b: string)
    ensures B2BVerifyInvitationURL(a) == B2BVerifyInvitationURL(b) ==> a == b
  {
    PrefixCancels(B2BBaseURL + VerifyInvitationPath, a, b);
  }

  /**
   * The three letters never carry the same link: the path segment after
   * B2BBaseURL starts with 'p' for a password reset and 'v' otherwise, and
   * "/verify" is followed by '/' in one and '-' in the other.
   */
  lemma BuildersDisjoint(s: string, t: string)
    ensures B2BPasswordResetURL(s) != B2BVerifyAdminURL(t)
    ensures B2BPasswordResetURL(s) != B2BVerifyInvitationURL(t)
    ensures B2BVerifyAdminURL(s) != B2BVerifyInvitationURL(t)
  {
    var n := |B2BBaseURL|;
    assert B2BPasswordResetURL(s)[n + 1] == 'p';
    assert B2BVerifyAdminURL(t)[n + 1] == 'v';
    assert B2BVerifyInvitationURL(t)[n + 1] == 'v';
    assert B2BVerifyAdminURL(s)[n + 7] == '/';
    assert B2BVerifyInvitationURL(t)[n + 7] == '-';
  }
}
