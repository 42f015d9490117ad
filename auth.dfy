/** auth.js: the session state kept by the auth-state listener, with its
    redirects, and the checks the login and register forms make before they
    call the identity provider. The provider's calls are not modelled:
    their outcome is an input. */
module Auth {
  import opened Wrappers
  import opened Utils
  import opened Records

  /** Whether `sub` occurs in `s` at position `i`. */
  predicate OccursAt(s: string, sub: string, i: int) {
    0 <= i && i + |sub| <= |s| && s[i..i + |sub|] == sub
  }

  /** `s.includes(sub)`. */
  function Contains(s: string, sub: string): bool
    decreases |s|
  {
    if |s| < |sub| then false
    else if s[..|sub|] == sub then true
    else Contains(s[1..], sub)
  }

  /** Contains holds exactly when `sub` occurs somewhere in `s`. */
  lemma {:induction false} ContainsMeansOccurs(s: string, sub: string)
    ensures Contains(s, sub) <==> exists i :: OccursAt(s, sub, i)
    decreases |s|
  {
    if |s| < |sub| {
    } else if s[..|sub|] == sub {
      assert OccursAt(s, sub, 0);
    } else {
      ContainsMeansOccurs(s[1..], sub);
      if exists i :: OccursAt(s[1..], sub, i) {
        var i :| OccursAt(s[1..], sub, i);
        assert s[1..][i..i + |sub|] == s[i + 1..i + 1 + |sub|];
        assert OccursAt(s, sub, i + 1);
      }
      if exists i :: OccursAt(s, sub, i) {
        var i :| OccursAt(s, sub, i);
        assert i != 0;
        assert s[1..][i - 1..i - 1 + |sub|] == s[i..i + |sub|];
        assert OccursAt(s[1..], sub, i - 1);
      }
    }
  }

  const LoginPath: string := "login.html"
  const RegisterPath: string := "register.html"
  const DashboardPath: string := "dashboard.html"
  const HistoryPath: string := "history.html"

  /** Signed-in users are sent away from the login and register pages. */
  predicate SignedOutOnly(path: string) {
    Contains(path, LoginPath) || Contains(path, RegisterPath)
  }

  /** Signed-out users are sent away from the dashboard and history pages. */
  predicate SignedInOnly(path: string) {
    Contains(path, DashboardPath) || Contains(path, HistoryPath)
  }

  /** The page after an auth-state notification (auth.js:52-75): a user on a
      login or register page goes to the dashboard, no user on a dashboard or
      history page goes to login, and every other page stays. */
  function PageAfter(path: string, user: Option<User>): (p: string)
    ensures user.Some? ==> (p == DashboardPath <==> SignedOutOnly(path) || path == DashboardPath)
    ensures user.Some? && !SignedOutOnly(path) ==> p == path
    ensures user.None? ==> (p == LoginPath <==> SignedInOnly(path) || path == LoginPath)
    ensures user.None? && !SignedInOnly(path) ==> p == path
  {
    if user.Some? then (if SignedOutOnly(path) then DashboardPath else path)
    else (if SignedInOnly(path) then LoginPath else path)
  }

  /** Every character of a substring occurs in the string. */
  lemma ContainsKeepsChars(s: string, sub: string)
    ensures Contains(s, sub) ==> forall j :: 0 <= j < |sub| ==> sub[j] in s
  {
    ContainsMeansOccurs(s, sub);
    if Contains(s, sub) {
      var i :| OccursAt(s, sub, i);
      forall j | 0 <= j < |sub|
        ensures sub[j] in s
      {
        assert s[i..i + |sub|][j] == s[i + j];
      }
    }
  }

  /** A character of `sub` that `s` lacks rules `sub` out of `s`. */
  lemma LackingCharRulesOut(s: string, sub: string, j: nat)
    requires j < |sub| && sub[j] !in s
    ensures !Contains(s, sub)
  {
    ContainsKeepsChars(s, sub);
  }

  /** The dashboard is not a page signed-in users are sent away from:
      "dashboard.html" has no 'g', which "login.html" and "register.html"
      both have. */
  lemma DashboardStaysSignedIn()
    ensures !SignedOutOnly(DashboardPath)
  {
    LackingCharRulesOut(DashboardPath, LoginPath, 2);
    LackingCharRulesOut(DashboardPath, RegisterPath, 2);
  }

  /** The login page is not a page signed-out users are sent away from:
      "login.html" has neither the 'd' of "dashboard.html" nor the 'y' of
      "history.html". */
  lemma LoginStaysSignedOut()
    ensures !SignedInOnly(LoginPath)
  {
    LackingCharRulesOut(LoginPath, DashboardPath, 0);
    LackingCharRulesOut(LoginPath, HistoryPath, 6);
  }

  /** A repeated notification redirects at most once: the page it sends the
      user to is not itself redirected by the same notification. */
  lemma RedirectsOnce(path: string, user: Option<User>)
    ensures PageAfter(PageAfter(path, user), user) == PageAfter(path, user)
  {
    if user.Some? {
      DashboardStaysSignedIn();
    } else {
      LoginStaysSignedOut();
    }
  }

  /** After the listener has run, a signed-in user is on no login or register
      page and a signed-out user on no dashboard or history page. */
  lemma ListenerLeavesNoForbiddenPage(path: string, user: Option<User>)
    ensures user.Some? ==> !SignedOutOnly(PageAfter(path, user))
    ensures user.None? ==> !SignedInOnly(PageAfter(path, user))
  {
    if user.Some? {
      DashboardStaysSignedIn();
    } else {
      LoginStaysSignedOut();
    }
  }

  function LogoutFailed(message: string): Notice {
    Notice("Logout error: " + message, Error)
  }

  /** The session of one page: `currentUser`, the current page, and the
      dashboard's e-mail display and message area when the page has them. */
  class Session {
    var currentUser: Option<User>
    var page: string
    const hasEmailDisplay: bool
    var emailShown: string
    const hasMessageArea: bool
    var message: Option<Notice>

    constructor (page: string, hasEmailDisplay: bool, hasMessageArea: bool)
      ensures currentUser == None && this.page == page
      ensures this.hasEmailDisplay == hasEmailDisplay && emailShown == ""
      ensures this.hasMessageArea == hasMessageArea && message == None
    {
      currentUser := None;
      this.page := page;
      this.hasEmailDisplay := hasEmailDisplay;
      emailShown := "";
      this.hasMessageArea := hasMessageArea;
      message := None;
    }

    /** The `onAuthStateChanged` listener (auth.js:50-76). Assigning
        `window.location.href` is modelled as the page becoming the target;
        the target path's directory is not modelled. */
    method OnAuthStateChanged(user: Option<User>)
      modifies this
      ensures currentUser == user
      ensures page == PageAfter(old(page), user)
      ensures emailShown == if user.Some? && hasEmailDisplay then user.value.email else old(emailShown)
      ensures message == old(message)
    {
      if user.Some? {
        currentUser := user;
        if hasEmailDisplay {
          emailShown := user.value.email;
        }
        if Contains(page, LoginPath) || Contains(page, RegisterPath) {
          page := DashboardPath;
        }
      } else {
        currentUser := None;
        if Contains(page, DashboardPath) || Contains(page, HistoryPath) {
          page := LoginPath;
        }
      }
    }

    /** The logout button (auth.js:131-141). A successful sign-out makes the
        provider notify the listener with no user; a failed one shows the
        error in the dashboard's message area, or in a detached element no
        one sees when the page has none. */
    method Logout(signOut: Outcome)
      modifies this
      ensures signOut.Ok? ==>
        currentUser == None && page == PageAfter(old(page), None)
        && emailShown == old(emailShown) && message == old(message)
      ensures signOut.Err? ==>
        currentUser == old(currentUser) && page == old(page) && emailShown == old(emailShown)
        && message == if hasMessageArea then Some(LogoutFailed(signOut.message)) else old(message)
    {
      if signOut.Ok? {
        OnAuthStateChanged(None);
      } else if hasMessageArea {
        message := Some(LogoutFailed(signOut.message));
      }
    }

    /** The dashboard and history navigation buttons (auth.js:144-154). */
    method Navigate(toHistory: bool)
      modifies this
      ensures page == if toHistory then HistoryPath else DashboardPath
      ensures currentUser == old(currentUser) && emailShown == old(emailShown) && message == old(message)
    {
      page := if toHistory then HistoryPath else DashboardPath;
    }
  }

  const BothRequired: Notice := Notice("Please enter both email and password.", Error)
  const TooShort: Notice := Notice("Password should be at least 6 characters.", Error)
  const LoggedIn: Notice := Notice("Logged in successfully!", Success)
  const Registered: Notice := Notice("Registration successful! You are now logged in.", Success)

  /** The login form's local check (auth.js:89-92): both fields non-empty. */
  function LoginRejection(email: string, password: string): (r: Option<Notice>)
    ensures r.None? <==> email != "" && password != ""
    ensures r.Some? ==> r.value == BothRequired
  {
    if email == "" || password == "" then Some(BothRequired) else None
  }

  /** The register form's local checks (auth.js:110-117): both fields
      non-empty, and only then a password of at least 6 characters. */
  function RegisterRejection(email: string, password: string): (r: Option<Notice>)
    ensures r.None? <==> email != "" && password != "" && |password| >= 6
    ensures (email == "" || password == "") ==> r == Some(BothRequired)
    ensures r == Some(TooShort) <==> email != "" && password != "" && |password| < 6
  {
    if email == "" || password == "" then Some(BothRequired)
    else if |password| < 6 then Some(TooShort)
    else None
  }

  /** A password the register form accepts is also one the login form accepts. */
  lemma RegisterStricterThanLogin(email: string, password: string)
    requires RegisterRejection(email, password).None?
    ensures LoginRejection(email, password).None?
  {
  }

  /** The login or register form: its two inputs and its message area. */
  class CredentialForm {
    var email: string
    var password: string
    var message: Option<Notice>

    constructor (email: string, password: string)
      ensures this.email == email && this.password == password && message == None
    {
      this.email := email;
      this.password := password;
      message := None;
    }

    /** The login button (auth.js:85-102). `signIn` is the provider's outcome;
        `called` says whether the provider was reached. */
    method SubmitLogin(signIn: Outcome) returns (called: bool)
      modifies this
      ensures called <==> LoginRejection(old(email), old(password)).None?
      ensures !called ==> email == old(email) && password == old(password)
                          && message == LoginRejection(old(email), old(password))
      ensures called && signIn.Ok? ==> email == "" && password == "" && message == Some(LoggedIn)
      ensures called && signIn.Err? ==> email == old(email) && password == old(password)
                                        && message == Some(Notice(signIn.message, Error))
    {
      if email == "" || password == "" {
        message := Some(BothRequired);
        return false;
      }
      called := true;
      if signIn.Ok? {
        message := Some(LoggedIn);
        email := "";
        password := "";
      } else {
        message := Some(Notice(signIn.message, Error));
      }
    }

    /** The register button (auth.js:106-127). */
    method SubmitRegister(createUser: Outcome) returns (called: bool)
      modifies this
      ensures called <==> RegisterRejection(old(email), old(password)).None?
      ensures !called ==> email == old(email) && password == old(password)
                          && message == RegisterRejection(old(email), old(password))
      ensures called && createUser.Ok? ==> email == "" && password == "" && message == Some(Registered)
      ensures called && createUser.Err? ==> email == old(email) && password == old(password)
                                            && message == Some(Notice(createUser.message, Error))
    {
      if email == "" || password == "" {
        message := Some(BothRequired);
        return false;
      }
      if |password| < 6 {
        message := Some(TooShort);
        return false;
      }
      called := true;
      if createUser.Ok? {
        message := Some(Registered);
        email := "";
        password := "";
      } else {
        message := Some(Notice(createUser.message, Error));
      }
    }
  }
}
