/** The NextAuth callbacks: the sign-in allow-list read from the
    comma-separated `ALLOWED_EMAIL` variable, and the `session` and `jwt`
    callbacks that carry the user id between the token and the session. The
    variable's value is an input. */
module Auth {
  import opened Wrappers
  import opened Strings

  /** `allowedEmailsStr.split(',').map(email => email.trim())` */
  function AllowedEmails(allowedEmailsStr: string): seq<string>
  {
    var pieces := Split(allowedEmailsStr, ',');
    seq(|pieces|, i requires 0 <= i < |pieces| => Trim(pieces[i]))
  }

  /** The list holds exactly the trimmed comma-separated pieces. */
  lemma InAllowedEmails(allowedEmailsStr: string, email: string)
    ensures email in AllowedEmails(allowedEmailsStr) <==>
      exists i :: 0 <= i < |Split(allowedEmailsStr, ',')| && Trim(Split(allowedEmailsStr, ',')[i]) == email
  {
    var pieces := Split(allowedEmailsStr, ',');
    var allowed := AllowedEmails(allowedEmailsStr);
    assert |allowed| == |pieces|;
    if email in allowed {
      var i :| 0 <= i < |allowed| && allowed[i] == email;
      assert Trim(pieces[i]) == email;
      assert 0 <= i < |Split(allowedEmailsStr, ',')| && Trim(Split(allowedEmailsStr, ',')[i]) == email;
    } else {
      forall i | 0 <= i < |pieces|
        ensures Trim(pieces[i]) != email
      {
        assert allowed[i] == Trim(pieces[i]) && allowed[i] in allowed;
      }
    }
  }

  /** The `signIn` callback: refused when the variable is unset or empty;
      otherwise accepted exactly when the user's email is non-empty and equals,
      case included, one of the comma-separated entries once trimmed. */
  function SignIn(allowedEmailsStr: Option<string>, email: Option<string>): (r: bool)
    ensures !Given(allowedEmailsStr) ==> !r
    ensures r ==> Given(email)
    ensures r <==> (Given(allowedEmailsStr) && Given(email) &&
      exists i :: 0 <= i < |Split(allowedEmailsStr.value, ',')| && Trim(Split(allowedEmailsStr.value, ',')[i]) == email.value)
  {
    if !Given(allowedEmailsStr) then false
    else
      var allowedEmails := AllowedEmails(allowedEmailsStr.value);
      if !Given(email) then false
      else
        InAllowedEmails(allowedEmailsStr.value, email.value);
        email.value in allowedEmails
  }

  /** Configuring the list `entries` (written without commas) admits exactly
      the non-empty emails that are one of the entries once trimmed. */
  lemma SignInFromEntries(entries: seq<string>, email: string)
    requires |entries| >= 1
    requires forall i :: 0 <= i < |entries| ==> ',' !in entries[i]
    ensures SignIn(Some(Join(entries, ',')), Some(email)) <==>
      email != "" && exists i :: 0 <= i < |entries| && Trim(entries[i]) == email
  {
    var env := Join(entries, ',');
    SplitJoin(entries, ',');
    assert Split(env, ',') == entries;
    if env == "" {
      assert entries == [""];
      assert |Trim("")| == 0;
      assert !SignIn(Some(env), Some(email));
    } else {
      assert Given(Some(env));
    }
  }

  /** Appending entries to the variable never turns an accepted email into a
      refused one. */
  lemma AddedEntriesKeepAccepted(allowedEmailsStr: string, extra: string, email: Option<string>)
    ensures SignIn(Some(allowedEmailsStr), email) ==> SignIn(Some(allowedEmailsStr + "," + extra), email)
  {
    if SignIn(Some(allowedEmailsStr), email) {
      var before := Split(allowedEmailsStr, ',');
      var i :| 0 <= i < |before| && Trim(before[i]) == email.value;
      SplitAppend(allowedEmailsStr, extra, ',');
      var after := Split(allowedEmailsStr + "," + extra, ',');
      assert after[i] == before[i];
    }
  }

  /** The session the callbacks see; the fields of `session.user` that they
      touch are kept on the session itself. */
  class Session {
    var hasUser: bool
    var userId: Option<string>

    constructor (hasUser: bool, userId: Option<string>)
      ensures this.hasUser == hasUser && this.userId == userId
    {
      this.hasUser := hasUser;
      this.userId := userId;
    }
  }

  /** The JWT: the subject set by the provider and the copied user id. */
  class Token {
    var sub: Option<string>
    var id: Option<string>

    constructor (sub: Option<string>, id: Option<string>)
      ensures this.sub == sub && this.id == id
    {
      this.sub := sub;
      this.id := id;
    }
  }

  /** The signed-in user as the `jwt` callback receives it. */
  datatype User = User(id: string)

  /** The `session` callback: when the session has a user, its id becomes the
      token's subject, or "" without one; nothing else changes, and the same
      session is returned. */
  method SessionCallback(session: Session, token: Token) returns (r: Session)
    modifies session
    ensures r == session
    ensures session.hasUser == old(session.hasUser)
    ensures old(session.hasUser) ==> session.userId == Some(token.sub.GetOr(""))
    ensures !old(session.hasUser) ==> session.userId == old(session.userId)
  {
    if session.hasUser {
      session.userId := Some(if Given(token.sub) then token.sub.value else "");
    }
    return session;
  }

  /** The `jwt` callback: with a user, the token carries the user's id;
      without one, the token is returned unchanged. */
  method JwtCallback(token: Token, user: Option<User>) returns (r: Token)
    modifies token
    ensures r == token
    ensures token.sub == old(token.sub)
    ensures user.Some? ==> token.id == Some(user.value.id)
    ensures user.None? ==> token.id == old(token.id)
  {
    if user.Some? {
      token.id := Some(user.value.id);
    }
    return token;
  }
}
