/**
 * The Basic-Auth gate (`handleBasicAuth`, identical in both generations).  The configured
 * credential string is split on every ":"; segment 0 is the user name and segment 1 the
 * password.  SHA-256 is modelled as an injective digest and `subtle.ConstantTimeCompare`
 * as equality of digests, so the decision is string equality; timing is not modelled.
 */
module BasicAuth {
  import opened Base
  import opened GoText

  /** What `r.BasicAuth()` extracted from the request, when it found credentials */
  datatype Credentials = Credentials(username: string, password: string)

  /** A SHA-256 digest; distinct inputs give distinct digests */
  datatype Digest = Digest(preimage: string)

  function Sha256(data: string): Digest {
    Digest(data)
  }

  /** `subtle.ConstantTimeCompare`: 1 for equal digests, 0 otherwise */
  function ConstantTimeCompare(a: Digest, b: Digest): int {
    if a == b then 1 else 0
  }

  /**
   * The gate's verdict.  `Panicked`: credentials were supplied but the configured string
   * has no ":", so `userPassword[1]` is out of range and the handler panics (net/http
   * recovers and drops the connection without a response).
   */
  datatype AuthOutcome = Granted | Rejected | Panicked

  /** The configured user name and password: the first two ":"-separated segments */
  function Expected(auth: string): (parts: seq<string>)
    ensures |parts| == Count(auth, ':') + 1
    ensures forall i :: 0 <= i < |parts| ==> ':' !in parts[i]
    ensures Join(parts, ":") == auth
  {
    JoinSplit(auth, ':');
    Split(auth, ':')
  }

  function Decide(auth: string, supplied: Option<Credentials>): (r: AuthOutcome)
    ensures r == Granted <==>
      && supplied.Some?
      && |Expected(auth)| >= 2
      && supplied.value.username == Expected(auth)[0]
      && supplied.value.password == Expected(auth)[1]
    ensures r == Panicked <==> supplied.Some? && ':' !in auth
    ensures supplied.None? ==> r == Rejected
  {
    match supplied
    case None => Rejected
    case Some(c) =>
      var userPassword := Split(auth, ':');
      if |userPassword| < 2 then Panicked
      else
        var usernameMatch := ConstantTimeCompare(Sha256(c.username), Sha256(userPassword[0])) == 1;
        var passwordMatch := ConstantTimeCompare(Sha256(c.password), Sha256(userPassword[1])) == 1;
        if usernameMatch && passwordMatch then Granted else Rejected
  }

  /**
   * With `auth == user + ":" + pass` (neither containing ":"), exactly the pair
   * (user, pass) is let through; any other pair is refused.
   */
  lemma ExactPairGranted(user: string, pass: string, supplied: Credentials)
    requires ':' !in user && ':' !in pass
    ensures Decide(user + ":" + pass, Some(supplied)) == Granted <==>
      supplied.username == user && supplied.password == pass
    ensures Decide(user + ":" + pass, Some(supplied)) != Panicked
  {
    assert Join([user, pass], [':']) == user + ":" + pass;
    SplitJoin([user, pass], ':');
  }

  /** The split is on every ":": for "a:b:c" the password is "b", not "b:c" */
  lemma SplitOnEveryColon()
    ensures Decide("a:b:c", Some(Credentials("a", "b"))) == Granted
    ensures Decide("a:b:c", Some(Credentials("a", "b:c"))) == Rejected
  {
    assert Join(["a", "b", "c"], [':']) == "a:b:c";
    SplitJoin(["a", "b", "c"], ':');
  }
}
