/** `get_grafana_session` (ccres_api/hkd/sessions.py): the session every Grafana call goes
    through. The three credentials come from the settings and are parameters; the session is
    described by the headers the function adds (not the library's defaults), its basic-auth
    pair and the warnings it logs. */
module GrafanaSession {
  import opened Wrappers
  import opened Dict

  datatype Settings = Settings(password: Option<string>, username: Option<string>, token: Option<string>)

  /** `HTTPBasicAuth(username, password)`: either part may be `None`. */
  datatype BasicAuth = BasicAuth(username: Option<string>, password: Option<string>)

  datatype Session = Session(headers: Assoc<string>, auth: Option<BasicAuth>)

  datatype Outcome = Outcome(session: Session, warnings: seq<string>)

  const ProvenanceHeader := "x-disable-provenance"
  const BothMessage := "You need to set both GRAFANA_AUTH_PASSWORD and GRAFANA_AUTH_USERNAME in order to use basic authentifaction."
  const PasswordUnset := "GRAFANA_AUTH_PASSWORD unset."
  const UsernameUnset := "GRAFANA_AUTH_USERNAME unset."

  /** `x is not None or x != ""`, as written: `None` passes the second test. */
  predicate CountedAsWritten(x: Option<string>) {
    x.Some? || x != Some("")
  }

  /** `x is not None and x != ""`: the credential is really there. */
  predicate Counted(x: Option<string>) {
    x.Some? && x != Some("")
  }

  function Count(b: bool): nat {
    if b then 1 else 0
  }

  /** `__nb_set` as written. */
  function NbSetAsWritten(s: Settings): nat {
    Count(CountedAsWritten(s.password)) + Count(CountedAsWritten(s.username))
  }

  /** `__nb_set` with the evident test. */
  function NbSet(s: Settings): nat {
    Count(Counted(s.password)) + Count(Counted(s.username))
  }

  /** Python truthiness of an optional string. */
  predicate Truthy(x: Option<string>) {
    x.Some? && |x.value| > 0
  }

  /** The function after `__nb_set` is computed: one credential set warns, two set attach
      basic auth, and only a session without basic auth gets the bearer token. */
  function SessionFor(s: Settings, nbSet: nat): Outcome {
    var headers := Put([], ProvenanceHeader, "true");
    var warnings :=
      if nbSet == 1 then
        [BothMessage] + (if s.password.None? then [PasswordUnset] else []) + (if s.username.None? then [UsernameUnset] else [])
      else [];
    var auth := if nbSet == 2 then Some(BasicAuth(s.username, s.password)) else None;
    var headers' := if auth.None? && Truthy(s.token) then Put(headers, "Authorization", "Bearer " + s.token.value) else headers;
    Outcome(Session(headers', auth), warnings)
  }

  /** `get_grafana_session()` as written. */
  function GetSessionAsWritten(s: Settings): Outcome {
    SessionFor(s, NbSetAsWritten(s))
  }

  /** `get_grafana_session()` with `and` in the count. */
  function GetSession(s: Settings): Outcome {
    SessionFor(s, NbSet(s))
  }

  /** The headers every session starts with hold only the provenance header. */
  lemma BaseHeaders()
    ensures Get(Put([], ProvenanceHeader, "true"), ProvenanceHeader) == Some("true")
    ensures !HasKey(Put([], ProvenanceHeader, "true"), "Authorization")
  {
    assert "Authorization"[0] != ProvenanceHeader[0];
    assert Get<string>([], "Authorization") == None;
  }

  /** As written, every value counts, so `__nb_set` is always 2: basic auth is attached even
      with both credentials `None`, nothing is ever logged, and the bearer token is never
      sent. The provenance header is always there. */
  lemma AsWrittenAlwaysBasic(s: Settings)
    ensures NbSetAsWritten(s) == 2
    ensures var o := GetSessionAsWritten(s);
      && o.session.auth == Some(BasicAuth(s.username, s.password))
      && o.warnings == []
      && !HasKey(o.session.headers, "Authorization")
      && Get(o.session.headers, ProvenanceHeader) == Some("true")
  {
    BaseHeaders();
  }

  /** With no username or password and a token, the session as written carries a basic-auth
      pair of `None`s and no token; the corrected one sends the token. */
  lemma AsWrittenIgnoresToken()
    ensures GetSessionAsWritten(Settings(None, None, Some("t"))).session.auth == Some(BasicAuth(None, None))
    ensures !HasKey(GetSessionAsWritten(Settings(None, None, Some("t"))).session.headers, "Authorization")
    ensures GetSession(Settings(None, None, Some("t"))).session.auth.None?
    ensures Get(GetSession(Settings(None, None, Some("t"))).session.headers, "Authorization") == Some("Bearer t")
  {
    AsWrittenAlwaysBasic(Settings(None, None, Some("t")));
    assert NbSet(Settings(None, None, Some("t"))) == 0;
    assert "Bearer " + "t" == "Bearer t";
  }

  /** The corrected session: basic auth exactly when both credentials are set, a warning
      (naming each `None` credential) exactly when one is, the bearer token exactly when basic
      auth is off and a token is set, and always the provenance header. */
  lemma GetSessionSpec(s: Settings)
    ensures var o := GetSession(s);
      && (o.session.auth.Some? <==> Counted(s.password) && Counted(s.username))
      && (o.session.auth.Some? ==> o.session.auth.value == BasicAuth(s.username, s.password))
      && (|o.warnings| > 0 <==> Counted(s.password) != Counted(s.username))
      && (HasKey(o.session.headers, "Authorization") <==> !(Counted(s.password) && Counted(s.username)) && Truthy(s.token))
      && (Truthy(s.token) && o.session.auth.None? ==> Get(o.session.headers, "Authorization") == Some("Bearer " + s.token.value))
      && Get(o.session.headers, ProvenanceHeader) == Some("true")
  {
    BaseHeaders();
    assert "Authorization"[0] != ProvenanceHeader[0];
  }

  /** When exactly one credential counts, the log holds the general warning followed by the
      name of the credential that is `None`, if one is (an empty one is not named). */
  lemma WarningsSpec(s: Settings)
    requires Counted(s.password) != Counted(s.username)
    ensures var w := GetSession(s).warnings;
      && w[0] == BothMessage
      && |w| == (if s.password.None? || s.username.None? then 2 else 1)
      && (|w| == 2 ==> w[1] == (if s.password.None? then PasswordUnset else UsernameUnset))
  {
  }
}
