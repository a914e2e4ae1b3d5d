/*
 * Model of the session core of the force.com REST client: how a ForceApi
 * session is built by one of three credential flows, and how its trace
 * (logging) configuration is switched on and off.
 *
 * The network steps a constructor runs (Authenticate, RefreshToken, Validate
 * and the two catalogue listings) are not modelled by their bodies: a Remote
 * value says what each of them answers, and the model proves in which order
 * they run, where construction stops, and what session comes out.
 */
module Force {

  datatype Option<+T> = None | Some(value: T)

  /** A Go `error` value; the model only carries it around unchanged. */
  datatype Error = Error(message: string)

  datatype Result<+T> = Ok(value: T) | Err(error: Error)

  // ---------------------------------------------------------------------
  // Data model
  // ---------------------------------------------------------------------

  /** The `forceOauth` record: the credentials of one flow and the token they yield. */
  datatype OAuth = OAuth(
    clientId: string,
    clientSecret: string,
    userName: string,
    password: string,
    securityToken: string,
    environment: string,
    loginUrl: string,
    accessToken: string,
    instanceUrl: string)

  /** What the token endpoint hands back on success. */
  datatype Token = Token(accessToken: string, instanceUrl: string)

  /** Entity-type summaries and descriptions; only their name is kept. */
  datatype SObjectMetaData = SObjectMetaData(name: string)
  datatype SObjectDescription = SObjectDescription(name: string)

  /** The steps a constructor may run, in the order the source names them. */
  datatype Step = Authenticate | RefreshToken | Validate | GetApiResources | GetApiSObjects

  /** The steps that talk to the OAuth token endpoint. */
  predicate ContactsTokenEndpoint(step: Step) {
    step == Authenticate || step == RefreshToken
  }

  /**
   * What the remote service (and the local validation) answers to each step.
   * Authenticate and Validate are methods of the credential record and see only
   * it; RefreshToken and the two listings are methods of the ForceApi and may
   * depend on the whole session as it stands when the step runs.
   */
  datatype Remote = Remote(
    authenticate: OAuth -> Result<Token>,
    refresh: Session -> Result<Token>,
    validate: OAuth -> Option<Error>,
    resources: Session -> Result<map<string, string>>,
    sobjects: Session -> Result<map<string, SObjectMetaData>>)

  /** The abstract value of a ForceApi apart from its trace configuration. */
  datatype Session = Session(
    apiVersion: string,
    oauth: OAuth,
    apiResources: map<string, string>,
    apiSObjects: map<string, SObjectMetaData>,
    apiSObjectDescriptions: map<string, SObjectDescription>)

  /** Credentials of the password flow; the token fields start as Go's zero value. */
  function PasswordCredentials(clientId: string, clientSecret: string, userName: string,
                               password: string, securityToken: string,
                               environment: string, loginUrl: string): (r: OAuth)
    ensures r.clientId == clientId && r.clientSecret == clientSecret && r.userName == userName
    ensures r.password == password && r.securityToken == securityToken
    ensures r.environment == environment && r.loginUrl == loginUrl
    ensures r.accessToken == "" && r.instanceUrl == ""
  {
    OAuth(clientId, clientSecret, userName, password, securityToken, environment, loginUrl, "", "")
  }

  /**
   * Credentials of the access-token and refresh-token flows: only the client id,
   * the token and the instance URL are set.
   */
  function TokenCredentials(clientId: string, accessToken: string, instanceUrl: string): (r: OAuth)
    ensures r.clientId == clientId && r.accessToken == accessToken && r.instanceUrl == instanceUrl
    ensures SameCredentials(r, OAuth(clientId, "", "", "", "", "", "", "", ""))
  {
    OAuth(clientId, "", "", "", "", "", "", accessToken, instanceUrl)
  }

  /** A session as the constructors allocate it, before any step runs. */
  function NewSession(version: string, oauth: OAuth): Session
  {
    Session(version, oauth, map[], map[], map[])
  }

  /** The credential fields proper: everything but the token and the instance URL. */
  predicate SameCredentials(a: OAuth, b: OAuth) {
    a.clientId == b.clientId && a.clientSecret == b.clientSecret &&
    a.userName == b.userName && a.password == b.password &&
    a.securityToken == b.securityToken && a.environment == b.environment &&
    a.loginUrl == b.loginUrl
  }

  function WithToken(o: OAuth, t: Token): OAuth
  {
    o.(accessToken := t.accessToken, instanceUrl := t.instanceUrl)
  }

  // ---------------------------------------------------------------------
  // Specification of construction
  // ---------------------------------------------------------------------

  /**
   * The effect of one step on a session. A token step records the returned
   * token; a listing replaces its map wholesale; Validate changes nothing.
   */
  function Apply(step: Step, s: Session, remote: Remote): (r: Result<Session>)
    ensures r.Ok? ==> r.value.apiVersion == s.apiVersion
    ensures r.Ok? ==> r.value.apiSObjectDescriptions == s.apiSObjectDescriptions
    ensures r.Ok? ==> SameCredentials(r.value.oauth, s.oauth)
    ensures r.Ok? && !ContactsTokenEndpoint(step) ==> r.value.oauth == s.oauth
    ensures r.Ok? && step != GetApiResources ==> r.value.apiResources == s.apiResources
    ensures r.Ok? && step != GetApiSObjects ==> r.value.apiSObjects == s.apiSObjects
    ensures step == Validate ==> (r.Ok? <==> remote.validate(s.oauth).None?)
    ensures step == GetApiResources && r.Ok? ==>
              remote.resources(s) == Ok(r.value.apiResources)
    ensures step == GetApiSObjects && r.Ok? ==>
              remote.sobjects(s) == Ok(r.value.apiSObjects)
  {
    match step
    case Authenticate =>
      (match remote.authenticate(s.oauth)
       case Ok(t) => Ok(s.(oauth := WithToken(s.oauth, t)))
       case Err(e) => Err(e))
    case RefreshToken =>
      (match remote.refresh(s)
       case Ok(t) => Ok(s.(oauth := WithToken(s.oauth, t)))
       case Err(e) => Err(e))
    case Validate =>
      (match remote.validate(s.oauth)
       case None => Ok(s)
       case Some(e) => Err(e))
    case GetApiResources =>
      (match remote.resources(s)
       case Ok(m) => Ok(s.(apiResources := m))
       case Err(e) => Err(e))
    case GetApiSObjects =>
      (match remote.sobjects(s)
       case Ok(m) => Ok(s.(apiSObjects := m))
       case Err(e) => Err(e))
  }

  /** The steps that ran, and either the finished session or the error that stopped the run. */
  datatype Outcome = Outcome(ran: seq<Step>, result: Result<Session>)

  /** Run the steps of a plan in order, stopping at the first one that fails. */
  function Run(plan: seq<Step>, s: Session, remote: Remote): (o: Outcome)
    ensures |o.ran| <= |plan| && o.ran == plan[..|o.ran|]
    ensures plan != [] ==> o.ran != [] && o.ran[0] == plan[0]
    ensures o.result.Ok? ==> o.ran == plan
    ensures o.result.Err? ==> o.ran != []
    decreases |plan|
  {
    if plan == [] then Outcome([], Ok(s))
    else
      match Apply(plan[0], s, remote)
      case Err(e) => Outcome([plan[0]], Err(e))
      case Ok(next) =>
        var rest := Run(plan[1..], next, remote);
        Outcome([plan[0]] + rest.ran, rest.result)
  }

  /** Continue a run with more steps, but only if it has not failed. */
  function Then(o: Outcome, more: seq<Step>, remote: Remote): Outcome
  {
    match o.result
    case Err(_) => o
    case Ok(s) =>
      var rest := Run(more, s, remote);
      Outcome(o.ran + rest.ran, rest.result)
  }

  const Listing: seq<Step> := [GetApiResources, GetApiSObjects]
  const PasswordPlan: seq<Step> := [Authenticate] + Listing
  const AccessTokenPlan: seq<Step> := [Validate] + Listing
  const RefreshTokenPlan: seq<Step> := [RefreshToken] + AccessTokenPlan

  // ---------------------------------------------------------------------
  // Properties of the specification
  // ---------------------------------------------------------------------

  /** Running p then q is running p, and running q only if p succeeded. */
  lemma {:induction false} RunSplit(p: seq<Step>, q: seq<Step>, s: Session, remote: Remote)
    ensures Run(p + q, s, remote) == Then(Run(p, s, remote), q, remote)
  {
    if p == [] {
      assert p + q == q;
    } else {
      assert (p + q)[0] == p[0];
      assert (p + q)[1..] == p[1..] + q;
      match Apply(p[0], s, remote)
      case Err(e) =>
      case Ok(next) =>
        RunSplit(p[1..], q, next, remote);
        var a := Run(p[1..], next, remote);
        if a.result.Ok? {
          var b := Run(q, a.result.value, remote);
          assert [p[0]] + (a.ran + b.ran) == ([p[0]] + a.ran) + b.ran;
        }
    }
  }

  /**
   * No plan changes the API version, the credential fields or the description
   * cache; a plan without token steps leaves the whole credential record alone.
   */
  lemma {:induction false} RunKeepsCredentials(plan: seq<Step>, s: Session, remote: Remote)
    ensures var o := Run(plan, s, remote);
      o.result.Ok? ==>
        o.result.value.apiVersion == s.apiVersion &&
        o.result.value.apiSObjectDescriptions == s.apiSObjectDescriptions &&
        SameCredentials(o.result.value.oauth, s.oauth) &&
        ((forall x :: x in plan ==> !ContactsTokenEndpoint(x)) ==> o.result.value.oauth == s.oauth)
    decreases |plan|
  {
    if plan != [] {
      match Apply(plan[0], s, remote)
      case Err(_) =>
      case Ok(next) =>
        RunKeepsCredentials(plan[1..], next, remote);
        assert forall x :: x in plan[1..] ==> x in plan;
    }
  }

  /**
   * A failed run failed at the last step it ran: the steps before it all
   * succeeded, and that step, on the session they left, returned the error.
   */
  lemma {:induction false} RunFailure(plan: seq<Step>, s: Session, remote: Remote)
    requires Run(plan, s, remote).result.Err?
    ensures var o := Run(plan, s, remote);
      var k := |o.ran| - 1;
      Run(plan[..k], s, remote).result.Ok? &&
      Apply(plan[k], Run(plan[..k], s, remote).result.value, remote) == Err(o.result.error)
    decreases |plan|
  {
    match Apply(plan[0], s, remote)
    case Err(e) =>
      assert plan[..0] == [];
    case Ok(next) =>
      RunFailure(plan[1..], next, remote);
      var j := |Run(plan[1..], next, remote).ran| - 1;
      assert plan[..j + 1][1..] == plan[1..][..j];
      assert plan[1..][j] == plan[j + 1];
  }

  /** A step that is not in the plan never runs. */
  lemma NeverRunsOutsidePlan(plan: seq<Step>, s: Session, remote: Remote, x: Step)
    requires x !in plan
    ensures x !in Run(plan, s, remote).ran
  {
    var o := Run(plan, s, remote);
    assert plan == o.ran + plan[|o.ran|..];
  }

  /** If the first step fails, nothing else runs and its error is the result. */
  lemma FirstFailureStops(plan: seq<Step>, s: Session, remote: Remote)
    requires plan != [] && Apply(plan[0], s, remote).Err?
    ensures Run(plan, s, remote) == Outcome([plan[0]], Err(Apply(plan[0], s, remote).error))
  {
  }

  /** Create: a failed Authenticate is returned as is and no listing runs. */
  lemma AuthenticateFailureStopsCreate(s: Session, remote: Remote)
    requires remote.authenticate(s.oauth).Err?
    ensures Run(PasswordPlan, s, remote) == Outcome([Authenticate], Err(remote.authenticate(s.oauth).error))
  {
    FirstFailureStops(PasswordPlan, s, remote);
  }

  /** CreateWithAccessToken never contacts the token endpoint. */
  lemma AccessTokenNeverContactsTokenEndpoint(s: Session, remote: Remote)
    ensures forall x :: x in Run(AccessTokenPlan, s, remote).ran ==> !ContactsTokenEndpoint(x)
  {
    NeverRunsOutsidePlan(AccessTokenPlan, s, remote, Authenticate);
    NeverRunsOutsidePlan(AccessTokenPlan, s, remote, RefreshToken);
  }

  /**
   * CreateWithRefreshToken contacts the token endpoint exactly once, first, and
   * if that refresh fails nothing else runs.
   */
  lemma RefreshTokenRunsFirst(s: Session, remote: Remote)
    ensures var o := Run(RefreshTokenPlan, s, remote);
      o.ran[0] == RefreshToken &&
      (forall i :: 0 < i < |o.ran| ==> !ContactsTokenEndpoint(o.ran[i])) &&
      (remote.refresh(s).Err? ==> o == Outcome([RefreshToken], Err(remote.refresh(s).error)))
  {
  }

  /**
   * CreateWithRefreshToken is the refresh exchange followed by exactly the
   * steps of CreateWithAccessToken, on the refreshed credentials.
   */
  lemma RefreshThenAccessToken(s: Session, remote: Remote)
    ensures Run(RefreshTokenPlan, s, remote) == Then(Run([RefreshToken], s, remote), AccessTokenPlan, remote)
  {
    RunSplit([RefreshToken], AccessTokenPlan, s, remote);
  }

  /**
   * For any constructor plan `pre + Listing`: getApiSObjects runs exactly when
   * everything up to and including getApiResources succeeded.
   */
  lemma SObjectsOnlyAfterResources(pre: seq<Step>, s: Session, remote: Remote)
    requires GetApiSObjects !in pre
    ensures GetApiSObjects in Run(pre + Listing, s, remote).ran <==>
            Run(pre + [GetApiResources], s, remote).result.Ok?
  {
    var first := pre + [GetApiResources];
    assert pre + Listing == first + [GetApiSObjects];
    RunSplit(first, [GetApiSObjects], s, remote);
    var a := Run(first, s, remote);
    if a.result.Err? {
      NeverRunsOutsidePlan(first, s, remote, GetApiSObjects);
    } else {
      assert Run(pre + Listing, s, remote).ran == first + Run([GetApiSObjects], a.result.value, remote).ran;
    }
  }

  /**
   * A finished session holds exactly what the two listings returned: the
   * resources listed for the session the earlier steps left, and the SObjects
   * listed for that session once its resource map had been filled.
   */
  lemma ReadySessionHoldsListings(pre: seq<Step>, s: Session, remote: Remote)
    ensures var o := Run(pre + Listing, s, remote);
      o.result.Ok? ==>
        Run(pre, s, remote).result.Ok? &&
        var t := Run(pre, s, remote).result.value;
        o.result.value.oauth == t.oauth &&
        remote.resources(t) == Ok(o.result.value.apiResources) &&
        remote.sobjects(t.(apiResources := o.result.value.apiResources)) == Ok(o.result.value.apiSObjects)
  {
    RunSplit(pre, Listing, s, remote);
  }

  // ---------------------------------------------------------------------
  // Trace line format
  // ---------------------------------------------------------------------

  /** The stored prefix: empty stays empty, otherwise exactly one space is appended. */
  function LogPrefix(prefix: string): (r: string)
    ensures r == "" <==> prefix == ""
    ensures r != "" ==> r[|r| - 1] == ' ' && r[..|r| - 1] == prefix
  {
    if prefix == "" then prefix else prefix + " "
  }

  /** The one line `trace` hands to the logger. */
  function TraceLine(logPrefix: string, name: string, value: string): (line: string)
    ensures |line| == |logPrefix| + |name| + |value| + 2
    ensures line[..|logPrefix|] == logPrefix
    ensures line[|logPrefix| + |name|] == ' ' && line[|line| - 1] == '\n'
  {
    logPrefix + name + " " + value + "\n"
  }

  /** Position of the first space, or |s| when there is none. */
  function IndexOfSpace(s: string): (i: nat)
    ensures i <= |s|
    ensures forall j :: 0 <= j < i ==> s[j] != ' '
    ensures i < |s| ==> s[i] == ' '
  {
    if s == [] || s[0] == ' ' then 0 else 1 + IndexOfSpace(s[1..])
  }

  /** Read a trace line back into its field name and value. */
  function ParseTraceLine(logPrefix: string, line: string): Option<(string, string)>
  {
    if |line| < |logPrefix| + 1 || line[..|logPrefix|] != logPrefix || line[|line| - 1] != '\n' then None
    else
      var body := line[|logPrefix|..|line| - 1];
      var i := IndexOfSpace(body);
      if i == |body| then None else Some((body[..i], body[i + 1..]))
  }

  /** A traced line determines the field name (free of spaces) and the value. */
  lemma TraceLineRoundTrip(logPrefix: string, name: string, value: string)
    requires ' ' !in name
    ensures ParseTraceLine(logPrefix, TraceLine(logPrefix, name, value)) == Some((name, value))
  {
    var line := TraceLine(logPrefix, name, value);
    var body := name + " " + value;
    assert line == logPrefix + body + "\n";
    assert line[..|logPrefix|] == logPrefix;
    assert line[|logPrefix|..|line| - 1] == body;
    var i := IndexOfSpace(body);
    assert forall j :: 0 <= j < |name| ==> body[j] == name[j];
    assert body[|name|] == ' ';
    assert i == |name|;
    assert body[..i] == name;
    assert body[i + 1..] == value;
  }

  // ---------------------------------------------------------------------
  // The logger and the ForceApi object
  // ---------------------------------------------------------------------

  /**
   * The remote end as seen from outside: every step any ForceApi performs is
   * recorded here, in order, whichever object performs it.
   */
  class Service {
    ghost var calls: seq<Step>

    constructor ()
      ensures calls == []
    {
      calls := [];
    }
  }

  /** A ForceApiLogger: every Printf appends one line to what it has logged. */
  class Logger {
    var lines: seq<string>

    constructor ()
      ensures lines == []
    {
      lines := [];
    }

    method Printf(line: string)
      modifies this
      ensures lines == old(lines) + [line]
    {
      lines := lines + [line];
    }
  }

  class ForceApi {
    var apiVersion: string
    var oauth: OAuth
    var apiResources: map<string, string>
    var apiSObjects: map<string, SObjectMetaData>
    var apiSObjectDescriptions: map<string, SObjectDescription>
    var logger: Logger?
    var logPrefix: string

    function State(): Session
      reads this
    {
      Session(apiVersion, oauth, apiResources, apiSObjects, apiSObjectDescriptions)
    }

    /** Allocation as the constructors do it: empty maps and no logger. */
    constructor (version: string, oauth: OAuth)
      ensures State() == NewSession(version, oauth)
      ensures logger == null && logPrefix == ""
    {
      apiVersion := version;
      this.oauth := oauth;
      apiResources := map[];
      apiSObjects := map[];
      apiSObjectDescriptions := map[];
      logger := null;
      logPrefix := "";
    }

    /**
     * Run one step against the remote service. On failure the error comes back
     * unchanged and the session is left as it was.
     */
    method Perform(step: Step, remote: Remote, svc: Service) returns (err: Option<Error>)
      modifies this, svc
      ensures Apply(step, old(State()), remote).Ok? ==>
                err == None && State() == Apply(step, old(State()), remote).value
      ensures Apply(step, old(State()), remote).Err? ==>
                err == Some(Apply(step, old(State()), remote).error) && State() == old(State())
      ensures logger == old(logger) && logPrefix == old(logPrefix)
      ensures svc.calls == old(svc.calls) + [step]
    {
      svc.calls := svc.calls + [step];
      err := None;
      match step
      case Authenticate =>
        var r := remote.authenticate(oauth);
        if r.Ok? { oauth := WithToken(oauth, r.value); } else { err := Some(r.error); }
      case RefreshToken =>
        var r := remote.refresh(State());
        if r.Ok? { oauth := WithToken(oauth, r.value); } else { err := Some(r.error); }
      case Validate =>
        err := remote.validate(oauth);
      case GetApiResources =>
        var r := remote.resources(State());
        if r.Ok? { apiResources := r.value; } else { err := Some(r.error); }
      case GetApiSObjects =>
        var r := remote.sobjects(State());
        if r.Ok? { apiSObjects := r.value; } else { err := Some(r.error); }
    }

    /** Start sending trace lines to `logger`, each headed by the normalised prefix. */
    method TraceOn(prefix: string, logger: Logger?)
      modifies this
      ensures this.logger == logger
      ensures logPrefix == LogPrefix(prefix)
      ensures State() == old(State())
    {
      this.logger := logger;
      if prefix == "" {
        logPrefix := prefix;
      } else {
        logPrefix := prefix + " ";
      }
    }

    /** Stop tracing; the trace fields are back to those of a fresh ForceApi. */
    method TraceOff()
      modifies this
      ensures logger == null && logPrefix == ""
      ensures State() == old(State())
    {
      logger := null;
      logPrefix := "";
    }

    /**
     * Emit one trace line for a field whose value is already formatted; without
     * a logger nothing at all changes.
     */
    method Trace(name: string, value: string)
      modifies logger
      ensures logger != null ==> logger.lines == old(logger.lines) + [TraceLine(logPrefix, name, value)]
    {
      if logger != null {
        logger.Printf(TraceLine(logPrefix, name, value));
      }
    }
  }

  // ---------------------------------------------------------------------
  // The three constructors
  // ---------------------------------------------------------------------

  /**
   * What a constructor hands back for a run: the finished session and no
   * error, or no session and the step's error unchanged.
   */
  ghost predicate Delivers(o: Outcome, api: ForceApi?, err: Option<Error>)
    reads api
  {
    match o.result
    case Ok(s) => api != null && err == None && api.State() == s && api.logger == null && api.logPrefix == ""
    case Err(e) => api == null && err == Some(e)
  }

  /** Password flow: Authenticate, then the two listings. */
  method Create(version: string, clientId: string, clientSecret: string, userName: string,
                password: string, securityToken: string, environment: string, loginUrl: string,
                remote: Remote, svc: Service)
    returns (forceApi: ForceApi?, err: Option<Error>)
    modifies svc
    ensures forceApi != null ==> fresh(forceApi)
    ensures var o := Run(PasswordPlan, NewSession(version, PasswordCredentials(
                           clientId, clientSecret, userName, password, securityToken,
                           environment, loginUrl)), remote);
            svc.calls == old(svc.calls) + o.ran && Delivers(o, forceApi, err)
  {
    var oauth := PasswordCredentials(clientId, clientSecret, userName, password,
                                     securityToken, environment, loginUrl);
    var api := new ForceApi(version, oauth);
    err := api.Perform(Authenticate, remote, svc);
    if err.Some? {
      return null, err;
    }
    err := api.Perform(GetApiResources, remote, svc);
    if err.Some? {
      return null, err;
    }
    err := api.Perform(GetApiSObjects, remote, svc);
    if err.Some? {
      return null, err;
    }
    return api, None;
  }

  /** Access-token flow: Validate the supplied token, then the two listings. */
  method CreateWithAccessToken(version: string, clientId: string, accessToken: string,
                               instanceUrl: string, remote: Remote, svc: Service)
    returns (forceApi: ForceApi?, err: Option<Error>)
    modifies svc
    ensures forceApi != null ==> fresh(forceApi)
    ensures var o := Run(AccessTokenPlan, NewSession(version, TokenCredentials(
                           clientId, accessToken, instanceUrl)), remote);
            svc.calls == old(svc.calls) + o.ran && Delivers(o, forceApi, err)
  {
    var oauth := TokenCredentials(clientId, accessToken, instanceUrl);
    var api := new ForceApi(version, oauth);
    err := api.Perform(Validate, remote, svc);
    if err.Some? {
      return null, err;
    }
    err := api.Perform(GetApiResources, remote, svc);
    if err.Some? {
      return null, err;
    }
    err := api.Perform(GetApiSObjects, remote, svc);
    if err.Some? {
      return null, err;
    }
    return api, None;
  }

  /** Refresh-token flow: RefreshToken, then Validate, then the two listings. */
  method CreateWithRefreshToken(version: string, clientId: string, accessToken: string,
                                instanceUrl: string, remote: Remote, svc: Service)
    returns (forceApi: ForceApi?, err: Option<Error>)
    modifies svc
    ensures forceApi != null ==> fresh(forceApi)
    ensures var o := Run(RefreshTokenPlan, NewSession(version, TokenCredentials(
                           clientId, accessToken, instanceUrl)), remote);
            svc.calls == old(svc.calls) + o.ran && Delivers(o, forceApi, err)
  {
    var oauth := TokenCredentials(clientId, accessToken, instanceUrl);
    ghost var s0 := NewSession(version, oauth);
    var api := new ForceApi(version, oauth);
    err := api.Perform(RefreshToken, remote, svc);
    if err.Some? {
      return null, err;
    }
    ghost var rest := Run(AccessTokenPlan, api.State(), remote);
    assert RefreshTokenPlan[1..] == AccessTokenPlan;
    assert Run(RefreshTokenPlan, s0, remote) == Outcome([RefreshToken] + rest.ran, rest.result);
    err := api.Perform(Validate, remote, svc);
    if err.Some? {
      return null, err;
    }
    ghost var listing := Run(Listing, api.State(), remote);
    assert AccessTokenPlan[1..] == Listing;
    assert rest == Outcome([Validate] + listing.ran, listing.result);
    err := api.Perform(GetApiResources, remote, svc);
    if err.Some? {
      return null, err;
    }
    err := api.Perform(GetApiSObjects, remote, svc);
    if err.Some? {
      return null, err;
    }
    return api, None;
  }

  // ---------------------------------------------------------------------
  // Worked scenarios
  // ---------------------------------------------------------------------

  /**
   * Password flow against a service that issues "tok1" and lists one resource:
   * the session carries that token and exactly that resource path.
   */
  method PasswordScenario() returns (api: ForceApi?)
    ensures api != null
    ensures api.oauth.accessToken == "tok1"
    ensures api.oauth.instanceUrl == "https://example.my.salesforce.com"
    ensures api.apiResources == map["sobjects" := "/services/data/v61.0/sobjects"]
  {
    var remote := Remote(
      o => Ok(Token("tok1", "https://example.my.salesforce.com")),
      s => Err(Error("unused")),
      o => None,
      s => Ok(map["sobjects" := "/services/data/v61.0/sobjects"]),
      s => Ok(map[]));
    var svc := new Service();
    var err;
    api, err := Create("v61.0", "id", "secret", "user", "pw", "st", "staging",
                            "https://login.example.com", remote, svc);
  }

  /** TraceOn("REQ", l) and then tracing method/GET logs exactly "REQ method GET\n". */
  method TraceRequestExample() returns (lines: seq<string>)
    ensures lines == ["REQ method GET\n"]
  {
    var api := new ForceApi("v61.0", TokenCredentials("id", "tok", "https://example.com"));
    var l := new Logger();
    api.TraceOn("REQ", l);
    assert api.logPrefix == "REQ ";
    api.Trace("method", "GET");
    assert TraceLine("REQ ", "method", "GET") == "REQ method GET\n";
    lines := l.lines;
  }

  /** After TraceOn and TraceOff, tracing logs nothing, whatever the prefix. */
  method TraceOffSilences(prefix: string, name: string, value: string) returns (lines: seq<string>)
    ensures lines == []
  {
    var api := new ForceApi("v61.0", TokenCredentials("id", "tok", "https://example.com"));
    var l := new Logger();
    api.TraceOn(prefix, l);
    api.TraceOff();
    api.Trace(name, value);
    lines := l.lines;
  }
}
