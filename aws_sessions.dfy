/** The process-wide AWS session cache of `getAWSSession`
    (pkg/operations/operations_aws.go). The SDK calls it makes — building a session
    and, when asked to validate, the STS caller-identity round trip — are the
    abstract oracles of `Sdk`. The cache is single-threaded here: the mutex only
    serialises this same logic. */
module AwsSessions {
  import opened Wrappers
  import opened AwsConfig

  /** An established session, known only by its identity. */
  datatype Session = Session(handle: nat)

  datatype StaticCredentials = StaticCredentials(accessKey: string, secretKey: string, token: string)

  /** `aws.Config`: the region and, optionally, static credentials. */
  datatype SessionConfig = SessionConfig(region: string, credentials: Option<StaticCredentials>)

  /** `session.Options`: profile, shared-config switch, and the config above. */
  datatype SessionOptions = SessionOptions(profile: string, sharedConfigEnabled: bool, config: SessionConfig)

  /** The SDK calls the cache can make. `getCallerIdentity` answers `Pass` when the
      credentials are accepted. */
  datatype Sdk = Sdk(
    newSession: SessionOptions -> Result<Session, string>,
    getCallerIdentity: Session -> Outcome<string>)

  /** One SDK call, as recorded in a trace. */
  datatype SdkCall = NewSessionCall(options: SessionOptions) | GetCallerIdentityCall(session: Session)

  const CreateErrorPrefix := "failed to create AWS session: "

  /** The cache key: the five settings concatenated with no separator. */
  function SessionKey(s: Settings): string {
    s.region + s.accessKey + s.secretKey + s.token + s.profile
  }

  /** The options a new session is built from: static credentials are attached
      exactly when one of access key, secret key or token is non-empty. */
  function OptionsFor(s: Settings): (o: SessionOptions)
    ensures o.profile == s.profile && o.sharedConfigEnabled && o.config.region == s.region
    ensures o.config.credentials.Some? <==> (s.accessKey != "" || s.secretKey != "" || s.token != "")
    ensures o.config.credentials.Some? ==>
      o.config.credentials.value == StaticCredentials(s.accessKey, s.secretKey, s.token)
  {
    var creds :=
      if s.accessKey != "" || s.secretKey != "" || s.token != ""
      then Some(StaticCredentials(s.accessKey, s.secretKey, s.token))
      else None;
    SessionOptions(s.profile, true, SessionConfig(s.region, creds))
  }

  /** What one call does: its result, the cache afterwards, and the SDK calls made. */
  datatype CacheStep = CacheStep(result: Result<Session, string>, sessions: map<string, Session>, calls: seq<SdkCall>)

  /** One `getAWSSession` call against the cache contents `sessions`. A hit returns
      the stored session with no SDK call; a miss builds (and, if `validate`, checks)
      a session, and only a session that passed both is stored. */
  function GetOrCreate(sessions: map<string, Session>, s: Settings, validate: bool, sdk: Sdk): (step: CacheStep)
    // hit: the stored session, no SDK call, the cache unchanged
    ensures SessionKey(s) in sessions ==>
      step == CacheStep(Success(sessions[SessionKey(s)]), sessions, [])
    // miss: the first call always builds a session from OptionsFor(s)
    ensures SessionKey(s) !in sessions ==>
      |step.calls| >= 1 && step.calls[0] == NewSessionCall(OptionsFor(s))
    // miss: success exactly when creation succeeded and, if asked, validation passed
    ensures SessionKey(s) !in sessions ==>
      (step.result.Success? <==>
        (sdk.newSession(OptionsFor(s)).Success? &&
         (validate ==> sdk.getCallerIdentity(sdk.newSession(OptionsFor(s)).value).Pass?)))
    ensures SessionKey(s) !in sessions && step.result.Success? ==>
      step.result.value == sdk.newSession(OptionsFor(s)).value
    // miss: the identity check runs exactly when asked for and creation succeeded
    ensures SessionKey(s) !in sessions ==>
      |step.calls| == if validate && sdk.newSession(OptionsFor(s)).Success? then 2 else 1
    ensures SessionKey(s) !in sessions && validate && sdk.newSession(OptionsFor(s)).Success? ==>
      step.calls[1] == GetCallerIdentityCall(sdk.newSession(OptionsFor(s)).value)
    // miss: a creation error is wrapped, a validation error is returned as it is
    ensures SessionKey(s) !in sessions && sdk.newSession(OptionsFor(s)).Failure? ==>
      step.result == Failure(CreateErrorPrefix + sdk.newSession(OptionsFor(s)).error)
    ensures SessionKey(s) !in sessions && sdk.newSession(OptionsFor(s)).Success? && validate &&
            sdk.getCallerIdentity(sdk.newSession(OptionsFor(s)).value).Fail? ==>
      step.result == Failure(sdk.getCallerIdentity(sdk.newSession(OptionsFor(s)).value).error)
    // failure never touches the cache; success stores exactly that key
    ensures step.result.Failure? ==> step.sessions == sessions
    ensures step.result.Success? ==> step.sessions == sessions[SessionKey(s) := step.result.value]
  {
    var key := SessionKey(s);
    if key in sessions then CacheStep(Success(sessions[key]), sessions, [])
    else
      var opts := OptionsFor(s);
      match sdk.newSession(opts)
      case Failure(e) => CacheStep(Failure(CreateErrorPrefix + e), sessions, [NewSessionCall(opts)])
      case Success(sess) =>
        if !validate then CacheStep(Success(sess), sessions[key := sess], [NewSessionCall(opts)])
        else
          match sdk.getCallerIdentity(sess)
          case Fail(e) => CacheStep(Failure(e), sessions, [NewSessionCall(opts), GetCallerIdentityCall(sess)])
          case Pass => CacheStep(Success(sess), sessions[key := sess], [NewSessionCall(opts), GetCallerIdentityCall(sess)])
  }

  /** The process-wide map `awsDefaultSessions`. */
  class SessionCache {
    var sessions: map<string, Session>

    constructor ()
      ensures sessions == map[]
    {
      sessions := map[];
    }

    /** `getAWSSession`: returns the result and, as a ghost trace, the SDK calls made. */
    method GetAwsSession(awsRegion: string, awsAccessKey: string, awsSecretKey: string,
                         awsToken: string, awsProfile: string, validate: bool, sdk: Sdk)
      returns (r: Result<Session, string>, ghost calls: seq<SdkCall>)
      modifies this
      ensures GetOrCreate(old(sessions), Settings(awsRegion, awsAccessKey, awsSecretKey, awsToken, awsProfile), validate, sdk)
              == CacheStep(r, sessions, calls)
      // entries live for the lifetime of the process: nothing is evicted or replaced
      ensures forall k :: k in old(sessions) ==> k in sessions && sessions[k] == old(sessions)[k]
    {
      var key := awsRegion + awsAccessKey + awsSecretKey + awsToken + awsProfile;
      if key in sessions {
        r, calls := Success(sessions[key]), [];
        return;
      }
      var config := SessionConfig(awsRegion, None);
      if awsAccessKey != "" || awsSecretKey != "" || awsToken != "" {
        config := config.(credentials := Some(StaticCredentials(awsAccessKey, awsSecretKey, awsToken)));
      }
      var opts := SessionOptions(awsProfile, true, config);
      var created := sdk.newSession(opts);
      calls := [NewSessionCall(opts)];
      if created.Failure? {
        r := Failure(CreateErrorPrefix + created.error);
        return;
      }
      var sess := created.value;
      if validate {
        var identity := sdk.getCallerIdentity(sess);
        calls := calls + [GetCallerIdentityCall(sess)];
        if identity.Fail? {
          r := Failure(identity.error);
          return;
        }
      }
      sessions := sessions[key := sess];
      r := Success(sess);
    }
  }

  /** After a successful call, any later call whose settings concatenate to the same
      key is a hit: it returns the same session, makes no SDK call and leaves the
      cache as it is, whatever it asks for validation and whatever the SDK would do. */
  lemma SuccessThenHit(sessions: map<string, Session>, s1: Settings, s2: Settings,
                       v1: bool, v2: bool, sdk1: Sdk, sdk2: Sdk)
    requires GetOrCreate(sessions, s1, v1, sdk1).result.Success?
    requires SessionKey(s1) == SessionKey(s2)
    ensures var first := GetOrCreate(sessions, s1, v1, sdk1);
            GetOrCreate(first.sessions, s2, v2, sdk2) == CacheStep(first.result, first.sessions, [])
  {
  }

  /** A failed call does not poison the cache: the key stays absent, so a retry whose
      SDK now succeeds builds and stores a session. */
  lemma FailureAllowsRetry(sessions: map<string, Session>, s: Settings, validate: bool, bad: Sdk, good: Sdk)
    requires GetOrCreate(sessions, s, validate, bad).result.Failure?
    requires good.newSession(OptionsFor(s)).Success?
    requires validate ==> good.getCallerIdentity(good.newSession(OptionsFor(s)).value).Pass?
    ensures var after := GetOrCreate(sessions, s, validate, bad).sessions;
            SessionKey(s) !in after &&
            GetOrCreate(after, s, validate, good).result == Success(good.newSession(OptionsFor(s)).value)
  {
  }

  /** Because the key has no separators, distinct settings can share a key and hence a
      session: a profile "dev" with no token and a token "dev" with no profile. */
  lemma ConcatenatedKeysCollide(sessions: map<string, Session>, sdk: Sdk)
    ensures var a := Settings("us-east-1", "", "", "dev", "");
            var b := Settings("us-east-1", "", "", "", "dev");
            a != b && SessionKey(a) == SessionKey(b) &&
            OptionsFor(a).config.credentials != OptionsFor(b).config.credentials &&
            (GetOrCreate(sessions, a, true, sdk).result.Success? ==>
               GetOrCreate(GetOrCreate(sessions, a, true, sdk).sessions, b, true, sdk).result
                 == GetOrCreate(sessions, a, true, sdk).result)
  {
    var a := Settings("us-east-1", "", "", "dev", "");
    var b := Settings("us-east-1", "", "", "", "dev");
    if GetOrCreate(sessions, a, true, sdk).result.Success? {
      SuccessThenHit(sessions, a, b, true, true, sdk, sdk);
    }
  }
}
