/**
 * The backend of the SSO proxy: an in-memory store of device-authorization
 * sessions, the HTTP handlers that read and update it, and the flattening of
 * EC2 reservations into instance records.
 *
 * Every call into the cloud provider's SDK is modelled as a request the
 * handler issues (a `ProviderCall`, returned in `calls`) and an answer the
 * handler receives as a parameter. The clock is a parameter `now` in
 * milliseconds, and the session identifier is a parameter as well.
 */
module Server {
  import opened Wrappers

  /** Sessions older than this many milliseconds are removed by the sweep. */
  const SessionMaxAgeMs: int := 3600000
  /** Region used when a request names none, and for region discovery. */
  const DefaultRegion: string := "us-east-1"
  const ClientName: string := "AWS-SSO-Manager"
  const ClientType: string := "public"
  /** The grant type of the OAuth 2.0 Device Authorization Grant (section 3.4 of RFC 8628). */
  const DeviceCodeGrantType: string := "urn:ietf:params:oauth:grant-type:device_code"
  /** Placeholder for an absent instance attribute. */
  const NotApplicable: string := "N/A"
  /** Platform reported for an instance whose platform is unset. */
  const DefaultPlatform: string := "Linux"
  /** The stack statuses the stack listing asks for. */
  const StackStatusFilter: seq<string> := [
    "CREATE_IN_PROGRESS", "CREATE_COMPLETE", "ROLLBACK_IN_PROGRESS", "ROLLBACK_COMPLETE",
    "DELETE_IN_PROGRESS", "UPDATE_IN_PROGRESS", "UPDATE_COMPLETE_CLEANUP_IN_PROGRESS",
    "UPDATE_COMPLETE", "UPDATE_ROLLBACK_IN_PROGRESS",
    "UPDATE_ROLLBACK_COMPLETE_CLEANUP_IN_PROGRESS", "UPDATE_ROLLBACK_COMPLETE",
    "REVIEW_IN_PROGRESS", "IMPORT_IN_PROGRESS", "IMPORT_COMPLETE",
    "IMPORT_ROLLBACK_IN_PROGRESS", "IMPORT_ROLLBACK_COMPLETE"
  ]

  const SessionNotFoundMessage: string := "Session not found"
  const SessionExpiredMessage: string := "Session expired"
  const NotAuthenticatedMessage: string := "Not authenticated"
  const NoCredentialsMessage: string := "Not authenticated or no credentials"
  const StackNotFoundMessage: string := "Stack not found"

  // ---------------------------------------------------------------------
  // Session records
  // ---------------------------------------------------------------------

  /** A delegated credential bundle as returned by GetRoleCredentials. */
  datatype RoleCredentials = RoleCredentials(
    accessKeyId: string, secretAccessKey: string, sessionToken: string, expiration: int)

  /** The part of a credential bundle a delegated EC2 or CloudFormation client is built from. */
  datatype ClientCredentials = ClientCredentials(
    accessKeyId: string, secretAccessKey: string, sessionToken: string)

  function ClientCredentialsOf(c: RoleCredentials): ClientCredentials
  {
    ClientCredentials(c.accessKeyId, c.secretAccessKey, c.sessionToken)
  }

  /**
   * One entry of the session map. `accessToken` and `tokenExpiresAt` are
   * added by a successful poll, `credentials` by a successful credential
   * exchange.
   */
  datatype Session = Session(
    clientId: string,
    clientSecret: string,
    deviceCode: string,
    ssoRegion: string,
    createdAt: int,
    accessToken: Option<string>,
    tokenExpiresAt: Option<int>,
    credentials: Option<RoleCredentials>)

  /**
   * The stages a session moves through: a token is only ever recorded
   * together with its expiry, and credentials only once a token is there.
   */
  predicate WellFormed(s: Session)
  {
    && (s.accessToken.Some? <==> s.tokenExpiresAt.Some?)
    && (s.credentials.Some? ==> s.accessToken.Some?)
  }

  /** The guard of the account, role and credential endpoints. */
  predicate IsAuthenticated(m: map<string, Session>, sessionId: string)
  {
    sessionId in m && Truthy(m[sessionId].accessToken)
  }

  /** The guard of the instance, region and stack endpoints. */
  predicate HasCredentials(m: map<string, Session>, sessionId: string)
  {
    sessionId in m && m[sessionId].credentials.Some?
  }

  /** True when the sweep at time `now` removes session `s`. */
  predicate IsStale(s: Session, now: int)
  {
    now - s.createdAt > SessionMaxAgeMs
  }

  /** The sessions that survive a sweep at time `now`. */
  function Retained(m: map<string, Session>, now: int): (r: map<string, Session>)
    ensures forall id :: id in r <==> id in m && !IsStale(m[id], now)
    ensures forall id :: id in r ==> r[id] == m[id]
  {
    map id | id in m && !IsStale(m[id], now) :: m[id]
  }

  // ---------------------------------------------------------------------
  // Provider requests and answers
  // ---------------------------------------------------------------------

  datatype ClientRegistration = ClientRegistration(clientId: string, clientSecret: string)

  datatype DeviceAuthorization = DeviceAuthorization(
    deviceCode: string, userCode: string, verificationUri: string,
    verificationUriComplete: string, expiresIn: int, interval: int)

  /**
   * The outcome of a CreateToken request, with the error names the poll
   * handler distinguishes turned into constructors: the pending and slow-down
   * answers of section 3.5 of RFC 8628, an expired device code, and any other
   * error with its message.
   */
  datatype TokenOutcome =
    | Authorized(accessToken: string, expiresIn: int)
    | Pending
    | SlowDown
    | Expired
    | Failed(message: string)

  datatype AccountInfo = AccountInfo(accountId: string, accountName: string, emailAddress: string)
  datatype RoleInfo = RoleInfo(roleName: string, accountId: string)
  datatype RegionInfo = RegionInfo(name: string, endpoint: string, optInStatus: string)
  datatype StackSummary = StackSummary(stackName: string, stackId: string, stackStatus: string)
  datatype StackDetail = StackDetail(stackName: string, stackId: string, stackStatus: string, description: string)

  /** A request sent to the provider: the client's region and the command's inputs. */
  datatype ProviderCall =
    | RegisterClient(region: string, clientName: string, clientType: string)
    | StartDeviceAuthorization(region: string, clientId: string, clientSecret: string, startUrl: string)
    | CreateToken(region: string, clientId: string, clientSecret: string, grantType: string, deviceCode: string)
    | ListAccounts(region: string, accessToken: string)
    | ListAccountRoles(region: string, accessToken: string, accountId: string)
    | GetRoleCredentials(region: string, accessToken: string, accountId: string, roleName: string)
    | DescribeInstances(region: string, clientCredentials: ClientCredentials)
    | DescribeRegions(region: string, clientCredentials: ClientCredentials)
    | ListStacks(region: string, clientCredentials: ClientCredentials, statusFilter: seq<string>)
    | DescribeStacks(region: string, clientCredentials: ClientCredentials, stackName: string)

  /** The token request a poll sends for session `s`. */
  function TokenRequest(s: Session): ProviderCall
  {
    CreateToken(s.ssoRegion, s.clientId, s.clientSecret, DeviceCodeGrantType, s.deviceCode)
  }

  // ---------------------------------------------------------------------
  // HTTP responses
  // ---------------------------------------------------------------------

  datatype Body =
    | ErrorBody(error: string)
    | StartBody(sessionId: string, userCode: string, verificationUri: string,
                verificationUriComplete: string, expiresIn: int, interval: int)
    | TokenBody(accessToken: string, expiresIn: int)
    | PendingBody
    | SlowDownBody
    | AccountsBody(accounts: seq<AccountInfo>)
    | RolesBody(roles: seq<RoleInfo>)
    | CredentialsBody(credentials: RoleCredentials)
    | InstancesBody(instances: seq<InstanceRecord>)
    | RegionsBody(regions: seq<RegionInfo>)
    | StacksBody(stacks: seq<StackSummary>)
    | StackBody(stack: StackDetail)

  datatype Response = Response(status: int, body: Body)

  /** The region of a delegated resource client: `region || 'us-east-1'`. */
  function ResourceRegion(region: Option<string>): (r: string)
    ensures r != ""
    ensures Truthy(region) ==> r == region.value
    ensures !Truthy(region) ==> r == DefaultRegion
  {
    OrElse(region, DefaultRegion)
  }

  // ---------------------------------------------------------------------
  // EC2 instance flattening
  // ---------------------------------------------------------------------

  datatype Tag = Tag(key: string, value: string)

  /** An instance as DescribeInstances reports it; optional attributes may be absent. */
  datatype Instance = Instance(
    instanceId: string,
    instanceType: string,
    state: string,
    privateIpAddress: Option<string>,
    publicIpAddress: Option<string>,
    availabilityZone: string,
    launchTime: string,
    platform: Option<string>,
    vpcId: Option<string>,
    subnetId: Option<string>,
    tags: Option<seq<Tag>>)

  datatype Reservation = Reservation(instances: seq<Instance>)

  /** One row of the instance listing the backend returns. */
  datatype InstanceRecord = InstanceRecord(
    instanceId: string,
    name: string,
    instanceType: string,
    state: string,
    privateIp: string,
    publicIp: string,
    availabilityZone: string,
    launchTime: string,
    platform: string,
    vpcId: string,
    subnetId: string)

  /** The position of the first tag whose key is `Name`, or `|tags|` when there is none. */
  function FirstNameTag(tags: seq<Tag>): (i: nat)
    ensures i <= |tags|
    ensures forall j :: 0 <= j < i ==> tags[j].key != "Name"
    ensures i < |tags| ==> tags[i].key == "Name"
  {
    if tags == [] then 0
    else if tags[0].key == "Name" then 0
    else 1 + FirstNameTag(tags[1..])
  }

  /** The value of the first `Name` tag, when there is such a tag. */
  function NameTagValue(tags: Option<seq<Tag>>): Option<string>
  {
    if tags.Some? && FirstNameTag(tags.value) < |tags.value|
    then Some(tags.value[FirstNameTag(tags.value)].value)
    else None
  }

  /**
   * The record emitted for one instance: the display name is the first
   * `Name` tag's value, and absent or empty addresses and network
   * identifiers become `N/A`, an absent platform `Linux`.
   */
  function ToRecord(inst: Instance): (rec: InstanceRecord)
    ensures rec.instanceId == inst.instanceId && rec.instanceType == inst.instanceType
    ensures rec.state == inst.state && rec.availabilityZone == inst.availabilityZone
    ensures rec.launchTime == inst.launchTime
    ensures rec.name != "" && rec.privateIp != "" && rec.publicIp != ""
    ensures rec.platform != "" && rec.vpcId != "" && rec.subnetId != ""
    ensures Truthy(NameTagValue(inst.tags)) ==> rec.name == NameTagValue(inst.tags).value
    ensures !Truthy(NameTagValue(inst.tags)) ==> rec.name == NotApplicable
    ensures Truthy(inst.privateIpAddress) ==> rec.privateIp == inst.privateIpAddress.value
    ensures !Truthy(inst.privateIpAddress) ==> rec.privateIp == NotApplicable
    ensures Truthy(inst.publicIpAddress) ==> rec.publicIp == inst.publicIpAddress.value
    ensures !Truthy(inst.publicIpAddress) ==> rec.publicIp == NotApplicable
    ensures Truthy(inst.platform) ==> rec.platform == inst.platform.value
    ensures !Truthy(inst.platform) ==> rec.platform == DefaultPlatform
    ensures Truthy(inst.vpcId) ==> rec.vpcId == inst.vpcId.value
    ensures !Truthy(inst.vpcId) ==> rec.vpcId == NotApplicable
    ensures Truthy(inst.subnetId) ==> rec.subnetId == inst.subnetId.value
    ensures !Truthy(inst.subnetId) ==> rec.subnetId == NotApplicable
  {
    InstanceRecord(
      inst.instanceId,
      OrElse(NameTagValue(inst.tags), NotApplicable),
      inst.instanceType,
      inst.state,
      OrElse(inst.privateIpAddress, NotApplicable),
      OrElse(inst.publicIpAddress, NotApplicable),
      inst.availabilityZone,
      inst.launchTime,
      OrElse(inst.platform, DefaultPlatform),
      OrElse(inst.vpcId, NotApplicable),
      OrElse(inst.subnetId, NotApplicable))
  }

  /** The records of one reservation's instances, in order. */
  function Records(insts: seq<Instance>): (recs: seq<InstanceRecord>)
  {
    seq(|insts|, j requires 0 <= j < |insts| => ToRecord(insts[j]))
  }

  /** The records of all reservations, reservation by reservation. */
  function Flattened(rs: seq<Reservation>): seq<InstanceRecord>
  {
    if rs == [] then [] else Flattened(rs[..|rs| - 1]) + Records(rs[|rs| - 1].instances)
  }

  /** The number of instances over all reservations. */
  function InstanceCount(rs: seq<Reservation>): nat
  {
    if rs == [] then 0 else InstanceCount(rs[..|rs| - 1]) + |rs[|rs| - 1].instances|
  }

  /** Flattening emits exactly one record per instance. */
  lemma {:induction false} FlattenedLength(rs: seq<Reservation>)
    ensures |Flattened(rs)| == InstanceCount(rs)
  {
    if rs != [] {
      FlattenedLength(rs[..|rs| - 1]);
    }
  }

  /**
   * Instance `j` of reservation `i` becomes the record at position
   * (instances of reservations before `i`) + `j`: reservation order first,
   * then instance order.
   */
  lemma {:induction false} FlattenedAt(rs: seq<Reservation>, i: nat, j: nat)
    requires i < |rs| && j < |rs[i].instances|
    ensures InstanceCount(rs[..i]) + j < |Flattened(rs)|
    ensures Flattened(rs)[InstanceCount(rs[..i]) + j] == ToRecord(rs[i].instances[j])
  {
    var init := rs[..|rs| - 1];
    FlattenedLength(init);
    if i == |rs| - 1 {
      assert rs[..i] == init;
    } else {
      assert init[..i] == rs[..i];
      FlattenedAt(init, i, j);
    }
  }

  /**
   * The nested loops over reservations and their instances that build the
   * instance listing; no reservations at all gives the empty listing.
   */
  method FlattenReservations(reservations: Option<seq<Reservation>>) returns (instances: seq<InstanceRecord>)
    ensures reservations.None? ==> instances == []
    ensures reservations.Some? ==> instances == Flattened(reservations.value)
  {
    instances := [];
    if reservations.Some? {
      var rs := reservations.value;
      for i := 0 to |rs|
        invariant instances == Flattened(rs[..i])
      {
        var insts := rs[i].instances;
        for j := 0 to |insts|
          invariant instances == Flattened(rs[..i]) + Records(insts[..j])
        {
          assert Records(insts[..j + 1]) == Records(insts[..j]) + [ToRecord(insts[j])];
          instances := instances + [ToRecord(insts[j])];
        }
        assert insts[..|insts|] == insts;
        assert rs[..i + 1][..i] == rs[..i];
      }
      assert rs[..|rs|] == rs;
    }
  }

  // ---------------------------------------------------------------------
  // The session store and its handlers
  // ---------------------------------------------------------------------

  /** The process-wide session map and the handlers that use it. */
  class SessionStore {
    var sessions: map<string, Session>

    ghost predicate Valid()
      reads this
    {
      forall id :: id in sessions ==> WellFormed(sessions[id])
    }

    /**
     * What the invariant buys: credentials are only ever held by a session
     * that has already been granted a token, together with its expiry.
     */
    lemma CredentialsFollowToken(sessionId: string)
      requires Valid()
      ensures HasCredentials(sessions, sessionId) ==>
        sessions[sessionId].accessToken.Some? && sessions[sessionId].tokenExpiresAt.Some?
    {
    }

    constructor ()
      ensures Valid() && sessions == map[]
    {
      sessions := map[];
    }

    /**
     * POST /api/sso/start: register a public client, start device authorization
     * for the portal URL, and record a new session under `sessionId`.
     */
    method Start(sessionId: string, ssoStartUrl: string, ssoRegion: string, now: int,
                 registration: Result<ClientRegistration>, authorization: Result<DeviceAuthorization>)
      returns (r: Response, calls: seq<ProviderCall>)
      requires Valid()
      modifies this
      ensures Valid()
      ensures registration.Err? ==>
        && calls == [RegisterClient(ssoRegion, ClientName, ClientType)]
        && r == Response(500, ErrorBody(registration.message))
        && sessions == old(sessions)
      ensures registration.Ok? ==>
        calls == [RegisterClient(ssoRegion, ClientName, ClientType),
                  StartDeviceAuthorization(ssoRegion, registration.value.clientId,
                                           registration.value.clientSecret, ssoStartUrl)]
      ensures registration.Ok? && authorization.Err? ==>
        r == Response(500, ErrorBody(authorization.message)) && sessions == old(sessions)
      ensures registration.Ok? && authorization.Ok? ==>
        var reg, auth := registration.value, authorization.value;
        && sessions == old(sessions)[sessionId := Session(reg.clientId, reg.clientSecret, auth.deviceCode,
                                                          ssoRegion, now, None, None, None)]
        && r == Response(200, StartBody(sessionId, auth.userCode, auth.verificationUri,
                                        auth.verificationUriComplete, auth.expiresIn, auth.interval))
    {
      calls := [RegisterClient(ssoRegion, ClientName, ClientType)];
      if registration.Err? {
        return Response(500, ErrorBody(registration.message)), calls;
      }
      var reg := registration.value;
      calls := calls + [StartDeviceAuthorization(ssoRegion, reg.clientId, reg.clientSecret, ssoStartUrl)];
      if authorization.Err? {
        return Response(500, ErrorBody(authorization.message)), calls;
      }
      var auth := authorization.value;
      sessions := sessions[sessionId := Session(reg.clientId, reg.clientSecret, auth.deviceCode,
                                                ssoRegion, now, None, None, None)];
      r := Response(200, StartBody(sessionId, auth.userCode, auth.verificationUri,
                                   auth.verificationUriComplete, auth.expiresIn, auth.interval));
    }

    /**
     * POST /api/sso/poll: exchange the session's device code for a token.
     * Success records the token and its absolute expiry on that session only;
     * pending and slow-down leave the store as it was; an expired device code
     * deletes the session; any other error leaves the store as it was.
     */
    method Poll(sessionId: string, now: int, outcome: TokenOutcome) returns (r: Response, calls: seq<ProviderCall>)
      requires Valid()
      modifies this
      ensures Valid()
      ensures sessionId !in old(sessions) ==>
        r == Response(404, ErrorBody(SessionNotFoundMessage)) && calls == [] && sessions == old(sessions)
      ensures sessionId in old(sessions) ==>
        var s := old(sessions)[sessionId];
        && calls == [TokenRequest(s)]
        && match outcome
           case Authorized(token, expiresIn) =>
             && r == Response(200, TokenBody(token, expiresIn))
             && sessions == old(sessions)[sessionId := s.(accessToken := Some(token),
                                                          tokenExpiresAt := Some(now + expiresIn * 1000))]
           case Pending => r == Response(202, PendingBody) && sessions == old(sessions)
           case SlowDown => r == Response(429, SlowDownBody) && sessions == old(sessions)
           case Expired =>
             r == Response(401, ErrorBody(SessionExpiredMessage)) && sessions == old(sessions) - {sessionId}
           case Failed(message) => r == Response(500, ErrorBody(message)) && sessions == old(sessions)
    {
      if sessionId !in sessions {
        return Response(404, ErrorBody(SessionNotFoundMessage)), [];
      }
      var s := sessions[sessionId];
      calls := [TokenRequest(s)];
      match outcome
      case Authorized(token, expiresIn) =>
        sessions := sessions[sessionId := s.(accessToken := Some(token),
                                             tokenExpiresAt := Some(now + expiresIn * 1000))];
        r := Response(200, TokenBody(token, expiresIn));
      case Pending =>
        r := Response(202, PendingBody);
      case SlowDown =>
        r := Response(429, SlowDownBody);
      case Expired =>
        sessions := sessions - {sessionId};
        r := Response(401, ErrorBody(SessionExpiredMessage));
      case Failed(message) =>
        r := Response(500, ErrorBody(message));
    }

    /** POST /api/sso/accounts: list the accounts the session's token can reach. */
    method Accounts(sessionId: string, answer: Result<Option<seq<AccountInfo>>>)
      returns (r: Response, calls: seq<ProviderCall>)
      ensures r.status == 401 <==> !IsAuthenticated(sessions, sessionId)
      ensures calls == [] <==> !IsAuthenticated(sessions, sessionId)
      ensures !IsAuthenticated(sessions, sessionId) ==>
        r == Response(401, ErrorBody(NotAuthenticatedMessage)) && calls == []
      ensures IsAuthenticated(sessions, sessionId) ==>
        var s := sessions[sessionId];
        && calls == [ListAccounts(s.ssoRegion, s.accessToken.value)]
        && r == match answer
                case Ok(list) => Response(200, AccountsBody(if list.Some? then list.value else []))
                case Err(message) => Response(500, ErrorBody(message))
    {
      if !IsAuthenticated(sessions, sessionId) {
        return Response(401, ErrorBody(NotAuthenticatedMessage)), [];
      }
      var s := sessions[sessionId];
      calls := [ListAccounts(s.ssoRegion, s.accessToken.value)];
      match answer
      case Ok(list) =>
        r := Response(200, AccountsBody(if list.Some? then list.value else []));
      case Err(message) =>
        r := Response(500, ErrorBody(message));
    }

    /** POST /api/sso/roles: list the roles the session's token can assume in `accountId`. */
    method Roles(sessionId: string, accountId: string, answer: Result<Option<seq<RoleInfo>>>)
      returns (r: Response, calls: seq<ProviderCall>)
      ensures r.status == 401 <==> !IsAuthenticated(sessions, sessionId)
      ensures calls == [] <==> !IsAuthenticated(sessions, sessionId)
      ensures !IsAuthenticated(sessions, sessionId) ==>
        r == Response(401, ErrorBody(NotAuthenticatedMessage)) && calls == []
      ensures IsAuthenticated(sessions, sessionId) ==>
        var s := sessions[sessionId];
        && calls == [ListAccountRoles(s.ssoRegion, s.accessToken.value, accountId)]
        && r == match answer
                case Ok(list) => Response(200, RolesBody(if list.Some? then list.value else []))
                case Err(message) => Response(500, ErrorBody(message))
    {
      if !IsAuthenticated(sessions, sessionId) {
        return Response(401, ErrorBody(NotAuthenticatedMessage)), [];
      }
      var s := sessions[sessionId];
      calls := [ListAccountRoles(s.ssoRegion, s.accessToken.value, accountId)];
      match answer
      case Ok(list) =>
        r := Response(200, RolesBody(if list.Some? then list.value else []));
      case Err(message) =>
        r := Response(500, ErrorBody(message));
    }

    /**
     * POST /api/sso/credentials: exchange the session's token for role
     * credentials, store them on the session (replacing any earlier bundle)
     * and return exactly what was stored.
     */
    method Credentials(sessionId: string, accountId: string, roleName: string, answer: Result<RoleCredentials>)
      returns (r: Response, calls: seq<ProviderCall>)
      requires Valid()
      modifies this
      ensures Valid()
      ensures r.status == 401 <==> !IsAuthenticated(old(sessions), sessionId)
      ensures !IsAuthenticated(old(sessions), sessionId) ==>
        && r == Response(401, ErrorBody(NotAuthenticatedMessage))
        && calls == []
        && sessions == old(sessions)
      ensures IsAuthenticated(old(sessions), sessionId) ==>
        var s := old(sessions)[sessionId];
        calls == [GetRoleCredentials(s.ssoRegion, s.accessToken.value, accountId, roleName)]
      ensures IsAuthenticated(old(sessions), sessionId) && answer.Err? ==>
        r == Response(500, ErrorBody(answer.message)) && sessions == old(sessions)
      ensures IsAuthenticated(old(sessions), sessionId) && answer.Ok? ==>
        && sessions == old(sessions)[sessionId := old(sessions)[sessionId].(credentials := Some(answer.value))]
        && r == Response(200, CredentialsBody(sessions[sessionId].credentials.value))
    {
      if !IsAuthenticated(sessions, sessionId) {
        return Response(401, ErrorBody(NotAuthenticatedMessage)), [];
      }
      var s := sessions[sessionId];
      calls := [GetRoleCredentials(s.ssoRegion, s.accessToken.value, accountId, roleName)];
      match answer
      case Ok(credentials) =>
        sessions := sessions[sessionId := s.(credentials := Some(credentials))];
        r := Response(200, CredentialsBody(credentials));
      case Err(message) =>
        r := Response(500, ErrorBody(message));
    }

    /**
     * POST /api/ec2/instances: describe the instances of the requested region
     * (`us-east-1` when none is given) and flatten them into records.
     */
    method Instances(sessionId: string, region: Option<string>, answer: Result<Option<seq<Reservation>>>)
      returns (r: Response, calls: seq<ProviderCall>)
      ensures r.status == 401 <==> !HasCredentials(sessions, sessionId)
      ensures calls == [] <==> !HasCredentials(sessions, sessionId)
      ensures !HasCredentials(sessions, sessionId) ==>
        r == Response(401, ErrorBody(NoCredentialsMessage)) && calls == []
      ensures HasCredentials(sessions, sessionId) ==>
        && calls == [DescribeInstances(ResourceRegion(region),
                                       ClientCredentialsOf(sessions[sessionId].credentials.value))]
        && r == match answer
                case Ok(reservations) =>
                  Response(200, InstancesBody(if reservations.Some? then Flattened(reservations.value) else []))
                case Err(message) => Response(500, ErrorBody(message))
    {
      if !HasCredentials(sessions, sessionId) {
        return Response(401, ErrorBody(NoCredentialsMessage)), [];
      }
      var creds := sessions[sessionId].credentials.value;
      calls := [DescribeInstances(ResourceRegion(region), ClientCredentialsOf(creds))];
      match answer
      case Ok(reservations) =>
        var instances := FlattenReservations(reservations);
        r := Response(200, InstancesBody(instances));
      case Err(message) =>
        r := Response(500, ErrorBody(message));
    }

    /** POST /api/ec2/regions: list the regions, always asking from `us-east-1`. */
    method Regions(sessionId: string, answer: Result<seq<RegionInfo>>)
      returns (r: Response, calls: seq<ProviderCall>)
      ensures r.status == 401 <==> !HasCredentials(sessions, sessionId)
      ensures calls == [] <==> !HasCredentials(sessions, sessionId)
      ensures !HasCredentials(sessions, sessionId) ==>
        r == Response(401, ErrorBody(NoCredentialsMessage)) && calls == []
      ensures HasCredentials(sessions, sessionId) ==>
        && calls == [DescribeRegions(DefaultRegion, ClientCredentialsOf(sessions[sessionId].credentials.value))]
        && r == match answer
                case Ok(regions) => Response(200, RegionsBody(regions))
                case Err(message) => Response(500, ErrorBody(message))
    {
      if !HasCredentials(sessions, sessionId) {
        return Response(401, ErrorBody(NoCredentialsMessage)), [];
      }
      var creds := sessions[sessionId].credentials.value;
      calls := [DescribeRegions(DefaultRegion, ClientCredentialsOf(creds))];
      match answer
      case Ok(regions) =>
        r := Response(200, RegionsBody(regions));
      case Err(message) =>
        r := Response(500, ErrorBody(message));
    }

    /** POST /api/cloudformation/stacks: list the stacks of the requested region with the fixed status filter. */
    method Stacks(sessionId: string, region: Option<string>, answer: Result<Option<seq<StackSummary>>>)
      returns (r: Response, calls: seq<ProviderCall>)
      ensures r.status == 401 <==> !HasCredentials(sessions, sessionId)
      ensures calls == [] <==> !HasCredentials(sessions, sessionId)
      ensures !HasCredentials(sessions, sessionId) ==>
        r == Response(401, ErrorBody(NoCredentialsMessage)) && calls == []
      ensures HasCredentials(sessions, sessionId) ==>
        && calls == [ListStacks(ResourceRegion(region),
                                ClientCredentialsOf(sessions[sessionId].credentials.value), StackStatusFilter)]
        && r == match answer
                case Ok(stacks) => Response(200, StacksBody(if stacks.Some? then stacks.value else []))
                case Err(message) => Response(500, ErrorBody(message))
    {
      if !HasCredentials(sessions, sessionId) {
        return Response(401, ErrorBody(NoCredentialsMessage)), [];
      }
      var creds := sessions[sessionId].credentials.value;
      calls := [ListStacks(ResourceRegion(region), ClientCredentialsOf(creds), StackStatusFilter)];
      match answer
      case Ok(stacks) =>
        r := Response(200, StacksBody(if stacks.Some? then stacks.value else []));
      case Err(message) =>
        r := Response(500, ErrorBody(message));
    }

    /**
     * POST /api/cloudformation/stack-details: describe one named stack; the first
     * stack of the answer is returned, and an answer without stacks is a 404.
     */
    method StackDetails(sessionId: string, region: Option<string>, stackName: string,
                        answer: Result<Option<seq<StackDetail>>>)
      returns (r: Response, calls: seq<ProviderCall>)
      ensures r.status == 401 <==> !HasCredentials(sessions, sessionId)
      ensures calls == [] <==> !HasCredentials(sessions, sessionId)
      ensures !HasCredentials(sessions, sessionId) ==>
        r == Response(401, ErrorBody(NoCredentialsMessage)) && calls == []
      ensures HasCredentials(sessions, sessionId) ==>
        && calls == [DescribeStacks(ResourceRegion(region),
                                    ClientCredentialsOf(sessions[sessionId].credentials.value), stackName)]
        && r == match answer
                case Ok(stacks) =>
                  if stacks.Some? && |stacks.value| > 0 then Response(200, StackBody(stacks.value[0]))
                  else Response(404, ErrorBody(StackNotFoundMessage))
                case Err(message) => Response(500, ErrorBody(message))
    {
      if !HasCredentials(sessions, sessionId) {
        return Response(401, ErrorBody(NoCredentialsMessage)), [];
      }
      var creds := sessions[sessionId].credentials.value;
      calls := [DescribeStacks(ResourceRegion(region), ClientCredentialsOf(creds), stackName)];
      match answer
      case Ok(stacks) =>
        if stacks.Some? && |stacks.value| > 0 {
          r := Response(200, StackBody(stacks.value[0]));
        } else {
          r := Response(404, ErrorBody(StackNotFoundMessage));
        }
      case Err(message) =>
        r := Response(500, ErrorBody(message));
    }

    /**
     * The periodic cleanup: delete every session created more than
     * `SessionMaxAgeMs` before `now`, one entry at a time.
     */
    method Sweep(now: int)
      requires Valid()
      modifies this
      ensures Valid()
      ensures sessions == Retained(old(sessions), now)
    {
      var pending := sessions.Keys;
      while pending != {}
        invariant pending <= old(sessions).Keys
        invariant sessions.Keys <= old(sessions).Keys
        invariant forall id :: id in sessions ==> sessions[id] == old(sessions)[id]
        invariant forall id :: id in old(sessions) ==>
                    (id in sessions <==> id in pending || !IsStale(old(sessions)[id], now))
        invariant Valid()
        decreases pending
      {
        var id :| id in pending;
        if IsStale(sessions[id], now) {
          sessions := sessions - {id};
        }
        pending := pending - {id};
      }
    }
  }

  /**
   * A poll that meets an expired device code ends the session: the next
   * poll on the same identifier, whatever the provider would say, is a 404.
   */
  method PollAfterExpiry(store: SessionStore, sessionId: string, now: int, later: int, next: TokenOutcome)
    returns (first: Response, second: Response)
    requires store.Valid() && sessionId in store.sessions
    modifies store
    ensures first == Response(401, ErrorBody(SessionExpiredMessage))
    ensures second == Response(404, ErrorBody(SessionNotFoundMessage))
    ensures store.sessions == old(store.sessions) - {sessionId}
  {
    var calls;
    first, calls := store.Poll(sessionId, now, Expired);
    second, calls := store.Poll(sessionId, later, next);
  }

  /**
   * A freshly started session has neither a token nor credentials, so every
   * later endpoint refuses it until a poll and a credential exchange succeed.
   */
  method StartedSessionIsGated(store: SessionStore, sessionId: string, ssoStartUrl: string, ssoRegion: string,
                               now: int, registration: ClientRegistration, authorization: DeviceAuthorization,
                               region: Option<string>, answer: Result<Option<seq<Reservation>>>)
    returns (accounts: Response, instances: Response)
    requires store.Valid()
    modifies store
    ensures sessionId in store.sessions
    ensures accounts == Response(401, ErrorBody(NotAuthenticatedMessage))
    ensures instances == Response(401, ErrorBody(NoCredentialsMessage))
  {
    var started, calls := store.Start(sessionId, ssoStartUrl, ssoRegion, now, Ok(registration), Ok(authorization));
    accounts, calls := store.Accounts(sessionId, Ok(None));
    instances, calls := store.Instances(sessionId, region, answer);
  }
}
