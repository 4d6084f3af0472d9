/** The Edgegap provider: one session per allocation, polled until ready and deleted when it comes to nothing. */
module Edgegap {
  import opened Wrappers
  import opened Names
  import opened Provider

  // Session ids in allocation ids.

  const SESSION_PREFIX := "edgegap-session:"

  function SessionAllocationId(sessionId: string): string
  {
    SESSION_PREFIX + sessionId
  }

  function SessionIdOf(allocationId: string): Option<string>
  {
    if SESSION_PREFIX <= allocationId && allocationId != SESSION_PREFIX then Some(allocationId[|SESSION_PREFIX|..])
    else None
  }

  /** A release finds the session again, unless its id is empty; and nothing else decodes. */
  lemma SessionIdRoundTrip(sessionId: string, allocationId: string)
    ensures SessionIdOf(SessionAllocationId(sessionId)) == Some(sessionId) <==> sessionId != ""
    ensures SessionIdOf(allocationId).Some? ==> SessionAllocationId(SessionIdOf(allocationId).value) == allocationId
  {
    var id := SessionAllocationId(sessionId);
    assert id[|SESSION_PREFIX|..] == sessionId && id[..|SESSION_PREFIX|] == SESSION_PREFIX;
    assert sessionId != "" ==> |id| > |SESSION_PREFIX|;
  }

  // Path segments.

  type byte = n: nat | n < 256

  predicate Unreserved(b: byte)
  {
    'A' as int <= b <= 'Z' as int || 'a' as int <= b <= 'z' as int || '0' as int <= b <= '9' as int ||
    b as char in {'-', '_', '.', '~'}
  }

  function EncodeByte(b: byte): string
  {
    if Unreserved(b) then [b as char] else ['%', DigitChar(b / 16, 'A'), DigitChar(b % 16, 'A')]
  }

  function PercentEncode(s: seq<byte>): string
  {
    if s == [] then [] else EncodeByte(s[0]) + PercentEncode(s[1..])
  }

  function PercentDecode(s: string): seq<int>
  {
    if s == [] then []
    else if s[0] == '%' && |s| >= 3 then [DigitValue(s[1], 'A') * 16 + DigitValue(s[2], 'A')] + PercentDecode(s[3..])
    else [s[0] as int] + PercentDecode(s[1..])
  }

  /** A session id stays one path segment, and no two ids share an encoding. */
  lemma {:induction false} PercentRoundTrip(s: seq<byte>)
    ensures PercentDecode(PercentEncode(s)) == s
    ensures forall c | c in PercentEncode(s) :: c !in {'/', '?', '#'}
  {
    if s != [] {
      PercentRoundTrip(s[1..]);
      var rest := PercentEncode(s[1..]);
      var e := EncodeByte(s[0]);
      assert PercentEncode(s) == e + rest;
      if Unreserved(s[0]) {
        assert (e + rest)[1..] == rest;
      } else {
        DigitRoundTrip(s[0] / 16, 'A');
        DigitRoundTrip(s[0] % 16, 'A');
        assert (e + rest)[3..] == rest;
      }
    }
  }

  /** Letters, digits, dash, underscore, dot and tilde stand for themselves; every other byte is escaped. */
  lemma PercentKeeps(b: byte)
    ensures |PercentEncode([b])| == if PercentEncode([b]) == [b as char] then 1 else 3
    ensures PercentEncode([b]) == [b as char] <==>
            65 <= b <= 90 || 97 <= b <= 122 || 48 <= b <= 57 || b == 45 || b == 95 || b == 46 || b == 126
  {
    assert [b][1..] == [] && PercentEncode([b]) == EncodeByte(b) + PercentEncode([]);
    assert EncodeByte(b) + [] == EncodeByte(b);
  }

  // Deployments.

  datatype Port = Port(key: string, external: Option<int>, name: Option<string>)

  datatype Location = Location(city: Option<string>, country: Option<string>, region: Option<string>)

  /** `ports` is in key order. */
  datatype Deployment = Deployment(
    requestId: string, publicIp: string, ports: Option<seq<Port>>, location: Option<Location>)

  datatype Session = Session(sessionId: string, status: string, ready: bool, deployment: Option<Deployment>)

  datatype EdgegapError =
    | InvalidRequest | CreateFailed | PollFailed | NotReady | NoDeployment | NoCapacity | NoPorts
    | NoNamedPort | BadAddress | BadPort | NotASession | DeleteFailed

  datatype Config = Config(
    app: string, version: string, portName: Option<string>, readyTimeoutSecs: nat, pollMs: nat, releaseMissingOk: bool,
    parsesAsIp: string -> bool)

  predicate Named(port: Port, name: string)
  {
    port.key == name || port.name == Some(name)
  }

  function FirstNamed(ports: seq<Port>, name: string): Option<Port>
  {
    if ports == [] then None else if Named(ports[0], name) then Some(ports[0]) else FirstNamed(ports[1..], name)
  }

  function SelectPort(deployment: Deployment, portName: Option<string>): (r: Result<Port, EdgegapError>)
    ensures r.Ok? ==> deployment.ports.Some? && r.value in deployment.ports.value
    ensures r.Ok? && portName.Some? ==> Named(r.value, portName.value)
  {
    if deployment.ports.None? || deployment.ports.value == [] then Err(NoPorts)
    else if portName.None? then Ok(deployment.ports.value[0])
    else
      FirstNamedIsFirst(deployment.ports.value, portName.value);
      match FirstNamed(deployment.ports.value, portName.value)
      case Some(port) => Ok(port)
      case None => Err(NoNamedPort)
  }

  lemma {:induction false} FirstNamedIsFirst(ports: seq<Port>, name: string)
    ensures var first := FirstNamed(ports, name);
            if first.Some?
            then exists i | 0 <= i < |ports| ::
                   ports[i] == first.value && Named(ports[i], name) && forall j | 0 <= j < i :: !Named(ports[j], name)
            else forall port | port in ports :: !Named(port, name)
  {
    if ports != [] && !Named(ports[0], name) {
      FirstNamedIsFirst(ports[1..], name);
      if first :| first == FirstNamed(ports[1..], name) && first.Some? {
        var i :| 0 <= i < |ports[1..]| && ports[1..][i] == first.value && Named(ports[1..][i], name) &&
                 forall j | 0 <= j < i :: !Named(ports[1..][j], name);
        assert ports[i + 1] == first.value;
        forall j | 0 <= j < i + 1
          ensures !Named(ports[j], name)
        {
          assert j > 0 ==> ports[j] == ports[1..][j - 1];
        }
      }
    }
  }

  function ExternalPort(port: Port): Result<nat, EdgegapError>
  {
    if port.external.Some? && 0 <= port.external.value < 0x1_0000 then Ok(port.external.value) else Err(BadPort)
  }

  function OrElse(a: Option<string>, b: Option<string>): Option<string>
  {
    if a.Some? then a else b
  }

  function With(m: map<string, string>, key: string, value: Option<string>): map<string, string>
  {
    if value.Some? then m[key := value.value] else m
  }

  function MetadataOf(config: Config, request: AllocationRequest, session: Session, deployment: Deployment, port: Port)
    : map<string, string>
  {
    var m := map[
      "edgegap.app" := if config.app == "" then request.game else config.app,
      "edgegap.version" := if config.version == "" then request.version else config.version,
      "edgegap.session_id" := session.sessionId,
      "edgegap.session_status" := session.status,
      "edgegap.deployment_id" := deployment.requestId];
    var region := match deployment.location
                  case None => None
                  case Some(location) => OrElse(location.region, OrElse(location.city, location.country));
    With(With(m, "edgegap.region", region), "edgegap.port_name", port.name)
  }

  /** The endpoint is the deployment's address with the external side of a port it exposes, of any wanted name. */
  ghost predicate Serves(deployment: Deployment, portName: Option<string>, endpoint: Endpoint)
  {
    && endpoint.publicIp == deployment.publicIp && endpoint.port < 0x1_0000
    && deployment.ports.Some?
    && exists port | port in deployment.ports.value ::
         port.external == Some(endpoint.port) && (portName.Some? ==> Named(port, portName.value))
  }

  /** The session is the allocation; the deployment linked to it is the game server. */
  function AllocationFromSession(config: Config, request: AllocationRequest, session: Session)
    : (r: Result<ServerAllocation, EdgegapError>)
    ensures r.Ok? ==>
              && r.value.allocationId == SessionAllocationId(session.sessionId)
              && session.deployment.Some? && r.value.serverId == session.deployment.value.requestId
              && !request.Avoids(r.value.serverId)
              && Serves(session.deployment.value, config.portName, r.value.endpoint)
              && "edgegap.session_id" in r.value.metadata && r.value.metadata["edgegap.session_id"] == session.sessionId
    ensures session.deployment.Some? && request.Avoids(session.deployment.value.requestId) ==>
              r == Err(EdgegapError.NoCapacity)
  {
    if session.deployment.None? then Err(NoDeployment)
    else
      var deployment := session.deployment.value;
      if request.Avoids(deployment.requestId) then Err(EdgegapError.NoCapacity)
      else match SelectPort(deployment, config.portName)
        case Err(error) => Err(error)
        case Ok(port) =>
          if !config.parsesAsIp(deployment.publicIp) then Err(BadAddress)
          else match ExternalPort(port)
            case Err(error) => Err(error)
            case Ok(external) =>
              Ok(ServerAllocation(
                SessionAllocationId(session.sessionId), deployment.requestId, ProviderKind.Edgegap,
                Endpoint(deployment.publicIp, external), request.game, request.version, None,
                MetadataOf(config, request, session, deployment, port)))
  }

  /** The port that serves: the first exposed one, or the first with the wanted key or name. */
  ghost predicate Serving(deployment: Deployment, portName: Option<string>, port: Port)
  {
    deployment.ports.Some? &&
    var ports := deployment.ports.value;
    exists i | 0 <= i < |ports| ::
      && port == ports[i]
      && (if portName.None? then i == 0
          else Named(port, portName.value) && forall j | 0 <= j < i :: !Named(ports[j], portName.value))
  }

  lemma SelectedServes(deployment: Deployment, portName: Option<string>, port: Port)
    ensures SelectPort(deployment, portName) == Ok(port) <==> Serving(deployment, portName, port)
  {
    if deployment.ports.Some? && portName.Some? {
      FirstNamedIsFirst(deployment.ports.value, portName.value);
    }
  }

  /**
   A ready session comes to an allocation exactly when it is linked to a deployment
   that is not avoided and has an address, whose serving port is exposed as a 16-bit one.
   */
  lemma AllocatesExactly(config: Config, request: AllocationRequest, session: Session)
    ensures AllocationFromSession(config, request, session).Ok? <==>
            && session.deployment.Some?
            && var deployment := session.deployment.value;
               && deployment.requestId !in request.avoidServerIds && config.parsesAsIp(deployment.publicIp)
               && exists port | port in AllPorts(deployment) ::
                    Serving(deployment, config.portName, port) &&
                    port.external.Some? && 0 <= port.external.value <= 65535
  {
    if session.deployment.Some? {
      var deployment := session.deployment.value;
      forall port
        ensures SelectPort(deployment, config.portName) == Ok(port) <==> Serving(deployment, config.portName, port)
      {
        SelectedServes(deployment, config.portName, port);
      }
      if SelectPort(deployment, config.portName).Ok? {
        assert SelectPort(deployment, config.portName).value in AllPorts(deployment);
      }
    }
  }

  function AllPorts(deployment: Deployment): seq<Port>
  {
    if deployment.ports.None? then [] else deployment.ports.value
  }

  /** What an allocation says: the session, the deployment's address, the serving port, and where it all came from. */
  lemma AllocationDescribes(config: Config, request: AllocationRequest, session: Session)
    requires AllocationFromSession(config, request, session).Ok?
    ensures session.deployment.Some? && SelectPort(session.deployment.value, config.portName).Ok?
    ensures var allocation := AllocationFromSession(config, request, session).value;
            var deployment := session.deployment.value;
            var port := SelectPort(deployment, config.portName).value;
            && Serving(deployment, config.portName, port)
            && allocation.allocationId == "edgegap-session:" + session.sessionId
            && allocation.serverId == deployment.requestId && allocation.provider.Edgegap?
            && allocation.endpoint.publicIp == deployment.publicIp && port.external == Some(allocation.endpoint.port)
            && allocation.game == request.game && allocation.version == request.version && allocation.certDigest.None?
            && DescribesSession(allocation.metadata, config, request, session, port)
  {
    SelectedServes(session.deployment.value, config.portName,
                   SelectPort(session.deployment.value, config.portName).value);
  }

  predicate Says(m: map<string, string>, key: string, value: Option<string>)
  {
    if value.None? then key !in m else key in m && m[key] == value.value
  }

  /** Configured names win over the request's; the region is the most specific place known. */
  predicate DescribesSession(m: map<string, string>, config: Config, request: AllocationRequest, session: Session,
                             port: Port)
    requires session.deployment.Some?
  {
    var deployment := session.deployment.value;
    && Says(m, "edgegap.app", Some(if config.app != "" then config.app else request.game))
    && Says(m, "edgegap.version", Some(if config.version != "" then config.version else request.version))
    && Says(m, "edgegap.session_id", Some(session.sessionId))
    && Says(m, "edgegap.session_status", Some(session.status))
    && Says(m, "edgegap.deployment_id", Some(deployment.requestId))
    && Says(m, "edgegap.port_name", port.name)
    && Says(m, "edgegap.region",
            if deployment.location.None? then None
            else if deployment.location.value.region.Some? then deployment.location.value.region
            else if deployment.location.value.city.Some? then deployment.location.value.city
            else deployment.location.value.country)
  }

  // The provider.

  function Ceil(a: nat, b: nat): nat
    requires b > 0
  {
    (a + b - 1) / b
  }

  /** After k intervals short of the timeout, k is still below the rounded-up quotient. */
  lemma PollsLeft(k: nat, interval: nat, timeout: nat)
    requires interval > 0 && k * interval < timeout
    ensures k < Ceil(timeout, interval)
  {
  }

  /** One poll of a session and its answer. */
  datatype Poll = Poll(id: string, answer: Result<Session, EdgegapError>)
  {
    predicate NotReadyYet()
    {
      answer.Ok? && !answer.value.ready
    }
  }

  datatype DeleteReply = Deleted | Gone | Refused

  datatype Deletion = Deletion(id: string, reply: DeleteReply)

  /** The session was polled again and again while it was not ready. */
  ghost predicate PolledOn(before: seq<Poll>, after: seq<Poll>, id: string)
  {
    && before <= after
    && (forall k | |before| <= k < |after| :: after[k].id == id)
    && forall k | |before| <= k < |after| - 1 :: after[k].NotReadyYet()
  }

  /** Calls of the API with their answers, in order, and a clock in milliseconds. */
  class EdgegapProvider {
    const config: Config
    /** Whether the API echoes the session id it is asked for. */
    const echoes: bool
    var now: nat
    ghost var creations: seq<Result<string, EdgegapError>>
    ghost var polled: seq<Poll>
    ghost var deletions: seq<Deletion>

    constructor (config: Config, echoes: bool, now: nat)
      ensures this.config == config && this.echoes == echoes
      ensures creations == [] && polled == [] && deletions == []
    {
      this.config, this.echoes, this.now := config, echoes, now;
      creations, polled, deletions := [], [], [];
    }

    function Timeout(): (ms: nat)
      ensures ms >= 1000 && (config.readyTimeoutSecs > 0 ==> ms == 1000 * config.readyTimeoutSecs)
      ensures config.readyTimeoutSecs == 0 ==> ms == 1000
    {
      1000 * if config.readyTimeoutSecs < 1 then 1 else config.readyTimeoutSecs
    }

    function PollInterval(): (ms: nat)
      ensures ms >= 1 && (config.pollMs > 0 ==> ms == config.pollMs) && (config.pollMs == 0 ==> ms == 1)
    {
      if config.pollMs < 1 then 1 else config.pollMs
    }

    // The API: any answer may come back, after any time.

    method Elapse(atLeast: nat)
      modifies this`now
      ensures now >= old(now) + atLeast
    {
      var more: int :| more >= 0;
      now := now + atLeast + more;
    }

    method CreateSession() returns (r: Result<string, EdgegapError>)
      modifies this`now, this`creations
      ensures creations == old(creations) + [r] && now >= old(now)
      ensures r.Err? ==> r.error == CreateFailed
    {
      Elapse(0);
      if * {
        r := Err(CreateFailed);
      } else {
        var id: string := *;
        r := Ok(id);
      }
      creations := creations + [r];
    }

    method GetSession(id: string) returns (r: Result<Session, EdgegapError>)
      modifies this`now, this`polled
      ensures polled == old(polled) + [Poll(id, r)] && now >= old(now)
      ensures r.Err? ==> r.error == PollFailed
      ensures r.Ok? && echoes ==> r.value.sessionId == id
    {
      Elapse(0);
      if * {
        r := Err(PollFailed);
      } else {
        var answered: string := *;
        var status: string := *;
        var ready: bool := *;
        var deployment: Option<Deployment> := *;
        if echoes {
          answered := id;
        }
        r := Ok(Session(answered, status, ready, deployment));
      }
      polled := polled + [Poll(id, r)];
    }

    /** A session that is already gone counts as deleted when the configuration says so. */
    method DeleteSession(id: string) returns (ok: bool)
      modifies this`now, this`deletions
      ensures now >= old(now) && |deletions| == |old(deletions)| + 1
      ensures var last := deletions[|old(deletions)|];
              && deletions == old(deletions) + [last] && last.id == id
              && (ok <==> last.reply.Deleted? || (last.reply.Gone? && config.releaseMissingOk))
    {
      Elapse(0);
      var reply: DeleteReply := *;
      deletions := deletions + [Deletion(id, reply)];
      ok := reply.Deleted? || (config.releaseMissingOk && reply.Gone?);
    }

    /** Further calls asked to delete just this session, or none did. */
    ghost predicate DeletedSince(before: seq<Deletion>, id: Option<string>)
      reads this
    {
      if id.None? then deletions == before
      else |deletions| == |before| + 1 && before <= deletions && deletions[|before|].id == id.value
    }

    /**
     Polls until the session is ready, a poll fails, or the deadline passes, which
     deletes the session. The last poll decides: its answer is the result, unless the
     session was still not ready.
     */
    method WaitForReady(id: string) returns (r: Result<Session, EdgegapError>)
      modifies this`now, this`polled, this`deletions
      ensures now >= old(now)
      ensures PolledOn(old(polled), polled, id)
      ensures |old(polled)| < |polled| <= |old(polled)| + Ceil(Timeout(), PollInterval()) + 1
      ensures |polled| >= |old(polled)| + 2 ==> (|polled| - |old(polled)| - 2) * PollInterval() < Timeout()
      ensures var last := polled[|polled| - 1];
              if last.NotReadyYet()
              then r == Err(NotReady) && DeletedSince(old(deletions), Some(id)) && now >= old(now) + Timeout()
              else r == last.answer && DeletedSince(old(deletions), None) && (r.Err? ==> r.error == PollFailed)
      ensures r.Ok? && echoes ==> r.value.sessionId == id
    {
      var start := now;
      var deadline := now + Timeout();
      ghost var sleeps: nat := 0;
      while true
        invariant start + sleeps * PollInterval() <= now
        invariant |polled| == |old(polled)| + sleeps && old(polled) <= polled
        invariant forall k | |old(polled)| <= k < |polled| :: polled[k].id == id && polled[k].NotReadyYet()
        invariant sleeps <= Ceil(Timeout(), PollInterval())
        invariant sleeps > 0 ==> (sleeps - 1) * PollInterval() < Timeout()
        invariant deletions == old(deletions)
        decreases deadline - now
      {
        var session := GetSession(id);
        if session.Err? {
          return session;
        }
        if session.value.ready {
          return session;
        }
        if now >= deadline {
          var _ := DeleteSession(id);
          return Err(NotReady);
        }
        PollsLeft(sleeps, PollInterval(), Timeout());
        Elapse(PollInterval());
        assert (sleeps + 1) * PollInterval() == sleeps * PollInterval() + PollInterval();
        sleeps := sleeps + 1;
      }
    }

    /** What became of a request once its session was created, as the last poll decides. */
    ghost predicate Allocated(request: AllocationRequest, id: string, polls: seq<Poll>, before: seq<Deletion>,
                              r: Result<ServerAllocation, EdgegapError>)
      requires polls != []
      reads this
    {
      var last := polls[|polls| - 1];
      if last.NotReadyYet() then r == Err(NotReady) && DeletedSince(before, Some(id))
      else if last.answer.Err? then r == Err(PollFailed) && DeletedSince(before, None)
      else
        && r == AllocationFromSession(config, request, last.answer.value)
        && DeletedSince(before, if r.Ok? then None else Some(id))
    }

    /**
     Every session created is returned as an allocation, or asked to be deleted once,
     or left behind, exactly when the last poll failed. What is returned is released
     through the very session that was created, given that the API echoes ids and they
     are not empty.
     */
    method Allocate(request: AllocationRequest) returns (r: Result<ServerAllocation, EdgegapError>)
      modifies this`now, this`creations, this`polled, this`deletions
      ensures if !request.Valid()
              then r == Err(EdgegapError.InvalidRequest) && creations == old(creations)
              else |creations| == |old(creations)| + 1 && old(creations) <= creations
      ensures if creations != old(creations) && creations[|creations| - 1].Ok?
              then
                var id := creations[|creations| - 1].value;
                && PolledOn(old(polled), polled, id)
                && |old(polled)| < |polled| <= |old(polled)| + Ceil(Timeout(), PollInterval()) + 1
                && Allocated(request, id, polled, old(deletions), r)
                && (r.Ok? && echoes ==> (SessionIdOf(r.value.allocationId) == Some(id) <==> id != ""))
              else
                && polled == old(polled) && deletions == old(deletions)
                && (request.Valid() ==> r == Err(CreateFailed))
    {
      if !request.Valid() {
        return Err(EdgegapError.InvalidRequest);
      }
      var session := CreateSession();
      if session.Err? {
        return Err(session.error);
      }
      var ready := WaitForReady(session.value);
      if ready.Err? {
        return Err(ready.error);
      }
      r := AllocationFromSession(config, request, ready.value);
      SessionIdRoundTrip(session.value, "");
      if r.Err? {
        var _ := DeleteSession(session.value);
      }
    }

    method Release(allocationId: string) returns (r: Result<(), EdgegapError>)
      modifies this`now, this`deletions
      ensures DeletedSince(old(deletions), SessionIdOf(allocationId))
      ensures match SessionIdOf(allocationId)
              case None => r == Err(NotASession)
              case Some(_) =>
                var reply := deletions[|deletions| - 1].reply;
                r == if reply.Deleted? || (reply.Gone? && config.releaseMissingOk) then Ok(()) else Err(DeleteFailed)
    {
      var id := SessionIdOf(allocationId);
      if id.None? {
        return Err(NotASession);
      }
      var ok := DeleteSession(id.value);
      r := if ok then Ok(()) else Err(DeleteFailed);
    }
  }
}
