/** The Railway platform as the provisioning code sees it: the calls it may make,
    the answers those calls may give, and a platform object whose answers are
    arbitrary.  Only the clock is constrained: it never runs backwards and a sleep
    advances it by at least the time asked for. */
module Railway {

  import opened Options

  datatype DeploymentStatus =
    | BUILDING | CRASHED | DEPLOYING | FAILED | INITIALIZING | NEEDS_APPROVAL | PENDING
    | QUEUED | REMOVED | REMOVING | SKIPPED | SLEEPING | SUCCESS | WAITING

  predicate TerminalFailure(status: DeploymentStatus) {
    status in {CRASHED, FAILED, NEEDS_APPROVAL, REMOVED, REMOVING, SKIPPED, SLEEPING}
  }

  datatype Deployment = Deployment(id: Option<string>, status: Option<DeploymentStatus>)

  datatype Service = Service(id: string, name: string, latestDeployment: Option<Deployment>) {
    function DeploymentId(): Option<string> {
      if latestDeployment.Some? then latestDeployment.value.id else None
    }

    function Status(): Option<DeploymentStatus> {
      if latestDeployment.Some? then latestDeployment.value.status else None
    }
  }

  datatype Domain = Domain(domain: string, kind: string, port: Option<int>)

  datatype Call =
    | ListVariables(service: string)
    | SetVariable(service: string, name: string, value: string)
    | ListServices
    | Redeploy(service: string)
    | ListDomains(service: string)
    | CheckSetup(domain: string, username: string, password: string)
    | LinkProject                       // or create it
    | Up                                // create a service from the working tree
    | LinkService(service: string)
    | AddVolume                         // to the linked service
    | MakeDomain(service: string, port: nat)
    | SetDomainPort(service: string, domain: string, port: nat)
    | Sleep(ms: nat)
    | ReadClock

  /** `Failed` is a call that throws, before or after the platform acted on it. */
  datatype Reply =
    | Failed
    | Done
    | Variables(vars: map<string, string>)
    | Services(services: seq<Service>)
    | Domains(domains: seq<Domain>)
    | HttpStatus(code: int)
    | Time(t: int)

  datatype Event = Event(call: Call, reply: Reply)

  /** Changes a service: its variables, deployments, volume or domains, or that it exists.
      Linking is not counted; it may create the project, but touches no service. */
  predicate Mutates(call: Call) {
    match call
    case SetVariable(_, _, _) => true
    case Redeploy(_) => true
    case Up => true
    case AddVolume => true
    case MakeDomain(_, _) => true
    case SetDomainPort(_, _, _) => true
    case _ => false
  }

  /** The answers a call can produce. */
  predicate Fits(call: Call, reply: Reply) {
    match call
    case Sleep(_) => reply.Done?
    case ReadClock => reply.Time?
    case ListVariables(_) => reply.Variables? || reply.Failed?
    case ListServices => reply.Services? || reply.Failed?
    case ListDomains(_) => reply.Domains? || reply.Failed?
    case SetDomainPort(_, _, _) => reply.Domains? || reply.Failed?
    case CheckSetup(_, _, _) => reply.HttpStatus? || reply.Failed?
    case _ => reply.Done? || reply.Failed?
  }

  function Lookup(vars: map<string, string>, name: string): Option<string> {
    if name in vars then Some(vars[name]) else None
  }

  /** The first service of that name. */
  function FindService(services: seq<Service>, name: string): Option<Service> {
    if services == [] then None
    else if services[0].name == name then Some(services[0])
    else FindService(services[1..], name)
  }

  /** The deployment id read before a write. */
  function PriorId(services: seq<Service>, name: string): Option<string> {
    var found := FindService(services, name);
    if found.Some? then found.value.DeploymentId() else None
  }

  function FindServiceDomain(domains: seq<Domain>): Option<Domain> {
    if domains == [] then None
    else if domains[0].kind == "service" then Some(domains[0])
    else FindServiceDomain(domains[1..])
  }

  /** A domain of kind `service` if there is one, else the first domain. */
  function PickDomain(domains: seq<Domain>): Option<Domain> {
    var found := FindServiceDomain(domains);
    if found.Some? then found
    else if domains != [] then Some(domains[0])
    else None
  }

  /** What one more event says about the clock: the least time it can now be. */
  function ClockAfter(before: Option<int>, e: Event): Option<int> {
    match e
    case Event(ReadClock, Time(t)) => Some(t)
    case Event(Sleep(ms), _) => if before.Some? then Some(before.value + ms) else None
    case _ => before
  }

  /** A reading does not contradict the readings and sleeps before it. */
  predicate ClockAllows(before: Option<int>, e: Event) {
    match e
    case Event(ReadClock, Time(t)) => before.Some? ==> before.value <= t
    case _ => true
  }

  function Earliest(trace: seq<Event>): Option<int> {
    if trace == [] then None
    else ClockAfter(Earliest(trace[..|trace| - 1]), trace[|trace| - 1])
  }

  predicate ClockLaw(trace: seq<Event>) {
    trace == [] ||
    (ClockLaw(trace[..|trace| - 1]) && ClockAllows(Earliest(trace[..|trace| - 1]), trace[|trace| - 1]))
  }

  /** The live platform.  Between two calls it may change in any way at all, so every
      reply is chosen afresh and nothing but the clock links one to the next. */
  class Platform {
    ghost var trace: seq<Event>
    var now: int

    ghost predicate Valid()
      reads this
    {
      ClockLaw(trace) && (Earliest(trace).Some? ==> Earliest(trace).value <= now)
    }

    constructor (start: int)
      ensures Valid() && trace == []
    {
      trace := [];
      now := start;
    }

    method Invoke(call: Call) returns (reply: Reply)
      requires Valid()
      modifies this
      ensures Valid()
      ensures trace == old(trace) + [Event(call, reply)]
      ensures Fits(call, reply)
      ensures now >= old(now) + if call.Sleep? then call.ms else 0
      ensures call.ReadClock? ==> reply.t == now
    {
      var elapsed: int := *;
      now := now + (if elapsed > 0 then elapsed else 0) + (if call.Sleep? then call.ms else 0);
      var answer: Reply := *;
      if call.ReadClock? {
        reply := Time(now);
      } else if call.Sleep? {
        reply := Done;
      } else if Fits(call, answer) {
        reply := answer;
      } else {
        reply := Failed;
      }
      trace := trace + [Event(call, reply)];
      assert trace[..|trace| - 1] == old(trace);
    }
  }
}
