/** The four console actions of nova's ConsolesController (os-getVNCConsole,
    os-getSPICEConsole, os-getRDPConsole, os-getSerialConsole).

    Each action reads an optional requested console type, resolves the instance,
    asks the compute API for a console and translates a closed set of compute
    exceptions into HTTP outcomes. The instance lookup and the compute call are
    not modelled; their outcomes are inputs. */
module ConsoleActions {

  datatype Option<+T> = None | Some(value: T)

  /** Exceptions the compute layer may raise. `message` is what
      `format_message()` returns; `Other` is any exception no action catches
      (its class name and message), which propagates unchanged. */
  datatype Exception =
    | InstanceNotReady(message: string)
    | ConsoleTypeUnavailable(message: string)
    | InstanceNotFound(message: string)
    | NotImplementedError
    | Other(name: string, message: string)

  /** Outcome of resolving the instance (`common.get_instance` for VNC, SPICE
      and RDP, `compute_api.get` for serial). */
  datatype InstanceLookup = Found | LookupFailed(exc: Exception)

  /** Outcome of `compute_api.get_<protocol>_console`: the `url` of the
      connection descriptor it returns, or the exception it raises. */
  datatype BackendCall = Returned(url: string) | Failed(exc: Exception)

  /** The response body `{'console': {'type': consoleType, 'url': url}}`;
      `None` stands for an absent `type` (Python `None`). */
  datatype ConsoleBody = ConsoleBody(consoleType: Option<string>, url: string)

  /** What an action hands back: the console, one of the four webob HTTP
      errors it raises itself, with its explanation, or an exception it lets
      propagate. */
  datatype Response =
    | Console(body: ConsoleBody)
    | HttpConflict(explanation: string)
    | HttpBadRequest(explanation: string)
    | HttpNotImplemented(explanation: string)
    | HttpNotFound(explanation: string)
    | Raised(exc: Exception)

  datatype Protocol = Vnc | Spice | Rdp | Serial

  /** The fixed conflict text of the VNC action. */
  const VncNotReadyMessage: string := "Instance not yet ready"

  /** The fixed explanation each action gives when the driver lacks the console. */
  function NotImplementedMessage(p: Protocol): string
  {
    match p
    case Vnc => "Unable to get vnc console, functionality not implemented"
    case Spice => "Unable to get spice console, functionality not implemented"
    case Rdp => "Unable to get rdp console, functionality not implemented"
    case Serial => "Unable to get serial console, functionality not implemented"
  }

  /** The exception raised inside an action's try block when the lookup has
      already succeeded: the backend's failure, if any. */
  predicate BackendRaises(lookup: InstanceLookup, backend: BackendCall)
  {
    lookup.Found? && backend.Failed?
  }

  /** os-getVNCConsole. The instance is resolved before the try block, so a
      lookup failure is never translated and the backend is never asked. */
  function GetVncConsole(consoleType: Option<string>, lookup: InstanceLookup, backend: BackendCall): (r: Response)
    // a console is handed out exactly when the instance resolves and the backend
    // returns one; the requested type is echoed verbatim, the url unchanged
    ensures r.Console? <==> lookup.Found? && backend.Returned?
    ensures r.Console? ==> r.body.consoleType == consoleType && r.body.url == backend.url
    ensures lookup.LookupFailed? ==> r == Raised(lookup.exc)
    // VNC answers "not ready" with its own text, whatever the exception says
    ensures r.HttpConflict? <==> BackendRaises(lookup, backend) && backend.exc.InstanceNotReady?
    ensures r.HttpConflict? ==> r.explanation == VncNotReadyMessage
    // the action itself raises no HTTPNotFound; what a propagated lookup failure
    // finally becomes is decided outside the action
    ensures !r.HttpNotFound?
  {
    if lookup.LookupFailed? then Raised(lookup.exc)
    else
      match backend
      case Returned(url) => Console(ConsoleBody(consoleType, url))
      case Failed(InstanceNotReady(_)) => HttpConflict(VncNotReadyMessage)
      case Failed(ConsoleTypeUnavailable(m)) => HttpBadRequest(m)
      case Failed(NotImplementedError) => HttpNotImplemented(NotImplementedMessage(Vnc))
      case Failed(e) => Raised(e)
  }

  /** os-getSPICEConsole: as VNC, except that "not ready" carries the
      exception's own message. */
  function GetSpiceConsole(consoleType: Option<string>, lookup: InstanceLookup, backend: BackendCall): (r: Response)
    ensures r.Console? <==> lookup.Found? && backend.Returned?
    ensures r.Console? ==> r.body.consoleType == consoleType && r.body.url == backend.url
    ensures lookup.LookupFailed? ==> r == Raised(lookup.exc)
    ensures BackendRaises(lookup, backend) && backend.exc.InstanceNotReady? ==>
              r == HttpConflict(backend.exc.message)
    // the action itself raises no HTTPNotFound; what a propagated lookup failure
    // finally becomes is decided outside the action
    ensures !r.HttpNotFound?
  {
    if lookup.LookupFailed? then Raised(lookup.exc)
    else
      match backend
      case Returned(url) => Console(ConsoleBody(consoleType, url))
      case Failed(ConsoleTypeUnavailable(m)) => HttpBadRequest(m)
      case Failed(InstanceNotReady(m)) => HttpConflict(m)
      case Failed(NotImplementedError) => HttpNotImplemented(NotImplementedMessage(Spice))
      case Failed(e) => Raised(e)
  }

  /** os-getRDPConsole: the same translation as SPICE with its own
      not-implemented text. */
  function GetRdpConsole(consoleType: Option<string>, lookup: InstanceLookup, backend: BackendCall): (r: Response)
    ensures r.Console? <==> lookup.Found? && backend.Returned?
    ensures r.Console? ==> r.body.consoleType == consoleType && r.body.url == backend.url
    ensures lookup.LookupFailed? ==> r == Raised(lookup.exc)
    ensures BackendRaises(lookup, backend) && backend.exc.InstanceNotReady? ==>
              r == HttpConflict(backend.exc.message)
    // the action itself raises no HTTPNotFound; what a propagated lookup failure
    // finally becomes is decided outside the action
    ensures !r.HttpNotFound?
  {
    if lookup.LookupFailed? then Raised(lookup.exc)
    else
      match backend
      case Returned(url) => Console(ConsoleBody(consoleType, url))
      case Failed(ConsoleTypeUnavailable(m)) => HttpBadRequest(m)
      case Failed(InstanceNotReady(m)) => HttpConflict(m)
      case Failed(NotImplementedError) => HttpNotImplemented(NotImplementedMessage(Rdp))
      case Failed(e) => Raised(e)
  }

  /** os-getSerialConsole. The instance is resolved inside the try block, so a
      lookup failure meets the same except clauses as a backend failure; there
      is no clause for ConsoleTypeUnavailable, and one for InstanceNotFound. */
  function GetSerialConsole(consoleType: Option<string>, lookup: InstanceLookup, backend: BackendCall): (r: Response)
    ensures r.Console? <==> lookup.Found? && backend.Returned?
    ensures r.Console? ==> r.body.consoleType == consoleType && r.body.url == backend.url
    // a lookup that fails with InstanceNotFound becomes 404 with the exception's message
    ensures lookup.LookupFailed? && lookup.exc.InstanceNotFound? ==> r == HttpNotFound(lookup.exc.message)
    // serial itself raises no HTTPBadRequest: an unavailable console type propagates as raised
    ensures !r.HttpBadRequest?
    ensures BackendRaises(lookup, backend) && backend.exc.ConsoleTypeUnavailable? ==> r == Raised(backend.exc)
  {
    var outcome := if lookup.LookupFailed? then Failed(lookup.exc) else backend;
    match outcome
    case Returned(url) => Console(ConsoleBody(consoleType, url))
    case Failed(InstanceNotFound(m)) => HttpNotFound(m)
    case Failed(InstanceNotReady(m)) => HttpConflict(m)
    case Failed(NotImplementedError) => HttpNotImplemented(NotImplementedMessage(Serial))
    case Failed(e) => Raised(e)
  }

  /** The action routed for protocol `p`. */
  function Action(p: Protocol, consoleType: Option<string>, lookup: InstanceLookup, backend: BackendCall): Response
  {
    match p
    case Vnc => GetVncConsole(consoleType, lookup, backend)
    case Spice => GetSpiceConsole(consoleType, lookup, backend)
    case Rdp => GetRdpConsole(consoleType, lookup, backend)
    case Serial => GetSerialConsole(consoleType, lookup, backend)
  }

  // The translation table, one row per backend condition, across the four protocols.

  /** On success every action returns exactly the requested type and the backend url. */
  lemma SuccessEchoesRequest(p: Protocol, consoleType: Option<string>, url: string)
    ensures Action(p, consoleType, Found, Returned(url)) == Console(ConsoleBody(consoleType, url))
  {
  }

  /** InstanceNotReady is a conflict everywhere; only VNC replaces the message. */
  lemma NotReadyIsConflict(p: Protocol, consoleType: Option<string>, m: string)
    ensures Action(p, consoleType, Found, Failed(InstanceNotReady(m)))
            == HttpConflict(if p == Vnc then VncNotReadyMessage else m)
  {
  }

  /** ConsoleTypeUnavailable is a bad request with the exception's message,
      except for serial, which lets it propagate. */
  lemma TypeUnavailableIsBadRequest(p: Protocol, consoleType: Option<string>, m: string)
    ensures Action(p, consoleType, Found, Failed(ConsoleTypeUnavailable(m)))
            == if p == Serial then Raised(ConsoleTypeUnavailable(m)) else HttpBadRequest(m)
  {
  }

  /** NotImplementedError is "not implemented" with the protocol's own text. */
  lemma NotImplementedIsNotImplemented(p: Protocol, consoleType: Option<string>)
    ensures Action(p, consoleType, Found, Failed(NotImplementedError)) == HttpNotImplemented(NotImplementedMessage(p))
  {
    match p
    case Vnc => assert GetVncConsole(consoleType, Found, Failed(NotImplementedError)).HttpNotImplemented?;
    case Spice => assert GetSpiceConsole(consoleType, Found, Failed(NotImplementedError)).HttpNotImplemented?;
    case Rdp => assert GetRdpConsole(consoleType, Found, Failed(NotImplementedError)).HttpNotImplemented?;
    case Serial => assert GetSerialConsole(consoleType, Found, Failed(NotImplementedError)).HttpNotImplemented?;
  }

  /** Only serial itself raises HTTPNotFound, and it does so exactly when the instance lookup
      or the backend raises InstanceNotFound. */
  lemma NotFoundOnlyForSerial(p: Protocol, consoleType: Option<string>, lookup: InstanceLookup, backend: BackendCall)
    ensures Action(p, consoleType, lookup, backend).HttpNotFound?
            <==> p == Serial && ((lookup.LookupFailed? && lookup.exc.InstanceNotFound?) ||
                                 (BackendRaises(lookup, backend) && backend.exc.InstanceNotFound?))
  {
  }

  /** A failing lookup goes through serial's except clauses like a backend
      failure; for the other protocols it propagates untranslated and the
      backend outcome is irrelevant. */
  lemma LookupFailurePlacement(p: Protocol, consoleType: Option<string>, e: Exception, backend: BackendCall)
    ensures Action(p, consoleType, LookupFailed(e), backend)
            == if p == Serial then Action(Serial, consoleType, Found, Failed(e)) else Raised(e)
  {
  }

  /** An exception none of the action's except clauses names propagates
      unchanged: any `Other` exception, InstanceNotFound from the VNC, SPICE
      or RDP backend, and ConsoleTypeUnavailable from the serial backend. */
  lemma UncaughtExceptionsPropagate(p: Protocol, consoleType: Option<string>, e: Exception)
    requires e.Other? || (e.InstanceNotFound? && p != Serial) || (e.ConsoleTypeUnavailable? && p == Serial)
    ensures Action(p, consoleType, Found, Failed(e)) == Raised(e)
  {
  }
}
