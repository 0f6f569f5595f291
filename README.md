# Console actions of nova's ConsolesController, in Dafny

This project models the `ConsolesController` of the OpenStack compute API
extension `os-consoles` (`nova/api/openstack/compute/contrib/consoles.py`):
the actions that hand a caller a remote-console URL for a server.

- `console_actions.dfy` (module `ConsoleActions`) holds the four plain actions,
  `os-getVNCConsole`, `os-getSPICEConsole`, `os-getRDPConsole` and
  `os-getSerialConsole`. Each one is a function from the requested console
  `type`, the outcome of resolving the instance and the outcome of the compute
  API call to a `Response`. A `Response` is the console body
  `{'console': {'type', 'url'}}`, one of the four webob errors (409, 400, 501,
  404) with its explanation, or an exception the action lets propagate. The
  lemmas over `Action(p, …)` give the translation table row by row, for all
  four protocols. They cover its asymmetries:
  - Only serial resolves the instance inside its `try`, so only serial maps
    InstanceNotFound.
  - Serial has no clause for ConsoleTypeUnavailable.
  - VNC answers "not ready" with a fixed text.
- `persisted_console.dfy` (module `PersistedConsole`) holds the persisted VNC
  action, `os-getVNCConsole-new`, as the method
  `ConsolesController.GetVncConsoleNew` on a class. The class holds the keeper
  configuration, the URL parser and the cache client `mc`. The cache client is
  the class `MemoryCache`, with a map of session records and a ghost log of
  every `set` it received. The method is proved against two functions:
  - `PersistedResponse` is the answer. It takes no cache and no write verdict,
    so the answer cannot depend on whether the write succeeded.
  - `PersistedWrite` is the single `set`: the token as key and a
    `SessionRecord` built from the request id, the URL's host and port and the
    `consolekeeper` configuration.

  `Serve` describes a series of such requests served by one controller. The
  lemmas about it show three things. Each answer depends only on its own
  request. Every stored record carries the configured keeper values. Every
  cache entry is either older and untouched, or exactly what an accepted write
  put there. `ServeTwo` shows that the controller's method, called twice,
  gives what `Serve` gives.

The `consolekeeper` defaults registered in
`nova/api/openstack/compute/contrib/__init__.py` (lines 35-51: empty strings
and zeros) are the constant `DefaultKeeperConfig`. With that configuration a
record is still written, with empty and zero keeper fields.

Three facts about the code shape the model:

- VNC replaces the exception's message with "Instance not yet ready" on
  InstanceNotReady. SPICE, RDP and serial pass on the exception's own message.
- A VNC URL without a token makes `param_dict["token"]` raise KeyError, or
  IndexError when the list of values is empty, and nothing catches it. The
  model returns `Raised(MissingToken)` or `Raised(EmptyToken)`.
- `vnc_port` is `parsed.port`, which is absent when the URL has no port, so
  the record holds an `Option<int>`. The same holds for `vnc_host`.

The persisted action as written cannot reach its record (see Findings). The
class method, `PersistedResponse` and `PersistedWrite` model the evidently
intended behaviour of lines 79-99. That behaviour parses the URL once,
reads the `token` query list and writes the record.

## Model

| member | source | states |
|---|---|---|
| `ConsoleActions.GetVncConsole` | nova/api/openstack/compute/contrib/consoles.py:43-67 | A console is returned iff the instance resolves and the backend returns a URL, echoing the requested type verbatim and the URL unchanged. A lookup failure propagates untranslated. 409 is answered exactly on InstanceNotReady, always with "Instance not yet ready". The action itself raises no HTTPNotFound. |
| `ConsoleActions.GetSpiceConsole` | nova/api/openstack/compute/contrib/consoles.py:101-125 | A console is returned iff the instance resolves and the backend returns a URL, echoing type and URL. A lookup failure propagates untranslated. InstanceNotReady becomes 409 with the exception's own message. The action itself raises no HTTPNotFound. |
| `ConsoleActions.GetRdpConsole` | nova/api/openstack/compute/contrib/consoles.py:127-150 | The same as SPICE: console iff success with type and URL echoed, lookup failure untranslated, 409 with the exception's message, and the action itself raises no HTTPNotFound. |
| `ConsoleActions.GetSerialConsole` | nova/api/openstack/compute/contrib/consoles.py:152-174 | A console is returned iff the instance resolves and the backend returns a URL, echoing type and URL. A lookup raising InstanceNotFound gives 404 with its message. The action itself raises no HTTPBadRequest: ConsoleTypeUnavailable propagates as raised. |
| `ConsoleActions.SuccessEchoesRequest` | nova/api/openstack/compute/contrib/consoles.py:50-67 | For every protocol, a backend success yields exactly `{'console': {'type': requested type, 'url': backend url}}`. |
| `ConsoleActions.NotReadyIsConflict` | nova/api/openstack/compute/contrib/consoles.py:58-60 | For every protocol, InstanceNotReady becomes 409. The explanation is the fixed text for VNC and the exception's message for SPICE, RDP and serial. |
| `ConsoleActions.TypeUnavailableIsBadRequest` | nova/api/openstack/compute/contrib/consoles.py:61-62 | ConsoleTypeUnavailable becomes 400 with the exception's message for VNC, SPICE and RDP. For serial it propagates untranslated. |
| `ConsoleActions.NotImplementedIsNotImplemented` | nova/api/openstack/compute/contrib/consoles.py:63-65 | For every protocol, NotImplementedError becomes 501 with that protocol's own fixed text. |
| `ConsoleActions.NotFoundOnlyForSerial` | nova/api/openstack/compute/contrib/consoles.py:160-166 | An action itself raises HTTPNotFound iff it is serial and the lookup or the backend raised InstanceNotFound. |
| `ConsoleActions.LookupFailurePlacement` | nova/api/openstack/compute/contrib/consoles.py:51-55 | A failed lookup propagates untranslated from VNC, SPICE and RDP, whatever the backend would have done. Serial treats it exactly like the same exception from the backend. |
| `ConsoleActions.UncaughtExceptionsPropagate` | nova/api/openstack/compute/contrib/consoles.py:54-65 | An exception that none of the action's except clauses names propagates unchanged: any `Other` exception, InstanceNotFound from the VNC, SPICE or RDP backend, and ConsoleTypeUnavailable from the serial backend. |
| `PersistedConsole.PersistedResponse` | nova/api/openstack/compute/contrib/consoles.py:69-99 | Any VNC failure propagates unchanged. A console is returned iff VNC returns one whose URL has a token value, and then it is exactly VNC's result. A URL without a token value raises KeyError or IndexError. |
| `PersistedConsole.PersistedWrite` | nova/api/openstack/compute/contrib/consoles.py:79-95 | A write is made iff the caller gets a console. Its key is the first `token` value. Its record has `consid` = request id, `vnc_host`/`vnc_port` = the URL's host and port, and the five configured keeper values. |
| `PersistedConsole.MemoryCache.constructor` | nova/api/openstack/compute/contrib/consoles.py:41 | The client starts with the store's current contents and no `set` made. |
| `PersistedConsole.MemoryCache.Set` | nova/api/openstack/compute/contrib/consoles.py:94-95 | Reports the store's verdict. An accepted `set` stores the value under the key; a rejected one stores nothing. Either way the attempt is logged. |
| `PersistedConsole.ConsolesController.constructor` | nova/api/openstack/compute/contrib/consoles.py:37-41 | The controller keeps the configuration, the parser and the cache client it is given. |
| `PersistedConsole.ConsolesController.GetVncConsoleNew` | nova/api/openstack/compute/contrib/consoles.py:69-99 | Returns `PersistedResponse`, whatever the store decides. The cache afterwards is the old cache plus `PersistedWrite`'s entry if the store accepted it. Exactly one `set` is made on the success path and none on a failure path. Nothing changes when the answer is not a console or the write is rejected. |
| `PersistedConsole.Serve` | nova/api/openstack/compute/contrib/consoles.py:69-99 | Serving a series of persisted requests answers each one, and no cache key is ever removed. |
| `PersistedConsole.ServeAnswersEachRequestAlone` | nova/api/openstack/compute/contrib/consoles.py:94-99 | The i-th answer of a series is the persisted answer to the i-th request alone. It does not depend on the cache, the store's verdicts or earlier requests. |
| `PersistedConsole.ServeKeepsKeeperConfig` | nova/api/openstack/compute/contrib/consoles.py:84-91 | If every record in the cache carries the configured keeper values, this still holds after any series of requests. |
| `PersistedConsole.ServeOnlyStoresWrites` | nova/api/openstack/compute/contrib/consoles.py:82-95 | Every entry of the final cache is either an older, untouched entry, or exactly the (token, record) that some accepted write of the series put there. |
| `PersistedConsole.ServeTwo` | nova/api/openstack/compute/contrib/consoles.py:69-99 | Two persisted requests served in turn by one controller's `GetVncConsoleNew` give exactly the answers and the final cache that `Serve` gives for the two requests. |
| `PersistedConsole.GetVncConsoleNewAsWritten` | nova/api/openstack/compute/contrib/consoles.py:78-81 | As written, the persisted action never returns a console. Every VNC success ends in AttributeError; VNC failures pass through. |
| `PersistedConsole.AsWrittenLosesExampleConsole` | nova/api/openstack/compute/contrib/consoles.py:78-95 | For the VNC URL `vnc://10.0.0.5:5900/?token=abc123`, the code as written raises AttributeError. The intended action returns the console and writes under `abc123` a record with host `10.0.0.5`, port 5900 and the default keeper values. |

## Findings

| source | as written | input that shows it | evidently intended | confidence | as-written member | corrected member |
|---|---|---|---|---|---|---|
| nova/api/openstack/compute/contrib/consoles.py:78-81 | Line 24 imports the function `urlparse`. Lines 78 and 81 call `urlparse.urlparse` and `urlparse.parse_qs`, which raises AttributeError on the function object. | Any request for which `os-getVNCConsole` succeeds, e.g. one returning `vnc://10.0.0.5:5900/?token=abc123` | Parse the URL with the `urlparse` module, take host, port and the first `token` value, write the record and return the console | high (not executed) | `PersistedConsole.GetVncConsoleNewAsWritten` | `PersistedConsole.ConsolesController.GetVncConsoleNew` |

## Left out

- HTTP and WSGI framing are reduced to `Response` constructors. This covers `req.environ`, `@wsgi.action` routing and the webob exception classes.
- Policy checks (`authorize(context)`) are left out; they call policy code that is not part of this model.
- `compute.API`, `common.get_instance` and `compute_api.get` are not part of this model. Their outcomes are the inputs `InstanceLookup` and `BackendCall`.
- The nova exception hierarchy is not part of this model. The four named exceptions are treated as unrelated classes, so the order of the except clauses does not matter.
- What a propagated exception finally becomes is outside the model. This covers whatever the lookup raises, including a 404 from `common.get_instance` for an unknown server, and how the wsgi layer answers an exception such as ConsoleTypeUnavailable. The HTTP errors in the contracts are only those the actions raise themselves.
- A backend result without a `url` key (KeyError on `output['url']`) is not modelled. `BackendCall.Returned` always carries a URL.
- A request body without the action's key, or with a non-string `type`, is not modelled. The routing only dispatches bodies that carry the key, and `type` is an optional string.
- URL parsing (`urlparse`, `parse_qs`) is not part of this model. The controller holds an abstract `parse` function. Errors that `urlparse` itself may raise on a malformed port are not modelled.
- The JSON encoding of the record (`jsonutils.dumps`) and the UTF-8 encoding of the key are left out. The record is a datatype and the key is the token string.
- The cache's internals and expiry are not modelled. `memorycache.get_client()` is the `MemoryCache` passed to the constructor. Other writers to a shared memcached and the store's own expiry are not modelled.
- Logging and message translation (`LOG.warning`, `_`, `_LW`) are left out. A rejected write leaves only the ignored `saved` flag.
- The `Consoles` extension descriptor and the extension loading in `contrib/__init__.py` are left out. Only the configuration defaults are kept, as `DefaultKeeperConfig`.
- Concurrency between requests is not modelled. `Serve` serves requests one after another.
