# MySQL HAProxy charm — verified model

The charm runs an HAProxy workload in front of a MySQL service. It has two
pieces of decision logic, and this project models both in Dafny:

- **The backend configuration renderer** (`_haproxy_backend_config`). It turns
  the `mysql_host` and `mysql_port` settings into a two-stanza HAProxy file:
  `backend mysql-writers`, then `backend mysql-readers`. Each stanza has the same
  six body lines and ends with `server mysql <host>:<port> check`.
- **The lifecycle handlers** (`_on_mysql_haproxy_pebble_ready`,
  `_on_config_changed`) **and the restart reconciler** (`_restart_haproxy`).
  They decide which workload calls to make and which unit status to set.

Modules:

- `options.dfy` (`Options`): the `Option` datatype.
- `decimal.dfy` (`Decimal`): Python's `str()` of an `int` or a `bool`, and a
  decimal parser. The parser is the printer's inverse.
- `haproxy_config.dfy` (`HaproxyConfig`): the configuration store, the
  renderer `RenderConfig` (`_haproxy_backend_config`; `BackendConfig` is the
  same document once host and port are text), and its partners. `SplitLines` reads the document back as lines.
  `Decode` and `ReadEndpoint` read back the server address and the
  `(host, port)` pair.
- `charm.dfy` (`Charm`): the container as the charm observes it. Also the
  ordered effect log, the handlers as pure functions, and `Apply`. `Apply` is a
  small abstraction of how the logged calls change the container.

The Pebble process supervisor and the `ops` framework are not modelled. What
Pebble reports becomes input:

- `Container.canConnect`, `Container.planServices` and `Container.running` are
  what the container reports.
- A ConnectionError is a `Connection` value: either `Stable`, or
  `DropsAfter(k)`. With `DropsAfter(k)`, the first `k` Pebble calls of the
  invocation complete and the next one raises.
- Reads (`GetPlan`, `GetService`) are logged with the writes because they can
  raise too. A call that raises is not logged.

The renderer interpolates host and port verbatim. The document reads back to the
exact address text. When the port is an integer, it also reads back to the
exact `(host, port)` pair. So two `(host text, integer port)` pairs render to
the same document only when they are equal. Distinct configurations can still
render alike: an absent key and its default, or a host given as the integer `5`
and as the string `"5"`.

The restart swallows a ConnectionError, and `_on_config_changed` then sets
`ActiveStatus()` anyway once `_restart_haproxy` returns (src/charm.py:70-72).
So the status is not left stale: `ConfigChanged` ends with `Active("")`
whenever the push succeeded, even when the restart failed part-way. The restart's own status assignment is modelled in `Restart`:
no status when it raised, `Active("")` otherwise.

## Model

| member | source | states |
|---|---|---|
| `Decimal.NatToString` | src/charm.py:122 | A non-negative port is printed as a non-empty run of decimal digits, with a leading `0` only for zero (Python `str`) |
| `Decimal.IntToString` | src/charm.py:130 | An integer port's text never contains `:`; it starts with `-` exactly when the port is negative |
| `Decimal.ParseIntToString` | src/charm.py:122-130 | Parsing the printed text of any integer port gives the same integer back |
| `HaproxyConfig.HostDefaults` | src/charm.py:113 | With `mysql_host` absent, the document is the one for host `mysql` and the looked-up port, and it decodes to `mysql:<port>` |
| `HaproxyConfig.PortDefaults` | src/charm.py:114 | With `mysql_port` absent, the document is the one for the looked-up host and port `3306`, and it reads back to that host and the integer 3306 |
| `HaproxyConfig.DefaultsRender` | src/charm.py:113-114 | With neither key set, the document is the one for host `mysql` and port `3306` |
| `HaproxyConfig.OnlyEndpointMatters` | src/charm.py:111-131 | Two configurations with the same host and port values render the same document; no other setting matters |
| `HaproxyConfig.BackendConfigLayout` | src/charm.py:116-131 | The document is the writers stanza, an empty line, then the readers stanza. Each stanza has six fixed lines and ends with `server mysql host:port check`. Splitting the document at newlines gives back exactly those 15 lines when host and port hold no newline. It ends with a newline |
| `HaproxyConfig.RenderConfigReadsBack` | src/charm.py:111-131 | The rendered document carries `str(host):str(port)` of the looked-up settings as its server address. With an integer port it reads back to exactly that host and port |
| `HaproxyConfig.SplitUnlines` | src/charm.py:116-131 | Cutting newline-terminated lines at their newlines gives the lines back when no line holds a newline |
| `HaproxyConfig.DecodeExact` | src/charm.py:116-131 | A document decodes to an address exactly when it is the rendering of that address (both directions) |
| `HaproxyConfig.ReadEndpointRoundTrip` | src/charm.py:122 | Rendering host and an integer port, then reading the document back, gives that host and port, even when the host contains `:` |
| `HaproxyConfig.BackendConfigInjective` | src/charm.py:116-131 | Different `(host text, integer port)` pairs never render to the same document |
| `Charm.Issue` | src/charm.py:139-152 | Calls complete in order. A connection that drops after `k` calls completes exactly the first `k` and raises on the next, and later calls are not made. Otherwise every call completes and the connection is left with `k` minus the calls made |
| `Charm.EveryPushWritesConfig` | src/charm.py:95-107 | Every push in the log of config-changed or pebble-ready writes the rendering of the current settings to `/configs/haproxy.cfg`, with mode 0o600, owner `haproxy` and parent directories created. The restart never pushes |
| `Charm.Restart` | src/charm.py:133-152 | Restart never lets a ConnectionError escape. It reads the plan first. A drop after `k` of its calls leaves exactly those `k` calls done and no status set. When the plan's services equal the layer's, the plan read is its only call on a stable connection. Otherwise, on a stable connection, it adds the layer (combine), stops the service only if it is running, then starts it once. It sets `Active("")` only when nothing raised |
| `Charm.RestartReconciles` | src/charm.py:142-148 | After a stable restart the plan holds the charm's layer. The service runs, except when the plan already matched and the service was stopped: then it stays stopped |
| `Charm.RestartIdempotent` | src/charm.py:142 | A second restart is a no-op exactly when the plan held no service other than `mysql-haproxy`. Otherwise the second restart again adds the layer and stops and starts the running service |
| `Charm.RestartFailureIsPrefix` | src/charm.py:139-152 | A ConnectionError inside the restart leaves the failure-free log cut at the failing call, with no status set. A drop after the restart's last call changes nothing |
| `Charm.ConfigChanged` | src/charm.py:55-72 | If the container cannot connect, the only effect is a defer and the status is `Waiting("Waiting for mysql-haproxy container to start")`. Otherwise nothing is deferred, and the handler raises only when the push itself fails; then nothing is logged and no status is set. When it does not raise, the config push is the first call and the only push, then come the restart's calls over what remains of the connection, and the status is `Active("")` |
| `Charm.ConfigChangedRestarts` | src/charm.py:67-70 | After the push, config-changed runs the restart over whatever remains of the connection |
| `Charm.PebbleReady` | src/charm.py:39-53 | Pebble-ready adds the layer (combine), pushes the config and autostarts, in that order. It raises exactly when the connection drops within those three calls, and then only the calls before the drop are logged and no status is set. Otherwise all three complete and the status is `Active("HAProxy started in the workload container")` |
| `Charm.PebbleReadyStartsService` | src/charm.py:78-93 | After pebble-ready on a stable connection, the plan holds the `mysql-haproxy` service (replace, `mysql haproxy`, `haproxy -f /configs`, enabled), and the service is running |

## Left out

- The `ops` framework: `CharmBase`, event observation, `main` and event objects (src/charm.py:9-12, 25-33, 155-156). The handlers are plain functions of their inputs.
- Pebble itself: layer merging beyond "combine replaces the named service entry", how `autostart` chooses services, and how `is_running` is computed. `Apply` is a minimal abstraction used only to state what the handlers achieve.
- `Container.canConnect` and the `Connection` are independent inputs. Nothing forces a container that cannot connect to also drop its calls. Pebble-ready never asks `can_connect`, just as in the source.
- Logging (src/charm.py:99, 109, 152) has no behavioural content.
- HAProxy's runtime behaviour and the `/usr/local/bin/check_mysql.sh` health check. Only their literal text in the rendered document is modelled.
- Floating-point configuration values, and the exact bytes Python prints for them. Strings, integers and booleans are modelled.
- Charm.Restart: only failures of Python's builtin `ConnectionError`, the class caught at src/charm.py:151, are modelled, and all of them are swallowed. A failure of another class would escape the restart and config-changed, and config-changed would then set no status. Examples are a Pebble API error or a service missing from the plan. The model has no such failure.
