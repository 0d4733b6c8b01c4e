# RokuTV remote: device-control core in Dafny

This project models the device-control core of a desktop remote for a Roku
television. The remote sends keypresses, launches installed apps and toggles
power over the set's local HTTP control protocol (port 8060). It wakes the set
from standby with a wake-on-LAN magic packet. The modelled parts are:

- **Protocol** (`protocol.dfy`): the fixed address, the endpoint URLs
  (`BASE_URL + "/keypress/" + key`, `/launch/<id>`, `/query/device-info`,
  `/query/apps`), the commands the remote emits (`Wake(mac)`, `Get(url)`,
  `Post(url)`), and how a request ends (`Responded`, `TimedOut`, `Failed`).
- **Buttons** (`buttons.dfy`): the `BUTTON_MAPPING` table from button names to
  actions. It also holds the binding rule: an element whose first three
  characters are `app` launches `element[4:]`; any other element gets its
  table entry, or no handler when there is none.
- **Catalog** (`catalog.dfy`): the loop that turns the listing's `app` nodes
  into a name-to-id dictionary. A later node with the same name overwrites an
  earlier one. A node whose first child is missing, or has no text data,
  raises.
- **Control** (`control.dfy`): the power toggle with its wake sequence, the
  `lru_cache(maxsize=1)` memo of the app listing, app launch, and the dispatch
  of a button press. Each operation is first written as a function (`…Step`).
  That function gives the commands sent, how the call ends (returns or raises
  which error) and the memo afterwards. The class `Remote` keeps the command
  trace and the memo as fields. Its methods run the same operation as a
  sequence of side-effecting calls, and each method is proved to follow its
  `…Step` function. The lemmas state the source's behaviour about those
  functions.

The network is an input. Each operation takes how the device answers: the
outcome of the status query (timed out, failed, or the parsed `power-mode`),
the outcome of the app listing (timed out, failed, or the parsed `app` nodes),
and the outcomes of the first and second POST of the call.

Where the code and the intended design differ, the model follows the code:

- A status-query error other than a timeout, or a reply without a readable
  `power-mode`, propagates out of `power_button_keypress`. It does not fall
  through to `PowerOff`, and it is not turned into a diagnostic.
- A timeout of the `Power` keypress sent in the `DisplayOff` branch is caught
  by the same `except Timeout` handler. The wake sequence then runs a second
  time.
- A failure of the wake sequence's `Power` keypress is not tolerated. Any
  exception it raises, apart from the one retry above, escapes.
- `launch_app` swallows every exception of its launch POST, connection
  errors included.
- A listing that times out memoises the empty catalog for the rest of the
  process. There is no invalidation or refresh, so a later call never
  queries again.

## Model

| member | source | states |
|---|---|---|
| `Protocol.BaseUrlValue` | app.py:42-45 | The base URL is `http://192.168.3.21:8060`, and keypress and launch URLs extend it |
| `Protocol.Completion` | app.py:55-56 | A request whose exception nothing catches: the call returns exactly when the request got a response, raises a timeout exactly when it timed out, and raises a request error exactly when it failed another way |
| `Protocol.KeypressUrl` | app.py:56 | A keypress URL is the base URL and `/keypress/`, followed by exactly the key |
| `Protocol.LaunchUrl` | app.py:97 | A launch URL is the base URL and `/launch/`, followed by exactly the app id |
| `Protocol.KeypressUrlRoundTrip` | app.py:55-56 | A keypress URL names exactly its key: `KeyOf` recovers the key, and it accepts only keypress URLs |
| `Protocol.KeypressUrlInjective` | app.py:55-56 | Two keys give the same keypress URL only if they are the same key |
| `Protocol.LaunchUrlRoundTrip` | app.py:97 | A launch URL names exactly its app id, and `LaunchIdOf` accepts only launch URLs |
| `Protocol.EndpointsDistinct` | app.py:56-97 | Keypress, launch, device-info and app-listing URLs never coincide, the two query URLs included, and neither URL parser accepts another endpoint's URL |
| `Buttons.Binding` | app.py:112-126 | An element has a handler exactly when it starts with `app` or is a table key, and that handler is a launch exactly when it starts with `app` |
| `Buttons.AppElementIsPrefix` | app.py:112 | `element[:3] == 'app'` holds exactly when the element starts with `app`, short elements included |
| `Buttons.AppButtonLaunches` | app.py:112-120 | `app_<name>` binds to launching `<name>`; any element starting with `app` launches what follows its fourth character |
| `Buttons.MappedButtonsBind` | app.py:121-126 | A table element is bound to its own table entry, since no table key starts with `app` |
| `Buttons.UnmappedGetsNoHandler` | app.py:112-126 | An element has no handler exactly when it does not start with `app` and is not in the table |
| `Buttons.KeyNames` | app.py:23-40 | The whole `BUTTON_MAPPING` table: exactly its sixteen button names, and the key each sends (`ok` to `Select`, `replay` to `InstantReplay`, `previous` to `Rev`, `next` to `Fwd`, and so on); `power` runs the toggle and every other entry sends one key |
| `Buttons.CornersUnbound` | app.py:11-15 | All four layout corners and the spacer get no handler |
| `Buttons.BindingExamples` | app.py:10-40 | On shipped elements: `app_Plex` launches `Plex`, all four corners and the spacer get no handler, `ok` sends `Select`, `power` toggles |
| `Catalog.Build` | app.py:81-82 | Every name in the dictionary is the name of some node, and the last node's name maps to its id |
| `Catalog.BuildKeys` | app.py:81-82 | The built dictionary covers exactly the names of the `app` nodes |
| `Catalog.BuildLastWins` | app.py:81-82 | The id of a name is the id of the last node carrying that name |
| `Catalog.BuildCatalog` | app.py:77-82 | The loop returns the dictionary of the nodes when every node has text, and raises a malformed-reply error otherwise |
| `Control.Remote.constructor` | app.py:75 | The process starts with nothing sent and no memoised listing |
| `Control.Remote.PostKeypress` | app.py:55-56 | Appends one POST to the key's URL; the call ends as the request did; memo unchanged |
| `Control.Remote.PowerOn` | app.py:71-73 | Appends the magic packet to `MAC_ADDRESS`, then the `Power` keypress; ends as that keypress did |
| `Control.Remote.PowerButtonKeypress` | app.py:58-69 | The new trace, result and memo are those of `PowerToggleStep` for the given answers |
| `Control.Remote.ListInstalledApps` | app.py:75-87 | The new trace, result and memo are those of `ListStep` for the old memo and the reply |
| `Control.Remote.LaunchApp` | app.py:89-100 | The new trace, result and memo are those of `LaunchStep` |
| `Control.Remote.Press` | app.py:112-126 | The new trace, result and memo are those of `PressStep` for the element's binding |
| `Control.PowerToggleStep` | app.py:58-73 | The toggle always sends the status query first and never touches the memo; it sends only that query exactly when the query fails other than by timeout or the mode is unreadable, and then raises that request or parse error |
| `Control.ListStep` | app.py:75-87 | A set memo answers with no request; without one, one query is sent. A returning listing memoises its result and a raising one memoises nothing. It returns exactly when the memo is set, the query timed out, or every node has text |
| `Control.LaunchStep` | app.py:89-100 | A launch keeps the listing's memo, raises exactly when the listing raises and with its error, and sends what the listing sent followed by at most one more command |
| `Control.PressStep` | app.py:112-126 | An element with no handler sends nothing and keeps the memo; a key or power handler always sends something; a set memo is never changed |
| `Control.TimeoutWakes` | app.py:58-73 | A timed-out status query sends the query, the magic packet, then `Power`, and never `PowerOff`; the call ends as that keypress did |
| `Control.DisplayOffWakes` | app.py:62-64 | `DisplayOff`, when its keypress does not time out, sends the query, the magic packet, then `Power`, and never `PowerOff` |
| `Control.DisplayOffRetry` | app.py:59-68 | If the `DisplayOff` branch's keypress times out, the wake sequence is sent a second time, and the call ends exactly as the second keypress did: what it raises, a timeout or a request error, escapes |
| `Control.AwakeSwitchesOff` | app.py:58-69 | Any other power mode sends exactly one `PowerOff` keypress and no magic packet; its failure escapes |
| `Control.QueryErrorEscapes` | app.py:59-65 | A non-timeout query error or an unreadable power mode raises after the query and sends nothing more, `PowerOff` included |
| `Control.PowerToggleShape` | app.py:58-73 | For all answers: the status query comes first; `PowerOff` and a magic packet are never both sent; every `Power` keypress directly follows a magic packet; the memo is untouched |
| `Control.MemoAnswers` | app.py:75 | With the memo set, a listing sends nothing and returns the memoised catalog whatever the device would answer |
| `Control.FirstListing` | app.py:75-87 | Without a memo, a listing sends one query; a returning listing memoises its result, and a raising one memoises nothing |
| `Control.ListingContents` | app.py:77-87 | For every reply whose nodes all have text: the catalog has exactly the nodes' names, and each name has the id of the last node carrying it; a timeout yields the empty catalog without raising |
| `Control.ListTwiceQueriesOnce` | app.py:75-87 | After a listing returns, the next one sends no query and returns the same catalog, even the empty one a timeout left |
| `Control.FailedListingRetries` | app.py:75-87 | Any listing that raises (request error, unparsable reply, a node without text) leaves the memo unset, so the next listing queries again |
| `Control.MemoNeverChanges` | app.py:75-100 | Whatever is pressed and whatever the device answers, a set memo is kept as it is and no further app-listing query is sent |
| `Control.LaunchSendsAtMostOne` | app.py:89-100 | A launch sends no POST when the name is unknown and exactly one, last, to the launch URL of its id when it is known; the launch POST's outcome never changes the result, the trace or the memo; only listing errors escape |
| `Control.LaunchExamples` | app.py:89-100 | With `Plex` memoised as `12345`: `Plex` sends one POST to `/launch/12345`; `NoSuchApp` sends nothing |
| `Control.UnboundPressIsNoop` | app.py:121-126 | Pressing an element with no handler sends nothing and leaves the memo alone |
| `Control.AppPressLaunches` | app.py:112-120 | Pressing `app_<name>` is launching `<name>` |
| `Control.KeyPressSendsKey` | app.py:23-40 | A key button sends exactly one keypress with its table's key name |
| `Control.PowerPressToggles` | app.py:36 | The power button runs the power toggle |

## Left out

- The wx GUI (`MainWindow`, `OnPaint`, `scale_bitmap`, sizer layout, bitmap scaling by `56.5*len(LAYOUT)`): presentation only. A click is modelled as `Remote.Press` on the element's name.
- The image-file existence checks at app.py:114-116: filesystem I/O that only picks a bitmap.
- `LAYOUT` as a whole: the binding rule is stated for every element, and `Buttons.BindingExamples` covers shipped elements.
- HTTP through `requests` and real timeouts (`TV_ON_CHECK_TIMEOUT = 0.1`, a float): each request's result is an input outcome.
- XML parsing with `minidom`: the parsed `power-mode` text and the list of `app` nodes are inputs. An unparsable reply is `None`.
- Building and sending the magic packet (`wakeonlan`, a foreign call): modelled as an abstract `Wake(MAC_ADDRESS)` command that always succeeds. A socket error from it is not modelled. `WOL_BROADCAST_ADDRESS` is defined but not passed to the call, so it does not appear in the model.
- `logging` output, for an unknown app and for a listing timeout.
- Process start-up at app.py:165-167.
- The identity of the memoised dictionary: `lru_cache` hands every caller the same object. That aliasing is not modelled, because no caller mutates it.
- How wx reports an exception that escapes a handler: the model returns it as `Err`.
