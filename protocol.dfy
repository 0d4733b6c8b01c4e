/** The device's local HTTP control protocol as the remote uses it: the fixed
    device address, the URLs of its endpoints, the commands the remote emits,
    and how a request or a whole operation ends. */
module Protocol {

  datatype Option<T> = None | Some(value: T)

  /** The exception an operation lets escape: a `requests` timeout, any other
      `requests` error, or a reply that could not be parsed (an XML error, a
      missing element, a node without text). */
  datatype Error = Timeout | RequestError | MalformedReply

  /** How an operation ends: it returns `value`, or it raises `error`. */
  datatype Result<T> = Ok(value: T) | Err(error: Error)

  /** How one HTTP request sent with `requests` ended. */
  datatype RequestOutcome = Responded | TimedOut | Failed

  /** What the remote sends: a wake-on-LAN magic packet to a hardware address,
      an HTTP GET or an HTTP POST to a URL. */
  datatype Command = Wake(mac: string) | Get(url: string) | Post(url: string)

  const MAC_ADDRESS := "FF:FF:FF:FF:FF:FF"
  const IP_ADDRESS := "192.168.3.21"
  /** `PORT = 8060`, as `%s` renders it. */
  const PORT_TEXT := "8060"
  const BASE_URL := "http://" + IP_ADDRESS + ":" + PORT_TEXT

  const KEYPRESS_PATH := "/keypress/"
  const LAUNCH_PATH := "/launch/"
  const DEVICE_INFO_URL := BASE_URL + "/query/device-info"
  const APPS_URL := BASE_URL + "/query/apps"

  /** The result of a call whose only request ended with `o`, when nothing
      catches what that request raises. */
  function Completion(o: RequestOutcome): (r: Result<()>)
    ensures r.Ok? <==> o == Responded
    ensures r == Err(Timeout) <==> o == TimedOut
    ensures r == Err(RequestError) <==> o == Failed
  {
    match o
    case Responded => Ok(())
    case TimedOut => Err(Timeout)
    case Failed => Err(RequestError)
  }

  /** `"%s/keypress/%s" % (BASE_URL, key)`: the base URL and the keypress
      path, followed by exactly the key. */
  function KeypressUrl(key: string): (u: string)
    ensures BASE_URL + KEYPRESS_PATH <= u && u[|BASE_URL + KEYPRESS_PATH|..] == key
  {
    var u := BASE_URL + KEYPRESS_PATH + key;
    assert u[|BASE_URL + KEYPRESS_PATH|..] == key;
    u
  }

  /** `"%s/launch/%s" % (BASE_URL, id)`: the base URL and the launch path,
      followed by exactly the identifier. */
  function LaunchUrl(id: string): (u: string)
    ensures BASE_URL + LAUNCH_PATH <= u && u[|BASE_URL + LAUNCH_PATH|..] == id
  {
    var u := BASE_URL + LAUNCH_PATH + id;
    assert u[|BASE_URL + LAUNCH_PATH|..] == id;
    u
  }

  /** What follows `prefix` in `u`, if `u` starts with it. */
  function After(prefix: string, u: string): (r: Option<string>)
    ensures r.Some? <==> prefix <= u
    ensures r.Some? ==> u == prefix + r.value
  {
    if prefix <= u then Some(u[|prefix|..]) else None
  }

  /** The key name a keypress URL carries: the partner of `KeypressUrl`. */
  function KeyOf(u: string): Option<string> {
    After(BASE_URL + KEYPRESS_PATH, u)
  }

  /** The application identifier a launch URL carries: the partner of `LaunchUrl`. */
  function LaunchIdOf(u: string): Option<string> {
    After(BASE_URL + LAUNCH_PATH, u)
  }

  lemma BaseUrlValue()
    ensures BASE_URL == "http://192.168.3.21:8060"
    ensures KeypressUrl("Select") == "http://192.168.3.21:8060/keypress/Select"
    ensures LaunchUrl("12345") == "http://192.168.3.21:8060/launch/12345"
  {
  }

  /** A keypress URL names exactly one key, and every URL `KeyOf` accepts is
      the keypress URL of the key it returns. */
  lemma KeypressUrlRoundTrip(key: string, u: string)
    ensures KeyOf(KeypressUrl(key)) == Some(key)
    ensures KeyOf(u) == Some(key) <==> u == KeypressUrl(key)
  {
    var p := BASE_URL + KEYPRESS_PATH;
    assert KeypressUrl(key) == p + key;
    assert (p + key)[|p|..] == key;
  }

  /** The same for launch URLs and application identifiers. */
  lemma LaunchUrlRoundTrip(id: string, u: string)
    ensures LaunchIdOf(LaunchUrl(id)) == Some(id)
    ensures LaunchIdOf(u) == Some(id) <==> u == LaunchUrl(id)
  {
    var p := BASE_URL + LAUNCH_PATH;
    assert LaunchUrl(id) == p + id;
    assert (p + id)[|p|..] == id;
  }

  lemma KeypressUrlInjective(k1: string, k2: string)
    ensures KeypressUrl(k1) == KeypressUrl(k2) <==> k1 == k2
  {
    KeypressUrlRoundTrip(k1, KeypressUrl(k2));
  }

  /** The four endpoints never share a URL: a keypress is never mistaken for
      a launch or a query. */
  lemma EndpointsDistinct(key: string, id: string)
    ensures KeyOf(LaunchUrl(id)) == None && KeyOf(DEVICE_INFO_URL) == None && KeyOf(APPS_URL) == None
    ensures LaunchIdOf(KeypressUrl(key)) == None && LaunchIdOf(DEVICE_INFO_URL) == None
    ensures LaunchIdOf(APPS_URL) == None
    ensures KeypressUrl(key) != LaunchUrl(id)
    ensures KeypressUrl(key) != DEVICE_INFO_URL && KeypressUrl(key) != APPS_URL
    ensures LaunchUrl(id) != DEVICE_INFO_URL && LaunchUrl(id) != APPS_URL
    ensures DEVICE_INFO_URL != APPS_URL
  {
    var n := |BASE_URL|;
    assert KeypressUrl(key)[n + 1] == 'k';
    assert LaunchUrl(id)[n + 1] == 'l';
    assert DEVICE_INFO_URL[n + 1] == 'q';
    assert APPS_URL[n + 1] == 'q';
    assert DEVICE_INFO_URL[n + 7] == 'd' && APPS_URL[n + 7] == 'a';
    assert (BASE_URL + KEYPRESS_PATH)[n + 1] == 'k';
    assert (BASE_URL + LAUNCH_PATH)[n + 1] == 'l';
  }
}
