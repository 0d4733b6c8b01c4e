/** The device-control core: the power toggle and its wake sequence, the
    memoised app listing, app launch, and the dispatch of a button press.

    The network is not modelled; each operation is given how the device
    answers its requests. Each operation is first written as a function of
    the memoised catalog and those answers, giving the commands emitted, how
    the operation ends and the memo afterwards (a `Step`); the class `Remote`
    then performs the same operation as a sequence of side-effecting calls
    and is proved to follow that function. */
module Control {
  import opened Protocol
  import opened Buttons
  import opened Catalog

  /** How the device-info query ended: timed out, failed another way, or was
      answered, with the text of its first `power-mode` element (`None` when
      the reply is not XML or has no such element with text). */
  datatype StatusReply = StatusTimedOut | StatusFailed | StatusReceived(powerMode: Option<string>)

  /** How the app-listing query ended: timed out, failed another way, or was
      answered, with its `app` nodes (`None` when the reply is not XML). */
  datatype AppsReply = AppsTimedOut | AppsFailed | AppsReceived(nodes: Option<seq<AppNode>>)

  /** How the device answers the requests of one button press: the status
      query, the app listing, and the first and second POST sent. */
  datatype Answers = Answers(status: StatusReply, apps: AppsReply, firstPost: RequestOutcome, secondPost: RequestOutcome)

  /** What an operation does: the commands it sends, in order, how it ends,
      and the memoised catalog afterwards. */
  datatype Step<T> = Step(emitted: seq<Command>, result: Result<T>, memo: Option<Apps>)

  const DISPLAY_OFF := "DisplayOff"
  const POWER_PRESS := Post(KeypressUrl("Power"))
  const POWER_OFF_PRESS := Post(KeypressUrl("PowerOff"))
  /** The wake sequence: the magic packet, then the `Power` keypress. */
  const WAKE_SEQUENCE := [Wake(MAC_ADDRESS), POWER_PRESS]

  // ---------------------------------------------------------------------
  // The operations as functions of the memo and the device's answers
  // ---------------------------------------------------------------------

  function KeypressStep(memo: Option<Apps>, key: string, o: RequestOutcome): Step<()> {
    Step([Post(KeypressUrl(key))], Completion(o), memo)
  }

  function PowerOnStep(memo: Option<Apps>, o: RequestOutcome): Step<()> {
    Step(WAKE_SEQUENCE, Completion(o), memo)
  }

  /** The power toggle. A timed-out query means the set is off; a
      `DisplayOff` mode wakes it, and when that wake's keypress times out the
      same `except Timeout` handler wakes it a second time; any other mode
      switches it off. Other query errors and unreadable replies raise. */
  function PowerToggleStep(memo: Option<Apps>, status: StatusReply, first: RequestOutcome,
                           second: RequestOutcome): (s: Step<()>)
    ensures s.memo == memo
    ensures |s.emitted| > 0 && s.emitted[0] == Get(DEVICE_INFO_URL)
    ensures |s.emitted| == 1 <==> status == StatusFailed || status == StatusReceived(None)
    ensures status == StatusFailed ==> s.result == Err(RequestError)
    ensures status == StatusReceived(None) ==> s.result == Err(MalformedReply)
  {
    var query := [Get(DEVICE_INFO_URL)];
    match status
    case StatusTimedOut => Step(query + WAKE_SEQUENCE, Completion(first), memo)
    case StatusFailed => Step(query, Err(RequestError), memo)
    case StatusReceived(None) => Step(query, Err(MalformedReply), memo)
    case StatusReceived(Some(mode)) =>
      if mode != DISPLAY_OFF then Step(query + [POWER_OFF_PRESS], Completion(first), memo)
      else if first != TimedOut then Step(query + WAKE_SEQUENCE, Completion(first), memo)
      else Step(query + WAKE_SEQUENCE + WAKE_SEQUENCE, Completion(second), memo)
  }

  /** The memoised app listing: a set memo answers without a query; otherwise
      one query, whose timeout yields (and memoises) the empty catalog and
      whose other failures raise and memoise nothing. */
  function ListStep(memo: Option<Apps>, reply: AppsReply): (s: Step<Apps>)
    ensures memo.Some? ==> s.emitted == [] && s.result == Ok(memo.value) && s.memo == memo
    ensures memo.None? ==> s.emitted == [Get(APPS_URL)]
    ensures s.result.Ok? ==> s.memo == Some(s.result.value)
    ensures s.result.Err? ==> s.memo == None
    ensures s.result.Ok? <==>
      memo.Some? || reply == AppsTimedOut || (reply.AppsReceived? && reply.nodes.Some? && Named(reply.nodes.value))
  {
    if memo.Some? then Step([], Ok(memo.value), memo)
    else
      var query := [Get(APPS_URL)];
      match reply
      case AppsTimedOut => Step(query, Ok(map[]), Some(map[]))
      case AppsFailed => Step(query, Err(RequestError), None)
      case AppsReceived(None) => Step(query, Err(MalformedReply), None)
      case AppsReceived(Some(nodes)) =>
        if Named(nodes) then Step(query, Ok(Build(nodes)), Some(Build(nodes)))
        else Step(query, Err(MalformedReply), None)
  }

  /** App launch: list the apps; an unknown name sends nothing more; a known
      one sends one launch POST, and whatever that POST does is swallowed. */
  function LaunchStep(memo: Option<Apps>, name: string, reply: AppsReply, launched: RequestOutcome): (s: Step<()>)
    ensures s.memo == ListStep(memo, reply).memo
    ensures s.result.Err? <==> ListStep(memo, reply).result.Err?
    ensures s.result.Err? ==> s.result.error == ListStep(memo, reply).result.error
    ensures ListStep(memo, reply).emitted <= s.emitted
    ensures |s.emitted| <= |ListStep(memo, reply).emitted| + 1
  {
    var listed := ListStep(memo, reply);
    if listed.result.Err? then Step(listed.emitted, Err(listed.result.error), listed.memo)
    else if name !in listed.result.value then Step(listed.emitted, Ok(()), listed.memo)
    else Step(listed.emitted + [Post(LaunchUrl(listed.result.value[name]))], Ok(()), listed.memo)
  }

  /** Pressing a layout element: run the handler the binding rule gives it,
      or do nothing when it has none. */
  function PressStep(memo: Option<Apps>, element: string, a: Answers): (s: Step<()>)
    ensures Binding(element) == None ==> s == Step([], Ok(()), memo)
    ensures Binding(element).Some? && !Binding(element).value.Launch? ==> s.emitted != []
    ensures memo.Some? ==> s.memo == memo
  {
    match Binding(element)
    case None => Step([], Ok(()), memo)
    case Some(Keypress(key)) => KeypressStep(memo, key, a.firstPost)
    case Some(PowerToggle) => PowerToggleStep(memo, a.status, a.firstPost, a.secondPost)
    case Some(Launch(name)) => LaunchStep(memo, name, a.apps, a.firstPost)
  }

  // ---------------------------------------------------------------------
  // The remote's state and its operations
  // ---------------------------------------------------------------------

  /** The process state the core touches: the commands sent so far and the
      single entry of the app listing's memo (`lru_cache(maxsize=1)`). */
  class Remote {
    var trace: seq<Command>
    var memo: Option<Apps>

    constructor ()
      ensures trace == [] && memo == None
    {
      trace := [];
      memo := None;
    }

    /** POST `/keypress/<key>`; what the request raises escapes. */
    method PostKeypress(key: string, o: RequestOutcome) returns (r: Result<()>)
      modifies this
      ensures var s := KeypressStep(old(memo), key, o);
        trace == old(trace) + s.emitted && r == s.result && memo == s.memo
    {
      trace := trace + [Post(KeypressUrl(key))];
      r := Completion(o);
    }

    /** The magic packet to `MAC_ADDRESS`, then the `Power` keypress. */
    method PowerOn(o: RequestOutcome) returns (r: Result<()>)
      modifies this
      ensures var s := PowerOnStep(old(memo), o);
        trace == old(trace) + s.emitted && r == s.result && memo == s.memo
    {
      trace := trace + [Wake(MAC_ADDRESS)];
      r := PostKeypress("Power", o);
    }

    /** The power button. `first` and `second` are the outcomes of the first
      and second keypress POST it sends. */
    method PowerButtonKeypress(status: StatusReply, first: RequestOutcome, second: RequestOutcome)
      returns (r: Result<()>)
      modifies this
      ensures var s := PowerToggleStep(old(memo), status, first, second);
        trace == old(trace) + s.emitted && r == s.result && memo == s.memo
    {
      trace := trace + [Get(DEVICE_INFO_URL)];
      match status {
        case StatusTimedOut =>
          // except Timeout: the set is off
          r := PowerOn(first);
          return;
        case StatusFailed =>
          return Err(RequestError);
        case StatusReceived(mode) =>
          if mode.None? {
            return Err(MalformedReply);
          }
          if mode.value == DISPLAY_OFF {
            r := PowerOn(first);
            if r == Err(Timeout) {
              // the keypress ran inside the try, so its timeout reaches the handler
              r := PowerOn(second);
            }
            return;
          }
      }
      r := PostKeypress("PowerOff", first);
    }

    /** The memoised app listing. */
    method ListInstalledApps(reply: AppsReply) returns (r: Result<Apps>)
      modifies this
      ensures var s := ListStep(old(memo), reply);
        trace == old(trace) + s.emitted && r == s.result && memo == s.memo
    {
      if memo.Some? {
        return Ok(memo.value);
      }
      trace := trace + [Get(APPS_URL)];
      match reply {
        case AppsTimedOut =>
          r := Ok(map[]);
        case AppsFailed =>
          return Err(RequestError);
        case AppsReceived(None) =>
          return Err(MalformedReply);
        case AppsReceived(Some(nodes)) =>
          r := BuildCatalog(nodes);
          if r.Err? {
            return;
          }
      }
      memo := Some(r.value);
    }

    /** Launch the app called `name`; `launched` is how the launch POST ends. */
    method LaunchApp(name: string, reply: AppsReply, launched: RequestOutcome) returns (r: Result<()>)
      modifies this
      ensures var s := LaunchStep(old(memo), name, reply, launched);
        trace == old(trace) + s.emitted && r == s.result && memo == s.memo
    {
      var listed := ListInstalledApps(reply);
      if listed.Err? {
        return Err(listed.error);
      }
      var apps := listed.value;
      if name !in apps {
        // logged: the app is not installed
        return Ok(());
      }
      trace := trace + [Post(LaunchUrl(apps[name]))];
      // the bare except swallows whatever `launched` raised
      r := Ok(());
    }

    /** A click on a layout element. */
    method Press(element: string, a: Answers) returns (r: Result<()>)
      modifies this
      ensures var s := PressStep(old(memo), element, a);
        trace == old(trace) + s.emitted && r == s.result && memo == s.memo
    {
      match Binding(element) {
        case None =>
          r := Ok(());
        case Some(Keypress(key)) =>
          r := PostKeypress(key, a.firstPost);
        case Some(PowerToggle) =>
          r := PowerButtonKeypress(a.status, a.firstPost, a.secondPost);
        case Some(Launch(name)) =>
          r := LaunchApp(name, a.apps, a.firstPost);
      }
    }
  }

  // ---------------------------------------------------------------------
  // Power toggle
  // ---------------------------------------------------------------------

  /** The number of times `c` occurs in `cmds`. */
  function Occurrences(cmds: seq<Command>, c: Command): nat {
    multiset(cmds)[c]
  }

  /** Every `Power` keypress the toggle sends directly follows a magic packet. */
  predicate WakesBeforePower(cmds: seq<Command>) {
    forall i | 0 <= i < |cmds| && cmds[i] == POWER_PRESS :: i > 0 && cmds[i - 1] == Wake(MAC_ADDRESS)
  }

  lemma PowerPressesDiffer()
    ensures POWER_PRESS != POWER_OFF_PRESS
    ensures Wake(MAC_ADDRESS) != POWER_OFF_PRESS
  {
    KeypressUrlInjective("Power", "PowerOff");
  }

  /** A timed-out status query sends the wake sequence after the query and
      never `PowerOff`; the call ends as the `Power` keypress does. */
  lemma TimeoutWakes(memo: Option<Apps>, first: RequestOutcome, second: RequestOutcome)
    ensures var s := PowerToggleStep(memo, StatusTimedOut, first, second);
      && s.emitted == [Get(DEVICE_INFO_URL), Wake(MAC_ADDRESS), POWER_PRESS]
      && POWER_OFF_PRESS !in s.emitted
      && s.result == Completion(first)
  {
    PowerPressesDiffer();
  }

  /** `DisplayOff` sends the wake sequence in order and never `PowerOff`;
      unless its keypress times out, that is all. */
  lemma DisplayOffWakes(memo: Option<Apps>, first: RequestOutcome, second: RequestOutcome)
    requires first != TimedOut
    ensures var s := PowerToggleStep(memo, StatusReceived(Some(DISPLAY_OFF)), first, second);
      && s.emitted == [Get(DEVICE_INFO_URL), Wake(MAC_ADDRESS), POWER_PRESS]
      && POWER_OFF_PRESS !in s.emitted
      && s.result == Completion(first)
  {
    PowerPressesDiffer();
  }

  /** When the `Power` keypress of the `DisplayOff` branch times out, the
      timeout handler sends the whole wake sequence again, and what the
      second keypress raises (a timeout included) escapes. */
  lemma DisplayOffRetry(memo: Option<Apps>, second: RequestOutcome)
    ensures var s := PowerToggleStep(memo, StatusReceived(Some(DISPLAY_OFF)), TimedOut, second);
      && s.emitted == [Get(DEVICE_INFO_URL), Wake(MAC_ADDRESS), POWER_PRESS, Wake(MAC_ADDRESS), POWER_PRESS]
      && POWER_OFF_PRESS !in s.emitted
      && (s.result == Err(Timeout) <==> second == TimedOut)
      && (s.result.Ok? <==> second == Responded)
      && s.result == Completion(second)
  {
    PowerPressesDiffer();
  }

  /** Any other power mode sends exactly one `PowerOff` keypress and no magic
      packet; a failure of that keypress escapes. */
  lemma AwakeSwitchesOff(memo: Option<Apps>, mode: string, first: RequestOutcome, second: RequestOutcome)
    requires mode != DISPLAY_OFF
    ensures var s := PowerToggleStep(memo, StatusReceived(Some(mode)), first, second);
      && s.emitted == [Get(DEVICE_INFO_URL), POWER_OFF_PRESS]
      && Occurrences(s.emitted, POWER_OFF_PRESS) == 1
      && (forall c | c in s.emitted :: !c.Wake?)
      && s.result == Completion(first)
  {
    EndpointsDistinct("PowerOff", "");
    assert Get(DEVICE_INFO_URL) != POWER_OFF_PRESS;
    assert multiset([Get(DEVICE_INFO_URL), POWER_OFF_PRESS]) == multiset{Get(DEVICE_INFO_URL), POWER_OFF_PRESS};
  }

  /** A status query that fails other than by timeout, or whose reply has no
      readable power mode, raises after the query and sends nothing else. */
  lemma QueryErrorEscapes(memo: Option<Apps>, status: StatusReply, first: RequestOutcome, second: RequestOutcome)
    requires status == StatusFailed || status == StatusReceived(None)
    ensures var s := PowerToggleStep(memo, status, first, second);
      && s.emitted == [Get(DEVICE_INFO_URL)]
      && s.result.Err? && s.result.error != Timeout
  {
  }

  /** Over all answers: the toggle starts with the status query, sends a
      `PowerOff` keypress or a magic packet but never both, keeps every
      `Power` keypress right after a magic packet, and leaves the memo alone. */
  lemma PowerToggleShape(memo: Option<Apps>, status: StatusReply, first: RequestOutcome,
                                            second: RequestOutcome)
    ensures var s := PowerToggleStep(memo, status, first, second);
      && |s.emitted| > 0 && s.emitted[0] == Get(DEVICE_INFO_URL)
      && (POWER_OFF_PRESS in s.emitted ==> Wake(MAC_ADDRESS) !in s.emitted)
      && WakesBeforePower(s.emitted)
      && s.memo == memo
  {
    var s := PowerToggleStep(memo, status, first, second);
    PowerPressesDiffer();
    EndpointsDistinct("Power", "");
    assert Get(DEVICE_INFO_URL) != POWER_PRESS;
    forall i | 0 <= i < |s.emitted| && s.emitted[i] == POWER_PRESS
      ensures i > 0 && s.emitted[i - 1] == Wake(MAC_ADDRESS)
    {
      assert i == 2 || i == 4;
    }
  }

  // ---------------------------------------------------------------------
  // App listing and its memo
  // ---------------------------------------------------------------------

  /** Once the memo is set, a listing sends nothing, returns the memoised
      catalog whatever the device would answer, and keeps the memo. */
  lemma MemoAnswers(apps: Apps, reply: AppsReply)
    ensures ListStep(Some(apps), reply) == Step([], Ok(apps), Some(apps))
  {
  }

  /** Without a memo, a listing sends exactly one query; a listing that
      returns memoises what it returns, and one that raises memoises nothing. */
  lemma FirstListing(reply: AppsReply)
    ensures var s := ListStep(None, reply);
      && s.emitted == [Get(APPS_URL)]
      && (s.result.Ok? ==> s.memo == Some(s.result.value))
      && (s.result.Err? ==> s.memo == None)
  {
  }

  /** A reply the mapping can be read from yields exactly the catalog of its
      nodes: every name of a node, with the identifier of the last node of
      that name. A timeout yields the empty catalog without raising. */
  lemma ListingContents(nodes: seq<AppNode>)
    requires Named(nodes)
    ensures var s := ListStep(None, AppsReceived(Some(nodes)));
      && s.result.Ok? && s.result.value.Keys == Names(nodes)
      && forall i | 0 <= i < |nodes| && (forall j | i < j < |nodes| :: nodes[j].text != nodes[i].text) ::
           s.result.value[nodes[i].text.value] == nodes[i].id
    ensures ListStep(None, AppsTimedOut).result == Ok(map[])
  {
    BuildKeys(nodes);
    forall i | 0 <= i < |nodes| && (forall j | i < j < |nodes| :: nodes[j].text != nodes[i].text)
      ensures nodes[i].text.value in Build(nodes) && Build(nodes)[nodes[i].text.value] == nodes[i].id
    {
      BuildLastWins(nodes, i);
    }
  }

  /** Two listings in a row: after the first returns, the second sends no query
      and returns the same catalog, even the empty one a timeout left. */
  lemma ListTwiceQueriesOnce(memo: Option<Apps>, r1: AppsReply, r2: AppsReply)
    ensures var s1 := ListStep(memo, r1);
      s1.result.Ok? ==> ListStep(s1.memo, r2) == Step([], s1.result, s1.memo)
    ensures var s1 := ListStep(None, AppsTimedOut);
      ListStep(s1.memo, r2) == Step([], Ok(map[]), Some(map[]))
  {
    var s1 := ListStep(memo, r1);
    if s1.result.Ok? {
      if memo.None? {
        FirstListing(r1);
      }
      MemoAnswers(s1.memo.value, r2);
    }
  }

  /** A listing that raises leaves the memo unset, so the next listing queries
      the device again. */
  lemma FailedListingRetries(r1: AppsReply, r2: AppsReply)
    requires ListStep(None, r1).result.Err?
    ensures var s1 := ListStep(None, r1);
      && s1.memo == None
      && ListStep(s1.memo, r2).emitted == [Get(APPS_URL)]
  {
    FirstListing(r2);
  }

  /** There is no invalidation: whatever button is pressed and whatever the
      device answers, a memo once set stays as it is, and a press that finds
      it set queries the app listing no more. */
  lemma MemoNeverChanges(apps: Apps, element: string, a: Answers)
    ensures PressStep(Some(apps), element, a).memo == Some(apps)
    ensures Get(APPS_URL) !in PressStep(Some(apps), element, a).emitted
  {
    EndpointsDistinct("", "");
    match Binding(element)
    case None =>
    case Some(Keypress(key)) =>
      EndpointsDistinct(key, "");
    case Some(PowerToggle) =>
      EndpointsDistinct("Power", "");
      EndpointsDistinct("PowerOff", "");
    case Some(Launch(name)) =>
      MemoAnswers(apps, a.apps);
      if name in apps {
        EndpointsDistinct("", apps[name]);
      }
  }

  // ---------------------------------------------------------------------
  // App launch
  // ---------------------------------------------------------------------

  /** The number of POST requests among `cmds`. */
  function Posts(cmds: seq<Command>): nat {
    if cmds == [] then 0 else (if cmds[0].Post? then 1 else 0) + Posts(cmds[1..])
  }

  /** A launch sends no POST unless the name is in the catalog, and then
      exactly one, last, to the launch URL of the name's identifier; it ends
      normally whatever that POST did (the outcome never changes the step),
      and raises only what the listing raised. */
  lemma LaunchSendsAtMostOne(memo: Option<Apps>, name: string, reply: AppsReply,
                             launched: RequestOutcome, other: RequestOutcome)
    ensures var listed := ListStep(memo, reply);
      var s := LaunchStep(memo, name, reply, launched);
      && Posts(listed.emitted) == 0
      && Posts(s.emitted) == (if listed.result.Ok? && name in listed.result.value then 1 else 0)
      && (listed.result.Ok? && name in listed.result.value ==>
            s.emitted == listed.emitted + [Post(LaunchUrl(listed.result.value[name]))])
      && (s.result.Err? <==> listed.result.Err?)
      && (listed.result.Err? ==> s.result == Err(listed.result.error))
    ensures LaunchStep(memo, name, reply, launched) == LaunchStep(memo, name, reply, other)
  {
    var listed := ListStep(memo, reply);
    var s := LaunchStep(memo, name, reply, launched);
    var p := Post(LaunchUrl(if listed.result.Ok? && name in listed.result.value then listed.result.value[name] else ""));
    if memo.Some? {
      assert Posts([p]) == 1 by { assert [p][1..] == []; }
    } else {
      assert Posts([Get(APPS_URL)]) == 0 by { assert [Get(APPS_URL)][1..] == []; }
      assert [Get(APPS_URL), p][1..] == [p] && [p][1..] == [];
    }
  }

  /** With `Plex` memoised as `12345`, launching it sends exactly one POST to
      `/launch/12345`; a name not in the catalog sends nothing. Both end
      normally, whatever the launch POST did. */
  lemma LaunchExamples(reply: AppsReply, launched: RequestOutcome)
    ensures var s := LaunchStep(Some(map["Plex" := "12345"]), "Plex", reply, launched);
      s.emitted == [Post("http://192.168.3.21:8060/launch/12345")] && s.result == Ok(())
    ensures var s := LaunchStep(Some(map["Plex" := "12345"]), "NoSuchApp", reply, launched);
      s.emitted == [] && s.result == Ok(())
  {
    BaseUrlValue();
    assert "NoSuchApp" != "Plex";
  }

  // ---------------------------------------------------------------------
  // Dispatch
  // ---------------------------------------------------------------------

  /** An element without a handler does nothing: no command, no memo change. */
  lemma UnboundPressIsNoop(memo: Option<Apps>, element: string, a: Answers)
    requires !("app" <= element) && element !in BUTTON_MAPPING
    ensures PressStep(memo, element, a) == Step([], Ok(()), memo)
  {
    UnmappedGetsNoHandler(element);
  }

  /** `app_<name>` launches `<name>`. */
  lemma AppPressLaunches(memo: Option<Apps>, name: string, a: Answers)
    ensures PressStep(memo, "app_" + name, a) == LaunchStep(memo, name, a.apps, a.firstPost)
  {
    AppButtonLaunches(name, "");
  }

  /** A key button sends its table's key name in one keypress and nothing
      else; `ok` sends `Select` and `replay` sends `InstantReplay`. */
  lemma KeyPressSendsKey(memo: Option<Apps>, element: string, a: Answers)
    requires element in BUTTON_MAPPING && BUTTON_MAPPING[element].Keypress?
    ensures PressStep(memo, element, a).emitted == [Post(KeypressUrl(BUTTON_MAPPING[element].key))]
    ensures PressStep(memo, "ok", a).emitted == [Post(KeypressUrl("Select"))]
    ensures PressStep(memo, "replay", a).emitted == [Post(KeypressUrl("InstantReplay"))]
  {
    MappedButtonsBind(element);
    MappedButtonsBind("ok");
    MappedButtonsBind("replay");
  }

  /** The power button runs the power toggle. */
  lemma PowerPressToggles(memo: Option<Apps>, a: Answers)
    ensures PressStep(memo, "power", a) == PowerToggleStep(memo, a.status, a.firstPost, a.secondPost)
  {
    MappedButtonsBind("power");
  }
}
