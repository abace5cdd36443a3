/**
 * The script `netgrowlnotify.py`: the parsed command-line options, the Prowl
 * path (API-key resolution, application label, the post), the Growl path
 * (default port, registration datagram, notification datagram) and the main
 * block (title and message rewriting, time window, choice of path).
 *
 * The options object that the script updates field by field is the class
 * `Options`. Each method that updates it is tied, through `Snapshot()`, to a
 * function of the old values (`Preprocessed`, `ProwlOutcome`, `GrowlOutcome`,
 * `RunOutcome`), and the lemmas below state what the script promises about those.
 */
module Notify {
  import opened Wrappers
  import opened Text
  import opened TimeWindow
  import opened Effects

  /** The values of all option fields at one moment. */
  datatype Settings = Settings(
    name: string,
    sticky: bool,
    message: string,
    priority: int,
    identifier: string,
    host: string,
    password: string,
    port: Option<int>,
    title: string,
    prowl: bool,
    prowlKey: string,
    prowlKeyfile: string,
    timeStart: Option<string>,
    timeEnd: Option<string>)

  /** What the script reads from its surroundings: the basename of `sys.argv[0]`,
      `os.path.expanduser("~")` (`None` where it raises), the files that open for
      reading with their contents, `time.localtime()` and the time parsers. */
  datatype Env = Env(
    basename: string,
    home: Option<string>,
    files: map<string, string>,
    now: TimeTuple,
    strptime: Strptime)

  /** The options after a step, what the step added to the trace, and the exit status. */
  datatype Outcome = Outcome(settings: Settings, events: seq<Event>, code: int)

  const KeyfileName: string := ".prowlkey"
  const MissingKeyMessage: string := "please provide Prowl API key using --prowl-key or --prowl-keyfile\n"

  // ---------------------------------------------------------------------
  // Prowl API key

  /** The key file in effect: the option, or `~/.prowlkey` when the option is
      empty; still empty when the home directory cannot be found. */
  function DefaultedKeyfile(keyfile: string, home: Option<string>): string
  {
    if keyfile != "" then keyfile
    else match home
      case Some(h) => JoinPath(h, KeyfileName)
      case None => ""
  }

  /** The key a readable key file gives: its first line, trailing whitespace stripped. */
  function FileKey(content: string): string
  {
    RStrip(ReadLine(content))
  }

  datatype KeyState = KeyState(key: string, keyfile: string)

  /** The API key and key-file option once resolution is over: the explicit key
      first, then the password, then the key file (the default one when none is
      named), and the empty key when all of them fail. */
  function ResolvedKey(key: string, password: string, keyfile: string, env: Env): KeyState
  {
    if key != "" then KeyState(key, keyfile)
    else if password != "" then KeyState(password, keyfile)
    else
      var path := DefaultedKeyfile(keyfile, env.home);
      KeyState(if path != "" && path in env.files then FileKey(env.files[path]) else "", path)
  }

  /** The key ends up empty exactly when no key and no password were given and
      either no key-file path can be formed (empty option, unknown home), or
      the file does not open, or its first line is only whitespace. */
  lemma ResolvedKeyEmpty(key: string, password: string, keyfile: string, env: Env)
    ensures var path := DefaultedKeyfile(keyfile, env.home);
      ResolvedKey(key, password, keyfile, env).key == "" <==>
        key == "" && password == "" &&
        (path == "" || path !in env.files || AllSpace(ReadLine(env.files[path])))
  {
    var path := DefaultedKeyfile(keyfile, env.home);
    if key == "" && password == "" {
      if keyfile == "" && env.home.Some? {
        assert |path| >= |KeyfileName|;
      }
      if path != "" && path in env.files {
        RStripEmpty(ReadLine(env.files[path]));
        assert ResolvedKey(key, password, keyfile, env).key == FileKey(env.files[path]);
      }
    }
  }

  /** A key read from a file is a prefix of the file, holds no newline and does
      not end in whitespace. */
  lemma FileKeyShape(content: string)
    ensures FileKey(content) <= content
    ensures '\n' !in FileKey(content)
    ensures |FileKey(content)| == 0 || !IsSpace(FileKey(content)[|FileKey(content)| - 1])
  {
    StrippedLineHasNoNewline(content);
  }

  /** The default key file, when it is used, is `.prowlkey` in the home directory. */
  lemma DefaultKeyfilePath(home: string)
    ensures var path := DefaultedKeyfile("", Some(home));
      path != "" && path[|path| - |KeyfileName|..] == KeyfileName &&
      (path[..|path| - |KeyfileName|] == home || path[..|path| - |KeyfileName|] == home + "/")
  {
  }

  // ---------------------------------------------------------------------
  // Prowl application label

  /** The label the post carries as its application. */
  function ApplicationLabel(name: string, basename: string, identifier: string): string
  {
    if identifier == "" then name
    else if name == basename then identifier
    else name + ": " + identifier
  }

  /** The label, built as the script builds it, by successive reassignments. */
  method ComposeApplication(name: string, basename: string, identifier: string) returns (application: string)
    ensures name != basename && identifier != "" ==> application == name + ": " + identifier
    ensures name == basename && identifier != "" ==> application == identifier
    ensures identifier == "" ==> application == name
    ensures application == ApplicationLabel(name, basename, identifier)
  {
    application := "";
    if name != basename {
      application := name;
      if identifier != "" {
        application := application + ": ";
      }
    }
    if identifier != "" {
      application := application + identifier;
    }
    if application == "" {
      application := name;
    }
  }

  // ---------------------------------------------------------------------
  // the steps as functions of the options

  /** The main block's rewriting of title and message. */
  function Preprocessed(s: Settings, args: seq<string>): Settings
  {
    s.(title := s.title + " " + Join(" ", args), message := Unescape(s.message))
  }

  /** `prowlnotify`: resolve the key, then either stop with status 3 or post once. */
  function ProwlOutcome(s: Settings, env: Env): Outcome
  {
    var k := ResolvedKey(s.prowlKey, s.password, s.prowlKeyfile, env);
    var after := s.(prowlKey := k.key, prowlKeyfile := k.keyfile);
    if k.key == "" then Outcome(after, [Stderr(MissingKeyMessage)], 3)
    else
      Outcome(after,
        [ProwlPost(k.key, ApplicationLabel(s.name, env.basename, s.identifier), s.title, s.message, s.priority)],
        0)
  }

  /** `netgrowlnotify`: default the port, then send the registration and the
      notification to the same address. */
  function GrowlOutcome(s: Settings): Outcome
  {
    var port := if s.port.None? then GrowlUdpPort else s.port.value;
    var registration := AddNotification(NewRegistration(s.name, s.password), s.identifier);
    var notification := Notification(s.name, s.identifier, s.title, s.message, s.priority, s.sticky, s.password);
    Outcome(s.(port := Some(port)), [Datagram(s.host, port, registration), Datagram(s.host, port, notification)], 0)
  }

  /** The main block after option parsing. */
  function RunOutcome(s: Settings, args: seq<string>, env: Env): Outcome
  {
    var p := Preprocessed(s, args);
    match WindowGate(env.now, p.timeStart, p.timeEnd, env.strptime)
    case Unparsable(m) => Outcome(p, [Uncaught(m)], 1)
    case Skip(printed) => Outcome(p, if printed == "" then [] else [Stdout(printed)], 0)
    case Proceed => if p.prowl then ProwlOutcome(p, env) else GrowlOutcome(p)
  }

  // ---------------------------------------------------------------------
  // the options object

  class Options {
    var name: string
    var sticky: bool
    var message: string
    var priority: int
    var identifier: string
    var host: string
    var password: string
    var port: Option<int>
    var title: string
    var prowl: bool
    var prowlKey: string
    var prowlKeyfile: string
    var timeStart: Option<string>
    var timeEnd: Option<string>

    function Snapshot(): Settings
      reads this
    {
      Settings(name, sticky, message, priority, identifier, host, password, port, title,
               prowl, prowlKey, prowlKeyfile, timeStart, timeEnd)
    }

    /** The options as `parser.parse_args()` returns them. */
    constructor (s: Settings)
      ensures Snapshot() == s
    {
      name, sticky, message, priority, identifier := s.name, s.sticky, s.message, s.priority, s.identifier;
      host, password, port, title, prowl := s.host, s.password, s.port, s.title, s.prowl;
      prowlKey, prowlKeyfile, timeStart, timeEnd := s.prowlKey, s.prowlKeyfile, s.timeStart, s.timeEnd;
    }

    /** The title gets the positional arguments, the message its newlines. */
    method Preprocess(args: seq<string>)
      modifies this
      ensures Snapshot() == Preprocessed(old(Snapshot()), args)
    {
      title := title + " " + Join(" ", args);
      message := Unescape(message);
    }

    /** The key resolution at the start of `prowlnotify`. */
    method ResolveProwlKey(env: Env)
      modifies this`prowlKey, this`prowlKeyfile
      ensures KeyState(prowlKey, prowlKeyfile) == ResolvedKey(old(prowlKey), password, old(prowlKeyfile), env)
      ensures old(prowlKey) != "" ==> prowlKey == old(prowlKey) && prowlKeyfile == old(prowlKeyfile)
      ensures old(prowlKey) == "" && password != "" ==> prowlKey == password && prowlKeyfile == old(prowlKeyfile)
      ensures old(prowlKey) == "" && password == "" ==>
        prowlKeyfile == DefaultedKeyfile(old(prowlKeyfile), env.home) &&
        prowlKey == (if prowlKeyfile != "" && prowlKeyfile in env.files then FileKey(env.files[prowlKeyfile]) else "")
    {
      if prowlKey == "" && password != "" {
        prowlKey := password;
      }
      if prowlKey == "" {
        if prowlKeyfile == "" {
          match env.home {
            case Some(h) => prowlKeyfile := JoinPath(h, KeyfileName);
            case None =>
          }
        }
        if prowlKeyfile != "" {
          if prowlKeyfile in env.files {
            prowlKey := FileKey(env.files[prowlKeyfile]);
          }
        }
      }
    }

    /** `prowlnotify`. */
    method ProwlNotify(env: Env, trace: Trace) returns (code: int)
      modifies this, trace
      ensures var o := ProwlOutcome(old(Snapshot()), env);
        Snapshot() == o.settings && trace.events == old(trace.events) + o.events && code == o.code
    {
      ResolveProwlKey(env);
      if prowlKey == "" {
        trace.Emit(Stderr(MissingKeyMessage));
        return 3;
      }
      var application := ComposeApplication(name, env.basename, identifier);
      trace.Emit(ProwlPost(prowlKey, application, title, message, priority));
      return 0;
    }

    /** `netgrowlnotify`. */
    method NetGrowlNotify(trace: Trace)
      modifies this`port, trace
      ensures var o := GrowlOutcome(old(Snapshot()));
        Snapshot() == o.settings && trace.events == old(trace.events) + o.events
    {
      if port == None {
        port := Some(GrowlUdpPort);
      }
      var addrHost, addrPort := host, port.value;
      var r := NewRegistration(name, password);
      r := AddNotification(r, identifier);
      SendMessage(trace, r, addrHost, addrPort);
      var p := Notification(name, identifier, title, message, priority, sticky, password);
      SendMessage(trace, p, addrHost, addrPort);
    }
  }

  /** The main block after `parser.parse_args()`; returns the exit status. */
  method Run(opts: Options, args: seq<string>, env: Env, trace: Trace) returns (code: int)
    modifies opts, trace
    ensures var o := RunOutcome(old(opts.Snapshot()), args, env);
      opts.Snapshot() == o.settings && trace.events == old(trace.events) + o.events && code == o.code
  {
    opts.Preprocess(args);
    if opts.timeStart != None || opts.timeEnd != None {
      var now := env.now;
      if opts.timeStart != None {
        var mintime := ParseTime(env.strptime, opts.timeStart.value);
        if mintime.Err? {
          trace.Emit(Uncaught(mintime.error));
          return 1;
        }
        if Precedes(now, mintime.value) {
          return 0;
        }
      }
      if opts.timeEnd != None {
        var maxtime := ParseTime(env.strptime, opts.timeEnd.value);
        if maxtime.Err? {
          trace.Emit(Uncaught(maxtime.error));
          return 1;
        }
        if Precedes(maxtime.value, now) {
          trace.Emit(Stdout(TooLate));
          return 0;
        }
      }
    }
    if opts.prowl {
      code := opts.ProwlNotify(env, trace);
    } else {
      opts.NetGrowlNotify(trace);
      code := 0;
    }
  }

  // ---------------------------------------------------------------------
  // what the script promises

  /** The title is the old title, one space, then the positional arguments
      joined by spaces; space-free arguments can be read back from it. */
  lemma TitleJoinsArguments(s: Settings, args: seq<string>)
    ensures var t := Preprocessed(s, args).title;
      |t| > |s.title| && t[..|s.title| + 1] == s.title + " " && ' ' in t
    ensures |args| > 0 && (forall i :: 0 <= i < |args| ==> ' ' !in args[i]) ==>
      Split(Preprocessed(s, args).title[|s.title| + 1..], ' ') == args
  {
    var t := Preprocessed(s, args).title;
    assert t[|s.title|] == ' ';
    if |args| > 0 && (forall i :: 0 <= i < |args| ==> ' ' !in args[i]) {
      assert t[|s.title| + 1..] == Join([' '], args);
      SplitJoin(args, ' ');
    }
  }

  /** No backslash-n survives in the message; escaping the new message gives
      the escaped old one, for every message, so nothing but backslash-n
      changes; a message that had no backslash-n is kept as it is, and one
      that had no newline is restored by escaping. */
  lemma MessageUnescaped(s: Settings, args: seq<string>)
    ensures !HasEscape(Preprocessed(s, args).message)
    ensures !HasEscape(s.message) ==> Preprocessed(s, args).message == s.message
    ensures '\n' !in s.message ==> Escape(Preprocessed(s, args).message) == s.message
    ensures Escape(Preprocessed(s, args).message) == Escape(s.message)
  {
    UnescapeLeavesNoEscape(s.message);
    EscapeUnescapeAll(s.message);
    if !HasEscape(s.message) {
      UnescapeIdentity(s.message);
    }
    if '\n' !in s.message {
      EscapeUnescape(s.message);
    }
  }

  /** Preprocessing changes the title and message and nothing else. */
  lemma PreprocessedFrame(s: Settings, args: seq<string>)
    ensures var p := Preprocessed(s, args);
      p.(title := s.title, message := s.message) == s
  {
  }

  /** The Prowl path stops with status 3, posting nothing, exactly when the key
      resolves to empty; otherwise it posts once, with the resolved key, the
      composed label and the title, message and priority unchanged. */
  lemma ProwlPostOrExit3(s: Settings, env: Env)
    ensures var o := ProwlOutcome(s, env);
      var k := ResolvedKey(s.prowlKey, s.password, s.prowlKeyfile, env);
      (o.code == 3 <==> k.key == "") &&
      (o.code == 3 ==> NoSends(o.events)) &&
      (o.code != 3 ==> (o.code == 0 && o.events ==
         [ProwlPost(k.key, ApplicationLabel(s.name, env.basename, s.identifier), s.title, s.message, s.priority)]))
    ensures ProwlOutcome(s, env).settings ==
      s.(prowlKey := ProwlOutcome(s, env).settings.prowlKey, prowlKeyfile := ProwlOutcome(s, env).settings.prowlKeyfile)
  {
  }

  /** A key file whose first line is blank ends the Prowl path with status 3
      when no key or password was given. */
  lemma BlankKeyLineExits3(s: Settings, env: Env)
    requires s.prowlKey == "" && s.password == ""
    requires DefaultedKeyfile(s.prowlKeyfile, env.home) in env.files
    requires AllSpace(ReadLine(env.files[DefaultedKeyfile(s.prowlKeyfile, env.home)]))
    ensures ProwlOutcome(s, env).code == 3 && NoSends(ProwlOutcome(s, env).events)
  {
    ResolvedKeyEmpty(s.prowlKey, s.password, s.prowlKeyfile, env);
  }

  /** The Growl path: the port defaults only when none was given, and exactly
      two datagrams go to the same address, a registration declaring only the
      identifier, then the notification with the option values unchanged. */
  lemma GrowlTwoDatagrams(s: Settings)
    ensures var o := GrowlOutcome(s);
      o.settings.port == (if s.port.None? then Some(GrowlUdpPort) else s.port) &&
      o.settings.(port := s.port) == s &&
      |o.events| == 2 &&
      o.events[0].Datagram? && o.events[1].Datagram? &&
      o.events[0].host == o.events[1].host == s.host &&
      o.events[0].port == o.events[1].port == o.settings.port.value &&
      o.events[0].packet == Registration(s.name, s.password, [Declared(s.identifier, true)]) &&
      o.events[1].packet ==
        Notification(s.name, s.identifier, s.title, s.message, s.priority, s.sticky, s.password)
  {
  }

  /** Outside the time window nothing is sent: the run ends with status 1 on a
      bound that does not parse, and with status 0 otherwise. */
  lemma GatedRunSendsNothing(s: Settings, args: seq<string>, env: Env)
    requires var p := Preprocessed(s, args);
      !WindowGate(env.now, p.timeStart, p.timeEnd, env.strptime).Proceed?
    ensures NoSends(RunOutcome(s, args, env).events)
    ensures RunOutcome(s, args, env).code ==
      if WindowGate(env.now, s.timeStart, s.timeEnd, env.strptime).Unparsable? then 1 else 0
  {
  }

  /** When the given bounds parse, the run ends with status 0 having sent
      nothing exactly when the time precedes a given start or follows a given end. */
  lemma SkippedExactlyOutsideWindow(s: Settings, args: seq<string>, env: Env)
    requires Parses(s.timeStart, env.strptime) && Parses(s.timeEnd, env.strptime)
    ensures var o := RunOutcome(s, args, env);
      (NoSends(o.events) && o.code == 0) <==>
        (s.timeStart.Some? && Precedes(env.now, ParsedTime(env.strptime, s.timeStart.value).value)) ||
        (s.timeEnd.Some? && Precedes(ParsedTime(env.strptime, s.timeEnd.value).value, env.now))
  {
    var p := Preprocessed(s, args);
    GateSkipsExactly(env.now, p.timeStart, p.timeEnd, env.strptime);
    var o := RunOutcome(s, args, env);
    if WindowGate(env.now, p.timeStart, p.timeEnd, env.strptime).Proceed? {
      assert IsSend(o.events[0]) || o.code != 0;
    }
  }

  /** Inside the window, `--prowl` chooses the Prowl path and its absence the
      Growl path; nothing of the other path happens. */
  lemma DispatchByProtocol(s: Settings, args: seq<string>, env: Env)
    requires var p := Preprocessed(s, args);
      WindowGate(env.now, p.timeStart, p.timeEnd, env.strptime).Proceed?
    ensures var o := RunOutcome(s, args, env);
      s.prowl ==> (o == ProwlOutcome(Preprocessed(s, args), env) &&
                   forall i :: 0 <= i < |o.events| ==> !o.events[i].Datagram?)
    ensures var o := RunOutcome(s, args, env);
      !s.prowl ==> (o == GrowlOutcome(Preprocessed(s, args)) &&
                    forall i :: 0 <= i < |o.events| ==> !o.events[i].ProwlPost?)
  {
  }

  /** Growl scenario: `netgrowlnotify.py -n Test -d Alert -m Hello Hi` sends a
      registration for "Test" declaring "Alert", then the notification, both to
      localhost on the default port; the title carries the separating space. */
  lemma GrowlScenario(env: Env)
    ensures var s := Settings("Test", false, "Hello", 0, "Alert", "localhost", "", None, "", false,
                              "", "", None, None);
      RunOutcome(s, ["Hi"], env).code == 0 &&
      RunOutcome(s, ["Hi"], env).events == [
        Datagram("localhost", 9887, Registration("Test", "", [Declared("Alert", true)])),
        Datagram("localhost", 9887, Notification("Test", "Alert", " Hi", "Hello", 0, false, ""))]
  {
    assert Unescape("Hello") == "Hello";
    assert Join(" ", ["Hi"]) == "Hi";
    assert "" + " " + "Hi" == " Hi";
  }
}
