/**
 The session protocol of the Redis sink (`src/sinks/redis_ts.cpp`) as functions on a session value:
 connect, AUTH, SELECT, TS.CREATE, TS.MADD, one retry, and two latches. The server is a script of
 arbitrary answers, consumed one per connect or command; everything issued goes to a log.
 */
module RedisSession {
  import opened Wrappers
  import opened Numeric
  import opened SignalFrame
  import opened RedisPayload

  /** `redisReply`: none at all, or one of error or other type, whose text may be absent. */
  datatype Reply = NoReply | Accepted(text: Option<string>) | Error(text: Option<string>)

  /** What the outside world does at one step; `err` is the context's error flag afterwards. */
  datatype Answer = Answer(connected: bool, reply: Reply, err: bool, nowMs: U64, latencyMs: real)

  type Script = nat -> Answer

  datatype Creation = Created | UnknownCommand | Refused | Lost

  datatype Address = UnixSocket(path: string) | Host(name: string, port: nat)

  /** A configured socket path takes precedence over host and port. */
  function AddressOf(options: RedisTsOptions): Address {
    if options.unixSocket != "" then UnixSocket(options.unixSocket) else Host(options.host, options.port)
  }

  /** `timeval`. */
  datatype Timeout = Timeout(seconds: nat, microseconds: nat)

  function TimeoutOf(options: RedisTsOptions): Timeout {
    Timeout(options.connectTimeoutMs / 1000, options.connectTimeoutMs % 1000 * 1000)
  }

  /** Splitting the timeout loses nothing, and the second part is less than a second. */
  lemma TimeoutIsExact(options: RedisTsOptions)
    ensures var t := TimeoutOf(options);
            t.seconds * 1000000 + t.microseconds == options.connectTimeoutMs * 1000 && t.microseconds < 1000000
  {
  }

  datatype Event =
    | Connect(address: Address, timeout: Timeout, ok: bool)
    | Auth(ok: bool)
    | SelectDb(ok: bool)
    | Create(key: string, outcome: Creation)
    | Madd(args: seq<string>, ok: bool)

  /** `context_` with its error flag, `schema_ready_`, `timeseries_available_`, and the outside trace. */
  datatype Session = Session(context: Option<bool>, ready: bool, available: bool, asked: nat, log: seq<Event>)

  const NEW_SESSION := Session(None, false, true, 0, [])

  datatype Outcome = Outcome(session: Session, ok: bool)

  function Contains(s: string, part: string): bool {
    part <= s || (s != "" && Contains(s[1..], part))
  }

  function CreationOf(reply: Reply): Creation {
    match reply
    case NoReply => Lost
    case Accepted(_) => Created
    case Error(text) =>
      if text.Some? && Contains(text.value, "unknown command") then UnknownCommand
      else if text.Some? && Contains(text.value, "already exists") then Created
      else Refused
  }

  lemma {:induction false} ContainsIffSomewhere(s: string, part: string)
    ensures Contains(s, part) <==> exists i :: 0 <= i <= |s| && part <= s[i..]
  {
    if part <= s {
      assert s[0..] == s;
    } else if s != "" {
      ContainsIffSomewhere(s[1..], part);
      if i :| 0 <= i <= |s[1..]| && part <= s[1..][i..] {
        assert s[i + 1..] == s[1..][i..];
      }
      if i :| 0 <= i <= |s| && part <= s[i..] {
        assert s[0..] == s;
        assert s[1..][i - 1..] == s[i..];
      }
    }
  }

  ghost predicate Mentions(text: Option<string>, part: string) {
    text.Some? && exists i :: 0 <= i <= |text.value| && part <= text.value[i..]
  }

  /** When a key counts as created, and when the module counts as missing, in terms of the reply text. */
  lemma {:induction false} CreationMeaning(reply: Reply)
    ensures CreationOf(reply) == Created <==>
            reply.Accepted?
            || (reply.Error? && Mentions(reply.text, "already exists") && !Mentions(reply.text, "unknown command"))
    ensures CreationOf(reply) == UnknownCommand <==> reply.Error? && Mentions(reply.text, "unknown command")
  {
    hide Contains;
    if reply.Error? && reply.text.Some? {
      ContainsIffSomewhere(reply.text.value, "already exists");
      ContainsIffSomewhere(reply.text.value, "unknown command");
    }
  }

  function Issue(s: Session, a: Answer, e: Event): Session {
    s.(context := Some(a.err), asked := s.asked + 1, log := s.log + [e])
  }

  function Dial(setup: Setup, script: Script, s: Session): Session {
    var ok := script(s.asked).connected;
    s.(context := if ok then Some(false) else None, asked := s.asked + 1,
       log := s.log + [Connect(AddressOf(setup.options), TimeoutOf(setup.options), ok)])
  }

  function Authenticate(setup: Setup, script: Script, s: Session): Outcome {
    if setup.options.password == "" then Outcome(s, true) else
    var a := script(s.asked);
    Outcome(Issue(s, a, Auth(a.reply.Accepted?)), a.reply.Accepted?)
  }

  function ChooseDb(setup: Setup, script: Script, s: Session): Outcome {
    if setup.options.db == 0 then Outcome(s, true) else
    var a := script(s.asked);
    Outcome(Issue(s, a, SelectDb(a.reply.Accepted?)), a.reply.Accepted?)
  }

  function CreateFrom(setup: Setup, script: Script, s: Session, i: nat): Outcome
    requires i <= |setup.enabled|
    decreases |setup.enabled| - i
  {
    if i == |setup.enabled| then Outcome(s.(ready := true), true) else
    var a := script(s.asked);
    var outcome := CreationOf(a.reply);
    var next := Issue(s, a, Create(Key(setup, setup.enabled[i]), outcome));
    if outcome == UnknownCommand then Outcome(next.(available := false), false)
    else if outcome == Created then CreateFrom(setup, script, next, i + 1)
    else Outcome(next, false)
  }

  function EnsureSchema(setup: Setup, script: Script, s: Session): Outcome {
    if s.ready then Outcome(s, true) else CreateFrom(setup, script, s, 0)
  }

  function Dropped(s: Session): Outcome {
    Outcome(s.(context := None), false)
  }

  function Reconnect(setup: Setup, script: Script, s: Session): Outcome {
    var dialled := Dial(setup, script, s);
    if dialled.context.None? then Outcome(dialled, false) else
    var authenticated := Authenticate(setup, script, dialled);
    if !authenticated.ok then Dropped(authenticated.session) else
    var selected := ChooseDb(setup, script, authenticated.session);
    if !selected.ok then Dropped(selected.session) else
    var created := EnsureSchema(setup, script, selected.session);
    if !created.ok then Dropped(created.session) else created
  }

  function EnsureConnected(setup: Setup, script: Script, s: Session): Outcome {
    if !s.available then Outcome(s, false)
    else if s.context == Some(false) then Outcome(s, true)
    else Reconnect(setup, script, s)
  }

  datatype Publication = Publication(session: Session, frame: Frame, ok: bool)

  function PublishOnce(setup: Setup, script: Script, s: Session, f: Frame): Publication {
    var a := script(s.asked);
    Publication(Issue(s, a, Madd(Payload(setup, a.nowMs, f), a.reply.Accepted?)),
                f.(agent := f.agent.(redisLatencyMs := a.latencyMs)), a.reply.Accepted?)
  }

  function Publish(setup: Setup, script: Script, s: Session, f: Frame): Publication {
    var connected := EnsureConnected(setup, script, s);
    if !connected.ok then Publication(connected.session, f, false) else
    var first := PublishOnce(setup, script, connected.session, f);
    if first.ok then first else
    var again := Reconnect(setup, script, first.session);
    if !again.ok then Publication(again.session, first.frame, false) else
    PublishOnce(setup, script, again.session, first.frame)
  }

  // ------------------------------------------------------------- whole runs

  datatype Operation = CheckConnectivity | PublishFrame(frame: Frame)

  function Perform(setup: Setup, script: Script, s: Session, op: Operation): Session {
    match op
    case CheckConnectivity => EnsureConnected(setup, script, s).session
    case PublishFrame(frame) => Publish(setup, script, s, frame).session
  }

  function RunFrom(setup: Setup, script: Script, s: Session, ops: seq<Operation>): Session {
    if ops == [] then s else Perform(setup, script, RunFrom(setup, script, s, ops[..|ops| - 1]), ops[|ops| - 1])
  }

  function Run(setup: Setup, script: Script, ops: seq<Operation>): Session {
    RunFrom(setup, script, NEW_SESSION, ops)
  }

  // ---------------------------------------------------- what an observer knows

  /** Read off the log alone: what the newest connection has been through, and which keys exist. */
  datatype Seen = Seen(connected: bool, authenticated: bool, selected: bool, created: set<string>)

  function Observe(seen: Seen, e: Event): Seen {
    match e
    case Connect(_, _, ok) => Seen(ok, false, false, seen.created)
    case Auth(ok) => seen.(authenticated := ok)
    case SelectDb(ok) => seen.(selected := ok)
    case Create(key, outcome) => if outcome == Created then seen.(created := seen.created + {key}) else seen
    case Madd(_, _) => seen
  }

  function SeenIn(log: seq<Event>): Seen {
    if log == [] then Seen(false, false, false, {}) else Observe(SeenIn(log[..|log| - 1]), log[|log| - 1])
  }

  predicate Open(setup: Setup, seen: Seen) {
    && seen.connected
    && (setup.options.password != "" ==> seen.authenticated)
    && (setup.options.db != 0 ==> seen.selected)
  }

  ghost predicate IsPayload(setup: Setup, args: seq<string>) {
    exists timestampMs: nat, f: Frame :: args == Payload(setup, timestampMs, f)
  }

  /** Connects go to the configured address; a TS.MADD needs an open connection and exactly the enabled keys. */
  ghost predicate Permitted(setup: Setup, seen: Seen, e: Event) {
    && (e.Connect? ==>
          e.address == AddressOf(setup.options) && e.timeout == TimeoutOf(setup.options))
    && (e.Madd? ==> Open(setup, seen) && seen.created == CreatedKeys(setup) && IsPayload(setup, e.args))
  }

  ghost predicate Safe(setup: Setup, log: seq<Event>) {
    forall i :: 0 <= i < |log| ==> Permitted(setup, SeenIn(log[..i]), log[i])
  }

  lemma SeenSnoc(log: seq<Event>, e: Event)
    ensures SeenIn(log + [e]) == Observe(SeenIn(log), e)
  {
    assert (log + [e])[..|log|] == log;
  }

  lemma SafeSnoc(setup: Setup, log: seq<Event>, e: Event)
    requires Safe(setup, log) && Permitted(setup, SeenIn(log), e)
    ensures Safe(setup, log + [e])
  {
    hide Permitted, SeenIn;
    forall i | 0 <= i < |log + [e]|
      ensures Permitted(setup, SeenIn((log + [e])[..i]), (log + [e])[i])
    {
      assert (log + [e])[..i] == log[..i];
      assert i == |log| ==> log[..i] == log;
    }
  }

  // -------------------------------------------------------- the session invariant

  ghost predicate SafeSoFar(setup: Setup, s: Session) {
    && Safe(setup, s.log)
    && SeenIn(s.log).created <= CreatedKeys(setup)
    && (s.ready ==> s.available && SeenIn(s.log).created == CreatedKeys(setup))
  }

  /** Between operations: a kept context has been through the whole handshake, and the latches exclude each other. */
  ghost predicate Invariant(setup: Setup, s: Session) {
    && SafeSoFar(setup, s)
    && (s.context.Some? ==> s.ready && Open(setup, SeenIn(s.log)))
  }

  lemma EventKeepsSafe(setup: Setup, s: Session, next: Session, e: Event)
    requires SafeSoFar(setup, s) && next.log == s.log + [e] && next.ready == s.ready && next.available == s.available
    requires Permitted(setup, SeenIn(s.log), e)
    requires e.Create? ==> e.key in CreatedKeys(setup)
    ensures SafeSoFar(setup, next) && SeenIn(next.log) == Observe(SeenIn(s.log), e)
  {
    hide Permitted, CreatedKeys, SeenIn, Safe;
    SeenSnoc(s.log, e);
    SafeSnoc(setup, s.log, e);
  }

  lemma {:induction false} CreateKeepsSafe(setup: Setup, script: Script, s: Session, i: nat)
    requires i <= |setup.enabled| && SafeSoFar(setup, s) && !s.ready && s.available && Open(setup, SeenIn(s.log))
    requires forall j :: 0 <= j < i ==> Key(setup, setup.enabled[j]) in SeenIn(s.log).created
    ensures var r := CreateFrom(setup, script, s, i);
            && SafeSoFar(setup, r.session) && Open(setup, SeenIn(r.session.log))
            && (r.ok <==> r.session.ready) && s.log <= r.session.log
    decreases |setup.enabled| - i
  {
    hide Safe, SeenIn, Key, CreationOf;
    if i == |setup.enabled| {
      assert CreatedKeys(setup) <= SeenIn(s.log).created;
    } else {
      var a := script(s.asked);
      var key, outcome := Key(setup, setup.enabled[i]), CreationOf(a.reply);
      var next := Issue(s, a, Create(key, outcome));
      assert key in CreatedKeys(setup);
      EventKeepsSafe(setup, s, next, Create(key, outcome));
      if outcome == Created {
        CreateKeepsSafe(setup, script, next, i + 1);
      }
    }
  }

  lemma SchemaKeepsSafe(setup: Setup, script: Script, s: Session)
    requires SafeSoFar(setup, s) && s.available && Open(setup, SeenIn(s.log))
    ensures var r := EnsureSchema(setup, script, s);
            && SafeSoFar(setup, r.session) && Open(setup, SeenIn(r.session.log))
            && (r.ok <==> r.session.ready) && (r.ok && !s.ready ==> s.log <= r.session.log)
  {
    hide Safe, SeenIn, CreateFrom, CreatedKeys;
    if !s.ready {
      CreateKeepsSafe(setup, script, s, 0);
    }
  }

  lemma ReconnectKeepsInvariant(setup: Setup, script: Script, s: Session)
    requires SafeSoFar(setup, s) && s.available
    ensures var r := Reconnect(setup, script, s);
            && Invariant(setup, r.session) && (r.ok <==> r.session.context.Some?)
  {
    hide Safe, SeenIn, EnsureSchema, CreatedKeys;
    var dialled := Dial(setup, script, s);
    EventKeepsSafe(setup, s, dialled,
                   Connect(AddressOf(setup.options), TimeoutOf(setup.options), script(s.asked).connected));
    if dialled.context.Some? {
      var authenticated := Authenticate(setup, script, dialled);
      if setup.options.password != "" {
        EventKeepsSafe(setup, dialled, authenticated.session, Auth(authenticated.ok));
      }
      if authenticated.ok {
        var selected := ChooseDb(setup, script, authenticated.session);
        if setup.options.db != 0 {
          EventKeepsSafe(setup, authenticated.session, selected.session, SelectDb(selected.ok));
        }
        if selected.ok {
          SchemaKeepsSafe(setup, script, selected.session);
          ContextKept(setup, script, selected.session);
        }
      }
    }
  }

  lemma {:induction false} ContextKept(setup: Setup, script: Script, s: Session)
    requires s.context.Some?
    ensures EnsureSchema(setup, script, s).session.context.Some?
  {
    CreateKeepsContext(setup, script, s, 0);
  }

  lemma {:induction false} CreateKeepsContext(setup: Setup, script: Script, s: Session, i: nat)
    requires s.context.Some? && i <= |setup.enabled|
    ensures CreateFrom(setup, script, s, i).session.context.Some?
    decreases |setup.enabled| - i
  {
    hide CreationOf, Key;
    if i < |setup.enabled| {
      var a := script(s.asked);
      CreateKeepsContext(setup, script, Issue(s, a, Create(Key(setup, setup.enabled[i]), CreationOf(a.reply))), i + 1);
    }
  }

  lemma ConnectedKeepsInvariant(setup: Setup, script: Script, s: Session)
    requires Invariant(setup, s)
    ensures var r := EnsureConnected(setup, script, s);
            && Invariant(setup, r.session) && (r.ok ==> r.session.context.Some?)
  {
    hide SafeSoFar, Reconnect, SeenIn;
    if s.available && s.context != Some(false) {
      ReconnectKeepsInvariant(setup, script, s);
    }
  }

  lemma PublishOnceKeepsInvariant(setup: Setup, script: Script, s: Session, f: Frame)
    requires Invariant(setup, s) && s.context.Some?
    ensures Invariant(setup, PublishOnce(setup, script, s, f).session)
  {
    hide Safe, SeenIn, CreatedKeys, Payload;
    var a := script(s.asked);
    var e := Madd(Payload(setup, a.nowMs, f), a.reply.Accepted?);
    assert IsPayload(setup, e.args);
    EventKeepsSafe(setup, s, PublishOnce(setup, script, s, f).session, e);
  }

  lemma InvariantParts(setup: Setup, s: Session)
    requires Invariant(setup, s)
    ensures SafeSoFar(setup, s) && (s.context.Some? ==> s.ready) && (s.ready ==> s.available)
  {
  }

  lemma PublishKeepsInvariant(setup: Setup, script: Script, s: Session, f: Frame)
    requires Invariant(setup, s)
    ensures Invariant(setup, Publish(setup, script, s, f).session)
  {
    hide Invariant, EnsureConnected, Reconnect, PublishOnce;
    var connected := EnsureConnected(setup, script, s);
    ConnectedKeepsInvariant(setup, script, s);
    if connected.ok {
      var first := PublishOnce(setup, script, connected.session, f);
      PublishOnceKeepsInvariant(setup, script, connected.session, f);
      InvariantParts(setup, connected.session);
      SameLatches(setup, script, connected.session, f);
      if !first.ok {
        InvariantParts(setup, first.session);
        ReconnectKeepsInvariant(setup, script, first.session);
        var again := Reconnect(setup, script, first.session);
        if again.ok {
          PublishOnceKeepsInvariant(setup, script, again.session, first.frame);
        }
      }
    }
  }

  lemma SameLatches(setup: Setup, script: Script, s: Session, f: Frame)
    ensures PublishOnce(setup, script, s, f).session.available == s.available
    ensures PublishOnce(setup, script, s, f).session.ready == s.ready
  {
  }

  lemma NewSessionInvariant(setup: Setup)
    ensures Invariant(setup, NEW_SESSION)
  {
  }

  /**
   Every reachable session, whatever the server answers: every TS.MADD so far was sent on a connection
   that had passed AUTH and SELECT where configured, with exactly the enabled keys created, and the
   schema latch and the unavailability latch are never both set.
   */
  lemma {:induction false} EveryRunIsSafe(setup: Setup, script: Script, ops: seq<Operation>)
    ensures Invariant(setup, Run(setup, script, ops))
    ensures Safe(setup, Run(setup, script, ops).log)
    ensures !(Run(setup, script, ops).ready && !Run(setup, script, ops).available)
  {
    hide Safe, SeenIn, EnsureConnected, Publish, CreatedKeys;
    if ops == [] {
      NewSessionInvariant(setup);
    } else {
      var n := |ops| - 1;
      EveryRunIsSafe(setup, script, ops[..n]);
      match ops[n]
      case CheckConnectivity => ConnectedKeepsInvariant(setup, script, Run(setup, script, ops[..n]));
      case PublishFrame(frame) => PublishKeepsInvariant(setup, script, Run(setup, script, ops[..n]), frame);
    }
  }

  // ------------------------------------------------- safety without the observer

  lemma {:induction false} ObservedConnection(log: seq<Event>)
    requires SeenIn(log).connected
    ensures exists j :: 0 <= j < |log| && LastConnect(log, j)
                        && (SeenIn(log).authenticated ==> Passed(log, j, Auth(true)))
                        && (SeenIn(log).selected ==> Passed(log, j, SelectDb(true)))
  {
    var n := |log| - 1;
    var init, e := log[..n], log[n];
    assert log == init + [e];
    if e.Connect? {
      assert LastConnect(log, n);
    } else {
      ObservedConnection(init);
      var j :| 0 <= j < n && LastConnect(init, j)
               && (SeenIn(init).authenticated ==> Passed(init, j, Auth(true)))
               && (SeenIn(init).selected ==> Passed(init, j, SelectDb(true)));
      StillLast(init, e, j);
    }
  }

  /** The connection dialled at `j` succeeded and is still the newest one. */
  ghost predicate LastConnect(log: seq<Event>, j: nat) {
    j < |log| && log[j].Connect? && log[j].ok && forall k :: j < k < |log| ==> !log[k].Connect?
  }

  ghost predicate Passed(log: seq<Event>, j: nat, e: Event) {
    exists k :: j < k < |log| && log[k] == e
  }

  lemma StillLast(init: seq<Event>, e: Event, j: nat)
    requires LastConnect(init, j) && !e.Connect?
    ensures LastConnect(init + [e], j) && Passed(init + [e], j, e)
    ensures forall d :: Passed(init, j, d) ==> Passed(init + [e], j, d)
  {
    assert (init + [e])[|init|] == e;
    forall d | Passed(init, j, d)
      ensures Passed(init + [e], j, d)
    {
      var k :| j < k < |init| && init[k] == d;
      assert (init + [e])[k] == d;
    }
  }

  lemma {:induction false} ObservedCreation(log: seq<Event>, key: string)
    requires key in SeenIn(log).created
    ensures Create(key, Created) in log
  {
    var n := |log| - 1;
    assert log == log[..n] + [log[n]];
    if key in SeenIn(log[..n]).created {
      ObservedCreation(log[..n], key);
    }
  }

  lemma LastConnectIsConnect(log: seq<Event>, j: nat)
    requires LastConnect(log, j)
    ensures j < |log| && log[j].Connect?
  {
  }

  /**
   The same in terms of the log alone. Every TS.MADD in it comes after a successful connect to the
   configured address with no other connect in between, after that connect's accepted AUTH (if there
   is a password) and SELECT (if the database is not zero), and after a TS.CREATE of every enabled key
   that was answered OK or "already exists".
   */
  lemma {:induction false} EveryMaddIsPrepared(setup: Setup, script: Script, ops: seq<Operation>, i: nat)
    requires i < |Run(setup, script, ops).log| && Run(setup, script, ops).log[i].Madd?
    ensures var before := Run(setup, script, ops).log[..i];
            && (exists j: nat :: LastConnect(before, j) && before[j].address == AddressOf(setup.options)
                  && (setup.options.password != "" ==> Passed(before, j, Auth(true)))
                  && (setup.options.db != 0 ==> Passed(before, j, SelectDb(true))))
            && (forall suffix :: suffix in setup.enabled ==> Create(Key(setup, suffix), Created) in before)
  {
    hide Run, SeenIn, Key, LastConnect, Passed, Invariant;
    var log := Run(setup, script, ops).log;
    EveryRunIsSafe(setup, script, ops);
    assert Permitted(setup, SeenIn(log[..i]), log[i]);
    ObservedConnection(log[..i]);
    forall j: nat | LastConnect(log[..i], j)
      ensures j < i && log[..i][j].Connect? && log[..i][j].address == AddressOf(setup.options)
    {
      LastConnectIsConnect(log[..i], j);
      assert Permitted(setup, SeenIn(log[..j]), log[j]);
    }
    forall suffix | suffix in setup.enabled
      ensures Create(Key(setup, suffix), Created) in log[..i]
    {
      assert Key(setup, suffix) in CreatedKeys(setup);
      ObservedCreation(log[..i], Key(setup, suffix));
    }
  }

  // ------------------------------------------------------- latches and retry bound

  /** Once TS.CREATE has been answered "unknown command" no operation ever touches the network again. */
  lemma {:induction false} UnavailableIsForever(setup: Setup, script: Script, s: Session, ops: seq<Operation>)
    requires !s.available
    ensures RunFrom(setup, script, s, ops) == s
  {
    hide Reconnect, PublishOnce;
    if ops != [] {
      UnavailableIsForever(setup, script, s, ops[..|ops| - 1]);
    }
  }

  /** The latch is set exactly by that answer. */
  lemma {:induction false} UnavailableIffUnknown(setup: Setup, script: Script, ops: seq<Operation>)
    ensures Run(setup, script, ops).available <==> UnknownAnswers(Run(setup, script, ops).log) == 0
  {
    hide EnsureConnected, Publish;
    if ops != [] {
      var n := |ops| - 1;
      UnavailableIffUnknown(setup, script, ops[..n]);
      var s := Run(setup, script, ops[..n]);
      match ops[n]
      case CheckConnectivity => ConnectedCounts(setup, script, s);
      case PublishFrame(frame) => PublishCounts(setup, script, s, frame);
    }
  }

  lemma {:induction false} RunContinues(setup: Setup, script: Script, s: Session, a: seq<Operation>, b: seq<Operation>)
    ensures RunFrom(setup, script, s, a + b) == RunFrom(setup, script, RunFrom(setup, script, s, a), b)
  {
    hide Perform;
    if b == [] {
      assert a + b == a;
    } else {
      var n := |b| - 1;
      RunContinues(setup, script, s, a, b[..n]);
      assert (a + b)[..|a| + n] == a + b[..n];
    }
  }

  /** Hence an "unknown command" answer to TS.CREATE is the last thing that is ever heard of the server. */
  lemma {:induction false} SilentAfterUnknown(
    setup: Setup, script: Script, past: seq<Operation>, future: seq<Operation>)
    requires UnknownAnswers(Run(setup, script, past).log) > 0
    ensures Run(setup, script, past + future) == Run(setup, script, past)
  {
    hide Perform, UnknownAnswers;
    UnavailableIffUnknown(setup, script, past);
    RunContinues(setup, script, NEW_SESSION, past, future);
    UnavailableIsForever(setup, script, Run(setup, script, past), future);
  }

  function UnknownAnswers(log: seq<Event>): nat {
    if log == [] then 0 else
    UnknownAnswers(log[..|log| - 1])
    + if log[|log| - 1].Create? && log[|log| - 1].outcome == UnknownCommand then 1 else 0
  }

  function Connects(log: seq<Event>): nat {
    if log == [] then 0 else Connects(log[..|log| - 1]) + if log[|log| - 1].Connect? then 1 else 0
  }

  function Creates(log: seq<Event>): nat {
    if log == [] then 0 else Creates(log[..|log| - 1]) + if log[|log| - 1].Create? then 1 else 0
  }

  function Madds(log: seq<Event>): nat {
    if log == [] then 0 else Madds(log[..|log| - 1]) + if log[|log| - 1].Madd? then 1 else 0
  }

  /** The counters, and whether the availability latch agrees with what the log shows. */
  datatype Tally = Tally(connects: nat, creates: nat, madds: nat, unknown: nat)

  function TallyOf(log: seq<Event>): Tally {
    Tally(Connects(log), Creates(log), Madds(log), UnknownAnswers(log))
  }

  function Count(t: Tally, e: Event): Tally {
    match e
    case Connect(_, _, _) => t.(connects := t.connects + 1)
    case Create(_, outcome) =>
      t.(creates := t.creates + 1, unknown := t.unknown + if outcome == UnknownCommand then 1 else 0)
    case Madd(_, _) => t.(madds := t.madds + 1)
    case _ => t
  }

  lemma TallySnoc(log: seq<Event>, e: Event)
    ensures TallyOf(log + [e]) == Count(TallyOf(log), e)
  {
    assert (log + [e])[..|log|] == log;
  }

  /** What a handshake does to the tally; it sets the latch only with an unknown answer. */
  ghost predicate HandshakeTally(s: Session, r: Outcome, connects: nat) {
    var t, u := TallyOf(s.log), TallyOf(r.session.log);
    && u.connects == t.connects + connects && u.madds == t.madds
    && (s.ready ==> u.creates == t.creates) && (s.ready ==> r.session.ready)
    && (s.available ==> (r.session.available <==> u.unknown == t.unknown))
    && (r.ok ==> s.available ==> r.session.available)
  }

  lemma {:induction false} CreateCounts(setup: Setup, script: Script, s: Session, i: nat)
    requires i <= |setup.enabled| && !s.ready
    ensures HandshakeTally(s, CreateFrom(setup, script, s, i), 0)
    decreases |setup.enabled| - i
  {
    hide CreationOf, Key, TallyOf;
    if i < |setup.enabled| {
      var a := script(s.asked);
      var e := Create(Key(setup, setup.enabled[i]), CreationOf(a.reply));
      TallySnoc(s.log, e);
      CreateCounts(setup, script, Issue(s, a, e), i + 1);
    }
  }

  lemma ReconnectCounts(setup: Setup, script: Script, s: Session)
    ensures HandshakeTally(s, Reconnect(setup, script, s), 1)
  {
    hide CreateFrom, TallyOf;
    var dialled := Dial(setup, script, s);
    TallySnoc(s.log, Connect(AddressOf(setup.options), TimeoutOf(setup.options), script(s.asked).connected));
    var authenticated := Authenticate(setup, script, dialled);
    TallySnoc(dialled.log, Auth(script(dialled.asked).reply.Accepted?));
    var selected := ChooseDb(setup, script, authenticated.session);
    var t := authenticated.session;
    TallySnoc(t.log, SelectDb(script(t.asked).reply.Accepted?));
    if !selected.session.ready {
      CreateCounts(setup, script, selected.session, 0);
    }
  }

  lemma ConnectedCounts(setup: Setup, script: Script, s: Session)
    ensures var r := EnsureConnected(setup, script, s);
            HandshakeTally(s, r, 0) || HandshakeTally(s, r, 1)
    ensures !s.available ==> EnsureConnected(setup, script, s) == Outcome(s, false)
  {
    hide Reconnect, TallyOf;
    ReconnectCounts(setup, script, s);
  }

  lemma PublishOnceCounts(setup: Setup, script: Script, s: Session, f: Frame)
    ensures var p := PublishOnce(setup, script, s, f);
            && TallyOf(p.session.log) == TallyOf(s.log).(madds := TallyOf(s.log).madds + 1)
            && p.session.log[|p.session.log| - 1] == Madd(Payload(setup, script(s.asked).nowMs, f), p.ok)
            && |p.session.log| == |s.log| + 1
            && p.session.ready == s.ready && p.session.available == s.available
  {
    hide Payload, TallyOf;
    var a := script(s.asked);
    TallySnoc(s.log, Madd(Payload(setup, a.nowMs, f), a.reply.Accepted?));
  }

  predicate EndsAccepted(log: seq<Event>) {
    log != [] && log[|log| - 1].Madd? && log[|log| - 1].ok
  }

  /**
   One publish makes at most two connects and sends at most two TS.MADDs; it never repeats TS.CREATE
   once the schema is ready; and it reports success exactly when the last thing it did was a TS.MADD
   that the server accepted.
   */
  lemma {:induction false} PublishCounts(setup: Setup, script: Script, s: Session, f: Frame)
    ensures var p := Publish(setup, script, s, f);
            var t, u := TallyOf(s.log), TallyOf(p.session.log);
            && u.connects <= t.connects + 2 && u.madds <= t.madds + 2
            && (s.ready ==> u.creates == t.creates)
            && (s.available ==> (p.session.available <==> u.unknown == t.unknown))
            && (!s.available ==> p == Publication(s, f, false))
            && (p.ok <==> u.madds > t.madds && EndsAccepted(p.session.log))
  {
    hide EnsureConnected, Reconnect, PublishOnce, TallyOf, Payload;
    var connected := EnsureConnected(setup, script, s);
    ConnectedCounts(setup, script, s);
    if connected.ok {
      var first := PublishOnce(setup, script, connected.session, f);
      PublishOnceCounts(setup, script, connected.session, f);
      if !first.ok {
        var again := Reconnect(setup, script, first.session);
        ReconnectCounts(setup, script, first.session);
        ReconnectEnds(setup, script, first.session);
        if again.ok {
          PublishOnceCounts(setup, script, again.session, first.frame);
        }
      }
    }
  }

  /** A handshake never ends in a TS.MADD. */
  lemma {:induction false} ReconnectEnds(setup: Setup, script: Script, s: Session)
    ensures var log := Reconnect(setup, script, s).session.log;
            log != [] && !log[|log| - 1].Madd?
  {
    hide CreateFrom;
    var dialled := Dial(setup, script, s);
    var authenticated := Authenticate(setup, script, dialled);
    var selected := ChooseDb(setup, script, authenticated.session);
    CreateEnds(setup, script, selected.session, 0);
  }

  lemma {:induction false} CreateEnds(setup: Setup, script: Script, s: Session, i: nat)
    requires i <= |setup.enabled| && s.log != [] && !s.log[|s.log| - 1].Madd?
    ensures var log := CreateFrom(setup, script, s, i).session.log;
            log != [] && !log[|log| - 1].Madd?
    decreases |setup.enabled| - i
  {
    hide CreationOf, Key;
    if i < |setup.enabled| {
      var a := script(s.asked);
      CreateEnds(setup, script, Issue(s, a, Create(Key(setup, setup.enabled[i]), CreationOf(a.reply))), i + 1);
    }
  }
}
