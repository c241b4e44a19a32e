/**
 What a publish achieves, in terms of the answers of the server: when a handshake succeeds, that a TS.MADD which is
 not accepted is sent a second time on a fresh connection, how a publish that fails ends, and that a server which
 stumbles now and then loses nothing.
 */
module RedisRetry {
  import opened Wrappers
  import opened SignalFrame
  import opened RedisPayload
  import opened RedisSession

  // ------------------------------------------------------------------- the handshake

  function AuthEvents(setup: Setup): seq<Event> {
    if setup.options.password != "" then [Auth(true)] else []
  }

  function SelectEvents(setup: Setup): seq<Event> {
    if setup.options.db != 0 then [SelectDb(true)] else []
  }

  function Creations(setup: Setup, i: nat): (events: seq<Event>)
    requires i <= |setup.enabled|
    ensures |events| == |setup.enabled| - i
  {
    seq(|setup.enabled| - i, j requires 0 <= j < |setup.enabled| - i =>
          Create(Key(setup, setup.enabled[i + j]), Created))
  }

  function SchemaEvents(setup: Setup, ready: bool): seq<Event> {
    if ready then [] else Creations(setup, 0)
  }

  /** What a handshake that succeeds leaves in the log; keys are only created before the schema is ready. */
  function Handshake(setup: Setup, ready: bool): seq<Event> {
    [Connect(AddressOf(setup.options), TimeoutOf(setup.options), true)] + AuthEvents(setup) + SelectEvents(setup)
    + SchemaEvents(setup, ready)
  }

  /** The answers that let it succeed, the first of them being answer number `asked`. */
  ghost predicate Agreed(setup: Setup, script: Script, asked: nat, ready: bool) {
    var selecting := asked + 1 + |AuthEvents(setup)|;
    var creating := selecting + |SelectEvents(setup)|;
    && script(asked).connected
    && (setup.options.password != "" ==> script(asked + 1).reply.Accepted?)
    && (setup.options.db != 0 ==> script(selecting).reply.Accepted?)
    && (!ready ==> AllCreated(script, creating, |setup.enabled|))
  }

  /** The next n answers each say that a key has been created or was there. */
  ghost predicate AllCreated(script: Script, asked: nat, n: nat) {
    forall k :: asked <= k < asked + n ==> CreationOf(script(k).reply) == Created
  }

  /** The last thing in the log is a step of a handshake that did not succeed. */
  predicate EndsRefused(log: seq<Event>) {
    log != [] &&
    match log[|log| - 1]
    case Connect(_, _, ok) => !ok
    case Auth(ok) => !ok
    case SelectDb(ok) => !ok
    case Create(_, outcome) => outcome != Created
    case Madd(_, _) => false
  }

  /** An answer without any fault. */
  predicate Clean(a: Answer) {
    a.connected && a.reply.Accepted? && !a.err
  }

  /**
   A step that succeeds leaves just these events and the error flag of its last answer; one that does not ends
   with a faulty answer, which leaves a refused event at the end of the log.
   */
  predicate Leaves(script: Script, s: Session, r: Outcome, events: seq<Event>) {
    && (r.ok ==> r.session.log == s.log + events && r.session.asked == s.asked + |events|
                 && r.session.available == s.available
                 && r.session.context
                    == if events == [] then s.context else Some(script(r.session.asked - 1).err))
    && (!r.ok ==> s.log < r.session.log && EndsRefused(r.session.log)
                  && r.session.asked > 0 && !Clean(script(r.session.asked - 1)))
  }

  lemma {:induction false} CreatesExactly(setup: Setup, script: Script, s: Session, i: nat)
    requires i <= |setup.enabled|
    ensures var r := CreateFrom(setup, script, s, i);
            && (r.ok <==> AllCreated(script, s.asked, |setup.enabled| - i)) && (r.ok ==> r.session.ready)
            && Leaves(script, s, r, Creations(setup, i))
    decreases |setup.enabled| - i
  {
    hide CreationOf, Key;
    if i < |setup.enabled| {
      var a := script(s.asked);
      var e := Create(Key(setup, setup.enabled[i]), CreationOf(a.reply));
      var next := Issue(s, a, e);
      CreatesExactly(setup, script, next, i + 1);
      CleanCreates(a);
      if e.outcome == Created {
        assert i + 1 == |setup.enabled| ==> Creations(setup, i + 1) == [];
        assert Creations(setup, i) == [e] + Creations(setup, i + 1);
        assert s.log + Creations(setup, i) == s.log + [e] + Creations(setup, i + 1);
      }
    }
  }

  lemma CleanCreates(a: Answer)
    ensures Clean(a) ==> CreationOf(a.reply) == Created
  {
  }

  lemma AuthenticatesExactly(setup: Setup, script: Script, s: Session)
    ensures var r := Authenticate(setup, script, s);
            && (r.ok <==> (setup.options.password != "" ==> script(s.asked).reply.Accepted?))
            && Leaves(script, s, r, AuthEvents(setup)) && r.session.ready == s.ready
  {
  }

  lemma ChoosesExactly(setup: Setup, script: Script, s: Session)
    ensures var r := ChooseDb(setup, script, s);
            && (r.ok <==> (setup.options.db != 0 ==> script(s.asked).reply.Accepted?))
            && Leaves(script, s, r, SelectEvents(setup)) && r.session.ready == s.ready
  {
  }

  lemma EnsuresExactly(setup: Setup, script: Script, s: Session)
    ensures var r := EnsureSchema(setup, script, s);
            && (r.ok <==> (!s.ready ==> AllCreated(script, s.asked, |setup.enabled|)))
            && Leaves(script, s, r, SchemaEvents(setup, s.ready)) && (r.ok ==> r.session.ready)
  {
    hide CreateFrom, AllCreated;
    if !s.ready {
      CreatesExactly(setup, script, s, 0);
    }
  }

  lemma DialsExactly(setup: Setup, script: Script, s: Session)
    ensures var next, e := Dial(setup, script, s),
                           Connect(AddressOf(setup.options), TimeoutOf(setup.options), script(s.asked).connected);
            && next.log == s.log + [e] && next.asked == s.asked + 1 && next.ready == s.ready
            && next.available == s.available
            && next.context == (if script(s.asked).connected then Some(false) else None)
            && (!script(s.asked).connected ==> EndsRefused(next.log) && !Clean(script(s.asked)))
  {
  }

  /** The part of a handshake after AUTH. */
  function Prepare(setup: Setup, script: Script, s: Session): Outcome {
    var selected := ChooseDb(setup, script, s);
    if !selected.ok then selected else EnsureSchema(setup, script, selected.session)
  }

  lemma PreparesExactly(setup: Setup, script: Script, s: Session)
    ensures var r := Prepare(setup, script, s);
            && (r.ok <==> (setup.options.db != 0 ==> script(s.asked).reply.Accepted?)
                          && (!s.ready ==> AllCreated(script, s.asked + |SelectEvents(setup)|, |setup.enabled|)))
            && Leaves(script, s, r, SelectEvents(setup) + SchemaEvents(setup, s.ready)) && (r.ok ==> r.session.ready)
  {
    hide ChooseDb, EnsureSchema, AllCreated, SelectEvents, SchemaEvents, EndsRefused, Clean;
    var selected := ChooseDb(setup, script, s);
    ChoosesExactly(setup, script, s);
    if selected.ok {
      EnsuresExactly(setup, script, selected.session);
    }
  }

  lemma ReconnectPrepares(setup: Setup, script: Script, s: Session)
    ensures var dialled, authenticated := Dial(setup, script, s), Authenticate(setup, script, Dial(setup, script, s));
            Reconnect(setup, script, s)
            == if !script(s.asked).connected then Outcome(dialled, false)
               else if !authenticated.ok then Dropped(authenticated.session) else
               var r := Prepare(setup, script, authenticated.session); if r.ok then r else Dropped(r.session)
  {
    hide Authenticate, ChooseDb, EnsureSchema;
  }

  /** A reconnect succeeds exactly when every answer it asks for agrees, and its log says step by step what it did. */
  lemma {:induction false} ReconnectsExactly(setup: Setup, script: Script, s: Session)
    ensures var r := Reconnect(setup, script, s);
            && (r.ok <==> Agreed(setup, script, s.asked, s.ready))
            && (r.ok ==> r.session.ready && r.session.log == s.log + Handshake(setup, s.ready)
                         && r.session.asked == s.asked + |Handshake(setup, s.ready)|
                         && r.session.available == s.available
                         && r.session.context == Some(|Handshake(setup, s.ready)| > 1
                                                      && script(r.session.asked - 1).err))
            && (!r.ok ==> r.session.context.None? && EndsRefused(r.session.log)
                          && r.session.asked > 0 && !Clean(script(r.session.asked - 1)))
            && s.log < r.session.log && r.session.log[|s.log|].Connect?
  {
    hide Reconnect, Dial, Authenticate, Prepare, AllCreated, AuthEvents, SelectEvents, SchemaEvents, EndsRefused;
    hide AddressOf, TimeoutOf, Clean;
    var dialled := Dial(setup, script, s);
    DialsExactly(setup, script, s);
    ReconnectPrepares(setup, script, s);
    if script(s.asked).connected {
      var authenticated := Authenticate(setup, script, dialled);
      AuthenticatesExactly(setup, script, dialled);
      if authenticated.ok {
        PreparesExactly(setup, script, authenticated.session);
      }
    }
  }

  // --------------------------------------------------------------------- one publish

  predicate Kept(s: Session) {
    s.context == Some(false)
  }

  /** Whether a publish gets as far as its first TS.MADD, which answer that gets, and what is in the log before it. */
  ghost predicate Reaches(setup: Setup, script: Script, s: Session) {
    Kept(s) || Agreed(setup, script, s.asked, s.ready)
  }

  function LogBefore(setup: Setup, s: Session): seq<Event> {
    s.log + if Kept(s) then [] else Handshake(setup, s.ready)
  }

  function FirstAnswer(setup: Setup, s: Session): nat {
    s.asked + if Kept(s) then 0 else |Handshake(setup, s.ready)|
  }

  lemma ConnectsExactly(setup: Setup, script: Script, s: Session)
    requires s.available
    ensures var r := EnsureConnected(setup, script, s);
            && (r.ok <==> Reaches(setup, script, s))
            && (r.ok ==> r.session.log == LogBefore(setup, s) && r.session.asked == FirstAnswer(setup, s)
                         && r.session.ready == (s.ready || !Kept(s)) && r.session.available
                         && (Kept(s) ==> r.session == s))
            && (!r.ok ==> s.log < r.session.log && EndsRefused(r.session.log) && r.session.log[|s.log|].Connect?)
  {
    hide Reconnect, Handshake, Agreed, EndsRefused;
    ReconnectsExactly(setup, script, s);
  }

  /** The frame as it is when an attempt has noted how long its answer took. */
  function Timed(f: Frame, a: Answer): Frame {
    f.(agent := f.agent.(redisLatencyMs := a.latencyMs))
  }

  function FirstMadd(setup: Setup, script: Script, s: Session, f: Frame): Event {
    var a := script(FirstAnswer(setup, s));
    Madd(Payload(setup, a.nowMs, f), a.reply.Accepted?)
  }

  /** The second attempt comes after a whole new handshake; it sends the same frame but for the latency noted. */
  function SecondAnswer(setup: Setup, s: Session): nat {
    FirstAnswer(setup, s) + 1 + |Handshake(setup, s.ready || !Kept(s))|
  }

  function SecondMadd(setup: Setup, script: Script, s: Session, f: Frame): Event {
    var a := script(SecondAnswer(setup, s));
    Madd(Payload(setup, a.nowMs, Timed(f, script(FirstAnswer(setup, s)))), a.reply.Accepted?)
  }

  /** Whether the handshake between the two attempts succeeds. */
  ghost predicate Recovers(setup: Setup, script: Script, s: Session) {
    Agreed(setup, script, FirstAnswer(setup, s) + 1, s.ready || !Kept(s))
  }

  lemma PublishesOnce(setup: Setup, script: Script, s: Session, f: Frame)
    ensures var p, a := PublishOnce(setup, script, s, f), script(s.asked);
            && p.ok == a.reply.Accepted? && p.frame == Timed(f, a) && p.session.asked == s.asked + 1
            && p.session.log == s.log + [Madd(Payload(setup, a.nowMs, f), a.reply.Accepted?)]
            && p.session.ready == s.ready && p.session.available == s.available && p.session.context == Some(a.err)
  {
  }

  /** The answer to a TS.MADD decides whether its connection is kept for the next tick. */
  predicate EndsAfter(s: Session, script: Script, after: Session, answer: nat) {
    && after.asked == answer + 1 && after.context == Some(script(answer).err) && after.available
    && (s.ready || !Kept(s) ==> after.ready)
  }

  /**
   A publish on an available session, exactly. It succeeds if and only if it reaches the server and the first TS.MADD
   is accepted, or that one is not but a fresh handshake and the second TS.MADD are. The log shows every step.
   */
  lemma {:induction false} PublishesExactly(setup: Setup, script: Script, s: Session, f: Frame)
    requires s.available
    ensures var p, first, second :=
              Publish(setup, script, s, f), FirstMadd(setup, script, s, f), SecondMadd(setup, script, s, f);
            && (p.ok <==> Reaches(setup, script, s) && (first.ok || (Recovers(setup, script, s) && second.ok)))
            && (Reaches(setup, script, s) && first.ok ==>
                  p.session.log == LogBefore(setup, s) + [first]
                  && EndsAfter(s, script, p.session, FirstAnswer(setup, s))
                  && p.frame == Timed(f, script(FirstAnswer(setup, s))))
            && (Reaches(setup, script, s) && !first.ok && Recovers(setup, script, s) ==>
                  p.session.log
                  == LogBefore(setup, s) + [first] + Handshake(setup, s.ready || !Kept(s)) + [second]
                  && EndsAfter(s, script, p.session, SecondAnswer(setup, s))
                  && p.frame == Timed(f, script(SecondAnswer(setup, s))))
            && (Reaches(setup, script, s) && !first.ok && !Recovers(setup, script, s) ==>
                  LogBefore(setup, s) + [first] < p.session.log && EndsRefused(p.session.log)
                  && p.session.log[|LogBefore(setup, s)| + 1].Connect?
                  && p.frame == Timed(f, script(FirstAnswer(setup, s))))
            && (!Reaches(setup, script, s) ==>
                  s.log < p.session.log && EndsRefused(p.session.log) && p.frame == f)
  {
    hide EnsureConnected, Reconnect, PublishOnce, Handshake, Agreed, EndsRefused, LogBefore, FirstAnswer, Timed;
    hide Payload;
    var connected := EnsureConnected(setup, script, s);
    ConnectsExactly(setup, script, s);
    if connected.ok {
      PublishesOnce(setup, script, connected.session, f);
      var first := PublishOnce(setup, script, connected.session, f);
      if !first.ok {
        ReconnectsExactly(setup, script, first.session);
        var again := Reconnect(setup, script, first.session);
        if again.ok {
          PublishesOnce(setup, script, again.session, first.frame);
          TimedTwice(f, script(FirstAnswer(setup, s)), script(SecondAnswer(setup, s)));
        }
      }
    }
  }

  lemma TimedTwice(f: Frame, a: Answer, b: Answer)
    ensures Timed(Timed(f, a), b) == Timed(f, b)
  {
  }

  lemma HandshakeStarts(setup: Setup, ready: bool)
    ensures Handshake(setup, ready) != [] && Handshake(setup, ready)[0].Connect? && Handshake(setup, ready)[0].ok
  {
  }

  /**
   A TS.MADD that is not accepted is never the end of a publish: the next thing in the log is a connect. If that
   handshake and the second TS.MADD are accepted, the frame has got through after all.
   */
  lemma {:induction false} RefusedMaddIsRetried(setup: Setup, script: Script, s: Session, f: Frame)
    requires s.available && Reaches(setup, script, s) && !FirstMadd(setup, script, s, f).ok
    ensures var p, k := Publish(setup, script, s, f), |LogBefore(setup, s)|;
            && |p.session.log| > k + 1
            && p.session.log[k] == FirstMadd(setup, script, s, f) && p.session.log[k + 1].Connect?
            && (Recovers(setup, script, s) && SecondMadd(setup, script, s, f).ok ==>
                  p.ok && p.session.log[|p.session.log| - 1] == SecondMadd(setup, script, s, f))
  {
    hide Publish, Reaches, Recovers, Handshake, LogBefore, FirstMadd, SecondMadd, EndsRefused;
    PublishesExactly(setup, script, s, f);
    HandshakeStarts(setup, s.ready || !Kept(s));
  }

  /** A publish that fails on an available session ends in a refused handshake step or after two refused TS.MADDs. */
  lemma {:induction false} FailuresEndSo(setup: Setup, script: Script, s: Session, f: Frame)
    requires s.available && !Publish(setup, script, s, f).ok
    ensures var log := Publish(setup, script, s, f).session.log;
            || EndsRefused(log)
            || (&& log == LogBefore(setup, s) + [FirstMadd(setup, script, s, f)]
                          + Handshake(setup, s.ready || !Kept(s)) + [SecondMadd(setup, script, s, f)]
                && !FirstMadd(setup, script, s, f).ok && !SecondMadd(setup, script, s, f).ok
                && Madds(log) == Madds(s.log) + 2)
  {
    hide Publish, Reaches, Recovers, Handshake, LogBefore, FirstMadd, SecondMadd, EndsRefused, Madds;
    PublishesExactly(setup, script, s, f);
    if Reaches(setup, script, s) && Recovers(setup, script, s) {
      TwoMadds(setup, script, s, f);
    }
  }

  lemma TwoMadds(setup: Setup, script: Script, s: Session, f: Frame)
    ensures Madds(LogBefore(setup, s) + [FirstMadd(setup, script, s, f)] + Handshake(setup, s.ready || !Kept(s))
                  + [SecondMadd(setup, script, s, f)])
         == Madds(s.log) + 2
  {
    hide Madds, Handshake;
    var h := Handshake(setup, s.ready || !Kept(s));
    MaddsAppend(s.log, if Kept(s) then [] else Handshake(setup, s.ready));
    HandshakeHasNoMadd(setup, s.ready);
    HandshakeHasNoMadd(setup, s.ready || !Kept(s));
    OneMadd(FirstMadd(setup, script, s, f));
    OneMadd(SecondMadd(setup, script, s, f));
    MaddsAppend(LogBefore(setup, s), [FirstMadd(setup, script, s, f)]);
    MaddsAppend(LogBefore(setup, s) + [FirstMadd(setup, script, s, f)], h);
    MaddsAppend(LogBefore(setup, s) + [FirstMadd(setup, script, s, f)] + h, [SecondMadd(setup, script, s, f)]);
  }

  lemma OneMadd(e: Event)
    ensures Madds([]) == 0 && Madds([e]) == if e.Madd? then 1 else 0
  {
    assert [e][..0] == [];
  }

  lemma {:induction false} MaddsAppend(a: seq<Event>, b: seq<Event>)
    ensures Madds(a + b) == Madds(a) + Madds(b)
  {
    if b == [] {
      assert a + b == a;
    } else {
      MaddsAppend(a, b[..|b| - 1]);
      assert (a + b)[..|a + b| - 1] == a + b[..|b| - 1];
    }
  }

  lemma {:induction false} NoMadds(log: seq<Event>)
    requires forall i :: 0 <= i < |log| ==> !log[i].Madd?
    ensures Madds(log) == 0
  {
    if log != [] {
      NoMadds(log[..|log| - 1]);
    }
  }

  lemma HandshakeHasNoMadd(setup: Setup, ready: bool)
    ensures Madds(Handshake(setup, ready)) == 0
  {
    hide Madds;
    NoMadds(Handshake(setup, ready));
  }

  // --------------------------------------------------------- a server that stumbles

  /** The longest a publish can take after a fault: a whole handshake and a TS.MADD. */
  function Recovery(setup: Setup): nat {
    |Handshake(setup, false)| + 1
  }

  ghost predicate CleanFrom(script: Script, asked: nat, n: nat) {
    forall k :: asked <= k < asked + n ==> Clean(script(k))
  }

  /** After a faulty answer, whatever it was, the next ones are clean for as long as a recovery takes. */
  ghost predicate Stumbles(setup: Setup, script: Script) {
    && (forall k: nat :: !Clean(script(k)) ==> CleanFrom(script, k + 1, Recovery(setup)))
    && (forall k: nat :: CreationOf(script(k).reply) != UnknownCommand)
  }

  lemma {:induction false} CreatesStayAvailable(setup: Setup, script: Script, s: Session, i: nat)
    requires i <= |setup.enabled| && forall k: nat :: CreationOf(script(k).reply) != UnknownCommand
    ensures CreateFrom(setup, script, s, i).session.available == s.available
    decreases |setup.enabled| - i
  {
    hide CreationOf, Key;
    if i < |setup.enabled| {
      var a := script(s.asked);
      var e := Create(Key(setup, setup.enabled[i]), CreationOf(a.reply));
      CreatesStayAvailable(setup, script, Issue(s, a, e), i + 1);
    }
  }

  lemma ReconnectStaysAvailable(setup: Setup, script: Script, s: Session)
    requires forall k: nat :: CreationOf(script(k).reply) != UnknownCommand
    ensures Reconnect(setup, script, s).session.available == s.available
  {
    hide CreateFrom, CreationOf;
    var authenticated := Authenticate(setup, script, Dial(setup, script, s)).session;
    CreatesStayAvailable(setup, script, ChooseDb(setup, script, authenticated).session, 0);
  }

  lemma CleanAgrees(setup: Setup, script: Script, asked: nat, ready: bool)
    requires CleanFrom(script, asked, |Handshake(setup, ready)|)
    ensures Agreed(setup, script, asked, ready)
  {
    hide Key;
  }

  lemma HandshakeLengths(setup: Setup, ready: bool)
    ensures 1 <= |Handshake(setup, ready)| < Recovery(setup)
  {
    hide Key;
  }

  /** Between operations: the connection is kept with the schema ready, or a clean stretch has just begun. */
  ghost predicate Steady(setup: Setup, script: Script, s: Session) {
    s.available && (Kept(s) ==> s.ready) && (Kept(s) || CleanFrom(script, s.asked, Recovery(setup)))
  }

  /** After an answer either it was clean or a clean stretch begins. */
  lemma AfterAnswer(setup: Setup, script: Script, s: Session, answer: nat)
    requires Stumbles(setup, script) && s.available && s.asked == answer + 1 && s.ready
    requires s.context == Some(script(answer).err)
    ensures Steady(setup, script, s)
  {
    hide Recovery, CreationOf;
    if script(answer).err {
      assert !Clean(script(answer));
    }
  }

  lemma CheckKeepsSteady(setup: Setup, script: Script, s: Session)
    requires Stumbles(setup, script) && s.available && (Steady(setup, script, s) || !Kept(s))
    ensures Steady(setup, script, EnsureConnected(setup, script, s).session)
  {
    hide Recovery, CreationOf, Reconnect, Handshake, Agreed, Clean, EndsRefused;
    ReconnectsExactly(setup, script, s);
    ReconnectStaysAvailable(setup, script, s);
    var r := Reconnect(setup, script, s);
    if !Kept(s) && r.ok {
      HandshakeLengths(setup, s.ready);
      NoFaultNoFlag(script(r.session.asked - 1));
      assert Clean(script(r.session.asked - 1)) ==> Kept(r.session);
    }
  }

  lemma NoFaultNoFlag(a: Answer)
    ensures Clean(a) ==> !a.err && a.reply.Accepted?
  {
  }

  lemma {:induction false} SteadyPublishes(setup: Setup, script: Script, s: Session, f: Frame)
    requires Stumbles(setup, script) && Steady(setup, script, s)
    ensures Publish(setup, script, s, f).ok && Steady(setup, script, Publish(setup, script, s, f).session)
  {
    hide Publish, CreationOf, Handshake, Agreed, EndsRefused, Payload, LogBefore;
    PublishesExactly(setup, script, s, f);
    HandshakeLengths(setup, s.ready);
    HandshakeLengths(setup, s.ready || !Kept(s));
    var first, second := FirstAnswer(setup, s), SecondAnswer(setup, s);
    if !Kept(s) {
      CleanAgrees(setup, script, s.asked, s.ready);
      assert Clean(script(first));
    }
    if script(first).reply.Accepted? {
      AfterAnswer(setup, script, Publish(setup, script, s, f).session, first);
    } else {
      assert !Clean(script(first)) && Kept(s);
      CleanAgrees(setup, script, first + 1, true);
      assert Clean(script(second));
      AfterAnswer(setup, script, Publish(setup, script, s, f).session, second);
    }
  }

  /**
   A server that stumbles loses nothing: from the first operation on, whatever it is answered, every publish gets
   its frame through, as long as each fault is followed by a clean stretch and the module is never missing.
   */
  lemma {:induction false} StumblesLoseNothing(setup: Setup, script: Script, ops: seq<Operation>)
    requires Stumbles(setup, script)
    ensures Steady(setup, script, Run(setup, script, [CheckConnectivity] + ops))
    ensures forall f :: Publish(setup, script, Run(setup, script, [CheckConnectivity] + ops), f).ok
  {
    hide Stumbles, Steady, EnsureConnected, Publish;
    var all := [CheckConnectivity] + ops;
    var before := all[..|all| - 1];
    RunNext(setup, script, all);
    if ops == [] {
      assert before == [];
      FreshSession(setup, script);
    } else {
      assert before == [CheckConnectivity] + ops[..|ops| - 1];
      StumblesLoseNothing(setup, script, ops[..|ops| - 1]);
      var s := Run(setup, script, before);
      match ops[|ops| - 1]
      case CheckConnectivity => SteadyCheck(setup, script, s);
      case PublishFrame(frame) => SteadyPublishes(setup, script, s, frame);
    }
    forall f
      ensures Publish(setup, script, Run(setup, script, all), f).ok
    {
      SteadyPublishes(setup, script, Run(setup, script, all), f);
    }
  }

  lemma RunNext(setup: Setup, script: Script, ops: seq<Operation>)
    requires ops != []
    ensures Run(setup, script, ops) == Perform(setup, script, Run(setup, script, ops[..|ops| - 1]), ops[|ops| - 1])
    ensures Run(setup, script, []) == NEW_SESSION
  {
    hide Perform;
  }

  lemma FreshSession(setup: Setup, script: Script)
    requires Stumbles(setup, script)
    ensures Steady(setup, script, EnsureConnected(setup, script, NEW_SESSION).session)
  {
    hide Steady, Stumbles, EnsureConnected;
    CheckKeepsSteady(setup, script, NEW_SESSION);
  }

  lemma SteadyCheck(setup: Setup, script: Script, s: Session)
    requires Stumbles(setup, script) && Steady(setup, script, s)
    ensures Steady(setup, script, EnsureConnected(setup, script, s).session)
  {
    hide EnsureConnected, Stumbles;
    CheckKeepsSteady(setup, script, s);
  }
}
