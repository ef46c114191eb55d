/** Where the lifecycle's guarantees end: two runs that show which premises cannot be dropped. */
module LifecycleLimits {
  import opened Wrappers
  import opened Subscriptions
  import opened Components
  import opened Lifecycle

  const SUB := Subscription("x", "q", "q", map[], None)
  const CALL := SubItem(SUB)
  const EXCHANGE := ExchangeItem(Exchange("x", "topic", true))

  lemma Then(es: seq<Event>, e: Event) returns (fs: seq<Event>)
    ensures fs == es + [e] && Run(fs) == Step(Run(es), e)
  {
    fs := es + [e];
    assert fs[..|fs| - 1] == es;
  }

  /** The first run with its handles stored, and nothing cancelled or closed. */
  predicate Live(s: State) {
    && s.run == 1 && s.f.ch == Some(1) && s.f.conn == Some(1) && s.f.runCtx == Some(1)
    && 1 !in s.closed && 1 !in s.cancelled
  }

  /** What a Subscribe on a live component leaves alone. */
  predicate SameStart(s: State, s': State) {
    && s'.pc == s.pc && s'.run == s.run && s'.exch == s.exch && s'.snap == s.snap && s'.i == s.i && s'.k == s.k
    && s'.closed == s.closed && s'.cancelled == s.cancelled && s'.readied == s.readied
    && s'.f == s.f.(subs := s'.f.subs)
  }

  lemma SubscribeRegisters(es: seq<Event>) returns (fs: seq<Event>)
    requires Live(Run(es))
    ensures var s, s' := Run(es), Run(fs);
      && SameStart(s, s') && s'.consumers == s.consumers
      && s'.callers == s.callers + [Caller(CALL, |s.f.subs|, Appended)]
  {
    fs := Then(es, Register(CALL));
  }

  lemma SubscribeReads(es: seq<Event>, c: nat) returns (fs: seq<Event>)
    requires var s := Run(es);
      Live(s) && c < |s.callers| && s.callers[c].item == CALL && s.callers[c].pc == Appended
    ensures var s, s' := Run(es), Run(fs);
      && SameStart(s, s') && s'.consumers == s.consumers
      && s'.callers == s.callers[c := s.callers[c].(pc := Read(Some(1), Some(1)))]
  {
    fs := Then(es, ReadHandles(c));
  }

  lemma SubscribeChecks(es: seq<Event>, c: nat) returns (fs: seq<Event>)
    requires var s := Run(es);
      Live(s) && c < |s.callers| && s.callers[c].item == CALL && s.callers[c].pc == Read(Some(1), Some(1))
    ensures var s, s' := Run(es), Run(fs);
      && SameStart(s, s') && s'.consumers == s.consumers
      && s'.callers == s.callers[c := s.callers[c].(pc := Working(1, Some(1), 0))]
  {
    fs := Then(es, CheckHandles(c));
  }

  lemma CallOps()
    ensures Ops(CALL) == [DeclareWork("q", map[]), Bind("q", "q", "x"), Consume("q")]
  {
  }

  lemma SubscribeWorks(es: seq<Event>, c: nat, done: nat) returns (fs: seq<Event>)
    requires var s := Run(es);
      Live(s) && c < |s.callers| && s.callers[c].item == CALL && s.callers[c].pc == Working(1, Some(1), done) && done < 2
    ensures var s, s' := Run(es), Run(fs);
      && SameStart(s, s') && s'.consumers == s.consumers
      && s'.callers == s.callers[c := s.callers[c].(pc := Working(1, Some(1), done + 1))]
  {
    CallOps();
    fs := Then(es, OpOk(c));
  }

  lemma SubscribeConsumes(es: seq<Event>, c: nat) returns (fs: seq<Event>)
    requires var s := Run(es);
      Live(s) && c < |s.callers| && s.callers[c].item == CALL && s.callers[c].pc == Working(1, Some(1), 2)
    ensures var s, s' := Run(es), Run(fs);
      SameStart(s, s') && s'.consumers == s.consumers + [Consumer("q", 1, 1, false, Waiting)]
  {
    CallOps();
    fs := Then(es, OpOk(c));
  }

  /** Subscribe on a live component starts a consumer under the current run's context. */
  lemma LiveSubscribe(es: seq<Event>) returns (fs: seq<Event>)
    requires Live(Run(es))
    ensures var s, s' := Run(es), Run(fs);
      SameStart(s, s') && s'.consumers == s.consumers + [Consumer("q", 1, 1, false, Waiting)]
  {
    var c := |Run(es).callers|;
    fs := SubscribeRegisters(es);
    fs := SubscribeReads(fs, c);
    fs := SubscribeChecks(fs, c);
    fs := SubscribeWorks(fs, c, 0);
    fs := SubscribeWorks(fs, c, 1);
    fs := SubscribeConsumes(fs, c);
  }

  /** Nothing has happened yet but registrations. */
  predicate Fresh(s: State) {
    s.run == 0 && s.pc.Idle? && s.swept && s.closed == map[] && s.cancelled == {} && s.consumers == []
  }

  lemma Begins(es: seq<Event>) returns (fs: seq<Event>)
    requires Fresh(Run(es))
    ensures var s, s' := Run(es), Run(fs);
      && s'.run == 1 && s'.pc.Dialing? && s'.closed == map[] && s'.cancelled == {} && s'.consumers == []
      && s'.readied == s.readied && s'.f == s.f.AllocateRun(1, s.nextStop)
  {
    fs := Then(es, BeginStart);
  }

  lemma Stores(es: seq<Event>) returns (fs: seq<Event>)
    requires Run(es).pc.Dialing?
    ensures var s, s' := Run(es), Run(fs);
      && s'.run == s.run && s'.pc.Stored? && s'.closed == s.closed && s'.cancelled == s.cancelled
      && s'.consumers == s.consumers && s'.readied == s.readied && s'.f == s.f.StoreHandles(s.run)
  {
    fs := Then(es, Store);
  }

  lemma Connects(es: seq<Event>) returns (fs: seq<Event>)
    requires Fresh(Run(es))
    ensures var s, s' := Run(es), Run(fs);
      && Live(s') && s'.pc.Stored? && s'.consumers == []
      && s'.f.exchanges == s.f.exchanges && s'.f.subs == s.f.subs && s'.f.dead == s.f.dead
      && s'.readied == s.readied
  {
    fs := Begins(es);
    fs := Stores(fs);
  }

  /** When the broker cannot be reached, Start returns without cancelling the run context it has stored. */
  lemma ConnectFailureLeavesContextLive() returns (es: seq<Event>)
    ensures var s := Run(es);
      s.pc.Idle? && s.run == 1 && s.f.runCtx == Some(1) && s.f.ch.None? && 1 !in s.cancelled
  {
    es := Begins([]);
    es := ConnectFailsLast(es);
  }

  lemma ConnectFailsLast(es: seq<Event>) returns (fs: seq<Event>)
    requires Run(es).pc.Dialing?
    ensures var s, s' := Run(es), Run(fs);
      s'.pc.Idle? && s'.run == s.run && s'.f == s.f && s'.cancelled == s.cancelled
  {
    fs := Then(es, ConnectFails);
  }

  /**
   * When declaring an exchange fails, Start returns without cancelling its run context: a consumer
   * that a Subscribe started in the meantime outlives the Start whose context it holds.
   */
  lemma ExchangeFailureLeavesContextLive() returns (es: seq<Event>)
    ensures var s := Run(es);
      && s.pc.Idle? && s.run == 1 && 1 !in s.readied
      && s.consumers == [Consumer("q", 1, 1, false, Waiting)] && 1 !in s.cancelled
  {
    es := Then([], Register(EXCHANGE));
    es := Connects(es);
    es := LiveSubscribe(es);
    es := DeclareFailsLast(es);
  }

  lemma DeclareFailsLast(es: seq<Event>) returns (fs: seq<Event>)
    requires var s := Run(es); Live(s) && s.pc.Stored? && |s.f.exchanges| > 0 && s.readied == {}
    ensures var s, s' := Run(es), Run(fs);
      s'.pc.Idle? && s'.run == 1 && 1 !in s'.readied && s'.consumers == s.consumers && 1 !in s'.cancelled
  {
    fs := Then(es, SnapExchanges);
    fs := Then(fs, DeclareFails);
  }

  /**
   * A report made between Start's subscription snapshot and its reset of the dead consumers is
   * lost: the component serves and is healthy, while the only consumer of its queue is gone.
   */
  lemma ReportBeforeResetIsLost() returns (es: seq<Event>)
    ensures var s := Run(es);
      && s.pc.Serving? && 1 !in s.cancelled && s.f.Healthy(false, false)
      && s.consumers == [Consumer("q", 1, 1, true, Exited(true))]
  {
    es := Connects([]);
    es := Snapshots(es);
    es := LiveSubscribe(es);
    es := Breaks(es);
    es := Notices(es);
    es := Decides(es);
    es := Reports(es);
    es := Resets(es);
    es := Serves(es);
  }

  lemma Snapshots(es: seq<Event>) returns (fs: seq<Event>)
    requires var s := Run(es); Live(s) && s.pc.Stored? && s.f.exchanges == [] && s.f.subs == []
    ensures var s, s' := Run(es), Run(fs);
      && Live(s') && s'.pc.Snapped? && s'.snap == Some([]) && s'.i == 0
      && s'.consumers == s.consumers && s'.f == s.f
  {
    fs := Then(es, SnapExchanges);
    fs := Then(fs, SnapSubs);
  }

  lemma Breaks(es: seq<Event>) returns (fs: seq<Event>)
    requires Live(Run(es)) && Run(es).consumers == [Consumer("q", 1, 1, false, Waiting)]
    ensures var s, s' := Run(es), Run(fs);
      SameStart(s, s') && s'.f == s.f && s'.consumers == [Consumer("q", 1, 1, true, Waiting)]
  {
    fs := Then(es, BrokerRevokes(0));
  }

  lemma Notices(es: seq<Event>) returns (fs: seq<Event>)
    requires Live(Run(es)) && Run(es).consumers == [Consumer("q", 1, 1, true, Waiting)]
    ensures var s, s' := Run(es), Run(fs);
      SameStart(s, s') && s'.f == s.f && s'.consumers == [Consumer("q", 1, 1, true, SawClose)]
  {
    fs := Then(es, SeesClose(0));
  }

  lemma Decides(es: seq<Event>) returns (fs: seq<Event>)
    requires Live(Run(es)) && Run(es).consumers == [Consumer("q", 1, 1, true, SawClose)]
    ensures var s, s' := Run(es), Run(fs);
      SameStart(s, s') && s'.f == s.f && s'.consumers == [Consumer("q", 1, 1, true, Marking)]
  {
    fs := Then(es, ChecksContext(0));
  }

  lemma Reports(es: seq<Event>) returns (fs: seq<Event>)
    requires Live(Run(es)) && Run(es).consumers == [Consumer("q", 1, 1, true, Marking)]
    ensures var s, s' := Run(es), Run(fs);
      && s'.pc == s.pc && s'.snap == s.snap && s'.i == s.i && Live(s')
      && s'.consumers == [Consumer("q", 1, 1, true, Exited(true))]
  {
    fs := Then(es, MarksDead(0));
  }

  lemma Resets(es: seq<Event>) returns (fs: seq<Event>)
    requires var s := Run(es); Live(s) && s.pc.Snapped? && s.snap == Some([]) && s.i == 0
    ensures var s, s' := Run(es), Run(fs);
      && Live(s') && s'.pc.Binding? && s'.f.dead == map[] && s'.snap == Some([]) && s'.i == 0
      && s'.consumers == s.consumers
  {
    fs := Then(es, ResetDead);
  }

  lemma Serves(es: seq<Event>) returns (fs: seq<Event>)
    requires var s := Run(es); Live(s) && s.pc.Binding? && s.f.dead == map[] && s.snap == Some([]) && s.i == 0
    ensures var s, s' := Run(es), Run(fs);
      && s'.pc.Serving? && 1 !in s'.cancelled && s'.f.Healthy(false, false) && s'.consumers == s.consumers
  {
    fs := Then(es, Ready);
  }
}
