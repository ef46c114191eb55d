/** What is in the dead-letter queue, over whole runs: exactly the terminal failures, for good. */
module PipelineDlq {
  import opened Wrappers
  import opened Amqp
  import opened RetryPolicies
  import opened Republishing
  import opened Subscriptions
  import opened Pipeline
  import opened PipelineConservation
  import opened PipelineRetries

  /** A failure that ends a message's retries: the handler asked to drop it, or none are left. */
  predicate Terminal(p: RetryPolicy, l: Lineage, drop: bool) {
    drop || Count(l) >= p.MaxRetries()
  }

  /**
   * Event `j` of the run republished delivery `tag`, storing copy `c`, after event `i` had the
   * handler return an error, and that failure was terminal for the message delivered.
   */
  ghost predicate TerminalFailureAt(sub: Subscription, es: seq<Event>, i: nat, j: nat, c: nat) {
    && i < j < |es| && Fires(sub, es, i) && Fires(sub, es, j)
    && sub.retry.Some?
    && es[j].Republish? && es[j].stored
    && (var s := Run(sub, EMPTY, es[..j]);
        && |s.cells| == c
        && es[i].HandlerReturns? && es[i].tag == es[j].tag && es[i].verdict.Error?
        && Terminal(sub.retry.value, s.deliveries[es[j].tag].lineage, es[i].verdict.drop))
  }

  /** A delivery that is failing got its verdict from an earlier event of the run. */
  lemma {:induction false} FailingHasVerdict(sub: Subscription, es: seq<Event>, t: nat) returns (i: nat)
    requires var s := Run(sub, EMPTY, es); t < |s.deliveries| && s.deliveries[t].phase.Failing?
    ensures i < |es| && Fires(sub, es, i)
    ensures es[i] == HandlerReturns(t, Error(Run(sub, EMPTY, es).deliveries[t].phase.drop))
  {
    var n := |es| - 1;
    var s0 := Run(sub, EMPTY, es[..n]);
    if t < |s0.deliveries| && s0.deliveries[t].phase.Failing? {
      i := FailingHasVerdict(sub, es[..n], t);
      FiresInPrefix(sub, es, n, i);
    } else {
      i := n;
    }
  }

  lemma TerminalInPrefix(sub: Subscription, es: seq<Event>, n: nat, i: nat, j: nat, c: nat)
    requires n <= |es| && TerminalFailureAt(sub, es[..n], i, j, c)
    ensures TerminalFailureAt(sub, es, i, j, c)
  {
    FiresInPrefix(sub, es, n, i);
    FiresInPrefix(sub, es, n, j);
    assert es[..n][..j] == es[..j];
  }

  /** Every copy in the DLQ was put there by a terminal failure, and by nothing else. */
  lemma {:induction false} DlqOnlyFromTerminalFailures(sub: Subscription, es: seq<Event>, c: nat)
    returns (i: nat, j: nat)
    requires sub.NamesDistinct()
    requires var s := Run(sub, EMPTY, es); c < |s.cells| && s.cells[c].place.InDlq?
    ensures TerminalFailureAt(sub, es, i, j, c)
  {
    var n := |es| - 1;
    var before := es[..n];
    var s0 := Run(sub, EMPTY, before);
    if c < |s0.cells| {
      BooksHold(sub, before);
      AllLawfulHolds(sub, before);
      assert CellLawful(sub, s0, c);
      StaysOutOfDlq(sub, s0, es[n], c);
      i, j := DlqOnlyFromTerminalFailures(sub, before, c);
      TerminalInPrefix(sub, es, n, i, j, c);
    } else {
      j := n;
      assert Fires(sub, es, n);
      i := FailingHasVerdict(sub, before, es[n].tag);
      FiresInPrefix(sub, es, n, i);
    }
  }

  /** No step moves an existing copy into the DLQ or out of it. */
  lemma StaysOutOfDlq(sub: Subscription, s: State, e: Event, c: nat)
    requires BooksOk(s) && c < |s.cells|
    ensures Step(sub, s, e).cells[c].place.InDlq? <==> s.cells[c].place.InDlq?
    ensures s.cells[c].place.InDlq? ==> Step(sub, s, e).cells[c] == s.cells[c]
  {
  }

  /** A copy in the DLQ stays there, unchanged, through any continuation of the run. */
  lemma {:induction false} DlqIsTerminal(sub: Subscription, es: seq<Event>, fs: seq<Event>, c: nat)
    requires var s := Run(sub, EMPTY, es); c < |s.cells| && s.cells[c].place.InDlq?
    ensures var s' := Run(sub, EMPTY, es + fs);
      c < |s'.cells| && s'.cells[c] == Run(sub, EMPTY, es).cells[c]
    decreases |fs|
  {
    if fs == [] {
      assert es + fs == es;
    } else {
      var gs := fs[..|fs| - 1];
      DlqIsTerminal(sub, es, gs, c);
      assert (es + fs)[..|es + fs| - 1] == es + gs;
      BooksHold(sub, es + gs);
      StaysOutOfDlq(sub, Run(sub, EMPTY, es + gs), fs[|fs| - 1], c);
    }
  }

  /**
   * The clone of a failed delivery goes to the DLQ if and only if the failure was terminal;
   * otherwise it waits in the retry queue.
   */
  lemma FailureGoesWhereItShould(sub: Subscription, es: seq<Event>, t: nat, reported: bool)
    requires sub.NamesDistinct() && Enabled(sub, Run(sub, EMPTY, es), Republish(t, true, reported))
    ensures var s := Run(sub, EMPTY, es);
      var s' := Run(sub, EMPTY, es + [Republish(t, true, reported)]);
      var d := s.deliveries[t];
      && |s'.cells| == |s.cells| + 1
      && (s'.cells[|s.cells|].place.InDlq? <==> Terminal(sub.retry.value, d.lineage, d.phase.drop))
      && (s'.cells[|s.cells|].place.InRetry? <==> !Terminal(sub.retry.value, d.lineage, d.phase.drop))
  {
    assert (es + [Republish(t, true, reported)])[..|es|] == es;
  }

  /**
   * The header of a dead-lettered copy records the retries its message went through; and a copy
   * that was not dropped on request went through all the policy allows.
   */
  lemma DlqHeaderIsHops(sub: Subscription, es: seq<Event>, c: nat)
    requires sub.NamesDistinct() && sub.CounterFits() && sub.retry.Some?
    requires var s := Run(sub, EMPTY, es); c < |s.cells| && s.cells[c].place.InDlq?
    requires RETRY_HEADER !in Root(Run(sub, EMPTY, es).cells[c].lineage).headers
    ensures var l := Run(sub, EMPTY, es).cells[c].lineage;
      && l.DeadLettered?
      && Hops(l) <= sub.retry.value.MaxRetries()
      && RETRY_HEADER in l.msg.headers && l.msg.headers[RETRY_HEADER] == I32(Hops(l))
      && (!l.drop ==> Hops(l) == sub.retry.value.MaxRetries())
  {
    AllLawfulHolds(sub, es);
    var l := Run(sub, EMPTY, es).cells[c].lineage;
    assert CellLawful(sub, Run(sub, EMPTY, es), c);
    CounterIsHops(sub.retry.value, l);
    CounterIsHops(sub.retry.value, l.from);
    DlqStampedHeader(sub, es, c);
  }

  /** The counter of a dead-lettered copy is stored as an int32. */
  lemma {:induction false} DlqStampedHeader(sub: Subscription, es: seq<Event>, c: nat)
    requires sub.NamesDistinct()
    requires var s := Run(sub, EMPTY, es); c < |s.cells| && s.cells[c].place.InDlq?
    ensures var h := Run(sub, EMPTY, es).cells[c].lineage.msg.headers;
      RETRY_HEADER in h && h[RETRY_HEADER].I32?
  {
    var n := |es| - 1;
    var s0 := Run(sub, EMPTY, es[..n]);
    if c < |s0.cells| {
      BooksHold(sub, es[..n]);
      StaysOutOfDlq(sub, s0, es[n], c);
      DlqStampedHeader(sub, es[..n], c);
    }
  }
}
