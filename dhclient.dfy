/**
 * The DHCP client functions dhclient6 and dhclient4: clamp the attempt
 * budget, run protocol exchanges until one succeeds or the budget is spent,
 * optionally log the final conversation, and hand it to the configuration
 * extractor only when the final exchange succeeded.
 *
 * The protocol library's Exchange, its link-local address lookup and the
 * extractor are outside this model; they appear as oracle parameters.
 */
module Dhclient {
  import opened Wrappers

  /** An error reported by a collaborator; only its text is ever used. */
  type Error = string

  /** What one call of the library's Exchange returned: the conversation
      it produced (partial when it failed) and its error, if any. */
  datatype Attempt<M> = Attempt(conv: seq<M>, err: Option<Error>)

  /** A line the client writes to the log. */
  datatype LogLine<M> =
    | AttemptLine(attempt: nat, of: nat)  // "Attempt <attempt> of <of>"
    | ErrorLine(err: Error)               // "Error: <err>"
    | Summary(msg: M)                     // the one-line summary of a message

  /** Everything one client call did: how many exchanges it issued, the
      conversation it ended with, what it logged, the conversation it passed
      to the extractor (None when the extractor was not called) and what it
      returned to its caller. */
  datatype Run<M, C> = Run(
    issued: nat,
    final: seq<M>,
    log: seq<LogLine<M>>,
    extractedFrom: Option<seq<M>>,
    result: Result<C, Error>)

  /** The attempt budget actually used: any value below 1 becomes 1. */
  function Clamp(attempts: int): (budget: nat)
    ensures budget >= 1
    ensures attempts >= 1 ==> budget == attempts
    ensures attempts < 1 ==> budget == 1
  {
    if attempts < 1 then 1 else attempts
  }

  /** The 0-based index of the attempt at which a loop that has reached
      attempt `from` stops: the first success from there on, or the last
      attempt of the budget. */
  function StopIndex<M>(exchange: nat -> Attempt<M>, budget: nat, from: nat): (k: nat)
    requires from < budget
    ensures from <= k < budget
    decreases budget - from
  {
    if exchange(from).err.None? || from + 1 == budget then from
    else StopIndex(exchange, budget, from + 1)
  }

  /** The lines the retry loop logs during its first `count` attempts:
      "Attempt n of budget" for each, followed by the error of each
      attempt that failed. */
  function AttemptLog<M>(exchange: nat -> Attempt<M>, budget: nat, count: nat): (lines: seq<LogLine<M>>)
    ensures forall i :: 0 <= i < |lines| ==> !lines[i].Summary?
  {
    if count == 0 then []
    else
      var failed := exchange(count - 1).err;
      AttemptLog(exchange, budget, count - 1) + [AttemptLine(count, budget)]
        + (if failed.Some? then [ErrorLine(failed.value)] else [])
  }

  /** The verbose log of a conversation: one summary per message, in
      conversation order. */
  function Summaries<M>(conv: seq<M>): (lines: seq<LogLine<M>>)
    ensures |lines| == |conv|
    ensures forall i :: 0 <= i < |conv| ==> lines[i] == Summary(conv[i])
  {
    seq(|conv|, i requires 0 <= i < |conv| => Summary(conv[i]))
  }

  /** Specification of the client after its family-specific setup: the
      attempt budget, the retry loop, the verbose log and the extraction. */
  function Negotiation<M, C>(attempts: int, verbose: bool, exchange: nat -> Attempt<M>,
                             extract: seq<M> -> Result<C, Error>): (run: Run<M, C>)
    ensures 1 <= run.issued <= Clamp(attempts)
  {
    var budget := Clamp(attempts);
    var k := StopIndex(exchange, budget, 0);
    var last := exchange(k);
    var log := AttemptLog(exchange, budget, k + 1) + (if verbose then Summaries(last.conv) else []);
    Run(k + 1, last.conv, log,
        if last.err.Some? then None else Some(last.conv),
        if last.err.Some? then Failure(last.err.value) else extract(last.conv))
  }

  /** Specification of dhclient6: the link-local address lookup comes
      first, and its failure ends the call before any exchange. */
  function Client6<M, C>(attempts: int, verbose: bool, linkLocalErr: Option<Error>,
                         exchange: nat -> Attempt<M>, extract: seq<M> -> Result<C, Error>): (run: Run<M, C>)
    ensures run.issued == 0 <==> linkLocalErr.Some?
  {
    if linkLocalErr.Some? then Run(0, [], [], None, Failure(linkLocalErr.value))
    else Negotiation(attempts, verbose, exchange, extract)
  }

  /** The retry loop: issue exchanges until one succeeds or the budget is
      spent, keeping only the latest conversation and error. `exchange(i)`
      is what the library's Exchange returns on the (i+1)-th attempt. */
  method RetryExchange<M>(budget: nat, exchange: nat -> Attempt<M>)
    returns (issued: nat, conv: seq<M>, err: Option<Error>, log: seq<LogLine<M>>)
    requires budget >= 1
    ensures issued == StopIndex(exchange, budget, 0) + 1
    ensures conv == exchange(issued - 1).conv && err == exchange(issued - 1).err
    ensures log == AttemptLog(exchange, budget, issued)
  {
    conv, err, log, issued := [], None, [], 0;
    var attempt := 0;
    while attempt < budget
      invariant 0 <= attempt <= budget
      invariant issued == attempt
      invariant log == AttemptLog(exchange, budget, attempt)
      invariant attempt < budget ==> StopIndex(exchange, budget, 0) == StopIndex(exchange, budget, attempt)
      invariant attempt == budget ==> StopIndex(exchange, budget, 0) == budget - 1
      invariant attempt == budget ==> conv == exchange(budget - 1).conv && err == exchange(budget - 1).err
    {
      log := log + [AttemptLine(attempt + 1, budget)];
      var outcome := exchange(attempt);
      issued := issued + 1;
      conv, err := outcome.conv, outcome.err;
      if err.Some? && attempt < budget {
        log := log + [ErrorLine(err.value)];
        attempt := attempt + 1;
        continue;
      }
      break;
    }
  }

  /** The verbose log: append the summary of every message of `conv`, in
      conversation order. */
  method LogConversation<M>(log: seq<LogLine<M>>, conv: seq<M>) returns (out: seq<LogLine<M>>)
    ensures out == log + Summaries(conv)
  {
    out := log;
    for i := 0 to |conv|
      invariant out == log + Summaries(conv[..i])
    {
      assert conv[..i + 1][..i] == conv[..i];
      out := out + [Summary(conv[i])];
    }
    assert conv[..|conv|] == conv;
  }

  /** The common body of dhclient4 and dhclient6 after their family-specific
      setup; `extract` is the conversation-to-configuration extractor. */
  method Negotiate<M, C>(attempts: int, verbose: bool, exchange: nat -> Attempt<M>,
                         extract: seq<M> -> Result<C, Error>) returns (run: Run<M, C>)
    ensures run == Negotiation(attempts, verbose, exchange, extract)
  {
    var budget := attempts;
    if budget < 1 {
      budget := 1;
    }
    var issued, conv, err, log := RetryExchange(budget, exchange);
    if verbose {
      log := LogConversation(log, conv);
    }
    if err.Some? {
      return Run(issued, conv, log, None, Failure(err.value));
    }
    var netconf := extract(conv);
    run := Run(issued, conv, log, Some(conv), netconf);
  }

  /** dhclient6: look up the interface's link-local address, then run the
      common client body with the DHCPv6 exchange and extractor. */
  method Dhclient6<M, C>(attempts: int, verbose: bool, linkLocalErr: Option<Error>,
                         exchange: nat -> Attempt<M>, extract: seq<M> -> Result<C, Error>) returns (run: Run<M, C>)
    ensures run == Client6(attempts, verbose, linkLocalErr, exchange, extract)
  {
    if linkLocalErr.Some? {
      return Run(0, [], [], None, Failure(linkLocalErr.value));
    }
    run := Negotiate(attempts, verbose, exchange, extract);
  }

  /** The loop stops at the first success, or at the last attempt when
      every earlier one failed. */
  lemma {:induction false} StopIndexIsFirstSuccessOrLast<M>(exchange: nat -> Attempt<M>, budget: nat, from: nat)
    requires from < budget
    ensures forall j :: from <= j < StopIndex(exchange, budget, from) ==> exchange(j).err.Some?
    ensures exchange(StopIndex(exchange, budget, from)).err.None? || StopIndex(exchange, budget, from) == budget - 1
    decreases budget - from
  {
    if exchange(from).err.Some? && from + 1 < budget {
      StopIndexIsFirstSuccessOrLast(exchange, budget, from + 1);
    }
  }

  /** The characterisation above pins the stopping attempt down. */
  lemma StopIndexUnique<M>(exchange: nat -> Attempt<M>, budget: nat, k: nat)
    requires k < budget
    requires forall j :: 0 <= j < k ==> exchange(j).err.Some?
    requires exchange(k).err.None? || k == budget - 1
    ensures StopIndex(exchange, budget, 0) == k
  {
    StopIndexIsFirstSuccessOrLast(exchange, budget, 0);
  }

  /** The loop logs "Attempt n of budget" exactly for n = 1 .. count, and
      logs the error of every attempt that failed, the last one included. */
  lemma {:induction false} AttemptLogContents<M>(exchange: nat -> Attempt<M>, budget: nat, count: nat)
    ensures forall n: nat :: AttemptLine(n, budget) in AttemptLog(exchange, budget, count) <==> 1 <= n <= count
    ensures forall i :: 0 <= i < |AttemptLog(exchange, budget, count)| && AttemptLog(exchange, budget, count)[i].AttemptLine? ==>
              AttemptLog(exchange, budget, count)[i].of == budget
    ensures forall j :: 0 <= j < count && exchange(j).err.Some? ==> ErrorLine(exchange(j).err.value) in AttemptLog(exchange, budget, count)
  {
    if count > 0 {
      AttemptLogContents(exchange, budget, count - 1);
    }
  }

  /** The retry loop's log in order: attempt lines are numbered from 1 to
      `count`, in increasing order. */
  lemma {:induction false} AttemptLogOrder<M>(exchange: nat -> Attempt<M>, budget: nat, count: nat)
    ensures forall i :: 0 <= i < |AttemptLog(exchange, budget, count)| && AttemptLog(exchange, budget, count)[i].AttemptLine? ==>
              1 <= AttemptLog(exchange, budget, count)[i].attempt <= count
    ensures forall i, k :: (0 <= i < k < |AttemptLog(exchange, budget, count)|
              && AttemptLog(exchange, budget, count)[i].AttemptLine? && AttemptLog(exchange, budget, count)[k].AttemptLine?) ==>
              AttemptLog(exchange, budget, count)[i].attempt < AttemptLog(exchange, budget, count)[k].attempt
  {
    if count > 0 {
      AttemptLogOrder(exchange, budget, count - 1);
      var prev := AttemptLog(exchange, budget, count - 1);
      var failed := exchange(count - 1).err;
      var tail := [AttemptLine(count, budget)] + (if failed.Some? then [ErrorLine(failed.value)] else []);
      var lines := AttemptLog(exchange, budget, count);
      assert lines == prev + tail;
      forall i | 0 <= i < |lines| && lines[i].AttemptLine?
        ensures 1 <= lines[i].attempt <= count
      {
        if i >= |prev| {
          assert lines[i] == tail[i - |prev|];
        } else {
          assert lines[i] == prev[i] && prev[i].AttemptLine?;
        }
      }
      forall i, k | 0 <= i < k < |lines| && lines[i].AttemptLine? && lines[k].AttemptLine?
        ensures lines[i].attempt < lines[k].attempt
      {
        if k >= |prev| {
          assert lines[k] == tail[k - |prev|];
          assert k == |prev|;
          assert lines[i] == prev[i];
        } else {
          assert lines[i] == prev[i] && lines[k] == prev[k];
        }
      }
    }
  }

  /** Error lines in the retry loop's log come only from failed attempts:
      each one comes right after the line of the attempt that failed, and
      carries that attempt's error. */
  lemma {:induction false} AttemptLogErrors<M>(exchange: nat -> Attempt<M>, budget: nat, count: nat)
    ensures forall i :: 0 <= i < |AttemptLog(exchange, budget, count)| && AttemptLog(exchange, budget, count)[i].ErrorLine? ==>
              && 0 < i
              && AttemptLog(exchange, budget, count)[i - 1].AttemptLine?
              && AttemptLog(exchange, budget, count)[i - 1].attempt >= 1
              && exchange(AttemptLog(exchange, budget, count)[i - 1].attempt - 1).err == Some(AttemptLog(exchange, budget, count)[i].err)
  {
    if count > 0 {
      AttemptLogErrors(exchange, budget, count - 1);
      var prev := AttemptLog(exchange, budget, count - 1);
      var failed := exchange(count - 1).err;
      var tail := [AttemptLine(count, budget)] + (if failed.Some? then [ErrorLine(failed.value)] else []);
      var lines := AttemptLog(exchange, budget, count);
      assert lines == prev + tail;
      forall i | 0 <= i < |lines| && lines[i].ErrorLine?
        ensures 0 < i && lines[i - 1].AttemptLine? && lines[i - 1].attempt >= 1
        ensures exchange(lines[i - 1].attempt - 1).err == Some(lines[i].err)
      {
        if i >= |prev| {
          assert lines[i] == tail[i - |prev|];
          assert i == |prev| + 1;
          assert lines[i - 1] == AttemptLine(count, budget);
        } else {
          assert lines[i] == prev[i] && prev[i].ErrorLine?;
          assert 0 < i;
          assert lines[i - 1] == prev[i - 1];
        }
      }
    }
  }

  /** If attempt k (1-based) is the first to succeed, exactly k exchanges
      are issued, attempt k+1 never starts, and the extractor receives
      attempt k's conversation and its result is returned unchanged. */
  lemma FirstSuccessStops<M, C>(attempts: int, verbose: bool, exchange: nat -> Attempt<M>,
                                extract: seq<M> -> Result<C, Error>, k: nat)
    requires 1 <= k <= Clamp(attempts)
    requires forall j :: 0 <= j < k - 1 ==> exchange(j).err.Some?
    requires exchange(k - 1).err.None?
    ensures Negotiation(attempts, verbose, exchange, extract).issued == k
    ensures Negotiation(attempts, verbose, exchange, extract).extractedFrom == Some(exchange(k - 1).conv)
    ensures Negotiation(attempts, verbose, exchange, extract).result == extract(exchange(k - 1).conv)
    ensures AttemptLine(k + 1, Clamp(attempts)) !in Negotiation(attempts, verbose, exchange, extract).log
  {
    var budget := Clamp(attempts);
    StopIndexUnique(exchange, budget, k - 1);
    AttemptLogContents(exchange, budget, k);
    var conv := exchange(k - 1).conv;
    var tail := if verbose then Summaries(conv) else [];
    assert forall i :: 0 <= i < |tail| ==> tail[i].Summary?;
  }

  /** If every attempt fails, exactly `Clamp(attempts)` exchanges are
      issued, the extractor is never called, and the returned error, the
      final conversation and the last error line are all the final
      attempt's. */
  lemma AllFailuresExhaust<M, C>(attempts: int, verbose: bool, exchange: nat -> Attempt<M>,
                                 extract: seq<M> -> Result<C, Error>)
    requires forall j :: 0 <= j < Clamp(attempts) ==> exchange(j).err.Some?
    ensures Negotiation(attempts, verbose, exchange, extract).issued == Clamp(attempts)
    ensures Negotiation(attempts, verbose, exchange, extract).final == exchange(Clamp(attempts) - 1).conv
    ensures Negotiation(attempts, verbose, exchange, extract).extractedFrom == None
    ensures Negotiation(attempts, verbose, exchange, extract).result == Failure(exchange(Clamp(attempts) - 1).err.value)
    ensures var lines := AttemptLog(exchange, Clamp(attempts), Clamp(attempts));
      && |lines| <= |Negotiation(attempts, verbose, exchange, extract).log|
      && Negotiation(attempts, verbose, exchange, extract).log[..|lines|] == lines
      && lines[|lines| - 1] == ErrorLine(exchange(Clamp(attempts) - 1).err.value)
  {
    var budget := Clamp(attempts);
    StopIndexUnique(exchange, budget, budget - 1);
    AttemptLogContents(exchange, budget, budget);
  }

  /** A log made of `lines` followed by the summaries of `conv` ends with
      one summary per message of `conv`, in order. */
  lemma SummariesAtEnd<M>(lines: seq<LogLine<M>>, conv: seq<M>, log: seq<LogLine<M>>)
    requires log == lines + Summaries(conv)
    ensures |conv| <= |log|
    ensures forall i :: 0 <= i < |conv| ==> log[|log| - |conv| + i] == Summary(conv[i])
  {
    var summaries := Summaries(conv);
    forall i | 0 <= i < |conv|
      ensures log[|log| - |conv| + i] == Summary(conv[i])
    {
      assert log[|lines| + i] == summaries[i];
    }
  }

  /** The log of a negotiation is the retry loop's lines for the attempts
      it issued, followed, when verbose, by the final conversation's
      summaries. */
  lemma NegotiationShape<M, C>(attempts: int, verbose: bool, exchange: nat -> Attempt<M>,
                               extract: seq<M> -> Result<C, Error>)
    ensures var run := Negotiation(attempts, verbose, exchange, extract);
      run.log == AttemptLog(exchange, Clamp(attempts), run.issued) + (if verbose then Summaries(run.final) else [])
  {
  }

  /** With verbose on, the log ends with the summary of every message of
      the final conversation in order, whether or not that attempt failed;
      with verbose off, no message is summarised. */
  lemma VerboseLogsFinalConversation<M, C>(attempts: int, verbose: bool, exchange: nat -> Attempt<M>,
                                           extract: seq<M> -> Result<C, Error>)
    ensures var run := Negotiation(attempts, verbose, exchange, extract);
      verbose ==> (|run.final| <= |run.log| &&
        forall i :: 0 <= i < |run.final| ==> run.log[|run.log| - |run.final| + i] == Summary(run.final[i]))
    ensures var run := Negotiation(attempts, verbose, exchange, extract);
      !verbose ==> forall i :: 0 <= i < |run.log| ==> !run.log[i].Summary?
  {
    var run := Negotiation(attempts, verbose, exchange, extract);
    NegotiationShape(attempts, verbose, exchange, extract);
    var lines := AttemptLog(exchange, Clamp(attempts), run.issued);
    if verbose {
      SummariesAtEnd(lines, run.final, run.log);
    } else {
      assert run.log == lines;
    }
  }

  /** The extractor runs exactly when the final attempt succeeded, on that
      attempt's conversation; otherwise no configuration is returned, only
      the final attempt's error. */
  lemma ExtractionOnlyOnSuccess<M, C>(attempts: int, verbose: bool, exchange: nat -> Attempt<M>,
                                      extract: seq<M> -> Result<C, Error>)
    ensures var run := Negotiation(attempts, verbose, exchange, extract);
      var last := exchange(run.issued - 1);
      && run.final == last.conv
      && (run.extractedFrom.Some? <==> last.err.None?)
      && (last.err.None? ==> run.extractedFrom == Some(last.conv) && run.result == extract(last.conv))
      && (last.err.Some? ==> run.result == Failure(last.err.value))
  {
  }

  /** An attempt budget below 1 behaves exactly like a budget of 1. */
  lemma BudgetBelowOneActsAsOne<M, C>(attempts: int, verbose: bool, exchange: nat -> Attempt<M>,
                                      extract: seq<M> -> Result<C, Error>)
    requires attempts < 1
    ensures Negotiation(attempts, verbose, exchange, extract) == Negotiation(1, verbose, exchange, extract)
    ensures Negotiation(attempts, verbose, exchange, extract).issued == 1
  {
  }

  /** For DHCPv6, a failed link-local lookup is returned as is, with no
      exchange issued, nothing logged and no extraction. */
  lemma LinkLocalFailureSkipsExchange<M, C>(attempts: int, verbose: bool, e: Error,
                                            exchange: nat -> Attempt<M>, extract: seq<M> -> Result<C, Error>)
    ensures Client6(attempts, verbose, Some(e), exchange, extract).issued == 0
    ensures Client6(attempts, verbose, Some(e), exchange, extract).log == []
    ensures Client6(attempts, verbose, Some(e), exchange, extract).extractedFrom == None
    ensures Client6(attempts, verbose, Some(e), exchange, extract).result == Failure(e)
  {
  }
}
