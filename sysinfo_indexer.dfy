/** SysinfoIndexer: the Runnable that, until closed or interrupted, reads one kind of system
    information from the source client and stores it as a document in the target cluster, once per
    indexing period. Time and the other threads are inputs: a run is driven by a script of ticks,
    one per loop iteration. */
module Indexer {
  import opened Wrappers
  import opened Settings
  import opened SysinfoTypes
  import opened SourceClients

  /** What an indexer is built from; the constructor stores each argument unchanged. */
  datatype IndexerConfig = IndexerConfig(
    name: string,
    sourceClient: SourceClient,
    targetClient: ClientHandle,
    infoType: SysinfoType,
    indexName: string,
    typeName: string,
    indexingPeriod: int,
    params: Option<seq<Entry>>)

  /** How one processLoopTask call went: the information was read and stored, the read threw, the
      read was interrupted, or the information was read but storing it threw. */
  datatype PollOutcome = Polled(content: string) | ReadFailed | ReadInterrupted | StoreFailed(content: string)

  /** The calls processLoopTask makes: sourceClient.readSysinfoValue(infoType, params), and
      targetClient.prepareIndex(indexName, typeName).setSource(content). */
  datatype Event =
    | Read(source: SourceClient, infoType: SysinfoType, params: Option<seq<Entry>>)
    | Store(target: ClientHandle, indexName: string, typeName: string, content: string)
    | Sleep(millis: int)

  /** One iteration of run's loop as the environment lets it happen: whether close() was called
      before the closed check, the clock when the poll starts, the poll's outcome, whether close()
      was called during the poll, the clock after it, and whether the thread is interrupted while
      sleeping. */
  datatype Tick = Tick(
    closedBeforePoll: bool,
    start: int,
    outcome: PollOutcome,
    closedDuringPoll: bool,
    now: int,
    sleepInterrupted: bool)

  /** Why run returned; StillRunning means the script ended while the loop was still going. */
  datatype Exit = ClosedBeforePoll | InterruptedInPoll | ClosedAfterPoll | InterruptedInSleep | StillRunning

  /** processLoopTask: read with the indexer's type and parameters, then store the content under
      the indexer's index and type. */
  function LoopTask(c: IndexerConfig, outcome: PollOutcome): (events: seq<Event>)
    ensures |events| > 0 && events[0] == Read(c.sourceClient, c.infoType, c.params)
    ensures outcome.Polled? || outcome.StoreFailed? ==>
      events == [Read(c.sourceClient, c.infoType, c.params), Store(c.targetClient, c.indexName, c.typeName, outcome.content)]
    ensures outcome.ReadFailed? || outcome.ReadInterrupted? ==> |events| == 1
    ensures forall e :: e in events ==> !e.Sleep?
  {
    var read := Read(c.sourceClient, c.infoType, c.params);
    match outcome
    case Polled(content) => [read, Store(c.targetClient, c.indexName, c.typeName, content)]
    case StoreFailed(content) => [read, Store(c.targetClient, c.indexName, c.typeName, content)]
    case _ => [read]
  }

  /** How long run sleeps after a poll: the rest of the period, measured from the poll's start. */
  function WaitFor(c: IndexerConfig, t: Tick): int
  {
    c.indexingPeriod - (t.now - t.start)
  }

  /** One loop iteration: the calls it makes and, when run returns in it, why. A failed poll is
      logged and the loop goes on; only close() and an interrupt end it. */
  function TickStep(c: IndexerConfig, t: Tick): (r: (seq<Event>, Option<Exit>))
    ensures r.1.Some? <==>
      (t.closedBeforePoll || t.outcome.ReadInterrupted? || t.closedDuringPoll || (WaitFor(c, t) > 0 && t.sleepInterrupted))
    ensures r.1 != Some(StillRunning)
    ensures t.closedBeforePoll ==> r == ([], Some(ClosedBeforePoll))
    ensures !t.closedBeforePoll && t.outcome.ReadInterrupted? ==> r == (LoopTask(c, t.outcome), Some(InterruptedInPoll))
    ensures !t.closedBeforePoll && !t.outcome.ReadInterrupted? && t.closedDuringPoll ==>
      r == (LoopTask(c, t.outcome), Some(ClosedAfterPoll))
    ensures !t.closedBeforePoll && !t.outcome.ReadInterrupted? && !t.closedDuringPoll ==>
      r.0 == LoopTask(c, t.outcome) + (if WaitFor(c, t) > 0 then [Sleep(WaitFor(c, t))] else []) &&
      r.1 == (if WaitFor(c, t) > 0 && t.sleepInterrupted then Some(InterruptedInSleep) else None)
    ensures (exists e :: e in r.0 && e.Sleep?) <==>
      (!t.closedBeforePoll && !t.outcome.ReadInterrupted? && !t.closedDuringPoll && WaitFor(c, t) > 0)
    ensures forall e :: e in r.0 && e.Sleep? ==> e == Sleep(WaitFor(c, t)) && e.millis > 0
  {
    if t.closedBeforePoll then ([], Some(ClosedBeforePoll))
    else
      var task := LoopTask(c, t.outcome);
      if t.outcome.ReadInterrupted? then (task, Some(InterruptedInPoll))
      else if t.closedDuringPoll then (task, Some(ClosedAfterPoll))
      else if WaitFor(c, t) > 0 then
        var sleep := Sleep(WaitFor(c, t));
        assert sleep in task + [sleep];
        (task + [sleep], if t.sleepInterrupted then Some(InterruptedInSleep) else None)
      else (task, None)
  }

  /** A run over a script: the calls made, in order, and why it returned. */
  datatype RunTrace = RunTrace(exit: Exit, events: seq<Event>)

  /** The loop of run over the script's ticks, stopping at the first tick that ends it. */
  function RunSpec(c: IndexerConfig, ticks: seq<Tick>): (r: RunTrace)
    ensures forall e :: e in r.events && e.Read? ==> e == Read(c.sourceClient, c.infoType, c.params)
    ensures forall e :: e in r.events && e.Store? ==>
      e.target == c.targetClient && e.indexName == c.indexName && e.typeName == c.typeName
    ensures forall e :: e in r.events && e.Sleep? ==> e.millis > 0
  {
    if |ticks| == 0 then RunTrace(StillRunning, [])
    else
      var (events, exit) := TickStep(c, ticks[0]);
      assert forall e :: e in events && !e.Sleep? ==> e in LoopTask(c, ticks[0].outcome);
      if exit.Some? then RunTrace(exit.value, events)
      else
        var rest := RunSpec(c, ticks[1..]);
        RunTrace(rest.exit, events + rest.events)
  }

  /** RunSpec of a non-empty script, one tick at a time. */
  lemma RunSpecUnfold(c: IndexerConfig, ticks: seq<Tick>)
    requires |ticks| > 0
    ensures TickStep(c, ticks[0]).1.Some? ==> RunSpec(c, ticks) == RunTrace(TickStep(c, ticks[0]).1.value, TickStep(c, ticks[0]).0)
    ensures TickStep(c, ticks[0]).1.None? ==>
      RunSpec(c, ticks) == RunTrace(RunSpec(c, ticks[1..]).exit, TickStep(c, ticks[0]).0 + RunSpec(c, ticks[1..]).events)
  {
  }

  /** One step of run's loop: given the trace of the ticks before tick i, the trace after it is
      either finished by tick i or continues with the rest of the script. */
  lemma RunSpecStep(c: IndexerConfig, script: seq<Tick>, i: nat, events: seq<Event>, step: seq<Event>, ex: Option<Exit>)
    requires i < |script|
    requires (step, ex) == TickStep(c, script[i])
    requires RunSpec(c, script) == RunTrace(RunSpec(c, script[i..]).exit, events + RunSpec(c, script[i..]).events)
    ensures ex.Some? ==> RunSpec(c, script) == RunTrace(ex.value, events + step)
    ensures ex.None? ==>
      RunSpec(c, script) == RunTrace(RunSpec(c, script[i + 1..]).exit, events + step + RunSpec(c, script[i + 1..]).events)
  {
    RunSpecUnfold(c, script[i..]);
    assert script[i..][0] == script[i];
    assert script[i..][1..] == script[i + 1..];
    if ex.None? {
      var rest := RunSpec(c, script[i + 1..]).events;
      assert events + (step + rest) == events + step + rest;
    }
  }

  /** Whether a tick ends the loop. */
  predicate Ends(c: IndexerConfig, t: Tick)
  {
    TickStep(c, t).1.Some?
  }

  /** The loop keeps running exactly as long as no tick closes the indexer or interrupts it:
      failed reads and failed stores never stop it. */
  lemma {:induction false} RunKeepsGoing(c: IndexerConfig, ticks: seq<Tick>)
    ensures RunSpec(c, ticks).exit == StillRunning <==> forall i :: 0 <= i < |ticks| ==> !Ends(c, ticks[i])
  {
    if |ticks| > 0 {
      RunKeepsGoing(c, ticks[1..]);
      assert forall i :: 1 <= i < |ticks| ==> ticks[i] == ticks[1..][i - 1];
    }
  }

  /** The number of polls in a trace. */
  function CountReads(events: seq<Event>): nat
  {
    if |events| == 0 then 0 else (if events[0].Read? then 1 else 0) + CountReads(events[1..])
  }

  lemma {:induction false} CountReadsAppend(a: seq<Event>, b: seq<Event>)
    ensures CountReads(a + b) == CountReads(a) + CountReads(b)
  {
    if |a| > 0 {
      assert (a + b)[0] == a[0];
      assert (a + b)[1..] == a[1..] + b;
      CountReadsAppend(a[1..], b);
    } else {
      assert a + b == b;
    }
  }

  /** processLoopTask reads exactly once, whether or not it stores. */
  lemma LoopTaskReadsOnce(c: IndexerConfig, outcome: PollOutcome)
    ensures CountReads(LoopTask(c, outcome)) == 1
  {
    var task := LoopTask(c, outcome);
    if |task| == 2 {
      assert task[1..][1..] == [];
      assert !task[1..][0].Read?;
      assert CountReads(task[1..]) == 0;
    } else {
      assert task[1..] == [];
    }
  }

  /** While the loop keeps going, each tick polls exactly once, whatever the poll's outcome. */
  lemma {:induction false} OnePollPerTick(c: IndexerConfig, ticks: seq<Tick>)
    requires forall i :: 0 <= i < |ticks| ==> !Ends(c, ticks[i])
    ensures CountReads(RunSpec(c, ticks).events) == |ticks|
  {
    if |ticks| > 0 {
      var t := ticks[0];
      var (events, exit) := TickStep(c, t);
      assert !Ends(c, t);
      OnePollPerTick(c, ticks[1..]);
      assert forall i :: 0 <= i < |ticks[1..]| ==> ticks[1..][i] == ticks[i + 1];
      CountReadsAppend(events, RunSpec(c, ticks[1..]).events);
      var task := LoopTask(c, t.outcome);
      LoopTaskReadsOnce(c, t.outcome);
      if WaitFor(c, t) > 0 {
        CountReadsAppend(task, [Sleep(WaitFor(c, t))]);
      } else {
        assert events == task + [];
      }
    }
  }

  class SysinfoIndexer {
    var closed: bool
    const name: string
    const sourceClient: SourceClient
    const targetClient: ClientHandle
    const infoType: SysinfoType
    const indexName: string
    const typeName: string
    const indexingPeriod: int
    const params: Option<seq<Entry>>

    function Config(): IndexerConfig
    {
      IndexerConfig(name, sourceClient, targetClient, infoType, indexName, typeName, indexingPeriod, params)
    }

    /** The constructor: every argument is kept unchanged and the indexer starts closed. */
    constructor(c: IndexerConfig)
      ensures Config() == c
      ensures closed
    {
      name := c.name;
      sourceClient := c.sourceClient;
      targetClient := c.targetClient;
      infoType := c.infoType;
      indexName := c.indexName;
      typeName := c.typeName;
      indexingPeriod := c.indexingPeriod;
      params := c.params;
      closed := true;
    }

    /** close: only marks the indexer closed; a second call changes nothing more. */
    method Close()
      modifies this
      ensures closed
    {
      closed := true;
    }

    /** One pass of run's loop body: the closed check, processLoopTask, the closed check after it
        and the sleep for the rest of the period. */
    method LoopIteration(t: Tick) returns (events: seq<Event>, exit: Option<Exit>)
      ensures (events, exit) == TickStep(Config(), t)
    {
      if t.closedBeforePoll {
        return [], Some(ClosedBeforePoll);
      }
      events := LoopTask(Config(), t.outcome);
      if t.outcome.ReadInterrupted? {
        return events, Some(InterruptedInPoll);
      }
      if t.closedDuringPoll {
        return events, Some(ClosedAfterPoll);
      }
      var waitFor := indexingPeriod - (t.now - t.start);
      if waitFor > 0 {
        events := events + [Sleep(waitFor)];
        if t.sleepInterrupted {
          return events, Some(InterruptedInSleep);
        }
      }
      return events, None;
    }

    /** run: reopens the indexer, loops over the script's ticks, and leaves it closed whenever it
        returns. The flag stays open only if the script ends while the loop is still going. */
    method Run(script: seq<Tick>) returns (trace: RunTrace)
      modifies this`closed
      ensures trace == RunSpec(Config(), script)
      ensures closed <==> trace.exit != StillRunning
    {
      closed := false;
      trace := RunLoop(script);
      // the finally block
      closed := trace.exit != StillRunning;
    }

    /** run's loop: one LoopIteration per tick until one of them ends the loop or the script
        runs out. */
    method RunLoop(script: seq<Tick>) returns (trace: RunTrace)
      ensures trace == RunSpec(Config(), script)
    {
      var c := Config();
      var events: seq<Event> := [];
      var exit: Option<Exit> := None;
      var i := 0;
      while i < |script| && exit.None?
        invariant 0 <= i <= |script|
        invariant exit != Some(StillRunning)
        invariant exit.None? ==>
          RunSpec(c, script) == RunTrace(RunSpec(c, script[i..]).exit, events + RunSpec(c, script[i..]).events)
        invariant exit.Some? ==> RunSpec(c, script) == RunTrace(exit.value, events)
      {
        var step, ex := LoopIteration(script[i]);
        RunSpecStep(c, script, i, events, step, ex);
        events := events + step;
        exit := ex;
        i := i + 1;
      }
      if exit.None? {
        assert script[i..] == [];
      }
      trace := RunTrace(if exit.Some? then exit.value else StillRunning, events);
    }
  }
}
