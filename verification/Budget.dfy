/** Resource budgets of the local worker: which sample breaches, and when breaches end an execution. */
module Budget {
  import opened Wrappers
  import opened Arithmetic

  datatype Budgets = Budgets(maxRss: int, maxCpu: real, maxLog: int, maxFds: int, strikes: int)
  datatype Sample = Sample(rss: int, cpu: real, log: int, fds: int)
  datatype Reason = Memory | LogOutput | Cpu | OpenFiles

  /** A limit that is not positive does not apply. */
  predicate Exceeds(b: Budgets, s: Sample, r: Reason) {
    match r
    case Memory => b.maxRss > 0 && s.rss > b.maxRss
    case LogOutput => b.maxLog > 0 && s.log > b.maxLog
    case Cpu => b.maxCpu > 0.0 && s.cpu > b.maxCpu
    case OpenFiles => b.maxFds > 0 && s.fds > b.maxFds
  }

  function Rank(r: Reason): nat {
    match r case Memory => 0 case LogOutput => 1 case Cpu => 2 case OpenFiles => 3
  }

  /** evaluateBudget: a sample breaches iff some limit is exceeded, and the first one in order is reported. */
  function Evaluate(b: Budgets, s: Sample): (r: Option<Reason>)
    ensures r.Some? <==> exists x: Reason :: Exceeds(b, s, x)
    ensures r.Some? ==> Exceeds(b, s, r.value) && forall x: Reason :: Exceeds(b, s, x) ==> Rank(r.value) <= Rank(x)
  {
    if b.maxRss > 0 && s.rss > b.maxRss then assert Exceeds(b, s, Memory); Some(Memory)
    else if b.maxLog > 0 && s.log > b.maxLog then assert Exceeds(b, s, LogOutput); Some(LogOutput)
    else if b.maxCpu > 0.0 && s.cpu > b.maxCpu then assert Exceeds(b, s, Cpu); Some(Cpu)
    else if b.maxFds > 0 && s.fds > b.maxFds then assert Exceeds(b, s, OpenFiles); Some(OpenFiles)
    else None
  }

  function Strikes(b: Budgets): (n: nat)
    ensures n >= 1 && (b.strikes >= 1 ==> n == b.strikes) && (b.strikes < 1 ==> n == 1)
  {
    if b.strikes <= 0 then 1 else b.strikes
  }

  /** What sampling one running process gave; None when the sample or the execution's row could not be read. */
  datatype Probe = Probe(id: string, sample: Option<Sample>)

  /** What happens to breach counters: a probe, or an execution's counter being dropped because it was stopped
      or its process exited. */
  datatype Event = Probed(probe: Probe) | Dropped(id: string)

  type Counts = map<string, nat>

  function CountOf(counts: Counts, id: string): nat {
    if id in counts then counts[id] else 0
  }

  /** One turn of the sampling loop: the new counters, and the reason when the execution is terminated. */
  function Observe(b: Budgets, counts: Counts, p: Probe): (Counts, Option<Reason>) {
    if p.sample.None? then (counts, None)
    else
      var reason := Evaluate(b, p.sample.value);
      if reason.None? then (counts[p.id := 0], None)
      else if CountOf(counts, p.id) + 1 < Strikes(b) then (counts[p.id := CountOf(counts, p.id) + 1], None)
      else (counts - {p.id}, reason)
  }

  function Step(b: Budgets, counts: Counts, e: Event): Counts {
    match e
    case Probed(p) => Observe(b, counts, p).0
    case Dropped(id) => counts - {id}
  }

  ghost function Run(b: Budgets, events: seq<Event>): Counts {
    if events == [] then map[] else Step(b, Run(b, events[..|events| - 1]), events[|events| - 1])
  }

  // ----- History of one execution -----

  /** How an event bears on an execution. */
  datatype Mark = Breach | WithinBudget | Reset | Nothing

  function MarkOf(b: Budgets, e: Event, id: string): Mark {
    match e
    case Probed(p) =>
      if p.id != id || p.sample.None? then Nothing
      else if Evaluate(b, p.sample.value).Some? then Breach else WithinBudget
    case Dropped(other) => if other == id then Reset else Nothing
  }

  /** The execution's breaches at the end of the history, with nothing but unreadable samples and other
      executions' events between them. */
  ghost function Trailing(b: Budgets, events: seq<Event>, id: string): nat {
    if events == [] then 0
    else
      var earlier := Trailing(b, events[..|events| - 1], id);
      match MarkOf(b, events[|events| - 1], id)
      case Breach => earlier + 1
      case Nothing => earlier
      case _ => 0
  }

  ghost function Breaches(b: Budgets, events: seq<Event>, id: string): nat {
    if events == [] then 0
    else Breaches(b, events[..|events| - 1], id) + if MarkOf(b, events[|events| - 1], id) == Breach then 1 else 0
  }

  /** From `start` on the history of id holds nothing that interrupts a run of breaches, and before it stands
      an interruption or nothing. */
  ghost predicate RunStart(b: Budgets, events: seq<Event>, id: string, start: nat) {
    && start <= |events|
    && (forall i :: start <= i < |events| ==>
          MarkOf(b, events[i], id) == Breach || MarkOf(b, events[i], id) == Nothing)
    && (start > 0 ==> MarkOf(b, events[start - 1], id) == WithinBudget || MarkOf(b, events[start - 1], id) == Reset)
  }

  /** Trailing counts the breaches of the last uninterrupted stretch of history. */
  lemma {:induction false} TrailingCountsLastStretch(b: Budgets, events: seq<Event>, id: string) returns (start: nat)
    ensures RunStart(b, events, id, start) && Trailing(b, events, id) == Breaches(b, events[start..], id)
  {
    if events == [] {
      start := 0;
    } else {
      var n := |events| - 1;
      var mark := MarkOf(b, events[n], id);
      if mark == WithinBudget || mark == Reset {
        start := n + 1;
        assert events[start..] == [];
      } else {
        start := TrailingCountsLastStretch(b, events[..n], id);
        forall i | start <= i < n ensures MarkOf(b, events[i], id) == Breach || MarkOf(b, events[i], id) == Nothing {
          assert events[..n][i] == events[i];
        }
        assert start > 0 ==> events[..n][start - 1] == events[start - 1];
        assert events[start..][..n - start] == events[..n][start..];
      }
    }
  }

  /** Whether the last event of a history terminates id. */
  ghost predicate Terminates(b: Budgets, events: seq<Event>, id: string) {
    && events != []
    && var last := events[|events| - 1];
       last.Probed? && last.probe.id == id && Observe(b, Run(b, events[..|events| - 1]), last.probe).1.Some?
  }

  lemma NextMultiple(n: nat, r: nat)
    requires n > 0
    ensures (r + 1) % n == if r % n + 1 < n then r % n + 1 else 0
  {
    if r % n + 1 < n {
      assert r + 1 == (r / n) * n + (r % n + 1);
      UniqueQuotient(r + 1, n, r / n, r % n + 1);
    } else {
      assert r + 1 == (r / n) * n + n == (r / n + 1) * n;
      UniqueQuotient(r + 1, n, r / n + 1, 0);
    }
  }

  /** Over every history the counter is what the history says: the trailing run of breaches, less the full
      rounds that already ended in a termination. */
  lemma {:induction false} CounterIsHistory(b: Budgets, events: seq<Event>, id: string)
    ensures CountOf(Run(b, events), id) == Trailing(b, events, id) % Strikes(b)
  {
    hide Evaluate;
    if events != [] {
      var n := |events| - 1;
      CounterIsHistory(b, events[..n], id);
      NextMultiple(Strikes(b), Trailing(b, events[..n], id));
    }
  }

  /** An execution is terminated by a probe exactly when the probe is a breach that completes a round of
      Strikes breaches in its trailing run. */
  lemma TerminatedIff(b: Budgets, events: seq<Event>, id: string)
    ensures Terminates(b, events, id)
        <==> events != [] && MarkOf(b, events[|events| - 1], id) == Breach && Trailing(b, events, id) % Strikes(b) == 0
  {
    hide Evaluate;
    if events != [] {
      var n := |events| - 1;
      CounterIsHistory(b, events[..n], id);
      NextMultiple(Strikes(b), Trailing(b, events[..n], id));
    }
  }

  // ----- The worker -----

  function Observed(b: Budgets, counts: Counts, probes: seq<Probe>): Counts {
    if probes == [] then counts else Observe(b, Observed(b, counts, probes[..|probes| - 1]), probes[|probes| - 1]).0
  }

  const FIVE_SECONDS := 5_000_000_000

  class Enforcer {
    const budgets: Budgets
    const sampleEvery: int
    var breachCounts: Counts
    var lastSampleAt: nat

    constructor (budgets: Budgets, sampleEvery: int)
      ensures this.budgets == budgets && this.sampleEvery == sampleEvery && breachCounts == map[] && lastSampleAt == 0
    {
      this.budgets, this.sampleEvery := budgets, sampleEvery;
      breachCounts, lastSampleAt := map[], 0;
    }

    function Every(): int {
      if sampleEvery <= 0 then FIVE_SECONDS else sampleEvery
    }

    /** sampleAndEnforce: does nothing before the next sample is due, else probes each process once and names
        the executions it terminates. */
    method SampleAndEnforce(probes: seq<Probe>, now: nat) returns (terminated: seq<(string, Reason)>)
      modifies this
      ensures var skipped := old(lastSampleAt) != 0 && now - old(lastSampleAt) < Every();
              && (skipped ==>
                    breachCounts == old(breachCounts) && lastSampleAt == old(lastSampleAt) && terminated == [])
              && (!skipped ==> lastSampleAt == now && breachCounts == Observed(budgets, old(breachCounts), probes))
              && (!skipped ==> forall t: (string, Reason) :: t in terminated <==>
                    exists i :: 0 <= i < |probes| && probes[i].id == t.0
                                && Observe(budgets, Observed(budgets, old(breachCounts), probes[..i]), probes[i]).1
                                   == Some(t.1))
    {
      hide Evaluate;
      terminated := [];
      if lastSampleAt != 0 && now - lastSampleAt < Every() {
        return;
      }
      lastSampleAt := now;
      ghost var before := breachCounts;
      for i := 0 to |probes|
        invariant lastSampleAt == now && breachCounts == Observed(budgets, before, probes[..i])
        invariant forall t: (string, Reason) :: t in terminated <==>
                    exists j :: 0 <= j < i && probes[j].id == t.0
                                && Observe(budgets, Observed(budgets, before, probes[..j]), probes[j]).1 == Some(t.1)
      {
        var turn := Observe(budgets, breachCounts, probes[i]);
        assert probes[..i + 1][..i] == probes[..i];
        breachCounts := turn.0;
        if turn.1.Some? {
          terminated := terminated + [(probes[i].id, turn.1.value)];
        }
      }
      assert probes[..|probes|] == probes;
    }

    /** What stopping an execution or the exit of its process does to its counter. */
    method Drop(id: string)
      modifies this
      ensures breachCounts == Step(budgets, old(breachCounts), Dropped(id)) && lastSampleAt == old(lastSampleAt)
    {
      breachCounts := breachCounts - {id};
    }
  }
}
