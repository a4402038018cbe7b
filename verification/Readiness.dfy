/** Waiting for a freshly started component: the status file, the polling loop and its deadline. */
module Readiness {
  import opened Focus
  import opened Results
  import opened Text
  import opened Transitions
  import opened Probes
  import opened Trace
  import opened OperatingSystem

  datatype Mode = File | Socket

  const POLL_INTERVAL: nat := 20

  // ---------------------------------------------------------------------------------------
  // The polling loop

  /** The earliest poll that settles the matter; NotReady when none does. */
  function FirstDecisive(polls: seq<Status>): Status {
    if polls == [] then NotReady else if polls[0] != NotReady then polls[0] else FirstDecisive(polls[1..])
  }

  predicate Undecided(polls: seq<Status>) {
    forall i :: 0 <= i < |polls| ==> polls[i] == NotReady
  }

  lemma {:induction false} FirstDecisiveIsFirst(polls: seq<Status>, last: Status)
    requires Undecided(polls)
    ensures FirstDecisive(polls) == NotReady && FirstDecisive(polls + [last]) == last
  {
    if polls == [] {
      assert polls + [last] == [last];
    } else {
      FirstDecisiveIsFirst(polls[1..], last);
      assert (polls + [last])[1..] == polls[1..] + [last];
    }
  }

  function Answer(status: Status): Result<()> {
    match status
    case Ready => Success(())
    case ProcessExited => Failure(ComponentCrash)
    case ProtocolError => Failure(ComponentProtocolError)
    case NotReady => Failure(ComponentTimeout)
  }

  /** What an answer says about the probe that decided it. */
  predicate Tells(r: Result<()>, status: Status) {
    && (r.Success? <==> status == Ready)
    && (r == Failure(ComponentCrash) <==> status == ProcessExited)
    && (r == Failure(ComponentProtocolError) <==> status == ProtocolError)
    && (r == Failure(ComponentTimeout) <==> status == NotReady)
  }

  function CeilDiv(a: nat, b: nat): nat
    requires b > 0
  {
    (a + b - 1) / b
  }

  /** How many whole intervals have passed. */
  function Rounds(elapsed: nat, intervalMs: nat): nat
    requires intervalMs > 0
  {
    elapsed / intervalMs
  }

  /** A round that begins before the timeout and takes a whole interval. */
  lemma OneMoreRound(elapsed: nat, later: nat, timeoutMs: nat, intervalMs: nat)
    requires intervalMs > 0 && elapsed < timeoutMs && elapsed + intervalMs <= later
    ensures Rounds(elapsed, intervalMs) + 1 <= Rounds(later, intervalMs)
    ensures Rounds(elapsed, intervalMs) + 1 <= CeilDiv(timeoutMs, intervalMs)
  {
    DivideStep(elapsed, later, intervalMs);
    DivideStep(elapsed, timeoutMs + intervalMs - 1, intervalMs);
  }

  /** So many rounds fit into the time that has passed, and into the whole time. */
  ghost predicate Fitting(rounds: nat, elapsed: nat, timeoutMs: nat, intervalMs: nat) {
    forall n: nat {:trigger Round(n)} :: n == rounds ==>
      intervalMs > 0 && n <= Rounds(elapsed, intervalMs) && n <= CeilDiv(timeoutMs, intervalMs)
  }

  lemma SomeRoundsFit(rounds: nat, elapsed: nat, timeoutMs: nat, intervalMs: nat)
    requires intervalMs > 0 && rounds <= Rounds(elapsed, intervalMs) && rounds <= CeilDiv(timeoutMs, intervalMs)
    ensures Fitting(rounds, elapsed, timeoutMs, intervalMs)
  {
  }

  lemma RoundFits(rounds: nat, elapsed: nat, later: nat, timeoutMs: nat, intervalMs: nat)
    requires intervalMs > 0 && elapsed < timeoutMs && elapsed + intervalMs <= later
    requires Fitting(rounds, elapsed, timeoutMs, intervalMs)
    ensures Fitting(rounds + 1, later, timeoutMs, intervalMs)
  {
    assert Round(rounds);
    OneMoreRound(elapsed, later, timeoutMs, intervalMs);
    SomeRoundsFit(rounds + 1, later, timeoutMs, intervalMs);
  }

  lemma RoundsFit(rounds: nat, elapsed: nat, timeoutMs: nat, intervalMs: nat)
    requires intervalMs > 0 && Fitting(rounds, elapsed, timeoutMs, intervalMs)
    ensures rounds <= CeilDiv(timeoutMs, intervalMs)
  {
    assert Round(rounds);
  }

  lemma DivideStep(a: nat, b: nat, d: nat)
    requires d > 0 && a + d <= b
    ensures a / d + 1 <= b / d
  {
    var q, r := a / d, b / d;
    assert q * d <= a < (q + 1) * d && r * d <= b < (r + 1) * d;
    assert (q + 1) * d < (r + 1) * d;
  }

  function Statuses(looks: seq<Seen>): (r: seq<Status>)
    ensures |r| == |looks|
  {
    seq(|looks|, i requires 0 <= i < |looks| => StatusOf(looks[i].look))
  }

  /** The probes of one wait, as the history shows them. */
  function Probings(pid: nat, looks: seq<Seen>): (r: seq<Event>)
    ensures |r| == |looks|
  {
    seq(|looks|, i requires 0 <= i < |looks| => Probed(pid, looks[i].look, looks[i].at))
  }

  /** A status file is read only for a component other than Weston in File mode, and a connection tried only
      for Weston and in Socket mode. */
  predicate Fits(kind: Kind, mode: Mode, look: Look) {
    && (look.Contents? ==> kind != Weston && mode == File)
    && (look.Connection? ==> kind == Weston || mode == Socket)
  }

  predicate AllFit(kind: Kind, mode: Mode, looks: seq<Seen>) {
    forall i :: 0 <= i < |looks| ==> Fits(kind, mode, looks[i].look)
  }

  /** The look that lets a component become Running: a line that says so and none that tells of a failure,
      or a connection that was taken. */
  ghost predicate ShowsReady(kind: Kind, mode: Mode, look: Look) {
    forall shown {:trigger Apart(shown)} :: shown == look ==>
      if kind != Weston && mode == File then shown.Contents? && TellsReady(Lines(shown.text))
      else shown == Connection(true)
  }

  ghost predicate TellsReady(lines: seq<string>) {
    && (exists i :: 0 <= i < |lines| && Trim(lines[i]) == "STATUS=READY")
    && (forall i :: 0 <= i < |lines| ==> !("STATUS=FAILED" <= Trim(lines[i])) && !("STATUS=ERROR" <= Trim(lines[i])))
  }

  lemma ReadyIsShown(kind: Kind, mode: Mode, look: Look)
    requires Fits(kind, mode, look)
    ensures StatusOf(look) == Ready <==> ShowsReady(kind, mode, look)
  {
    assert Apart(look);
    if look.Contents? {
      FileStatusByLines(look.text);
    }
  }

  /** The probes of a wait that goes on: none of them decided anything. */
  ghost predicate Waiting(kind: Kind, mode: Mode, before: AcceptedLog, after: AcceptedLog, pid: nat,
    looks: seq<Seen>)
  {
    forall n: nat {:trigger Round(n)} :: n == |looks| ==>
      Polled(before, after, pid, looks) && AllFit(kind, mode, looks) && Undecided(Statuses(looks))
  }

  lemma GoesOn(kind: Kind, mode: Mode, before: AcceptedLog, after: AcceptedLog, pid: nat, looks: seq<Seen>)
    requires Polled(before, after, pid, looks) && AllFit(kind, mode, looks) && Undecided(Statuses(looks))
    ensures Waiting(kind, mode, before, after, pid, looks)
  {
  }

  /** One look at the process and at its readiness file or socket: the one probe the history gains. */
  method CheckReadiness(os: Os, kind: Kind, mode: Mode, pid: nat) returns (status: Status, ghost seen: Seen)
    requires os.Valid()
    modifies os`log, os`refusals
    ensures os.Valid() && os.log == Extend(old(os.log), Probed(pid, seen.look, seen.at))
    ensures status == StatusOf(seen.look)
    ensures seen.at == os.now && os.refusals == old(os.refusals) + if IsLoss(status) then 1 else 0
    ensures Fits(kind, mode, seen.look) && (kind == Weston ==> status != ProtocolError)
  {
    var look := os.Probe(pid, kind != Weston && mode == File);
    seen := Seen(look, os.now);
    match look {
      case Gone =>
        status := ProcessExited;
      case Missing =>
        status := NotReady;
      case Contents(text) =>
        WordingIsClear();
        status := ClassifyFile(text, WORDING);
      case Connection(accepted) =>
        status := if accepted then Ready else NotReady;
    }
  }

  /** The probes made between two moments of a wait and what they mean. */
  ghost predicate Polled(before: AcceptedLog, after: AcceptedLog, pid: nat, looks: seq<Seen>) {
    && after.events == before.events + Probings(pid, looks)
    && OnlyLooked(before.monitor, after.monitor, pid)
    && (looks != [] ==> pid in after.monitor.looks && after.monitor.looks[pid] == looks[|looks| - 1].look)
  }

  lemma PolledOnce(before: AcceptedLog, now: AcceptedLog, pid: nat, looks: seq<Seen>, seen: Seen)
    requires Polled(before, now, pid, looks)
    ensures Polled(before, Extend(now, Probed(pid, seen.look, seen.at)), pid, looks + [seen])
    ensures Statuses(looks + [seen]) == Statuses(looks) + [StatusOf(seen.look)]
  {
    assert Probings(pid, looks + [seen]) == Probings(pid, looks) + [Probed(pid, seen.look, seen.at)];
  }

  /** The answer that these looks give, for a wait that began at this moment or later: the first decisive one
      decides; a timeout needs a last look when the whole time was over. */
  predicate Judged(r: Result<()>, looks: seq<Seen>, since: nat, timeoutMs: nat) {
    && Tells(r, FirstDecisive(Statuses(looks)))
    && (r == Failure(ComponentTimeout) ==> looks != [] && looks[|looks| - 1].at >= since + timeoutMs)
  }

  /** These looks at the process were made, one after the other, after the first events. */
  ghost predicate Shown(first: nat, events: seq<Event>, pid: nat, looks: seq<Seen>) {
    exists i :: first <= i && ShownAt(i, events, pid, looks)
  }

  ghost predicate ShownAt(i: nat, events: seq<Event>, pid: nat, looks: seq<Seen>) {
    i + |looks| <= |events| && events[i..i + |looks|] == Probings(pid, looks)
  }

  lemma ShownLater(before: AcceptedLog, now: AcceptedLog, later: AcceptedLog, pid: nat, looks: seq<Seen>)
    requires Polled(before, now, pid, looks) && now.events <= later.events
    ensures Shown(|before.events|, later.events, pid, looks)
  {
    var i := |before.events|;
    assert later.events[i..i + |looks|] == now.events[i..] == Probings(pid, looks);
    assert ShownAt(i, later.events, pid, looks);
  }

  /** A start waited for readiness, with this result, or failed before it came to that. */
  ghost predicate Waited(r: Result<()>, looks: seq<Seen>, since: nat, first: nat, events: seq<Event>, pid: nat,
    timeoutMs: nat, kind: Kind, mode: Mode)
  {
    forall n: nat {:trigger Round(n)} :: n == |looks| ==>
      if n == 0 then r.Failure? && r.code != ComponentTimeout
      else Judged(r, looks, since, timeoutMs) && Shown(first, events, pid, looks)
           && AllFit(kind, mode, looks) && (r.Success? ==> ShowsReady(kind, mode, looks[n - 1].look))
  }

  /** A wait that is over, whatever the component did next. */
  lemma WaitIsOver(before: AcceptedLog, now: AcceptedLog, later: AcceptedLog, r: Result<()>, looks: seq<Seen>,
    since: nat, pid: nat, timeoutMs: nat, kind: Kind, mode: Mode)
    requires Polled(before, now, pid, looks) && now.events <= later.events && looks != []
    requires Judged(r, looks, since, timeoutMs) && AllFit(kind, mode, looks)
    requires r.Success? ==> ShowsReady(kind, mode, looks[|looks| - 1].look)
    ensures Waited(r, looks, since, |before.events|, later.events, pid, timeoutMs, kind, mode)
  {
    ShownLater(before, now, later, pid, looks);
  }

  lemma WaitedShows(r: Result<()>, looks: seq<Seen>, since: nat, first: nat, events: seq<Event>, pid: nat,
    timeoutMs: nat, kind: Kind, mode: Mode)
    requires Waited(r, looks, since, first, events, pid, timeoutMs, kind, mode) && r.Success?
    ensures looks != [] && ShowsReady(kind, mode, looks[|looks| - 1].look)
  {
    assert Round(|looks|);
  }

  lemma WaitedSince(r: Result<()>, looks: seq<Seen>, since: nat, first: nat, events: seq<Event>, pid: nat,
    timeoutMs: nat, kind: Kind, mode: Mode, earlier: nat, fewer: nat)
    requires Waited(r, looks, since, first, events, pid, timeoutMs, kind, mode) && earlier <= since && fewer <= first
    ensures Waited(r, looks, earlier, fewer, events, pid, timeoutMs, kind, mode)
  {
    assert Round(|looks|);
  }

  /** Polls until something decides or the deadline passes, then looks once more. The first decisive
      poll is the answer; without one it is a timeout, given only when a look made after the whole time
      decided nothing either. */
  method WaitForReadiness(os: Os, kind: Kind, mode: Mode, pid: nat, timeoutMs: nat, intervalMs: nat)
    returns (r: Result<()>, ghost looks: seq<Seen>)
    requires os.Valid() && intervalMs > 0
    modifies os`now, os`children, os`dead, os`log, os`refusals
    ensures os.Valid() && Idled(old(os.children), os.children) && os.now >= old(os.now) && old(os.dead) <= os.dead
    ensures Polled(old(os.log), os.log, pid, looks)
    ensures Judged(r, looks, old(os.now), timeoutMs) && AllFit(kind, mode, looks)
    ensures r.Success? ==> looks != [] && ShowsReady(kind, mode, looks[|looks| - 1].look)
    ensures 0 < |looks| <= CeilDiv(timeoutMs, intervalMs) + 1 && Undecided(Statuses(looks[..|looks| - 1]))
    ensures os.refusals == old(os.refusals) + if r.Failure? then 1 else 0
    ensures r.Success? ==> pid in os.log.monitor.looks && StatusOf(os.log.monitor.looks[pid]) == Ready
  {
    looks := [];
    var t := os.Clock();
    ghost var begin := t;
    var deadline := t + timeoutMs;
    t := os.Clock();
    assert Probings(pid, []) == [] && Statuses([]) == [];
    GoesOn(kind, mode, os.log, os.log, pid, []);
    SomeRoundsFit(0, t - begin, timeoutMs, intervalMs);
    while t < deadline
      invariant os.Valid() && Idled(old(os.children), os.children) && os.now >= t >= begin >= old(os.now)
      invariant old(os.dead) <= os.dead && os.refusals == old(os.refusals)
      invariant Waiting(kind, mode, old(os.log), os.log, pid, looks)
      invariant deadline == begin + timeoutMs
      invariant Fitting(|looks|, t - begin, timeoutMs, intervalMs)
      decreases deadline - t
    {
      ghost var elapsed, rounds := t - begin, |looks|;
      RoundsFit(rounds, elapsed, timeoutMs, intervalMs);
      var decided;
      decided, r, t, looks := PollRound(os, kind, mode, pid, intervalMs, old(os.log), looks);
      if decided {
        return;
      }
      RoundFits(rounds, elapsed, t - begin, timeoutMs, intervalMs);
    }
    RoundsFit(|looks|, t - begin, timeoutMs, intervalMs);
    r, looks := LastPoll(os, kind, mode, pid, old(os.log), looks);
  }

  /** One round of the loop: a poll and, when it decides nothing, a pause. */
  method PollRound(os: Os, kind: Kind, mode: Mode, pid: nat, intervalMs: nat, ghost before: AcceptedLog,
    ghost looks: seq<Seen>) returns (decided: bool, r: Result<()>, t: nat, ghost more: seq<Seen>)
    requires os.Valid() && Waiting(kind, mode, before, os.log, pid, looks)
    modifies os`now, os`children, os`dead, os`log, os`refusals
    ensures os.Valid() && Idled(old(os.children), os.children) && os.now >= old(os.now) && old(os.dead) <= os.dead
    ensures |more| == |looks| + 1 && more[..|looks|] == looks && Undecided(Statuses(looks))
    ensures decided ==>
              && Polled(before, os.log, pid, more) && AllFit(kind, mode, more)
              && Tells(r, FirstDecisive(Statuses(more))) && r != Failure(ComponentTimeout)
              && FirstDecisive(Statuses(more)) == StatusOf(more[|looks|].look)
              && (r.Success? ==> ShowsReady(kind, mode, more[|looks|].look))
              && os.refusals == old(os.refusals) + if r.Failure? then 1 else 0
    ensures !decided ==>
              && Waiting(kind, mode, before, os.log, pid, more) && os.refusals == old(os.refusals)
              && t == os.now >= old(os.now) + intervalMs
  {
    t, r := 0, Failure(ComponentTimeout);
    var status;
    status, more := PollOnce(os, kind, mode, pid, before, looks);
    decided := status != NotReady;
    SameChildren(os.children);
    if decided {
      r := Answer(status);
    } else {
      t := NextRound(os, intervalMs);
    }
  }

  /** The poll after which nothing more is tried. */
  method LastPoll(os: Os, kind: Kind, mode: Mode, pid: nat, ghost before: AcceptedLog, ghost looks: seq<Seen>)
    returns (r: Result<()>, ghost more: seq<Seen>)
    requires os.Valid() && Waiting(kind, mode, before, os.log, pid, looks)
    modifies os`log, os`refusals
    ensures os.refusals == old(os.refusals) + if r.Failure? then 1 else 0
    ensures os.Valid() && Polled(before, os.log, pid, more) && AllFit(kind, mode, more)
    ensures Undecided(Statuses(looks))
    ensures |more| == |looks| + 1 && more[..|looks|] == looks && r == Answer(FirstDecisive(Statuses(more)))
    ensures FirstDecisive(Statuses(more)) == StatusOf(more[|looks|].look) && more[|looks|].at == os.now
    ensures r.Success? ==> ShowsReady(kind, mode, more[|looks|].look)
  {
    var last;
    last, more := PollOnce(os, kind, mode, pid, before, looks);
    if last == NotReady {
      os.GiveUp();
    }
    r := Answer(last);
  }

  /** One more probe after others that decided nothing. */
  method PollOnce(os: Os, kind: Kind, mode: Mode, pid: nat, ghost before: AcceptedLog, ghost looks: seq<Seen>)
    returns (status: Status, ghost more: seq<Seen>)
    requires os.Valid() && Waiting(kind, mode, before, os.log, pid, looks)
    modifies os`log, os`refusals
    ensures os.refusals == old(os.refusals) + if IsLoss(status) then 1 else 0
    ensures os.Valid() && Polled(before, os.log, pid, more) && AllFit(kind, mode, more)
    ensures |more| == |looks| + 1 && more[..|looks|] == looks && FirstDecisive(Statuses(more)) == status
    ensures status == StatusOf(more[|looks|].look) && more[|looks|].at == os.now
    ensures Undecided(Statuses(looks)) && (status == NotReady ==> Waiting(kind, mode, before, os.log, pid, more))
    ensures status == Ready ==> ShowsReady(kind, mode, more[|looks|].look)
  {
    assert Round(|looks|);
    ghost var log := os.log;
    ghost var seen;
    status, seen := CheckReadiness(os, kind, mode, pid);
    more := looks + [seen];
    PolledOnce(before, log, pid, looks, seen);
    FirstDecisiveIsFirst(Statuses(looks), status);
    if status == NotReady {
      GoesOn(kind, mode, before, os.log, pid, more);
    }
    ReadyIsShown(kind, mode, seen.look);
  }

  method NextRound(os: Os, intervalMs: nat) returns (t: nat)
    requires os.Valid()
    modifies os`now, os`children, os`dead
    ensures os.Valid() && Idled(old(os.children), os.children) && old(os.dead) <= os.dead
    ensures os.now == t >= old(os.now) + intervalMs
  {
    t := os.Nap(intervalMs);
    t := os.Clock();
  }
}
