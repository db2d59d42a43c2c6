/** The drivers of a run: reruns after a lost session, several directories, and the
    list of them (directorybackup/main.go and config.go). */
module Drivers {
  import opened Types
  import opened Session
  import opened Runs
  import BackupId

  const FOLDER_RERUN_ATTEMPTS := 2

  /** Why a backup failed, and what the text of the error says of it. */
  datatype Failure = Failure(err: Error, timeTaken: bool, sessionLost: bool)

  /** What backup returns: the files that could not be read, and an error. */
  datatype Outcome = Outcome(readErrors: seq<string>, err: Option<Failure>)

  /** One backup on a client: refused before there is a session, or a run of one. */
  datatype Attempt = Refused(err: Error) | Served(plan: Plan, tr: seq<Session>, readErrors: seq<string>)

  /** How the backups on a client go, one after the other, and which errors mean that
      the second is taken or the session lost. */
  datatype RawScript = RawScript(hash: Hash, sha: Hash, taken: Error -> bool, lost: Error -> bool, attempts: nat -> Attempt)

  /** Each session of a script is a run, to its end. */
  type Script = s: RawScript | Proper(s) witness NeverServed()

  function NeverServed(): RawScript {
    RawScript(_ => Zero(), _ => Zero(), _ => false, _ => false, _ => Refused(FinishFailed))
  }

  /** A session is over when it has committed or failed. */
  ghost predicate Ends(hash: Hash, sha: Hash, a: Attempt) {
    a.Served? ==>
      && Sound(hash, a.plan) && Run(hash, sha, a.plan, a.tr)
      && (End(a.tr).pc.Committed? || End(a.tr).pc.Failed?)
  }

  ghost predicate Proper(script: RawScript) {
    forall i: nat :: Ends(script.hash, script.sha, script.attempts(i))
  }

  function ErrorOf(a: Attempt): Option<Error> {
    if a.Refused? then Some(a.err)
    else if a.tr != [] && End(a.tr).pc.Failed? then Some(End(a.tr).pc.err)
    else None
  }

  function OutcomeOf(script: Script, a: Attempt): Outcome {
    var err := ErrorOf(a);
    Outcome(
      if a.Served? then a.readErrors else [],
      if err.Some? then Some(Failure(err.value, script.taken(err.value), script.lost(err.value))) else None)
  }

  function Outcomes(script: Script): nat -> Outcome {
    (i: nat) => OutcomeOf(script, script.attempts(i))
  }

  datatype Event = Ran(outcome: Outcome) | ClientClosed

  /** A client, and what is left of the session it served last. */
  class Client {
    const script: Script
    const next: nat -> Outcome
    var ran: nat
    var log: seq<Event>
    var session: Option<Session>

    constructor (script: Script)
      ensures Quiet() && this.script == script && next == Outcomes(script) && ran == 0 && log == []
    {
      this.script := script;
      next := Outcomes(script);
      ran := 0;
      log := [];
      session := None;
    }

    /** No worker of any pool is alive, so nobody is sending through the client. */
    predicate Quiet()
      reads this
    {
      session.Some? ==> forall k :: 0 <= k < |session.value.pools| ==> session.value.pools[k].AllExited()
    }

    /** A session is only ever started when nobody is sending through the client. */
    method Backup() returns (outcome: Outcome)
      requires Quiet()
      modifies this
      ensures Quiet() && outcome == next(old(ran)) && ran == old(ran) + 1 && log == old(log) + [Ran(outcome)]
    {
      var a := script.attempts(ran);
      assert Ends(script.hash, script.sha, a);
      outcome := next(ran);
      ran := ran + 1;
      log := log + [Ran(outcome)];
      session := None;
      if a.Served? {
        OverIsQuiet(script.hash, script.sha, a);
        session := Some(End(a.tr));
      }
    }

    /** The client is only ever closed when nobody is sending through it. */
    method Close()
      requires Quiet()
      modifies this`log
      ensures log == old(log) + [ClientClosed]
    {
      log := log + [ClientClosed];
    }
  }

  lemma OverIsQuiet(hash: Hash, sha: Hash, a: Attempt)
    requires a.Served? && Ends(hash, sha, a)
    ensures forall k :: 0 <= k < |End(a.tr).pools| ==> End(a.tr).pools[k].AllExited()
  {
    RunInv(hash, sha, a.plan, a.tr);
    QuietAtTheEnd(hash, sha, a.plan, a.tr);
    forall k | 0 <= k < |End(a.tr).pools| ensures End(a.tr).pools[k].AllExited() {
      assert End(a.tr).PoolAt(k).AllExited();
    }
  }

  // ---- Reruns ----

  /** Whether a refusal for the same second was among the outcomes. */
  predicate WaitedSecond(outcomes: seq<Outcome>) {
    exists i :: 0 <= i < |outcomes| && outcomes[i].err.Some? && outcomes[i].err.value.timeTaken
  }

  /** The number of the attempt after these outcomes; the one wait for the next second
      does not count. */
  function AttemptNumber(outcomes: seq<Outcome>): int {
    |outcomes| + 1 - (if WaitedSecond(outcomes) then 1 else 0)
  }

  /** Whether the backup runs once more after o, the outcomes before it given. */
  predicate RunsAgain(before: seq<Outcome>, o: Outcome) {
    && o.err.Some?
    && (|| (o.err.value.timeTaken && !WaitedSecond(before))
        || (o.err.value.sessionLost && AttemptNumber(before) < FOLDER_RERUN_ATTEMPTS))
  }

  /** A proper series: every outcome but the last is a reason to run again. */
  predicate Series(outcomes: seq<Outcome>) {
    forall i :: 0 <= i < |outcomes| - 1 ==> RunsAgain(outcomes[..i], outcomes[i])
  }

  /** The log of a series: the client is closed between any two backups. */
  function LogOf(outcomes: seq<Outcome>): seq<Event> {
    if outcomes == [] then []
    else if |outcomes| == 1 then [Ran(outcomes[0])]
    else LogOf(outcomes[..|outcomes| - 1]) + [ClientClosed, Ran(outcomes[|outcomes| - 1])]
  }

  lemma WaitedBefore(outcomes: seq<Outcome>, more: seq<Outcome>)
    ensures WaitedSecond(outcomes) ==> WaitedSecond(outcomes + more)
  {
    if WaitedSecond(outcomes) {
      var i :| 0 <= i < |outcomes| && outcomes[i].err.Some? && outcomes[i].err.value.timeTaken;
      assert (outcomes + more)[i] == outcomes[i];
    }
  }

  lemma WaitedNow(outcomes: seq<Outcome>, o: Outcome)
    requires o.err.Some? && o.err.value.timeTaken
    ensures WaitedSecond(outcomes + [o])
  {
    assert (outcomes + [o])[|outcomes|] == o;
  }

  lemma WaitedSplit(outcomes: seq<Outcome>, o: Outcome)
    ensures WaitedSecond(outcomes + [o]) <==> WaitedSecond(outcomes) || (o.err.Some? && o.err.value.timeTaken)
  {
    WaitedBefore(outcomes, [o]);
    if WaitedSecond(outcomes + [o]) {
      var i :| 0 <= i < |outcomes + [o]| && (outcomes + [o])[i].err.Some? && (outcomes + [o])[i].err.value.timeTaken;
      if i < |outcomes| {
        assert outcomes[i] == (outcomes + [o])[i];
      }
    }
    if o.err.Some? && o.err.value.timeTaken {
      WaitedNow(outcomes, o);
    }
  }

  lemma SeriesPrefix(outcomes: seq<Outcome>)
    requires Series(outcomes) && outcomes != []
    ensures Series(outcomes[..|outcomes| - 1])
  {
    var but := outcomes[..|outcomes| - 1];
    forall i | 0 <= i < |but| - 1 ensures RunsAgain(but[..i], but[i]) {
      assert but[..i] == outcomes[..i];
    }
  }

  lemma NextNumber(before: seq<Outcome>, o: Outcome)
    requires RunsAgain(before, o) && AttemptNumber(before) <= FOLDER_RERUN_ATTEMPTS
    ensures AttemptNumber(before + [o]) <= FOLDER_RERUN_ATTEMPTS
  {
    WaitedSplit(before, o);
  }

  /** Each rerun but one waits for its turn: the attempts go up to two, and one more
      backup at most is run for the second already taken. */
  lemma {:induction false} SeriesIsShort(outcomes: seq<Outcome>)
    requires Series(outcomes)
    ensures |outcomes| <= FOLDER_RERUN_ATTEMPTS + 1
    ensures outcomes != [] ==> AttemptNumber(outcomes[..|outcomes| - 1]) <= FOLDER_RERUN_ATTEMPTS
  {
    if outcomes != [] {
      var but := outcomes[..|outcomes| - 1];
      SeriesPrefix(outcomes);
      SeriesIsShort(but);
      if but != [] {
        var before, o := but[..|but| - 1], but[|but| - 1];
        assert but == before + [o] && before == outcomes[..|but| - 1];
        NextNumber(before, o);
      }
    }
  }

  /** The first n outcomes of a client. */
  function First(next: nat -> Outcome, n: nat): (outcomes: seq<Outcome>)
    ensures |outcomes| == n
    ensures forall i :: 0 <= i < n ==> outcomes[i] == next(i)
  {
    seq(n, i requires 0 <= i < n => next(i))
  }

  lemma FirstNext(next: nat -> Outcome, n: nat)
    ensures First(next, n + 1) == First(next, n) + [next(n)]
    ensures First(next, n + 1)[..n] == First(next, n)
  {
  }

  lemma SeriesNext(next: nat -> Outcome, n: nat)
    requires Series(First(next, n + 1)) && RunsAgain(First(next, n), next(n))
    ensures Series(First(next, n + 2))
  {
    FirstNext(next, n);
    FirstNext(next, n + 1);
    var longer := First(next, n + 2);
    forall i | 0 <= i < n + 1 ensures RunsAgain(longer[..i], longer[i]) {
      assert longer[..i] == First(next, n + 1)[..i];
    }
  }

  /** How a client's backup ends, reruns included. */
  function Final(next: nat -> Outcome): Outcome {
    if !RunsAgain([], next(0)) then next(0)
    else if !RunsAgain([next(0)], next(1)) then next(1)
    else next(2)
  }

  /** One more backup after the first n + 1. */
  lemma OneMoreRun(next: nat -> Outcome, n: nat)
    requires Series(First(next, n + 1)) && RunsAgain(First(next, n), next(n))
    ensures Series(First(next, n + 2)) && n + 1 <= FOLDER_RERUN_ATTEMPTS
    ensures AttemptNumber(First(next, n + 1)) <= FOLDER_RERUN_ATTEMPTS
  {
    SeriesNext(next, n);
    SeriesIsShort(First(next, n + 2));
    FirstNext(next, n + 1);
  }

  lemma Counted(next: nat -> Outcome, n: nat)
    ensures var before, o := First(next, n), next(n);
      && First(next, n + 1) == before + [o]
      && (WaitedSecond(before + [o]) <==> WaitedSecond(before) || (o.err.Some? && o.err.value.timeTaken))
      && LogOf(before + [o]) == (if n == 0 then [Ran(o)] else LogOf(before) + [ClientClosed, Ran(o)])
  {
    FirstNext(next, n);
    WaitedSplit(First(next, n), next(n));
    assert (First(next, n) + [next(n)])[..n] == First(next, n);
  }

  lemma SeriesEndsFinal(next: nat -> Outcome, n: nat)
    requires n > 0 && Series(First(next, n)) && !RunsAgain(First(next, n - 1), next(n - 1))
    ensures next(n - 1) == Final(next)
  {
    var outcomes := First(next, n);
    SeriesIsShort(outcomes);
    assert First(next, 0) == [] && First(next, 1) == [next(0)];
    if n > 1 {
      assert outcomes[..0] == [] && RunsAgain(outcomes[..0], outcomes[0]);
    }
    if n > 2 {
      assert outcomes[..1] == [next(0)] && RunsAgain(outcomes[..1], outcomes[1]);
    }
  }

  /** Before a backup: n have run, each a reason to run again. */
  ghost predicate AboutToRun(next: nat -> Outcome, n: nat, waitedSecond: bool, attempt: int) {
    && n <= FOLDER_RERUN_ATTEMPTS && attempt <= FOLDER_RERUN_ATTEMPTS
    && waitedSecond == WaitedSecond(First(next, n)) && attempt == AttemptNumber(First(next, n))
    && Series(First(next, n + 1))
  }

  lemma RunsOn(next: nat -> Outcome, n: nat, waitedSecond: bool, attempt: int)
    requires AboutToRun(next, n, waitedSecond, attempt)
    ensures var o := next(n);
      if o.err.Some? && !waitedSecond && o.err.value.timeTaken then AboutToRun(next, n + 1, true, attempt)
      else if o.err.None? || attempt >= FOLDER_RERUN_ATTEMPTS || !o.err.value.sessionLost then
        !RunsAgain(First(next, n), o)
      else AboutToRun(next, n + 1, waitedSecond, attempt + 1)
  {
    Counted(next, n);
    if RunsAgain(First(next, n), next(n)) {
      OneMoreRun(next, n);
    }
  }

  /** The log of n backups that were all run again: closed, and ready for the next. */
  ghost predicate LoggedAgain(next: nat -> Outcome, n: nat, log: seq<Event>) {
    if n == 0 then log == [] else log == LogOf(First(next, n)) + [ClientClosed]
  }

  lemma LogOn(next: nat -> Outcome, n: nat, log: seq<Event>)
    requires LoggedAgain(next, n, log)
    ensures log + [Ran(next(n))] == LogOf(First(next, n + 1))
    ensures LoggedAgain(next, n + 1, log + [Ran(next(n))] + [ClientClosed])
  {
    Counted(next, n);
  }

  /** The backups of a folder are over after n: every one before the last was a reason to
      run again, the last was not; the client was closed between any two. */
  ghost predicate RerunsEnd(next: nat -> Outcome, n: nat, log: seq<Event>, res: Outcome) {
    && 1 <= n <= FOLDER_RERUN_ATTEMPTS + 1
    && Series(First(next, n)) && log == LogOf(First(next, n))
    && res == next(n - 1) == Final(next) && !RunsAgain(First(next, n - 1), res)
  }

  /** One turn of the loop. */
  lemma Turn(next: nat -> Outcome, n: nat, waitedSecond: bool, attempt: int, log: seq<Event>)
    requires AboutToRun(next, n, waitedSecond, attempt) && LoggedAgain(next, n, log)
    ensures var o, log' := next(n), log + [Ran(next(n))];
      if o.err.Some? && !waitedSecond && o.err.value.timeTaken then
        AboutToRun(next, n + 1, true, attempt) && LoggedAgain(next, n + 1, log' + [ClientClosed])
      else if o.err.None? || attempt >= FOLDER_RERUN_ATTEMPTS || !o.err.value.sessionLost then
        RerunsEnd(next, n + 1, log', o)
      else
        AboutToRun(next, n + 1, waitedSecond, attempt + 1) && LoggedAgain(next, n + 1, log' + [ClientClosed])
  {
    RunsOn(next, n, waitedSecond, attempt);
    LogOn(next, n, log);
    if !RunsAgain(First(next, n), next(n)) {
      SeriesEndsFinal(next, n + 1);
    }
  }

  /** backupWithRerun: backs up, and again as long as there is a reason to; at most three
      times, the client closed in between, and with the result of the last backup. No
      session is started, and the client is not closed, while a worker is alive. */
  method BackupWithRerun(client: Client) returns (res: Outcome)
    requires client.Quiet() && client.ran == 0 && client.log == []
    modifies client
    ensures client.Quiet() && RerunsEnd(client.next, client.ran, client.log, res)
  {
    var waitedSecond := false;
    var attempt := 1;
    while true
      invariant client.Quiet() && AboutToRun(client.next, client.ran, waitedSecond, attempt)
      invariant LoggedAgain(client.next, client.ran, client.log)
      decreases !waitedSecond, FOLDER_RERUN_ATTEMPTS - attempt
    {
      Turn(client.next, client.ran, waitedSecond, attempt, client.log);
      res := client.Backup();
      if res.err.Some? && !waitedSecond && res.err.value.timeTaken {
        client.Close();
        waitedSecond := true;
        continue;
      }
      if res.err.None? || attempt >= FOLDER_RERUN_ATTEMPTS || !res.err.value.sessionLost {
        return;
      }
      client.Close();
      attempt := attempt + 1;
    }
  }

  ghost predicate CommittedAt(script: Script, i: nat) {
    var a := script.attempts(i);
    a.Served? && Sound(script.hash, a.plan) && Run(script.hash, script.sha, a.plan, a.tr) && End(a.tr).pc.Committed?
  }

  /** A backup without an error is a session that has committed. */
  lemma NoErrorIsCommitted(script: Script, i: nat)
    requires Outcomes(script)(i).err.None?
    ensures CommittedAt(script, i)
  {
    assert Ends(script.hash, script.sha, script.attempts(i));
  }

  predicate Taken(o: Outcome) {
    o.err.Some? && o.err.value.timeTaken
  }

  predicate Lost(o: Outcome) {
    o.err.Some? && o.err.value.sessionLost
  }

  /** When a folder is backed up once more, outcome by outcome. A lost session is run
      again once, a second that is taken is waited out once, in any order, and never
      anything else. */
  lemma WhenItRunsAgain(a: Outcome, b: Outcome, c: Outcome)
    ensures RunsAgain([], a) <==> Taken(a) || Lost(a)
    ensures Taken(a) ==> (RunsAgain([a], b) <==> Lost(b))
    ensures Lost(a) && !Taken(a) ==> (RunsAgain([a], b) <==> Taken(b))
    ensures RunsAgain([], a) && RunsAgain([a], b) ==> !RunsAgain([a, b], c)
  {
    assert [] + [a] == [a] && [a] + [b] == [a, b];
    WaitedSplit([], a);
    WaitedSplit([a], b);
  }

  /** What a backup's outcome says is what became of its session: the error it failed
      with, the files it could not read, and what the text of that error means. */
  lemma OutcomeTells(script: Script, i: nat)
    ensures var a, o := script.attempts(i), Outcomes(script)(i);
      && (o.err.Some? ==> o.err.value.timeTaken == script.taken(o.err.value.err))
      && (o.err.Some? ==> o.err.value.sessionLost == script.lost(o.err.value.err))
      && (a.Refused? ==> o.readErrors == [] && o.err.Some? && o.err.value.err == a.err)
      && (a.Served? ==> o.readErrors == a.readErrors && a.tr != [])
      && (a.Served? ==> if o.err.Some? then End(a.tr).pc == Failed(o.err.value.err) else End(a.tr).pc.Committed?)
  {
    assert Ends(script.hash, script.sha, script.attempts(i));
  }

  // ---- Several directories ----

  /** How one directory will turn out: no login, or a client. */
  datatype Prospect = NoLogin(code: nat) | Login(script: Script)

  predicate Succeeds(p: Prospect) {
    p.Login? && Final(Outcomes(p.script)).err.None?
  }

  datatype DirFailure = LoginFailed(dir: string, code: nat) | BackupFailed(dir: string, err: Failure)

  datatype Step = Asked(id: string) | BackedUp(dir: string) | Released(id: string)

  datatype Rejection = CopyOfSeveral | SameId(other: string, dir: string, id: string)

  datatype Many = Rejected(reason: Rejection) | Backups(readErrors: seq<string>, done: seq<Client>, failures: seq<DirFailure>) {
    predicate IsError() {
      Rejected? || failures != []
    }
  }

  /** What the run does, as seen from outside. */
  class Journal {
    var steps: seq<Step>

    constructor ()
      ensures steps == []
    {
      steps := [];
    }

    method Add(step: Step)
      modifies this
      ensures steps == old(steps) + [step]
    {
      steps := steps + [step];
    }
  }

  /** The backup-id of each directory. */
  function Ids(idOf: string -> string, dirs: seq<string>): (ids: seq<string>)
    ensures |ids| == |dirs|
    ensures forall i :: 0 <= i < |dirs| ==> ids[i] == idOf(dirs[i])
  {
    seq(|dirs|, i requires 0 <= i < |dirs| => idOf(dirs[i]))
  }

  /** The directories of the first n that succeed, by their place in the list. */
  function DoneAt(prospects: nat -> Prospect, n: nat): seq<nat> {
    if n == 0 then []
    else DoneAt(prospects, n - 1) + (if Succeeds(prospects(n - 1)) then [n - 1] else [])
  }

  function FailedAt(prospects: nat -> Prospect, n: nat): seq<nat> {
    if n == 0 then []
    else FailedAt(prospects, n - 1) + (if Succeeds(prospects(n - 1)) then [] else [n - 1])
  }

  function FailureOf(dir: string, p: Prospect): DirFailure
    requires !Succeeds(p)
  {
    if p.NoLogin? then LoginFailed(dir, p.code) else BackupFailed(dir, Final(Outcomes(p.script)).err.value)
  }

  /** The failure names the directory and says why: no login, or the last backup's error. */
  predicate IsFailureOf(f: DirFailure, dir: string, p: Prospect) {
    && f.dir == dir
    && match f
       case LoginFailed(_, code) => p.NoLogin? && p.code == code
       case BackupFailed(_, err) => p.Login? && Final(Outcomes(p.script)).err == Some(err)
  }

  function ReadErrorsOf(prospects: nat -> Prospect, n: nat): seq<string> {
    if n == 0 then []
    else
      ReadErrorsOf(prospects, n - 1) +
      (if prospects(n - 1).Login? then Final(Outcomes(prospects(n - 1).script)).readErrors else [])
  }

  function StepsOf(dir: string, id: string, p: Prospect): seq<Step> {
    [Asked(id)] + (if p.Login? then [BackedUp(dir), Released(id)] else [])
  }

  function AllSteps(dirs: seq<string>, ids: seq<string>, prospects: nat -> Prospect, n: nat): seq<Step>
    requires n <= |dirs| == |ids|
  {
    if n == 0 then []
    else AllSteps(dirs, ids, prospects, n - 1) + StepsOf(dirs[n - 1], ids[n - 1], prospects(n - 1))
  }

  ghost predicate Distinct(ids: seq<string>, n: nat)
    requires n <= |ids|
  {
    forall i, j :: 0 <= i < j < n ==> ids[i] != ids[j]
  }

  /** The failures of the first n directories are those that did not succeed, in order. */
  ghost predicate FailuresSoFar(dirs: seq<string>, prospects: nat -> Prospect, n: nat, failures: seq<DirFailure>)
    requires n <= |dirs|
  {
    var at := FailedAt(prospects, n);
    && |failures| == |at|
    && forall j :: 0 <= j < |at| ==>
         at[j] < n && !Succeeds(prospects(at[j])) && IsFailureOf(failures[j], dirs[at[j]], prospects(at[j]))
  }

  ghost predicate DoneSoFar(prospects: nat -> Prospect, n: nat, done: seq<Client>) {
    var at := DoneAt(prospects, n);
    && |done| == |at|
    && forall j :: 0 <= j < |at| ==>
         at[j] < n && Succeeds(prospects(at[j])) && done[j].script == prospects(at[j]).script
  }

  /** The map holds the first n ids, each with the place of one that has it. */
  ghost predicate Claims(ids: seq<string>, n: nat, places: map<string, nat>)
    requires n <= |ids|
  {
    && (forall i :: 0 <= i < n ==> ids[i] in places)
    && (forall id :: id in places ==> places[id] < n && id == ids[places[id]])
  }

  /** The first directory with the id of one before it, and that one. */
  ghost predicate FirstSame(dirs: seq<string>, ids: seq<string>, i: nat, j: nat, found: Rejection)
    requires |dirs| == |ids|
  {
    i < j < |dirs| && Distinct(ids, j) && ids[i] == ids[j] && found == SameId(dirs[i], dirs[j], ids[j])
  }

  lemma ReadErrorsNext(prospects: nat -> Prospect, n: nat)
    ensures ReadErrorsOf(prospects, n) <= ReadErrorsOf(prospects, n + 1)
    ensures prospects(n).Login? ==>
      ReadErrorsOf(prospects, n + 1)[|ReadErrorsOf(prospects, n)|..] == Final(Outcomes(prospects(n).script)).readErrors
    ensures prospects(n).NoLogin? ==> ReadErrorsOf(prospects, n + 1) == ReadErrorsOf(prospects, n)
  {
  }

  lemma {:induction false} ReadErrorsGrow(prospects: nat -> Prospect, m: nat, n: nat)
    requires m <= n
    ensures ReadErrorsOf(prospects, m) <= ReadErrorsOf(prospects, n)
  {
    if m < n {
      ReadErrorsGrow(prospects, m, n - 1);
      ReadErrorsNext(prospects, n - 1);
    }
  }

  /** Whether its backup failed or not, a directory's read errors are all in the list, in
      their order, behind those of the directories before it; one without a login has none. */
  lemma ReadErrorsStay(prospects: nat -> Prospect, n: nat, i: nat)
    requires i < n
    ensures var all, from, to := ReadErrorsOf(prospects, n), |ReadErrorsOf(prospects, i)|, |ReadErrorsOf(prospects, i + 1)|;
      && from <= to <= |all|
      && all[from..to] == if prospects(i).Login? then Final(Outcomes(prospects(i).script)).readErrors else []
    ensures ReadErrorsOf(prospects, 0) == []
  {
    var all, part := ReadErrorsOf(prospects, n), ReadErrorsOf(prospects, i + 1);
    ReadErrorsNext(prospects, i);
    ReadErrorsGrow(prospects, i + 1, n);
    assert all[..|part|] == part;
    assert all[|ReadErrorsOf(prospects, i)|..|part|] == part[|ReadErrorsOf(prospects, i)|..];
  }

  /** The check before anything is done: two directories with one id are found. The map
      holds places in the list instead of the directories themselves. */
  method FindSameId(idOf: string -> string, dirs: seq<string>) returns (same: Option<Rejection>)
    ensures same.None? <==> Distinct(Ids(idOf, dirs), |dirs|)
    ensures same.Some? ==> exists i, j :: FirstSame(dirs, Ids(idOf, dirs), i, j, same.value)
  {
    ghost var ids := Ids(idOf, dirs);
    var places: map<string, nat> := map[];
    for n := 0 to |dirs|
      invariant Distinct(ids, n) && Claims(ids, n, places)
    {
      var id := idOf(dirs[n]);
      assert id == ids[n];
      if id in places {
        same := Some(SameId(dirs[places[id]], dirs[n], id));
        assert FirstSame(dirs, ids, places[id], n, same.value);
        return;
      }
      places := places[id := n];
    }
    same := None;
  }

  /** One directory: its own client, released also after a failure. */
  method BackupDir(dir: string, id: string, p: Prospect, journal: Journal)
    returns (client: Option<Client>, outcome: Outcome)
    modifies journal
    ensures journal.steps == old(journal.steps) + StepsOf(dir, id, p)
    ensures client.Some? <==> p.Login?
    ensures client.Some? ==>
      client.value.Quiet() && client.value.log == LogOf(First(client.value.next, client.value.ran)) + [ClientClosed]
    ensures if p.Login? then client.value.script == p.script && outcome == Final(Outcomes(p.script)) else outcome == Outcome([], None)
  {
    journal.Add(Asked(id));
    match p {
      case NoLogin(_) =>
        client, outcome := None, Outcome([], None);
      case Login(script) =>
        var c := new Client(script);
        outcome := BackupWithRerun(c);
        journal.Add(BackedUp(dir));
        c.Close();
        journal.Add(Released(id));
        client := Some(c);
    }
  }

  lemma StepsNext(before: seq<Step>, dirs: seq<string>, ids: seq<string>, prospects: nat -> Prospect, n: nat)
    requires n < |dirs| == |ids|
    ensures (before + AllSteps(dirs, ids, prospects, n)) + StepsOf(dirs[n], ids[n], prospects(n)) ==
            before + AllSteps(dirs, ids, prospects, n + 1)
  {
  }

  lemma FailureNext(dirs: seq<string>, prospects: nat -> Prospect, n: nat, done: seq<Client>, failures: seq<DirFailure>)
    requires n < |dirs| && DoneSoFar(prospects, n, done) && FailuresSoFar(dirs, prospects, n, failures)
    requires !Succeeds(prospects(n))
    ensures DoneSoFar(prospects, n + 1, done)
    ensures FailuresSoFar(dirs, prospects, n + 1, failures + [FailureOf(dirs[n], prospects(n))])
  {
  }

  lemma DoneNext(
    dirs: seq<string>, prospects: nat -> Prospect, n: nat, done: seq<Client>, failures: seq<DirFailure>, client: Client)
    requires n < |dirs| && DoneSoFar(prospects, n, done) && FailuresSoFar(dirs, prospects, n, failures)
    requires Succeeds(prospects(n)) && client.script == prospects(n).script
    ensures DoneSoFar(prospects, n + 1, done + [client])
    ensures FailuresSoFar(dirs, prospects, n + 1, failures)
  {
  }

  /** backup_many: each directory of the list is tried once, in order, whatever becomes
      of the others; nothing is done at all when two would share a group. idOf gives
      the backup-id of a directory. */
  method BackupMany(
    idOf: string -> string, dirs: seq<string>, pxarOut: string, prospects: nat -> Prospect, journal: Journal)
    returns (res: Many)
    modifies journal
    ensures res.Rejected? <==> pxarOut != "" || !Distinct(Ids(idOf, dirs), |dirs|)
    ensures res.Rejected? ==> journal.steps == old(journal.steps)
    ensures res.Rejected? && pxarOut == "" ==> exists i, j :: FirstSame(dirs, Ids(idOf, dirs), i, j, res.reason)
    ensures res.Backups? ==>
      && journal.steps == old(journal.steps) + AllSteps(dirs, Ids(idOf, dirs), prospects, |dirs|)
      && DoneSoFar(prospects, |dirs|, res.done) && FailuresSoFar(dirs, prospects, |dirs|, res.failures)
      && res.readErrors == ReadErrorsOf(prospects, |dirs|)
  {
    if pxarOut != "" {
      return Rejected(CopyOfSeveral);
    }
    var same := FindSameId(idOf, dirs);
    if same.Some? {
      return Rejected(same.value);
    }
    ghost var ids := Ids(idOf, dirs);
    var readErrors: seq<string>, done: seq<Client>, failures: seq<DirFailure> := [], [], [];
    for n := 0 to |dirs|
      invariant journal.steps == old(journal.steps) + AllSteps(dirs, ids, prospects, n)
      invariant DoneSoFar(prospects, n, done) && FailuresSoFar(dirs, prospects, n, failures)
      invariant readErrors == ReadErrorsOf(prospects, n)
    {
      var dir := dirs[n];
      var id := idOf(dir);
      assert id == ids[n];
      var client, outcome := BackupDir(dir, id, prospects(n), journal);
      StepsNext(old(journal.steps), dirs, ids, prospects, n);
      readErrors := readErrors + outcome.readErrors;
      if client.None? {
        FailureNext(dirs, prospects, n, done, failures);
        failures := failures + [LoginFailed(dir, prospects(n).code)];
      } else if outcome.err.Some? {
        FailureNext(dirs, prospects, n, done, failures);
        failures := failures + [BackupFailed(dir, outcome.err.value)];
      } else {
        DoneNext(dirs, prospects, n, done, failures, client.value);
        done := done + [client.value];
      }
    }
    res := Backups(readErrors, done, failures);
  }

  /** Config.Dirs, then backup_many with GenerateBackupID: the directories are the ones
      given, each once, and each is its own group. */
  method BackupConfigured(
    base: string, clean: string -> string, backupdir: string, backupdirs: seq<string>, pxarOut: string,
    prospects: nat -> Prospect, journal: Journal)
    returns (dirs: seq<string>, res: Many)
    modifies journal
    ensures dirs == DirsOf([backupdir] + backupdirs)
    ensures res.Backups? ==>
      && (forall i, j :: 0 <= i < j < |dirs| ==>
           BackupId.IdOf(base, clean(dirs[i])) != BackupId.IdOf(base, clean(dirs[j])))
      && (res.IsError() <==> exists i :: 0 <= i < |dirs| && !Succeeds(prospects(i)))
  {
    dirs := Dirs(backupdir, backupdirs);
    var idOf := (dir: string) => BackupId.IdOf(base, clean(dir));
    res := BackupMany(idOf, dirs, pxarOut, prospects, journal);
    if res.Backups? {
      ErrorIff(dirs, prospects, res.failures);
      ghost var ids := Ids(idOf, dirs);
      forall i, j | 0 <= i < j < |dirs|
        ensures BackupId.IdOf(base, clean(dirs[i])) != BackupId.IdOf(base, clean(dirs[j]))
      {
        assert ids[i] == idOf(dirs[i]) && ids[j] == idOf(dirs[j]);
      }
    }
  }

  lemma {:induction false} InListOrder(prospects: nat -> Prospect, n: nat)
    ensures Ascending(DoneAt(prospects, n), n) && Ascending(FailedAt(prospects, n), n)
    ensures |DoneAt(prospects, n)| + |FailedAt(prospects, n)| == n
  {
    if n > 0 {
      InListOrder(prospects, n - 1);
    }
  }

  /** Successes and failures part the list between them, each in the list's order. */
  lemma {:induction false} EachDirectoryOnce(prospects: nat -> Prospect, n: nat, i: nat)
    ensures |DoneAt(prospects, n)| + |FailedAt(prospects, n)| == n
    ensures Ascending(DoneAt(prospects, n), n) && Ascending(FailedAt(prospects, n), n)
    ensures i in DoneAt(prospects, n) <==> i < n && Succeeds(prospects(i))
    ensures i in FailedAt(prospects, n) <==> i < n && !Succeeds(prospects(i))
  {
    InListOrder(prospects, n);
    if n > 0 {
      EachDirectoryOnce(prospects, n - 1, i);
    }
  }

  predicate Ascending(at: seq<nat>, n: nat) {
    && (forall j :: 0 <= j < |at| ==> at[j] < n)
    && (forall j, k :: 0 <= j < k < |at| ==> at[j] < at[k])
  }

  /** The run is an error exactly when some directory was not backed up. */
  lemma ErrorIff(dirs: seq<string>, prospects: nat -> Prospect, failures: seq<DirFailure>)
    requires FailuresSoFar(dirs, prospects, |dirs|, failures)
    ensures failures == [] <==> forall i :: 0 <= i < |dirs| ==> Succeeds(prospects(i))
  {
    var n := |dirs|;
    EachDirectoryOnce(prospects, n, 0);
    if failures == [] {
      forall i | 0 <= i < n ensures Succeeds(prospects(i)) {
        EachDirectoryOnce(prospects, n, i);
      }
    } else {
      assert !Succeeds(prospects(FailedAt(prospects, n)[0]));
    }
  }

  // ---- The list of directories ----

  function DirsOf(given: seq<string>): (dirs: seq<string>) {
    if given == [] then []
    else
      var dirs, d := DirsOf(given[..|given| - 1]), given[|given| - 1];
      if d != "" && d !in dirs then dirs + [d] else dirs
  }

  /** Config.Dirs */
  method Dirs(backupdir: string, backupdirs: seq<string>) returns (dirs: seq<string>)
    ensures dirs == DirsOf([backupdir] + backupdirs)
  {
    var given := [backupdir] + backupdirs;
    dirs := [];
    var seen: set<string> := {};
    for i := 0 to |given|
      invariant dirs == DirsOf(given[..i]) && seen == set d | d in dirs
    {
      var d := given[i];
      assert given[..i + 1][..i] == given[..i];
      if d != "" && d !in seen {
        seen := seen + {d};
        dirs := dirs + [d];
      }
    }
    assert given[..|given|] == given;
  }

  /** d's first place in a list that has it. */
  function FirstPlace(given: seq<string>, d: string): (i: nat)
    requires d in given
    ensures i < |given| && given[i] == d && forall j :: 0 <= j < i ==> given[j] != d
  {
    if given[0] == d then 0 else 1 + FirstPlace(given[1..], d)
  }

  lemma FirstPlaceGrows(given: seq<string>, d: string, e: string)
    requires d in given
    ensures FirstPlace(given + [e], d) == FirstPlace(given, d)
  {
    var i := FirstPlace(given, d);
    assert (given + [e])[i] == d;
    assert forall j :: 0 <= j < i ==> (given + [e])[j] == given[j];
  }

  /** Every directory given, once, at its first place, and no empty one. */
  lemma {:induction false} DirsAreFirsts(given: seq<string>)
    ensures forall d :: d in DirsOf(given) <==> d in given && d != ""
    ensures forall i, j :: 0 <= i < j < |DirsOf(given)| ==>
      FirstPlace(given, DirsOf(given)[i]) < FirstPlace(given, DirsOf(given)[j])
  {
    if given != [] {
      var but, e := given[..|given| - 1], given[|given| - 1];
      DirsAreFirsts(but);
      assert given == but + [e];
      forall d | d in but ensures FirstPlace(given, d) == FirstPlace(but, d) {
        FirstPlaceGrows(but, d, e);
      }
      var dirs := DirsOf(given);
      forall i, j | 0 <= i < j < |dirs| ensures FirstPlace(given, dirs[i]) < FirstPlace(given, dirs[j]) {
        assert dirs[i] in DirsOf(but);
        if j < |DirsOf(but)| {
          assert dirs[j] in but;
        } else {
          assert dirs[j] == e && e !in but;
        }
      }
    }
  }
}
