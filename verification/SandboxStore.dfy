/**
 The store object: maps updated in place, one method per atomic mutation. Each method is proved to take the step of
 the model and to keep every invariant; a mutation that aborts leaves the store as it found it.
 */
module SandboxStores {
  import opened Basics
  import opened Receipts
  import opened SandboxModel
  import opened SandboxRuns

  datatype AdmissionResult = RunAdmitted | RunRejected(reply: Reply) | AdmissionBroken

  lemma OneStartClosed(receipts: Ledger, run: Id, owner: Key, reply: Reply)
    requires owner in PendingStarts(receipts, run) && |PendingStarts(receipts, run)| <= 1
    ensures receipts[owner := receipts[owner].(reply := Some(reply))] == StartsClosed(receipts, run, reply)
  {
    assert PendingStarts(receipts, run) == {owner} by { assert |PendingStarts(receipts, run) - {owner}| == 0; }
  }

  lemma NoStartClosed(receipts: Ledger, run: Id, reply: Reply)
    requires PendingStarts(receipts, run) == {}
    ensures receipts == StartsClosed(receipts, run, reply)
  {
  }

  class SandboxStore {
    var projects: map<Id, Project>
    var policies: map<Id, Option<nat>>
    var usage: map<Id, nat>
    var tasks: map<Id, Task>
    var runs: map<Id, Run>
    var messages: map<Id, Message>
    var published: set<Id>
    var receipts: Ledger
    var settlements: map<Id, Settlement>

    function View(): State
      reads this
    {
      State(projects, policies, usage, tasks, runs, messages, published, receipts, settlements)
    }

    ghost predicate Valid()
      reads this
    {
      Inv(View())
    }

    constructor ()
      ensures View() == EMPTY && Valid()
    {
      projects, policies, usage, tasks, runs, messages, published, receipts, settlements := map[], map[], map[], map[], map[], map[], {}, map[], map[];
    }

    /** Puts back what a mutation found, after an error inside it. */
    method Restore(s: State)
      modifies this
      ensures View() == s
    {
      projects, policies, usage, tasks, runs := s.projects, s.policies, s.usage, s.tasks, s.runs;
      messages, published, receipts, settlements := s.messages, s.published, s.receipts, s.settlements;
    }

    /* ---------- receipts ---------- */

    method BeginReceipt(c: Claiming<Id>) returns (o: Outcome)
      requires Valid() && WellFormed(View(), Event.BeginReceipt(c))
      modifies `receipts
      ensures (View(), o) == BeginReceiptStep(old(View()), c) && Valid()
    {
      BeginReceiptKeeps(View(), c);
      if c.key in receipts {
        var existing := receipts[c.key];
        if existing.hash != c.hash { return Mismatch; }
        if existing.reply.Some? { return Replayed(existing.reply.value); }
        if existing.lease > c.now { return Busy; }
        receipts := receipts[c.key := existing.(claim := c.token, lease := c.lease)];
        return Applied;
      }
      receipts := receipts[c.key := Record(c.hash, c.resource, c.token, c.lease, None)];
      return Applied;
    }

    method CompleteReceipt(c: Completion) returns (o: Outcome)
      requires Valid()
      modifies `receipts
      ensures (View(), o) == CompleteReceiptStep(old(View()), c) && Valid()
    {
      CompleteReceiptKeeps(View(), c);
      var (completed, done) := Complete(receipts, c.key, c.hash, c.holder, c.reply);
      receipts := completed;
      return if done then Applied else Refused;
    }

    /** The open terminal starts on a Run, found by going through every receipt. */
    static method FindPending(receipts: Ledger, run: Id) returns (pending: set<Key>)
      ensures pending == PendingStarts(receipts, run)
    {
      pending := {};
      var rest := receipts.Keys;
      while rest != {}
        invariant rest <= receipts.Keys
        invariant pending == PendingStarts(receipts, run) - rest
        decreases |rest|
      {
        var k :| k in rest;
        rest := rest - {k};
        if k.operation == Operation.TerminalStart && receipts[k].resource == OnRun(run) && receipts[k].reply.None? {
          pending := pending + {k};
        }
      }
    }

    /** Closes the one terminal-start receipt that waits for the Run; fails if there are several. */
    method TerminalizeStart(run: Id, reply: Reply) returns (ok: bool)
      modifies `receipts
      ensures ok == !StartsAreAmbiguous(old(receipts), run)
      ensures receipts == if ok then StartsClosed(old(receipts), run, reply) else old(receipts)
    {
      var pending := FindPending(receipts, run);
      if |pending| > 1 { return false; }
      ghost var before := receipts;
      if pending != {} {
        var owner :| owner in pending;
        receipts := receipts[owner := receipts[owner].(reply := Some(reply))];
        OneStartClosed(before, run, owner, reply);
      } else {
        NoStartClosed(before, run, reply);
      }
      return true;
    }

    /** The message a Run owns fails with it, unless it was accepted. */
    method FailOwnedMessage(run: Run)
      modifies `messages
      ensures messages == OwnedFailed(old(messages), run)
    {
      if run.owned.None? || run.owned.value !in messages { return; }
      var m := messages[run.owned.value];
      if m.task != run.scope.task || m.deleted || !m.delivery.Dispatching? { return; }
      messages := messages[run.owned.value := m.(delivery := DeliveryFailed)];
    }

    /* ---------- startup ---------- */

    /** The starting Run that the task still points at, if the caller's token is current. */
    method FindStarting(run: Id, task: Id, token: int) returns (r: Option<Run>)
      requires Valid()
      ensures r.Some? == StartupGuard(View(), run, task, token)
      ensures r.Some? ==> r.value == runs[run] && r.value.id == run && runs[run := r.value] == runs
    {
      if run !in runs || task !in tasks { return None; }
      if !runs[run].phase.Starting? || runs[run].token != token { return None; }
      if tasks[task].currentRun != Some(run) || tasks[task].scope != runs[run].scope { return None; }
      return Some(runs[run]);
    }

    method MarkStartupReady(run: Id, task: Id, token: int, at: Time) returns (o: Outcome)
      requires Valid()
      modifies `runs
      ensures (View(), o) == StartupStepOn(old(View()), run, task, token, MarkReady(at)) && Valid()
    {
      hide Inv;
      StartupKeeps(View(), run, task, token, MarkReady(at));
      var r := FindStarting(run, task, token);
      if r.None? || tasks[task].deleted || tasks[task].archived { return Refused; }
      if r.value.readyAt.Some? { return Repeated; }
      runs := runs[run := r.value.(readyAt := Some(at))];
      return Applied;
    }

    method InitializeStartupConfig(run: Id, task: Id, token: int, claim: Option<Id>, configMap: Option<Id>, configHash: Option<Id>)
      returns (o: Outcome)
      requires Valid()
      modifies `runs
      ensures (View(), o) == StartupStepOn(old(View()), run, task, token, InitializeConfig(claim, configMap, configHash)) && Valid()
    {
      hide Inv;
      StartupKeeps(View(), run, task, token, InitializeConfig(claim, configMap, configHash));
      var r := FindStarting(run, task, token);
      if r.None? || tasks[task].deleted || tasks[task].archived || (claim.Some? && r.value.claim != claim) { return Refused; }
      var startup := r.value.startup;
      if startup.configMap.Some? || startup.configHash.Some? {
        return if startup.configMap == configMap && startup.configHash == configHash then Repeated else Refused;
      }
      if configMap.None? || configHash.None? { return Refused; }
      runs := runs[run := r.value.(startup := startup.(namedConfigMap := configMap, configMap := configMap, configHash := configHash))];
      return Applied;
    }

    method RecordStartupPod(run: Id, task: Id, token: int, claim: Option<Id>, configMap: Option<Id>, configHash: Option<Id>,
                            podUid: Option<Id>, podIp: Option<Id>, podReadyAt: Option<Time>) returns (o: Outcome)
      requires Valid()
      modifies `runs
      ensures (View(), o) == StartupStepOn(old(View()), run, task, token, RecordPod(claim, configMap, configHash, podUid, podIp, podReadyAt)) && Valid()
    {
      hide Inv;
      StartupKeeps(View(), run, task, token, RecordPod(claim, configMap, configHash, podUid, podIp, podReadyAt));
      var r := FindStarting(run, task, token);
      if r.None? || tasks[task].deleted || tasks[task].archived || (claim.Some? && r.value.claim != claim) { return Refused; }
      var startup := r.value.startup;
      if startup.configMap != configMap || startup.configHash != configHash || podUid.None? || (podReadyAt.Some? && podIp.None?) { return Refused; }
      if startup.namedConfigMap != startup.configMap { return Refused; }
      if startup.podUid.Some? && startup.podUid != podUid { return Refused; }
      if startup.podIp.Some? && startup.podIp != podIp { return Refused; }
      var ip := if startup.podIp.Some? then startup.podIp else podIp;
      var startedAt := if r.value.startedAt.Some? then r.value.startedAt else podReadyAt;
      runs := runs[run := r.value.(startup := startup.(podUid := podUid, podIp := ip), startedAt := startedAt)];
      return Applied;
    }

    method ClaimSandboxStartup(run: Id, task: Id, token: int, claimant: Id, claimedAt: Time, leaseUntil: Time) returns (o: Outcome)
      requires Valid()
      modifies `runs
      ensures (View(), o) == StartupStepOn(old(View()), run, task, token, ClaimStartup(claimant, claimedAt, leaseUntil)) && Valid()
    {
      hide Inv;
      StartupKeeps(View(), run, task, token, ClaimStartup(claimant, claimedAt, leaseUntil));
      var found := FindStarting(run, task, token);
      if found.None? || tasks[task].deleted || tasks[task].archived { return Refused; }
      var r := found.value;
      if r.readyAt.None? { return NotReady; }
      if r.deadline.Some? { return Busy; }
      if r.claim.Some? && r.claim != Some(claimant) && r.lease.Some? && r.lease.value > claimedAt { return Busy; }
      runs := runs[run := r.(claim := Some(claimant), lease := Some(leaseUntil))];
      return Applied;
    }

    method BeginStartupAction(run: Id, task: Id, token: int, claimant: Id, startedAt: Time, until: Time) returns (o: Outcome)
      requires Valid()
      modifies `runs
      ensures (View(), o) == StartupStepOn(old(View()), run, task, token, BeginAction(claimant, startedAt, until)) && Valid()
    {
      hide Inv;
      StartupKeeps(View(), run, task, token, BeginAction(claimant, startedAt, until));
      var r := FindStarting(run, task, token);
      if r.None? || r.value.claim != Some(claimant) || r.value.deadline.Some? || until <= startedAt { return Refused; }
      runs := runs[run := r.value.(deadline := Some(until))];
      return Applied;
    }

    method CompleteStartupAction(run: Id, task: Id, token: int, claimant: Id, until: Time, completedAt: Time, leaseUntil: Time)
      returns (o: Outcome)
      requires Valid()
      modifies `runs
      ensures (View(), o) == StartupStepOn(old(View()), run, task, token, CompleteAction(claimant, until, completedAt, leaseUntil)) && Valid()
    {
      hide Inv;
      StartupKeeps(View(), run, task, token, CompleteAction(claimant, until, completedAt, leaseUntil));
      var r := FindStarting(run, task, token);
      if r.None? || r.value.claim != Some(claimant) || r.value.deadline != Some(until) { return Refused; }
      if completedAt > until || leaseUntil <= completedAt { return Refused; }
      runs := runs[run := r.value.(lease := Some(leaseUntil), deadline := None)];
      return Applied;
    }

    method RecoverStartupAction(run: Id, task: Id, token: int, claimant: Id, until: Time) returns (o: Outcome)
      requires Valid()
      modifies `runs
      ensures (View(), o) == StartupStepOn(old(View()), run, task, token, RecoverAction(claimant, until)) && Valid()
    {
      hide Inv;
      StartupKeeps(View(), run, task, token, RecoverAction(claimant, until));
      var r := FindStarting(run, task, token);
      if r.None? || r.value.claim != Some(claimant) || r.value.deadline != Some(until) { return Refused; }
      runs := runs[run := r.value.(claim := None, lease := None, deadline := None)];
      return Applied;
    }

    /** Stores the next form of a Run whose terminal start ends with it; puts the Run back where that fails. */
    method ReplaceWithStart(r: Run, next: Run, reply: Reply) returns (o: Outcome)
      requires r.id in runs && runs[r.id] == r && next.id == r.id
      modifies `runs, `receipts
      ensures (View(), o) == if StartsAreAmbiguous(old(receipts), r.id) then (old(View()), Aborted)
                             else (WithRun(old(View()), next).(receipts := StartsClosed(old(receipts), r.id, reply)), Applied)
    {
      runs := runs[r.id := next];
      var closed := TerminalizeStart(r.id, reply);
      if !closed {
        runs := runs[r.id := r];
        assert runs == old(runs);
        return Aborted;
      }
      return Applied;
    }

    method Activate(i: ActivateInput) returns (o: Outcome)
      requires Valid()
      modifies `runs, `receipts
      ensures (View(), o) == ActivateStep(old(View()), i) && Valid()
    {
      hide Inv;
      ActivateKeeps(View(), i);
      if i.run !in runs || i.task !in tasks { return Refused; }
      var r, t := runs[i.run], tasks[i.task];
      if t.currentRun != Some(i.run) || t.scope != r.scope { return Refused; }
      var open := !t.deleted && !t.archived;
      if r.phase.Active? && open { return Repeated; }
      if !r.phase.Starting? || r.token != i.token || r.claim != Some(i.claim) || r.deadline != Some(i.until) || i.at > i.until || !open { return Refused; }
      if r.startup.configMap != i.configMap || r.startup.configHash != i.configHash || r.startup.namedConfigMap != r.startup.configMap
         || r.startup.podUid != i.podUid || r.startup.podIp != i.podIp { return Refused; }
      StoredUnderItsId(View(), i.run);
      o := ReplaceWithStart(r, ActivatedRun(r, i.at), RunActivated(i.run));
    }

    /* ---------- the end of a Run ---------- */

    /**
     The commit every ending shares: the Run is stored, the owned message and the terminal start end with it.
     Where that fails, the Run is put back and nothing has changed.
     */
    method EndStoredRun(r: Run, ended: Run, reply: Reply) returns (o: Outcome)
      requires r.id in runs && runs[r.id] == r && ended.id == r.id
      modifies `runs, `messages, `receipts
      ensures (View(), o) == EndRun(old(View()), r, ended, reply)
    {
      var before := messages;
      runs := runs[r.id := ended];
      FailOwnedMessage(r);
      var closed := TerminalizeStart(r.id, reply);
      if !closed {
        runs := runs[r.id := r];
        messages := before;
        assert runs == old(runs);
        return Aborted;
      }
      return Applied;
    }

    method FailSandboxRun(run: Id, token: int, claim: Option<Id>, at: Time) returns (o: Outcome)
      requires Valid()
      modifies `runs, `messages, `receipts
      ensures (View(), o) == FailRunStep(old(View()), run, token, claim, at) && Valid()
    {
      hide Inv;
      FailRunKeeps(View(), run, token, claim, at);
      if run !in runs || runs[run].token != token || (claim.Some? && runs[run].claim != claim) { return Refused; }
      if !runs[run].phase.Starting? && !runs[run].phase.Active? { return Refused; }
      StoredUnderItsId(View(), run);
      o := EndStoredRun(runs[run], FailedRun(runs[run], at), RunNotStarted(run));
    }

    method FailTaskSandboxStartup(i: FailStartupInput) returns (o: Outcome)
      requires Valid()
      modifies `runs, `receipts
      ensures (View(), o) == FailStartupStep(old(View()), i) && Valid()
    {
      hide Inv;
      FailStartupKeeps(View(), i);
      if i.key !in receipts || receipts[i.key].hash != i.hash { return Refused; }
      var record := receipts[i.key];
      if record.reply.Some? { return Replayed(record.reply.value); }
      if record.claim != i.holder || i.key.operation != Operation.TerminalStart || record.resource != OnRun(i.run) { return Refused; }
      if i.run !in runs || i.task !in tasks { return Refused; }
      var r, t := runs[i.run], tasks[i.task];
      if r.scope.task != i.task || t.currentRun != Some(i.run) || t.scope.project != i.key.project || r.claim != Some(i.claim) { return Refused; }
      if r.startup.names != i.names || r.startup.namedConfigMap != i.configMap { return Refused; }
      if r.token != i.token || (i.failureClaim.Some? && r.claim != i.failureClaim) || !(r.phase.Starting? || r.phase.Active?) { return Refused; }
      StoredUnderItsId(View(), i.run);
      o := ReplaceWithStart(r, FailedRun(r, i.at), i.reply);
    }

    method DrainStartupAction(run: Id, task: Id, token: int, claim: Id, until: Time, at: Time) returns (o: Outcome)
      requires Valid()
      modifies `runs, `receipts
      ensures (View(), o) == DrainStep(old(View()), run, task, token, claim, until, at) && Valid()
    {
      hide Inv;
      DrainKeeps(View(), run, task, token, claim, until, at);
      var found := FindStarting(run, task, token);
      if found.None? { return Refused; }
      var r := found.value;
      if r.claim != Some(claim) || r.deadline != Some(until) || until > at || r.cleanupClaimedAt.None? { return Refused; }
      o := ReplaceWithStart(r, FailedRun(r, at), RunNotStarted(run));
    }

    method RequestTaskSandboxRelease(i: ReleaseRequest) returns (o: Outcome)
      requires Valid()
      modifies `runs, `messages, `receipts
      ensures (View(), o) == RequestReleaseStep(old(View()), i) && Valid()
    {
      hide Inv;
      RequestReleaseKeeps(View(), i);
      if i.key !in receipts || receipts[i.key].reply.Some? || receipts[i.key].hash != i.hash || receipts[i.key].claim != i.holder { return Refused; }
      if i.task !in tasks || tasks[i.task].deleted || tasks[i.task].scope.project != i.key.project || tasks[i.task].currentRun != Some(i.run) { return Refused; }
      if i.key.project !in projects || receipts[i.key].resource != OnRun(i.run) { return Refused; }
      if i.run !in runs || runs[i.run].scope.task != i.task || runs[i.run].token != i.token { return Refused; }
      var r := runs[i.run];
      StoredUnderItsId(View(), i.run);
      if tasks[i.task].scope != r.scope { return Aborted; }
      if r.phase.Released? {
        var before := messages;
        FailOwnedMessage(r);
        var closed := TerminalizeStart(i.run, RunNotStarted(i.run));
        if !closed { messages := before; return Aborted; }
        ghost var closedReceipts := receipts;
        receipts := receipts[i.key := receipts[i.key].(reply := Some(i.reply))];
        assert receipts == CompletedWhere(closedReceipts, {i.key}, i.reply);
        return Repeated;
      }
      o := EndStoredRun(r, ReleaseRequestedRun(r, i.at), RunNotStarted(i.run));
      if o.Applied? && r.phase.ReleaseRequested? { o := Repeated; }
    }

    /** Completes every open release receipt on the Run. */
    method CompleteReleaseReceipts(run: Run, reply: Reply)
      modifies `receipts
      ensures receipts == CompletedWhere(old(receipts), OpenReleases(old(receipts), run.scope.project, run.id), reply)
    {
      ghost var open := OpenReleases(receipts, run.scope.project, run.id);
      var rest := receipts.Keys;
      while rest != {}
        invariant rest <= old(receipts).Keys && receipts.Keys == old(receipts).Keys
        invariant forall k :: k in receipts ==>
          receipts[k] == if k in open && k !in rest then old(receipts)[k].(reply := Some(reply)) else old(receipts)[k]
        decreases |rest|
      {
        var k :| k in rest;
        rest := rest - {k};
        var record := receipts[k];
        if k.project == run.scope.project && k.operation == ReleaseSandbox && record.resource == OnRun(run.id) && record.reply.None? {
          receipts := receipts[k := record.(reply := Some(reply))];
        }
      }
    }

    method TaskStillHas(run: Run) returns (ok: bool)
      ensures ok == TaskOfRun(View(), run)
    {
      var task, project := run.scope.task, run.scope.project;
      if task !in tasks || project !in projects { return false; }
      return !tasks[task].deleted && tasks[task].currentRun == Some(run.id) && tasks[task].scope == run.scope
             && projects[project].workspace == run.scope.workspace;
    }

    /** What hung on the Run `r` is settled: its message, its terminal start, and the open requests to release it. */
    method SettleWhatHungOn(r: Run, i: ReleaseInput) returns (ok: bool)
      modifies `messages, `receipts
      ensures ok == !StartsAreAmbiguous(old(receipts), i.run.id)
      ensures messages == if ok then OwnedFailed(old(messages), r) else old(messages)
      ensures receipts == if ok then ReleaseReceiptsClosed(StartsClosed(old(receipts), i.run.id, ReplyForRun(i.run)), i.run, i.receipt) else old(receipts)
    {
      var before := messages;
      FailOwnedMessage(r);
      ok := TerminalizeStart(i.run.id, if i.run.phase.Active? then RunActivated(i.run.id) else RunNotStarted(i.run.id));
      if !ok {
        messages := before;
      } else if i.receipt.Some? {
        CompleteReleaseReceipts(i.run, i.receipt.value);
      }
    }

    /** The answer to a release that was completed before. */
    method RepeatRelease(i: ReleaseInput, r: Run) returns (o: Outcome)
      modifies `receipts, `usage
      ensures (View(), o) == RepeatedRelease(old(View()), i, r)
    {
      if r.id !in settlements || settlements[r.id] != i.settlement { return Refused; }
      var ok := TerminalizeStart(r.id, if r.phase.Active? then RunActivated(r.id) else RunNotStarted(r.id));
      if !ok { return Aborted; }
      RefreshUsage(r.scope.project);
      return Repeated;
    }

    method CompleteSandboxRunRelease(i: ReleaseInput) returns (o: Outcome)
      requires Valid()
      modifies this
      ensures (View(), o) == CompleteReleaseStep(old(View()), i) && Valid()
    {
      hide Inv;
      CompleteReleaseKeeps(View(), i);
      var id, project := i.run.id, i.run.scope.project;
      if project !in projects || project !in policies || project !in usage { return Refused; }
      if id !in runs || !SameIdentity(runs[id], i.run) { return Refused; }
      StoredUnderItsId(View(), id);
      var r := runs[id];
      if r.scope.task !in tasks || tasks[r.scope.task].currentRun != Some(id) || tasks[r.scope.task].scope != r.scope { return Refused; }
      if r.phase.Released? {
        o := RepeatRelease(i, r);
        return;
      }
      if r.deadline.Some? && r.deadline.value > i.at { return Refused; }
      if r.token != i.token || i.run.token != r.token + 1 || !i.run.phase.Released? || i.run.deadline.Some? { return Refused; }
      if !SettlementMatches(i.settlement, r, i.run) { return Refused; }
      var live := TaskStillHas(r);
      if !live { return Refused; }
      o := CommitRelease(i, r);
    }

    /** Settles what hung on the Run, stores its settlement and replaces it; undone where that fails. */
    method CommitRelease(i: ReleaseInput, r: Run) returns (o: Outcome)
      requires i.run.id in runs
      modifies `runs, `messages, `receipts, `settlements, `usage
      ensures
        var s, id := old(View()), i.run.id;
        (View(), o) ==
        if StartsAreAmbiguous(s.receipts, id) || id in s.settlements then (s, Aborted)
        else
          var after := s.runs[id := i.run.(owned := None)];
          (s.(runs := after, messages := OwnedFailed(s.messages, r),
              receipts := ReleaseReceiptsClosed(StartsClosed(s.receipts, id, ReplyForRun(i.run)), i.run, i.receipt),
              settlements := s.settlements[id := i.settlement], usage := WithExactUsage(s.usage, after, i.run.scope.project)), Applied)
    {
      var id, previousMessages, previousReceipts := i.run.id, messages, receipts;
      var settled := SettleWhatHungOn(r, i);
      if !settled || id in settlements {
        messages, receipts := previousMessages, previousReceipts;
        return Aborted;
      }
      settlements := settlements[id := i.settlement];
      runs := runs[id := i.run.(owned := None)];
      RefreshUsage(i.run.scope.project);
      return Applied;
    }

    /* ---------- capacity ---------- */

    static method CountInProject(runs: map<Id, Run>, project: Id) returns (n: nat)
      ensures n == |Unreleased(runs, project)|
    {
      n := 0;
      var rest := runs.Keys;
      ghost var counted := {};
      while rest != {}
        invariant rest <= runs.Keys && counted == Unreleased(runs, project) - rest && n == |counted|
        decreases |rest|
      {
        var k :| k in rest;
        rest := rest - {k};
        if runs[k].scope.project == project && !runs[k].phase.Released? {
          n := n + 1;
          counted := counted + {k};
        }
      }
    }

    static method CountInNamespace(runs: map<Id, Run>, namespace: Id) returns (n: nat)
      ensures n == |UnreleasedInNamespace(runs, namespace)|
    {
      n := 0;
      var rest := runs.Keys;
      ghost var counted := {};
      while rest != {}
        invariant rest <= runs.Keys && counted == UnreleasedInNamespace(runs, namespace) - rest && n == |counted|
        decreases |rest|
      {
        var k :| k in rest;
        rest := rest - {k};
        if runs[k].namespace == namespace && !runs[k].phase.Released? {
          n := n + 1;
          counted := counted + {k};
        }
      }
    }

    static method HasUnreleased(runs: map<Id, Run>, task: Id) returns (found: bool)
      ensures found == exists k :: k in runs && runs[k].scope.task == task && !runs[k].phase.Released?
    {
      var rest := runs.Keys;
      while rest != {}
        invariant rest <= runs.Keys
        invariant forall k :: k in runs && k !in rest ==> runs[k].scope.task != task || runs[k].phase.Released?
        decreases |rest|
      {
        var k :| k in rest;
        rest := rest - {k};
        if runs[k].scope.task == task && !runs[k].phase.Released? { return true; }
      }
      return false;
    }

    /** The counter is recounted from the stored Runs, never adjusted. */
    method RefreshUsage(project: Id)
      modifies `usage
      ensures usage == WithExactUsage(old(usage), runs, project)
    {
      if project in usage {
        var n := CountInProject(runs, project);
        usage := usage[project := n];
      }
    }

    method AdmitRun(admission: Admission, run: Run) returns (r: AdmissionResult)
      modifies `runs, `usage
      ensures match Admit(old(View()), admission, run)
              case Broken => r == AdmissionBroken && View() == old(View())
              case Full(reply) => r == RunRejected(reply) && View() == old(View())
              case Inserted(runs', usage') => r == RunAdmitted && View() == old(View()).(runs := runs', usage := usage')
    {
      if admission.namespace != run.namespace || admission.limit <= 0 { return AdmissionBroken; }
      var project := run.scope.project;
      if project !in policies { return AdmissionBroken; }
      var active := CountInProject(runs, project);
      if policies[project].Some? && active >= policies[project].value { return RunRejected(ProjectFull(active, policies[project].value)); }
      var inNamespace := CountInNamespace(runs, run.namespace);
      if inNamespace >= admission.limit { return RunRejected(NamespaceFull); }
      var busy := HasUnreleased(runs, run.scope.task);
      if busy || run.id in runs { return AdmissionBroken; }
      runs := runs[run.id := run];
      RefreshUsage(project);
      return RunAdmitted;
    }

    /** Completes the caller's own open claim. */
    method CompleteClaim(c: Claiming<Id>, reply: Reply) returns (ok: bool)
      modifies `receipts
      ensures ok == Holds(old(receipts), c.key, c.hash, c.token)
      ensures receipts == if ok then Completed(old(receipts), c.key, reply) else old(receipts)
    {
      if c.key !in receipts { return false; }
      var record := receipts[c.key];
      if record.reply.Some? || record.hash != c.hash || record.claim != c.token { return false; }
      receipts := receipts[c.key := record.(reply := Some(reply))];
      return true;
    }

    method RejectAdmission(before: State, receipt: Option<Claiming<Id>>, reply: Reply) returns (o: Outcome)
      modifies this
      ensures (View(), o) == CapacityReply(before, old(View()), receipt, reply)
    {
      if receipt.None? {
        Restore(before);
        return Aborted;
      }
      var done := CompleteClaim(receipt.value, reply);
      if !done {
        Restore(before);
        return Aborted;
      }
      return Rejected(reply);
    }

    /* ---------- cleanup ---------- */

    method ClaimForCleanup(run: Id, token: int, at: Time) returns (o: Outcome)
      requires Valid()
      modifies `runs
      ensures (View(), o) == ClaimCleanupStep(old(View()), run, token, at) && Valid()
    {
      hide Inv;
      ClaimCleanupKeeps(View(), run, token, at);
      if run !in runs || runs[run].token != token || !CleanupEligible(runs[run], at) { return Refused; }
      StoredUnderItsId(View(), run);
      var r := runs[run];
      runs := runs[run := r.(cleanupClaimedAt := Some(at), cleanupAttempts := r.cleanupAttempts + 1, token := r.token + 1)];
      return Applied;
    }

    method ReturnCleanupClaim(run: Id, token: int, held: Held) returns (o: Outcome)
      requires Valid() && WellFormed(View(), Event.ReturnCleanup(run, token, held))
      modifies `runs
      ensures (View(), o) == ReturnCleanupStep(old(View()), run, token, held) && Valid()
    {
      hide Inv;
      ReturnCleanupKeeps(View(), run, token, held);
      if run !in runs || runs[run].token != token { return Refused; }
      StoredUnderItsId(View(), run);
      var r := runs[run];
      if r.phase.Starting? {
        if held.startup != r.startup || held.startedAt != r.startedAt { return Aborted; }
        r := r.(readyAt := held.readyAt, claim := held.claim, lease := held.lease, deadline := held.deadline);
      }
      runs := runs[run := r.(cleanupClaimedAt := None, token := token + 1)];
      return Applied;
    }

    /* ---------- tasks and their Runs ---------- */

    method CreateTask(i: CreateInput) returns (o: Outcome)
      requires Valid() && WellFormed(View(), Event.CreateTask(i))
      modifies this
      ensures (View(), o) == CreateTaskStep(old(View()), i) && Valid()
    {
      hide Inv, WellFormed, ClaimAndCreate;
      CreateTaskKeeps(View(), i);
      if i.task.currentRun != (if i.run.Some? then Some(i.run.value.id) else None) { return Aborted; }
      if i.run.Some? && (i.run.value.scope != i.task.scope || i.receipt.None?) { return Aborted; }
      o := ClaimAndStoreTask(i);
    }

    method ClaimAndStoreTask(i: CreateInput) returns (o: Outcome)
      modifies this
      ensures (View(), o) == ClaimAndCreate(old(View()), i)
    {
      hide CreateClaimed;
      var before := View();
      if i.receipt.Some? {
        var (withClaim, claimed) := Claim(receipts, i.receipt.value);
        receipts := withClaim;
        if claimed.HashMismatch? { return Mismatch; }
        if claimed.Replay? { return Replayed(claimed.reply); }
        if claimed.InProgress? || claimed.resource != OnTask(i.task.scope.task) { return Busy; }
      }
      o := StoreTask(before, i);
    }

    /** Task creation once the receipt is claimed; `before` is the store before the claim. */
    method StoreTask(before: State, i: CreateInput) returns (o: Outcome)
      modifies this
      ensures (View(), o) == CreateClaimed(before, old(View()), i)
    {
      var id := i.task.scope.task;
      if id in tasks {
        Restore(before);
        return Aborted;
      }
      if i.task.scope.project !in projects || !projects[i.task.scope.project].lifecycle.ProjectActive? || i.binding.NotBindable? { return Refused; }
      if i.run.Some? {
        var admitted := AdmitRun(i.admission, i.run.value);
        if admitted.AdmissionBroken? {
          Restore(before);
          return Aborted;
        }
        if admitted.RunRejected? {
          o := RejectAdmission(before, i.receipt, admitted.reply);
          return;
        }
      }
      tasks := tasks[id := i.task];
      if i.message.Some? {
        var m := i.message.value;
        if m.id in messages {
          Restore(before);
          return Aborted;
        }
        StoreMessage(m.id, id, m.createdAt, m.published);
      }
      return Applied;
    }

    method StoreMessage(id: Id, task: Id, createdAt: Time, publish: bool)
      modifies `messages, `published
      ensures View() == MessageAdded(old(View()), id, task, createdAt, publish)
    {
      messages := messages[id := Message(task, createdAt, Pending, None, false)];
      if publish { published := published + {id}; }
    }

    method FindRun(id: Option<Id>) returns (r: Option<Run>)
      ensures r == RunOf(runs, id)
    {
      if id.None? || id.value !in runs { return None; }
      return Some(runs[id.value]);
    }

    /** Whether the task's current Run, if it has one, is a stored and released Run of the task. */
    method HasRoomForRun(task: Task) returns (ok: bool)
      ensures ok == CurrentRunIsOver(View(), task)
    {
      if task.currentRun.None? { return true; }
      var run := FindRun(task.currentRun);
      return run.Some? && run.value.scope == task.scope && run.value.phase.Released?;
    }

    method RestartTask(id: Id, r: Restart, admission: Admission, receipt: Claiming<Id>) returns (o: Outcome)
      requires Valid() && WellFormed(View(), Event.RestartTask(id, r, admission, receipt))
      modifies this
      ensures (View(), o) == RestartStep(old(View()), id, r, admission, receipt) && Valid()
    {
      hide Inv;
      RestartKeeps(View(), id, r, admission, receipt);
      var before := View();
      var (withClaim, claimed) := Claim(receipts, receipt);
      receipts := withClaim;
      if claimed.HashMismatch? { return Mismatch; }
      if claimed.Replay? { return Replayed(claimed.reply); }
      if claimed.InProgress? { return Busy; }
      if claimed.resource != OnTask(id) {
        Restore(before);
        return Aborted;
      }
      if r.scope.project !in projects || !projects[r.scope.project].lifecycle.ProjectActive? { return Refused; }
      if id !in tasks || tasks[id].deleted || tasks[id].archived || tasks[id].currentRun != r.expected { return Refused; }
      var over := HasRoomForRun(tasks[id]);
      if !over || !RestartMatches(tasks[id], r) { return Refused; }
      o := StartRun(before, id, r.run, admission, receipt);
    }

    /** Admits the Run and makes it the current Run of the task. */
    method StartRun(before: State, task: Id, run: Run, admission: Admission, receipt: Claiming<Id>) returns (o: Outcome)
      requires task in tasks
      modifies this
      ensures (View(), o) == match Admit(old(View()), admission, run)
                             case Broken => (before, Aborted)
                             case Full(reply) => CapacityReply(before, old(View()), Some(receipt), reply)
                             case Inserted(runs', usage') => (RunStarted(old(View()).(runs := runs', usage := usage'), task, run.id), Applied)
    {
      var admitted := AdmitRun(admission, run);
      match admitted {
        case AdmissionBroken =>
          Restore(before);
          return Aborted;
        case RunRejected(reply) =>
          o := RejectAdmission(before, Some(receipt), reply);
        case RunAdmitted =>
          tasks := tasks[task := tasks[task].(currentRun := Some(run.id))];
          return Applied;
      }
    }

    static method FindOtherOwner(receipts: Ledger, key: Key, resource: Resource, currentRun: Option<Id>) returns (found: bool)
      ensures found == OtherOwner(receipts, key, resource, currentRun)
    {
      var rest := receipts.Keys;
      while rest != {}
        invariant rest <= receipts.Keys
        invariant forall k :: k in receipts && k !in rest && k != key && k.operation == Operation.TerminalStart && receipts[k].reply.None?
                    ==> receipts[k].resource != resource && (currentRun.Some? ==> receipts[k].resource != OnRun(currentRun.value))
        decreases |rest|
      {
        var k :| k in rest;
        rest := rest - {k};
        if k != key && k.operation == Operation.TerminalStart && receipts[k].reply.None?
           && (receipts[k].resource == resource || (currentRun.Some? && receipts[k].resource == OnRun(currentRun.value)))
        {
          return true;
        }
      }
      return false;
    }

    method ReplyToTerminal(key: Key, reply: Reply) returns (o: Outcome)
      requires key in receipts
      modifies `receipts
      ensures (View(), o) == TerminalReply(old(View()), key, reply)
    {
      receipts := receipts[key := receipts[key].(reply := Some(reply))];
      return Replayed(reply);
    }

    method BeginTerminalStart(i: TerminalInput) returns (o: Outcome)
      requires Valid() && WellFormed(View(), Event.TerminalStart(i))
      modifies this
      ensures (View(), o) == TerminalStartStep(old(View()), i) && Valid()
    {
      hide Inv, WellFormed, TerminalClaimed, Claim;
      TerminalStartKeeps(View(), i);
      ClaimNamesResource(receipts, i.receipt);
      var before := View();
      var (withClaim, claimed) := Claim(receipts, i.receipt);
      receipts := withClaim;
      match claimed
      case HashMismatch => return Mismatch;
      case Replay(reply) => return Replayed(reply);
      case InProgress(resource) => o := ResolveTerminal(before, i, resource, false);
      case Claimed(resource) => o := ResolveTerminal(before, i, resource, true);
    }

    method ResolveTerminal(before: State, i: TerminalInput, resource: Resource, mine: bool) returns (o: Outcome)
      requires i.receipt.key in receipts
      modifies this
      ensures (View(), o) == TerminalClaimed(before, old(View()), i, resource, mine)
    {
      var key := i.receipt.key;
      if i.task !in tasks || tasks[i.task].deleted || tasks[i.task].archived || tasks[i.task].scope.project != key.project {
        o := ReplyToTerminal(key, StartConflict);
        return;
      }
      var task := tasks[i.task];
      var other := FindOtherOwner(receipts, key, resource, task.currentRun);
      if other {
        o := ReplyToTerminal(key, StartConflict);
        return;
      }
      var run := FindRun(if resource.OnRun? then Some(resource.id) else None);
      if run.Some? && run.value.scope == task.scope {
        if task.currentRun == Some(run.value.id) && run.value.phase.Starting? { return if mine then Applied else Busy; }
        o := ReplyToTerminal(key, if run.value.phase.Active? then RunActivated(run.value.id) else RunNotStarted(run.value.id));
        return;
      }
      if !mine || i.restart.None? {
        o := ReplyToTerminal(key, StartConflict);
        return;
      }
      var r := i.restart.value;
      var over := HasRoomForRun(task);
      if r.expected != task.currentRun || resource != OnRun(r.run.id) || !RestartMatches(task, r) || !over {
        o := ReplyToTerminal(key, StartConflict);
        return;
      }
      if i.admission.None? {
        Restore(before);
        return Aborted;
      }
      o := StartRun(before, i.task, r.run.(readyAt := Some(i.reservedAt)), i.admission.value, i.receipt);
    }

    /* ---------- messages ---------- */

    method ClaimForSending(c: Claiming<Id>) returns (r: ClaimResult<Reply>)
      modifies `receipts
      ensures (receipts, r) == ClaimToSend(old(receipts), c)
    {
      if c.key !in receipts {
        receipts := receipts[c.key := Record(c.hash, c.resource, c.token, c.lease, None)];
        return Claimed(c.resource);
      }
      var record := receipts[c.key];
      if record.hash != c.hash { return HashMismatch; }
      if record.reply.Some? { return Replay(record.reply.value); }
      if record.claim != c.token {
        if record.lease > c.now { return InProgress(record.resource); }
        receipts := receipts[c.key := record.(claim := c.token, lease := c.lease)];
      }
      return Claimed(record.resource);
    }

    method SendMessage(i: SendInput) returns (o: Outcome)
      requires Valid() && WellFormed(View(), Event.SendMessage(i))
      modifies this
      ensures (View(), o) == SendStep(old(View()), i) && Valid()
    {
      hide Inv, WellFormed, SendClaimed;
      SendKeeps(View(), i);
      var before := View();
      var claimed := ClaimForSending(i.receipt);
      if claimed.HashMismatch? { return Mismatch; }
      if claimed.Replay? { return Replayed(claimed.reply); }
      if claimed.InProgress? { return Busy; }
      o := DeliverToTask(before, i, claimed.resource.id);
    }

    method DeliverToTask(before: State, i: SendInput, message: Id) returns (o: Outcome)
      modifies this
      ensures (View(), o) == SendClaimed(before, old(View()), i, message)
    {
      var project := i.receipt.key.project;
      if project !in projects || !projects[project].lifecycle.ProjectActive? { return Refused; }
      if i.task !in tasks || tasks[i.task].deleted || tasks[i.task].archived || tasks[i.task].scope.project != project { return Refused; }
      if message in messages { return Repeated; }
      var task := tasks[i.task];
      var run := FindRun(task.currentRun);
      if run.None? || run.value.scope != task.scope || !(run.value.phase.Starting? || run.value.phase.Active?) {
        if task.currentRun != i.expected || i.restart.None? { return Refused; }
        var over := HasRoomForRun(task);
        var r := i.restart.value.(expected := i.expected);
        if !over || !RestartMatches(task, r) { return Refused; }
        o := StartRun(before, i.task, r.run.(readyAt := Some(i.reservedAt)), i.admission, i.receipt);
        if !o.Applied? { return; }
      }
      o := CompleteSend(before, i, message);
    }

    method CompleteSend(before: State, i: SendInput, message: Id) returns (o: Outcome)
      modifies this
      ensures (View(), o) == MessageSent(before, old(View()), i, message)
    {
      StoreMessage(message, i.task, i.createdAt, true);
      var done := CompleteClaim(i.receipt, i.reply);
      if !done {
        Restore(before);
        return Aborted;
      }
      return Applied;
    }

    method QueueMessage(task: Id, message: Id, createdAt: Time) returns (o: Outcome)
      requires Valid()
      modifies `messages, `published
      ensures (View(), o) == QueueMessageStep(old(View()), task, message, createdAt) && Valid()
    {
      hide Inv;
      QueueMessageKeeps(View(), task, message, createdAt);
      if task !in tasks || tasks[task].deleted { return Refused; }
      if message in messages { return Aborted; }
      StoreMessage(message, task, createdAt, true);
      return Applied;
    }

    method DeleteMessage(task: Id, message: Id, receipt: Claiming<Id>, reply: Reply) returns (o: Outcome)
      requires Valid() && WellFormed(View(), Event.DeleteMessage(task, message, receipt, reply))
      modifies this
      ensures (View(), o) == DeleteMessageStep(old(View()), task, message, receipt, reply) && Valid()
    {
      hide Inv;
      DeleteMessageKeeps(View(), task, message, receipt, reply);
      var before := View();
      var project := receipt.key.project;
      if project !in projects || !projects[project].lifecycle.ProjectActive? { return Refused; }
      var (withClaim, claimed) := Claim(receipts, receipt);
      receipts := withClaim;
      if claimed.HashMismatch? { return Mismatch; }
      if claimed.Replay? { return Replayed(claimed.reply); }
      if claimed.InProgress? { return Busy; }
      o := MarkDeleted(before, task, message, receipt.key, claimed.resource, reply);
    }

    method MarkDeleted(before: State, task: Id, message: Id, key: Key, resource: Resource, reply: Reply) returns (o: Outcome)
      requires key in receipts
      modifies this
      ensures (View(), o) == MessageDeleted(before, old(View()), task, message, key, resource, reply)
    {
      if resource != OnMessage(message) || task !in tasks || tasks[task].scope.project != key.project || tasks[task].deleted || tasks[task].archived
         || message !in messages || messages[message].task != task
         || !(messages[message].delivery.Pending? || messages[message].delivery.DeliveryFailed?)
      {
        Restore(before);
        return Refused;
      }
      messages := messages[message := messages[message].(deleted := true)];
      published := published - {message};
      receipts := receipts[key := receipts[key].(reply := Some(reply))];
      return Applied;
    }

    /** Looks through every message for an older one of the task that is still unresolved. */
    method FindOlderUnresolved(target: Id) returns (found: bool)
      requires target in messages
      ensures found == HasOlderUnresolved(View(), target)
    {
      var rest := messages.Keys;
      while rest != {}
        invariant rest <= messages.Keys
        invariant forall older :: older in messages && older !in rest ==> !Blocks(View(), older, target)
        decreases |rest|
      {
        var older :| older in rest;
        rest := rest - {older};
        var a, b := messages[older], messages[target];
        if a.task == b.task && !a.deleted && older in published && (a.delivery.Pending? || a.delivery.Dispatching?)
           && (a.createdAt < b.createdAt || (a.createdAt == b.createdAt && older < target))
        {
          return true;
        }
      }
      return false;
    }

    method ClaimTaskMessage(message: Id, task: Id, run: Id, token: int, claim: Id) returns (o: Outcome)
      requires Valid()
      modifies `messages, `runs
      ensures (View(), o) == ClaimMessageStep(old(View()), message, task, run, token, claim) && Valid()
    {
      hide Inv;
      ClaimMessageKeeps(View(), message, task, run, token, claim);
      if message !in messages || messages[message].task !in tasks || run !in runs { return Refused; }
      var m, t, r := messages[message], tasks[messages[message].task], runs[run];
      if t.deleted || t.scope.task != task || t.currentRun != Some(run) { return Refused; }
      if r.scope.task != task || !r.phase.Active? || r.token != token || r.owned.Some? { return Refused; }
      if m.deleted || message !in published || !m.delivery.Pending? || m.claim.Some? { return Refused; }
      var older := FindOlderUnresolved(message);
      if older { return Refused; }
      messages := messages[message := m.(delivery := Dispatching, claim := Some(claim))];
      runs := runs[run := r.(owned := Some(message))];
      return Applied;
    }

    method AcceptTaskMessage(message: Id, task: Id, run: Id, claim: Id) returns (o: Outcome)
      requires Valid()
      modifies `messages
      ensures (View(), o) == AcceptMessageStep(old(View()), message, task, run, claim) && Valid()
    {
      hide Inv;
      AcceptMessageKeeps(View(), message, task, run, claim);
      if message !in messages || task !in tasks || run !in runs { return Refused; }
      var m, r := messages[message], runs[run];
      if m.task != task || tasks[task].currentRun != Some(run) { return Refused; }
      if !r.phase.Active? || r.scope.task != task || r.owned != Some(message) { return Refused; }
      if m.deleted || !m.delivery.Dispatching? || m.claim != Some(claim) { return Refused; }
      messages := messages[message := m.(delivery := Accepted)];
      return Applied;
    }

    method SettleTaskRunOwner(message: Id, task: Id, run: Id, token: int, observed: bool) returns (o: Outcome)
      requires Valid()
      modifies `messages, `runs
      ensures (View(), o) == SettleOwnerStep(old(View()), message, task, run, token, observed) && Valid()
    {
      hide Inv;
      SettleOwnerKeeps(View(), message, task, run, token, observed);
      if message !in messages || task !in tasks || run !in runs { return Refused; }
      var m, r := messages[message], runs[run];
      if tasks[task].currentRun != Some(run) || !r.phase.Active? || r.token != token || r.owned != Some(message) || m.task != task || m.deleted { return Refused; }
      if observed && !m.delivery.Accepted? {
        m := m.(delivery := Accepted);
      } else if !observed && m.delivery.Dispatching? {
        m := m.(delivery := DeliveryFailed);
      }
      messages := messages[message := m];
      runs := runs[run := r.(owned := None)];
      return Applied;
    }

    method ObserveAccepted(message: Id, task: Id) returns (o: Outcome)
      requires Valid()
      modifies `messages
      ensures (View(), o) == ObserveAcceptedStep(old(View()), message, task) && Valid()
    {
      hide Inv;
      ObserveAcceptedKeeps(View(), message, task);
      if task !in tasks || tasks[task].deleted { return Aborted; }
      if message !in messages || messages[message].task != task || messages[message].deleted { return Refused; }
      messages := messages[message := messages[message].(delivery := Accepted)];
      return Applied;
    }

    /* ---------- the end of tasks and projects ---------- */

    method SandboxIsReleased(task: Id) returns (ok: bool)
      requires task in tasks
      ensures ok == TaskSandboxReleased(View(), task)
    {
      var busy := HasUnreleased(runs, tasks[task].scope.task);
      if busy { return false; }
      ok := HasRoomForRun(tasks[task]);
    }

    method ArchiveTask(task: Id) returns (o: Outcome)
      requires Valid()
      modifies `tasks
      ensures (View(), o) == CloseTaskStep(old(View()), task, false) && Valid()
    {
      hide Inv;
      CloseTaskKeeps(View(), task, false);
      if task !in tasks || tasks[task].deleted { return Refused; }
      if tasks[task].scope.project !in projects || !projects[tasks[task].scope.project].lifecycle.ProjectActive? { return Refused; }
      var released := SandboxIsReleased(task);
      if !released { return NotReady; }
      tasks := tasks[task := tasks[task].(archived := true)];
      return Applied;
    }

    method BeginTaskDeletion(task: Id) returns (o: Outcome)
      requires Valid()
      modifies `tasks
      ensures (View(), o) == CloseTaskStep(old(View()), task, true) && Valid()
    {
      hide Inv;
      CloseTaskKeeps(View(), task, true);
      if task !in tasks { return Refused; }
      if tasks[task].scope.project !in projects || !projects[tasks[task].scope.project].lifecycle.ProjectActive? { return Refused; }
      var released := SandboxIsReleased(task);
      if !released { return NotReady; }
      tasks := tasks[task := tasks[task].(deleted := true)];
      return Applied;
    }

    /** Removes the messages of one task and what was published of them. */
    method RemoveMessages(task: Id)
      modifies `messages, `published
      ensures messages == map k | k in old(messages) && old(messages)[k].task != task :: old(messages)[k]
      ensures published == set k | k in old(published) && !(k in old(messages) && old(messages)[k].task == task)
    {
      var rest := messages.Keys;
      while rest != {}
        invariant rest <= messages.Keys <= old(messages).Keys
        invariant forall k :: k in messages ==> messages[k] == old(messages)[k]
        invariant forall k :: k in old(messages) && k !in rest ==> (k in messages <==> old(messages)[k].task != task)
        invariant forall k :: k in published <==> k in old(published) && !(k in old(messages) && k !in rest && old(messages)[k].task == task)
        decreases |rest|
      {
        var k :| k in rest;
        rest := rest - {k};
        if messages[k].task == task {
          messages, published := messages - {k}, published - {k};
        }
      }
    }

    method RemoveRuns(task: Id)
      modifies `runs
      ensures runs == map k | k in old(runs) && old(runs)[k].scope.task != task :: old(runs)[k]
    {
      var rest := runs.Keys;
      while rest != {}
        invariant rest <= runs.Keys <= old(runs).Keys
        invariant forall k :: k in runs ==> runs[k] == old(runs)[k]
        invariant forall k :: k in old(runs) && k !in rest ==> (k in runs <==> old(runs)[k].scope.task != task)
        decreases |rest|
      {
        var k :| k in rest;
        rest := rest - {k};
        if runs[k].scope.task == task { runs := runs - {k}; }
      }
    }

    method RemoveTask(task: Id)
      modifies `tasks, `messages, `published, `runs
      ensures View() == WithoutTask(old(View()), task)
    {
      RemoveMessages(task);
      RemoveRuns(task);
      tasks := tasks - {task};
    }

    method PurgeTask(task: Id, completion: Option<Completion>) returns (o: Outcome)
      requires Valid()
      modifies this
      ensures (View(), o) == PurgeTaskStep(old(View()), task, completion) && Valid()
    {
      hide Inv;
      PurgeTaskKeeps(View(), task, completion);
      if task !in tasks || !tasks[task].deleted { return Refused; }
      var released := SandboxIsReleased(task);
      if !released { return Refused; }
      if completion.Some? {
        var c := completion.value;
        if c.key !in receipts || receipts[c.key].reply.Some? || receipts[c.key].hash != c.hash || receipts[c.key].claim != c.holder
           || receipts[c.key].resource != OnTask(task) { return Refused; }
      }
      RemoveTask(task);
      if completion.Some? {
        receipts := receipts[completion.value.key := receipts[completion.value.key].(reply := Some(completion.value.reply))];
      }
      return Applied;
    }

    method CreateProject(project: Id, workspace: Id, limit: Option<nat>)
      requires Valid() && project !in projects
      modifies `projects, `policies, `usage
      ensures View() == CreateProjectStep(old(View()), project, workspace, limit).0 && Valid()
    {
      hide Inv;
      CreateProjectKeeps(View(), project, workspace, limit);
      projects := projects[project := Project(workspace, ProjectActive)];
      policies := policies[project := limit];
      usage := usage[project := 0];
    }

    method BeginProjectDeletion(project: Id, providerLive: bool) returns (o: Outcome)
      requires Valid()
      modifies `projects
      ensures (View(), o) == BeginProjectDeletionStep(old(View()), project, providerLive) && Valid()
    {
      hide Inv, Unreleased;
      BeginProjectDeletionKeeps(View(), project, providerLive);
      if project !in projects { return Refused; }
      var live := CountInProject(runs, project);
      if providerLive || live > 0 {
        if projects[project].lifecycle.ProjectDeleting? { projects := projects[project := projects[project].(lifecycle := ProjectActive)]; }
        return NotReady;
      }
      projects := projects[project := projects[project].(lifecycle := ProjectDeleting)];
      return Applied;
    }
  }
}
