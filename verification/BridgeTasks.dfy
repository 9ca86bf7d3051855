/** The bridge's job handling as it runs (crates/vgi-bridge/src/bridge.rs): its tables and its tasks, updated
    in place, one stretch between two waits at a time. `Ledger` says what each stretch does. */
module BridgeTasks {
  import opened Wrappers
  import opened Ledger
  import Mirroring
  import MirrorTask
  import Keys

  /** How long a send waits for the mirror, in milliseconds. */
  const OUTBOX_FLUSH := 10_000

  class Bridge {
    var jobs: map<string, JobRecord>
    var outbox: map<OutKey, OutboxEntry>
    var bound: set<string>
    var orphaned: set<string>
    var handlers: map<nat, Handler>
    var tasks: map<nat, Task>
    var senders: map<nat, Sender>
    var next: nat
    var changes: nat
    var settled: nat
    ghost var past: Past

    ghost function Now(): State
      reads this
    {
      State(jobs, outbox, bound, orphaned, handlers, tasks, senders, next, changes, settled, past)
    }

    constructor ()
      ensures Now() == Initial()
    {
      jobs, outbox, bound, orphaned := map[], map[], {}, {};
      handlers, tasks, senders, next, changes, settled := map[], map[], map[], 0, 0, 0;
      past := Initial().past;
    }

    // ---- A job document ----

    method Deliver(job: Job)
      modifies this
      ensures Now() == AfterDelivery(old(Now()), job)
    {
      handlers, next := handlers[next := Received(job)], next + 1;
    }

    method EndHandler(n: nat, ghost reply: Option<Reply>)
      modifies this`handlers, this`past
      ensures Now() == Close(old(Now()), n, reply)
    {
      handlers := handlers - {n};
      past := past.(replies := past.replies + (if reply.Some? then {reply.value} else {}));
    }

    method LookUp(n: nat, storeOk: bool)
      requires n in handlers && handlers[n].Received?
      modifies this`handlers, this`past
      ensures Now() == AfterLookUp(old(Now()), n, storeOk)
      ensures var job := old(handlers)[n].job; var known := job.id in jobs;
        && (!storeOk ==> n !in handlers && past.replies == old(past.replies) + {Refused(job.id, Unavailable)})
        && (storeOk && !known ==> handlers == old(handlers)[n := Unknown(job)])
        && (storeOk && known && jobs[job.id].digest == job.body ==>
              handlers == old(handlers)[n := Repeated(job.id, jobs[job.id].state == Finished, jobs[job.id].report)])
        && (storeOk && known && jobs[job.id].digest != job.body ==>
              n !in handlers && past.replies == old(past.replies) + {Refused(job.id, JobIdReused)})
    {
      var job := handlers[n].job;
      if !storeOk {
        EndHandler(n, Some(Refused(job.id, Unavailable)));
      } else if job.id in jobs {
        var existing := jobs[job.id];
        if existing.digest != job.body {
          EndHandler(n, Some(Refused(job.id, JobIdReused)));
          return;
        }
        handlers := handlers[n := Repeated(job.id, existing.state.Finished?, existing.report)];
      } else {
        handlers := handlers[n := Unknown(job)];
      }
    }

    /** A job naming an orphaned namespace binds it again, whatever becomes of the job. */
    method Unorphan(namespace: string, storeOk: bool)
      modifies this`bound, this`orphaned
      ensures Now() == Revived(old(Now()), namespace, storeOk)
      ensures storeOk && namespace in old(orphaned) ==>
        bound == old(bound) + {namespace} && orphaned == old(orphaned) - {namespace}
      ensures !(storeOk && namespace in old(orphaned)) ==> Now() == old(Now())
    {
      if storeOk && namespace in orphaned {
        orphaned, bound := orphaned - {namespace}, bound + {namespace};
      }
    }

    method Admit(n: nat, reviveOk: bool, admitted: bool, storeOk: bool)
      requires n in handlers && handlers[n].Unknown?
      modifies this`jobs, this`bound, this`orphaned, this`handlers, this`past
      ensures Now() == AfterAdmission(old(Now()), n, reviveOk, admitted, storeOk)
      ensures var job := old(handlers)[n].job;
        var may := admitted && (job.namespace in old(orphaned) ==> reviveOk);
        && (may && storeOk && job.id !in old(jobs) ==>
              && jobs == old(jobs)[job.id := JobRecord(job.body, job.namespace, Some(job.body), Queued, None, None)]
              && handlers == old(handlers)[n := Recorded(job.id)])
        && (!may || !storeOk || job.id in old(jobs) ==> jobs == old(jobs) && handlers == old(handlers) - {n})
        && past.replies == old(past.replies) + (if !may then {Refused(job.id, NotAdmitted)}
                                                else if !storeOk then {Refused(job.id, Unavailable)} else {})
    {
      var job := handlers[n].job;
      Unorphan(job.namespace, reviveOk);
      if !admitted || job.namespace in orphaned {
        EndHandler(n, Some(Refused(job.id, NotAdmitted)));
      } else if !storeOk {
        EndHandler(n, Some(Refused(job.id, Unavailable)));
      } else if job.id in jobs {
        EndHandler(n, None);
      } else {
        jobs := jobs[job.id := QueuedJob(job)];
        handlers := handlers[n := Recorded(job.id)];
      }
    }

    method Accept(n: nat)
      requires n in handlers && handlers[n].Recorded?
      modifies this`handlers, this`past
      ensures Now() == AfterAccepting(old(Now()), n)
      ensures var id := old(handlers)[n].id;
        past.replies == old(past.replies) + {Accepted(id)} && handlers == old(handlers)[n := ToSpawn(id)]
    {
      past := past.(replies := past.replies + {Accepted(handlers[n].id)});
      handlers := handlers[n := ToSpawn(handlers[n].id)];
    }

    method SpawnJob(n: nat)
      requires n in handlers && handlers[n].ToSpawn?
      modifies this`handlers, this`tasks, this`next, this`past
      ensures Now() == AfterSpawning(old(Now()), n)
      ensures tasks == old(tasks)[old(next) := Starting(old(handlers)[n].id)] && handlers == old(handlers) - {n}
    {
      var id := handlers[n].id;
      handlers := handlers - {n};
      tasks, next := tasks[next := Starting(id)], next + 1;
      past := past.(spawned := past.spawned + multiset{id});
    }

    method AnswerRepeat(n: nat)
      requires n in handlers && handlers[n].Repeated?
      modifies this`handlers, this`past
      ensures Now() == AfterRepeatAnswer(old(Now()), n)
      ensures var h := old(handlers)[n];
        if h.finished then
          past.replies == old(past.replies) + {AlreadyFinished(h.id)}
          && handlers == old(handlers)[n := PuttingBack(h.id, h.report)]
        else past.replies == old(past.replies) + {Accepted(h.id)} && handlers == old(handlers) - {n}
    {
      var h := handlers[n];
      if !h.finished {
        EndHandler(n, Some(Accepted(h.id)));
      } else {
        past := past.(replies := past.replies + {AlreadyFinished(h.id)});
        handlers := handlers[n := PuttingBack(h.id, h.report)];
      }
    }

    method PutBack(n: nat, storeOk: bool)
      requires n in handlers && handlers[n].PuttingBack?
      modifies this`handlers, this`outbox, this`senders, this`next, this`past
      ensures Now() == AfterPuttingBack(old(Now()), n, storeOk)
      ensures var h := old(handlers)[n]; var key := ResultOf(h.id);
        && senders == old(senders)[old(next) := Picking(key)]
        && outbox == if storeOk && h.report.Some? && key !in old(outbox)
                     then old(outbox)[key := OutboxEntry(None, h.report.value, [], 0)] else old(outbox)
    {
      var h := handlers[n];
      handlers := handlers - {n};
      if storeOk && h.report.Some? && ResultOf(h.id) !in outbox {
        outbox := outbox[ResultOf(h.id) := NewEntry(None, h.report.value)];
        past := past.(cleared := past.cleared - {h.id});
      }
      StartSending(ResultOf(h.id));
    }

    // ---- A run task ----

    method StartJob(t: nat, storeOk: bool)
      requires t in tasks && tasks[t].Starting?
      modifies this`tasks
      ensures Now() == AfterStarting(old(Now()), t, storeOk)
      ensures var id := old(tasks)[t].id;
        if storeOk && id in jobs && jobs[id].state == Finished then tasks == old(tasks) - {t}
        else tasks == old(tasks)[t := if storeOk && id in jobs && jobs[id].payload.Some?
                                      then Queueing(id, jobs[id].payload.value) else Reporting(id, "forgeError")]
    {
      var id := tasks[t].id;
      if !storeOk || id !in jobs {
        tasks := tasks[t := Reporting(id, FAILED)];
      } else if jobs[id].state.Finished? {
        tasks := tasks - {t};
      } else if jobs[id].payload.None? {
        tasks := tasks[t := Reporting(id, FAILED)];
      } else {
        tasks := tasks[t := Queueing(id, jobs[id].payload.value)];
      }
    }

    method TakeTurn(t: nat, storeOk: bool)
      requires t in tasks && tasks[t].Queueing?
      modifies this`jobs, this`tasks, this`past
      ensures Now() == AfterTurn(old(Now()), t, storeOk)
      ensures var task := old(tasks)[t];
        && tasks == old(tasks)[t := if storeOk then Working(task.id, task.payload) else Reporting(task.id, "forgeError")]
        && jobs == if storeOk && task.id in old(jobs)
                   then old(jobs)[task.id := old(jobs)[task.id].(state := Running)] else old(jobs)
    {
      var task := tasks[t];
      if !storeOk {
        tasks := tasks[t := Reporting(task.id, FAILED)];
        return;
      }
      if task.id in jobs {
        jobs := jobs[task.id := jobs[task.id].(state := Running)];
      }
      tasks := tasks[t := Working(task.id, task.payload)];
      past := past.(runs := past.runs[(task.id, past.pruned[task.id]) := task.payload]);
    }

    method EndWork(t: nat, report: string)
      requires t in tasks && tasks[t].Working?
      modifies this`tasks
      ensures Now() == AfterWork(old(Now()), t, report)
      ensures tasks == old(tasks)[t := Reporting(old(tasks)[t].id, report)]
    {
      tasks := tasks[t := Reporting(tasks[t].id, report)];
    }

    /** The result and its outbox entry are one transaction, which an already finished job leaves alone. */
    method FinishJob(t: nat, now: int, storeOk: bool)
      requires t in tasks && tasks[t].Reporting?
      modifies this`jobs, this`outbox, this`tasks, this`senders, this`next, this`past
      ensures Now() == AfterFinishing(old(Now()), t, now, storeOk)
      ensures tasks == old(tasks) - {t}
      ensures var id, report := old(tasks)[t].id, old(tasks)[t].report;
        if storeOk && id in old(jobs) && old(jobs)[id].state != Finished then
          && jobs == old(jobs)[id := JobRecord(old(jobs)[id].digest, old(jobs)[id].namespace, None, Finished,
                                               Some(report), Some(now))]
          && outbox == old(outbox)[ResultOf(id) := OutboxEntry(None, report, [], 0)]
          && senders == old(senders)[old(next) := Picking(ResultOf(id))]
        else jobs == old(jobs) && outbox == old(outbox) && senders == old(senders)
    {
      var id, report := tasks[t].id, tasks[t].report;
      tasks := tasks - {t};
      if !storeOk {
        past := past.(faulted := true);
        return;
      }
      if id !in jobs || jobs[id].state.Finished? {
        return;
      }
      jobs := jobs[id := jobs[id].(state := Finished, report := Some(report), payload := None, finishedAt := Some(now))];
      outbox := outbox[ResultOf(id) := NewEntry(None, report)];
      past := past.(recorded := past.recorded + {(id, report)}, cleared := past.cleared - {id},
                    results := past.results[(id, past.pruned[id]) := report]);
      StartSending(ResultOf(id));
    }

    // ---- Sending ----

    method StartSending(key: OutKey)
      modifies this`senders, this`next
      ensures Now() == BeginSend(old(Now()), key)
    {
      senders, next := senders[next := Picking(key)], next + 1;
    }

    method Post(m: nat, storeOk: bool)
      requires m in senders && senders[m].Announcing?
      modifies this`senders, this`outbox
      ensures Now() == AfterPosting(old(Now()), m, storeOk)
      ensures var p := old(senders)[m];
        if storeOk then outbox == old(outbox)[p.key := OutboxEntry(p.about, p.payload, [], 0)]
                        && senders == old(senders)[m := Picking(p.key)]
        else outbox == old(outbox) && senders == old(senders) - {m}
    {
      var p := senders[m];
      if !storeOk {
        senders := senders - {m};
        return;
      }
      outbox := outbox[p.key := NewEntry(p.about, p.payload)];
      senders := senders[m := Picking(p.key)];
    }

    method Pick(m: nat, storeOk: bool)
      requires m in senders && senders[m].Picking?
      modifies this`senders
      ensures Now() == AfterPicking(old(Now()), m, storeOk)
      ensures var key := old(senders)[m].key;
        senders == if storeOk && key in outbox
                   then old(senders)[m := Screening(key, outbox[key].payload, outbox[key].namespace, changes)]
                   else old(senders) - {m}
    {
      var key := senders[m].key;
      if !storeOk || key !in outbox {
        senders := senders - {m};
        return;
      }
      var e := outbox[key];
      senders := senders[m := Screening(key, e.payload, e.namespace, changes)];
    }

    method Screen(m: nat, storeOk: bool, deleteOk: bool)
      requires m in senders && senders[m].Screening?
      modifies this`senders, this`outbox
      ensures Now() == AfterScreening(old(Now()), m, storeOk, deleteOk)
      ensures var p := old(senders)[m];
        if storeOk && p.about.Some? && p.about.value in orphaned then
          senders == old(senders) - {m} && outbox == if deleteOk then old(outbox) - {p.key} else old(outbox)
        else senders == old(senders)[m := Flushing(p.key, p.payload, p.about, p.since)] && outbox == old(outbox)
    {
      var p := senders[m];
      if p.about.Some? && storeOk && p.about.value in orphaned {
        if deleteOk {
          outbox := outbox - {p.key};
        }
        senders := senders - {m};
        return;
      }
      senders := senders[m := Flushing(p.key, p.payload, p.about, p.since)];
    }

    /** Wait for the mirror, in VTA mode; without one everything is where it belongs already. What is counted
        as settled is what its `Flush` vouches for. */
    method AwaitMirror(mirror: MirrorTask.Mirror?, pass: MirrorTask.Lease?, rest: set<Keys.Key>) returns (flushed: bool)
      requires mirror != null ==> MirrorAwaits(mirror, pass, rest)
      modifies this`settled
      modifies if mirror == null then {} else {mirror, mirror.store, mirror.remote}
      modifies if pass == null then {} else {pass}
      ensures Now() == old(Now()).(settled := if flushed then changes else old(settled))
      ensures mirror == null || old(mirror.Pending() == 0 && !mirror.Stopped()) ==> flushed
      ensures mirror != null ==> Mirroring.Valid(mirror.Now()) && (flushed ==> mirror.Pending() == 0)
      ensures mirror != null && flushed && old(MirrorInStep(mirror, pass)) ==> EverythingWritten(mirror.Now())
    {
      hide Mirroring.Valid, Mirroring.InStep;
      flushed := true;
      if mirror != null {
        flushed := mirror.Flush(OUTBOX_FLUSH, pass, rest);
      }
      if flushed {
        settled := changes;
      }
    }

    method PassFlush(m: nat, flushed: bool)
      requires m in senders && senders[m].Flushing? && (flushed ==> settled == changes)
      modifies this`senders
      ensures Now() == AfterFlush(old(Now()), m, flushed)
      ensures var p := old(senders)[m];
        senders == if flushed then old(senders)[m := Signing(p.key, p.payload, p.about, p.since)] else old(senders) - {m}
    {
      var p := senders[m];
      senders := if flushed then senders[m := Signing(p.key, p.payload, p.about, p.since)] else senders - {m};
    }

    method Sign(m: nat, docId: Option<string>)
      requires m in senders && senders[m].Signing?
      modifies this`senders, this`outbox, this`past
      ensures Now() == AfterSigning(old(Now()), m, docId)
      ensures docId.None? ==> senders == old(senders) - {m} && outbox == old(outbox)
      ensures docId.Some? ==>
        var p := old(senders)[m];
        && senders == old(senders)[m := Sending(p.key, p.payload, p.about, p.since, docId.value)]
        && outbox.Keys == old(outbox).Keys
        && (forall key :: key in outbox && key != p.key ==> outbox[key] == old(outbox)[key])
        && (p.key in outbox ==> NotedOn(old(outbox)[p.key], outbox[p.key], docId.value))
    {
      var p := senders[m];
      if docId.None? {
        senders := senders - {m};
        return;
      }
      if p.key in outbox {
        var e := outbox[p.key];
        var ids := e.docIds + [docId.value];
        if |ids| > MAX_DOC_IDS {
          ids := ids[1..];
        }
        outbox := outbox[p.key := e.(docIds := ids, attempts := e.attempts + 1)];
      }
      past := past.(docIds := past.docIds + {docId.value});
      senders := senders[m := Sending(p.key, p.payload, p.about, p.since, docId.value)];
    }

    method Send(m: nat)
      requires m in senders && senders[m].Sending?
      modifies this`senders, this`past
      ensures Now() == AfterSending(old(Now()), m)
      ensures senders == old(senders) - {m}
      ensures past.sent == old(past.sent) + {(old(senders)[m].key, old(senders)[m].payload)}
    {
      past := past.(sent := past.sent + {(senders[m].key, senders[m].payload)});
      senders := senders - {m};
    }

    /** Begin sending `key`: nothing, if there is no such entry. */
    method ReadEntry(key: OutKey, storeOk: bool) returns (m: nat)
      requires Valid(Now())
      modifies this`senders, this`next
      ensures Valid(Now()) && Later(old(Now()), Now())
      ensures m in senders <==> storeOk && key in outbox
      ensures m in senders ==>
        key in outbox && senders[m] == Screening(key, outbox[key].payload, outbox[key].namespace, changes)
    {
      hide Valid, Later;
      m := next;
      ghost var start := Now();
      StartSending(key);
      ghost var begun := Now();
      BeginSendStays(start, key);
      SameLedgerIsLater(start, begun);
      Pick(m, storeOk);
      PickStays(begun, m, storeOk);
      SameLedgerIsLater(begun, Now());
      LaterThrough(start, begun, Now());
    }

    /** Pick up `key`, unless it is an event of a namespace nobody is to hear of. */
    method PickUp(key: OutKey, storeOk: bool, lookOk: bool, deleteOk: bool) returns (m: nat)
      requires Valid(Now())
      modifies this`senders, this`outbox, this`next
      ensures Valid(Now()) && Later(old(Now()), Now())
      ensures m in senders ==>
        && key in old(outbox) && outbox == old(outbox)
        && senders[m] == Flushing(key, outbox[key].payload, outbox[key].namespace, changes)
        && (lookOk && outbox[key].namespace.Some? ==> outbox[key].namespace.value !in orphaned)
      ensures storeOk && key in old(outbox)
              && (lookOk && old(outbox)[key].namespace.Some? ==> old(outbox)[key].namespace.value !in orphaned) ==>
        m in senders
    {
      hide Valid, Later;
      m := ReadEntry(key, storeOk);
      if m in senders {
        ghost var read := Now();
        Screen(m, lookOk, deleteOk);
        ScreenStays(read, m, lookOk, deleteOk);
        SameLedgerIsLater(read, Now());
        LaterThrough(old(Now()), read, Now());
      }
    }

    /** Sign a document for what was picked up, note it, and send it. */
    method SignAndSend(m: nat, docId: Option<string>)
      requires Valid(Now()) && m in senders && senders[m].Signing? && (docId.Some? ==> docId.value !in past.docIds)
      modifies this`senders, this`outbox, this`past
      ensures Valid(Now()) && Later(old(Now()), Now())
      ensures past.sent == old(past.sent) + (if docId.Some? then {(old(senders)[m].key, old(senders)[m].payload)} else {})
      ensures var key := old(senders)[m].key; docId.Some? && key in old(outbox) ==>
        key in outbox && NotedOn(old(outbox)[key], outbox[key], docId.value)
    {
      hide Valid, Later, NotedOn;
      ghost var start := Now();
      Sign(m, docId);
      ghost var signed := Now();
      SignStays(start, m, docId);
      TransmittingIsLater(start, m, SenderMove.Sign(docId));
      if docId.Some? {
        Send(m);
        SendStays(signed, m);
        TransmittingIsLater(signed, m, SenderMove.Send);
        LaterThrough(start, signed, Now());
      }
    }

    /** Hold what was picked up until the mirror is flushed; it is given up for now if that takes too long. */
    method HoldForMirror(m: nat, mirror: MirrorTask.Mirror?, pass: MirrorTask.Lease?, rest: set<Keys.Key>)
      returns (flushed: bool)
      requires Valid(Now()) && m in senders && senders[m].Flushing?
      requires mirror != null ==> MirrorAwaits(mirror, pass, rest)
      modifies this`senders, this`settled
      modifies if mirror == null then {} else {mirror, mirror.store, mirror.remote}
      modifies if pass == null then {} else {pass}
      ensures Valid(Now()) && Later(old(Now()), Now())
      ensures flushed ==>
        && var p := old(senders)[m]; m in senders && senders[m] == Signing(p.key, p.payload, p.about, p.since)
      ensures mirror == null || old(mirror.Pending() == 0 && !mirror.Stopped()) ==> flushed
      ensures mirror != null && flushed ==> mirror.Pending() == 0
      ensures mirror != null && flushed && old(MirrorInStep(mirror, pass)) ==> EverythingWritten(mirror.Now())
    {
      hide Valid, Mirroring.Valid, Mirroring.InStep, EverythingWritten, Later;
      ghost var picked := Now();
      flushed := AwaitMirror(mirror, pass, rest);
      ghost var waited := Now();
      CountsAdvance(picked, flushed);
      PassFlush(m, flushed);
      FlushStays(waited, m, flushed);
      SameLedgerIsLater(waited, Now());
      LaterThrough(picked, waited, Now());
    }

    /** One sending from end to end. Nothing goes out but with nothing pending in the mirror, and so, from a host in
        step, with every mirrored record and secret of its in the remote that is not too large for it; and no event
        of a namespace known to be orphaned. */
    method SendOutbox(key: OutKey, mirror: MirrorTask.Mirror?, pass: MirrorTask.Lease?, rest: set<Keys.Key>,
                      docId: Option<string>, storeOk: bool, lookOk: bool, deleteOk: bool)
      requires Valid(Now()) && (docId.Some? ==> docId.value !in past.docIds)
      requires mirror != null ==> MirrorAwaits(mirror, pass, rest)
      modifies this`senders, this`outbox, this`next, this`settled, this`past
      modifies if mirror == null then {} else {mirror, mirror.store, mirror.remote}
      modifies if pass == null then {} else {pass}
      ensures Valid(Now()) && Later(old(Now()), Now())
      ensures past.sent != old(past.sent) ==>
        key in old(outbox) && past.sent == old(past.sent) + {(key, old(outbox)[key].payload)}
      ensures past.sent != old(past.sent) && mirror != null ==> mirror.Pending() == 0
      ensures past.sent != old(past.sent) && mirror != null && old(MirrorInStep(mirror, pass)) ==>
        EverythingWritten(mirror.Now())
      ensures past.sent != old(past.sent) && lookOk && old(outbox)[key].namespace.Some? ==>
        old(outbox)[key].namespace.value !in orphaned
      ensures (mirror == null || old(mirror.Pending() == 0 && !mirror.Stopped()))
              && storeOk && key in old(outbox) && docId.Some?
              && (lookOk && old(outbox)[key].namespace.Some? ==> old(outbox)[key].namespace.value !in old(orphaned)) ==>
        && past.sent == old(past.sent) + {(key, old(outbox)[key].payload)}
        && key in outbox && NotedOn(old(outbox)[key], outbox[key], docId.value)
    {
      hide Valid, Mirroring.Valid, Mirroring.InStep, EverythingWritten, Later, NotedOn;
      ghost var start := Now();
      var m := PickUp(key, storeOk, lookOk, deleteOk);
      if m !in senders {
        return;
      }
      ghost var picked := Now();
      var flushed := HoldForMirror(m, mirror, pass, rest);
      LaterThrough(start, picked, Now());
      if flushed {
        ghost var passed := Now();
        SignAndSend(m, docId);
        LaterThrough(start, passed, Now());
      }
    }

    method QueueEvent(text: string, namespace: string, payload: string, storeOk: bool)
      modifies this`senders, this`next
      ensures Now() == AfterEvent(old(Now()), text, namespace, payload, storeOk)
      ensures senders == if storeOk && namespace in orphaned then old(senders)
                         else old(senders)[old(next) := Announcing(EventKey(text), payload, Some(namespace))]
    {
      if storeOk && namespace in orphaned {
        return;
      }
      senders, next := senders[next := Announcing(EventKey(text), payload, Some(namespace))], next + 1;
    }

    method Bind(namespace: string)
      modifies this`bound, this`orphaned
      ensures Now() == AfterBinding(old(Now()), namespace)
      ensures bound == old(bound) + {namespace} && orphaned == old(orphaned) - {namespace}
    {
      bound, orphaned := bound + {namespace}, orphaned - {namespace};
    }

    // ---- What the VTC answers ----

    method OnResultAck(id: string, storeOk: bool)
      modifies this`outbox, this`past
      ensures Now() == AfterResultAck(old(Now()), id, storeOk)
      ensures outbox == if storeOk then old(outbox) - {ResultOf(id)} else old(outbox)
    {
      if storeOk && ResultOf(id) in outbox {
        outbox := outbox - {ResultOf(id)};
        past := past.(cleared := past.cleared + {id});
      }
    }

    /** Drop the entry one of whose last documents is `thread`, if there is one: at most one is. Of an outbox that
        cannot be listed there is none; an entry that cannot be deleted is found, and stays. */
    method ClearOutboxThread(thread: string, listOk: bool, deleteOk: bool) returns (key: Option<OutKey>)
      requires DocIdsSound(outbox, past.docIds)
      modifies this`outbox, this`past
      ensures key.Some? ==>
        && key.value in old(outbox) && thread in old(outbox)[key.value].docIds
        && outbox == (if deleteOk then old(outbox) - {key.value} else old(outbox))
        && Now() == AfterClearing(old(Now()), key.value, deleteOk)
      ensures key.None? ==> Now() == old(Now())
      ensures !listOk ==> key.None?
      ensures listOk ==> forall k :: k in old(outbox) && thread in old(outbox)[k].docIds ==> key == Some(k)
    {
      assert forall k :: k in outbox && thread in outbox[k].docIds ==> Threads(outbox, k, thread);
      if !listOk {
        return None;
      }
      var todo := outbox.Keys;
      while todo != {}
        invariant todo <= outbox.Keys && Now() == old(Now())
        invariant forall k :: Threads(outbox, k, thread) ==> k in todo
      {
        var k :| k in todo;
        if thread in outbox[k].docIds {
          assert Threads(outbox, k, thread);
          if deleteOk {
            outbox := outbox - {k};
            past := past.(cleared := past.cleared + (if k.ResultOf? then {k.id} else {}));
          }
          return Some(k);
        }
        todo := todo - {k};
      }
      key := None;
    }

    /** Every event of `namespace` leaves the outbox that the store deletes, if it can be listed: those in `kept`
        it does not. */
    method DropEvents(namespace: string, listOk: bool, kept: set<OutKey>)
      modifies this`outbox
      ensures outbox == old(outbox) - (if listOk then EventsOf(old(outbox), namespace) - kept else {})
      ensures outbox.Keys <= old(outbox).Keys && forall key :: key in old(outbox) ==>
        if listOk && old(outbox)[key].namespace == Some(namespace) && key !in kept then key !in outbox
        else key in outbox && outbox[key] == old(outbox)[key]
    {
      if !listOk {
        return;
      }
      var todo := outbox.Keys;
      ghost var dropped: set<OutKey> := {};
      while todo != {}
        invariant todo <= old(outbox).Keys && todo !! dropped && dropped <= EventsOf(old(outbox), namespace) - kept
        invariant EventsOf(old(outbox), namespace) - kept <= todo + dropped
        invariant outbox == old(outbox) - dropped
      {
        var key :| key in todo;
        todo := todo - {key};
        if outbox[key].namespace == Some(namespace) && key !in kept {
          outbox := outbox - {key};
          dropped := dropped + {key};
        }
      }
      assert dropped == EventsOf(old(outbox), namespace) - kept;
    }

    /** A bound namespace is orphaned, and then its events dropped, as far as the store does it. */
    method Orphan(namespace: string, storeOk: bool, listOk: bool, kept: set<OutKey>)
      modifies this`bound, this`orphaned, this`outbox
      ensures Now()
           == AfterOrphaning(old(Now()), namespace, storeOk, if listOk then kept else EventsOf(old(outbox), namespace))
      ensures if storeOk && namespace in old(bound) then
                bound == old(bound) - {namespace} && orphaned == old(orphaned) + {namespace}
              else bound == old(bound) && orphaned == old(orphaned) && outbox == old(outbox)
      ensures storeOk && namespace in old(bound) ==>
        outbox.Keys <= old(outbox).Keys && forall key :: key in old(outbox) ==>
          if listOk && old(outbox)[key].namespace == Some(namespace) && key !in kept then key !in outbox
          else key in outbox && outbox[key] == old(outbox)[key]
    {
      if !storeOk || namespace !in bound {
        return;
      }
      bound, orphaned := bound - {namespace}, orphaned + {namespace};
      DropEvents(namespace, listOk, kept);
      assert EventsOf(old(outbox), namespace) - EventsOf(old(outbox), namespace) == {};
    }

    /** A refusal of a document: only of a job or a namespace the VTC does not know is the entry it threads to
        given up. */
    method OnErrorResponse(code: ErrorCode, thread: string, faults: Faults) returns (ghost key: Option<OutKey>)
      requires DocIdsSound(outbox, past.docIds)
      modifies this`bound, this`orphaned, this`outbox, this`past
      ensures key.Some? ==> key.value in old(outbox) && thread in old(outbox)[key.value].docIds
      ensures code != OtherCode && faults.listOk ==>
        forall k :: k in old(outbox) && thread in old(outbox)[k].docIds ==> key == Some(k)
      ensures code == OtherCode ==> Now() == old(Now())
      ensures key.Some? && faults.deleteOk ==> key.value !in outbox
      ensures key.Some? && code == UnknownNamespace && faults.orphanOk ==>
        var about := old(outbox)[key.value].namespace;
        about.Some? && about.value in old(bound) ==>
          && about.value in orphaned && about.value !in bound
          && forall k :: k in outbox && outbox[k].namespace == about ==> k in faults.kept
      ensures code == OtherCode || !faults.listOk ==> key.None?
      ensures Now() == AfterRefusal(old(Now()), code, key, faults)
    {
      key := None;
      if code == UnknownJob {
        key := ClearOutboxThread(thread, faults.listOk, faults.deleteOk);
      } else if code == UnknownNamespace {
        var before := outbox;
        var cleared := ClearOutboxThread(thread, faults.listOk, faults.deleteOk);
        key := cleared;
        if cleared.Some? && before[cleared.value].namespace.Some? {
          Orphan(before[cleared.value].namespace.value, faults.orphanOk, true, faults.kept);
        }
      }
    }

    // ---- Upkeep and restarts ----

    /** A job finished, taken and past its retention leaves the ledger. */
    method PruneJob(id: string, now: int)
      requires id in jobs
      modifies this`jobs, this`past
      ensures Now() == AfterPruning(old(Now()), id, now)
      ensures jobs == if IsOver(old(jobs), outbox, id, now) then old(jobs) - {id} else old(jobs)
    {
      var j := jobs[id];
      if j.state.Finished? && ResultOf(id) !in outbox && j.finishedAt.Some? && now - j.finishedAt.value > JOB_RETENTION {
        jobs := jobs - {id};
        past := past.(pruned := past.pruned + multiset{id}, prunedHere := past.prunedHere + multiset{id});
      }
    }

    method Maintenance(now: int)
      requires Valid(Now())
      modifies this`jobs, this`past
      ensures Valid(Now()) && Later(old(Now()), Now())
      ensures jobs.Keys == set id | id in old(jobs) && !IsOver(old(jobs), outbox, id, now)
    {
      hide Valid, Later;
      var todo := jobs.Keys;
      LaterThanItself(Now());
      while todo != {}
        invariant PrunedSave(old(jobs), outbox, now, jobs, todo) && next == old(next)
        invariant Valid(Now()) && Later(old(Now()), Now())
      {
        hide PrunedSave;
        var id :| id in todo;
        ghost var before := Now();
        PrunesOne(old(jobs), outbox, now, jobs, todo, id);
        PruneJob(id, now);
        PruneStays(before, id, now);
        UpkeepIsLater(before, Prune(id, now));
        LaterThrough(old(Now()), before, Now());
        todo := todo - {id};
      }
    }

    /** A run task for each of `ids`, where there is none yet. */
    method SpawnAll(ids: set<string>)
      requires tasks == map[]
      modifies this`tasks, this`next
      ensures AllResumed(tasks, ids, next) && next == old(next) + |tasks|
    {
      hide AllResumed;
      var todo := ids;
      NoneResumed(next);
      assert ids - todo == {};
      while todo != {}
        invariant todo <= ids && next == old(next) + |tasks| && AllResumed(tasks, ids - todo, next)
      {
        var id :| id in todo;
        ResumesOneMore(tasks, ids - todo, next, id);
        assert ids - (todo - {id}) == ids - todo + {id};
        todo := todo - {id};
        tasks, next := tasks[next := Starting(id)], next + 1;
      }
      assert ids - todo == ids;
    }

    /** What a new process does with the tables of the last: each job still open gets a run task. */
    method Restore() returns (ghost resumed: map<nat, Task>)
      modifies this`handlers, this`tasks, this`senders, this`next, this`past
      ensures Resumes(old(Now()), resumed) && Now() == AfterRestart(old(Now()), resumed)
      ensures OneTaskEach(jobs, tasks) && handlers == map[] && senders == map[]
    {
      hide AllResumed, Resumes, OpenJobs, Underway, OneTaskEach;
      ghost var crashed := Now();
      handlers, tasks, senders := map[], map[], map[];
      SpawnAll(OpenJobs(jobs));
      resumed := tasks;
      AllResumedResumes(crashed, tasks);
      past := past.(spawned := multiset(OpenJobs(jobs)), prunedHere := multiset{}, faulted := false);
    }

    // ---- Every action of a run is what these methods do ----

    method Handle(n: nat, move: HandlerMove)
      requires CanHandle(Now(), n, move)
      modifies this
      ensures Now() == AfterHandling(old(Now()), n, move)
    {
      match move
      case LookUp(storeOk) => LookUp(n, storeOk);
      case Admit(reviveOk, admitted, storeOk) => Admit(n, reviveOk, admitted, storeOk);
      case Accept => Accept(n);
      case Spawn => SpawnJob(n);
      case AnswerRepeat => AnswerRepeat(n);
      case PutBack(storeOk) => PutBack(n, storeOk);
    }

    method Perform(t: nat, move: TaskMove)
      requires CanPerform(Now(), t, move)
      modifies this
      ensures Now() == AfterPerforming(old(Now()), t, move)
    {
      match move
      case Start(storeOk) => StartJob(t, storeOk);
      case TakeTurn(storeOk) => TakeTurn(t, storeOk);
      case Work(report) => EndWork(t, report);
      case Finish(now, storeOk) => FinishJob(t, now, storeOk);
    }

    method Transmit(m: nat, move: SenderMove)
      requires CanTransmit(Now(), m, move)
      modifies this
      ensures Now() == AfterTransmitting(old(Now()), m, move)
    {
      match move
      case Post(storeOk) => Post(m, storeOk);
      case Pick(storeOk) => Pick(m, storeOk);
      case Screen(storeOk, deleteOk) => Screen(m, storeOk, deleteOk);
      case Flush(flushed) => PassFlush(m, flushed);
      case Sign(docId) => Sign(m, docId);
      case Send => Send(m);
    }

    /** An answer of the VTC's is heard by its thread alone: the entry it belongs to is found. */
    method Hear(answer: Answer)
      requires DocIdsSound(outbox, past.docIds) && CanHear(Now(), answer)
      modifies this
      ensures Now() == AfterHearing(old(Now()), answer)
    {
      match answer
      case AckResult(id, storeOk) => OnResultAck(id, storeOk);
      case AckEvent(key, thread, storeOk) =>
        var cleared := ClearOutboxThread(thread, true, storeOk);
        assert cleared == Some(key);
      case RefuseDocument(code, entry, thread, faults) =>
        ghost var key := OnErrorResponse(code, thread, faults);
        assert code != OtherCode && faults.listOk ==> key == entry;
    }
  }

  /** Document `d` is noted on an entry, which keeps the ids of its last eight. */
  ghost predicate NotedOn(was: OutboxEntry, now: OutboxEntry, d: string) {
    && now == OutboxEntry(was.namespace, was.payload, now.docIds, was.attempts + 1)
    && now.docIds == if |was.docIds| < 8 then was.docIds + [d] else was.docIds[1..] + [d]
  }

  /** `now` is `jobs` without what can be pruned, but for those still to be looked at. */
  ghost predicate PrunedSave(jobs: map<string, JobRecord>, outbox: map<OutKey, OutboxEntry>, now: int,
                             left: map<string, JobRecord>, todo: set<string>) {
    && todo <= left.Keys <= jobs.Keys
    && (forall id :: id in jobs ==> (id in left <==> id in todo || !Prunable(jobs, outbox, id, now)))
    && (forall id :: id in left ==> left[id] == jobs[id])
  }

  lemma PrunesOne(jobs: map<string, JobRecord>, outbox: map<OutKey, OutboxEntry>, now: int, left: map<string,
                  JobRecord>,
                  todo: set<string>, id: string)
    requires PrunedSave(jobs, outbox, now, left, todo) && id in todo
    ensures id in left
    ensures PrunedSave(jobs, outbox, now, if Prunable(left, outbox, id, now) then left - {id} else left, todo - {id})
  {
  }

  /** One new run task for each of `ids`. */
  ghost predicate AllResumed(tasks: map<nat, Task>, ids: set<string>, next: nat) {
    && Underway(tasks) == ids
    && (forall t :: t in tasks ==> t < next && tasks[t].Starting?)
    && (forall t, u :: t in tasks && u in tasks && tasks[t].id == tasks[u].id ==> t == u)
  }

  lemma NoneResumed(next: nat)
    ensures AllResumed(map[], {}, next)
  {
  }

  lemma ResumesOneMore(tasks: map<nat, Task>, ids: set<string>, next: nat, id: string)
    requires AllResumed(tasks, ids, next) && id !in ids
    ensures AllResumed(tasks[next := Starting(id)], ids + {id}, next + 1) && next !in tasks
  {
    TaskAdded(tasks, next, Starting(id));
    forall t | t in tasks ensures tasks[t].id != id {
      assert tasks[t].id in Underway(tasks);
    }
    hide Underway;
  }

  lemma AllResumedResumes(s: State, tasks: map<nat, Task>)
    requires AllResumed(tasks, OpenJobs(s.jobs), s.next + |tasks|)
    ensures Resumes(s, tasks) && OneTaskEach(s.jobs, tasks)
  {
    forall t | t in tasks ensures tasks[t].id in OpenJobs(s.jobs) {
      assert tasks[t].id in Underway(tasks);
    }
    forall id | id in OpenJobs(s.jobs) ensures exists t :: t in tasks && tasks[t].id == id {
      assert id in Underway(tasks);
    }
    hide Underway;
    ResumesMeans(s, tasks);
  }

  /** Each unfinished job, and no other, has a run task that starts, and only one. */
  ghost predicate OneTaskEach(jobs: map<string, JobRecord>, tasks: map<nat, Task>) {
    && (forall t :: t in tasks ==> tasks[t].Starting? && tasks[t].id in jobs && jobs[tasks[t].id].state != Finished)
    && (forall t, u :: t in tasks && u in tasks && tasks[t].id == tasks[u].id ==> t == u)
    && (forall id :: id in jobs && jobs[id].state != Finished ==> exists t :: t in tasks && tasks[t].id == id)
  }

  lemma ResumesMeans(s: State, tasks: map<nat, Task>)
    requires Resumes(s, tasks)
    ensures OneTaskEach(s.jobs, tasks)
  {
    forall id | id in s.jobs && s.jobs[id].state != Finished ensures exists t :: t in tasks && tasks[t].id == id {
      assert id in OpenJobs(s.jobs);
    }
  }

  /** The mirror as a sending finds it: `pass` is the lease of the pass under way, if one is, which has `rest` still to
      write. */
  ghost predicate MirrorAwaits(mirror: MirrorTask.Mirror, pass: MirrorTask.Lease?, rest: set<Keys.Key>)
    reads mirror, mirror.store, mirror.remote, pass
  {
    && Mirroring.Valid(mirror.Now()) && (mirror.inFlight == 0 ==> mirror.batch == {})
    && (pass != null ==> pass.holder == mirror.holder && mirror.batch == rest)
  }

  /** A host in step, whose pass under way, if any, holds the live lease. */
  ghost predicate MirrorInStep(mirror: MirrorTask.Mirror, pass: MirrorTask.Lease?)
    reads mirror, mirror.store, mirror.remote, pass
  {
    Mirroring.InStep(mirror.Now()) && (pass != null ==> pass.Holds(mirror.Now()))
  }

  /** The remote holds what this host holds, but for what is too large for it. */
  ghost predicate EverythingWritten(v: Mirroring.View) {
    Mirroring.RemoteHolds(v.remote.records, v.local, v.key)
  }

  /** The mirror at each moment of a run, as `AwaitMirror` leaves it wherever a flush is passed: of a host in step, with
      nothing pending. */
  ghost predicate MirrorsRun(actions: seq<Action>, views: seq<Mirroring.View>) {
    |views| == |actions| + 1
    && forall k :: 0 <= k < |actions| && actions[k].Transmit? && actions[k].sending == Flush(true) ==>
         Mirroring.Valid(views[k]) && Mirroring.InStep(views[k]) && |views[k].dirty| + views[k].inFlight == 0
  }

  /** MAIN RESULT. State before report, of the remote itself: between the start of a document's sending and its going
      out there is a moment at which the remote held everything this host did, but for what is too large for it, with
      every mirrored change made before the sending began among that. */
  lemma ReportsFollowTheRemote(states: seq<State>, actions: seq<Action>, views: seq<Mirroring.View>, i: nat, j: nat,
                               m: nat, storeOk: bool) returns (k: nat)
    requires Run(states, actions) && states[0] == Initial() && MirrorsRun(actions, views) && i < j < |actions|
    requires actions[i] == Transmit(m, SenderMove.Pick(storeOk)) && actions[j] == Transmit(m, SenderMove.Send)
    ensures i < k < j && ChangesAmong(actions[..i]) <= states[k].settled == ChangesAmong(actions[..k])
    ensures EverythingWritten(views[k])
  {
    hide Step, Enabled, Mirroring.Valid, Mirroring.InStep;
    k := StateBeforeReport(states, actions, i, j, m, storeOk);
    Mirroring.NothingOwed(views[k]);
  }

  lemma CountsAdvance(s: State, flushed: bool)
    requires Valid(s)
    ensures var t := s.(settled := if flushed then s.changes else s.settled); Valid(t) && Later(s, t)
  {
    hide Valid, Later;
    if flushed {
      AllSettled(s);
      StepStays(s, WriteBack(s.changes));
      StepIsLater(s, WriteBack(s.changes));
    } else {
      LaterThanItself(s);
    }
  }

  lemma AllSettled(s: State)
    requires Valid(s)
    ensures AfterWriteBack(s, s.changes) == s.(settled := s.changes)
  {
    assert SendersSound(s.senders, s.past.recorded, s.changes, s.settled);
  }
}
