/** What every operation on tasks and DAGs leaves on the disk when it is not interrupted:
    the record, and exactly the right entries of the two indexes. */
module IndexOutcomes {
  import opened Basics
  import opened IndexDiscipline

  /** A task is unfinished: not closed, abandoned or lost, or something is still recorded
      as under way; or it is closed with its integration pending, or a turn of it is queued.
      What cannot be read counts as yes. */
  predicate Unfinished(id: TaskId, t: Task, env: Environment) {
    || t.state == Queued || t.state == Active || t.state == Unclosed
    || t.intent != None || t.rollback != None || t.runner != None
    || (t.state == Closed && (env.integrating == None || id in env.integrating.value))
    || env.queued == None
    || exists turn :: turn in env.queued.value && Mentions(t, turn)
  }

  predicate Mentions(t: Task, turn: Turn) { turn in t.turns || t.intent == Some(turn) || t.rollback == Some(turn) }

  lemma {:induction false} UnfinishedIs(id: TaskId, t: Task, env: Environment)
    ensures Unfinished(id, t, env) <==> Keep(id, t, env)
  {
    if env.queued.Some? {
      forall turn | turn in env.queued.value
        ensures Refers(t, turn) <==> Mentions(t, turn)
      {
      }
    }
  }

  /** Some node is neither submitted nor blocked. */
  predicate StillOpen(d: Dag) { exists i :: 0 <= i < |d| && d[i] != Submitted && d[i] != Blocked }

  lemma {:induction false} OpenIs(d: Dag)
    ensures StillOpen(d) <==> !Quiescent(d)
  {
    if i :| 0 <= i < |d| && !Settled(d[i]) {
      assert d[i] != Submitted && d[i] != Blocked;
    }
    if i :| 0 <= i < |d| && d[i] != Submitted && d[i] != Blocked {
      assert !Settled(d[i]);
    }
  }

  function Entry<T>(index: set<T>, key: T, there: bool): set<T> { if there then index + {key} else index - {key} }

  // ---- Tasks -------------------------------------------------------------------------------

  /** A new record is stored, with its entry if it is unfinished; the same record again has
      its entry put right; another one is refused. */
  lemma {:induction false} CreateTaskLaw(d: Disk, id: TaskId, t: Task, env: Environment)
    ensures var after := Replay(d, Script(d, CreateTask(id, t), env));
      var added := if Unfinished(id, t, env) then d.active + {id} else d.active;
      after == if id !in d.tasks then d.(tasks := d.tasks[id := t], active := added)
               else if d.tasks[id] == t then d.(active := Entry(d.active, id, Unfinished(id, t, env)))
               else d
  {
    UnfinishedIs(id, t, env);
    if id !in d.tasks {
      if Keep(id, t, env) {
        assert [AddActive(id)] + [PutTask(id, t)] == [AddActive(id), PutTask(id, t)];
        TwoReplay(d, AddActive(id), PutTask(id, t));
      } else {
        assert [] + [PutTask(id, t)] == [PutTask(id, t)];
        OneReplay(d, PutTask(id, t));
      }
    } else {
      OneReplay(d, SyncActive(id, t, env)[0]);
    }
  }

  /** A record is replaced, and its entry is there exactly if it is now unfinished. One that
      is not as expected stays and keeps its entry. */
  lemma {:induction false} ReplaceTaskLaw(d: Disk, id: TaskId, t: Task, expected: Option<Task>, skipSame: bool,
      env: Environment)
    ensures var after := Replay(d, Script(d, ReplaceTask(id, t, expected, skipSame), env));
      after == if id !in d.tasks then d
               else if expected.Some? && expected.value != d.tasks[id]
               then d.(active := if Unfinished(id, d.tasks[id], env) then d.active + {id} else d.active)
               else d.(tasks := d.tasks[id := t], active := Entry(d.active, id, Unfinished(id, t, env)))
  {
    UnfinishedIs(id, t, env);
    if id in d.tasks {
      UnfinishedIs(id, d.tasks[id], env);
      OneReplay(d, AddActive(id));
      OneReplay(d, DropActive(id));
      TwoReplay(d, AddActive(id), PutTask(id, t));
      TwoReplay(d, PutTask(id, t), DropActive(id));
      assert t == d.tasks[id] ==> d.tasks[id := t] == d.tasks;
    }
  }

  /** The entries of the tasks on the page are put right, and no others; nothing is done
      while the queue cannot be read. */
  lemma {:induction false} RefreshLaw(d: Disk, page: seq<TaskId>, env: Environment)
    ensures var after := Replay(d, Script(d, Refresh(page), env));
      && after == d.(active := after.active)
      && (env.queued.None? ==> after == d)
      && (env.queued.Some? ==> forall id :: id in after.active <==>
          if id in page && id in d.tasks then Unfinished(id, d.tasks[id], env) else id in d.active)
  {
    if env.queued.Some? {
      RefreshFrom(d, d, page, env);
    }
  }

  lemma {:induction false} RefreshFrom(d: Disk, now: Disk, page: seq<TaskId>, env: Environment)
    requires now.tasks == d.tasks
    ensures var after := Replay(now, RefreshScript(d, page, env));
      && after == now.(active := after.active)
      && forall id :: id in after.active <==>
          if id in page && id in d.tasks then Unfinished(id, d.tasks[id], env) else id in now.active
    decreases |page|
  {
    if page != [] {
      var id := page[0];
      var script := RefreshScript(d, page, env);
      assert page == [id] + page[1..];
      if id in d.tasks {
        UnfinishedIs(id, d.tasks[id], env);
        assert script[1..] == RefreshScript(d, page[1..], env);
        RefreshFrom(d, Done(now, script[0]), page[1..], env);
      } else {
        assert script == RefreshScript(d, page[1..], env);
        RefreshFrom(d, now, page[1..], env);
      }
    }
  }

  // ---- DAGs --------------------------------------------------------------------------------

  lemma {:induction false} PersistLaw(d: Disk, r: RunId, dag: Dag)
    requires r in d.dags
    ensures Replay(d, Persist(r, d.dags[r], dag)) ==
      d.(dags := d.dags[r := dag], pending := Entry(d.pending, r, StillOpen(dag)))
  {
    OpenIs(dag);
    var sync := SyncPending(r, dag);
    if d.dags[r] == dag {
      assert [] + sync == sync && d.dags[r := dag] == d.dags;
      OneReplay(d, sync[0]);
    } else {
      assert [PutDag(r, dag)] + sync == [PutDag(r, dag), sync[0]];
      TwoReplay(d, PutDag(r, dag), sync[0]);
    }
  }

  /** The scheduling pass over the DAG of a run: the run is known, the record is what the pass
      has made of it, and it is pending exactly while a node is open. */
  lemma {:induction false} ClaimDagLaw(d: Disk, r: RunId, g: Gates, env: Environment)
    requires r in d.dags
    ensures var dag := Scan(d.dags[r], 0, g).0;
      Replay(d, Script(d, ClaimDag(r, g), env)) == d.(dags := d.dags[r := dag], runs := d.runs + {r},
          pending := Entry(d.pending, r, StillOpen(dag)))
  {
    var was := d.dags[r];
    var (dag, claim) := Scan(was, 0, g);
    var first, sync := if r in d.runs then [] else [PutRun(r)], SyncPending(r, was);
    OneReplay(d, PutRun(r));
    var d1 := Replay(d, first);
    assert d1 == d.(runs := d.runs + {r});
    OneReplay(d1, sync[0]);
    OpenIs(was);
    ReplayJoin(d, first, sync);
    var d2 := Replay(d, first + sync);
    if dag == was && claim.None? {
      assert first + sync + [] == first + sync && d.dags[r := dag] == d.dags;
    } else {
      ReplayJoin(d, first + sync, Persist(r, was, dag));
      PersistLaw(d2, r, dag);
    }
  }

  /** A node is recorded as submitted. */
  lemma {:induction false} SubmitNodeLaw(d: Disk, r: RunId, k: nat, env: Environment)
    requires r in d.dags && k < |d.dags[r]|
    ensures var dag := d.dags[r][k := Submitted];
      Replay(d, Script(d, SubmitNode(r, k), env)) == d.(dags := d.dags[r := dag], runs := d.runs + {r},
          pending := if d.dags[r][k] == Submitted then d.pending else Entry(d.pending, r, StillOpen(dag)))
  {
    var was, dag := d.dags[r], d.dags[r][k := Submitted];
    OneReplay(d, PutRun(r));
    if was[k] == Submitted {
      assert [PutRun(r)] + [] == [PutRun(r)] && dag == was && d.dags[r := dag] == d.dags;
    } else {
      ReplayJoin(d, [PutRun(r)], Persist(r, was, dag));
      PersistLaw(Done(d, PutRun(r)), r, dag);
    }
  }

  /** A new DAG is stored with its run, and is pending if a node is open; the same one again
      is known to its run; another one is refused. */
  lemma {:induction false} CreateDagLaw(d: Disk, r: RunId, dag: Dag, env: Environment)
    ensures var after := Replay(d, Script(d, CreateDag(r, dag), env));
      var pending := if StillOpen(dag) then d.pending + {r} else d.pending;
      after == if r !in d.dags then d.(dags := d.dags[r := dag], runs := d.runs + {r}, pending := pending)
               else if d.dags[r] == dag then d.(runs := d.runs + {r}, pending := pending)
               else d.(pending := pending)
  {
    OpenIs(dag);
    var first := if Quiescent(dag) then [] else [AddPending(r)];
    var rest := if r in d.dags then (if d.dags[r] == dag then [PutRun(r)] else []) else [PutDag(r, dag), PutRun(r)];
    ReplayJoin(d, first, rest);
    OneReplay(d, AddPending(r));
    var d1 := Replay(d, first);
    OneReplay(d1, PutRun(r));
    TwoReplay(d1, PutDag(r, dag), PutRun(r));
  }

  /** Binding a run puts its entry right. */
  lemma {:induction false} BindLaw(d: Disk, r: RunId, env: Environment)
    requires r in d.dags
    ensures Replay(d, Script(d, Bind(r), env)) == d.(pending := Entry(d.pending, r, StillOpen(d.dags[r])))
  {
    PersistLaw(d, r, d.dags[r]);
    assert d.dags[r := d.dags[r]] == d.dags;
  }
}
