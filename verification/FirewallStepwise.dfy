/** The single steps, taken one after the other, are the operations of the controller. */
module FirewallStepwise {
  import opened Prelude
  import opened Firewalls
  import opened FirewallRequests
  import opened FirewallControl
  import opened FirewallQueue
  import opened FirewallInterleaving

  lemma OneMore(c: Config, x: World, moves: seq<Move>, m: Move)
    ensures WorldRun(c, x, moves + [m]) == Step(c, WorldRun(c, x, moves), m)
  {
    assert (moves + [m])[..|moves|] == moves;
  }

  // ----- sync -----

  lemma SyncWriteStep(c: Config, y: World, fw: Option<Firewall>, api: Api)
    requires y.queue.syncer == HasRead(fw)
    ensures Step(c, y, Act(SyncWrites, api)) == y.(queue := y.queue.(cache := UpdateCache(y.queue.cache, fw), syncer := Wrote))
  {
  }

  lemma SyncAddStep(c: Config, y: World, api: Api)
    requires y.queue.syncer.Wrote?
    ensures Step(c, y, Act(SyncAdds, api)) == y.(queue := y.queue.(syncer := Resting, dirty := true))
  {
  }

  lemma SyncReadStep(c: Config, x: World, api: Api)
    requires x.queue.syncer.Resting? && Read(x.queue.cache, x.store, c.name, api).Ok?
    ensures Step(c, x, Act(SyncReads(None), api)) == x.(queue := x.queue.(syncer := HasRead(Read(x.queue.cache, x.store, c.name, api).value)))
  {
  }

  /** A sync whose read succeeds: its three steps leave what SyncResource leaves. */
  lemma SyncSteps(c: Config, x: World, api: Api)
    requires x.queue.syncer.Resting? && Read(x.queue.cache, x.store, c.name, api).Ok?
    ensures WorldRun(c, x, [Act(SyncReads(None), api), Act(SyncWrites, api), Act(SyncAdds, api)])
         == x.(queue := x.queue.(cache := Get(x.queue.cache, x.store, c.name, api).1, dirty := true))
  {
    var fw := Read(x.queue.cache, x.store, c.name, api).value;
    var read, write, add := Act(SyncReads(None), api), Act(SyncWrites, api), Act(SyncAdds, api);
    assert [] + [read] == [read] && [read] + [write] == [read, write] && [read, write] + [add] == [read, write, add];
    OneMore(c, x, [], read);
    SyncReadStep(c, x, api);
    OneMore(c, x, [read], write);
    SyncWriteStep(c, WorldRun(c, x, [read]), fw, api);
    OneMore(c, x, [read, write], add);
    SyncAddStep(c, WorldRun(c, x, [read, write]), api);
  }

  // ----- worker -----

  /** The steps of the worker. */
  predicate IsWork(m: Move) {
    && m.Act?
    && var e := m.event;
       e.Take? || e.ListServices? || e.UseCache? || e.ReadApi? || e.FillCache? || e.Compare? || e.CallSet? || e.WriteCache? || e.Report? || e.Done?
  }

  ghost predicate AllWork(moves: seq<Move>) {
    forall m :: m in moves ==> IsWork(m)
  }

  lemma TakeStep(c: Config, y: World, api: Api)
    requires y.queue.worker.Waiting? && y.queue.dirty && !y.queue.processing
    ensures Step(c, y, Act(Take, api)) == y.(queue := y.queue.(dirty := false, processing := true, worker := Took))
  {
  }

  lemma ListStep(c: Config, y: World, request: Result<FirewallRequest>, api: Api)
    requires y.queue.worker.Took? && IsRequest(y.queue.services, c.default, c.name, c.tags, request)
    ensures Step(c, y, Act(ListServices(request), api))
         == y.(queue := y.queue.(worker := if request.Ok? then Listed(request.value) else Finished(false)))
  {
  }

  lemma BeginSteps(c: Config, x: World, request: Result<FirewallRequest>, api: Api) returns (moves: seq<Move>)
    requires x.queue.worker.Waiting? && x.queue.dirty && !x.queue.processing && IsRequest(x.queue.services, c.default, c.name, c.tags, request)
    ensures AllWork(moves)
    ensures WorldRun(c, x, moves)
         == x.(queue := x.queue.(dirty := false, processing := true, worker := if request.Ok? then Listed(request.value) else Finished(false)))
  {
    var take, list := Act(Take, api), Act(ListServices(request), api);
    OneMore(c, x, [], take);
    TakeStep(c, x, api);
    assert [] + [take] == [take];
    OneMore(c, x, [take], list);
    ListStep(c, WorldRun(c, x, [take]), request, api);
    moves := [take] + [list];
  }

  /** Getting the firewall, from the cache or the API. */
  lemma FetchSteps(c: Config, x: World, start: seq<Move>, y: World, fr: FirewallRequest, api: Api) returns (moves: seq<Move>)
    requires WorldRun(c, x, start) == y && AllWork(start) && y.queue.worker == Listed(fr)
    ensures AllWork(moves)
    ensures var (fw, cache1) := GetPreferFromCache(y.queue.cache, y.store, c.name, api);
            WorldRun(c, x, moves) == y.(queue := y.queue.(cache := cache1, worker := if fw.Ok? then Fetched(fr, fw.value) else Finished(false)))
  {
    if y.queue.cache.isSet {
      OneMore(c, x, start, Act(UseCache, api));
      moves := start + [Act(UseCache, api)];
    } else {
      var r := Read(y.queue.cache, y.store, c.name, api);
      var read := Act(ReadApi(r), api);
      OneMore(c, x, start, read);
      moves := start + [read];
      if r.Ok? {
        OneMore(c, x, moves, Act(FillCache, api));
        moves := moves + [Act(FillCache, api)];
      }
    }
  }

  lemma WriteStep(c: Config, y: World, fr: FirewallRequest, current: Firewall, api: Api)
    requires y.queue.worker == Stored(fr, current)
    ensures Step(c, y, Act(WriteCache, api))
         == y.(queue := y.queue.(cache := UpdateCache(y.queue.cache, Some(current)), worker := Finished(true)))
  {
  }

  lemma CallStep(c: Config, y: World, api: Api)
    requires y.queue.worker.Differs?
    ensures Step(c, y, Act(CallSet(Err(Failure)), api)) == CallApi(c, y, api)
  {
  }

  lemma AnsweredSteps(c: Config, x: World, start: seq<Move>, y: World, api: Api) returns (moves: seq<Move>)
    requires WorldRun(c, x, start) == y && AllWork(start) && y.queue.worker.Differs? && Runs.Echoes(api)
    requires Answer(y.store, IdOf(y.queue.worker.fw), y.queue.worker.fr, api).Ok?
    ensures AllWork(moves)
    ensures var fr, fwID := y.queue.worker.fr, IdOf(y.queue.worker.fw);
            var store := Set(EMPTY_CACHE, y.store, fwID, fr, api).store;
            WorldRun(c, x, moves)
            == World(y.queue.(cache := UpdateCache(y.queue.cache, Some(Answer(y.store, fwID, fr, api).value)), worker := Finished(true)),
                     store, y.used + Runs.Ids(store))
  {
    var fr := y.queue.worker.fr;
    var current := Answer(y.store, IdOf(y.queue.worker.fw), fr, api).value;
    var call := Act(CallSet(Err(Failure)), api);
    OneMore(c, x, start, call);
    CallStep(c, y, api);
    CallShape(c, y, api);
    OneMore(c, x, start + [call], Act(WriteCache, api));
    WriteStep(c, CallApi(c, y, api), fr, current, api);
    moves := (start + [call]) + [Act(WriteCache, api)];
  }

  /** The Set call and the write of its answer are Set. */
  lemma SetSteps(c: Config, x: World, start: seq<Move>, y: World, api: Api) returns (moves: seq<Move>)
    requires WorldRun(c, x, start) == y && AllWork(start) && y.queue.worker.Differs? && Runs.Echoes(api) && Holds(c, y, EMPTY_CACHE)
    ensures AllWork(moves)
    ensures var r := Set(y.queue.cache, y.store, IdOf(y.queue.worker.fw), y.queue.worker.fr, api);
            WorldRun(c, x, moves) == World(y.queue.(cache := r.cache, worker := Finished(r.err.None?)), r.store, y.used + Runs.Ids(r.store))
  {
    var fr, fwID := y.queue.worker.fr, IdOf(y.queue.worker.fw);
    AnswerIsSet(y.queue.cache, y.store, fwID, fr, api);
    if Answer(y.store, fwID, fr, api).Ok? {
      moves := AnsweredSteps(c, x, start, y, api);
    } else {
      var call := Act(CallSet(Err(Failure)), api);
      OneMore(c, x, start, call);
      FailedShape(c, y, api);
      assert y.used + Runs.Ids(y.store) == y.used;
      moves := start + [call];
    }
  }

  /** Deciding and, if need be, setting. */
  lemma DecideSteps(c: Config, x: World, start: seq<Move>, y: World, fr: FirewallRequest, fw: Option<Firewall>, api: Api) returns (moves: seq<Move>)
    requires WorldRun(c, x, start) == y && AllWork(start) && y.queue.worker == Fetched(fr, fw) && Runs.Echoes(api) && Holds(c, y, EMPTY_CACHE)
    ensures AllWork(moves)
    ensures var r := Set(y.queue.cache, y.store, IdOf(fw), fr, api);
            WorldRun(c, x, moves) == if FirewallRequestEqual(fw, fr) then y.(queue := y.queue.(worker := Finished(true)))
                                     else World(y.queue.(cache := r.cache, worker := Finished(r.err.None?)), r.store, y.used + Runs.Ids(r.store))
  {
    OneMore(c, x, start, Act(Compare, api));
    moves := start + [Act(Compare, api)];
    if !FirewallRequestEqual(fw, fr) {
      moves := SetSteps(c, x, moves, y.(queue := y.queue.(worker := Differs(fr, fw))), api);
    }
  }

  lemma ReportStep(c: Config, y: World, api: Api)
    requires y.queue.worker.Finished?
    ensures Step(c, y, Act(Report, api))
         == y.(queue := y.queue.(delayed := y.queue.delayed || !y.queue.worker.ok, worker := Reported(y.queue.worker.ok)))
  {
  }

  lemma DoneStep(c: Config, y: World, api: Api)
    requires y.queue.worker.Reported?
    ensures Step(c, y, Act(Done, api)) == y.(queue := y.queue.(processing := false, worker := Waiting, processed := true))
  {
  }

  lemma FinishSteps(c: Config, x: World, start: seq<Move>, y: World, api: Api) returns (moves: seq<Move>)
    requires WorldRun(c, x, start) == y && AllWork(start) && y.queue.worker.Finished?
    ensures AllWork(moves)
    ensures WorldRun(c, x, moves)
         == y.(queue := y.queue.(delayed := y.queue.delayed || !y.queue.worker.ok, processing := false, worker := Waiting, processed := true))
  {
    var report := Act(Report, api);
    OneMore(c, x, start, report);
    ReportStep(c, y, api);
    OneMore(c, x, start + [report], Act(Done, api));
    DoneStep(c, Step(c, y, report), api);
    moves := (start + [report]) + [Act(Done, api)];
  }

  /** From the services listed to the outcome: what Reconcile does. */
  lemma ReconcileSteps(c: Config, x: World, start: seq<Move>, y: World, fr: FirewallRequest, api: Api) returns (moves: seq<Move>)
    requires WorldRun(c, x, start) == y && AllWork(start) && y.queue.worker == Listed(fr) && Runs.Echoes(api) && Holds(c, y, EMPTY_CACHE)
    ensures AllWork(moves)
    ensures var r := Reconcile(y.queue.cache, y.store, c.name, Ok(fr), api);
            WorldRun(c, x, moves)
            == World(y.queue.(cache := r.cache, worker := Finished(!r.outcome.Failed?)), r.store, y.used + Runs.Ids(r.store))
  {
    assert y.used + Runs.Ids(y.store) == y.used;
    moves := FetchSteps(c, x, start, y, fr, api);
    var z := WorldRun(c, x, moves);
    if z.queue.worker.Fetched? {
      moves := DecideSteps(c, x, moves, z, fr, z.queue.worker.fw, api);
    }
  }

  /** A queued key: some uninterrupted sequence of worker steps leaves exactly what
      ProcessNextItem leaves, in the cache, the cloud, the queue flags and everything else. */
  lemma WorkerSteps(c: Config, x: World, request: Result<FirewallRequest>, api: Api) returns (moves: seq<Move>)
    requires x.queue.worker.Waiting? && x.queue.dirty && !x.queue.processing && Runs.Echoes(api) && Holds(c, x, EMPTY_CACHE)
    requires IsRequest(x.queue.services, c.default, c.name, c.tags, request)
    ensures AllWork(moves)
    ensures var r := Reconcile(x.queue.cache, x.store, c.name, request, api);
            WorldRun(c, x, moves)
            == World(x.queue.(cache := r.cache, dirty := false, delayed := x.queue.delayed || r.outcome.Failed?, processed := true),
                     r.store, x.used + Runs.Ids(r.store))
  {
    assert x.used + Runs.Ids(x.store) == x.used;
    moves := BeginSteps(c, x, request, api);
    if request.Ok? {
      moves := ReconcileSteps(c, x, moves, WorldRun(c, x, moves), request.value, api);
    }
    moves := FinishSteps(c, x, moves, WorldRun(c, x, moves), api);
  }

  // ----- progress -----

  /** All pending events delivered. */
  lemma {:induction false} DeliverAll(c: Config, x: World, start: seq<Move>, y: World, api: Api) returns (moves: seq<Move>)
    requires WorldRun(c, x, start) == y
    ensures WorldRun(c, x, moves) == y.(queue := y.queue.(undelivered := 0, dirty := y.queue.dirty || y.queue.undelivered > 0))
    decreases y.queue.undelivered
  {
    moves := start;
    if y.queue.undelivered > 0 {
      OneMore(c, x, start, Act(Deliver, api));
      moves := DeliverAll(c, x, start + [Act(Deliver, api)], Step(c, y, Act(Deliver, api)), api);
    }
  }

  lemma FireTimer(c: Config, x: World, start: seq<Move>, y: World, api: Api) returns (moves: seq<Move>)
    requires WorldRun(c, x, start) == y
    ensures WorldRun(c, x, moves) == y.(queue := y.queue.(delayed := false, dirty := y.queue.dirty || y.queue.delayed))
  {
    OneMore(c, x, start, Act(TimerFires, api));
    moves := start + [Act(TimerFires, api)];
  }

  lemma WorkingReconcile(cache: Cache, store: seq<Firewall>, name: string, fr: FirewallRequest, api: Api)
    requires api.getWorks && api.listWorks && api.updateWorks && api.createWorks
    ensures !Reconcile(cache, store, name, Ok(fr), api).outcome.Failed?
  {
  }

  lemma {:induction false} RunTwice(c: Config, x: World, first: seq<Move>, second: seq<Move>)
    ensures WorldRun(c, x, first + second) == WorldRun(c, WorldRun(c, x, first), second)
  {
    if second == [] {
      assert first + second == first;
    } else {
      var n := |second| - 1;
      assert (first + second)[..|first + second| - 1] == first + second[..n];
      RunTwice(c, x, first, second[..n]);
    }
  }

  /** Progress: whenever worker and sync rest and anything is pending, an event, a timer or
      a queued key, delivering it all and processing one item with the API working leaves
      the queue quiet and the cloud as one reconcile for the current services leaves it. */
  lemma Settles(c: Config, x: World, fr: FirewallRequest, api: Api) returns (moves: seq<Move>)
    requires x.queue.worker.Waiting? && x.queue.syncer.Resting? && !x.queue.processing && Holds(c, x, EMPTY_CACHE)
    requires x.queue.dirty || x.queue.delayed || x.queue.undelivered > 0
    requires IsRequest(x.queue.services, c.default, c.name, c.tags, Ok(fr))
    requires Runs.Echoes(api) && api.getWorks && api.listWorks && api.updateWorks && api.createWorks
    ensures var y := WorldRun(c, x, moves); var r := Reconcile(x.queue.cache, x.store, c.name, Ok(fr), api);
            Quiet(y.queue) && y.queue.services == x.queue.services && y.queue.cache == r.cache && y.store == r.store
  {
    var events := DeliverAll(c, x, [], x, api);
    events := FireTimer(c, x, events, WorldRun(c, x, events), api);
    var y := WorldRun(c, x, events);
    var work := WorkerSteps(c, y, Ok(fr), api);
    RunTwice(c, x, events, work);
    WorkingReconcile(x.queue.cache, x.store, c.name, fr, api);
    moves := events + work;
  }
}
