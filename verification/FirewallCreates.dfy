/** Which creates do harm: a condition on the moment of the call, for all interleavings. */
module FirewallCreates {
  import opened Prelude
  import opened Firewalls
  import opened FirewallControl
  import opened FirewallQueue
  import opened FirewallInterleaving

  /** A create happens with no sync read pending, and while the cache still differs from
      what is created. */
  ghost predicate Clean(c: Config, x: World, m: Move) {
    m.Act? && m.event.CallSet? && x.queue.worker.Differs? && |CallApi(c, x, m.api).store| > |x.store| ==>
      !x.queue.syncer.HasRead? && !FirewallRequestEqual(x.queue.cache.firewall, x.queue.worker.fr)
  }

  ghost predicate AllClean(c: Config, x: World, moves: seq<Move>) {
    forall i :: 0 <= i < |moves| ==> Possible(c, WorldRun(c, x, moves[..i]), moves[i]) && Clean(c, WorldRun(c, x, moves[..i]), moves[i])
  }

  /** While an answer is yet to be written, the cache does not compare equal to it under
      another ID, and neither will a sync make it do so. */
  ghost predicate Behind(q: State) {
    q.worker.Stored? ==>
      && (q.cache.firewall.Some? && q.cache.firewall.value.id != q.worker.current.id ==> !FirewallsEqual(q.cache.firewall, Some(q.worker.current)))
      && (q.syncer.HasRead? && q.syncer.fw.Some? ==> q.syncer.fw.value.id == q.worker.current.id)
  }

  ghost predicate CleanInv(c: Config, x: World) {
    WorldInv(c, x) && Behind(x.queue) && (x.queue.syncer.HasRead? ==> Sound(c, x, x.queue.syncer.fw))
  }

  lemma CleanIsCareful(c: Config, x: World, m: Move)
    requires CleanInv(c, x)
    ensures Careful(c, x, m)
  {
    var q := x.queue;
    if q.syncer.HasRead? && !q.worker.Stored? {
      SoundPlausible(c, x, q.syncer.fw);
      if q.cache.isSet {
        assert q.cache == Cache(q.cache.firewall, true);
        SoundPlausible(c, x, q.cache.firewall);
      }
    }
    if q.worker.Stored? {
      SoundPlausible(c, x, Some(q.worker.current));
    }
  }

  lemma LocalKeepsBehind(c: Config, q: State, e: Event)
    requires Behind(q) && (IsLocal(e) || e.FillCache? || e.WriteCache?)
    ensures Behind(Next(c, q, e)) && (Next(c, q, e).syncer.HasRead? ==> Next(c, q, e).syncer == q.syncer)
  {
  }

  lemma SyncWriteKeepsBehind(c: Config, q: State)
    requires Behind(q)
    ensures Behind(Next(c, q, SyncWrites)) && !Next(c, q, SyncWrites).syncer.HasRead?
  {
  }

  /** Two true views that see a firewall see the same one. */
  lemma SameFirewall(c: Config, x: World, fw: Firewall, current: Firewall)
    requires Sound(c, x, Some(fw)) && Sound(c, x, Some(current)) && fw in x.store
    ensures fw.id == current.id
  {
    SoundPlausible(c, x, Some(fw));
    SoundPlausible(c, x, Some(current));
  }

  lemma ReadBehind(q: State, fw: Option<Firewall>)
    requires Behind(q) && (q.worker.Stored? && fw.Some? ==> fw.value.id == q.worker.current.id)
    ensures Behind(q.(syncer := HasRead(fw)))
  {
  }

  lemma SyncReadStep(c: Config, q: State, fw: Option<Firewall>)
    ensures Next(c, q, SyncReads(fw)) == if q.syncer.Resting? then q.(syncer := HasRead(fw)) else q
  {
  }

  lemma SyncReadKeepsBehind(c: Config, q: State, fw: Option<Firewall>)
    requires Behind(q) && (q.worker.Stored? && fw.Some? ==> fw.value.id == q.worker.current.id)
    ensures Behind(Next(c, q, SyncReads(fw)))
  {
    SyncReadStep(c, q, fw);
    ReadBehind(q, fw);
  }

  lemma ReadListed(cache: Cache, store: seq<Firewall>, name: string, api: Api)
    requires Read(cache, store, name, api).Ok?
    ensures var fw := Read(cache, store, name, api).value; fw.Some? ==> fw.value in store
  {
  }

  lemma SyncReadsClean(c: Config, x: World, api: Api, e: Event)
    requires CleanInv(c, x) && e.SyncReads?
    ensures CleanInv(c, Step(c, x, Act(e, api)))
  {
    ReadsKeepInv(c, x, e, api);
    var r := Read(x.queue.cache, x.store, c.name, api);
    if r.Ok? {
      ReadSound(c, x, x.queue.cache, api);
      ReadListed(x.queue.cache, x.store, c.name, api);
      if r.value.Some? && x.queue.worker.Stored? {
        SameFirewall(c, x, r.value.value, x.queue.worker.current);
      }
      SyncReadKeepsBehind(c, x.queue, r.value);
      SyncReadStep(c, x.queue, r.value);
    }
  }

  /** An update in place: the firewall that exists is the one the cache and a pending read
      point to. */
  lemma UpdatePoints(c: Config, x: World, fw: Option<Firewall>, other: Option<Firewall>)
    requires Sound(c, x, fw) && Sound(c, x, other) && fw.Some? && ById(x.store, fw.value.id).Some?
    ensures other.Some? && other.value.id == fw.value.id
  {
    assert ById(x.store, fw.value.id).value in x.store;
    SoundPlausible(c, x, other);
    SoundPlausible(c, x, fw);
  }

  lemma UpdateInPlace(x: World, fw: Option<Firewall>, fr: FirewallRequest, api: Api)
    requires Answer(x.store, IdOf(fw), fr, api).Ok? && |Set(EMPTY_CACHE, x.store, IdOf(fw), fr, api).store| <= |x.store|
    ensures fw.Some? && ById(x.store, fw.value.id).Some? && Answer(x.store, IdOf(fw), fr, api).value.id == fw.value.id
  {
  }

  lemma CallKeepsBehind(c: Config, x: World, api: Api)
    requires CleanInv(c, x) && Clean(c, x, Act(CallSet(Err(Failure)), api)) && x.queue.worker.Differs? && Runs.Echoes(api)
    requires Answer(x.store, IdOf(x.queue.worker.fw), x.queue.worker.fr, api).Ok?
    ensures Behind(CallApi(c, x, api).queue)
  {
    var q, fr, fw := x.queue, x.queue.worker.fr, x.queue.worker.fw;
    CallShape(c, x, api);
    var current := Answer(x.store, IdOf(fw), fr, api).value;
    if |CallApi(c, x, api).store| > |x.store| {
      Runs.EqualityOfFirewalls(q.cache.firewall, Some(current), fr);
    } else {
      UpdateInPlace(x, fw, fr, api);
      if q.cache.firewall.Some? {
        assert q.cache == Cache(q.cache.firewall, true);
        UpdatePoints(c, x, fw, q.cache.firewall);
      }
      if q.syncer.HasRead? {
        UpdatePoints(c, x, fw, q.syncer.fw);
      }
    }
  }

  lemma CallKeepsPending(c: Config, x: World, api: Api)
    requires CleanInv(c, x) && Clean(c, x, Act(CallSet(Err(Failure)), api)) && x.queue.worker.Differs? && Runs.Echoes(api)
    requires Answer(x.store, IdOf(x.queue.worker.fw), x.queue.worker.fr, api).Ok? && WorldInv(c, CallApi(c, x, api)) && x.queue.syncer.HasRead?
    ensures Sound(c, CallApi(c, x, api), x.queue.syncer.fw)
  {
    var y := CallApi(c, x, api);
    CallShape(c, x, api);
    UpdateInPlace(x, x.queue.worker.fw, x.queue.worker.fr, api);
    UpdatePoints(c, x, x.queue.worker.fw, x.queue.syncer.fw);
    SoundPlausible(c, y, Some(y.queue.worker.current));
    SoundIff(c, y, x.queue.syncer.fw);
  }

  lemma SucceedingCallClean(c: Config, x: World, api: Api)
    requires CleanInv(c, x) && Clean(c, x, Act(CallSet(Err(Failure)), api)) && x.queue.worker.Differs? && Runs.Echoes(api)
    requires Answer(x.store, IdOf(x.queue.worker.fw), x.queue.worker.fr, api).Ok? && WorldInv(c, CallApi(c, x, api))
    ensures CleanInv(c, CallApi(c, x, api))
  {
    var y := CallApi(c, x, api);
    CallKeepsBehind(c, x, api);
    assert y.queue.syncer == x.queue.syncer by {
      CallShape(c, x, api);
    }
    if x.queue.syncer.HasRead? {
      CallKeepsPending(c, x, api);
    }
  }

  lemma FailingCallClean(c: Config, x: World, api: Api)
    requires CleanInv(c, x) && x.queue.worker.Differs? && Runs.Echoes(api) && WorldInv(c, CallApi(c, x, api))
    requires Answer(x.store, IdOf(x.queue.worker.fw), x.queue.worker.fr, api).Err?
    ensures CleanInv(c, CallApi(c, x, api))
  {
    FailedShape(c, x, api);
  }

  lemma CallKeepsClean(c: Config, x: World, api: Api)
    requires CleanInv(c, x) && Clean(c, x, Act(CallSet(Err(Failure)), api)) && x.queue.worker.Differs?
    requires Runs.Echoes(api) && api.newID !in x.used && api.newID != ""
    ensures CleanInv(c, CallApi(c, x, api))
  {
    CallKeepsInv(c, x, api);
    if Answer(x.store, IdOf(x.queue.worker.fw), x.queue.worker.fr, api).Ok? {
      SucceedingCallClean(c, x, api);
    } else {
      FailingCallClean(c, x, api);
    }
  }

  lemma OtherKeepsClean(c: Config, x: World, m: Move)
    requires CleanInv(c, x) && Possible(c, x, m) && m.Act? && !m.event.CallSet? && !m.event.SyncReads?
    ensures CleanInv(c, Step(c, x, m))
  {
    CleanIsCareful(c, x, m);
    StepKeepsWorldInv(c, x, m);
    var e := m.event;
    if e.SyncWrites? {
      SyncWriteKeepsBehind(c, x.queue);
    } else if !e.ReadApi? {
      LocalKeepsBehind(c, x.queue, e);
    }
  }

  lemma StepKeepsClean(c: Config, x: World, m: Move)
    requires CleanInv(c, x) && Possible(c, x, m) && Clean(c, x, m)
    ensures Careful(c, x, m) && CleanInv(c, Step(c, x, m))
  {
    CleanIsCareful(c, x, m);
    match m
    case Outside(after) =>
      OutsideKeepsInv(c, x, after);
      if x.queue.syncer.HasRead? {
        OutsideKeepsSound(c, x, after, Cache(x.queue.syncer.fw, true));
      }
    case Restart(_) =>
      StepKeepsWorldInv(c, x, m);
    case Act(e, api) =>
      if e.SyncReads? {
        SyncReadsClean(c, x, api, e);
      } else if !e.CallSet? {
        OtherKeepsClean(c, x, m);
      } else if x.queue.worker.Differs? {
        CallKeepsClean(c, x, api);
      }
  }

  lemma FrontClean(c: Config, x: World, moves: seq<Move>, n: nat)
    requires n < |moves| && AllClean(c, x, moves)
    ensures AllClean(c, x, moves[..n])
    ensures Possible(c, WorldRun(c, x, moves[..n]), moves[n]) && Clean(c, WorldRun(c, x, moves[..n]), moves[n])
  {
    forall i | 0 <= i < n
      ensures Possible(c, WorldRun(c, x, moves[..n][..i]), moves[..n][i]) && Clean(c, WorldRun(c, x, moves[..n][..i]), moves[..n][i])
    {
      assert moves[..n][..i] == moves[..i];
    }
  }

  lemma {:induction false} RunKeepsClean(c: Config, x: World, moves: seq<Move>)
    requires CleanInv(c, x) && AllClean(c, x, moves)
    ensures CleanInv(c, WorldRun(c, x, moves))
  {
    if moves != [] {
      var n := |moves| - 1;
      FrontClean(c, x, moves, n);
      RunKeepsClean(c, x, moves[..n]);
      StepKeepsClean(c, WorldRun(c, x, moves[..n]), moves[n]);
    }
  }

  /** In particular there are never two in any interleaving whose creates happen with no
      sync read pending and while the cache still differs from the request: everything else,
      updates, failures, restarts, outside edits and deletions at any moment, is harmless. */
  lemma NeverTwoWithCleanCreates(c: Config, x: World, moves: seq<Move>)
    requires Started(c, x) && AllClean(c, x, moves)
    ensures Runs.AtMostOne(WorldRun(c, x, moves).store, c.name)
  {
    RunKeepsClean(c, x, moves);
  }

  /** Both conditions on creates matter. The first is that of a stale read; as for the
      second: the worker decides to set `fr` over a firewall, an outsider edits it to just
      that, a sync caches the edit, the outsider deletes it, and the worker creates it anew.
      The cache compares equal and keeps the dead ID, so the next request is created too. */
  lemma KeptIdMakesTwo(name: string, was: Firewall, fr: FirewallRequest, later: FirewallRequest, api: Api, next: Api)
    requires was.name == name == fr.name == later.name && was.id != "" && !FirewallRequestEqual(Some(was), fr)
    requires !Equal(Some(OfRequest(fr)), Some(OfRequest(later)))
    requires Runs.Echoes(api) && Runs.Echoes(next) && |{was.id, api.newID, next.newID}| == 3
    requires api.getWorks && api.updateWorks && api.createWorks && next.updateWorks && next.createWorks
    ensures var edited := Rendered(was.id, api.echo(fr));
            var synced := Get(Cache(Some(was), true), [edited], name, api).1;
            var created := Set(synced, [], was.id, fr, api);
            var again := Reconcile(created.cache, created.store, name, Ok(later), next);
      && created.err.None? && created.cache.firewall == Some(edited) && |created.store| == 1
      && again.outcome == Applied && !Runs.AtMostOne(again.store, name)
  {
    var edited, made := Rendered(was.id, api.echo(fr)), Rendered(api.newID, api.echo(fr));
    Runs.RenderedEqual(was.id, fr, api);
    Runs.RenderedEqual(api.newID, fr, api);
    Runs.RenderedEqual(next.newID, later, next);
    Runs.EqualityOfFirewalls(Some(was), Some(edited), fr);
    Runs.EqualityOfFirewalls(Some(edited), Some(made), fr);
    Equivalence(Some(OfRequest(fr)), OfFirewall(Some(edited)), Some(OfRequest(later)));
    Equivalence(OfFirewall(Some(edited)), Some(OfRequest(fr)), Some(OfRequest(later)));
    var store := [made, Rendered(next.newID, next.echo(later))];
    assert [] + [made] == [made] && [made] + [store[1]] == store;
    assert store[0].name == name && store[1].name == name;
  }
}
