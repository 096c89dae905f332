/** The endpoint and server objects: relay/endpoints.py and relay/servers.py in place. */
module Runtimes {
  import opened QueueModel
  import QueueSteps
  import opened QueueInvariants
  import opened QueuePromotion
  import opened EndpointQueues
  import opened ServerModel
  import opened ServerRuns
  import opened ServerMemory
  import opened Stores

  class EndpointRuntime {
    const queue: EndpointQueue
    var activeForwards: int       // forwards the queue does not track

    constructor (queue: EndpointQueue)
      ensures this.queue == queue && activeForwards == 0
    {
      this.queue, activeForwards := queue, 0;
    }

    predicate Active()
      reads this, queue
    {
      queue.queue != [] || queue.spots != {} || activeForwards > 0
    }

    method BeginForward()
      modifies this
      ensures activeForwards == old(activeForwards) + 1
    {
      activeForwards := activeForwards + 1;
    }

    method FinishForward()
      modifies this
      ensures activeForwards == Max(0, old(activeForwards) - 1)
    {
      activeForwards := Max(0, activeForwards - 1);
    }

    /** A caller's way out of wait_for_slot when it was not promoted in its own view: an entry
        promoted in the same instant is released, any other is abandoned. */
    method GiveUp(entry: QueueEntry, now: real)
      requires queue.Valid() && (entry in queue.queue || entry in queue.running)
      modifies queue.Repr()
      ensures Wf(old(queue.View()))
      ensures if entry.View() in old(queue.View()).running
              then entry.session.key in old(queue.View()).sessions
                   && queue.View() == QueueModel.Release(old(queue.View()), entry.View(), now)
              else entry.View() in old(queue.View()).queue
                   && queue.View() == QueueModel.Abandon(old(queue.View()), entry.View())
      ensures queue.Valid()
    {
      hide Inv, QueueModel.Release, QueueModel.Abandon, Wf;
      InvWf(queue.View());
      queue.UniqueTicket(entry);
      if entry.done {
        queue.Release(entry, now);
      } else {
        assert entry.session in queue.Repr();
        queue.Abandon(entry);
      }
    }

    /** Steps 2 and 3 of the manager. probe: the outcome of the readiness check, if one is
        due. wake: whether the server's power-on is asked for. */
    method ManagerTick(now: real, probe: Option<bool>, power: Power) returns (wake: bool)
      requires queue.Valid()
      modifies queue.Repr()
      ensures Wf(old(queue.View())) && OrderOf(old(queue.View()))
      ensures queue.View() == QueuePromotion.ManagerTick(old(queue.View()), now, probe)
      ensures queue.Valid() && Settled(queue.View())
      ensures wake <==> power != On && !queue.ready && queue.queue != []
    {
      hide Inv, Wf, QueueModel.Tick, QueueModel.TryPromote, Settled, Eligible;
      InvWf(queue.View());
      InvOrder(queue.View());
      ManagerTickSettles(queue.View(), now, probe);
      wake := false;
      var released := queue.Tick(now);
      if |queue.queue| > 0 {
        InvWf(queue.View());
        if probe.Some? {
          queue.SetReady(probe.value);
        }
        wake := !queue.ready && (power == Off || power == Unknown);
        if queue.ready {
          queue.TryPromote();
        }
      }
    }
  }

  class ServerRuntime<R> {
    const cfg: ServerConfig
    const name: string
    const store: Store<R>
    var endpoints: seq<EndpointRuntime>
    var power: Power
    var owned: bool
    var override: Option<bool>
    var cycle: Option<nat>
    var lastActivity: real
    var lastPowerOnAttempt: real
    var lastFiredCron: Option<int>
    var deferred: bool

    constructor (cfg: ServerConfig, name: string, store: Store<R>, now: real)
      ensures View() == NewServer(cfg, now) && this.store == store && this.name == name && endpoints == []
    {
      this.cfg, this.name, this.store, endpoints := cfg, name, store, [];
      power, owned, override, cycle := Unknown, false, None, None;
      lastActivity, lastPowerOnAttempt, lastFiredCron, deferred := now, 0.0, None, false;
    }

    ghost function View(): ServerState
      reads this
    {
      ServerState(cfg, power, owned, override, cycle, lastActivity, lastPowerOnAttempt, lastFiredCron, deferred)
    }

    /** What a write of u leaves of the rows. */
    ghost function Persisted(rows: map<string, Row>, u: Update, w: Write): map<string, Row> {
      if u != NO_UPDATE && w == Stored && name in rows then rows[name := Updated(rows[name], u)] else rows
    }

    predicate EnabledNow()
      reads this
      ensures EnabledNow() == ShutdownEnabledNow(View()) == AutoOffOn(cfg, override)
    {
      if override.Some? then override.value else cfg.shutdownEnabled
    }

    ghost predicate AnyActive()
      reads this, endpoints, set e | e in endpoints :: e.queue
    {
      exists e :: e in endpoints && e.Active()
    }

    method HasActivity() returns (active: bool)
      ensures active == AnyActive()
    {
      active := false;
      for i := 0 to |endpoints|
        invariant active <==> exists j :: 0 <= j < i && endpoints[j].Active()
      {
        if endpoints[i].Active() {
          active := true;
        }
      }
    }

    method Restore(row: Row)
      modifies this
      ensures View() == Restored(old(View()), row) && endpoints == old(endpoints)
    {
      owned, override, cycle, power := row.owned, row.override, row.cycle, row.power;
    }

    method PowerOn(accepted: bool, freshCycle: nat, w: Write)
      modifies this, store
      ensures (View(), store.rows) ==
              (var e := ServerModel.PowerOn(old(View()), accepted, freshCycle); (e.0, Persisted(old(store.rows), e.1, w)))
      ensures accepted ==> owned && override == None && cycle == Some(freshCycle)
      ensures accepted && w == Stored && name in old(store.rows) ==>
                name in store.rows && store.rows[name] == old(store.rows)[name].(
                  owned := true, override := None, cycle := Some(freshCycle))
      ensures !accepted ==> View() == old(View()) && store.rows == old(store.rows)
      ensures endpoints == old(endpoints)
    {
      if accepted {
        owned, override, cycle := true, None, Some(freshCycle);
        store.SetServerRuntime(name, Update(None, Some(true), Some(None), Some(cycle)), w);
      }
    }

    method MaybePowerOn(now: real, accepted: bool, freshCycle: nat, w: Write) returns (issued: bool)
      modifies this, store
      ensures (View(), store.rows) ==
              (var e := ServerModel.MaybePowerOn(old(View()), now, accepted, freshCycle);
               (e.0, Persisted(old(store.rows), e.1, w)))
      ensures issued == (WakeDue(old(View()), now) && accepted)
      ensures endpoints == old(endpoints)
    {
      if now - lastPowerOnAttempt <= cfg.cooldown {
        return false;
      }
      lastPowerOnAttempt := now;
      PowerOn(accepted, freshCycle, w);
      return accepted;
    }

    method PowerOff(accepted: bool, w: Write)
      modifies this, store
      ensures (View(), store.rows) ==
              (var e := ServerModel.PowerOff(old(View()), accepted); (e.0, Persisted(old(store.rows), e.1, w)))
      ensures endpoints == old(endpoints)
    {
      if accepted {
        owned := false;
        store.SetServerRuntime(name, Update(None, Some(false), None, None), w);
      }
    }

    method OnRoutedTraffic(now: real, freshCycle: nat, w: Write)
      modifies this, store
      ensures (View(), store.rows) ==
              (var e := ServerModel.OnRoutedTraffic(old(View()), now, freshCycle);
               (e.0, Persisted(old(store.rows), e.1, w)))
      ensures endpoints == old(endpoints)
    {
      lastActivity := now;
      if cfg.adoptOnTraffic && !owned {
        owned := true;
        if cycle.None? {
          cycle := Some(freshCycle);
        }
        store.SetServerRuntime(name, Update(None, Some(true), None, Some(cycle)), w);
      }
    }

    /** note_service_ready and the power poll: a changed coarse state is persisted. */
    method NotePower(actual: Power, w: Write)
      modifies this, store
      ensures (View(), store.rows) ==
              (var e := ServerModel.NotePower(old(View()), actual); (e.0, Persisted(old(store.rows), e.1, w)))
      ensures endpoints == old(endpoints)
    {
      if actual == power {
        return;
      }
      power := actual;
      store.SetServerRuntime(name, Update(Some(actual), None, None, None), w);
    }

    method SyncState(actual: Power, w: Write)
      modifies this, store
      ensures (View(), store.rows) ==
              (var healthy := exists e :: e in old(endpoints) && old(e.queue.ready);
               var e := ServerModel.SyncState(old(View()), actual, healthy);
               (e.0, Persisted(old(store.rows), e.1, w)))
      ensures endpoints == old(endpoints)
    {
      var healthy := false;
      for i := 0 to |endpoints|
        invariant healthy <==> exists j :: 0 <= j < i && endpoints[j].queue.ready
      {
        if endpoints[i].queue.ready {
          healthy := true;
        }
      }
      var state := if healthy && actual != On then On else actual;
      power := state;
      store.SetServerRuntime(name, Update(Some(state), None, None, None), w);
    }

    method SetShutdownOverride(enabled: bool, w: Write)
      modifies this, store
      ensures (View(), store.rows) ==
              (var e := SetOverride(old(View()), enabled); (e.0, Persisted(old(store.rows), e.1, w)))
      ensures endpoints == old(endpoints)
    {
      override := Some(enabled);
      store.SetServerRuntime(name, Update(None, None, Some(override), None), w);
    }

    /** One cron pass; issued: whether the backend was asked to power off. */
    method ScheduleOffTick(wall: int, prevFire: int, actual: Power, accepted: bool, w: Write) returns (issued: bool)
      modifies this, store
      ensures (View(), store.rows) ==
              (var e := ScheduleOff(old(View()), wall, prevFire, old(AnyActive()), actual, accepted);
               (e.0, Persisted(old(store.rows), e.1, w)))
      ensures issued == ScheduleFires(old(View()), prevFire, old(AnyActive()), actual)
      ensures issued <==>
                cfg.scheduled && !old(AnyActive()) && Owed(old(CronOf(View())), prevFire)
                && old(owned) && AutoOffOn(cfg, old(override)) && actual == On
      ensures endpoints == old(endpoints)
    {
      issued := false;
      if !cfg.scheduled {
        return;
      }
      if lastFiredCron.None? {
        lastFiredCron := Some(wall);
        return;
      }
      var active := HasActivity();
      if prevFire <= lastFiredCron.value {
        if deferred && !active {
          if owned && EnabledNow() && actual == On {
            issued := true;
            PowerOff(accepted, w);
          }
          deferred := false;
        }
        return;
      }
      if active {
        deferred, lastFiredCron := true, Some(prevFire);
        return;
      }
      if owned && EnabledNow() && actual == On {
        issued := true;
        PowerOff(accepted, w);
      }
      lastFiredCron, deferred := Some(prevFire), false;
    }

    method IdleOffTick(now: real, actual: Power, accepted: bool, w: Write) returns (issued: bool)
      modifies this, store
      ensures (View(), store.rows) ==
              (var e := IdleOff(old(View()), now, old(AnyActive()), actual, accepted);
               (e.0, Persisted(old(store.rows), e.1, w)))
      ensures issued == IdleFires(old(View()), now, old(AnyActive()), actual)
      ensures issued <==>
                !old(AnyActive()) && actual == On && old(owned) && AutoOffOn(cfg, old(override))
                && now - old(lastActivity) > cfg.idleTimeout
      ensures endpoints == old(endpoints)
    {
      issued := false;
      var active := HasActivity();
      if active {
        lastActivity := now;
        return;
      }
      if !EnabledNow() || now - lastActivity <= cfg.idleTimeout {
        return;
      }
      if actual == On {
        if owned {
          issued := true;
          PowerOff(accepted, w);
        }
        lastActivity := now;
      }
    }
  }
}
