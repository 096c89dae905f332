/** The power-ownership and shutdown engine of relay/servers.py on values.

    The backend and the store answer through the arguments: whether an action was accepted,
    which power state was read, whether a write was stored. Each event is one step.
 */
module ServerModel {
  import opened QueueModel

  datatype Power = On | Off | Unknown

  datatype ServerConfig = ServerConfig(
    shutdownEnabled: bool,
    adoptOnTraffic: bool,
    idleTimeout: real,
    cooldown: real,
    scheduled: bool)

  datatype ServerState = ServerState(
    cfg: ServerConfig,
    power: Power,
    owned: bool,
    override: Option<bool>,
    cycle: Option<nat>,
    lastActivity: real,
    lastPowerOnAttempt: real,
    lastFiredCron: Option<int>,     // wall clock
    deferred: bool)

  /** A persisted server_runtime row. */
  datatype Row = Row(power: Power, owned: bool, override: Option<bool>, cycle: Option<nat>)

  /** The fields a call of set_server_runtime names. */
  datatype Update = Update(
    power: Option<Power>, owned: Option<bool>, override: Option<Option<bool>>, cycle: Option<Option<nat>>)

  const NO_UPDATE := Update(None, None, None, None)

  function Updated(row: Row, u: Update): Row {
    Row(if u.power.Some? then u.power.value else row.power,
        if u.owned.Some? then u.owned.value else row.owned,
        if u.override.Some? then u.override.value else row.override,
        if u.cycle.Some? then u.cycle.value else row.cycle)
  }

  function NewRow(): Row {
    Row(Unknown, false, None, None)
  }

  function RowOf(s: ServerState): Row {
    Row(s.power, s.owned, s.override, s.cycle)
  }

  function NewServer(cfg: ServerConfig, now: real): ServerState {
    ServerState(cfg, Unknown, false, None, None, now, 0.0, None, false)
  }

  function Restored(s: ServerState, row: Row): ServerState {
    s.(owned := row.owned, override := row.override, cycle := row.cycle, power := row.power)
  }

  predicate ShutdownEnabledNow(s: ServerState) {
    if s.override.Some? then s.override.value else s.cfg.shutdownEnabled
  }

  // ------------------------------------------------------------ power actions

  function PowerOn(s: ServerState, accepted: bool, cycle: nat): (ServerState, Update) {
    if accepted then
      (s.(owned := true, override := None, cycle := Some(cycle)),
       Update(None, Some(true), Some(None), Some(Some(cycle))))
    else (s, NO_UPDATE)
  }

  predicate WakeDue(s: ServerState, now: real) {
    now - s.lastPowerOnAttempt > s.cfg.cooldown
  }

  /** maybe_power_on, deduplicated by the cooldown. */
  function MaybePowerOn(s: ServerState, now: real, accepted: bool, cycle: nat): (ServerState, Update) {
    if WakeDue(s, now) then PowerOn(s.(lastPowerOnAttempt := now), accepted, cycle) else (s, NO_UPDATE)
  }

  function PowerOff(s: ServerState, accepted: bool): (ServerState, Update) {
    if accepted then (s.(owned := false), Update(None, Some(false), None, None)) else (s, NO_UPDATE)
  }

  predicate Adopts(s: ServerState) {
    s.cfg.adoptOnTraffic && !s.owned
  }

  function OnRoutedTraffic(s: ServerState, now: real, cycle: nat): (ServerState, Update) {
    var t := s.(lastActivity := now);
    if Adopts(s) then
      var c := if s.cycle.None? then Some(cycle) else s.cycle;
      (t.(owned := true, cycle := c), Update(None, Some(true), None, Some(c)))
    else (t, NO_UPDATE)
  }

  function NotePower(s: ServerState, power: Power): (ServerState, Update) {
    if power == s.power then (s, NO_UPDATE) else (s.(power := power), Update(Some(power), None, None, None))
  }

  /** The startup sync writes the power state even when it has not changed. */
  function SyncState(s: ServerState, actual: Power, healthy: bool): (ServerState, Update) {
    var power := if healthy then On else actual;
    (s.(power := power), Update(Some(power), None, None, None))
  }

  function SetOverride(s: ServerState, enabled: bool): (ServerState, Update) {
    (s.(override := Some(enabled)), Update(None, None, Some(Some(enabled)), None))
  }

  // ---------------------------------------------------------- shutdown engine

  predicate CanPowerOff(s: ServerState, actual: Power) {
    s.owned && ShutdownEnabledNow(s) && actual == On
  }

  /** Whether a cron pass issues the power-off; prevFire is the last fire before wall. */
  predicate ScheduleFires(s: ServerState, prevFire: int, active: bool, actual: Power) {
    && s.cfg.scheduled && s.lastFiredCron.Some?
    && !active
    && (prevFire > s.lastFiredCron.value || s.deferred)
    && CanPowerOff(s, actual)
  }

  function ScheduleOff(s: ServerState, wall: int, prevFire: int, active: bool, actual: Power, accepted: bool)
    : (ServerState, Update)
  {
    if !s.cfg.scheduled then (s, NO_UPDATE)
    else if s.lastFiredCron.None? then (s.(lastFiredCron := Some(wall)), NO_UPDATE)
    else if prevFire <= s.lastFiredCron.value then
      if s.deferred && !active then
        var off := if CanPowerOff(s, actual) then PowerOff(s, accepted) else (s, NO_UPDATE);
        (off.0.(deferred := false), off.1)
      else (s, NO_UPDATE)
    else if active then (s.(deferred := true, lastFiredCron := Some(prevFire)), NO_UPDATE)
    else
      var off := if CanPowerOff(s, actual) then PowerOff(s, accepted) else (s, NO_UPDATE);
      (off.0.(lastFiredCron := Some(prevFire), deferred := false), off.1)
  }

  predicate IdleExpired(s: ServerState, now: real, active: bool) {
    !active && ShutdownEnabledNow(s) && now - s.lastActivity > s.cfg.idleTimeout
  }

  predicate IdleFires(s: ServerState, now: real, active: bool, actual: Power) {
    IdleExpired(s, now, active) && actual == On && s.owned
  }

  function IdleOff(s: ServerState, now: real, active: bool, actual: Power, accepted: bool): (ServerState, Update) {
    if active then (s.(lastActivity := now), NO_UPDATE)
    else if !IdleExpired(s, now, active) || actual != On then (s, NO_UPDATE)
    else
      var off := if s.owned then PowerOff(s, accepted) else (s, NO_UPDATE);
      (off.0.(lastActivity := now), off.1)
  }
}
