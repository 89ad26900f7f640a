/** When an agent's liveness stamps may fall. */
module Stamps {
  import opened HubTypes
  import opened HubSpec
  import Growth

  /** A check-in of `name` that is neither a replay nor refused. */
  predicate Readmits(h: Hub, call: Call, name: string)
    requires name in h.agents
  {
    && call.DoCheckIn? && call.name == name
    && OpKey(name, call.op) !in h.operations
    && !WorkspaceTaken(h, name, call.profile)
    && !Live(h.agents[name].status)
    && call.profile.fits
  }

  /** Neither stamp is lower than it was. */
  ghost predicate Kept(h: Hub, r: Hub, name: string)
    requires name in h.agents
  {
    && name in r.agents
    && r.agents[name].lastHeartbeat >= h.agents[name].lastHeartbeat
    && r.agents[name].lastSeen >= h.agents[name].lastSeen
  }

  /** However the clock moves, a heartbeat lowers neither stamp, and an accepted one raises both to at
      least the clock. */
  lemma HeartbeatIsMonotone(h: Hub, now: int, name: string, instance: Instance, current: Option<nat>,
                            addr: Option<string>, other: string)
    requires other in h.agents
    ensures var s := Heartbeat(h, now, name, instance, current, addr);
      && Kept(h, s.hub, other)
      && (s.response == Flag(true) ==>
            name in s.hub.agents && s.hub.agents[name].lastHeartbeat >= now && s.hub.agents[name].lastSeen >= now)
  {
  }

  /** An accepted check-in sets both stamps to the clock, whatever they were, and touches no other agent's. */
  lemma CheckInResets(h: Hub, now: int, name: string, profile: Profile, instance: Instance, op: string,
                      addr: Option<string>, other: string)
    requires other in h.agents
    ensures var r := CheckIn(h, now, name, profile, instance, op, addr).hub;
      && other in r.agents
      && if Readmits(h, DoCheckIn(name, profile, instance, op, addr), other)
         then r.agents[other].lastHeartbeat == now && r.agents[other].lastSeen == now
         else r.agents[other] == h.agents[other]
  {
  }

  /** No other call lowers a stamp. */
  lemma OthersKeep(h: Hub, now: int, call: Call, name: string)
    requires name in h.agents && !call.DoCheckIn?
    ensures Kept(h, Apply(h, now, call).hub, name)
  {
    if call.DoHeartbeat? {
      HeartbeatIsMonotone(h, now, call.name, call.instance, call.current, call.addr, name);
    } else if call.DoRelease? {
      ReleaseKeeps(h, call.name, name);
    } else {
      hide Apply;
      Growth.OneSteady(h, now, call, name);
    }
  }

  lemma ReleaseKeeps(h: Hub, n: string, name: string)
    requires name in h.agents
    ensures Kept(h, ReleaseAgent(h, n).hub, name)
  {
  }

  /** In any state, under any call at any clock reading, a stamp of an agent falls if and only if the agent
      is re-admitted by its own check-in while the clock shows less than the stamp. */
  lemma StampFallsIff(h: Hub, now: int, call: Call, name: string)
    requires name in h.agents
    ensures var r := Apply(h, now, call).hub;
      && name in r.agents
      && (r.agents[name].lastHeartbeat < h.agents[name].lastHeartbeat <==>
            Readmits(h, call, name) && now < h.agents[name].lastHeartbeat)
      && (r.agents[name].lastSeen < h.agents[name].lastSeen <==>
            Readmits(h, call, name) && now < h.agents[name].lastSeen)
  {
    hide CheckIn;
    match call
    case DoCheckIn(n, profile, instance, op, addr) => CheckInResets(h, now, n, profile, instance, op, addr, name);
    case _ => OthersKeep(h, now, call, name);
  }
}
