/** The client the Kode controller works through and the Kode object it mutates:
    api/v1alpha2/kode_types.go in its imperative form. */
module Client {
  import opened KodeTypes
  import opened Cluster
  import C = Conditions
  import H = Handlers

  /** The cluster behind the API. Before every call the others act as the script says. */
  class ApiClient {
    const g: Setting
    var world: World
    var calls: nat
    var log: seq<Status>

    ghost function State(): Sys
      reads this
    {
      Sys(world, calls, log)
    }

    constructor (g: Setting, y: Sys)
      ensures this.g == g && State() == y
    {
      this.g := g;
      world, calls, log := y.w, y.t, y.log;
    }

    /** One API call: whether it gets through. */
    method Call() returns (ok: bool)
      modifies this
      ensures State() == Enter(g, old(State())) && ok == Up(g, old(State()))
    {
      ok := g.script(calls).ok;
      world := Others(g, world, g.script(calls).acts, calls);
      calls := calls + 1;
    }

    method Put(c: Children, keys: set<Key>)
      modifies this
      ensures State() == PutChildren(old(State()), c, keys)
    {
      world := world.(children := c, owned := world.owned + keys);
    }
  }

  /** The controller's copy of a Kode. */
  class KodeObject {
    var spec: KodeSpec
    var generation: int
    var deleting: bool
    var finalizer: bool
    var status: Status

    function View(): Kode
      reads this
    {
      Kode(spec, generation, deleting, finalizer, status)
    }

    constructor (k: Kode)
      ensures View() == k
    {
      spec, generation, deleting, finalizer, status := k.spec, k.generation, k.deleting, k.finalizer, k.status;
    }

    method SetCondition(kind: ConditionType, value: ConditionStatus, reason: Reason, now: nat)
      modifies this
      ensures View() == old(View()).(status := Cluster.SetCondition(old(status), kind, value, reason, now))
    {
      var conditioned := new C.ConditionedStatus(status.conditions);
      conditioned.SetCondition(kind, value, reason, now);
      status := status.(conditions := conditioned.conditions);
    }

    method GetCondition(kind: ConditionType) returns (r: Option<Condition>)
      ensures r == C.Get(status.conditions, kind)
    {
      var conditioned := new C.ConditionedStatus(status.conditions);
      r := conditioned.GetCondition(kind);
    }

    method SetConditions(ready: ConditionStatus, why: Reason, available: ConditionStatus, whyAvailable: Reason,
                         progressing: ConditionStatus, whyProgressing: Reason, now: nat)
      modifies this
      ensures View() == H.Mark3(old(View()), ready, why, available, whyAvailable, progressing, whyProgressing, now)
    {
      SetCondition(Ready, ready, why, now);
      SetCondition(Available, available, whyAvailable, now);
      SetCondition(Progressing, progressing, whyProgressing, now);
    }

    /** UpdateStatus. The comparison with the latest phase comes after the assignment that makes the two
        equal, so LastError is never reset: the copy is left as it was. */
    method UpdateStatus(c: ApiClient) returns (err: Option<Err>)
      modifies this, c
      ensures View() == old(View())
      ensures Ack(c.State(), err) == Cluster.UpdateStatus(c.g, old(c.State()), status)
    {
      var ok := c.Call();
      if !ok {
        return Some(Refused);
      }
      if c.world.kode.None? {
        return None;
      }
      var latest := c.world.kode.value;
      latest := latest.(status := status);
      var reset := status.phase != latest.status.phase && latest.status.phase != Failed;
      status := if reset then status.(lastError := None, lastErrorTime := None) else status;
      c.world := c.world.(kode := Some(latest));
      c.log := c.log + [latest.status];
      return None;
    }

    method AddFinalizer(c: ApiClient) returns (err: Option<Err>)
      modifies c
      ensures Ack(c.State(), err) == Cluster.AddFinalizer(c.g, old(c.State()))
    {
      var ok := c.Call();
      if !ok {
        return Some(Refused);
      }
      if c.world.kode.None? {
        return None;
      }
      c.world := c.world.(kode := Some(c.world.kode.value.(finalizer := true)));
      return None;
    }

    method RemoveFinalizer(c: ApiClient) returns (err: Option<Err>)
      modifies c
      ensures Ack(c.State(), err) == Cluster.RemoveFinalizer(c.g, old(c.State()), spec)
    {
      var ok := c.Call();
      if !ok {
        return Some(Refused);
      }
      if c.world.kode.None? {
        return None;
      }
      var latest := c.world.kode.value.(finalizer := false);
      c.world := c.world.(kode := if latest.deleting then None else Some(latest), released := Some(spec));
      return None;
    }
  }
}
