/** Classes RunningService and EmbassyRegistry: each method is the code between two suspensions,
    proved against the step of RegistryRuns it is.

    `model` is the protocol state the registry stands in; whether a lifecycle task is ready or has
    finished is known to the model only, and is passed in as the tasks report it. */
module Registry {
  import opened Domain
  import opened SessionTables
  import opened RegistryRuns
  import SetFacts

  class RunningService {
    ghost const id: nat
    const owner: Profile
    const service: Service
    var stopping: bool

    constructor (ghost id: nat, owner: Profile, service: Service)
      ensures this.id == id && this.owner == owner && this.service == service && !stopping
    {
      this.id, this.owner, this.service, stopping := id, owner, service, false;
    }

    /** What the record says, whatever its task does. */
    ghost predicate Says(r: Running)
      reads this
    {
      r.owner == owner && r.service == service && r.stopping == stopping
    }
  }

  class EmbassyRegistry {
    var services: map<string, RunningService>
    var closing: bool
    ghost var model: State
    ghost var objects: seq<RunningService>

    constructor ()
      ensures Valid() && model == INITIAL
    {
      services, closing, model, objects := map[], false, INITIAL, [];
    }

    ghost predicate Valid()
      reads this, objects
    {
      && closing == model.closing
      && |objects| == |model.records|
      && (forall i :: 0 <= i < |objects| ==> objects[i].id == i && objects[i].Says(model.records[i]))
      && services.Keys == model.services.Keys
      && (forall name :: name in services ==>
            model.services[name] < |objects| && services[name] == objects[model.services[name]])
    }

    method EnterStart(ghost w: nat, service: Service, owner: Profile) returns (verdict: Verdict, record: RunningService?)
      requires Valid()
      modifies this
      ensures Valid() && model == OnEnterStart(old(model), w, service, owner)
      ensures verdict == Admission(old(model).closing, Lookup(old(model), service.name), |old(model).services|, service, owner)
      ensures if verdict.Launch? then record in objects && record.id == |old(model).records| else record == null
    {
      assert |services| == |services.Keys| && |model.services| == |model.services.Keys|;
      record := null;
      if closing {
        verdict := Unavailable;
      } else if service.name in services {
        var existing := services[service.name];
        verdict := if existing.owner != owner || existing.service != service then NameInUse else AlreadyRunning;
      } else if |services| >= MAX_SERVICES {
        verdict := Capacity;
      } else {
        verdict := Launch;
        record := new RunningService(|objects|, owner, service);
        objects := objects + [record];
      }
      model := OnEnterStart(model, w, service, owner);
    }

    /** After the lifecycle task is ready, or has failed. */
    method Launched(ghost w: nat, record: RunningService, up: bool, allowed: bool)
      requires Valid() && record in objects && up == Readied(model, record.id).Up?
      modifies this, record
      ensures Valid() && model == OnLaunched(old(model), w, record.id, allowed)
    {
      if up && !closing && allowed {
        services := services[record.service.name := record];
      } else {
        record.stopping := true;
      }
      model := OnLaunched(model, w, record.id, allowed);
    }

    /** The record to wait for, told to stop; none for an unknown name or another owner's. */
    method EnterClose(ghost w: nat, name: string, owner: Profile) returns (record: RunningService?)
      requires Valid()
      modifies this, objects
      ensures Valid() && model == OnEnterClose(old(model), w, name, owner)
      ensures if record == null then WorkerOf(model, w).Gone?
              else record in objects && WorkerOf(model, w) == Closing(name, record.id)
    {
      record := null;
      if name in services && services[name].owner == owner {
        record := services[name];
        record.stopping := true;
      }
      model := OnEnterClose(model, w, name, owner);
    }

    method EndClose(ghost w: nat, name: string, record: RunningService)
      requires Valid() && record in objects
      modifies this
      ensures Valid() && model == OnEndClose(old(model), w, name, record.id)
    {
      if name in services && services[name] == record {
        services := services - {name};
      }
      model := OnEndClose(model, w, name, record.id);
    }

    method RequestCloseAll(ghost w: nat)
      requires Valid()
      modifies this
      ensures Valid() && model == RegistryRuns.Step(old(model), RegistryRuns.RequestCloseAll(w))
    {
      closing := true;
      model := RegistryRuns.Step(model, RegistryRuns.RequestCloseAll(w));
    }

    method TellAll()
      requires Valid()
      modifies objects
      ensures forall i :: 0 <= i < |objects| ==>
        objects[i].stopping == (model.records[i].stopping || i in model.services.Values)
    {
      var names := services.Keys;
      ghost var told: set<nat> := {};
      while names != {}
        invariant names <= services.Keys && told <= model.services.Values
        invariant forall name :: name in services && name !in names ==> model.services[name] in told
        invariant forall i :: 0 <= i < |objects| ==> objects[i].stopping == (model.records[i].stopping || i in told)
      {
        var name :| name in names;
        names := names - {name};
        services[name].stopping := true;
        told := told + {model.services[name]};
      }
    }

    /** Every listed record is told to stop before any of them is waited for. */
    method EnterCloseAll(ghost w: nat, ghost children: map<nat, string>)
      requires Valid()
      modifies this, objects
      ensures Valid() && model == OnEnterCloseAll(old(model), w, children)
    {
      TellAll();
      model := OnEnterCloseAll(model, w, children);
    }
  }
}
