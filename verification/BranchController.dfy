/** The branch controller: one reconcile against the children and the custom resources. */
module BranchController {
  import opened Wrappers
  import opened Values
  import opened Names
  import opened Status
  import Conditions
  import Readiness
  import opened Children
  import opened Plans
  import opened ComputeObjects
  import opened BranchReconcile
  import opened Identifiers
  import opened Controllers
  import opened Assignment
  import StatusStore
  import PatchStatus

  /** Everything a reconcile meets besides the two stores. */
  datatype Environment = Environment(
    getFails: bool,
    id: IDCall,
    project: Read<Project>,
    reply: Reply,
    timelineText: string,
    needs: Needs,
    faults: nat -> Faults,
    text: Children.Error -> string,
    compute: Sight<Readiness.Deployment>,
    call: StatusCall)

  function ComputeKey(b: Branch): Key {
    Key(ChildKind.Deployment, b.namespace, Name(ComputeDeployment(b.name)))
  }

  /** What the status closure captures. */
  function BranchSeen(s: Store, b: Branch, created: Option<Children.Error>, env: Environment): Inputs {
    BranchInputs(
      if TimelineAccepted(env.reply) then None else Some(env.timelineText),
      ErrorText(created, env.text),
      Seen(s, ComputeKey(b), env.compute))
  }

  /** The Deployment that decides the status is the one that was created. */
  lemma ComputeKeyIsThePlans(b: Branch, p: Project, needs: Needs)
    ensures ComputeKey(b) == DeploymentObject(b, p).key == BranchPlan(b, p, needs)[4].child.key
  {
  }

  class BranchReconciler {
    const children: Children.ApiServer
    const statuses: PatchStatus.ApiServer

    constructor (children: Children.ApiServer, statuses: PatchStatus.ApiServer)
      ensures this.children == children && this.statuses == statuses
    {
      this.children, this.statuses := children, statuses;
    }

    method EnsureTimeline(b: Branch, p: Project, reply: Reply) returns (ok: bool)
      modifies children
      ensures ok <==> TimelineAccepted(reply)
      ensures ok <==> reply.Answered? && reply.code in {200, 201, 409}
      ensures children.api == old(children.api).(trace := old(children.api).trace + [Posted(p.tenantID, b.timelineID, reply)])
    {
      children.Post(p.tenantID, b.timelineID, reply);
      if reply.NoConnection? {
        return false;
      }
      if reply.code != 200 && reply.code != 201 && reply.code != 409 {
        return false;
      }
      return true;
    }

    method UpdateStatus(key: StatusStore.Key, b: Branch, created: Option<Children.Error>, env: Environment) returns (written: PatchStatus.PatchResult)
      requires Ready(statuses.world, key, BranchKind) && Fair(env.call, key, BranchKind)
      modifies statuses
      ensures Told(statuses.world, key, written, BranchSeen(children.api.store, b, created, env))
      ensures statuses.world == AfterCall(old(statuses.world), key, env.call, written)
    {
      hide Told, AfterCall, Seen, ComputeKey;
      var compute := Observe(children, ComputeKey(b), env.compute);
      var timelineErr := if TimelineAccepted(env.reply) then None else Some(env.timelineText);
      written := WriteStatus(statuses, key, BranchKind, BranchInputs(timelineErr, ErrorText(created, env.text), compute), env.call);
    }

    /**
     How a reconcile ends that has an ID and a project: the timeline is posted, then and
     only then the children are created, then the status tells what happened.
     */
    ghost predicate Concluded(api: Api, world: StatusStore.World, key: StatusStore.Key, b: Branch, p: Project, env: Environment,
                              result: Result, created: Option<Children.Error>, written: PatchStatus.PatchResult)
      reads children, statuses
    {
      var posted := api.(trace := api.trace + [Posted(p.tenantID, b.timelineID, env.reply)]);
      var plan := BranchPlan(b, p, env.needs);
      var r := Pass(posted, plan, b.uid, env.faults, children.admit, 0);
      && (TimelineAccepted(env.reply) ==>
            && children.api == r.api && (created.None? <==> r.error.None?)
            && (created.None? && KeepsIntended(children.admit) ==> AllInPlace(children.api.store, plan)))
      && (!TimelineAccepted(env.reply) ==> children.api == posted && created.None?)
      && TraceSafe(children.api.trace, |api.trace|, p.tenantID, b.timelineID)
      && Told(statuses.world, key, written, BranchSeen(children.api.store, b, created, env))
      && statuses.world == AfterCall(world, key, env.call, written)
      && result == (if !Returned(written) then Failed
                    else if !TimelineAccepted(env.reply) then RequeueAfter(10)
                    else if created.Some? then Failed else Done)
    }

    /** The timeline, the children and the status, in this order. */
    method Conclude(key: StatusStore.Key, b: Branch, p: Project, env: Environment)
      returns (result: Result, created: Option<Children.Error>, written: PatchStatus.PatchResult)
      requires Ready(statuses.world, key, BranchKind) && Fair(env.call, key, BranchKind)
      modifies children, statuses
      ensures Concluded(old(children.api), old(statuses.world), key, b, p, env, result, created, written)
    {
      hide Told, AfterCall, Pass, BranchPlan, KeepsIntended, AllInPlace, BranchSeen, TraceSafe;
      ghost var start := children.api;
      var timelineOk := EnsureTimeline(b, p, env.reply);
      ghost var posted := children.api;
      created := None;
      if timelineOk {
        created := CreateBranchResources(children, b, p, env.needs, env.faults);
        if KeepsIntended(children.admit) {
          BranchPlanKeysAreDistinct(b, p, env.needs);
          InPlaceOnSuccess(posted, BranchPlan(b, p, env.needs), b.uid, env.faults, children.admit);
        }
        PassIsTraceSafe(start, b, p, env.needs, env.reply, env.faults, children.admit);
      } else {
        NoWritesAreTraceSafe(start, Posted(p.tenantID, b.timelineID, env.reply), p.tenantID, b.timelineID);
      }
      written := UpdateStatus(key, b, created, env);
      if !Returned(written) {
        return Failed, created, written;
      }
      if !timelineOk {
        return RequeueAfter(10), created, written;
      }
      if created.Some? {
        return Failed, created, written;
      }
      return Done, created, written;
    }

    /**
     One reconcile. f is the timeline ID as the machine in Identifiers sees it; the
     reconcile moves it to g as worker w, by one of that machine's steps after a fresh read.
     */
    method Reconcile(key: StatusStore.Key, spec: Object -> Branch, env: Environment, ghost f: Field, ghost w: nat)
      returns (result: Result, created: Option<Children.Error>, written: PatchStatus.PatchResult, ghost g: Field)
      requires Ready(statuses.world, key, BranchKind) && Fair(env.call, key, BranchKind) && |env.id.random| == 16
      requires Begins(statuses.world, key, f, w)
      modifies children, statuses
      ensures env.getFails || key !in old(statuses.world).objects ==>
                && result == (if env.getFails then Failed else Done)
                && children.api == old(children.api) && statuses.world == old(statuses.world) && g == f
      ensures !env.getFails && key in old(statuses.world).objects && old(statuses.world).objects[key].id == "" ==>
                && children.api == old(children.api)
                && statuses.world == AfterAssignment(old(statuses.world), key, env.id)
                && result == (if IDAccepted(old(statuses.world), key, env.id) then RequeueAfter(1) else Failed)
                && (IDAccepted(old(statuses.world), key, env.id) ==> IDStored(old(statuses.world), key, env.id, statuses.world))
                && Assigned(statuses.world, key, env.id, f, w, g, result == RequeueAfter(1))
      ensures !env.getFails && key in old(statuses.world).objects && old(statuses.world).objects[key].id != "" ==>
                var b := spec(old(statuses.world).objects[key]).(timelineID := old(statuses.world).objects[key].id);
                && (!env.project.Found? ==>
                      && result == Failed && children.api == old(children.api) && statuses.world == old(statuses.world)
                      && Took(f, w, [], Drop(w), g))
                && (env.project.Found? ==>
                      && Concluded(old(children.api), old(statuses.world), key, b, env.project.value, env, result, created, written)
                      && Took(f, w, [], Call(w), g) && g.calls == f.calls + [b.timelineID])
    {
      hide Concluded, Pass, AfterAssignment, Assigned, Mutate, GeneratedID;
      created, written, g := None, PatchStatus.GetError, f;
      if env.getFails {
        result := Failed;
        return;
      }
      if key !in statuses.world.objects {
        result := Done;
        return;
      }
      var o := statuses.world.objects[key];
      if o.id == "" {
        var ok;
        ok, g := AssignID(statuses, key, env.id, f, w);
        result := if ok then RequeueAfter(1) else Failed;
        return;
      }
      assert f.history + [] == f.history;
      if !env.project.Found? {
        g := Next(Next(f, Read(w, Latest(f))), Drop(w));
        result := Failed;
        return;
      }
      g := Next(Next(f, Read(w, Latest(f))), Call(w));
      result, created, written := Conclude(key, spec(o).(timelineID := o.id), env.project.value, env);
    }
  }

  /** The status of a concluded reconcile tells apart a refused timeline, failed children and a compute that is not up. */
  lemma BranchIsToldApart(w: StatusStore.World, key: StatusStore.Key, s: Store, b: Branch, created: Option<Children.Error>, env: Environment,
                          written: PatchStatus.PatchResult)
    requires Told(w, key, written, BranchSeen(s, b, created, env)) && Returned(written)
    ensures key in w.objects
    ensures var conds := w.objects[key].status.conditions;
            && (Is(conds, Conditions.TimelineCreated, Conditions.StatusFalse) <==> env.reply.NoConnection? || env.reply.code !in {200, 201, 409})
            && (env.reply.NoConnection? || env.reply.code !in {200, 201, 409} ==>
                  Says(conds, Conditions.TimelineCreated, Conditions.Message.Text(env.timelineText)))
            && (Because(conds, Conditions.ComputeReady, Conditions.ResourceCreateFailed) <==> created.Some?)
            && (created.Some? ==> Says(conds, Conditions.ComputeReady, Conditions.Message.Text(env.text(created.value))))
            && (Is(conds, Conditions.ComputeReady, Conditions.StatusUnknown) <==> created.None? && env.compute.fails)
            && (Is(conds, Conditions.Available, Conditions.StatusTrue) <==>
                  && env.reply.Answered? && env.reply.code in {200, 201, 409} && created.None?
                  && !env.compute.fails && Key(ChildKind.Deployment, b.namespace, Name(ComputeDeployment(b.name))) in s
                  && Readiness.DeploymentAvailable(env.compute.state.conditions))
  {
    hide Reflects, Name, Is, Says, Because;
    assert w.objects[key].kind == BranchKind by {
      FitsTheKind(w.objects[key], BranchSeen(s, b, created, env));
    }
    BranchStatusTells(w.objects[key], BranchSeen(s, b, created, env));
  }

  lemma NoWritesAreTraceSafe(api: Api, e: Event, tenant: string, timeline: string)
    requires e.Posted?
    ensures TraceSafe(api.trace + [e], |api.trace|, tenant, timeline)
  {
  }
}
