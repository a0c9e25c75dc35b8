/** The project controller: assign the tenant ID, then attach the tenant. */
module ProjectController {
  import opened Wrappers
  import opened Hex
  import opened Status
  import opened Identifiers
  import opened Children
  import opened Controllers
  import opened Assignment
  import StatusStore
  import PatchStatus

  /** A location_config request, with the tenant it names and the answer it got. */
  datatype Put = Put(tenant: string, reply: Reply)

  /** Everything a reconcile meets besides the store. */
  datatype Environment = Environment(
    getFails: bool,
    id: IDCall,
    idText: string,
    reply: Reply,
    attachError: AttachError,
    call: StatusCall)

  predicate Attaches(reply: Reply) {
    reply.Answered? && 200 <= reply.code < 300
  }

  class ProjectReconciler {
    const statuses: PatchStatus.ApiServer
    var puts: seq<Put>

    constructor (statuses: PatchStatus.ApiServer)
      ensures this.statuses == statuses && puts == []
    {
      this.statuses, puts := statuses, [];
    }

    method EnsureTenantOnPageserver(tenant: string, reply: Reply) returns (ok: bool)
      modifies this
      ensures ok <==> Attaches(reply)
      ensures ok <==> reply.Answered? && reply.code >= 200 && reply.code < 300
      ensures puts == old(puts) + [Put(tenant, reply)]
    {
      puts := puts + [Put(tenant, reply)];
      if reply.NoConnection? {
        return false;
      }
      if reply.code < 200 || reply.code >= 300 {
        return false;
      }
      return true;
    }

    /**
     A reconcile either assigns an ID and calls nobody, telling in the status when that
     failed, or calls once with the assigned ID and tells the outcome. f is the tenant ID as the
     machine in Identifiers sees it, moved to g by one of that machine's steps.
     */
    method Reconcile(key: StatusStore.Key, env: Environment, ghost f: Field, ghost w: nat)
      returns (result: Result, written: PatchStatus.PatchResult, ghost g: Field)
      requires Ready(statuses.world, key, ProjectKind) && Fair(env.call, key, ProjectKind) && |env.id.random| == 16
      requires KindStable(env.id.before, key, ProjectKind) && KindStable(env.id.between, key, ProjectKind)
      requires Begins(statuses.world, key, f, w)
      modifies this, statuses
      ensures env.getFails || key !in old(statuses.world).objects ==>
                && result == (if env.getFails then Failed else Done)
                && statuses.world == old(statuses.world) && puts == old(puts) && g == f
      ensures !env.getFails && key in old(statuses.world).objects && old(statuses.world).objects[key].id == "" ==>
                var after := AfterAssignment(old(statuses.world), key, env.id);
                && puts == old(puts)
                && result == (if IDAccepted(old(statuses.world), key, env.id) then RequeueAfter(1) else Failed)
                && (IDAccepted(old(statuses.world), key, env.id) ==> IDStored(old(statuses.world), key, env.id, after))
                && Assigned(after, key, env.id, f, w, g, result == RequeueAfter(1))
                && (result == RequeueAfter(1) ==> statuses.world == after)
                && (result == Failed ==>
                      && statuses.world == AfterCall(after, key, env.call, written)
                      && Told(statuses.world, key, written, ProjectInputs(Some(env.idText), None)))
      ensures !env.getFails && key in old(statuses.world).objects && old(statuses.world).objects[key].id != "" ==>
                var tenant := old(statuses.world).objects[key].id;
                && puts == old(puts) + [Put(tenant, env.reply)]
                && Told(statuses.world, key, written, ProjectInputs(None, if Attaches(env.reply) then None else Some(env.attachError)))
                && statuses.world == AfterCall(old(statuses.world), key, env.call, written)
                && result == (if !Returned(written) then Failed else if Attaches(env.reply) then Done else RequeueAfter(10))
                && Took(f, w, [], Call(w), g) && g.calls == f.calls + [tenant]
    {
      hide Told, AfterCall, AfterAssignment, Assigned, Mutate, GeneratedID;
      written, g := PatchStatus.GetError, f;
      if env.getFails {
        result := Failed;
        return;
      }
      if key !in statuses.world.objects {
        result := Done;
        return;
      }
      var o := statuses.world.objects[key];
      if o.id == "" {
        var ok;
        ghost var start := statuses.world;
        ok, g := AssignID(statuses, key, env.id, f, w);
        if ok {
          result := RequeueAfter(1);
          return;
        }
        ReadyAfterAssignment(start, key, ProjectKind, env.id);
        written := WriteStatus(statuses, key, ProjectKind, ProjectInputs(Some(env.idText), None), env.call);
        result := Failed;
        return;
      }
      assert f.history + [] == f.history;
      g := Next(Next(f, Read(w, Latest(f))), Call(w));
      var attached := EnsureTenantOnPageserver(o.id, env.reply);
      var attachErr := if attached then None else Some(env.attachError);
      written := WriteStatus(statuses, key, ProjectKind, ProjectInputs(None, attachErr), env.call);
      if !Returned(written) {
        result := Failed;
        return;
      }
      result := if attached then Done else RequeueAfter(10);
    }
  }
}
