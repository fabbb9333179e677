/**
 * RegistryObject: the registry's authoritative map from scope id to metadata, the launch
 * recipe of each local scope, and which scope processes it has started.
 *
 * Process launch is abstract: `running` is the set of ids whose process this registry started
 * and has not dropped, and the ghost `spawnCount` counts the processes started so far. Whether
 * a launch succeeds, and what a remote registry answers, are parameters of `Locate`.
 */
module Registry {
  import opened Outcomes
  import opened ScopeMetadata

  /** The recipe for starting a scope process, with the fields the registry tests fill in. */
  datatype ScopeExecData = ScopeExecData(
    scopeId: string,
    scoperunnerPath: string,
    runtimeConfig: string,
    scopeConfig: string)

  /** Proxy to another registry that unknown ids are delegated to. */
  datatype MWRegistryProxy = MWRegistryProxy(identity: string, endpoint: string)

  class RegistryObject {
    var scopes: map<string, Metadata>
    var execDatas: map<string, ScopeExecData>
    var running: set<string>
    var remoteRegistry: Option<MWRegistryProxy>
    ghost var spawnCount: nat

    /** Every scope has its exec data, no id is empty, and only registered scopes run. */
    ghost predicate Valid()
      reads this
    {
      && execDatas.Keys == scopes.Keys
      && "" !in scopes
      && running <= scopes.Keys
    }

    constructor ()
      ensures Valid()
      ensures scopes == map[] && execDatas == map[] && running == {}
      ensures remoteRegistry == None && spawnCount == 0
    {
      scopes, execDatas, running, remoteRegistry := map[], map[], {}, None;
      spawnCount := 0;
    }

    /** get_metadata(): InvalidArgument for the empty id, NotFound carrying an unknown id. */
    function GetMetadata(id: string): (r: Result<Metadata>)
      reads this
      ensures r.Ok? <==> id != "" && id in scopes
      ensures id == "" ==> r.Err? && r.error.InvalidArgument?
      ensures id != "" && id !in scopes ==> r.Err? && r.error.NotFound? && r.error.name == id
    {
      if id == "" then
        Err(InvalidArgument("RegistryObject::get_metadata(): Cannot search for scope with empty id"))
      else if id !in scopes then
        Err(NotFound("RegistryObject::get_metadata(): no such scope", id))
      else
        Ok(scopes[id])
    }

    /** list(): a snapshot of the map; each listed entry is what get_metadata answers for its id. */
    function List(): (r: map<string, Metadata>)
      requires Valid()
      reads this
      ensures forall id :: id in r ==> GetMetadata(id) == Ok(r[id])
      ensures forall id :: id !in r ==> GetMetadata(id).Err?
    {
      scopes
    }

    /** is_scope_process_running(): only a registered scope can be running. */
    function IsScopeProcessRunning(id: string): (r: bool)
      requires Valid()
      reads this
      ensures r ==> GetMetadata(id).Ok?
    {
      id in running
    }

    /**
     * add_local_scope(id, metadata, exec_data): InvalidArgument for the empty id; false and no
     * change for an id already present; otherwise true, with the scope listed and not running.
     */
    method AddLocalScope(id: string, meta: Metadata, exec: ScopeExecData) returns (r: Result<bool>)
      requires Valid()
      modifies this
      ensures Valid()
      ensures id == "" ==> r == Err(InvalidArgument("RegistryObject::add_local_scope(): Cannot add scope with empty id"))
      ensures r != Ok(true) ==> unchanged(this)
      ensures id != "" && id in old(scopes) ==> r == Ok(false)
      ensures id != "" && id !in old(scopes) ==> r == Ok(true)
      ensures r == Ok(true) ==>
        && scopes == old(scopes)[id := meta]
        && execDatas == old(execDatas)[id := exec]
        && running == old(running) && remoteRegistry == old(remoteRegistry)
        && spawnCount == old(spawnCount)
        && |List()| == |old(List())| + 1
        && GetMetadata(id) == Ok(meta) && !IsScopeProcessRunning(id)
    {
      if id == "" {
        return Err(InvalidArgument("RegistryObject::add_local_scope(): Cannot add scope with empty id"));
      }
      if id in scopes {
        return Ok(false);
      }
      scopes := scopes[id := meta];
      execDatas := execDatas[id := exec];
      r := Ok(true);
    }

    /**
     * remove_local_scope(id): InvalidArgument for the empty id; false and no change for an
     * absent id; otherwise true, and the id is no longer listed, found or running.
     */
    method RemoveLocalScope(id: string) returns (r: Result<bool>)
      requires Valid()
      modifies this
      ensures Valid()
      ensures id == "" ==> r == Err(InvalidArgument("RegistryObject::remove_local_scope(): Cannot remove scope with empty id"))
      ensures r != Ok(true) ==> unchanged(this)
      ensures id != "" && id !in old(scopes) ==> r == Ok(false)
      ensures id != "" && id in old(scopes) ==> r == Ok(true)
      ensures r == Ok(true) ==>
        && scopes == old(scopes) - {id}
        && execDatas == old(execDatas) - {id}
        && running == old(running) - {id}
        && remoteRegistry == old(remoteRegistry) && spawnCount == old(spawnCount)
        && |List()| == |old(List())| - 1
        && GetMetadata(id).Err? && GetMetadata(id).error.NotFound?
    {
      if id == "" {
        return Err(InvalidArgument("RegistryObject::remove_local_scope(): Cannot remove scope with empty id"));
      }
      if id !in scopes {
        return Ok(false);
      }
      scopes := scopes - {id};
      execDatas := execDatas - {id};
      running := running - {id};
      r := Ok(true);
    }

    /** set_remote_registry(): unknown ids are delegated to this registry from now on. */
    method SetRemoteRegistry(p: MWRegistryProxy)
      modifies this
      ensures remoteRegistry == Some(p)
      ensures scopes == old(scopes) && execDatas == old(execDatas) && running == old(running)
      ensures spawnCount == old(spawnCount)
    {
      remoteRegistry := Some(p);
    }

    /**
     * locate(id): the proxy stored in the scope's metadata. A scope whose process is not
     * running is started first (`launched` says whether the start succeeded); a running one is
     * not started again. An unknown id is delegated to the remote registry when one is set
     * (whose answer is `remoteAnswer`), and is NotFound otherwise.
     */
    method Locate(id: string, launched: bool, remoteAnswer: Result<ScopeProxy>) returns (r: Result<ScopeProxy>)
      requires Valid()
      modifies this
      ensures Valid()
      ensures scopes == old(scopes) && execDatas == old(execDatas) && remoteRegistry == old(remoteRegistry)
      ensures id == "" ==> r.Err? && r.error.InvalidArgument?
      ensures id != "" && id !in scopes ==> r == (if remoteRegistry.Some? then remoteAnswer
                                                  else Err(NotFound("RegistryObject::locate(): no such scope", id)))
      ensures r.Ok? && id in scopes ==> scopes[id].proxy == Some(r.value) && id in running
      // A running scope is never started twice; a stopped one is started exactly once.
      ensures old(id in running) ==> spawnCount == old(spawnCount) && running == old(running)
      ensures id in scopes && scopes[id].proxy.Some? ==>
        if old(id in running) || launched then
          && r == Ok(scopes[id].proxy.value)
          && running == old(running) + {id}
          && spawnCount == old(spawnCount) + (if old(id in running) then 0 else 1)
        else
          r.Err? && r.error.RegistryError? && running == old(running) && spawnCount == old(spawnCount)
      ensures spawnCount <= old(spawnCount) + 1 && running - {id} == old(running) - {id}
    {
      if id == "" {
        return Err(InvalidArgument("RegistryObject::locate(): Cannot locate scope with empty id"));
      }
      if id !in scopes {
        if remoteRegistry.Some? {
          return remoteAnswer;
        }
        return Err(NotFound("RegistryObject::locate(): no such scope", id));
      }
      var proxy := scopes[id].proxy;
      if proxy.None? {
        return Err(NotFound("attribute not set", "proxy"));
      }
      if id !in running {
        if !launched {
          return Err(RegistryError("RegistryObject::locate(): cannot start scope " + id));
        }
        running := running + {id};
        spawnCount := spawnCount + 1;
      }
      r := Ok(proxy.value);
    }
  }

  /** Locating a running scope any number of times returns its proxy and starts no process. */
  method LocateRepeatedly(reg: RegistryObject, id: string, n: nat) returns (r: Result<ScopeProxy>)
    requires reg.Valid() && id in reg.running && reg.scopes[id].proxy.Some?
    modifies reg
    ensures reg.Valid() && reg.spawnCount == old(reg.spawnCount) && reg.running == old(reg.running)
    ensures reg.scopes == old(reg.scopes)
    ensures n > 0 ==> r == Ok(reg.scopes[id].proxy.value)
  {
    r := Err(NotFound("", id));
    var i := 0;
    while i < n
      invariant i <= n
      invariant reg.Valid() && reg.spawnCount == old(reg.spawnCount) && reg.running == old(reg.running)
      invariant reg.scopes == old(reg.scopes)
      invariant i > 0 ==> r == Ok(reg.scopes[id].proxy.value)
    {
      r := reg.Locate(id, true, Err(NotFound("", id)));
      i := i + 1;
    }
  }

  /** The set-up of the registry's locate test: a new registry to which scopes A and B are added. */
  method RegistryOfTwo(a: ScopeProxy, b: ScopeProxy, exec: ScopeExecData) returns (reg: RegistryObject)
    ensures fresh(reg) && reg.Valid() && reg.running == {} && reg.spawnCount == 0
    ensures "A" in reg.scopes && "B" in reg.scopes
    ensures reg.scopes["A"].proxy == Some(a) && reg.scopes["B"].proxy == Some(b)
  {
    reg := new RegistryObject();
    var metaA, metaB := Unset.(scopeName := "A", proxy := Some(a)), Unset.(scopeName := "B", proxy := Some(b));
    var added := reg.AddLocalScope("A", metaA, exec);
    assert reg.scopes == map["A" := metaA];
    added := reg.AddLocalScope("B", metaB, exec);
    assert reg.scopes == map["A" := metaA, "B" := metaB];
  }

  /**
   * The locate half of the registry's locate test, on a registry holding stopped scopes A and B:
   * each first locate starts one process and returns the scope's own proxy, and a thousand
   * further locates of B start nothing.
   */
  method LocateBoth(reg: RegistryObject, a: ScopeProxy, b: ScopeProxy)
    returns (pa: Result<ScopeProxy>, pb: Result<ScopeProxy>, again: Result<ScopeProxy>)
    requires reg.Valid() && reg.running == {} && reg.spawnCount == 0
    requires "A" in reg.scopes && "B" in reg.scopes
    requires reg.scopes["A"].proxy == Some(a) && reg.scopes["B"].proxy == Some(b)
    modifies reg
    ensures pa == Ok(a) && pb == Ok(b) && again == Ok(b)
    ensures reg.Valid() && reg.running == {"A", "B"} && reg.spawnCount == 2
  {
    pa := reg.Locate("A", true, Err(NotFound("", "")));
    assert reg.running == {"A"} && reg.spawnCount == 1;
    pb := reg.Locate("B", true, Err(NotFound("", "")));
    assert reg.running == {"A", "B"} && reg.spawnCount == 2;
    again := LocateRepeatedly(reg, "B", 1000);
  }
}
