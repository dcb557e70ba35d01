/**
 * A local-cloud image: a registry of the instances provisioned from one agent
 * home directory, and the rule that decides whether a start request revives a
 * stopped instance or creates a new one.
 */
module LocalCloud {
  import opened Wrappers
  import opened IdGeneration
  import opened LocalCloudInstances

  /** The text that follows the quoted path in a bad-agent-home error. */
  const NotADirectory: string := " is not a directory or does not exist."

  /**
   * The error an image records at construction: none when the agent home is
   * a directory, otherwise the quoted path followed by `NotADirectory`.
   */
  function AgentHomeError(agentHomePath: string, isDirectory: bool): (r: Option<string>)
    ensures r.None? <==> isDirectory
    ensures r.Some? ==>
      && |r.value| == |agentHomePath| + 2 + |NotADirectory|
      && r.value[0] == '"'
      && r.value[1..|agentHomePath| + 1] == agentHomePath
      && r.value[|agentHomePath| + 1] == '"'
      && r.value[|agentHomePath| + 2..] == NotADirectory
  {
    if isDirectory then None else Some("\"" + agentHomePath + "\"" + NotADirectory)
  }

  /** Two bad agent homes report the same error only if they are the same path. */
  lemma AgentHomeErrorIdentifiesPath(p1: string, p2: string)
    requires AgentHomeError(p1, false) == AgentHomeError(p2, false)
    ensures p1 == p2
  {
  }

  predicate StartsWith(s: string, prefix: string) {
    |prefix| <= |s| && s[..|prefix|] == prefix
  }

  /** `StartsWith` holds exactly when `s` is `prefix` followed by something. */
  lemma StartsWithIsPrefix(s: string, prefix: string)
    ensures StartsWith(s, prefix) <==> exists rest :: s == prefix + rest
  {
    if StartsWith(s, prefix) {
      assert s == prefix + s[|prefix|..];
    }
  }

  /** Some registered instance may be started again. */
  predicate HasReusable(instances: map<string, Instance>) {
    exists k :: k in instances && instances[k].CanBeRevived()
  }

  /**
   * The scan at the top of `startNewInstance`: visits the registered instances
   * in an unspecified order and stops at the first reusable one.
   */
  method ScanForReusable(instances: map<string, Instance>) returns (found: Option<Instance>)
    ensures found.Some? ==> found.value in instances.Values && found.value.CanBeRevived()
    ensures found.None? <==> !HasReusable(instances)
  {
    var unvisited := instances.Values;
    while unvisited != {}
      invariant unvisited <= instances.Values
      invariant forall k :: k in instances && instances[k] !in unvisited ==> !instances[k].CanBeRevived()
      decreases unvisited
    {
      var instance :| instance in unvisited;
      if instance.CanBeRevived() {
        return Some(instance);
      }
      unvisited := unvisited - {instance};
    }
    return None;
  }

  /** A registry keyed by each instance's own id holds as many distinct instances as keys. */
  lemma {:induction false} DistinctInstances(instances: map<string, Instance>)
    requires forall k :: k in instances ==> instances[k].instanceId == k
    ensures |instances.Values| == |instances|
    decreases |instances|
  {
    if instances != map[] {
      var k :| k in instances;
      var rest := instances - {k};
      DistinctInstances(rest);
      forall v | v in instances.Values ensures v in rest.Values + {instances[k]} {
        var j :| j in instances && instances[j] == v;
        if j != k { assert rest[j] == v; }
      }
      forall v | v in rest.Values ensures v in instances.Values {
        var j :| j in rest && rest[j] == v;
        assert instances[j] == v;
      }
      assert instances.Values == rest.Values + {instances[k]};
      assert instances[k] !in rest.Values;
      assert |instances| == |rest| + 1;
    }
  }

  class LocalCloudImage {
    const id: string
    const name: string
    const agentHomePath: string
    /** The marker prefix that selects the restartable instance class. */
    const reusablePrefix: string
    /** Set once by the constructor; an image never recovers from a bad agent home. */
    const errorInfo: Option<string>
    const idGenerator: IdGenerator

    /** The instances of this image, keyed by instance id. */
    var instances: map<string, Instance>
    /** Every `start` and `terminate` this image has asked of its instances, in order. */
    var calls: seq<Call>

    /**
     * Each entry is keyed by its instance's own id, was created by this image
     * (so it has the image's variant), and its key came from the generator.
     */
    ghost predicate Valid()
      reads this, idGenerator
    {
      && (forall k :: k in instances ==>
            instances[k].instanceId == k && instances[k].variant == NewInstanceVariant())
      && instances.Keys <= idGenerator.Issued()
    }

    /**
     * A bad agent home does not make construction fail: it is recorded in
     * `errorInfo`. Whether the path is a directory is asked of the file system,
     * which is not modelled, so the answer is a parameter.
     */
    constructor (imageId: string, imageName: string, agentHomePath: string,
                 agentHomeIsDirectory: bool, reusablePrefix: string)
      ensures Valid() && fresh(idGenerator) && idGenerator.Issued() == {}
      ensures id == imageId && name == imageName && this.agentHomePath == agentHomePath
      ensures this.reusablePrefix == reusablePrefix
      ensures errorInfo == AgentHomeError(agentHomePath, agentHomeIsDirectory)
      ensures instances == map[] && calls == []
    {
      id := imageId;
      name := imageName;
      this.agentHomePath := agentHomePath;
      this.reusablePrefix := reusablePrefix;
      errorInfo := AgentHomeError(agentHomePath, agentHomeIsDirectory);
      idGenerator := new IdGenerator();
      instances := map[];
      calls := [];
    }

    /** The reuse policy is encoded in the image name. */
    predicate IsReusable() {
      StartsWith(name, reusablePrefix)
    }

    function NewInstanceVariant(): (v: Variant)
      ensures v == ReStartable <==> exists rest :: name == reusablePrefix + rest
    {
      StartsWithIsPrefix(name, reusablePrefix);
      if IsReusable() then ReStartable else OneUse
    }

    /** A new, not yet started instance with the given id. */
    function CreateInstance(instanceId: string): (instance: Instance)
      ensures instance.instanceId == instanceId && instance.errorInfo == None
      ensures instance.IsRestartable() <==> IsReusable()
    {
      Instance(instanceId, ScheduledToStart, None, NewInstanceVariant())
    }

    /** A read-only snapshot of the registered instances. */
    function GetInstances(): (r: set<Instance>)
      reads this, idGenerator
      requires Valid()
      ensures forall i :: i in r <==> i.instanceId in instances && instances[i.instanceId] == i
      ensures |r| == |instances|
    {
      DistinctInstances(instances);
      instances.Values
    }

    function FindInstanceById(instanceId: string): (r: Option<Instance>)
      reads this, idGenerator
      ensures r.Some? <==> instanceId in instances
      ensures r.Some? ==> r.value == instances[instanceId]
      ensures r.Some? && Valid() ==> r.value.instanceId == instanceId
    {
      if instanceId in instances then Some(instances[instanceId]) else None
    }

    /**
     * Starts a stopped, healthy, restartable instance if there is one;
     * otherwise registers a new instance under a fresh id and starts that.
     */
    method StartNewInstance(data: UserData) returns (instance: Instance)
      requires Valid()
      modifies this, idGenerator
      ensures Valid()
      ensures FindInstanceById(instance.instanceId) == Some(instance)
      ensures old(instances).Keys <= instances.Keys
      ensures calls == old(calls) + [Start(instance.instanceId, data)]
      ensures HasReusable(old(instances)) ==>
        && instance.CanBeRevived()
        && instance.instanceId in old(instances)
        && instances == old(instances)
        && idGenerator.count == old(idGenerator.count)
      ensures !HasReusable(old(instances)) ==>
        && instance == CreateInstance(instance.instanceId)
        && instance.instanceId !in old(idGenerator.Issued())
        && idGenerator.Issued() == old(idGenerator.Issued()) + {instance.instanceId}
        && instance.instanceId !in old(instances)
        && instances == old(instances)[instance.instanceId := instance]
        && |instances| == |old(instances)| + 1
      ensures !IsReusable() ==> instance.instanceId !in old(instances)
    {
      var found := ScanForReusable(instances);
      if found.Some? {
        instance := found.value;
        ghost var k :| k in instances && instances[k] == instance;
        calls := calls + [Start(instance.instanceId, data)];
        return;
      }
      var instanceId := idGenerator.Next();
      instance := CreateInstance(instanceId);
      instances := instances[instanceId := instance];
      calls := calls + [Start(instance.instanceId, data)];
    }

    /** Drops the entry of `instance`; the instance itself is left alone. */
    method ForgetInstance(instance: Instance)
      requires Valid()
      modifies this
      ensures Valid()
      ensures instances == old(instances) - {instance.instanceId}
      ensures instance.instanceId !in old(instances) ==> instances == old(instances)
      ensures FindInstanceById(instance.instanceId) == None
      ensures forall other :: other != instance.instanceId ==>
                FindInstanceById(other) == old(FindInstanceById(other))
      ensures calls == old(calls)
    {
      instances := instances - {instance.instanceId};
    }

    /** Asks every registered instance to terminate, then empties the registry. */
    method Dispose()
      requires Valid()
      modifies this
      ensures Valid()
      ensures instances == map[]
      ensures forall instanceId :: FindInstanceById(instanceId) == None
      ensures |calls| >= |old(calls)| && calls[..|old(calls)|] == old(calls)
      ensures forall j :: |old(calls)| <= j < |calls| ==> calls[j].Terminate?
      ensures forall instanceId :: Terminations(calls[|old(calls)|..], instanceId)
                == if instanceId in old(instances) then 1 else 0
    {
      var unvisited := instances.Keys;
      while unvisited != {}
        invariant unvisited <= instances.Keys && instances == old(instances)
        invariant |calls| >= |old(calls)| && calls[..|old(calls)|] == old(calls)
        invariant forall j :: |old(calls)| <= j < |calls| ==> calls[j].Terminate?
        invariant forall instanceId :: Terminations(calls[|old(calls)|..], instanceId)
                    == if instanceId in instances && instanceId !in unvisited then 1 else 0
        decreases unvisited
      {
        var k :| k in unvisited;
        ghost var before := calls[|old(calls)|..];
        calls := calls + [Terminate(instances[k].instanceId)];
        assert calls[|old(calls)|..] == before + [Terminate(k)];
        unvisited := unvisited - {k};
      }
      instances := map[];
    }
  }

  /**
   * An image whose name lacks the reuse marker never revives an instance:
   * two starts in a row yield two different one-use instances.
   */
  method OneUseImageStartsDistinctInstances(image: LocalCloudImage, data: UserData)
    returns (first: Instance, second: Instance)
    requires image.Valid() && !image.IsReusable()
    modifies image, image.idGenerator
    ensures first.instanceId != second.instanceId
    ensures !first.IsRestartable() && !second.IsRestartable()
  {
    first := image.StartNewInstance(data);
    second := image.StartNewInstance(data);
  }

  /**
   * The same holds when the first instance stops and forgets itself in
   * between: the second start does not get the first instance's id again.
   */
  method OneUseImageNeverReusesForgottenId(image: LocalCloudImage, data: UserData)
    returns (first: Instance, second: Instance)
    requires image.Valid() && !image.IsReusable()
    modifies image, image.idGenerator
    ensures first.instanceId != second.instanceId
    ensures !first.IsRestartable() && !second.IsRestartable()
  {
    first := image.StartNewInstance(data);
    image.ForgetInstance(first);
    second := image.StartNewInstance(data);
  }
}
