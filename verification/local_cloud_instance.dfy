/**
 * What a cloud image sees of its instances. The instance classes themselves
 * (a restartable variant and a one-use variant) are not part of this model:
 * an instance is the value it reports (id, status, error, restartability),
 * and its `start` and `terminate` operations are recorded as calls.
 */
module LocalCloudInstances {
  import opened Wrappers

  /** Lifecycle states an instance can report; only `Stopped` matters to the image. */
  datatype InstanceStatus =
    | ScheduledToStart
    | Starting
    | Running
    | ScheduledToStop
    | Stopping
    | Stopped
    | Error

  /** The two instance classes an image can create. */
  datatype Variant = ReStartable | OneUse

  /** Data a caller passes to `start`; its parameters are opaque to the image. */
  type UserData = map<string, string>

  datatype Instance = Instance(
    instanceId: string,
    status: InstanceStatus,
    errorInfo: Option<string>,
    variant: Variant)
  {
    /** Restartability is fixed by the class the instance was created as. */
    predicate IsRestartable() {
      variant == ReStartable
    }

    /** Whether an image may start this instance again instead of creating a new one. */
    predicate CanBeRevived() {
      errorInfo == None && status == Stopped && IsRestartable()
    }
  }

  /** A call the image makes on one of its instances. */
  datatype Call = Start(instanceId: string, data: UserData) | Terminate(instanceId: string)

  /** How many times `log` asks instance `id` to terminate. */
  function Terminations(log: seq<Call>, id: string): (n: nat)
    ensures n <= |log|
    ensures n > 0 <==> Terminate(id) in log
  {
    if log == [] then 0
    else
      var last := log[|log| - 1];
      Terminations(log[..|log| - 1], id) + (if last == Terminate(id) then 1 else 0)
  }
}
