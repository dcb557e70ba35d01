# Local-cloud image: instance registry and reuse-or-create

This project models `LocalCloudImage` of the TeamCity local-cloud plugin. A cloud
image is a template from which build-agent instances are provisioned out of one
agent home directory. The image keeps a registry of its instances keyed by
instance id. When asked to start an instance, it revives a stopped, healthy,
restartable instance if there is one. Otherwise it creates a new instance under
a fresh id, registers it and starts it. It can forget one instance and can
dispose of all of them.

Files:
- `wrappers.dfy`: `Option`, for Java's nullable results.
- `id_generator.dfy`: the instance-id generator, a counter whose ids are decimal strings, with the proof that it never repeats an id.
- `local_cloud_instance.dfy`: what the image sees of an instance (id, status, error, class) and the log of `start`/`terminate` calls.
- `local_cloud_image.dfy`: the image class (registry map, call log, generator), its operations and their lemmas.

The image's `errorInfo`, `id`, `name`, `agentHomePath` and the reuse prefix are
`const` fields, so Dafny itself guarantees that no operation changes them after
construction (the Java fields are `final`).

## Model

| member | source | states |
|---|---|---|
| `LocalCloud.AgentHomeError` | src/jetbrains/buildServer/clouds/local/LocalCloudImage.java:43 | the error is absent exactly when the agent home is a directory; otherwise it is the path in double quotes followed by " is not a directory or does not exist." |
| `LocalCloud.AgentHomeErrorIdentifiesPath` | src/jetbrains/buildServer/clouds/local/LocalCloudImage.java:43 | two bad agent homes give the same error message only if they are the same path |
| `LocalCloud.LocalCloudImage.constructor` | src/jetbrains/buildServer/clouds/local/LocalCloudImage.java:37-44 | construction never fails: it stores id, name and path, records the agent-home error, and starts with an empty registry, an empty call log and a fresh id generator that has issued no ids |
| `LocalCloud.StartsWithIsPrefix` | src/jetbrains/buildServer/clouds/local/LocalCloudImage.java:100-102 | the prefix test used by the reuse policy holds exactly when the name is the prefix followed by some rest |
| `LocalCloud.LocalCloudImage.NewInstanceVariant` | src/jetbrains/buildServer/clouds/local/LocalCloudImage.java:93-102 | new instances are of the restartable class exactly when the image name is the reuse prefix followed by something, otherwise of the one-use class |
| `LocalCloud.LocalCloudImage.CreateInstance` | src/jetbrains/buildServer/clouds/local/LocalCloudImage.java:93-98 | a created instance carries the given id, has no error, and is restartable exactly when the image name starts with the reuse prefix |
| `LocalCloud.LocalCloudImage.GetInstances` | src/jetbrains/buildServer/clouds/local/LocalCloudImage.java:61-64 | the snapshot holds exactly the registered instances, each found under its own id, and has as many elements as the registry has keys |
| `LocalCloud.DistinctInstances` | src/jetbrains/buildServer/clouds/local/LocalCloudImage.java:33 | a registry keyed by each instance's own id never holds the same instance under two keys, so it has as many distinct instances as keys |
| `LocalCloud.LocalCloudImage.FindInstanceById` | src/jetbrains/buildServer/clouds/local/LocalCloudImage.java:66-69 | lookup is present exactly when the id is registered, returns that entry, and in a valid image the returned instance has the id asked for |
| `LocalCloud.ScanForReusable` | src/jetbrains/buildServer/clouds/local/LocalCloudImage.java:78-84 | the scan finds a registered instance that has no error, is STOPPED and is restartable, and finds none exactly when no such instance is registered |
| `LocalCloud.LocalCloudImage.StartNewInstance` | src/jetbrains/buildServer/clouds/local/LocalCloudImage.java:77-91 | the result is registered under its id and `start` is called on it exactly once; with a reusable instance present it returns one of them and leaves registry and generator unchanged; otherwise it adds exactly one new entry under an id never issued before and every old entry is kept; no key is ever removed; an image without the reuse prefix never revives an instance |
| `LocalCloud.OneUseImageStartsDistinctInstances` | src/jetbrains/buildServer/clouds/local/LocalCloudImage.java:77-102 | on any valid image whose name lacks the reuse prefix, two starts in a row with the same user data return two one-use instances with different ids |
| `LocalCloud.OneUseImageNeverReusesForgottenId` | src/jetbrains/buildServer/clouds/local/LocalCloudImage.java:77-106 | on any valid image whose name lacks the reuse prefix, if the first started instance is forgotten (a one-use instance that stopped) before the second start, the second instance still gets a different id |
| `LocalCloud.LocalCloudImage.ForgetInstance` | src/jetbrains/buildServer/clouds/local/LocalCloudImage.java:104-106 | only the key of the given instance is removed; every other lookup is unchanged; forgetting an unregistered instance changes nothing; no call is made on any instance |
| `LocalCloud.LocalCloudImage.Dispose` | src/jetbrains/buildServer/clouds/local/LocalCloudImage.java:108-113 | every instance registered at the start receives exactly one `terminate`, no other call is made, and afterwards the registry is empty and every lookup is absent |
| `LocalCloudInstances.Terminations` | src/jetbrains/buildServer/clouds/local/LocalCloudImage.java:109-111 | the count of `terminate` calls on an instance is bounded by the log length and is positive exactly when the log contains such a call |
| `IdGeneration.IdGenerator.Next` | src/jetbrains/buildServer/clouds/local/LocalCloudImage.java:86 | each id handed out differs from every id handed out before, and is added to the set of issued ids |
| `IdGeneration.DecimalInjective` | src/jetbrains/buildServer/clouds/local/LocalCloudImage.java:34 | stand-in for the unseen IdGenerator: different counter values give different ids, which is why the generator never repeats itself |
| `IdGeneration.Decimal` | src/jetbrains/buildServer/clouds/local/LocalCloudImage.java:34 | stand-in for the unseen IdGenerator: an id is a non-empty string of decimal digits, one character long exactly for counter values below ten |

## Left out

- Concurrency: `startNewInstance` is `synchronized` and the registry is a `ConcurrentHashMap`. The model is sequential, so mutual exclusion between callers is not verified.
- File system: whether the agent home path is a directory is a boolean constructor parameter. The `File` object is modelled by its path string.
- `IdGenerator` is not part of this model. It is modelled as a counter whose ids are decimal strings; only "never repeats an id" is relied on.
- The instance classes (`ReStartableInstance`, `OneUseLocalCloudInstance`) are not part of this model. An instance is the value it reports. A new instance is given the status `ScheduledToStart` and no error.
- `LocalCloudConstants.RESULTABLE_PREFIX` is not part of this model. The reuse prefix is a constructor parameter kept as a constant field.
- Effects of `start` and `terminate` inside an instance are not modelled. They are recorded as calls in the image's log. In particular a revived instance still reads STOPPED in the registry afterwards. So the property that two starts never revive the same instance is not stated, because it depends on `start` changing the instance's status.
- Exceptions thrown by `start` or `terminate` are not modelled: both calls are assumed to return normally. In the source nothing catches them, so (1) in `dispose` a `terminate` that throws ends the loop early, the remaining instances get no `terminate` and the registry is not cleared; (2) in the create branch of `startNewInstance` the new instance is registered before `start` is called, so if `start` throws the new entry stays registered and its id is used up. Disposal in the source is therefore not best-effort when `terminate` throws.
- Instances that forget themselves during `dispose` (a `terminate` calling back into `forgetInstance`) are not modelled, since callbacks from `terminate` are not modelled.
- `getInstances` returns an unmodifiable view in the source; the model returns a set snapshot of the registry's values.
- The getters `getId`, `getName`, `getAgentHomeDir` and `getErrorInfo` are the `const` fields themselves.
- Image id and name are not required to be non-empty, because the constructor does not check them.
- `LocalCloud.LocalCloudImage.StartNewInstance`: which reusable instance is revived is left unspecified, because the source scans in hash-map order.
