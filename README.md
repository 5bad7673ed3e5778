# JNI bridge of the FedML Android client: callback registry and session lifecycle

This project models the native side of `NativeFedMLClientManager`, the JNI bridge
of the FedML Android SDK. It is a verified Dafny model of
`android/fedmlsdk/src/main/jni/JniFedMLClientManager.cpp`. The bridge holds one
process-wide table, `globalCallbackMap`, from a session handle to a JNI global
reference to a Java `TrainingCallback`. The handle is the address of a native
`FedMLClientManager`, passed as a `jlong`. The model covers three entry points
and the callbacks:

- `create` allocates a session.
- `init` pins three path strings and registers a new global reference for the
  callback under the handle. It then initialises the engine, reports progress
  0.01 through the table, and unpins the strings.
- `release` erases the handle's entry, deletes its reference, and deletes the
  session.
- Three callback lambdas each re-read the table with `operator[]` and call the
  observer.

The project has three modules:

- `JniRegistry` (`jni_registry.dfy`) works on values. It defines the `State`:
  - the table;
  - the live global references;
  - the live sessions;
  - the log of outward calls, which are engine `init` and `CallVoidMethod`;
  - the UTF-8 buffers the bridge holds.

  It also defines one transition function per entry point, the invariant
  `Valid`, and runs of entry points.
- `RegistryProperties` (`registry_properties.dfy`) proves properties of those
  transitions:
  - the invariant is kept along any run;
  - the table's response to release, re-init, late callbacks and unrelated
    handles;
  - the references `init` leaks, and the fact that nothing ever deletes them.
- `JniFedMLClientManager` (`jni_client_manager.dfy`) is the imperative form.
  Class `ClientManagerBridge` holds the table, references, sessions, log and
  buffers as fields. Each entry point is a method that performs the C++ steps in
  order. `Create`, `Release` and `Init` are proved to make exactly the
  `JniRegistry` transition of the same name. `Configure`, the part of `init`
  that runs while the strings are pinned, makes `JniRegistry.Init` as well.
  `OnProgress`, `OnAccuracy` and `OnLoss` each make `JniRegistry.Fire`.

The model keeps these behaviours of the code as they are:

- **Re-`init` leaks.** A second `init` on `h` overwrites the slot of `h`
  without deleting the reference it held (lines 68–71). That reference stays
  live, and nothing can reach it again. `InitLeaks`, `ReInitLeaksPreviousRef`
  and `LeaksArePermanent` state exactly which references leak and that they
  stay leaked.
- **Callbacks on a handle with no entry.** The lambdas look the handle up with
  `operator[]` (lines 83, 94 and 105). On a handle with no entry this inserts a
  null entry, and `CallVoidMethod` is then made on null. JNI leaves a call on a
  null `jobject` undefined, so this path is not a harmless no-op. `Fire` and
  `LateCallbackAfterRelease` state this.
- **Null entries on `release`.** `release` erases a null entry as well, and
  `DeleteGlobalRef` of null does nothing.
- **Reused addresses.** Handles are addresses (lines 22 and 45–46), and the
  allocator may hand a released address out again. Once `create` and `init`
  have reused it, a late callback of the old session reaches the new
  session's observer. `StaleCallbackAfterAddressReuse` states this.

`release`, like `init`, requires a live session. A second `release` of the
same handle would `delete` freed memory at line 46. That is undefined
behaviour, so the model does not admit it.

## Model

All source cells refer to `android/fedmlsdk/src/main/jni/JniFedMLClientManager.cpp`.

| member | source | states |
|---|---|---|
| JniRegistry.Subscript | android/fedmlsdk/src/main/jni/JniFedMLClientManager.cpp:83 | `operator[]` leaves every existing entry as it was, adds `h` to the keys, and returns the entry now stored under `h`. That entry is null when `h` had none. |
| JniRegistry.DeleteGlobalRef | android/fedmlsdk/src/main/jni/JniFedMLClientManager.cpp:41 | Deleting a global reference removes exactly that live reference. Deleting null changes nothing. Table, sessions, log and buffers are untouched. |
| JniRegistry.Create | android/fedmlsdk/src/main/jni/JniFedMLClientManager.cpp:19-23 | `create` adds exactly one new non-zero session. The table, the references, the log and the buffers are untouched. |
| JniRegistry.Fire | android/fedmlsdk/src/main/jni/JniFedMLClientManager.cpp:80-89 | A callback on a handle with an entry invokes the stored reference and leaves the table unchanged. On a handle without one it inserts a null entry and invokes null. References, sessions and buffers are unchanged either way. |
| JniRegistry.Init | android/fedmlsdk/src/main/jni/JniFedMLClientManager.cpp:54-123 | `init` stores the fresh reference `r` to the callback under `h`, overwriting any previous entry, and adds `r` to the live references. It appends engine-init and then exactly one 0.01 progress call to `r`, and nothing else. Sessions and held buffers are as before. |
| JniRegistry.Release | android/fedmlsdk/src/main/jni/JniFedMLClientManager.cpp:30-47 | `release` leaves `h` with no entry and not live. Every other entry and every other live reference stays. The one reference removed is the one `h` held, if any. With no entry, the table and references are unchanged. |
| RegistryProperties.InitialValid | android/fedmlsdk/src/main/jni/JniFedMLClientManager.cpp:11 | At process start the table is empty, so the invariant holds and nothing is leaked. |
| RegistryProperties.InitValid | android/fedmlsdk/src/main/jni/JniFedMLClientManager.cpp:68-71 | `init` keeps the invariant. Every stored reference is live and belongs to a live session, and no reference sits under two handles. |
| RegistryProperties.StepValid | android/fedmlsdk/src/main/jni/JniFedMLClientManager.cpp:19-123 | Every entry point keeps the invariant. |
| RegistryProperties.RunValid | android/fedmlsdk/src/main/jni/JniFedMLClientManager.cpp:19-123 | The invariant holds after any legal sequence of entry-point calls. |
| RegistryProperties.BuffersBalance | android/fedmlsdk/src/main/jni/JniFedMLClientManager.cpp:61-63 | After three fresh UTF-8 buffers are taken and each is given back once, the held buffers are exactly as before. |
| RegistryProperties.ReleaseRegistered | android/fedmlsdk/src/main/jni/JniFedMLClientManager.cpp:36-42 | `release` of a registered handle removes exactly its entry and deletes exactly its reference, which was live before. |
| RegistryProperties.CreateThenRelease | android/fedmlsdk/src/main/jni/JniFedMLClientManager.cpp:19-47 | `release` undoes `create`, except that it also erases a null entry a late callback left under a reused address. Such an entry can only be null. |
| RegistryProperties.LateCallbackAfterRelease | android/fedmlsdk/src/main/jni/JniFedMLClientManager.cpp:83-88 | The next callback after `release` does not reach the released observer. It puts a null entry back under the handle and is made on null. |
| RegistryProperties.StaleCallbackAfterAddressReuse | android/fedmlsdk/src/main/jni/JniFedMLClientManager.cpp:19-88 | After `release`, then `create` reusing the address, then `init`, a callback through that address invokes the new session's reference, which holds the new observer. |
| RegistryProperties.RegisteredAfterInit | android/fedmlsdk/src/main/jni/JniFedMLClientManager.cpp:71 | After the slot of `h` is overwritten, the table reaches the references it reached before, minus the one `h` held, plus `r`. |
| RegistryProperties.InitLeaks | android/fedmlsdk/src/main/jni/JniFedMLClientManager.cpp:68-71 | `init` leaks exactly the reference it overwrites, and the number of leaked references grows by that much. |
| RegistryProperties.ReInitLeaksPreviousRef | android/fedmlsdk/src/main/jni/JniFedMLClientManager.cpp:68-71 | A second `init` on a handle stores the new reference. The first reference stays live, still holds the first observer, and is leaked. |
| RegistryProperties.InitThenCallback | android/fedmlsdk/src/main/jni/JniFedMLClientManager.cpp:80-88 | The next callback after `init` invokes the reference just registered, and that reference holds the caller's observer. |
| RegistryProperties.SessionLifecycle | android/fedmlsdk/src/main/jni/JniFedMLClientManager.cpp:19-123 | For create, init, a loss callback, release and a late progress callback: the log holds exactly engine-init, progress 0.01 to `r`, the loss to `r`, and the late progress to null. The table ends as `{h: null}`, with no live references and no sessions. |
| RegistryProperties.StepLeaks | android/fedmlsdk/src/main/jni/JniFedMLClientManager.cpp:36-42 | Only `init` adds a leaked reference, namely the one it overwrites. No entry point removes one. |
| RegistryProperties.LeaksArePermanent | android/fedmlsdk/src/main/jni/JniFedMLClientManager.cpp:36-42 | A leaked reference stays leaked and live for the rest of any legal run. |
| RegistryProperties.LeakCountMonotone | android/fedmlsdk/src/main/jni/JniFedMLClientManager.cpp:36-42 | The number of leaked references never decreases along a run. |
| RegistryProperties.OtherHandleUntouched | android/fedmlsdk/src/main/jni/JniFedMLClientManager.cpp:71 | An entry point for one handle neither adds, removes nor changes the entry of any other handle. |
| RegistryProperties.EntryStable | android/fedmlsdk/src/main/jni/JniFedMLClientManager.cpp:83 | While nothing but callbacks concerns `h`, its entry stays the same, so every callback through `h` reaches the same reference. |
| JniFedMLClientManager.ClientManagerBridge.constructor | android/fedmlsdk/src/main/jni/JniFedMLClientManager.cpp:11 | The static table starts empty and nothing is allocated. |
| JniFedMLClientManager.ClientManagerBridge.Create | android/fedmlsdk/src/main/jni/JniFedMLClientManager.cpp:19-23 | Returns a non-zero handle that was not live and makes it live, exactly as `JniRegistry.Create`. Keeps the invariant. |
| JniFedMLClientManager.ClientManagerBridge.Release | android/fedmlsdk/src/main/jni/JniFedMLClientManager.cpp:30-47 | Performs exactly `JniRegistry.Release`. Afterwards `h` has no entry and is not live. Keeps the invariant. |
| JniFedMLClientManager.ClientManagerBridge.Init | android/fedmlsdk/src/main/jni/JniFedMLClientManager.cpp:54-123 | Performs exactly `JniRegistry.Init` for a reference `r` not live before. The entry of `h` is that reference to the callback, and the held buffers come back as before. Keeps the invariant. |
| JniFedMLClientManager.ClientManagerBridge.Configure | android/fedmlsdk/src/main/jni/JniFedMLClientManager.cpp:68-119 | While the strings are pinned, it performs the whole `JniRegistry.Init` transition. |
| JniFedMLClientManager.ClientManagerBridge.Register | android/fedmlsdk/src/main/jni/JniFedMLClientManager.cpp:68-73 | The new live reference, not live before, overwrites the slot of `h`. |
| JniFedMLClientManager.ClientManagerBridge.OnProgress | android/fedmlsdk/src/main/jni/JniFedMLClientManager.cpp:80-89 | Performs exactly `JniRegistry.Fire` with a progress notification. Keeps the invariant. |
| JniFedMLClientManager.ClientManagerBridge.OnAccuracy | android/fedmlsdk/src/main/jni/JniFedMLClientManager.cpp:91-100 | Performs exactly `JniRegistry.Fire` with an accuracy notification. Keeps the invariant. |
| JniFedMLClientManager.ClientManagerBridge.OnLoss | android/fedmlsdk/src/main/jni/JniFedMLClientManager.cpp:102-111 | Performs exactly `JniRegistry.Fire` with a loss notification. Keeps the invariant. |
| JniFedMLClientManager.ClientManagerBridge.Subscript | android/fedmlsdk/src/main/jni/JniFedMLClientManager.cpp:83 | Updates the table and returns a reference as `JniRegistry.Subscript` says. Keeps the invariant, since a null entry reaches no reference. |
| JniFedMLClientManager.ClientManagerBridge.CallVoidMethod | android/fedmlsdk/src/main/jni/JniFedMLClientManager.cpp:88 | Appends one invocation of the given reference, null included. |
| JniFedMLClientManager.ClientManagerBridge.NewGlobalRef | android/fedmlsdk/src/main/jni/JniFedMLClientManager.cpp:68 | Returns a non-null reference that was not live, now live and holding the object. |
| JniFedMLClientManager.ClientManagerBridge.DeleteGlobalRef | android/fedmlsdk/src/main/jni/JniFedMLClientManager.cpp:41 | Deletes a live reference. On null it does nothing. |
| JniFedMLClientManager.ClientManagerBridge.DeleteSession | android/fedmlsdk/src/main/jni/JniFedMLClientManager.cpp:45-46 | The live session `h` is no longer live. |
| JniFedMLClientManager.ClientManagerBridge.GetStringUtfChars | android/fedmlsdk/src/main/jni/JniFedMLClientManager.cpp:61-63 | Hands out a buffer not held before, now held for the given string. |
| JniFedMLClientManager.ClientManagerBridge.ReleaseStringUtfChars | android/fedmlsdk/src/main/jni/JniFedMLClientManager.cpp:120-122 | Only a buffer held for that string may be given back, and afterwards it is no longer held. |
| JniFedMLClientManager.ClientManagerBridge.EngineInit | android/fedmlsdk/src/main/jni/JniFedMLClientManager.cpp:114-117 | Needs a live session and the three path buffers held for the configuration's strings. Appends one engine-init call. |
| JniFedMLClientManager.Lifecycle | android/fedmlsdk/src/main/jni/JniFedMLClientManager.cpp:19-123 | The bridge object driven through create, init, a loss callback, release and a late progress callback. It sends exactly the four calls `SessionLifecycle` lists and ends with the table `{h: null}`. |

## Left out

- Locking and threads (the mutex at line 13 and its critical sections). Every
  entry point is one atomic step, so the race between a callback's lookup and
  a concurrent `release` is not modelled.
- JNI method-ID lookup (`getMethodIdByNameAndSig`, lines 74–76). A
  `CallVoidMethod` is an append of the target and the notification to the log.
- The training engine `FedMLClientManager`. Its `init` is one log entry, and
  the model does not have the engine calling the three lambdas. The `train`,
  `getEpochAndLoss` and `stopTraining` entry points (lines 130–161) only
  forward to the engine and are not modelled.
- `LOGD` logging, and the text of strings. Java strings and UTF-8 buffers are
  identities, and `NewStringUTF` is not modelled.
- Float and double values. Progress, accuracy, loss and learning rate are bit
  patterns that are carried and never interpreted. The 0.01 progress is the
  bit pattern `0x3C23D70A`.
- The `JNIEnv` the lambdas capture, and whether it stays valid on another
  thread.
- Memory allocation. An address or reference id chosen by the allocator or the
  JVM is any value not currently in use. Handles are unbounded integers, not
  64-bit `jlong`s.
- A null `trainingCallback`, for which the JVM returns a null global
  reference. `NewGlobalRef` always returns a non-null reference here, as it
  does for any non-null object.
- JniFedMLClientManager.ClientManagerBridge.EngineInit: does not say what the
  engine does with the path buffers. It only requires that they are held,
  because the engine is foreign code.
