/** The JNI bridge of the FedML Android client as an object: the process-wide
    `globalCallbackMap` and the parts of the JVM and the native heap it
    touches are fields, and each exported entry point is a method that updates
    them step by step, in the order the C++ code does. Every entry point is
    proved to make exactly the transition of the same name in JniRegistry, and
    to keep JniRegistry.Valid. */
module JniFedMLClientManager {
  import opened JniRegistry
  import RegistryProperties

  class ClientManagerBridge {
    /** `globalCallbackMap`: session handle to callback global reference. */
    var callbackMap: map<Handle, Ref>
    /** The JVM's live global references made here, with the object each holds. */
    var globalRefs: map<RefId, JObject>
    /** The native heap's live client managers, by address. */
    var sessions: set<Handle>
    /** The calls made out of the bridge: engine `init` and `CallVoidMethod`. */
    var log: seq<Event>
    /** The UTF-8 buffers this bridge currently holds, with the string of each. */
    var utfBuffers: map<BufferId, JString>

    function State(): State
      reads this
    {
      JniRegistry.State(callbackMap, globalRefs, sessions, log, utfBuffers)
    }

    ghost predicate Valid()
      reads this`callbackMap, this`globalRefs, this`sessions
    {
      TableValid(callbackMap, globalRefs, sessions)
    }

    /** Process start: the static map is empty. */
    constructor ()
      ensures Valid() && State() == Initial
    {
      callbackMap, globalRefs, sessions, log, utfBuffers := map[], map[], {}, [], map[];
    }

    // -------------------------------------------------------------------
    // The exported entry points
    // -------------------------------------------------------------------

    /** `create`: allocate a client manager and return its address. */
    method Create() returns (h: Handle)
      requires Valid()
      modifies this`sessions
      ensures Valid()
      ensures h != 0 && h !in old(sessions) && h in sessions
      ensures State() == JniRegistry.Create(old(State()), h)
    {
      assert FreshAbove(sessions) !in sessions;
      h :| h != 0 && h !in sessions;
      sessions := sessions + {h};
    }

    /** `release`: under the lock, erase the entry of `h` (if any) and delete
        its global reference; after the lock, delete the client manager. */
    method Release(h: Handle)
      requires Valid() && h in sessions
      modifies this`callbackMap, this`globalRefs, this`sessions
      ensures Valid()
      ensures h !in callbackMap && h !in sessions
      ensures State() == JniRegistry.Release(old(State()), h)
    {
      if h in callbackMap {
        var globalCallback := callbackMap[h];
        callbackMap := callbackMap - {h};
        DeleteGlobalRef(globalCallback);
      }
      DeleteSession(h);
    }

    /** `init`: pin the three path strings, register a new global reference
        to `trainingCallback` under `h`, initialise the engine, report 0.01
        progress through the table, unpin the strings. The ghost result is
        the reference the JVM made. */
    method Init(h: Handle, modelCachePath: JString, dataCachePath: JString, dataSet: JString,
                trainSize: Int32, testSize: Int32, batchSizeNum: Int32,
                learningRate: Float64, epochNum: Int32, trainingCallback: JObject)
      returns (ghost r: RefId)
      requires Valid() && h in sessions
      modifies this`callbackMap, this`globalRefs, this`log, this`utfBuffers
      ensures Valid() && r !in old(globalRefs)
      ensures State() == JniRegistry.Init(old(State()), h,
                           Config(modelCachePath, dataCachePath, dataSet, trainSize, testSize,
                                  batchSizeNum, learningRate, epochNum),
                           trainingCallback, r)
      ensures callbackMap[h] == Global(r) && globalRefs[r] == trainingCallback
      ensures utfBuffers == old(utfBuffers)
    {
      ghost var s0 := State();
      var modelPath := GetStringUtfChars(modelCachePath);
      var dataPath := GetStringUtfChars(dataCachePath);
      var datasetType := GetStringUtfChars(dataSet);
      var config := Config(modelCachePath, dataCachePath, dataSet, trainSize, testSize,
                           batchSizeNum, learningRate, epochNum);
      r := Configure(h, config, trainingCallback, modelPath, dataPath, datasetType);
      ReleaseStringUtfChars(modelCachePath, modelPath);
      ReleaseStringUtfChars(dataCachePath, dataPath);
      ReleaseStringUtfChars(dataSet, datasetType);
      RegistryProperties.BuffersBalance(s0.buffers, modelPath, dataPath, datasetType,
                                        modelCachePath, dataCachePath, dataSet);
    }

    /** The part of `init` that runs while the three path strings are pinned:
        register the callback, initialise the engine, report 0.01 progress. */
    method Configure(h: Handle, config: Config, callback: JObject,
                     modelPath: BufferId, dataPath: BufferId, datasetType: BufferId)
      returns (ghost r: RefId)
      requires Valid() && h in sessions
      requires modelPath in utfBuffers && utfBuffers[modelPath] == config.modelPath
      requires dataPath in utfBuffers && utfBuffers[dataPath] == config.dataPath
      requires datasetType in utfBuffers && utfBuffers[datasetType] == config.dataSet
      modifies this`callbackMap, this`globalRefs, this`log
      ensures Valid() && r !in old(globalRefs)
      ensures State() == JniRegistry.Init(old(State()), h, config, callback, r)
    {
      ghost var s0 := State();
      r := Register(h, callback);
      RegistryProperties.InitValid(s0, h, config, callback, r);
      EngineInit(h, config, modelPath, dataPath, datasetType);
      OnProgress(h, InitProgress);
      ghost var t := JniRegistry.Init(s0, h, config, callback, r);
      assert callbackMap == t.callbacks && globalRefs == t.refs && log == t.log;
    }

    /** The locked block of `init`: a new global reference to `callback`
        replaces whatever the table held for `h`. */
    method Register(h: Handle, callback: JObject) returns (ghost r: RefId)
      modifies this`callbackMap, this`globalRefs
      ensures r !in old(globalRefs)
      ensures callbackMap == old(callbackMap)[h := Global(r)]
      ensures globalRefs == old(globalRefs)[r := callback]
    {
      var globalCallback := NewGlobalRef(callback);
      r := globalCallback.id;
      callbackMap := callbackMap[h := globalCallback];
    }

    // -------------------------------------------------------------------
    // The three callback lambdas of `init`, each bound to its handle
    // -------------------------------------------------------------------

    method OnProgress(h: Handle, progress: Float32)
      requires Valid()
      modifies this`callbackMap, this`log
      ensures Valid()
      ensures State() == Fire(old(State()), h, Progress(progress))
    {
      var callback := Subscript(h);
      CallVoidMethod(callback, Progress(progress));
    }

    method OnAccuracy(h: Handle, epoch: Int32, acc: Float32)
      requires Valid()
      modifies this`callbackMap, this`log
      ensures Valid()
      ensures State() == Fire(old(State()), h, Accuracy(epoch, acc))
    {
      var callback := Subscript(h);
      CallVoidMethod(callback, Accuracy(epoch, acc));
    }

    method OnLoss(h: Handle, epoch: Int32, loss: Float32)
      requires Valid()
      modifies this`callbackMap, this`log
      ensures Valid()
      ensures State() == Fire(old(State()), h, Loss(epoch, loss))
    {
      var callback := Subscript(h);
      CallVoidMethod(callback, Loss(epoch, loss));
    }

    // -------------------------------------------------------------------
    // The map, JVM and heap operations the entry points are made of
    // -------------------------------------------------------------------

    /** `globalCallbackMap[h]` read through `operator[]`. */
    method Subscript(h: Handle) returns (callback: Ref)
      requires Valid()
      modifies this`callbackMap
      ensures Valid()
      ensures (callbackMap, callback) == JniRegistry.Subscript(old(callbackMap), h)
    {
      if h !in callbackMap {
        callbackMap := callbackMap[h := Null];
      }
      callback := callbackMap[h];
    }

    /** `CallVoidMethod` on the reference the table gave, null included. */
    method CallVoidMethod(target: Ref, n: Notification)
      modifies this`log
      ensures log == old(log) + [Invoke(target, n)]
    {
      log := log + [Invoke(target, n)];
    }

    /** `NewGlobalRef`: the JVM makes a reference no one else holds. */
    method NewGlobalRef(obj: JObject) returns (r: Ref)
      modifies this`globalRefs
      ensures r.Global? && r.id !in old(globalRefs)
      ensures globalRefs == old(globalRefs)[r.id := obj]
    {
      assert FreshAbove(globalRefs.Keys) !in globalRefs;
      var id :| id !in globalRefs;
      r := Global(id);
      globalRefs := globalRefs[id := obj];
    }

    /** `DeleteGlobalRef`: only a live reference, or null, may be deleted. */
    method DeleteGlobalRef(r: Ref)
      requires r.Global? ==> r.id in globalRefs
      modifies this`globalRefs
      ensures State() == JniRegistry.DeleteGlobalRef(old(State()), r)
    {
      if r.Global? {
        globalRefs := globalRefs - {r.id};
      }
    }

    /** `delete` of the client manager at `h`. */
    method DeleteSession(h: Handle)
      requires h in sessions
      modifies this`sessions
      ensures sessions == old(sessions) - {h}
    {
      sessions := sessions - {h};
    }

    /** `GetStringUTFChars`: a new buffer holding the text of `s`. */
    method GetStringUtfChars(s: JString) returns (buffer: BufferId)
      modifies this`utfBuffers
      ensures buffer !in old(utfBuffers) && utfBuffers == old(utfBuffers)[buffer := s]
    {
      assert FreshAbove(utfBuffers.Keys) !in utfBuffers;
      buffer :| buffer !in utfBuffers;
      utfBuffers := utfBuffers[buffer := s];
    }

    /** `ReleaseStringUTFChars`: only a buffer the bridge holds for `s` may be
        given back. */
    method ReleaseStringUtfChars(s: JString, buffer: BufferId)
      requires buffer in utfBuffers && utfBuffers[buffer] == s
      modifies this`utfBuffers
      ensures utfBuffers == old(utfBuffers) - {buffer}
    {
      utfBuffers := utfBuffers - {buffer};
    }

    /** The engine's `init`, given the three path buffers: all three must be
        held while it runs, and the session must be live. */
    method EngineInit(h: Handle, config: Config,
                      modelPath: BufferId, dataPath: BufferId, datasetType: BufferId)
      requires h in sessions
      requires modelPath in utfBuffers && utfBuffers[modelPath] == config.modelPath
      requires dataPath in utfBuffers && utfBuffers[dataPath] == config.dataPath
      requires datasetType in utfBuffers && utfBuffers[datasetType] == config.dataSet
      modifies this`log
      ensures log == old(log) + [JniRegistry.EngineInit(h, config)]
    {
      log := log + [JniRegistry.EngineInit(h, config)];
    }
  }

  /** One session's life as the Java side drives it: `create`, `init`, one
      loss callback from training, `release`, and then one late progress
      callback from a training thread that is still running. What the bridge
      sends out, and what the table holds at the end, follow from the
      contracts above alone. */
  method Lifecycle(config: Config, observer: JObject, epoch: Int32, loss: Float32)
    returns (h: Handle, events: seq<Event>, table: map<Handle, Ref>, ghost r: RefId)
    ensures h != 0
    ensures events == [EngineInit(h, config), Invoke(Global(r), Progress(InitProgress)),
                       Invoke(Global(r), Loss(epoch, loss)), Invoke(Null, Progress(InitProgress))]
    ensures table == map[h := Null]
  {
    var bridge := new ClientManagerBridge();
    h := bridge.Create();
    r := bridge.Init(h, config.modelPath, config.dataPath, config.dataSet,
                     config.trainSize, config.testSize, config.batchSize,
                     config.learningRate, config.epochNum, observer);
    bridge.OnLoss(h, epoch, loss);
    bridge.Release(h);
    bridge.OnProgress(h, InitProgress);
    RegistryProperties.SessionLifecycle(h, config, observer, r, epoch, loss);
    events, table := bridge.log, bridge.callbackMap;
  }
}
