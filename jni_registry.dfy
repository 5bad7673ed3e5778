/** Value-level model of the process-wide state behind the JNI bridge of the
    FedML Android client (JniFedMLClientManager.cpp): the table from session
    handle to callback global reference, the live JNI global references, the
    live native sessions, the log of calls the bridge makes outward (engine
    initialisation and callback invocations) and the UTF-8 buffers it holds.

    Each entry point of the bridge is a transition function on `State`; the
    class in module JniFedMLClientManager is proved to perform exactly these
    transitions. Locking is left out: every entry point is one atomic step. */
module JniRegistry {

  /** A session handle: the address of a heap-allocated native client manager,
      passed to and from Java as a `jlong`. */
  type Handle = int
  /** The identity of a JNI global reference. */
  type RefId = int
  /** The identity of a Java object (the caller's training callback). */
  type JObject = int
  /** The identity of a Java string object. */
  type JString = int
  /** A UTF-8 buffer handed out by `GetStringUTFChars` (a `const char *`). */
  type BufferId = int
  /** A Java `float`, kept as its IEEE-754 bit pattern and never interpreted. */
  type Float32 = bv32
  /** A Java `double`, kept as its IEEE-754 bit pattern and never interpreted. */
  type Float64 = bv64
  /** A Java `int`. */
  newtype Int32 = x: int | -0x8000_0000 <= x < 0x8000_0000

  /** The `float` nearest to 0.01: the progress reported once `init` is done. */
  const InitProgress: Float32 := 0x3C23_D70A

  /** A `jobject` as the table stores it: null, or a global reference. */
  datatype Ref = Null | Global(id: RefId)

  /** The training parameters `init` forwards to the engine; the three strings
      are handed over as the UTF-8 buffers of these Java strings. */
  datatype Config = Config(
    modelPath: JString, dataPath: JString, dataSet: JString,
    trainSize: Int32, testSize: Int32, batchSize: Int32,
    learningRate: Float64, epochNum: Int32)

  /** The three methods of the Java `TrainingCallback`. */
  datatype Notification =
    | Progress(progress: Float32)
    | Accuracy(epoch: Int32, accuracy: Float32)
    | Loss(epoch: Int32, loss: Float32)

  /** A call that leaves the bridge: the engine's `init`, or a `CallVoidMethod`
      on the reference the table gave back. */
  datatype Event =
    | EngineInit(session: Handle, config: Config)
    | Invoke(target: Ref, notification: Notification)

  datatype State = State(
    callbacks: map<Handle, Ref>,    // globalCallbackMap
    refs: map<RefId, JObject>,      // live global references and the object each one holds
    sessions: set<Handle>,          // live native sessions
    log: seq<Event>,                // outward calls, oldest first
    buffers: map<BufferId, JString>) // UTF-8 buffers currently held, and the string of each

  /** Process start: the table is an empty static map; nothing is allocated. */
  const Initial := State(map[], map[], {}, [], map[])

  /** The global reference ids the table can reach. */
  function Registered(m: map<Handle, Ref>): (ids: set<RefId>)
  {
    set h | h in m && m[h].Global? :: m[h].id
  }

  /** Live global references the table no longer reaches: nothing in the
      bridge can ever delete them again. */
  function Leaked(s: State): (ids: set<RefId>)
  {
    s.refs.Keys - Registered(s.callbacks)
  }

  /** The reference `init` on `h` overwrites (without deleting it), if any. */
  function Displaced(s: State, h: Handle): (ids: set<RefId>)
  {
    if h in s.callbacks && s.callbacks[h].Global? then {s.callbacks[h].id} else {}
  }

  /** The invariant every entry point keeps: no session lives at address 0,
      every reference the table holds is live and belongs to a live session,
      and no reference is stored under two handles. */
  ghost predicate Valid(s: State)
  {
    TableValid(s.callbacks, s.refs, s.sessions)
  }

  ghost predicate TableValid(callbacks: map<Handle, Ref>, refs: map<RefId, JObject>, sessions: set<Handle>)
  {
    && 0 !in sessions
    && (forall h | h in callbacks && callbacks[h].Global? ::
          callbacks[h].id in refs && h in sessions)
    && (forall h1, h2 | h1 in callbacks && h2 in callbacks && h1 != h2 && callbacks[h1].Global? ::
          callbacks[h1] != callbacks[h2])
  }

  /** A value above every element of `xs`: an allocator can always find an
      address (or a reference id) that is not in use. */
  ghost function FreshAbove(xs: set<int>): (b: int)
    ensures b > 0
    ensures forall x | x in xs :: x < b
  {
    if xs == {} then 1
    else
      assert (forall y :: y !in xs) ==> xs == {};
      var x :| x in xs;
      var b := FreshAbove(xs - {x});
      assert forall y | y in xs :: y == x || y in xs - {x};
      if x < b then b else x + 1
  }

  // ---------------------------------------------------------------------
  // The steps the entry points are made of
  // ---------------------------------------------------------------------

  /** `std::map::operator[]`: the value stored under `h`, after inserting a
      value-initialised (null) `jobject` when there is none. */
  function Subscript(m: map<Handle, Ref>, h: Handle): (res: (map<Handle, Ref>, Ref))
    ensures res.0.Keys == m.Keys + {h}
    ensures forall k | k in m :: res.0[k] == m[k]
    ensures res.1 == res.0[h]
    ensures h !in m ==> res.1 == Null
  {
    if h in m then (m, m[h]) else (m[h := Null], Null)
  }

  /** `DeleteGlobalRef`; on a null reference it does nothing. */
  function DeleteGlobalRef(s: State, r: Ref): (t: State)
    ensures r.Global? ==> t.refs.Keys == s.refs.Keys - {r.id}
    ensures r.Null? ==> t.refs == s.refs
    ensures forall id | id in t.refs :: t.refs[id] == s.refs[id]
    ensures t.callbacks == s.callbacks && t.sessions == s.sessions
    ensures t.log == s.log && t.buffers == s.buffers
  {
    if r.Global? then s.(refs := s.refs - {r.id}) else s
  }

  // ---------------------------------------------------------------------
  // The entry points
  // ---------------------------------------------------------------------

  /** `create`: a new session at the address `h` the allocator chose. */
  function Create(s: State, h: Handle): (t: State)
    requires h != 0 && h !in s.sessions
    ensures t.sessions == s.sessions + {h} && |t.sessions| == |s.sessions| + 1
    ensures t.callbacks == s.callbacks && t.refs == s.refs
    ensures t.log == s.log && t.buffers == s.buffers
  {
    s.(sessions := s.sessions + {h})
  }

  /** One of the three callback lambdas of `init`, bound to handle `h`: look the
      reference up with `operator[]`, then invoke `n` on whatever it gave. */
  function Fire(s: State, h: Handle, n: Notification): (t: State)
    ensures h in s.callbacks ==>
              t.callbacks == s.callbacks && t.log == s.log + [Invoke(s.callbacks[h], n)]
    ensures h !in s.callbacks ==>
              t.callbacks == s.callbacks[h := Null] && t.log == s.log + [Invoke(Null, n)]
    ensures t.refs == s.refs && t.sessions == s.sessions && t.buffers == s.buffers
  {
    var (m, callback) := Subscript(s.callbacks, h);
    s.(callbacks := m, log := s.log + [Invoke(callback, n)])
  }

  /** `init`: a new global reference `r` to `callback` overwrites the slot of
      `h`, then the engine is initialised, then one 0.01 progress callback is
      made through the table. The three UTF-8 buffers are taken before and
      given back after, so `buffers` comes out as it went in. */
  function Init(s: State, h: Handle, config: Config, callback: JObject, r: RefId): (t: State)
    requires h in s.sessions && r !in s.refs
    ensures t.callbacks == s.callbacks[h := Global(r)]
    ensures t.refs == s.refs[r := callback] && t.refs.Keys == s.refs.Keys + {r}
    ensures t.log == s.log + [EngineInit(h, config), Invoke(Global(r), Progress(InitProgress))]
    ensures t.sessions == s.sessions && t.buffers == s.buffers
  {
    var registered := s.(refs := s.refs[r := callback], callbacks := s.callbacks[h := Global(r)]);
    var configured := registered.(log := registered.log + [EngineInit(h, config)]);
    Fire(configured, h, Progress(InitProgress))
  }

  /** `release`: if the table has an entry for `h`, erase it and delete the
      reference it held; then destroy the session. */
  function Release(s: State, h: Handle): (t: State)
    requires h in s.sessions
    ensures h !in t.callbacks && t.sessions == s.sessions - {h}
    ensures t.callbacks.Keys == s.callbacks.Keys - {h}
    ensures forall k | k in t.callbacks :: t.callbacks[k] == s.callbacks[k]
    ensures t.refs.Keys == s.refs.Keys - Displaced(s, h)
    ensures forall id | id in t.refs :: t.refs[id] == s.refs[id]
    ensures h !in s.callbacks ==> t.callbacks == s.callbacks && t.refs == s.refs
    ensures t.log == s.log && t.buffers == s.buffers
  {
    var erased :=
      if h in s.callbacks then DeleteGlobalRef(s.(callbacks := s.callbacks - {h}), s.callbacks[h])
      else s;
    erased.(sessions := erased.sessions - {h})
  }

  // ---------------------------------------------------------------------
  // Runs of entry points
  // ---------------------------------------------------------------------

  /** One call of an entry point, with the allocator's choices made explicit. */
  datatype Action =
    | Created(handle: Handle)
    | Initialised(handle: Handle, config: Config, callback: JObject, ref: RefId)
    | Released(handle: Handle)
    | Notified(handle: Handle, notification: Notification)

  /** What each entry point needs of its caller: `create` gets an unused
      non-null address, `init` and `release` a live session and `init` an
      unused reference id; a callback can fire at any time, even late. */
  predicate Enabled(s: State, a: Action)
  {
    match a
    case Created(h) => h != 0 && h !in s.sessions
    case Initialised(h, _, _, r) => h in s.sessions && r !in s.refs
    case Released(h) => h in s.sessions
    case Notified(_, _) => true
  }

  function Step(s: State, a: Action): (t: State)
    requires Enabled(s, a)
  {
    match a
    case Created(h) => Create(s, h)
    case Initialised(h, config, callback, r) => Init(s, h, config, callback, r)
    case Released(h) => Release(s, h)
    case Notified(h, n) => Fire(s, h, n)
  }

  predicate Legal(s: State, run: seq<Action>)
    decreases |run|
  {
    run == [] || (Enabled(s, run[0]) && Legal(Step(s, run[0]), run[1..]))
  }

  function Run(s: State, run: seq<Action>): (t: State)
    requires Legal(s, run)
    decreases |run|
  {
    if run == [] then s else Run(Step(s, run[0]), run[1..])
  }
}
