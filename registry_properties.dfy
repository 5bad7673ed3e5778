/** What the entry points of the JNI bridge guarantee, stated over the
    transition functions of JniRegistry: the invariant they keep, how the
    table reacts to re-registration, late callbacks and unrelated handles, and
    the global references that `init` leaks and nothing ever deletes. */
module RegistryProperties {
  import opened JniRegistry

  // ---------------------------------------------------------------------
  // The invariant
  // ---------------------------------------------------------------------

  lemma InitialValid()
    ensures Valid(Initial)
    ensures Leaked(Initial) == {}
  {
  }

  /** `init` keeps the invariant: the new reference is fresh, so it cannot
      collide with a reference stored under another handle. */
  lemma InitValid(s: State, h: Handle, config: Config, callback: JObject, r: RefId)
    requires Valid(s) && h in s.sessions && r !in s.refs
    ensures Valid(Init(s, h, config, callback, r))
  {
    var t := Init(s, h, config, callback, r);
    forall h1, h2 | h1 in t.callbacks && h2 in t.callbacks && h1 != h2 && t.callbacks[h1].Global?
      ensures t.callbacks[h1] != t.callbacks[h2]
    {
      if h1 == h {
        assert h2 in s.callbacks;
        assert t.callbacks[h2] == s.callbacks[h2];
      } else if h2 == h {
        assert s.callbacks[h1].id in s.refs;
      }
    }
  }

  lemma StepValid(s: State, a: Action)
    requires Valid(s) && Enabled(s, a)
    ensures Valid(Step(s, a))
  {
    match a
    case Created(h) =>
    case Initialised(h, config, callback, r) => InitValid(s, h, config, callback, r);
    case Released(h) =>
    case Notified(h, n) =>
  }

  /** Every state a legal run reaches from a valid state is valid. */
  lemma {:induction false} RunValid(s: State, run: seq<Action>)
    requires Valid(s) && Legal(s, run)
    ensures Valid(Run(s, run))
    decreases |run|
  {
    if run != [] {
      StepValid(s, run[0]);
      RunValid(Step(s, run[0]), run[1..]);
    }
  }

  /** Taking three fresh UTF-8 buffers and giving each back once leaves the
      held buffers as they were. */
  lemma BuffersBalance(held: map<BufferId, JString>, b1: BufferId, b2: BufferId, b3: BufferId,
                       s1: JString, s2: JString, s3: JString)
    requires b1 !in held && b2 !in held[b1 := s1] && b3 !in held[b1 := s1][b2 := s2]
    ensures held[b1 := s1][b2 := s2][b3 := s3] - {b1} - {b2} - {b3} == held
  {
  }

  // ---------------------------------------------------------------------
  // Release
  // ---------------------------------------------------------------------

  /** `release` of a handle that has an entry removes exactly that entry,
      deletes exactly the reference it held and destroys the session. */
  lemma ReleaseRegistered(s: State, h: Handle)
    requires Valid(s) && h in s.sessions && h in s.callbacks && s.callbacks[h].Global?
    ensures Release(s, h).callbacks == s.callbacks - {h}
    ensures Release(s, h).refs == s.refs - {s.callbacks[h].id}
    ensures s.callbacks[h].id in s.refs && s.callbacks[h].id !in Release(s, h).refs
    ensures Release(s, h).sessions == s.sessions - {h}
  {
  }

  /** `release` undoes `create`. An address the allocator hands out again may
      still carry the null entry a late callback left behind for its previous
      session; `release` of the new session erases that entry too. */
  lemma CreateThenRelease(s: State, h: Handle)
    requires Valid(s) && h != 0 && h !in s.sessions
    ensures h in s.callbacks ==> s.callbacks[h] == Null
    ensures Release(Create(s, h), h) == s.(callbacks := s.callbacks - {h})
    ensures h !in s.callbacks ==> Release(Create(s, h), h) == s
  {
    if h !in s.callbacks {
      assert s.callbacks - {h} == s.callbacks;
    }
  }

  /** The next callback that fires after `release` (the residual race) does
      not reach the released observer: `operator[]` puts a null entry back
      under the handle and `CallVoidMethod` is made on null, which JNI leaves
      undefined. */
  lemma LateCallbackAfterRelease(s: State, h: Handle, n: Notification)
    requires h in s.sessions
    ensures Fire(Release(s, h), h, n).callbacks == (s.callbacks - {h})[h := Null]
    ensures Fire(Release(s, h), h, n).log == s.log + [Invoke(Null, n)]
  {
    assert h !in Release(s, h).callbacks;
  }

  /** Handles are addresses, and the allocator may hand a released address
      out again. Once `create` and `init` have reused it, a callback still
      bound to the released session reaches the observer of the new one. */
  lemma StaleCallbackAfterAddressReuse(s: State, h: Handle, config: Config,
                                       callback: JObject, r: RefId, n: Notification)
    requires Valid(s) && h in s.sessions && r !in s.refs
    ensures var t := Init(Create(Release(s, h), h), h, config, callback, r);
            && Fire(t, h, n).log == t.log + [Invoke(Global(r), n)]
            && t.refs[r] == callback
  {
  }

  // ---------------------------------------------------------------------
  // Init
  // ---------------------------------------------------------------------

  /** The table reaches the same references after `init` on `h`, except that
      the one `h` held before (if any) is replaced by `r`. */
  lemma RegisteredAfterInit(s: State, h: Handle, r: RefId)
    requires Valid(s) && r !in s.refs
    ensures Registered(s.callbacks[h := Global(r)]) == Registered(s.callbacks) - Displaced(s, h) + {r}
  {
    var m, m' := s.callbacks, s.callbacks[h := Global(r)];
    var d := Displaced(s, h);
    forall id | id in Registered(m')
      ensures id in Registered(m) - d + {r}
    {
      var k :| k in m' && m'[k].Global? && m'[k].id == id;
      if k != h {
        assert m[k] == m'[k] && id in Registered(m);
        if h in m && m[h].Global? {
          assert m[h] != m[k];
        }
      }
    }
    forall id | id in Registered(m) - d + {r}
      ensures id in Registered(m')
    {
      if id == r {
        assert m'[h] == Global(r);
      } else {
        var k :| k in m && m[k].Global? && m[k].id == id;
        assert k != h;
        assert m'[k] == m[k];
      }
    }
  }

  /** `init` leaks exactly the reference it overwrites: the leaked set grows
      by that one reference, or stays the same on a first `init`. */
  lemma InitLeaks(s: State, h: Handle, config: Config, callback: JObject, r: RefId)
    requires Valid(s) && h in s.sessions && r !in s.refs
    ensures Leaked(Init(s, h, config, callback, r)) == Leaked(s) + Displaced(s, h)
    ensures |Leaked(Init(s, h, config, callback, r))| == |Leaked(s)| + |Displaced(s, h)|
  {
    var t := Init(s, h, config, callback, r);
    var d := Displaced(s, h);
    RegisteredAfterInit(s, h, r);
    assert Registered(t.callbacks) == Registered(s.callbacks) - d + {r};
    assert d <= s.refs.Keys && d <= Registered(s.callbacks);
    SwapAlgebra(s.refs.Keys, Registered(s.callbacks), d, r);
  }

  /** The live set gains `r` and the reachable set swaps `d` for `r`: what is
      unreachable gains exactly `d`. */
  lemma SwapAlgebra(live: set<RefId>, reached: set<RefId>, d: set<RefId>, r: RefId)
    requires r !in live && d <= live && d <= reached
    ensures (live + {r}) - (reached - d + {r}) == (live - reached) + d
    ensures |(live + {r}) - (reached - d + {r})| == |live - reached| + |d|
  {
    assert (live + {r}) - (reached - d + {r}) == (live - reached) + d;
    assert (live - reached) * d == {};
  }

  /** A second `init` on the same handle replaces the entry; the first
      reference is never deleted: it is still live, still holds the first
      observer, and no handle reaches it any more. */
  lemma ReInitLeaksPreviousRef(s: State, h: Handle,
                               c1: Config, cb1: JObject, r1: RefId,
                               c2: Config, cb2: JObject, r2: RefId)
    requires Valid(s) && h in s.sessions && r1 !in s.refs && r2 !in s.refs && r1 != r2
    ensures Init(Init(s, h, c1, cb1, r1), h, c2, cb2, r2).callbacks[h] == Global(r2)
    ensures Init(Init(s, h, c1, cb1, r1), h, c2, cb2, r2).refs[r1] == cb1
    ensures r1 in Leaked(Init(Init(s, h, c1, cb1, r1), h, c2, cb2, r2))
  {
    var s1 := Init(s, h, c1, cb1, r1);
    InitValid(s, h, c1, cb1, r1);
    InitLeaks(s1, h, c2, cb2, r2);
  }

  /** After `init`, the next callback through `h` reaches the reference just
      registered, which holds the caller's observer. */
  lemma InitThenCallback(s: State, h: Handle, config: Config, callback: JObject, r: RefId, n: Notification)
    requires h in s.sessions && r !in s.refs
    ensures Fire(Init(s, h, config, callback, r), h, n).log[|s.log| + 2] == Invoke(Global(r), n)
    ensures Fire(Init(s, h, config, callback, r), h, n).refs[r] == callback
  {
  }

  /** One session's whole life from process start: `create`, `init`, one
      loss callback from training, `release`, then one late progress callback.
      The loss reaches the registered reference; the late callback goes to
      null and leaves a null entry behind in the table. */
  lemma SessionLifecycle(h: Handle, config: Config, observer: JObject, r: RefId,
                         epoch: Int32, loss: Float32)
    requires h != 0
    ensures var s1 := Create(Initial, h);
            var s2 := Init(s1, h, config, observer, r);
            var s3 := Fire(s2, h, Loss(epoch, loss));
            var s4 := Release(s3, h);
            var s5 := Fire(s4, h, Progress(InitProgress));
            && s5.log == [EngineInit(h, config), Invoke(Global(r), Progress(InitProgress)),
                          Invoke(Global(r), Loss(epoch, loss)), Invoke(Null, Progress(InitProgress))]
            && s5.callbacks == map[h := Null]
            && s5.refs == map[] && s5.sessions == {}
  {
    var s1 := Create(Initial, h);
    var s2 := Init(s1, h, config, observer, r);
    assert s2.callbacks == map[h := Global(r)];
    var s3 := Fire(s2, h, Loss(epoch, loss));
    var s4 := Release(s3, h);
    assert s4.callbacks == map[] && s4.refs == map[];
  }

  // ---------------------------------------------------------------------
  // Leaks over runs
  // ---------------------------------------------------------------------

  /** What one entry point does to the leaked references: only `init` adds
      one (the one it overwrites); no entry point takes any away. */
  lemma StepLeaks(s: State, a: Action)
    requires Valid(s) && Enabled(s, a)
    ensures Leaked(Step(s, a)) == Leaked(s) + (if a.Initialised? then Displaced(s, a.handle) else {})
  {
    match a
    case Created(h) =>
    case Initialised(h, config, callback, r) => InitLeaks(s, h, config, callback, r);
    case Released(h) =>
      var t := Release(s, h);
      var d := Displaced(s, h);
      assert Registered(t.callbacks) == Registered(s.callbacks) - d by {
        forall id | id in Registered(s.callbacks) - d ensures id in Registered(t.callbacks) {
          var k :| k in s.callbacks && s.callbacks[k].Global? && s.callbacks[k].id == id;
          assert k != h;
          assert t.callbacks[k] == s.callbacks[k];
        }
        forall id | id in Registered(t.callbacks) ensures id in Registered(s.callbacks) - d {
          var k :| k in t.callbacks && t.callbacks[k].Global? && t.callbacks[k].id == id;
          assert s.callbacks[k] == t.callbacks[k];
          if h in s.callbacks && s.callbacks[h].Global? {
            assert s.callbacks[h] != s.callbacks[k];
          }
        }
      }
    case Notified(h, n) =>
      var t := Fire(s, h, n);
      assert Registered(t.callbacks) == Registered(s.callbacks) by {
        forall id | id in Registered(s.callbacks) ensures id in Registered(t.callbacks) {
          var k :| k in s.callbacks && s.callbacks[k].Global? && s.callbacks[k].id == id;
          assert t.callbacks[k] == s.callbacks[k];
        }
      }
  }

  /** A leaked reference stays leaked, and live, for the rest of any run:
      the bridge never gets to delete it. */
  lemma {:induction false} LeaksArePermanent(s: State, run: seq<Action>)
    requires Valid(s) && Legal(s, run)
    ensures Leaked(s) <= Leaked(Run(s, run))
    ensures Leaked(s) <= Run(s, run).refs.Keys
    decreases |run|
  {
    if run != [] {
      StepLeaks(s, run[0]);
      StepValid(s, run[0]);
      LeaksArePermanent(Step(s, run[0]), run[1..]);
    }
  }

  /** The number of leaked references never goes down along a run. */
  lemma LeakCountMonotone(s: State, run: seq<Action>)
    requires Valid(s) && Legal(s, run)
    ensures |Leaked(s)| <= |Leaked(Run(s, run))|
  {
    LeaksArePermanent(s, run);
    SubsetCardinality(Leaked(s), Leaked(Run(s, run)));
  }

  lemma SubsetCardinality(a: set<RefId>, b: set<RefId>)
    requires a <= b
    ensures |a| <= |b|
  {
    assert b == a + (b - a);
  }

  // ---------------------------------------------------------------------
  // Handles are independent
  // ---------------------------------------------------------------------

  /** The handle an action is for is its only key: an action for another
      handle leaves the entry of `h` (and whether it has one) as it was. */
  lemma OtherHandleUntouched(s: State, a: Action, h: Handle)
    requires Enabled(s, a) && a.handle != h
    ensures (h in Step(s, a).callbacks) == (h in s.callbacks)
    ensures h in s.callbacks ==> Step(s, a).callbacks[h] == s.callbacks[h]
  {
  }

  /** Along a run in which no action but callbacks concerns `h`, the entry of
      `h` stays what it was: every callback through `h` reaches that same
      reference. */
  lemma {:induction false} EntryStable(s: State, run: seq<Action>, h: Handle)
    requires Legal(s, run) && h in s.callbacks
    requires forall i | 0 <= i < |run| :: run[i].handle != h || run[i].Notified?
    ensures h in Run(s, run).callbacks && Run(s, run).callbacks[h] == s.callbacks[h]
    decreases |run|
  {
    if run != [] {
      if run[0].handle != h {
        OtherHandleUntouched(s, run[0], h);
      }
      assert forall i | 0 <= i < |run[1..]| :: run[1..][i] == run[i + 1];
      EntryStable(Step(s, run[0]), run[1..], h);
    }
  }
}
