/** The backend's dependency-injection container (`backend/src/utils/di-container.js`):
    named factories, each either called on every `get` or called once and
    its instance cached until `clear`. A factory is opaque here; calling it
    is recorded as a run, and the instance a run returns is identified by
    the run's position, so two instances are the same exactly when they
    come from the same run. The extra dependencies passed to a factory are
    not modelled. */
module DIContainer {
  import opened Wrappers

  /** A registration: which factory, and whether it is a singleton. */
  datatype Registration = Registration(factory: nat, isSingleton: bool)

  /** One call of a factory, for a service name. */
  datatype Run = Run(name: string, factory: nat)

  /** The instance returned by the `run`-th factory call. */
  datatype Instance = Instance(run: nat)

  /** The container's state as a value: the registrations, the cached
      singletons and every factory call so far. */
  datatype Store = Store(services: map<string, Registration>, singletons: map<string, Instance>, runs: seq<Run>)

  function NotRegistered(name: string): string
  {
    "Service " + name + " not registered"
  }

  /** Every cached singleton was made by a run of its own name's factory. */
  ghost predicate CacheFromRuns(s: Store)
  {
    forall n :: n in s.singletons ==> s.singletons[n].run < |s.runs| && s.runs[s.singletons[n].run].name == n
  }

  /** `get(name)`: an error for an unknown name; a cached singleton as is;
      otherwise a new call of the factory, cached for a singleton. */
  function GetStep(s: Store, name: string): (r: (Result<Instance>, Store))
    ensures name !in s.services ==> r == (Err(NotRegistered(name)), s)
    ensures name in s.services && s.services[name].isSingleton && name in s.singletons ==>
              r == (Ok(s.singletons[name]), s)
    ensures name in s.services && (!s.services[name].isSingleton || name !in s.singletons) ==>
              var made := Instance(|s.runs|);
              r.0 == Ok(made) && r.1.services == s.services
              && r.1.runs == s.runs + [Run(name, s.services[name].factory)]
              && r.1.singletons == if s.services[name].isSingleton then s.singletons[name := made] else s.singletons
  {
    if name !in s.services then (Err(NotRegistered(name)), s)
    else
      var reg := s.services[name];
      if reg.isSingleton && name in s.singletons then (Ok(s.singletons[name]), s)
      else
        var made := Instance(|s.runs|);
        var runs := s.runs + [Run(name, reg.factory)];
        if reg.isSingleton then (Ok(made), Store(s.services, s.singletons[name := made], runs))
        else (Ok(made), Store(s.services, s.singletons, runs))
  }

  /** `get` keeps every cached instance tied to the run that made it, and
      what it returns was made by a run for that name. */
  lemma GetKeepsCache(s: Store, name: string)
    requires CacheFromRuns(s)
    ensures CacheFromRuns(GetStep(s, name).1)
    ensures var (r, t) := GetStep(s, name);
      r.Ok? ==> r.value.run < |t.runs| && t.runs[r.value.run].name == name
  {
    var (r, t) := GetStep(s, name);
    if name in s.services && (!s.services[name].isSingleton || name !in s.singletons) {
      forall n | n in t.singletons
        ensures t.singletons[n].run < |t.runs| && t.runs[t.singletons[n].run].name == n
      {
        if n != name || !s.services[name].isSingleton {
          assert t.runs[s.singletons[n].run] == s.runs[s.singletons[n].run];
        }
      }
    }
  }

  /** A singleton's factory runs at most once: a second `get` returns the
      instance of the first and calls nothing. */
  lemma SingletonRunsOnce(s: Store, name: string)
    requires name in s.services && s.services[name].isSingleton
    ensures var (a, s1) := GetStep(s, name);
      var (b, s2) := GetStep(s1, name);
      a.Ok? && b == a && s2 == s1 && |s.runs| <= |s1.runs| <= |s.runs| + 1
  {
  }

  /** A non-singleton factory runs on every `get`: two calls return two
      different instances and add two runs. */
  lemma FactoryRunsEachTime(s: Store, name: string)
    requires name in s.services && !s.services[name].isSingleton
    ensures var (a, s1) := GetStep(s, name);
      var (b, s2) := GetStep(s1, name);
      a.Ok? && b.Ok? && a.value != b.value && |s2.runs| == |s.runs| + 2
  {
  }

  /** Re-registering a name replaces the factory the next uncached `get`
      calls; an instance already cached under the name stays. */
  lemma ReRegisterReplaces(s: Store, name: string, factory: nat, isSingleton: bool)
    ensures var t := s.(services := s.services[name := Registration(factory, isSingleton)]);
      var (r, u) := GetStep(t, name);
      r.Ok?
      && (isSingleton && name in s.singletons ==> r.value == s.singletons[name] && u == t)
      && (!isSingleton || name !in s.singletons ==> u.runs == s.runs + [Run(name, factory)])
  {
  }

  class Container {
    var services: map<string, Registration>
    var singletons: map<string, Instance>
    var runs: seq<Run>

    function State(): (s: Store)
      reads this
      ensures s.services == services && s.singletons == singletons && s.runs == runs
    {
      Store(services, singletons, runs)
    }

    ghost predicate Valid()
      reads this
    {
      CacheFromRuns(State())
    }

    constructor ()
      ensures Valid() && services == map[] && singletons == map[] && runs == []
    {
      services, singletons, runs := map[], map[], [];
    }

    /** `register(name, factory, isSingleton)`: replaces any earlier
        registration of the name. */
    method Register(name: string, factory: nat, isSingleton: bool)
      requires Valid()
      modifies this`services
      ensures Valid()
      ensures services == old(services)[name := Registration(factory, isSingleton)]
    {
      services := services[name := Registration(factory, isSingleton)];
    }

    /** `get(name)` */
    method Get(name: string) returns (r: Result<Instance>)
      requires Valid()
      modifies this`singletons, this`runs
      ensures Valid()
      ensures (r, State()) == GetStep(old(State()), name)
    {
      GetKeepsCache(State(), name);
      if name !in services {
        return Err(NotRegistered(name));
      }
      var reg := services[name];
      if reg.isSingleton {
        if name !in singletons {
          singletons := singletons[name := Instance(|runs|)];
          runs := runs + [Run(name, reg.factory)];
        }
        return Ok(singletons[name]);
      }
      r := Ok(Instance(|runs|));
      runs := runs + [Run(name, reg.factory)];
    }

    /** `clear()`: every cached singleton dropped, so the next `get` calls
        its factory again. */
    method Clear()
      requires Valid()
      modifies this`singletons
      ensures Valid() && singletons == map[]
    {
      singletons := map[];
    }
  }

  /** After `clear`, a singleton's next `get` makes a new instance. */
  lemma ClearedSingletonRunsAgain(s: Store, name: string)
    requires name in s.services && s.services[name].isSingleton
    ensures var (r, t) := GetStep(s.(singletons := map[]), name);
      r == Ok(Instance(|s.runs|)) && t.runs == s.runs + [Run(name, s.services[name].factory)]
  {
  }
}
