/**
 `async_setup` and the `_reload_config` service handler it registers: the
 YAML pipeline for devices declared in `configuration.yaml`, as a pure
 function from the host's answers to the trace of host calls.
 */
module Reload {
  import opened Wrappers
  import opened Hass
  import opened Discovery

  datatype StartupOutcome = StartupOutcome(actions: seq<Action>, ok: bool)

  /** `async_setup`: dispatches the YAML-declared devices when the
      configuration has the integration's key, then registers the admin
      reload service. */
  function SetupIntegration(m: Manifest, config: Config): (r: StartupOutcome)
    ensures r.ok
    ensures |r.actions| >= 1 && r.actions[|r.actions| - 1] == RegisterAdminService(m.domain, ReloadService)
    ensures m.domain in config.domains ==> r.actions[..|r.actions| - 1] == Dispatches(m, config)
    ensures m.domain !in config.domains ==> |r.actions| == 1
  {
    var startup := if m.domain in config.domains then Dispatches(m, config) else [];
    StartupOutcome(startup + [RegisterAdminService(m.domain, ReloadService)], true)
  }

  /** The reload got past reading and validation. */
  predicate Proceeds(read: ReadResult, validate: Config -> Option<Config>)
  {
    read.ReadOk? && validate(read.raw).Some?
  }

  /** `_reload_config`: re-read the YAML (`read`), re-validate it
      (`validate`, standing for `async_process_component_config`), tear down
      every platform of the domain, re-dispatch when the new configuration
      still has the integration's key, and announce the reload with the
      triggering call's `context`. */
  function ReloadConfig(m: Manifest, read: ReadResult, validate: Config -> Option<Config>, context: Context): (trace: seq<Action>)
    // a read error is logged and nothing else happens
    ensures read.ReadError? ==> trace == [LogError(read.message)]
    // a configuration that does not validate ends the reload silently
    ensures read.ReadOk? && validate(read.raw).None? ==> trace == []
    // otherwise teardown comes first and the event last
    ensures Proceeds(read, validate) ==>
              && |trace| >= 2
              && trace[0] == ReloadPlatforms(m.domain, m.platforms)
              && trace[|trace| - 1] == FireEvent(ReloadedEvent(m.domain), context)
  {
    match read
    case ReadError(message) => [LogError(message)]
    case ReadOk(raw) =>
      match validate(raw)
      case None => []
      case Some(conf) =>
        [ReloadPlatforms(m.domain, m.platforms)]
        + (if m.domain in conf.domains then Dispatches(m, conf) else [])
        + [FireEvent(ReloadedEvent(m.domain), context)]
  }

  /** What sits between the teardown and the event of a reload that
      proceeds: the new configuration's dispatches, if it has the key. */
  lemma ReloadMiddleIsDispatch(m: Manifest, read: ReadResult, validate: Config -> Option<Config>, context: Context)
    requires Proceeds(read, validate)
    ensures var trace := ReloadConfig(m, read, validate, context);
            var conf := validate(read.raw).value;
            && (m.domain in conf.domains ==> trace[1..|trace| - 1] == Dispatches(m, conf))
            && (m.domain !in conf.domains ==> |trace| == 2)
  {
  }

  /** Abort safety: a reload that stops at reading or validation tears
      nothing down, dispatches nothing and fires no event. */
  lemma ReloadAbortIsSafe(m: Manifest, read: ReadResult, validate: Config -> Option<Config>, context: Context)
    requires !Proceeds(read, validate)
    ensures forall a :: a in ReloadConfig(m, read, validate, context) ==>
              !a.ReloadPlatforms? && !a.LoadPlatform? && !a.FireEvent?
  {
  }

  /** The reload event is fired if and only if the reload proceeds; then it
      is fired exactly once, carrying the call's context, as the last action. */
  lemma ReloadEventIffProceeds(m: Manifest, read: ReadResult, validate: Config -> Option<Config>, context: Context)
    ensures var trace := ReloadConfig(m, read, validate, context);
            (exists i :: 0 <= i < |trace| && trace[i].FireEvent?) <==> Proceeds(read, validate)
    ensures var trace := ReloadConfig(m, read, validate, context);
            Proceeds(read, validate) ==>
              && multiset(trace)[FireEvent(ReloadedEvent(m.domain), context)] == 1
              && forall i :: 0 <= i < |trace| && trace[i].FireEvent? ==> i == |trace| - 1
  {
    var trace := ReloadConfig(m, read, validate, context);
    if Proceeds(read, validate) {
      ReloadMiddleIsLoads(m, read, validate, context);
      assert trace[|trace| - 1].FireEvent?;
      var event := FireEvent(ReloadedEvent(m.domain), context);
      assert trace == trace[..|trace| - 1] + [event];
      var before := trace[..|trace| - 1];
      assert event !in before by {
        forall i | 0 <= i < |before|
          ensures before[i] != event
        {
          assert before[i] == trace[i];
        }
      }
    } else {
      ReloadAbortIsSafe(m, read, validate, context);
      forall i | 0 <= i < |trace|
        ensures !trace[i].FireEvent?
      {
        assert trace[i] in trace;
      }
    }
  }

  /** Every action of a proceeding reload other than the first and the last
      is a dispatch. */
  lemma ReloadMiddleIsLoads(m: Manifest, read: ReadResult, validate: Config -> Option<Config>, context: Context)
    requires Proceeds(read, validate)
    ensures var trace := ReloadConfig(m, read, validate, context);
            forall i :: 0 < i < |trace| - 1 ==> trace[i].LoadPlatform?
  {
    var trace := ReloadConfig(m, read, validate, context);
    var conf := validate(read.raw).value;
    ReloadMiddleIsDispatch(m, read, validate, context);
    if m.domain in conf.domains {
      DispatchesSound(m, conf, conf.domains[m.domain]);
      forall i | 0 < i < |trace| - 1
        ensures trace[i].LoadPlatform?
      {
        assert trace[i] == trace[1..|trace| - 1][i - 1];
        assert trace[i] in Dispatches(m, conf);
      }
    }
  }

  /** Ordering: in any reload, the teardown is issued before every dispatch. */
  lemma ReloadTeardownBeforeDispatch(m: Manifest, read: ReadResult, validate: Config -> Option<Config>, context: Context)
    ensures var trace := ReloadConfig(m, read, validate, context);
            forall i, j :: 0 <= i < |trace| && 0 <= j < |trace| && trace[i].ReloadPlatforms? && trace[j].LoadPlatform? ==> i < j
  {
    var trace := ReloadConfig(m, read, validate, context);
    if Proceeds(read, validate) {
      ReloadMiddleIsLoads(m, read, validate, context);
      assert forall i :: 0 <= i < |trace| && trace[i].ReloadPlatforms? ==> i == 0;
    } else {
      ReloadAbortIsSafe(m, read, validate, context);
      forall j | 0 <= j < |trace|
        ensures !trace[j].LoadPlatform?
      {
        assert trace[j] in trace;
      }
    }
  }

  /** A reload dispatches exactly the dispatches of the new configuration:
      none unless it still has the integration's key, and every device
      platform it declares is dispatched with its devices. */
  lemma ReloadDispatchesNewConfig(m: Manifest, read: ReadResult, validate: Config -> Option<Config>,
                                  context: Context, a: Action)
    requires Proceeds(read, validate)
    ensures var trace := ReloadConfig(m, read, validate, context);
            var conf := validate(read.raw).value;
            && (a.LoadPlatform? && a in trace ==> m.domain in conf.domains && a in Dispatches(m, conf))
            && (m.domain in conf.domains && a in Dispatches(m, conf) ==> a in trace)
  {
  }

  /** A reload whose validated configuration declares one device for one
      platform tears down, dispatches `{"devices": [device]}` for that
      platform and only that payload, then fires the event. */
  lemma ReloadSingleDevice(m: Manifest, read: ReadResult, validate: Config -> Option<Config>, context: Context,
                           p: Platform, device: Device)
    requires Proceeds(read, validate)
    requires p in m.platforms
    requires m.domain in validate(read.raw).value.domains
    requires validate(read.raw).value.domains[m.domain] == [map[p := [device]]]
    ensures var trace := ReloadConfig(m, read, validate, context);
            var conf := validate(read.raw).value;
            && trace[0] == ReloadPlatforms(m.domain, m.platforms)
            && LoadPlatform(p, m.domain, Payload([device]), conf) in trace
            && (forall a :: a in trace && a.LoadPlatform? ==> a == LoadPlatform(p, m.domain, Payload([device]), conf))
            && trace[|trace| - 1] == FireEvent(ReloadedEvent(m.domain), context)
  {
    var trace := ReloadConfig(m, read, validate, context);
    var conf := validate(read.raw).value;
    var sections := conf.domains[m.domain];
    DispatchesComplete(m, conf, sections, 0, p);
    DispatchesSound(m, conf, sections);
    forall a | a in trace && a.LoadPlatform?
      ensures a == LoadPlatform(p, m.domain, Payload([device]), conf)
    {
      ReloadDispatchesNewConfig(m, read, validate, context, a);
    }
    ReloadDispatchesNewConfig(m, read, validate, context, LoadPlatform(p, m.domain, Payload([device]), conf));
  }
}
