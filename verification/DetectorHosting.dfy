/**
 The host of one break detector: it loads a plugin, replaces it by a newly configured one while frames
 keep coming, and checks what the plugin returns. What a plugin does is a parameter of each call.
 */
module DetectorHosting {
  import opened Wrappers

  const MAXIMUM_PARAMETERS := 64
  const MAXIMUM_IDENTIFIER := 128
  const MAXIMUM_TEXT := 4096
  // in milliseconds
  const MAXIMUM_TIMEOUT := 60_000

  datatype Value = Flag(b: bool) | Integer(i: int) | Number(finite: bool) | Text(t: string)

  datatype Parameter = Parameter(name: string, value: Value)

  /** `timeout`: what one frame may take, in milliseconds. */
  datatype Config = Config(plugin: string, camera: string, revision: nat, timeout: int, parameters: seq<Parameter>)

  datatype Info = Info(plugin: string, version: string, model: string)

  datatype Metrics = Metrics(
    updates: nat, calls: nat, successes: nat, failures: nat, timeouts: nat, resets: nat, lastTime: nat,
    maximumTime: nat)

  datatype HostError = NotReady | ConfigInvalid | LoadFailed | PluginFailed | ProcessFailed | Timeout

  /** A new plugin instance: whether the factory gave it, and what its calls answer; `None` when a call threw. */
  datatype Candidate = Candidate(instance: nat, created: bool, initialized: bool, updated: bool, info: Option<Info>)

  datatype Frame = Frame(camera: string, sequence: nat)

  datatype Detection = Detection(camera: string, sequence: nat, time: nat, version: string, model: string, verdict: nat)

  predicate GoodName(s: string) {
    0 < |s| <= MAXIMUM_IDENTIFIER
  }

  predicate GoodValue(v: Value) {
    (v.Number? ==> v.finite) && (v.Text? ==> |v.t| <= MAXIMUM_TEXT)
  }

  predicate GoodParameters(ps: seq<Parameter>) {
    && (forall i | 0 <= i < |ps| :: GoodName(ps[i].name) && GoodValue(ps[i].value))
    && (forall i, j | 0 <= i < j < |ps| :: ps[i].name != ps[j].name)
  }

  predicate ValidConfig(c: Config) {
    && GoodName(c.plugin) && GoodName(c.camera)
    && c.revision > 0 && 0 < c.timeout <= MAXIMUM_TIMEOUT
    && |c.parameters| <= MAXIMUM_PARAMETERS && GoodParameters(c.parameters)
  }

  /** The loop over the parameters with the names met so far. */
  method ValidateConfig(c: Config) returns (valid: bool)
    ensures valid <==> ValidConfig(c)
  {
    if !GoodName(c.plugin) || !GoodName(c.camera) {
      return false;
    }
    if c.revision == 0 || c.timeout <= 0 || c.timeout > MAXIMUM_TIMEOUT || |c.parameters| > MAXIMUM_PARAMETERS {
      return false;
    }
    var names: seq<string> := [];
    for i := 0 to |c.parameters|
      invariant |names| == i && forall k | 0 <= k < i :: names[k] == c.parameters[k].name
      invariant GoodParameters(c.parameters[..i])
    {
      var p := c.parameters[i];
      if !GoodName(p.name) || p.name in names || !GoodValue(p.value) {
        assert p == c.parameters[i];
        return false;
      }
      names := names + [p.name];
    }
    assert c.parameters[..|c.parameters|] == c.parameters;
    return true;
  }

  // ---------------------------------------------------------------- the host as a value

  datatype Loaded = Loaded(instance: nat, config: Config, info: Info)

  datatype Host = Host(loaded: Option<Loaded>, metrics: Metrics)

  function Empty(): Host {
    Host(None, Metrics(0, 0, 0, 0, 0, 0, 0, 0))
  }

  predicate GoodInfo(c: Candidate, plugin: string) {
    c.info.Some? && c.info.value.plugin != "" && c.info.value.version != "" && c.info.value.plugin == plugin
  }

  /** A load succeeds when the config is valid and the new plugin comes up as the one it was asked for. */
  predicate LoadSucceeds(config: Config, c: Candidate) {
    ValidConfig(config) && c.created && c.initialized && GoodInfo(c, config.plugin)
  }

  /** An update also needs a loaded plugin of the same name and camera and a higher revision. */
  predicate UpdateSucceeds(h: Host, config: Config, c: Candidate) {
    && h.loaded.Some? && ValidConfig(config)
    && config.plugin == h.loaded.value.config.plugin && config.camera == h.loaded.value.config.camera
    && config.revision > h.loaded.value.config.revision
    && c.created && c.initialized && c.updated && GoodInfo(c, config.plugin)
  }

  function AfterLoad(h: Host, config: Config, c: Candidate): Host {
    if LoadSucceeds(config, c) then h.(loaded := Some(Loaded(c.instance, config, c.info.value))) else h
  }

  function AfterUpdate(h: Host, config: Config, c: Candidate): Host {
    if UpdateSucceeds(h, config, c) then
      Host(Some(Loaded(c.instance, config, c.info.value)), h.metrics.(updates := h.metrics.updates + 1))
    else h
  }

  /** A frame is offered to the plugin only when one is loaded for its camera. */
  predicate Accepts(h: Host, frame: Frame) {
    h.loaded.Some? && frame.camera == h.loaded.value.config.camera
  }

  /** What the plugin returned counts when it came in time and is about this frame; times are in microseconds. */
  predicate Counts(h: Host, frame: Frame, answer: Option<Detection>, elapsed: nat)
    requires Accepts(h, frame)
  {
    && elapsed <= h.loaded.value.config.timeout * 1000
    && answer.Some? && answer.value.camera == frame.camera && answer.value.sequence == frame.sequence
  }

  function AfterProcess(h: Host, frame: Frame, answer: Option<Detection>, elapsed: nat): Host {
    if !Accepts(h, frame) then h
    else
      var m := h.metrics;
      var timed := m.(calls := m.calls + 1, lastTime := elapsed, maximumTime := Max(m.maximumTime, elapsed));
      h.(metrics :=
        if Counts(h, frame, answer, elapsed) then timed.(successes := m.successes + 1)
        else if elapsed > h.loaded.value.config.timeout * 1000 then
          timed.(failures := m.failures + 1, timeouts := m.timeouts + 1)
        else timed.(failures := m.failures + 1))
  }

  /** The answer with the host's own time, and with the plugin's versions where it names none. */
  function Completed(h: Host, d: Detection, elapsed: nat): Detection
    requires h.loaded.Some?
  {
    if d.version == "" then
      d.(time := elapsed, version := h.loaded.value.info.version, model := h.loaded.value.info.model)
    else d.(time := elapsed)
  }

  function AfterReset(h: Host): Host {
    if h.loaded.None? then h else h.(metrics := h.metrics.(resets := h.metrics.resets + 1))
  }

  // ---------------------------------------------------------------- every run

  datatype Call =
    | LoadCall(config: Config, candidate: Candidate)
    | UpdateCall(config: Config, candidate: Candidate)
    | ProcessCall(frame: Frame, answer: Option<Detection>, elapsed: nat)
    | ResetCall

  function Next(h: Host, call: Call): Host {
    match call
    case LoadCall(config, c) => AfterLoad(h, config, c)
    case UpdateCall(config, c) => AfterUpdate(h, config, c)
    case ProcessCall(frame, answer, elapsed) => AfterProcess(h, frame, answer, elapsed)
    case ResetCall => AfterReset(h)
  }

  function Run(h: Host, calls: seq<Call>): Host
    decreases |calls|
  {
    if calls == [] then h else Run(Next(h, calls[0]), calls[1..])
  }

  predicate Sound(h: Host) {
    && (h.loaded.Some? ==>
          && ValidConfig(h.loaded.value.config) && h.loaded.value.info.version != ""
          && h.loaded.value.info.plugin == h.loaded.value.config.plugin)
    && h.metrics.calls == h.metrics.successes + h.metrics.failures
    && h.metrics.timeouts <= h.metrics.failures
    && h.metrics.lastTime <= h.metrics.maximumTime
  }

  lemma NextIsSound(h: Host, call: Call)
    requires Sound(h)
    ensures Sound(Next(h, call))
    ensures h.loaded.Some? ==> Next(h, call).loaded.Some?
    ensures !call.LoadCall? && h.loaded.Some? ==>
              var before, after := h.loaded.value.config, Next(h, call).loaded.value.config;
              && after.plugin == before.plugin && after.camera == before.camera
              && (after == before || after.revision > before.revision)
    ensures Next(h, call).metrics.updates == h.metrics.updates
              + if call.UpdateCall? && Next(h, call).loaded != h.loaded then 1 else 0
  {
    hide GoodParameters;
  }

  /**
   Over any calls, successful or not: what is loaded is a plugin with a valid config and its own info,
   all together; the counters add up; and between two loads the plugin and the camera stay while the
   revisions only rise.
   */
  lemma {:induction false} RunIsSound(h: Host, calls: seq<Call>)
    requires Sound(h)
    ensures Sound(Run(h, calls))
    ensures h.loaded.Some? ==> Run(h, calls).loaded.Some?
    ensures h.loaded.Some? && (forall c | c in calls :: !c.LoadCall?) ==>
              var before, after := h.loaded.value.config, Run(h, calls).loaded.value.config;
              && after.plugin == before.plugin && after.camera == before.camera
              && (after == before || after.revision > before.revision)
    decreases |calls|
  {
    hide Next, Sound;
    if calls != [] {
      NextIsSound(h, calls[0]);
      RunIsSound(Next(h, calls[0]), calls[1..]);
    }
  }

  // ---------------------------------------------------------------- the host

  class DetectorHost {
    var active: Option<nat>
    var config: Option<Config>
    var activeInfo: Option<Info>
    var metrics: Metrics

    /** Instance, config and info are there together or not at all. */
    ghost predicate Together()
      reads this
    {
      active.Some? == config.Some? == activeInfo.Some?
    }

    ghost function State(): Host
      requires Together()
      reads this
    {
      Host(if active.None? then None else Some(Loaded(active.value, config.value, activeInfo.value)), metrics)
    }

    constructor ()
      ensures Together() && State() == Empty() && Sound(State())
    {
      active, config, activeInfo, metrics := None, None, None, Metrics(0, 0, 0, 0, 0, 0, 0, 0);
    }

    method Load(newConfig: Config, candidate: Candidate) returns (error: Option<HostError>)
      requires Together()
      modifies this
      ensures Together() && State() == AfterLoad(old(State()), newConfig, candidate)
      ensures error.None? <==> LoadSucceeds(newConfig, candidate)
      ensures error.None? ==>
                && candidate.created && candidate.initialized && active == Some(candidate.instance)
                && config == Some(newConfig) && activeInfo == candidate.info
                && activeInfo.Some? && activeInfo.value.plugin == newConfig.plugin && activeInfo.value.version != ""
      ensures error.Some? ==> active == old(active) && config == old(config) && activeInfo == old(activeInfo)
      ensures !ValidConfig(newConfig) ==> error == Some(ConfigInvalid)
    {
      var valid := ValidateConfig(newConfig);
      if !valid {
        return Some(ConfigInvalid);
      }
      if !candidate.created {
        return Some(LoadFailed);
      }
      if !candidate.initialized {
        return Some(PluginFailed);
      }
      if candidate.info.None? {
        return Some(PluginFailed);
      }
      var info := candidate.info.value;
      if info.plugin == "" || info.version == "" || info.plugin != newConfig.plugin {
        return Some(LoadFailed);
      }
      active, config, activeInfo := Some(candidate.instance), Some(newConfig), Some(info);
      return None;
    }

    method UpdateConfig(newConfig: Config, candidate: Candidate) returns (error: Option<HostError>)
      requires Together()
      modifies this
      ensures Together() && State() == AfterUpdate(old(State()), newConfig, candidate)
      ensures error.None? <==> UpdateSucceeds(old(State()), newConfig, candidate)
      ensures error.None? ==>
                && candidate.created && candidate.initialized && candidate.updated
                && active == Some(candidate.instance) && config == Some(newConfig) && activeInfo == candidate.info
                && old(config).Some? && newConfig.plugin == old(config).value.plugin
                && newConfig.camera == old(config).value.camera && newConfig.revision > old(config).value.revision
                && activeInfo.Some? && activeInfo.value.plugin == newConfig.plugin && activeInfo.value.version != ""
      ensures error.Some? ==> active == old(active) && config == old(config) && activeInfo == old(activeInfo)
      ensures error == Some(NotReady) <==> old(active).None?
    {
      if active.None? || config.None? {
        return Some(NotReady);
      }
      var valid := ValidateConfig(newConfig);
      if !valid {
        return Some(ConfigInvalid);
      }
      if newConfig.plugin != config.value.plugin || newConfig.camera != config.value.camera
         || newConfig.revision <= config.value.revision {
        return Some(ConfigInvalid);
      }
      if !candidate.created {
        return Some(LoadFailed);
      }
      if !candidate.initialized || !candidate.updated || candidate.info.None? {
        return Some(PluginFailed);
      }
      var info := candidate.info.value;
      if info.plugin == "" || info.version == "" || info.plugin != newConfig.plugin {
        return Some(LoadFailed);
      }
      active, config, activeInfo := Some(candidate.instance), Some(newConfig), Some(info);
      metrics := metrics.(updates := metrics.updates + 1);
      return None;
    }

    /** What is returned is about this frame, was made in time and names a version. */
    method Process(frame: Frame, answer: Option<Detection>, elapsed: nat) returns (result: Result<Detection, HostError>)
      requires Together() && Sound(State())
      modifies this`metrics
      ensures Together() && State() == AfterProcess(old(State()), frame, answer, elapsed) && Sound(State())
      ensures result.Success? <==> Accepts(old(State()), frame) && Counts(old(State()), frame, answer, elapsed)
      ensures result.Success? ==>
                && result.value == Completed(old(State()), answer.value, elapsed)
                && result.value.camera == frame.camera && result.value.sequence == frame.sequence
                && result.value.time == elapsed <= config.value.timeout * 1000
                && result.value.version != ""
      // everything but the time is the plugin's own answer; version and model only where it names none
      ensures result.Success? ==>
                && answer.Some?
                && result.value.(time := answer.value.time, version := answer.value.version,
                    model := answer.value.model)
                   == answer.value
                && if answer.value.version != "" then
                     result.value.version == answer.value.version && result.value.model == answer.value.model
                   else
                     && activeInfo.Some?
                     && result.value.version == activeInfo.value.version && result.value.model == activeInfo.value.model
      ensures var was := old(metrics);
              && metrics.calls == was.calls + (if Accepts(old(State()), frame) then 1 else 0)
              && metrics.successes == was.successes + (if result.Success? then 1 else 0)
              && metrics.timeouts == was.timeouts + (if result == Failure(Timeout) then 1 else 0)
              && (Accepts(old(State()), frame) ==>
                    && metrics.lastTime == elapsed <= metrics.maximumTime && was.maximumTime <= metrics.maximumTime
                    && metrics.maximumTime in {was.maximumTime, elapsed})
      ensures result == Failure(Timeout) <==>
                Accepts(old(State()), frame) && elapsed > old(State()).loaded.value.config.timeout * 1000
    {
      if active.None? || config.None? {
        return Failure(NotReady);
      }
      if frame.camera != config.value.camera {
        return Failure(ProcessFailed);
      }
      metrics := metrics.(calls := metrics.calls + 1);
      metrics := metrics.(lastTime := elapsed, maximumTime := Max(metrics.maximumTime, elapsed));
      if elapsed > config.value.timeout * 1000 {
        metrics := metrics.(failures := metrics.failures + 1, timeouts := metrics.timeouts + 1);
        return Failure(Timeout);
      }
      if answer.None? {
        metrics := metrics.(failures := metrics.failures + 1);
        return Failure(PluginFailed);
      }
      var detection := answer.value;
      if detection.camera != frame.camera || detection.sequence != frame.sequence {
        metrics := metrics.(failures := metrics.failures + 1);
        return Failure(ProcessFailed);
      }
      detection := detection.(time := elapsed);
      if detection.version == "" {
        detection := detection.(version := activeInfo.value.version, model := activeInfo.value.model);
      }
      metrics := metrics.(successes := metrics.successes + 1);
      return Success(detection);
    }

    method Reset(done: bool) returns (error: Option<HostError>)
      requires Together()
      modifies this`metrics
      ensures Together() && State() == AfterReset(old(State()))
      ensures error.None? <==> active.Some? && done
    {
      if active.None? || config.None? {
        return Some(NotReady);
      }
      metrics := metrics.(resets := metrics.resets + 1);
      return if done then None else Some(PluginFailed);
    }
  }
}
