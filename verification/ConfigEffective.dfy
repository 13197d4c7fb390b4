/**
 Whether what is in effect is itself a valid configuration. It is put together from an older and a newer
 one, each of which was checked; the mixture was not.
 */
module ConfigEffective {
  import opened ConfigModel
  import opened ConfigPaths
  import opened ConfigMemory

  /** Everything that is asked of a configuration, except that the algorithm window fits the enabled cameras. */
  predicate ValidSections(c: EdgeConfig, normalize: Normalizer) {
    && c.configSchemaVersion == SCHEMA_VERSION && 1 <= c.configRevision <= MAX_UINT64 && ValidTimestamp(c.modifiedAt)
    && ValidSystem(c.system) && ValidCameras(c.cameras) && ValidAcquisition(c.acquisition)
    && ValidPreview(c.preview) && ValidAlgorithm(c.algorithm) && ValidEvent(c.event)
    && ValidStorage(c.storage, normalize) && ValidUplink(c.uplink) && ValidPlantIo(c.plantIo)
    && ValidLogging(c.logging, normalize) && ValidHealth(c.health) && ValidTimeSync(c.timeSync)
    && ConfirmationFitsEvent(c.algorithm, c.event)
  }

  lemma ValidIsSectionsAndWindow(c: EdgeConfig, normalize: Normalizer)
    ensures ValidConfig(c, normalize) <==>
              ValidSections(c, normalize) && RoiFitsEnabledCameras(c.algorithm.roi, c.cameras)
  {}

  /** Of two configurations with valid sections the mixture has valid sections, also where one section is mixed. */
  lemma MixtureHasValidSections(effective: EdgeConfig, candidate: EdgeConfig, normalize: Normalizer)
    requires ValidSections(effective, normalize) && ValidSections(candidate, normalize)
    ensures ValidSections(NextEffective(effective, candidate), normalize)
  {
    hide ValidSystem, ValidCameras, ValidAcquisition, ValidPreview, ValidAlgorithm, ValidEvent, ValidUplink;
    hide ValidPlantIo, ValidHealth, ValidTimeSync, ValidPath, ValidTimestamp, Topology, ConfirmationFitsEvent;
  }

  /** The calls hand over valid configurations and well-formed times. */
  predicate ValidCalls(calls: seq<Call>, normalize: Normalizer) {
    forall i | 0 <= i < |calls| && calls[i].Accepted? ::
      ValidConfig(calls[i].parsed, normalize) && ValidTimestamp(calls[i].now)
  }

  lemma CandidateHasValidSections(stored: EdgeConfig, parsed: EdgeConfig, now: string, normalize: Normalizer)
    requires ValidConfig(parsed, normalize) && ValidTimestamp(now) && stored.configRevision < MAX_UINT64
    ensures ValidSections(Candidate(stored, parsed, now), normalize)
  {}

  /** No update can bring a section out of its domain. */
  lemma {:induction false} RunKeepsValidSections(m: Memory, calls: seq<Call>, normalize: Normalizer)
    requires ValidSections(m.effective, normalize) && ValidCalls(calls, normalize)
    requires m.stored.configRevision + Commits(calls) <= MAX_UINT64
    ensures ValidSections(Run(m, calls).effective, normalize)
    decreases |calls|
  {
    hide ValidSections, ValidConfig, ValidTimestamp, NextEffective, PendingPaths;
    if calls != [] {
      if calls[0].Accepted? {
        var candidate := Candidate(m.stored, calls[0].parsed, calls[0].now);
        CandidateHasValidSections(m.stored, calls[0].parsed, calls[0].now, normalize);
        MixtureHasValidSections(m.effective, candidate, normalize);
      }
      RunKeepsValidSections(Step(m, calls[0]), calls[1..], normalize);
    }
  }

  /**
   After any run since boot the effective configuration is valid if and only if the stored algorithm
   window fits the cameras in effect, which are the last ones of the booted topology; and it is valid
   whenever no change of the cameras waits for a restart.
   */
  lemma EffectiveIsValidIff(booted: EdgeConfig, calls: seq<Call>, normalize: Normalizer)
    requires ValidConfig(booted, normalize) && ValidCalls(calls, normalize)
    requires booted.configRevision + Commits(calls) <= MAX_UINT64
    ensures var m := Run(Boot(booted), calls);
            && (ValidConfig(m.effective, normalize) <==>
                 RoiFitsEnabledCameras(m.stored.algorithm.roi, LastWithTopology(booted.cameras, calls)))
            && (CamerasPath !in m.pending ==> ValidConfig(m.effective, normalize))
  {
    hide ValidSections, ValidConfig, Coherent, NextEffective, RoiFitsEnabledCameras, Topology, LastWithTopology;
    var m := Run(Boot(booted), calls);
    ValidIsSectionsAndWindow(booted, normalize);
    RunKeepsValidSections(Boot(booted), calls, normalize);
    ValidIsSectionsAndWindow(m.effective, normalize);
    BootIsCoherent(booted);
    RunKeepsCoherent(booted, Boot(booted), calls);
    SectionsAfterRun(booted, m);
    StoredWindowFits(Boot(booted), calls, normalize);
  }

  lemma {:induction false} StoredWindowFits(m: Memory, calls: seq<Call>, normalize: Normalizer)
    requires ValidCalls(calls, normalize) && RoiFitsEnabledCameras(m.stored.algorithm.roi, m.stored.cameras)
    ensures var stored := Run(m, calls).stored;
            RoiFitsEnabledCameras(stored.algorithm.roi, stored.cameras)
    decreases |calls|
  {
    hide ValidConfig, RoiFitsEnabledCameras, NextEffective, PendingPaths;
    if calls != [] {
      if calls[0].Accepted? {
        ValidIsSectionsAndWindow(calls[0].parsed, normalize);
      }
      StoredWindowFits(Step(m, calls[0]), calls[1..], normalize);
    }
  }

  // ---------------------------------------------------------------- two valid configurations, an invalid mixture

  const WIDEST := RoiConfig(16384, 16384, 0, 0)

  /** Camera `k` gets another serial number, all cameras the widest picture, the algorithm a window for those. */
  function Exchanged(c: EdgeConfig, k: nat, serial: string): EdgeConfig
    requires k < |c.cameras|
  {
    var wide := seq(|c.cameras|, i requires 0 <= i < |c.cameras| => c.cameras[i].(roi := WIDEST));
    c.(cameras := wide[k := wide[k].(serialNumber := serial)],
    algorithm := c.algorithm.(roi := WIDEST))
  }

  lemma ExchangedIsValid(c: EdgeConfig, k: nat, serial: string, normalize: Normalizer)
    requires ValidConfig(c, normalize) && k < |c.cameras| && 1 <= |serial| <= 128
    requires forall i | 0 <= i < |c.cameras| :: c.cameras[i].serialNumber != serial
    ensures ValidConfig(Exchanged(c, k, serial), normalize)
  {
    hide ValidTimestamp, ValidIdentifier, ValidStorage, ValidLogging, CanonicalCameraId, ValidUplink;
    var cameras := Exchanged(c, k, serial).cameras;
    forall i | 0 <= i < |cameras|
      ensures ValidCamera(cameras[i])
    {
      assert ValidCamera(c.cameras[i]);
    }
  }

  /**
   One such update makes what is in effect invalid: the old cameras stay until the restart, the window of
   the new ones is in effect at once, although the configurations before and after were both valid.
   */
  lemma WindowRunsAheadOfCameras(c: EdgeConfig, k: nat, serial: string, now: string, normalize: Normalizer)
    requires ValidConfig(c, normalize) && ValidTimestamp(now) && c.configRevision < MAX_UINT64
    requires k < |c.cameras| && c.cameras[k].enabled && c.cameras[k].roi.width < 16384 && 1 <= |serial| <= 128
    requires forall i | 0 <= i < |c.cameras| :: c.cameras[i].serialNumber != serial
    ensures ValidConfig(Exchanged(c, k, serial), normalize)
    ensures var m := Commit(Boot(c), Candidate(c, Exchanged(c, k, serial), now));
            && ValidConfig(m.stored, normalize) && m.effective.cameras == c.cameras
            && !ValidConfig(m.effective, normalize)
  {
    hide ValidConfig, PendingPaths;
    ExchangedIsValid(c, k, serial, normalize);
    var candidate := Candidate(c, Exchanged(c, k, serial), now);
    CandidateHasValidSections(c, Exchanged(c, k, serial), now, normalize);
    ValidIsSectionsAndWindow(Exchanged(c, k, serial), normalize);
    ValidIsSectionsAndWindow(candidate, normalize);
    assert Topology(candidate.cameras)[k] != Topology(c.cameras)[k];
    ValidIsSectionsAndWindow(NextEffective(c, candidate), normalize);
    assert !RoiFits(WIDEST, c.cameras[k]);
  }
}
