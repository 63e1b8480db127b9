/** The liquid-biopsy pipeline builder (autoseq/pipeline/liqbio.py): per-capture
    structural-variant calling, the normal x cancer pairing analyses with the
    optional purity and copy-number plot steps, and UMI consensus processing.
    Each builder is a method on the pipeline object, proved against a function
    that gives the state it leaves; the properties of the source are lemmas
    about those functions. */
module LiqBio {
  import opened Common
  import opened Jobs
  import VariantCalling
  import CallerCommands

  /** The outcome of a configuration method agrees with its specification:
      no error and the specified state, or the specified error. */
  ghost predicate Reflects(r: Result<State>, err: Option<Error>, s: State) {
    && (err.None? <==> r.Ok?)
    && (r.Ok? ==> s == r.value)
    && (r.Err? ==> err == Some(r.error))
  }

  // ---------------------------------------------------------------------------
  // Structural-variant calling for one capture

  function SvBamPath(cfg: Config, c: UniqueCapture, e: EventType): Path {
    cfg.outdir + "/svs/" + cfg.helpers.libCaptureStr(c) + "-" + EventName(e) + ".bam"
  }

  function SvGtfPath(cfg: Config, c: UniqueCapture, e: EventType): Path {
    cfg.outdir + "/svs/" + cfg.helpers.libCaptureStr(c) + "-" + EventName(e) + ".gtf"
  }

  /** The Svcaller job for one event type of a capture. */
  function SvJob(cfg: Config, c: UniqueCapture, e: EventType): Job {
    Svcaller(cfg.helpers.captureBam(c), e, SvBamPath(cfg, c, e), SvGtfPath(cfg, c, e),
             cfg.refdata.referenceGenome, cfg.scratch)
  }

  /** One Svcaller job per event type, in the order of `events`. */
  function SvJobs(cfg: Config, c: UniqueCapture, events: seq<EventType>): (r: seq<Job>)
    ensures |r| == |events|
    ensures forall i :: 0 <= i < |events| ==> r[i] == SvJob(cfg, c, events[i])
  {
    if events == [] then []
    else SvJobs(cfg, c, events[..|events| - 1]) + [SvJob(cfg, c, events[|events| - 1])]
  }

  /** The structural-variant registry after recording, for each of `events`,
      the (BAM, GTF) pair of the capture's Svcaller job. */
  function RegisterSvs(svs: map<(UniqueCapture, EventType), (Path, Path)>, cfg: Config,
                       c: UniqueCapture, events: seq<EventType>): map<(UniqueCapture, EventType), (Path, Path)>
  {
    if events == [] then svs
    else
      var e := events[|events| - 1];
      RegisterSvs(svs, cfg, c, events[..|events| - 1])[(c, e) := (SvBamPath(cfg, c, e), SvGtfPath(cfg, c, e))]
  }

  /** Recording the events' outputs adds exactly the capture's entries for
      those events, with the Svcaller paths, and keeps every other entry. */
  lemma {:induction false} RegisterSvsContents(svs: map<(UniqueCapture, EventType), (Path, Path)>, cfg: Config,
                                               c: UniqueCapture, events: seq<EventType>)
    ensures var r := RegisterSvs(svs, cfg, c, events);
      && (forall e :: e in events ==> (c, e) in r && r[(c, e)] == (SvBamPath(cfg, c, e), SvGtfPath(cfg, c, e)))
      && (forall k :: k in r <==> k in svs || (k.0 == c && k.1 in events))
      && (forall k :: k in svs && !(k.0 == c && k.1 in events) ==> r[k] == svs[k])
  {
    if events != [] {
      var init := events[..|events| - 1];
      RegisterSvsContents(svs, cfg, c, init);
      assert forall e :: e in events <==> e in init || e == events[|events| - 1] by {
        assert events == init + [events[|events| - 1]];
      }
    }
  }

  /** `configure_single_capture_analysis_liqbio`, as a state transformer. */
  function SingleCaptureAnalysis(cfg: Config, st: State, c: UniqueCapture): State {
    State(st.jobs + SvJobs(cfg, c, EventTypes),
          st.reg.(svs := RegisterSvs(st.reg.svs, cfg, c, EventTypes)))
  }

  /** `configure_single_capture_analysis_liqbio`: one Svcaller job per event
      type, each registering its outputs. */
  method ConfigureSingleCaptureAnalysisLiqbio(p: Pipeline, capture: UniqueCapture)
    modifies p
    ensures p.Snapshot() == SingleCaptureAnalysis(p.cfg, old(p.Snapshot()), capture)
  {
    var inputBam := p.cfg.helpers.captureBam(capture);
    var sampleStr := p.cfg.helpers.libCaptureStr(capture);
    var i := 0;
    while i < |EventTypes|
      invariant 0 <= i <= |EventTypes|
      invariant p.jobs == old(p.jobs) + SvJobs(p.cfg, capture, EventTypes[..i])
      invariant p.reg == old(p.reg).(svs := RegisterSvs(old(p.reg).svs, p.cfg, capture, EventTypes[..i]))
    {
      var eventType := EventTypes[i];
      var svcaller := Svcaller(inputBam, eventType,
                               p.cfg.outdir + "/svs/" + sampleStr + "-" + EventName(eventType) + ".bam",
                               p.cfg.outdir + "/svs/" + sampleStr + "-" + EventName(eventType) + ".gtf",
                               p.cfg.refdata.referenceGenome, p.cfg.scratch);
      ghost var done := EventTypes[..i + 1];
      assert done[..i] == EventTypes[..i] && done[i] == eventType;
      assert svcaller == SvJob(p.cfg, capture, eventType);
      assert SvJobs(p.cfg, capture, done) == SvJobs(p.cfg, capture, EventTypes[..i]) + [svcaller];
      assert RegisterSvs(old(p.reg).svs, p.cfg, capture, done)
          == RegisterSvs(old(p.reg).svs, p.cfg, capture, EventTypes[..i])[(capture, eventType) := (svcaller.outputBam, svcaller.outputGtf)];
      p.Add(svcaller);
      p.SetCaptureSvs(capture, eventType, (svcaller.outputBam, svcaller.outputGtf));
      i := i + 1;
    }
    assert EventTypes[..i] == EventTypes;
  }

  /** A capture's single-capture analysis adds exactly four Svcaller jobs, for
      DEL, DUP, INV and TRA in that order, each reading the capture's BAM. */
  lemma SingleCaptureJobsInOrder(cfg: Config, st: State, c: UniqueCapture)
    ensures var r := SingleCaptureAnalysis(cfg, st, c);
      && |r.jobs| == |st.jobs| + 4
      && r.jobs[..|st.jobs|] == st.jobs
      && (forall i :: |st.jobs| <= i < |r.jobs| ==>
            r.jobs[i].Svcaller? && r.jobs[i].inputBam == cfg.helpers.captureBam(c)
            && r.jobs[i].eventType == EventTypes[i - |st.jobs|])
  {
  }

  /** The paths of a capture's structural-variant outputs are pairwise distinct. */
  lemma SvPathsDistinct(cfg: Config, c: UniqueCapture, e1: EventType, e2: EventType)
    ensures SvBamPath(cfg, c, e1) != SvGtfPath(cfg, c, e2)
    ensures e1 != e2 ==> SvBamPath(cfg, c, e1) != SvBamPath(cfg, c, e2)
    ensures e1 != e2 ==> SvGtfPath(cfg, c, e1) != SvGtfPath(cfg, c, e2)
  {
    var pre := cfg.outdir + "/svs/" + cfg.helpers.libCaptureStr(c) + "-";
    var n := |pre|;
    assert SvBamPath(cfg, c, e1) == pre + EventName(e1) + ".bam";
    assert SvGtfPath(cfg, c, e2) == pre + EventName(e2) + ".gtf";
    assert SvBamPath(cfg, c, e1)[n + 4] == 'b';
    assert SvGtfPath(cfg, c, e2)[n + 4] == 'g';
    if e1 != e2 {
      assert EventName(e1) != EventName(e2);
      assert SvBamPath(cfg, c, e1)[n..n + 3] == EventName(e1);
      assert SvBamPath(cfg, c, e2)[n..n + 3] == EventName(e2);
      assert SvGtfPath(cfg, c, e1)[n..n + 3] == EventName(e1);
      assert SvGtfPath(cfg, c, e2)[n..n + 3] == EventName(e2);
    }
  }

  lemma EveryEventListed(e: EventType)
    ensures e in EventTypes
  {
    match e
    case DEL => assert EventTypes[0] == e;
    case DUP => assert EventTypes[1] == e;
    case INV => assert EventTypes[2] == e;
    case TRA => assert EventTypes[3] == e;
  }

  /** After a capture's single-capture analysis the registry holds, for every
      event type E, the pair (outdir/svs/S-E.bam, outdir/svs/S-E.gtf), where S
      is the capture's library string; the eight paths are pairwise distinct;
      entries of other captures are unchanged and none are added for them. */
  lemma SingleCaptureRegistry(cfg: Config, st: State, c: UniqueCapture)
    ensures var svs := SingleCaptureAnalysis(cfg, st, c).reg.svs;
      && (forall e :: (c, e) in svs && svs[(c, e)] ==
            (cfg.outdir + "/svs/" + cfg.helpers.libCaptureStr(c) + "-" + EventName(e) + ".bam",
             cfg.outdir + "/svs/" + cfg.helpers.libCaptureStr(c) + "-" + EventName(e) + ".gtf"))
      && (forall e1, e2 :: svs[(c, e1)].0 != svs[(c, e2)].1)
      && (forall e1, e2 :: e1 != e2 ==> svs[(c, e1)].0 != svs[(c, e2)].0 && svs[(c, e1)].1 != svs[(c, e2)].1)
      && (forall k: (UniqueCapture, EventType) :: k.0 != c ==> (k in svs <==> k in st.reg.svs))
      && (forall k: (UniqueCapture, EventType) :: k.0 != c && k in st.reg.svs ==> svs[k] == st.reg.svs[k])
  {
    var svs := SingleCaptureAnalysis(cfg, st, c).reg.svs;
    RegisterSvsContents(st.reg.svs, cfg, c, EventTypes);
    forall e ensures (c, e) in svs && svs[(c, e)] == (SvBamPath(cfg, c, e), SvGtfPath(cfg, c, e)) {
      EveryEventListed(e);
    }
    forall e1, e2 ensures svs[(c, e1)].0 != svs[(c, e2)].1 {
      SvPathsDistinct(cfg, c, e1, e2);
    }
    forall e1, e2 | e1 != e2 ensures svs[(c, e1)].0 != svs[(c, e2)].0 && svs[(c, e1)].1 != svs[(c, e2)].1 {
      SvPathsDistinct(cfg, c, e1, e2);
    }
  }

  /** The Svcaller jobs of several captures, capture by capture. */
  function AllSvJobs(cfg: Config, cs: seq<UniqueCapture>): (r: seq<Job>)
    ensures |r| == 4 * |cs|
  {
    if cs == [] then [] else AllSvJobs(cfg, cs[..|cs| - 1]) + SvJobs(cfg, cs[|cs| - 1], EventTypes)
  }

  /** The single-capture analyses of the captures `cs`, in order: their jobs
      follow the existing ones, and only the structural-variant registry changes. */
  function SingleCaptureAnalyses(cfg: Config, st: State, cs: seq<UniqueCapture>): (r: State)
    ensures r.jobs == st.jobs + AllSvJobs(cfg, cs)
    ensures r.reg.captureResults == st.reg.captureResults && r.reg.pairResults == st.reg.pairResults && r.reg.pureCN == st.reg.pureCN
  {
    if cs == [] then st
    else
      var prev := SingleCaptureAnalyses(cfg, st, cs[..|cs| - 1]);
      var added := SvJobs(cfg, cs[|cs| - 1], EventTypes);
      assert st.jobs + AllSvJobs(cfg, cs) == prev.jobs + added by {
        Assoc3(st.jobs, AllSvJobs(cfg, cs[..|cs| - 1]), added);
      }
      SingleCaptureAnalysis(cfg, prev, cs[|cs| - 1])
  }

  /** After the single-capture analyses of `cs`, every capture of `cs` has its
      registered (BAM, GTF) pair for every event type, and the entries of the
      other captures are those before. */
  lemma {:induction false} SingleCaptureAnalysesSvs(cfg: Config, st: State, cs: seq<UniqueCapture>)
    ensures var svs := SingleCaptureAnalyses(cfg, st, cs).reg.svs;
      && (forall k: (UniqueCapture, EventType) :: k.0 in cs ==> k in svs && svs[k] == (SvBamPath(cfg, k.0, k.1), SvGtfPath(cfg, k.0, k.1)))
      && (forall k: (UniqueCapture, EventType) :: k.0 !in cs ==> (k in svs <==> k in st.reg.svs))
      && (forall k: (UniqueCapture, EventType) :: k.0 !in cs && k in st.reg.svs ==> svs[k] == st.reg.svs[k])
  {
    if cs != [] {
      var init := cs[..|cs| - 1];
      var c := cs[|cs| - 1];
      var prev := SingleCaptureAnalyses(cfg, st, init);
      SingleCaptureAnalysesSvs(cfg, st, init);
      SingleCaptureRegistry(cfg, prev, c);
      assert forall x :: x in cs <==> x in init || x == c;
    }
  }

  // ---------------------------------------------------------------------------
  // The normal x cancer pairing analysis

  /** Manta's output directory for a pairing: outdir/variants/C-N-manta-somatic. */
  function MantaDir(cfg: Config, n: UniqueCapture, c: UniqueCapture): Path {
    cfg.outdir + "/variants/" + cfg.helpers.libCaptureStr(c) + "-" + cfg.helpers.libCaptureStr(n) + "-manta-somatic"
  }

  /** `configure_manta`'s job: it fails with KeyError exactly when the cancer
      capture's panel has no entry among the reference targets; otherwise it
      reads the cancer (tumour) and normal BAMs and writes Manta's directory. */
  function MantaJob(cfg: Config, n: UniqueCapture, c: UniqueCapture): (r: Result<Job>)
    ensures r.Ok? <==> cfg.helpers.captureName(c.captureKitId) in cfg.refdata.targets
    ensures r.Ok? ==> && r.value.MantaSomaticSV?
                      && r.value.inputTumor == cfg.helpers.captureBam(c)
                      && r.value.inputNormal == cfg.helpers.captureBam(n)
                      && r.value.outputDir == MantaDir(cfg, n, c)
                      && r.value.targetBed == cfg.refdata.targets[cfg.helpers.captureName(c.captureKitId)].bedSlopped20
  {
    var targetName := cfg.helpers.captureName(c.captureKitId);
    if targetName !in cfg.refdata.targets then Err(KeyError(targetName))
    else
      Ok(MantaSomaticSV(cfg.helpers.captureBam(c), cfg.helpers.captureBam(n),
                        cfg.helpers.libCaptureStr(c), cfg.helpers.libCaptureStr(n),
                        cfg.refdata.referenceGenome, cfg.refdata.targets[targetName].bedSlopped20,
                        MantaDir(cfg, n, c)))
  }

  /** Manta's directory for a pairing is the one from which the Strelka job
      of `call_somatic_variants`, for the same pairing and output directory,
      takes its candidate indels: Strelka's workflow is configured with the
      candidate file inside it. */
  lemma MantaFeedsStrelka(cfg: Config, n: UniqueCapture, c: UniqueCapture,
                          a: VariantCalling.SomaticArgs, panel: TargetRefs)
    requires a.outdir == cfg.outdir && a.cancer == c && a.normal == n
    requires MantaJob(cfg, n, c).Ok?
    ensures var s := VariantCalling.StrelkaJob(cfg, a, panel);
      && s.inputIndelCandidates == MantaJob(cfg, n, c).value.outputDir
      && CallerCommands.StrelkaSteps(CallerCommands.ParamsOf(s)).Ok?
    ensures var s := VariantCalling.StrelkaJob(cfg, a, panel);
      Contains(CallerCommands.StrelkaSteps(CallerCommands.ParamsOf(s)).value[0],
               CallerCommands.IndelCandidatesFile(MantaJob(cfg, n, c).value.outputDir))
  {
    VariantCalling.StrelkaOutputs(cfg, a, panel);
    CallerCommands.StrelkaJobCommand(VariantCalling.StrelkaJob(cfg, a, panel));
  }

  method ConfigureManta(p: Pipeline, normal: UniqueCapture, cancer: UniqueCapture) returns (err: Option<Error>)
    modifies p
    ensures var r := MantaJob(p.cfg, normal, cancer);
      && (r.Ok? ==> err.None? && p.jobs == old(p.jobs) + [r.value])
      && (r.Err? ==> err == Some(r.error) && p.jobs == old(p.jobs))
      && p.reg == old(p.reg)
  {
    var cancerBam := p.cfg.helpers.captureBam(cancer);
    var normalBam := p.cfg.helpers.captureBam(normal);
    var targetName := p.cfg.helpers.captureName(cancer.captureKitId);
    var cancerCaptureStr := p.cfg.helpers.libCaptureStr(cancer);
    var normalCaptureStr := p.cfg.helpers.libCaptureStr(normal);
    if targetName !in p.cfg.refdata.targets {
      return Some(KeyError(targetName));
    }
    var mantaSv := MantaSomaticSV(cancerBam, normalBam, cancerCaptureStr, normalCaptureStr,
                                  p.cfg.refdata.referenceGenome,
                                  p.cfg.refdata.targets[targetName].bedSlopped20,
                                  p.cfg.outdir + "/variants/" + cancerCaptureStr + "-" + normalCaptureStr + "-manta-somatic");
    p.Add(mantaSv);
    err := None;
  }

  /** The cancer capture's panel declares purity/ploidy targets (a truthy
      'purecn_targets' entry). */
  predicate PurityEnabled(cfg: Config, c: UniqueCapture) {
    var name := cfg.helpers.captureName(c.captureKitId);
    name in cfg.refdata.targets && Truthy(cfg.refdata.targets[name].purecnTargets)
  }

  /** `configure_purecn` is not part of this model; it stands here as one
      PureCN job that registers the pairing's purity tables. */
  function PureCNStep(cfg: Config, st: State, n: UniqueCapture, c: UniqueCapture): State {
    var outputs := cfg.helpers.purecnOutputs(n, c);
    State(st.jobs + [PureCN(n, c, outputs)], st.reg.(pureCN := st.reg.pureCN[(n, c) := outputs]))
  }

  method ConfigurePureCN(p: Pipeline, normal: UniqueCapture, cancer: UniqueCapture)
    modifies p
    ensures p.Snapshot() == PureCNStep(p.cfg, old(p.Snapshot()), normal, cancer)
  {
    var outputs := p.cfg.helpers.purecnOutputs(normal, cancer);
    p.Add(PureCN(normal, cancer, outputs));
    p.SetPureCN(normal, cancer, outputs);
  }

  /** All four event types of a capture have registered outputs. */
  predicate SvsRegistered(svs: map<(UniqueCapture, EventType), (Path, Path)>, c: UniqueCapture) {
    (c, DEL) in svs && (c, DUP) in svs && (c, INV) in svs && (c, TRA) in svs
  }

  /** Every registry entry the copy-number plot of a pairing reads is present. */
  predicate CnaInputsRegistered(reg: Registry, n: UniqueCapture, c: UniqueCapture) {
    && (n, c) in reg.pairResults
    && (n, c) in reg.pureCN
    && c in reg.captureResults
    && n in reg.captureResults
    && SvsRegistered(reg.svs, c)
    && SvsRegistered(reg.svs, n)
  }

  /** The GTF components of a capture's registered outputs, in event order. */
  function RegisteredGtfs(svs: map<(UniqueCapture, EventType), (Path, Path)>, c: UniqueCapture): (r: seq<Path>)
    requires SvsRegistered(svs, c)
    ensures |r| == 4
    ensures forall i :: 0 <= i < 4 ==> (c, EventTypes[i]) in svs && r[i] == svs[(c, EventTypes[i])].1
  {
    [svs[(c, DEL)].1, svs[(c, DUP)].1, svs[(c, INV)].1, svs[(c, TRA)].1]
  }

  /** `configure_liqbio_cna`'s job. It fails with KeyError exactly when an
      entry it reads is missing from the registry. Its eight structural-variant
      inputs are the registered GTF paths of the cancer capture (T) and of the
      normal capture (N) for DEL, DUP, INV and TRA; its purity inputs are the
      pairing's registered purity tables; its outputs are named normal first. */
  function CnaPlotJob(cfg: Config, reg: Registry, n: UniqueCapture, c: UniqueCapture): (r: Result<Job>)
    ensures r.Ok? <==> CnaInputsRegistered(reg, n, c)
    ensures r.Ok? ==>
      && r.value.LiqbioCNAPlot?
      && |r.value.inputSvcallerT| == 4 && |r.value.inputSvcallerN| == 4
      && (forall i :: 0 <= i < 4 ==>
            && r.value.inputSvcallerT[i] == reg.svs[(c, EventTypes[i])].1
            && r.value.inputSvcallerN[i] == reg.svs[(n, EventTypes[i])].1)
      && r.value.inputPurecnCsv == reg.pureCN[(n, c)].csv
      && r.value.inputPurecnGenesCsv == reg.pureCN[(n, c)].genesCsv
      && r.value.inputPurecnLohCsv == reg.pureCN[(n, c)].lohCsv
      && r.value.inputPurecnVariantsCsv == reg.pureCN[(n, c)].variantsCsv
      && r.value.outputPlotPng == cfg.outdir + "/qc/" + cfg.helpers.libCaptureStr(n) + "-" + cfg.helpers.libCaptureStr(c) + "-liqbio-cna.png"
  {
    // The lookups in the order the source makes them: the pairing's results,
    // the cancer capture's results, the purity tables held with the pairing's
    // results, the normal capture's results, then the cancer's and the
    // normal's structural variants. The result containers are taken to be
    // plain dictionaries, and the purity tables, an attribute of the
    // pairing's results, are treated the same way. Each error names the
    // registry that was read, not the missing key itself.
    if (n, c) !in reg.pairResults then Err(KeyError("normal_cancer_pair_to_results"))
    else if c !in reg.captureResults then Err(KeyError("capture_to_results"))
    else if (n, c) !in reg.pureCN then Err(KeyError("pureCN_outputs"))
    else if n !in reg.captureResults then Err(KeyError("capture_to_results"))
    else if !SvsRegistered(reg.svs, c) || !SvsRegistered(reg.svs, n) then Err(KeyError("svs"))
    else
      var pair := reg.pairResults[(n, c)];
      var purecn := reg.pureCN[(n, c)];
      var tumor := reg.captureResults[c];
      var normal := reg.captureResults[n];
      var normalStr := cfg.helpers.libCaptureStr(n);
      var cancerStr := cfg.helpers.libCaptureStr(c);
      Ok(LiqbioCNAPlot(tumor.cnr, tumor.cns, normal.cnr, normal.cns, pair.vcfAddsampleOutput,
                       purecn.csv, purecn.genesCsv, purecn.lohCsv, purecn.variantsCsv,
                       RegisteredGtfs(reg.svs, c), RegisteredGtfs(reg.svs, n),
                       cfg.helpers.veppedGermlineVcf(n), pair.veppedVcf,
                       cfg.outdir + "/qc/" + normalStr + "-" + cancerStr + "-liqbio-cna.png",
                       cfg.outdir + "/variants/" + normalStr + "-" + cancerStr + "-liqbio-cna.json",
                       cfg.outdir + "/qc/" + normalStr + "-" + cancerStr + "-liqbio-purity.json"))
  }

  method ConfigureLiqbioCna(p: Pipeline, normal: UniqueCapture, cancer: UniqueCapture) returns (err: Option<Error>)
    modifies p
    ensures var r := CnaPlotJob(p.cfg, old(p.reg), normal, cancer);
      && (r.Ok? ==> err.None? && p.jobs == old(p.jobs) + [r.value])
      && (r.Err? ==> err == Some(r.error) && p.jobs == old(p.jobs))
      && p.reg == old(p.reg)
  {
    if (normal, cancer) !in p.reg.pairResults {
      return Some(KeyError("normal_cancer_pair_to_results"));
    }
    var tumorVsNormalResults := p.reg.pairResults[(normal, cancer)];
    if cancer !in p.reg.captureResults {
      return Some(KeyError("capture_to_results"));
    }
    var tumorResults := p.reg.captureResults[cancer];
    if (normal, cancer) !in p.reg.pureCN {
      return Some(KeyError("pureCN_outputs"));
    }
    var pureCNOutputs := p.reg.pureCN[(normal, cancer)];
    var normalStr := p.cfg.helpers.libCaptureStr(normal);
    var cancerStr := p.cfg.helpers.libCaptureStr(cancer);
    if normal !in p.reg.captureResults {
      return Some(KeyError("capture_to_results"));
    }
    var normalResults := p.reg.captureResults[normal];
    if !SvsRegistered(p.reg.svs, cancer) || !SvsRegistered(p.reg.svs, normal) {
      return Some(KeyError("svs"));
    }
    var liqbioCna := LiqbioCNAPlot(
      tumorResults.cnr, tumorResults.cns, normalResults.cnr, normalResults.cns,
      tumorVsNormalResults.vcfAddsampleOutput,
      pureCNOutputs.csv, pureCNOutputs.genesCsv, pureCNOutputs.lohCsv, pureCNOutputs.variantsCsv,
      [p.reg.svs[(cancer, DEL)].1, p.reg.svs[(cancer, DUP)].1, p.reg.svs[(cancer, INV)].1, p.reg.svs[(cancer, TRA)].1],
      [p.reg.svs[(normal, DEL)].1, p.reg.svs[(normal, DUP)].1, p.reg.svs[(normal, INV)].1, p.reg.svs[(normal, TRA)].1],
      p.cfg.helpers.veppedGermlineVcf(normal), tumorVsNormalResults.veppedVcf,
      p.cfg.outdir + "/qc/" + normalStr + "-" + cancerStr + "-liqbio-cna.png",
      p.cfg.outdir + "/variants/" + normalStr + "-" + cancerStr + "-liqbio-cna.json",
      p.cfg.outdir + "/qc/" + normalStr + "-" + cancerStr + "-liqbio-purity.json");
    p.Add(liqbioCna);
    err := None;
  }

  /** The copy-number plot reads the registry only through the entries it looks up. */
  lemma CnaPlotJobLocal(cfg: Config, reg1: Registry, reg2: Registry, n: UniqueCapture, c: UniqueCapture)
    requires reg1.svs == reg2.svs && reg1.captureResults == reg2.captureResults
    requires reg1.pairResults == reg2.pairResults
    requires (n, c) in reg1.pureCN && (n, c) in reg2.pureCN && reg1.pureCN[(n, c)] == reg2.pureCN[(n, c)]
    ensures CnaPlotJob(cfg, reg1, n, c) == CnaPlotJob(cfg, reg2, n, c)
  {
  }

  /** `configure_panel_analysis_cancer_vs_normal_liqbio`, as a state transformer. */
  function PairingAnalysis(cfg: Config, st: State, n: UniqueCapture, c: UniqueCapture): Result<State>
  {
    var manta :- MantaJob(cfg, n, c);
    var st1 := State(st.jobs + [manta], st.reg);
    if PurityEnabled(cfg, c) then
      var st2 := PureCNStep(cfg, st1, n, c);
      var cna :- CnaPlotJob(cfg, st2.reg, n, c);
      Ok(State(st2.jobs + [cna], st2.reg))
    else
      Ok(st1)
  }

  /** A pairing analysis succeeds exactly when the cancer capture's panel is
      known and, with purity targets, the plot's inputs are registered once
      the purity job has registered its tables. Without purity targets it adds
      Manta's job alone; with them Manta's, the purity job and the plot, and
      it registers the purity tables. */
  lemma PairingAnalysisOutcome(cfg: Config, st: State, n: UniqueCapture, c: UniqueCapture)
    ensures var r := PairingAnalysis(cfg, st, n, c);
      && (r.Ok? <==>
            && cfg.helpers.captureName(c.captureKitId) in cfg.refdata.targets
            && (PurityEnabled(cfg, c) ==> CnaInputsRegistered(PureCNStep(cfg, st, n, c).reg, n, c)))
      && (r.Ok? && !PurityEnabled(cfg, c) ==>
            && r.value.jobs == st.jobs + [MantaJob(cfg, n, c).value]
            && r.value.reg == st.reg)
      && (r.Ok? && PurityEnabled(cfg, c) ==>
            && |r.value.jobs| == |st.jobs| + 3
            && r.value.jobs[..|st.jobs| + 1] == st.jobs + [MantaJob(cfg, n, c).value]
            && r.value.jobs[|st.jobs| + 1] == PureCN(n, c, cfg.helpers.purecnOutputs(n, c))
            && r.value.jobs[|st.jobs| + 2].LiqbioCNAPlot?
            && r.value.reg == st.reg.(pureCN := st.reg.pureCN[(n, c) := cfg.helpers.purecnOutputs(n, c)]))
  {
  }

  method ConfigurePanelAnalysisCancerVsNormalLiqbio(p: Pipeline, normal: UniqueCapture, cancer: UniqueCapture)
    returns (err: Option<Error>)
    modifies p
    ensures Reflects(PairingAnalysis(p.cfg, old(p.Snapshot()), normal, cancer), err, p.Snapshot())
  {
    var captureName := p.cfg.helpers.captureName(cancer.captureKitId);
    err := ConfigureManta(p, normal, cancer);
    if err.Some? {
      return;
    }
    if Truthy(p.cfg.refdata.targets[captureName].purecnTargets) {
      ConfigurePureCN(p, normal, cancer);
      err := ConfigureLiqbioCna(p, normal, cancer);
    }
  }

  /** A pairing whose panel has no purity targets adds no purity or
      copy-number job and registers no purity tables. */
  lemma NoPurityWithoutTargets(cfg: Config, st: State, n: UniqueCapture, c: UniqueCapture)
    requires !PurityEnabled(cfg, c)
    ensures var r := PairingAnalysis(cfg, st, n, c);
      r.Ok? ==> && (forall i :: |st.jobs| <= i < |r.value.jobs| ==> !r.value.jobs[i].PureCN? && !r.value.jobs[i].LiqbioCNAPlot?)
                && r.value.reg.pureCN == st.reg.pureCN
  {
  }

  // ---------------------------------------------------------------------------
  // All panel analyses

  /** The (normal, cancer) pairs of one normal capture, in cancer order. */
  function RowPairs(n: UniqueCapture, cs: seq<UniqueCapture>): (r: seq<(UniqueCapture, UniqueCapture)>)
    ensures |r| == |cs|
    ensures forall j :: 0 <= j < |cs| ==> r[j] == (n, cs[j])
  {
    if cs == [] then [] else RowPairs(n, cs[..|cs| - 1]) + [(n, cs[|cs| - 1])]
  }

  /** The cartesian product normals x cancers, with the normal loop outermost
      (see `PairListOrder`). */
  function PairList(ns: seq<UniqueCapture>, cs: seq<UniqueCapture>): seq<(UniqueCapture, UniqueCapture)>
  {
    if ns == [] then [] else PairList(ns[..|ns| - 1], cs) + RowPairs(ns[|ns| - 1], cs)
  }

  lemma {:induction false} PairListLength(ns: seq<UniqueCapture>, cs: seq<UniqueCapture>)
    ensures |PairList(ns, cs)| == |ns| * |cs|
  {
    if ns != [] {
      PairListLength(ns[..|ns| - 1], cs);
      assert (|ns| - 1) * |cs| + |cs| == |ns| * |cs|;
    }
  }

  /** Pair (ns[i], cs[j]) comes at position i * |cs| + j: every normal is
      paired with every cancer, the normal loop outermost. */
  lemma {:induction false} PairListOrder(ns: seq<UniqueCapture>, cs: seq<UniqueCapture>, i: nat, j: nat)
    requires i < |ns| && j < |cs|
    ensures i * |cs| + j < |PairList(ns, cs)|
    ensures PairList(ns, cs)[i * |cs| + j] == (ns[i], cs[j])
  {
    var init := PairList(ns[..|ns| - 1], cs);
    PairListLength(ns, cs);
    PairListLength(ns[..|ns| - 1], cs);
    MulBelow(i, |ns|, j, |cs|);
    if i < |ns| - 1 {
      PairListOrder(ns[..|ns| - 1], cs, i, j);
    } else {
      assert i * |cs| + j == |init| + j;
    }
  }

  lemma MulBelow(i: nat, m: nat, j: nat, k: nat)
    requires i < m && j < k
    ensures i * k + j < m * k
  {
    assert (i + 1) * k <= m * k;
  }

  /** The pairing analyses of `pairs`, in order; the first error aborts. */
  function Pairings(cfg: Config, st: State, pairs: seq<(UniqueCapture, UniqueCapture)>): Result<State>
  {
    if pairs == [] then Ok(st)
    else
      var s :- Pairings(cfg, st, pairs[..|pairs| - 1]);
      PairingAnalysis(cfg, s, pairs[|pairs| - 1].0, pairs[|pairs| - 1].1)
  }

  lemma PairingsStep(cfg: Config, st: State, pairs: seq<(UniqueCapture, UniqueCapture)>, pair: (UniqueCapture, UniqueCapture))
    ensures Pairings(cfg, st, pairs).Ok? ==>
      Pairings(cfg, st, pairs + [pair]) == PairingAnalysis(cfg, Pairings(cfg, st, pairs).value, pair.0, pair.1)
    ensures Pairings(cfg, st, pairs).Err? ==> Pairings(cfg, st, pairs + [pair]) == Pairings(cfg, st, pairs)
  {
    assert (pairs + [pair])[..|pairs|] == pairs;
  }

  /** Once a pairing analysis has failed, later pairings cannot undo it. */
  lemma {:induction false} PairingsErrSticky(cfg: Config, st: State, xs: seq<(UniqueCapture, UniqueCapture)>,
                                             ys: seq<(UniqueCapture, UniqueCapture)>)
    requires Pairings(cfg, st, xs).Err?
    ensures Pairings(cfg, st, xs + ys) == Pairings(cfg, st, xs)
  {
    if ys == [] {
      assert xs + ys == xs;
    } else {
      var init := ys[..|ys| - 1];
      var y := ys[|ys| - 1];
      PairingsErrSticky(cfg, st, xs, init);
      assert xs + ys == (xs + init) + [y] by {
        assert ys == init + [y];
      }
      PairingsStep(cfg, st, xs + init, y);
    }
  }

  lemma {:induction false} PairListAppend(ns1: seq<UniqueCapture>, ns2: seq<UniqueCapture>, cs: seq<UniqueCapture>)
    ensures PairList(ns1 + ns2, cs) == PairList(ns1, cs) + PairList(ns2, cs)
  {
    if ns2 == [] {
      assert ns1 + ns2 == ns1;
    } else {
      var init := ns2[..|ns2| - 1];
      var last := ns2[|ns2| - 1];
      var whole := ns1 + ns2;
      assert whole[..|whole| - 1] == ns1 + init;
      assert whole[|whole| - 1] == last;
      PairListAppend(ns1, init, cs);
      calc {
        PairList(whole, cs);
        PairList(ns1 + init, cs) + RowPairs(last, cs);
        (PairList(ns1, cs) + PairList(init, cs)) + RowPairs(last, cs);
        { Assoc3(PairList(ns1, cs), PairList(init, cs), RowPairs(last, cs)); }
        PairList(ns1, cs) + (PairList(init, cs) + RowPairs(last, cs));
        PairList(ns1, cs) + PairList(ns2, cs);
      }
    }
  }

  /** `configure_panel_analyses_liqbio`, as a state transformer: the
      single-capture analysis of every non-WGS capture, then the pairing
      analysis of every (normal, cancer) pair. */
  function PanelAnalysesLiqbio(cfg: Config, st: State): Result<State> {
    Pairings(cfg, SingleCaptureAnalyses(cfg, st, cfg.mappedNoWgs), PairList(cfg.mappedNormal, cfg.mappedCancer))
  }

  lemma SliceJoin<T>(s: seq<T>, k: nat)
    requires k <= |s|
    ensures s[..k] + s[k..] == s
  {
  }

  lemma PairListSnoc(ns: seq<UniqueCapture>, a: nat, cs: seq<UniqueCapture>)
    requires a < |ns|
    ensures PairList(ns[..a + 1], cs) == PairList(ns[..a], cs) + RowPairs(ns[a], cs)
  {
    assert ns[..a + 1] == ns[..a] + [ns[a]];
    PairListAppend(ns[..a], [ns[a]], cs);
    PairListSingle(ns[a], cs);
  }

  lemma PairListSingle(n: UniqueCapture, cs: seq<UniqueCapture>)
    ensures PairList([n], cs) == RowPairs(n, cs)
  {
    assert [n][..0] == [];
  }

  lemma RowPairsSplit(n: UniqueCapture, cs: seq<UniqueCapture>, k: nat)
    requires k <= |cs|
    ensures RowPairs(n, cs) == RowPairs(n, cs[..k]) + RowPairs(n, cs[k..])
  {
  }

  /** The single-capture analysis of each of `captures`, in order. */
  method ConfigureSingleCaptureAnalyses(p: Pipeline, captures: seq<UniqueCapture>)
    modifies p
    ensures p.Snapshot() == SingleCaptureAnalyses(p.cfg, old(p.Snapshot()), captures)
  {
    ghost var st0 := p.Snapshot();
    var i := 0;
    while i < |captures|
      invariant 0 <= i <= |captures|
      invariant p.Snapshot() == SingleCaptureAnalyses(p.cfg, st0, captures[..i])
    {
      ghost var done := captures[..i + 1];
      assert done[..i] == captures[..i] && done[i] == captures[i];
      assert SingleCaptureAnalyses(p.cfg, st0, done)
          == SingleCaptureAnalysis(p.cfg, SingleCaptureAnalyses(p.cfg, st0, captures[..i]), captures[i]);
      ConfigureSingleCaptureAnalysisLiqbio(p, captures[i]);
      i := i + 1;
    }
    assert captures[..i] == captures;
  }

  /** A pairing that fails within a normal's row makes the whole row fail with its error. */
  lemma RowFailAt(cfg: Config, st: State, done: seq<(UniqueCapture, UniqueCapture)>, n: UniqueCapture,
                  cs: seq<UniqueCapture>, b: nat)
    requires b < |cs|
    requires Pairings(cfg, st, done + RowPairs(n, cs[..b + 1])).Err?
    ensures Pairings(cfg, st, done + RowPairs(n, cs)) == Pairings(cfg, st, done + RowPairs(n, cs[..b + 1]))
  {
    RowPairsSplit(n, cs, b + 1);
    Assoc3(done, RowPairs(n, cs[..b + 1]), RowPairs(n, cs[b + 1..]));
    PairingsErrSticky(cfg, st, done + RowPairs(n, cs[..b + 1]), RowPairs(n, cs[b + 1..]));
  }

  /** A normal's row that fails makes the whole pair list fail with its error. */
  lemma PairListFailAt(cfg: Config, st: State, ns: seq<UniqueCapture>, cs: seq<UniqueCapture>, a: nat)
    requires a < |ns|
    requires Pairings(cfg, st, PairList(ns[..a + 1], cs)).Err?
    ensures Pairings(cfg, st, PairList(ns, cs)) == Pairings(cfg, st, PairList(ns[..a + 1], cs))
  {
    SliceJoin(ns, a + 1);
    PairListAppend(ns[..a + 1], ns[a + 1..], cs);
    PairingsErrSticky(cfg, st, PairList(ns[..a + 1], cs), PairList(ns[a + 1..], cs));
  }

  lemma RowPairsSnoc(n: UniqueCapture, cs: seq<UniqueCapture>, b: nat)
    requires b < |cs|
    ensures RowPairs(n, cs[..b + 1]) == RowPairs(n, cs[..b]) + [(n, cs[b])]
  {
    assert cs[..b + 1][..b] == cs[..b];
  }

  /** The inner loop of `configure_panel_analyses_liqbio`: the pairing
      analyses of one normal capture with every cancer capture, in order. */
  method ConfigureNormalPairings(p: Pipeline, normal: UniqueCapture, cancers: seq<UniqueCapture>,
                                 ghost st: State, ghost done: seq<(UniqueCapture, UniqueCapture)>)
    returns (err: Option<Error>)
    requires Pairings(p.cfg, st, done) == Ok(p.Snapshot())
    modifies p
    ensures Reflects(Pairings(p.cfg, st, done + RowPairs(normal, cancers)), err, p.Snapshot())
  {
    var b := 0;
    assert done + RowPairs(normal, cancers[..0]) == done;
    while b < |cancers|
      invariant 0 <= b <= |cancers|
      invariant Pairings(p.cfg, st, done + RowPairs(normal, cancers[..b])) == Ok(p.Snapshot())
    {
      ghost var prev := done + RowPairs(normal, cancers[..b]);
      err := ConfigurePanelAnalysisCancerVsNormalLiqbio(p, normal, cancers[b]);
      RowPairsSnoc(normal, cancers, b);
      Assoc3(done, RowPairs(normal, cancers[..b]), [(normal, cancers[b])]);
      PairingsStep(p.cfg, st, prev, (normal, cancers[b]));
      if err.Some? {
        RowFailAt(p.cfg, st, done, normal, cancers, b);
        return;
      }
      b := b + 1;
    }
    assert cancers[..b] == cancers;
    err := None;
  }

  /** `configure_panel_analyses_liqbio`. */
  method ConfigurePanelAnalysesLiqbio(p: Pipeline) returns (err: Option<Error>)
    modifies p
    ensures Reflects(PanelAnalysesLiqbio(p.cfg, old(p.Snapshot())), err, p.Snapshot())
  {
    ConfigureSingleCaptureAnalyses(p, p.cfg.mappedNoWgs);
    ghost var st1 := p.Snapshot();
    var normals := p.cfg.mappedNormal;
    var cancers := p.cfg.mappedCancer;
    var a := 0;
    while a < |normals|
      invariant 0 <= a <= |normals|
      invariant Pairings(p.cfg, st1, PairList(normals[..a], cancers)) == Ok(p.Snapshot())
    {
      PairListSnoc(normals, a, cancers);
      err := ConfigureNormalPairings(p, normals[a], cancers, st1, PairList(normals[..a], cancers));
      if err.Some? {
        PairListFailAt(p.cfg, st1, normals, cancers, a);
        return;
      }
      a := a + 1;
    }
    assert normals[..a] == normals;
    err := None;
  }

  // ---------------------------------------------------------------------------
  // The order of the jobs the panel analyses add

  /** The jobs one pairing analysis adds on top of a registry (none if it fails). */
  function PairingJobs(cfg: Config, reg: Registry, pair: (UniqueCapture, UniqueCapture)): seq<Job> {
    match PairingAnalysis(cfg, State([], reg), pair.0, pair.1)
    case Ok(s) => s.jobs
    case Err(_) => []
  }

  /** The jobs of the pairing analyses of `pairs`, pair by pair. */
  function AllPairingJobs(cfg: Config, reg: Registry, pairs: seq<(UniqueCapture, UniqueCapture)>): seq<Job> {
    if pairs == [] then [] else AllPairingJobs(cfg, reg, pairs[..|pairs| - 1]) + PairingJobs(cfg, reg, pairs[|pairs| - 1])
  }

  /** A pairing analysis appends its jobs after the existing ones, and neither
      its outcome nor its jobs depend on the existing jobs or on purity tables
      registered for other pairings. */
  lemma PairingAnalysisLocal(cfg: Config, st: State, reg: Registry, n: UniqueCapture, c: UniqueCapture)
    requires reg.svs == st.reg.svs && reg.captureResults == st.reg.captureResults
    requires reg.pairResults == st.reg.pairResults
    ensures PairingAnalysis(cfg, st, n, c).Ok? <==> PairingAnalysis(cfg, State([], reg), n, c).Ok?
    ensures PairingAnalysis(cfg, st, n, c).Ok? ==>
      PairingAnalysis(cfg, st, n, c).value.jobs == st.jobs + PairingJobs(cfg, reg, (n, c))
  {
    var outs := cfg.helpers.purecnOutputs(n, c);
    var reg1 := st.reg.(pureCN := st.reg.pureCN[(n, c) := outs]);
    var reg2 := reg.(pureCN := reg.pureCN[(n, c) := outs]);
    CnaPlotJobLocal(cfg, reg1, reg2, n, c);
  }

  /** The pairing analyses of `pairs` add, after the existing jobs, the jobs of
      each pair in the order of `pairs`, and leave the structural-variant and
      result registries as they were. */
  lemma {:induction false} PairingsOrder(cfg: Config, st: State, pairs: seq<(UniqueCapture, UniqueCapture)>)
    ensures var r := Pairings(cfg, st, pairs);
      r.Ok? ==> && r.value.jobs == st.jobs + AllPairingJobs(cfg, st.reg, pairs)
                && r.value.reg.svs == st.reg.svs
                && r.value.reg.captureResults == st.reg.captureResults
                && r.value.reg.pairResults == st.reg.pairResults
  {
    if pairs != [] {
      var init := pairs[..|pairs| - 1];
      var last := pairs[|pairs| - 1];
      PairingsOrder(cfg, st, init);
      var prev := Pairings(cfg, st, init);
      if prev.Ok? {
        PairingAnalysisLocal(cfg, prev.value, st.reg, last.0, last.1);
        Assoc3(st.jobs, AllPairingJobs(cfg, st.reg, init), PairingJobs(cfg, st.reg, last));
      }
    }
  }

  /** What one pairing adds: Manta's job alone, or, when the cancer panel has
      purity targets, Manta's job, the purity job and the copy-number plot. */
  lemma PairingJobsShape(cfg: Config, reg: Registry, n: UniqueCapture, c: UniqueCapture)
    requires PairingAnalysis(cfg, State([], reg), n, c).Ok?
    ensures var js := PairingJobs(cfg, reg, (n, c));
      && (!PurityEnabled(cfg, c) ==> js == [MantaJob(cfg, n, c).value])
      && (PurityEnabled(cfg, c) ==>
            && |js| == 3
            && js[0] == MantaJob(cfg, n, c).value
            && js[1] == PureCN(n, c, cfg.helpers.purecnOutputs(n, c))
            && js[2] == CnaPlotJob(cfg, reg.(pureCN := reg.pureCN[(n, c) := cfg.helpers.purecnOutputs(n, c)]), n, c).value)
  {
  }

  /** `configure_panel_analyses_liqbio` adds the single-capture jobs of every
      non-WGS capture first, then the jobs of each (normal, cancer) pair in
      the order of `PairList` (normal loop outermost). */
  lemma PanelAnalysesOrder(cfg: Config, st: State)
    ensures var r := PanelAnalysesLiqbio(cfg, st);
      r.Ok? ==>
        r.value.jobs ==
          st.jobs + AllSvJobs(cfg, cfg.mappedNoWgs)
          + AllPairingJobs(cfg, SingleCaptureAnalyses(cfg, st, cfg.mappedNoWgs).reg, PairList(cfg.mappedNormal, cfg.mappedCancer))
  {
    PairingsOrder(cfg, SingleCaptureAnalyses(cfg, st, cfg.mappedNoWgs), PairList(cfg.mappedNormal, cfg.mappedCancer));
  }

  /** The smallest liquid-biopsy run: captures N1 and C1, N1 the only normal,
      C1 the only cancer, C1's panel with purity targets, and the per-capture
      and per-pairing results registered by the earlier analyses. The run adds
      eleven jobs: four Svcaller jobs for N1, four for C1, Manta, PureCN and the
      copy-number plot, and the plot's eight structural-variant inputs are the
      GTF outputs of the eight Svcaller jobs. */
  lemma SmallestRun(cfg: Config, st: State, n1: UniqueCapture, c1: UniqueCapture)
    requires cfg.mappedNoWgs == [n1, c1] && cfg.mappedNormal == [n1] && cfg.mappedCancer == [c1]
    requires PurityEnabled(cfg, c1)
    requires (n1, c1) in st.reg.pairResults && n1 in st.reg.captureResults && c1 in st.reg.captureResults
    ensures var r := PanelAnalysesLiqbio(cfg, st);
      && r.Ok?
      && |r.value.jobs| == |st.jobs| + 11
      && r.value.jobs[..|st.jobs|] == st.jobs
      && var added := r.value.jobs[|st.jobs|..];
      && (forall i :: 0 <= i < 8 ==> added[i].Svcaller?)
      && added[8] == MantaJob(cfg, n1, c1).value
      && added[9].PureCN?
      && added[10].LiqbioCNAPlot?
      && |added[10].inputSvcallerN| == 4
      && |added[10].inputSvcallerT| == 4
      && (forall i :: 0 <= i < 4 ==> added[10].inputSvcallerN[i] == added[i].outputGtf)
      && (forall i :: 0 <= i < 4 ==> added[10].inputSvcallerT[i] == added[4 + i].outputGtf)
  {
    var reg2 := SmallestRunShape(cfg, st, n1, c1);
    var manta := MantaJob(cfg, n1, c1).value;
    var pc := PureCN(n1, c1, cfg.helpers.purecnOutputs(n1, c1));
    SmallestRunAdded(cfg, reg2, n1, c1, manta, pc);
    var added := SvJobs(cfg, n1, EventTypes) + SvJobs(cfg, c1, EventTypes) + [manta, pc, CnaPlotJob(cfg, reg2, n1, c1).value];
    var jobs := PanelAnalysesLiqbio(cfg, st).value.jobs;
    assert jobs[|st.jobs|..] == added;
    assert jobs[..|st.jobs|] == st.jobs;
  }

  /** The smallest run, unfolded: the single-capture stage for N1 and C1, then
      the one pairing on the registry `reg2` it leaves (with C1's purity tables). */
  lemma SmallestRunShape(cfg: Config, st: State, n1: UniqueCapture, c1: UniqueCapture) returns (reg2: Registry)
    requires cfg.mappedNoWgs == [n1, c1] && cfg.mappedNormal == [n1] && cfg.mappedCancer == [c1]
    requires PurityEnabled(cfg, c1)
    requires (n1, c1) in st.reg.pairResults && n1 in st.reg.captureResults && c1 in st.reg.captureResults
    ensures CnaInputsRegistered(reg2, n1, c1)
    ensures forall e :: (n1, e) in reg2.svs && reg2.svs[(n1, e)].1 == SvGtfPath(cfg, n1, e)
    ensures forall e :: (c1, e) in reg2.svs && reg2.svs[(c1, e)].1 == SvGtfPath(cfg, c1, e)
    ensures PanelAnalysesLiqbio(cfg, st).Ok?
    ensures PanelAnalysesLiqbio(cfg, st).value.jobs ==
      st.jobs + (SvJobs(cfg, n1, EventTypes) + SvJobs(cfg, c1, EventTypes)
                 + [MantaJob(cfg, n1, c1).value, PureCN(n1, c1, cfg.helpers.purecnOutputs(n1, c1)),
                    CnaPlotJob(cfg, reg2, n1, c1).value])
  {
    var s1 := SingleCaptureAnalyses(cfg, st, [n1, c1]);
    var svJobs := SvJobs(cfg, n1, EventTypes) + SvJobs(cfg, c1, EventTypes);
    TwoCapturesStage(cfg, st, n1, c1);
    assert PanelAnalysesLiqbio(cfg, st) == PairingAnalysis(cfg, s1, n1, c1) by {
      PairListSingle(n1, [c1]);
      assert PairList([n1], [c1]) == [] + [(n1, c1)];
      PairingsStep(cfg, s1, [], (n1, c1));
    }
    reg2 := s1.reg.(pureCN := s1.reg.pureCN[(n1, c1) := cfg.helpers.purecnOutputs(n1, c1)]);
    var manta := MantaJob(cfg, n1, c1).value;
    var pc := PureCN(n1, c1, cfg.helpers.purecnOutputs(n1, c1));
    assert CnaInputsRegistered(reg2, n1, c1);
    var cna := CnaPlotJob(cfg, reg2, n1, c1).value;
    assert PanelAnalysesLiqbio(cfg, st) == Ok(State(s1.jobs + [manta, pc, cna], reg2)) by {
      PairingWithPurity(cfg, s1, n1, c1);
    }
    assert s1.jobs + [manta, pc, cna] == st.jobs + (svJobs + [manta, pc, cna]) by {
      Assoc3(st.jobs, svJobs, [manta, pc, cna]);
    }
  }

  /** The single-capture stage of two captures. */
  lemma TwoCapturesStage(cfg: Config, st: State, n1: UniqueCapture, c1: UniqueCapture)
    ensures var s1 := SingleCaptureAnalyses(cfg, st, [n1, c1]);
      && s1.jobs == st.jobs + (SvJobs(cfg, n1, EventTypes) + SvJobs(cfg, c1, EventTypes))
      && (forall e :: (n1, e) in s1.reg.svs && s1.reg.svs[(n1, e)].1 == SvGtfPath(cfg, n1, e))
      && (forall e :: (c1, e) in s1.reg.svs && s1.reg.svs[(c1, e)].1 == SvGtfPath(cfg, c1, e))
  {
    TwoCapturesJobs(cfg, st, n1, c1);
    TwoCapturesSvs(cfg, st, n1, c1, n1);
    TwoCapturesSvs(cfg, st, n1, c1, c1);
  }

  lemma TwoCapturesJobs(cfg: Config, st: State, n1: UniqueCapture, c1: UniqueCapture)
    ensures SingleCaptureAnalyses(cfg, st, [n1, c1]).jobs == st.jobs + (SvJobs(cfg, n1, EventTypes) + SvJobs(cfg, c1, EventTypes))
  {
    assert [n1, c1][..1] == [n1];
    assert [n1][..0] == [];
    assert AllSvJobs(cfg, [n1, c1]) == SvJobs(cfg, n1, EventTypes) + SvJobs(cfg, c1, EventTypes);
  }

  lemma TwoCapturesSvs(cfg: Config, st: State, n1: UniqueCapture, c1: UniqueCapture, x: UniqueCapture)
    requires x == n1 || x == c1
    ensures var svs := SingleCaptureAnalyses(cfg, st, [n1, c1]).reg.svs;
      forall e :: (x, e) in svs && svs[(x, e)].1 == SvGtfPath(cfg, x, e)
  {
    SingleCaptureAnalysesSvs(cfg, st, [n1, c1]);
    var svs := SingleCaptureAnalyses(cfg, st, [n1, c1]).reg.svs;
    forall e ensures (x, e) in svs && svs[(x, e)].1 == SvGtfPath(cfg, x, e) {
      var k := (x, e);
      assert k.0 in [n1, c1];
    }
  }

  /** The jobs the smallest run adds: eight Svcaller jobs, two more, and the
      plot, whose structural-variant inputs are the Svcaller jobs' GTF outputs. */
  lemma SmallestRunAdded(cfg: Config, reg: Registry, n1: UniqueCapture, c1: UniqueCapture, manta: Job, pc: Job)
    requires CnaInputsRegistered(reg, n1, c1)
    requires forall e :: (n1, e) in reg.svs && reg.svs[(n1, e)].1 == SvGtfPath(cfg, n1, e)
    requires forall e :: (c1, e) in reg.svs && reg.svs[(c1, e)].1 == SvGtfPath(cfg, c1, e)
    ensures var cna := CnaPlotJob(cfg, reg, n1, c1).value;
      var added := SvJobs(cfg, n1, EventTypes) + SvJobs(cfg, c1, EventTypes) + [manta, pc, cna];
      && |added| == 11
      && (forall i :: 0 <= i < 8 ==> added[i].Svcaller?)
      && added[8] == manta && added[9] == pc && added[10] == cna
      && cna.LiqbioCNAPlot?
      && |cna.inputSvcallerN| == 4 && |cna.inputSvcallerT| == 4
      && (forall i :: 0 <= i < 4 ==> cna.inputSvcallerN[i] == added[i].outputGtf)
      && (forall i :: 0 <= i < 4 ==> cna.inputSvcallerT[i] == added[4 + i].outputGtf)
  {
    var svJobs := SvJobs(cfg, n1, EventTypes) + SvJobs(cfg, c1, EventTypes);
    forall i | 0 <= i < 8 ensures svJobs[i].Svcaller? {
      if i < 4 {
        assert svJobs[i] == SvJob(cfg, n1, EventTypes[i]);
      } else {
        assert svJobs[4 + (i - 4)] == SvJob(cfg, c1, EventTypes[i - 4]);
      }
    }
    forall i | 0 <= i < 4
      ensures svJobs[i] == SvJob(cfg, n1, EventTypes[i]) && svJobs[4 + i] == SvJob(cfg, c1, EventTypes[i])
    {
    }
  }

  /** A pairing whose panel has purity targets and whose copy-number inputs
      are registered adds Manta's job, the purity job and the plot, in order. */
  lemma PairingWithPurity(cfg: Config, st: State, n: UniqueCapture, c: UniqueCapture)
    requires PurityEnabled(cfg, c)
    requires CnaInputsRegistered(st.reg.(pureCN := st.reg.pureCN[(n, c) := cfg.helpers.purecnOutputs(n, c)]), n, c)
    ensures var reg' := st.reg.(pureCN := st.reg.pureCN[(n, c) := cfg.helpers.purecnOutputs(n, c)]);
      PairingAnalysis(cfg, st, n, c) ==
        Ok(State(st.jobs + [MantaJob(cfg, n, c).value, PureCN(n, c, cfg.helpers.purecnOutputs(n, c)),
                            CnaPlotJob(cfg, reg', n, c).value], reg'))
  {
    var manta := MantaJob(cfg, n, c).value;
    var pc := PureCN(n, c, cfg.helpers.purecnOutputs(n, c));
    assert (st.jobs + [manta]) + [pc] == st.jobs + [manta, pc];
    assert (st.jobs + [manta, pc]) + [CnaPlotJob(cfg, PureCNStep(cfg, st, n, c).reg, n, c).value]
        == st.jobs + [manta, pc, CnaPlotJob(cfg, PureCNStep(cfg, st, n, c).reg, n, c).value];
  }

  // ---------------------------------------------------------------------------
  // UMI consensus processing

  /** A file of one clinseq barcode under outdir/bams/<capture kit>/. */
  function UmiPath(cfg: Config, kit: string, barcode: string, suffix: string): Path {
    cfg.outdir + "/bams/" + kit + "/" + barcode + suffix
  }

  /** `configure_fastq_to_bam`'s job. */
  function FastqToBamJob(cfg: Config, fastq1: Path, fastq2: Path, barcode: string, kit: string): Job {
    FastqToBam(fastq1, fastq2, cfg.helpers.sampleStr(cfg.helpers.extractUniqueCapture(barcode)),
               cfg.helpers.parsePrepId(barcode), UmiPath(cfg, kit, barcode, ".unmapped.bam"))
  }

  /** `configure_alignment_with_umi`'s two jobs: the alignment of the unmapped
      BAM, then the indel realignment of its output. */
  function AlignmentWithUmiJobs(cfg: Config, bam: Path, barcode: string, kit: string, pass: string): (r: seq<Job>)
    ensures |r| == 2 && r[0].AlignUnmappedBam? && r[1].Realignment?
    ensures r[0].inputBam == bam && r[1].inputBam == r[0].outputBam
    ensures r[0].outputBam == UmiPath(cfg, kit, barcode, ".mapped.bam")
    ensures r[1].outputBam == UmiPath(cfg, kit, barcode, ".realigned.bam")
    ensures r[0].jobname == "alignment-of-unmapped-bam-" + pass && r[1].jobname == "realignment-" + pass
  {
    var mapped := UmiPath(cfg, kit, barcode, ".mapped.bam");
    [AlignUnmappedBam(bam, cfg.refdata.referenceGenome, mapped, "alignment-of-unmapped-bam-" + pass),
     Realignment(mapped, UmiPath(cfg, kit, barcode, ".realigned.bam"), cfg.refdata.referenceGenome,
                 cfg.refdata.kg1, cfg.refdata.millsAnd1KgGoldStandard,
                 UmiPath(cfg, kit, barcode, ".intervals"), "realignment-" + pass)]
  }

  /** `configure_consensus_reads_calling`'s two jobs: grouping reads by UMI,
      then calling duplex consensus reads from the grouped BAM. */
  function ConsensusReadsJobs(cfg: Config, bam: Path, barcode: string, kit: string): (r: seq<Job>)
    ensures |r| == 2 && r[0].GroupReadsByUmi? && r[1].CallDuplexConsensusReads?
    ensures r[0].inputBam == bam && r[1].inputBam == r[0].outputBam
    ensures r[0].outputBam == UmiPath(cfg, kit, barcode, ".grouped.bam")
    ensures r[1].outputBam == UmiPath(cfg, kit, barcode, ".consensus.bam")
  {
    var grouped := UmiPath(cfg, kit, barcode, ".grouped.bam");
    [GroupReadsByUmi(bam, UmiPath(cfg, kit, barcode, ".grouped.bam.fs.txt"), grouped, "group-reads-by-umi"),
     CallDuplexConsensusReads(grouped, UmiPath(cfg, kit, barcode, ".consensus.bam"), "call-duplex-consensus-reads")]
  }

  method ConfigureFastqToBam(p: Pipeline, fqFiles: (Path, Path), barcode: string, kit: string) returns (bam: Path)
    modifies p
    ensures p.jobs == old(p.jobs) + [FastqToBamJob(p.cfg, fqFiles.0, fqFiles.1, barcode, kit)]
    ensures p.reg == old(p.reg)
    ensures bam == UmiPath(p.cfg, kit, barcode, ".unmapped.bam")
  {
    var library := p.cfg.helpers.parsePrepId(barcode);
    var sample := p.cfg.helpers.sampleStr(p.cfg.helpers.extractUniqueCapture(barcode));
    var fastqToBam := FastqToBam(fqFiles.0, fqFiles.1, sample, library,
                                 p.cfg.outdir + "/bams/" + kit + "/" + barcode + ".unmapped.bam");
    p.Add(fastqToBam);
    bam := fastqToBam.outputBam;
  }

  method ConfigureAlignmentWithUmi(p: Pipeline, bamfile: Path, barcode: string, kit: string, jobname: string)
    returns (realigned: Path)
    modifies p
    ensures p.jobs == old(p.jobs) + AlignmentWithUmiJobs(p.cfg, bamfile, barcode, kit, jobname)
    ensures p.reg == old(p.reg)
    ensures realigned == UmiPath(p.cfg, kit, barcode, ".realigned.bam")
  {
    var alignUnmapBam := AlignUnmappedBam(bamfile, p.cfg.refdata.referenceGenome,
                                          p.cfg.outdir + "/bams/" + kit + "/" + barcode + ".mapped.bam",
                                          "alignment-of-unmapped-bam-" + jobname);
    p.Add(alignUnmapBam);
    var realignment := Realignment(alignUnmapBam.outputBam,
                                   p.cfg.outdir + "/bams/" + kit + "/" + barcode + ".realigned.bam",
                                   p.cfg.refdata.referenceGenome, p.cfg.refdata.kg1,
                                   p.cfg.refdata.millsAnd1KgGoldStandard,
                                   p.cfg.outdir + "/bams/" + kit + "/" + barcode + ".intervals",
                                   "realignment-" + jobname);
    p.Add(realignment);
    realigned := realignment.outputBam;
  }

  method ConfigureConsensusReadsCalling(p: Pipeline, bam: Path, barcode: string, kit: string) returns (consensus: Path)
    modifies p
    ensures p.jobs == old(p.jobs) + ConsensusReadsJobs(p.cfg, bam, barcode, kit)
    ensures p.reg == old(p.reg)
    ensures consensus == UmiPath(p.cfg, kit, barcode, ".consensus.bam")
  {
    var groupReads := GroupReadsByUmi(bam, p.cfg.outdir + "/bams/" + kit + "/" + barcode + ".grouped.bam.fs.txt",
                                      p.cfg.outdir + "/bams/" + kit + "/" + barcode + ".grouped.bam",
                                      "group-reads-by-umi");
    p.Add(groupReads);
    var callConsensusReads := CallDuplexConsensusReads(groupReads.outputBam,
                                                       p.cfg.outdir + "/bams/" + kit + "/" + barcode + ".consensus.bam",
                                                       "call-duplex-consensus-reads");
    p.Add(callConsensusReads);
    consensus := callConsensusReads.outputBam;
  }

  /** The seven jobs of one capture's UMI chain: FASTQ to unmapped BAM, a first
      alignment pass, consensus-read calling, and a second alignment pass. */
  function UmiChain(cfg: Config, trimmed: Trimmed, barcode: string, kit: string): seq<Job> {
    var unmapped := UmiPath(cfg, kit, barcode, ".unmapped.bam");
    var realigned := UmiPath(cfg, kit, barcode, ".realigned.bam");
    var consensus := UmiPath(cfg, kit, barcode, ".consensus.bam");
    [FastqToBamJob(cfg, trimmed.fastq1, trimmed.fastq2, barcode, kit)]
    + AlignmentWithUmiJobs(cfg, unmapped, barcode, kit, "1")
    + ConsensusReadsJobs(cfg, realigned, barcode, kit)
    + AlignmentWithUmiJobs(cfg, consensus, barcode, kit, "2")
  }

  /** The UMI chain is seven jobs, each reading the BAM the previous one
      writes, starting from the trimmed reads. As written, the second alignment
      pass writes the same .mapped.bam and .realigned.bam paths as the first. */
  lemma UmiChainWiring(cfg: Config, trimmed: Trimmed, barcode: string, kit: string)
    ensures var r := UmiChain(cfg, trimmed, barcode, kit);
      && |r| == 7
      && r[0].FastqToBam? && r[0].inputFastq1 == trimmed.fastq1 && r[0].inputMateFastq == trimmed.fastq2
      && r[1].AlignUnmappedBam? && r[2].Realignment? && r[3].GroupReadsByUmi?
      && r[4].CallDuplexConsensusReads? && r[5].AlignUnmappedBam? && r[6].Realignment?
      && r[1].inputBam == r[0].outputBam && r[2].inputBam == r[1].outputBam
      && r[3].inputBam == r[2].outputBam && r[4].inputBam == r[3].outputBam
      && r[5].inputBam == r[4].outputBam && r[6].inputBam == r[5].outputBam
      && r[5].outputBam == r[1].outputBam && r[6].outputBam == r[2].outputBam
      && r[6].outputBam == UmiPath(cfg, kit, barcode, ".realigned.bam")
  {
  }

  /** The jobs fq_trimming adds for each of `barcodes`, in order. */
  function TrimmingJobs(cfg: Config, barcodes: seq<string>, kit: string): seq<Job> {
    if barcodes == [] then []
    else TrimmingJobs(cfg, barcodes[..|barcodes| - 1], kit)
         + cfg.helpers.fqTrimming(barcodes[|barcodes| - 1], cfg.outdir + "/bams/" + kit).jobs
  }

  /** The trimmed reads and barcode the UMI chain of the current capture uses. */
  type LastTrimmed = Option<(Trimmed, string)>

  /** One capture of `configure_umi_processing`: its barcodes are trimmed one by
      one, then the UMI chain runs once, on the last trimmed barcode. A capture
      without barcodes reuses the previous capture's last barcode, and the
      first capture without barcodes raises NameError. */
  function UmiCapture(cfg: Config, jobs: seq<Job>, last: LastTrimmed, capture: UniqueCapture, barcodes: seq<string>)
    : Result<(seq<Job>, LastTrimmed)>
  {
    var kit := capture.captureKitId;
    var trimmedJobs := jobs + TrimmingJobs(cfg, barcodes, kit);
    var last' := if barcodes == [] then last
                 else Some((cfg.helpers.fqTrimming(barcodes[|barcodes| - 1], cfg.outdir + "/bams/" + kit), barcodes[|barcodes| - 1]));
    match last'
    case None => Err(NameError("trimmed_fqfiles"))
    case Some((trimmed, barcode)) => Ok((trimmedJobs + UmiChain(cfg, trimmed, barcode, kit), last'))
  }

  /** `configure_umi_processing` over the captures `entries`, in order. */
  function UmiProcessing(cfg: Config, jobs: seq<Job>, entries: seq<(UniqueCapture, seq<string>)>)
    : Result<(seq<Job>, LastTrimmed)>
  {
    if entries == [] then Ok((jobs, None))
    else
      var (js, last) :- UmiProcessing(cfg, jobs, entries[..|entries| - 1]);
      UmiCapture(cfg, js, last, entries[|entries| - 1].0, entries[|entries| - 1].1)
  }

  /** UMI processing fails exactly when the first capture has no barcodes. */
  lemma {:induction false} UmiProcessingFails(cfg: Config, jobs: seq<Job>, entries: seq<(UniqueCapture, seq<string>)>)
    ensures var r := UmiProcessing(cfg, jobs, entries);
      && (r.Err? <==> |entries| > 0 && entries[0].1 == [])
      && (r.Ok? && |entries| > 0 ==> r.value.1.Some?)
  {
    if |entries| > 1 {
      UmiProcessingFails(cfg, jobs, entries[..|entries| - 1]);
    } else if |entries| == 1 {
      assert entries[..0] == [];
    }
  }

  /** For a capture with barcodes, the last seven jobs are its UMI chain, run
      on the reads of its last barcode with that barcode's file names. */
  lemma UmiChainUsesLastBarcode(cfg: Config, jobs: seq<Job>, last: LastTrimmed, capture: UniqueCapture, barcodes: seq<string>)
    requires barcodes != []
    ensures var r := UmiCapture(cfg, jobs, last, capture, barcodes);
      var b := barcodes[|barcodes| - 1];
      && r.Ok?
      && |r.value.0| == |jobs| + |TrimmingJobs(cfg, barcodes, capture.captureKitId)| + 7
      && r.value.0[|r.value.0| - 7..] ==
           UmiChain(cfg, cfg.helpers.fqTrimming(b, cfg.outdir + "/bams/" + capture.captureKitId), b, capture.captureKitId)
  {
  }

  /** Runs fq_trimming for one barcode, adding the trimming jobs it returns. */
  method FqTrimming(p: Pipeline, barcode: string, outdir: Path) returns (trimmed: Trimmed)
    modifies p`jobs
    ensures trimmed == p.cfg.helpers.fqTrimming(barcode, outdir)
    ensures p.jobs == old(p.jobs) + trimmed.jobs
  {
    trimmed := p.cfg.helpers.fqTrimming(barcode, outdir);
    p.jobs := p.jobs + trimmed.jobs;
  }

  /** The inner loop of `configure_umi_processing`: trims each barcode of a
      capture; the trimmed reads of the last one are what the chain then uses. */
  method TrimBarcodes(p: Pipeline, barcodes: seq<string>, kit: string, last: LastTrimmed) returns (last': LastTrimmed)
    modifies p`jobs
    ensures p.jobs == old(p.jobs) + TrimmingJobs(p.cfg, barcodes, kit)
    ensures last' == if barcodes == [] then last
                     else Some((p.cfg.helpers.fqTrimming(barcodes[|barcodes| - 1], p.cfg.outdir + "/bams/" + kit),
                                barcodes[|barcodes| - 1]))
  {
    last' := last;
    var j := 0;
    while j < |barcodes|
      invariant 0 <= j <= |barcodes|
      invariant p.jobs == old(p.jobs) + TrimmingJobs(p.cfg, barcodes[..j], kit)
      invariant last' == if j == 0 then last
                         else Some((p.cfg.helpers.fqTrimming(barcodes[j - 1], p.cfg.outdir + "/bams/" + kit), barcodes[j - 1]))
    {
      var trimmed := FqTrimming(p, barcodes[j], p.cfg.outdir + "/bams/" + kit);
      last' := Some((trimmed, barcodes[j]));
      assert barcodes[..j + 1][..j] == barcodes[..j];
      j := j + 1;
    }
    assert barcodes[..j] == barcodes;
  }

  /** The UMI chain of one capture, configured step by step. */
  method ConfigureUmiChain(p: Pipeline, trimmed: Trimmed, barcode: string, kit: string)
    modifies p
    ensures p.jobs == old(p.jobs) + UmiChain(p.cfg, trimmed, barcode, kit)
    ensures p.reg == old(p.reg)
  {
    var bamFile := ConfigureFastqToBam(p, (trimmed.fastq1, trimmed.fastq2), barcode, kit);
    var realignedBam := ConfigureAlignmentWithUmi(p, bamFile, barcode, kit, "1");
    var consensusReads := ConfigureConsensusReadsCalling(p, realignedBam, barcode, kit);
    var realignedBam2 := ConfigureAlignmentWithUmi(p, consensusReads, barcode, kit, "2");
  }

  /** One pass of `configure_umi_processing`'s capture loop. */
  method ConfigureUmiCapture(p: Pipeline, capture: UniqueCapture, barcodes: seq<string>, last: LastTrimmed)
    returns (last': LastTrimmed, err: Option<Error>)
    modifies p
    ensures var r := UmiCapture(p.cfg, old(p.jobs), last, capture, barcodes);
      && (r.Ok? ==> err.None? && r.value == (p.jobs, last'))
      && (r.Err? ==> err == Some(r.error))
      && p.reg == old(p.reg)
  {
    var captureKit := capture.captureKitId;
    last' := TrimBarcodes(p, barcodes, captureKit, last);
    if last'.None? {
      return last', Some(NameError("trimmed_fqfiles"));
    }
    ConfigureUmiChain(p, last'.value.0, last'.value.1, captureKit);
    err := None;
  }

  /** `configure_umi_processing`. */
  method ConfigureUmiProcessing(p: Pipeline) returns (err: Option<Error>)
    modifies p
    ensures var r := UmiProcessing(p.cfg, old(p.jobs), p.cfg.captureToBarcodes);
      && (err.None? <==> r.Ok?)
      && (r.Ok? ==> p.jobs == r.value.0)
      && (r.Err? ==> err == Some(r.error))
      && p.reg == old(p.reg)
  {
    var entries := p.cfg.captureToBarcodes;
    var last: LastTrimmed := None;
    var i := 0;
    while i < |entries|
      invariant 0 <= i <= |entries|
      invariant UmiProcessing(p.cfg, old(p.jobs), entries[..i]) == Ok((p.jobs, last))
      invariant p.reg == old(p.reg)
    {
      assert entries[..i + 1] == entries[..i] + [entries[i]];
      UmiProcessingStep(p.cfg, old(p.jobs), entries[..i], entries[i]);
      assert UmiProcessing(p.cfg, old(p.jobs), entries[..i + 1]) == UmiCapture(p.cfg, p.jobs, last, entries[i].0, entries[i].1);
      last, err := ConfigureUmiCapture(p, entries[i].0, entries[i].1, last);
      if err.Some? {
        UmiProcessingErr(p.cfg, old(p.jobs), entries, i + 1);
        return;
      }
      i := i + 1;
    }
    assert entries[..i] == entries;
    err := None;
  }

  lemma UmiProcessingStep(cfg: Config, jobs: seq<Job>, entries: seq<(UniqueCapture, seq<string>)>,
                          entry: (UniqueCapture, seq<string>))
    ensures UmiProcessing(cfg, jobs, entries).Ok? ==>
      UmiProcessing(cfg, jobs, entries + [entry])
        == UmiCapture(cfg, UmiProcessing(cfg, jobs, entries).value.0, UmiProcessing(cfg, jobs, entries).value.1,
                      entry.0, entry.1)
  {
    assert (entries + [entry])[..|entries|] == entries;
  }

  /** A failed prefix of captures makes the whole UMI processing fail. */
  lemma {:induction false} UmiProcessingErr(cfg: Config, jobs: seq<Job>, entries: seq<(UniqueCapture, seq<string>)>, k: nat)
    requires k <= |entries|
    requires UmiProcessing(cfg, jobs, entries[..k]).Err?
    ensures UmiProcessing(cfg, jobs, entries) == UmiProcessing(cfg, jobs, entries[..k])
  {
    if k < |entries| {
      assert entries[..|entries| - 1][..k] == entries[..k];
      UmiProcessingErr(cfg, jobs, entries[..|entries| - 1], k);
    } else {
      assert entries[..k] == entries;
    }
  }
}
