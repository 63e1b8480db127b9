/** Somatic variant calling (autoseq/tools/variantcalling.py): which caller
    jobs `call_somatic_variants` adds for a cancer/normal pairing and which
    output paths it reports, and the conditional parts of the VEP,
    VcfAddSample and StrelkaSomatic commands. */
module VariantCalling {
  import opened Common
  import opened Jobs

  // ---------------------------------------------------------------------------
  // call_somatic_variants

  /** The arguments of `call_somatic_variants` besides the pipeline. The
      thresholds `min_alt_frac` and `min_num_reads` are not carried. */
  datatype SomaticArgs = SomaticArgs(
    cancerBam: Path,
    normalBam: Path,
    cancer: UniqueCapture,
    normal: UniqueCapture,
    targetName: string,
    outdir: Path,
    callers: seq<string>)

  /** The callers used when none are given. */
  const DefaultCallers: seq<string> := ["vardict", "strelka"]

  /** The callers `call_somatic_variants` recognises, in the order it adds their jobs. */
  const KnownCallers: seq<string> := ["freebayes", "vardict", "strelka", "mutect2", "varscan"]

  /** The keys of the result map; `KeyName` gives each one's string. */
  datatype Key = FreebayesKey | VardictKey | StrelkaSnvsKey | StrelkaIndelsKey | Mutect2Key
               | VarscanSnvKey | VarscanIndelKey

  function KeyName(k: Key): string {
    match k
    case FreebayesKey => "freebayes"
    case VardictKey => "vardict"
    case StrelkaSnvsKey => "strelka_snvs"
    case StrelkaIndelsKey => "strelka_indels"
    case Mutect2Key => "mutect2"
    case VarscanSnvKey => "varscan_snv"
    case VarscanIndelKey => "varscan_indel"
  }

  function FreebayesJob(cfg: Config, a: SomaticArgs, target: TargetRefs): Job {
    var c := cfg.helpers.libCaptureStr(a.cancer);
    var n := cfg.helpers.libCaptureStr(a.normal);
    Freebayes([a.cancerBam, a.normalBam], c, n, true, cfg.refdata.referenceGenome,
              target.bedSlopped20, cfg.maxcores, cfg.scratch, "freebayes-somatic/" + c,
              a.outdir + "/variants/" + c + "-" + n + ".freebayes-somatic.vcf.gz")
  }

  function VarDictJob(cfg: Config, a: SomaticArgs, target: TargetRefs, panel: TargetRefs): Job {
    var c := cfg.helpers.libCaptureStr(a.cancer);
    var n := cfg.helpers.libCaptureStr(a.normal);
    VarDict(a.cancerBam, a.normalBam, cfg.helpers.sampleStr(a.cancer), cfg.helpers.sampleStr(a.normal),
            cfg.refdata.referenceGenome, cfg.refdata.referenceDict, DropLast(target.bedSlopped20, 3),
            a.outdir + "/variants/vardict/" + c + "-" + n + ".vardict-somatic.vcf.gz",
            panel.blacklistBed, "vardict/" + c)
  }

  /** Strelka's indel candidates are read from Manta's output directory for the pairing. */
  function StrelkaJob(cfg: Config, a: SomaticArgs, panel: TargetRefs): Job {
    var c := cfg.helpers.libCaptureStr(a.cancer);
    var n := cfg.helpers.libCaptureStr(a.normal);
    var dir := a.outdir + "/variants/" + c + "-" + n + "-strelka-somatic";
    StrelkaSomatic(a.cancerBam, a.normalBam, cfg.helpers.sampleStr(a.cancer), cfg.helpers.sampleStr(a.normal),
                   cfg.refdata.referenceGenome, a.outdir + "/variants/" + c + "-" + n + "-manta-somatic",
                   panel.bedSlopped20, dir,
                   dir + "/results/variants/somatic.passed.snvs.vcf.gz",
                   dir + "/results/variants/somatic.passed.indels.vcf.gz",
                   "strelka-somatic-workflow/" + c)
  }

  function Mutect2Job(cfg: Config, a: SomaticArgs, panel: TargetRefs): Job {
    var c := cfg.helpers.libCaptureStr(a.cancer);
    var n := cfg.helpers.libCaptureStr(a.normal);
    var dir := a.outdir + "/variants/mutect/";
    Mutect2Somatic(a.cancerBam, a.normalBam, cfg.helpers.sampleStr(a.cancer), cfg.helpers.sampleStr(a.normal),
                   cfg.refdata.referenceGenome,
                   dir + c + "-" + n + "-gatk-mutect-somatic.vcf.gz",
                   dir + c + "-" + n + "-mutect.bam",
                   cfg.refdata.exac, panel.intervalListSlopped20,
                   dir + c + "-mutect-tumor-pileupsummary-table",
                   dir + c + "-mutect-tumor-contamination-table",
                   dir + c + "-" + n + "-gatk-mutect-somatic-filtered.vcf.gz",
                   "mutect2-somatic/" + c)
  }

  /** VarScan's file names put the normal before the cancer. */
  function VarscanJob(cfg: Config, a: SomaticArgs): Job {
    var c := cfg.helpers.libCaptureStr(a.cancer);
    var n := cfg.helpers.libCaptureStr(a.normal);
    var dir := a.outdir + "/variants/varscan/";
    Varscan2Somatic(a.cancerBam, a.normalBam, cfg.helpers.sampleStr(a.cancer), cfg.helpers.sampleStr(a.normal),
                    cfg.refdata.referenceGenome, dir + n + ".pileup", dir + c + ".pileup",
                    dir + n + "-" + c + "-varscan.snp.vcf", dir + n + "-" + c + "-varscan.indel.vcf",
                    "varscan-somatic/" + c)
  }

  /** The job of a caller, when that caller is requested. */
  function When(requested: bool, j: Job): (r: seq<Job>)
    ensures |r| <= 1
  {
    if requested then [j] else []
  }

  /** The `target_name` panel, which freebayes and vardict read. */
  predicate TargetKnown(cfg: Config, a: SomaticArgs) {
    ("freebayes" in a.callers || "vardict" in a.callers) ==> a.targetName in cfg.refdata.targets
  }

  function FreebayesStep(cfg: Config, a: SomaticArgs): (r: seq<Job>)
    requires TargetKnown(cfg, a)
    ensures |r| <= 1
  {
    if "freebayes" in a.callers then [FreebayesJob(cfg, a, cfg.refdata.targets[a.targetName])] else []
  }

  function VarDictStep(cfg: Config, a: SomaticArgs, panel: TargetRefs): seq<Job>
    requires TargetKnown(cfg, a)
  {
    if "vardict" in a.callers then [VarDictJob(cfg, a, cfg.refdata.targets[a.targetName], panel)] else []
  }

  /** The jobs of the callers that read the cancer capture's panel, in order. */
  function PanelJobs(cfg: Config, a: SomaticArgs, panel: TargetRefs): seq<Job>
    requires TargetKnown(cfg, a)
  {
    VarDictStep(cfg, a, panel)
    + When("strelka" in a.callers, StrelkaJob(cfg, a, panel))
    + When("mutect2" in a.callers, Mutect2Job(cfg, a, panel))
    + When("varscan" in a.callers, VarscanJob(cfg, a))
  }

  /** The jobs added when every panel lookup succeeds; `panel` is the cancer
      capture's panel. */
  function CallerJobs(cfg: Config, a: SomaticArgs, panel: TargetRefs): seq<Job>
    requires TargetKnown(cfg, a)
  {
    FreebayesStep(cfg, a) + PanelJobs(cfg, a, panel)
  }

  // The dictionary updates of `call_somatic_variants`, one function per caller.

  function WithFreebayes(d: map<Key, Path>, cfg: Config, a: SomaticArgs): map<Key, Path>
    requires TargetKnown(cfg, a)
  {
    if "freebayes" in a.callers then d[FreebayesKey := FreebayesJob(cfg, a, cfg.refdata.targets[a.targetName]).output]
    else d
  }

  function WithVarDict(d: map<Key, Path>, cfg: Config, a: SomaticArgs, panel: TargetRefs): map<Key, Path>
    requires TargetKnown(cfg, a)
  {
    if "vardict" in a.callers then d[VardictKey := VarDictJob(cfg, a, cfg.refdata.targets[a.targetName], panel).output]
    else d
  }

  /** Both strelka keys get the SNV output. */
  function WithStrelka(d: map<Key, Path>, cfg: Config, a: SomaticArgs, panel: TargetRefs): map<Key, Path> {
    if "strelka" in a.callers then
      var snvs := StrelkaJob(cfg, a, panel).outputSnvsVcf;
      d[StrelkaSnvsKey := snvs][StrelkaIndelsKey := snvs]
    else d
  }

  function WithMutect2(d: map<Key, Path>, cfg: Config, a: SomaticArgs, panel: TargetRefs): map<Key, Path> {
    if "mutect2" in a.callers then d[Mutect2Key := Mutect2Job(cfg, a, panel).outputFiltered] else d
  }

  /** VarScan's outputs are reported with `vcf` replaced by `Somatic.vcf`. */
  function WithVarscan(d: map<Key, Path>, cfg: Config, a: SomaticArgs): map<Key, Path> {
    if "varscan" in a.callers then
      var j := VarscanJob(cfg, a);
      d[VarscanSnvKey := DropLast(j.outputSnv, 3) + "Somatic.vcf"][VarscanIndelKey := DropLast(j.outputIndel, 3) + "Somatic.vcf"]
    else d
  }

  /** The result map after the callers that read the cancer capture's panel. */
  function PanelReport(d: map<Key, Path>, cfg: Config, a: SomaticArgs, panel: TargetRefs): map<Key, Path>
    requires TargetKnown(cfg, a)
  {
    WithVarscan(WithMutect2(WithStrelka(WithVarDict(d, cfg, a, panel), cfg, a, panel), cfg, a, panel), cfg, a)
  }

  /** The result map after all caller steps. */
  function CallerReport(cfg: Config, a: SomaticArgs, panel: TargetRefs): map<Key, Path>
    requires TargetKnown(cfg, a)
  {
    PanelReport(WithFreebayes(map[], cfg, a), cfg, a, panel)
  }

  /** What `call_somatic_variants` does: the jobs it adds, which stay added
      even when a later lookup raises, and the caller-to-path map it returns
      or the exception it raises. */
  datatype Calls = Calls(added: seq<Job>, outcome: Result<map<Key, Path>>)

  /** `call_somatic_variants`. A panel lookup raises KeyError: the cancer
      capture's panel always, the `target_name` panel when freebayes or
      vardict is requested. */
  function SomaticCalling(cfg: Config, a: SomaticArgs): (r: Calls)
    ensures r.outcome.Ok? <==>
      && cfg.helpers.captureName(a.cancer.captureKitId) in cfg.refdata.targets
      && TargetKnown(cfg, a)
    ensures r.outcome.Err? ==> r.outcome.error.KeyError? && |r.added| <= 1
  {
    var targets := cfg.refdata.targets;
    var captureName := cfg.helpers.captureName(a.cancer.captureKitId);
    if "freebayes" in a.callers && a.targetName !in targets then Calls([], Err(KeyError(a.targetName)))
    else if captureName !in targets then
      if "vardict" in a.callers && a.targetName !in targets then Calls([], Err(KeyError(captureName)))
      else Calls(FreebayesStep(cfg, a), Err(KeyError(captureName)))
    else if !TargetKnown(cfg, a) then Calls([], Err(KeyError(a.targetName)))
    else
      var panel := targets[captureName];
      Calls(CallerJobs(cfg, a, panel), Ok(CallerReport(cfg, a, panel)))
  }

  // The outcome of `call_somatic_variants` on each of its paths.

  lemma FreebayesTargetMissing(cfg: Config, a: SomaticArgs)
    requires "freebayes" in a.callers && a.targetName !in cfg.refdata.targets
    ensures SomaticCalling(cfg, a) == Calls([], Err(KeyError(a.targetName)))
  {
  }

  lemma PanelMissing(cfg: Config, a: SomaticArgs)
    requires "freebayes" in a.callers ==> a.targetName in cfg.refdata.targets
    requires cfg.helpers.captureName(a.cancer.captureKitId) !in cfg.refdata.targets
    ensures SomaticCalling(cfg, a).outcome == Err(KeyError(cfg.helpers.captureName(a.cancer.captureKitId)))
    ensures SomaticCalling(cfg, a).added ==
      if "freebayes" in a.callers then [FreebayesJob(cfg, a, cfg.refdata.targets[a.targetName])] else []
  {
  }

  lemma VarDictTargetMissing(cfg: Config, a: SomaticArgs)
    requires "freebayes" !in a.callers && "vardict" in a.callers && a.targetName !in cfg.refdata.targets
    requires cfg.helpers.captureName(a.cancer.captureKitId) in cfg.refdata.targets
    ensures SomaticCalling(cfg, a) == Calls([], Err(KeyError(a.targetName)))
  {
  }

  lemma AllLookupsSucceed(cfg: Config, a: SomaticArgs)
    requires TargetKnown(cfg, a)
    requires cfg.helpers.captureName(a.cancer.captureKitId) in cfg.refdata.targets
    ensures var panel := cfg.refdata.targets[cfg.helpers.captureName(a.cancer.captureKitId)];
      SomaticCalling(cfg, a) == Calls(CallerJobs(cfg, a, panel), Ok(CallerReport(cfg, a, panel)))
  {
  }

  /** `call_somatic_variants`: adds one job per requested caller it
      recognises and returns the caller-to-path map. */
  method CallSomaticVariants(p: Pipeline, a: SomaticArgs) returns (r: Result<map<Key, Path>>)
    modifies p
    ensures var s := SomaticCalling(p.cfg, a);
      && p.jobs == old(p.jobs) + s.added
      && p.reg == old(p.reg)
      && r == s.outcome
  {
    var targets := p.cfg.refdata.targets;
    if "freebayes" in a.callers && a.targetName !in targets {
      FreebayesTargetMissing(p.cfg, a);
      return Err(KeyError(a.targetName));
    }
    var d := AddFreebayes(p, a, map[]);
    var captureName := p.cfg.helpers.captureName(a.cancer.captureKitId);
    if captureName !in targets {
      PanelMissing(p.cfg, a);
      return Err(KeyError(captureName));
    }
    var panel := targets[captureName];
    if "vardict" in a.callers && a.targetName !in targets {
      VarDictTargetMissing(p.cfg, a);
      return Err(KeyError(a.targetName));
    }
    AllLookupsSucceed(p.cfg, a);
    ghost var jobs0 := p.jobs;
    assert jobs0 == old(p.jobs) + FreebayesStep(p.cfg, a);
    assert d == WithFreebayes(map[], p.cfg, a);
    d := AddPanelCallers(p, a, panel, d);
    Assoc3(old(p.jobs), FreebayesStep(p.cfg, a), PanelJobs(p.cfg, a, panel));
    r := Ok(d);
  }

  lemma Concat4<T>(s0: seq<T>, s1: seq<T>, s2: seq<T>, s3: seq<T>, s4: seq<T>)
    ensures s0 + s1 + s2 + s3 + s4 == s0 + (s1 + s2 + s3 + s4)
  {
  }

  /** The caller blocks after the panel lookups, in order. */
  method AddPanelCallers(p: Pipeline, a: SomaticArgs, panel: TargetRefs, d0: map<Key, Path>) returns (d: map<Key, Path>)
    requires TargetKnown(p.cfg, a)
    modifies p`jobs
    ensures p.jobs == old(p.jobs) + PanelJobs(p.cfg, a, panel)
    ensures d == PanelReport(d0, p.cfg, a, panel)
  {
    d := AddVarDict(p, a, panel, d0);
    d := AddStrelka(p, a, panel, d);
    d := AddMutect2(p, a, panel, d);
    d := AddVarscan(p, a, d);
    Concat4(old(p.jobs), VarDictStep(p.cfg, a, panel),
            When("strelka" in a.callers, StrelkaJob(p.cfg, a, panel)),
            When("mutect2" in a.callers, Mutect2Job(p.cfg, a, panel)),
            When("varscan" in a.callers, VarscanJob(p.cfg, a)));
  }

  // The caller blocks of `call_somatic_variants`, one method each: add the
  // caller's job when it is requested and record its outputs in `d`.

  method AddFreebayes(p: Pipeline, a: SomaticArgs, d0: map<Key, Path>) returns (d: map<Key, Path>)
    requires "freebayes" in a.callers ==> a.targetName in p.cfg.refdata.targets
    modifies p`jobs
    ensures p.jobs == old(p.jobs) + (if "freebayes" in a.callers then [FreebayesJob(p.cfg, a, p.cfg.refdata.targets[a.targetName])] else [])
    ensures d == if "freebayes" in a.callers then d0[FreebayesKey := FreebayesJob(p.cfg, a, p.cfg.refdata.targets[a.targetName]).output] else d0
  {
    d := d0;
    if "freebayes" in a.callers {
      var freebayes := FreebayesJob(p.cfg, a, p.cfg.refdata.targets[a.targetName]);
      p.Add(freebayes);
      d := d[FreebayesKey := freebayes.output];
    }
  }

  method AddVarDict(p: Pipeline, a: SomaticArgs, panel: TargetRefs, d0: map<Key, Path>) returns (d: map<Key, Path>)
    requires TargetKnown(p.cfg, a)
    modifies p`jobs
    ensures p.jobs == old(p.jobs) + VarDictStep(p.cfg, a, panel)
    ensures d == WithVarDict(d0, p.cfg, a, panel)
  {
    d := d0;
    if "vardict" in a.callers {
      var vardict := VarDictJob(p.cfg, a, p.cfg.refdata.targets[a.targetName], panel);
      p.Add(vardict);
      d := d[VardictKey := vardict.output];
    }
  }

  method AddStrelka(p: Pipeline, a: SomaticArgs, panel: TargetRefs, d0: map<Key, Path>) returns (d: map<Key, Path>)
    modifies p`jobs
    ensures p.jobs == old(p.jobs) + When("strelka" in a.callers, StrelkaJob(p.cfg, a, panel))
    ensures d == WithStrelka(d0, p.cfg, a, panel)
  {
    d := d0;
    if "strelka" in a.callers {
      var strelka := StrelkaJob(p.cfg, a, panel);
      p.Add(strelka);
      d := d[StrelkaSnvsKey := strelka.outputSnvsVcf];
      d := d[StrelkaIndelsKey := strelka.outputSnvsVcf];
    }
  }

  method AddMutect2(p: Pipeline, a: SomaticArgs, panel: TargetRefs, d0: map<Key, Path>) returns (d: map<Key, Path>)
    modifies p`jobs
    ensures p.jobs == old(p.jobs) + When("mutect2" in a.callers, Mutect2Job(p.cfg, a, panel))
    ensures d == WithMutect2(d0, p.cfg, a, panel)
  {
    d := d0;
    if "mutect2" in a.callers {
      var mutect := Mutect2Job(p.cfg, a, panel);
      p.Add(mutect);
      d := d[Mutect2Key := mutect.outputFiltered];
    }
  }

  method AddVarscan(p: Pipeline, a: SomaticArgs, d0: map<Key, Path>) returns (d: map<Key, Path>)
    modifies p`jobs
    ensures p.jobs == old(p.jobs) + When("varscan" in a.callers, VarscanJob(p.cfg, a))
    ensures d == WithVarscan(d0, p.cfg, a)
  {
    d := d0;
    if "varscan" in a.callers {
      var varscan := VarscanJob(p.cfg, a);
      p.Add(varscan);
      d := d[VarscanSnvKey := DropLast(varscan.outputSnv, 3) + "Somatic.vcf"];
      d := d[VarscanIndelKey := DropLast(varscan.outputIndel, 3) + "Somatic.vcf"];
    }
  }

  // ---------------------------------------------------------------------------
  // What call_somatic_variants promises

  /** The cancer capture's panel, when it is configured. */
  function Panel(cfg: Config, a: SomaticArgs): TargetRefs
    requires cfg.helpers.captureName(a.cancer.captureKitId) in cfg.refdata.targets
  {
    cfg.refdata.targets[cfg.helpers.captureName(a.cancer.captureKitId)]
  }

  /** The caller a job belongs to, `""` for any other job. */
  function CallerOf(j: Job): string {
    if j.Freebayes? then "freebayes"
    else if j.VarDict? then "vardict"
    else if j.StrelkaSomatic? then "strelka"
    else if j.Mutect2Somatic? then "mutect2"
    else if j.Varscan2Somatic? then "varscan"
    else ""
  }

  function CallerNames(jobs: seq<Job>): seq<string> {
    if jobs == [] then [] else [CallerOf(jobs[0])] + CallerNames(jobs[1..])
  }

  lemma {:induction false} CallerNamesAppend(s: seq<Job>, t: seq<Job>)
    ensures CallerNames(s + t) == CallerNames(s) + CallerNames(t)
  {
    if s != [] {
      assert (s + t)[1..] == s[1..] + t;
      CallerNamesAppend(s[1..], t);
    } else {
      assert s + t == t;
    }
  }

  /** The entries of `known` that occur in `callers`, in the order of `known`:
      the reference for which jobs are added and in which order. */
  function Recognised(known: seq<string>, callers: seq<string>): seq<string> {
    if known == [] then []
    else (if known[0] in callers then [known[0]] else []) + Recognised(known[1..], callers)
  }

  lemma {:induction false} RecognisedMembers(known: seq<string>, callers: seq<string>, x: string)
    ensures x in Recognised(known, callers) <==> x in known && x in callers
  {
    if known != [] {
      RecognisedMembers(known[1..], callers, x);
      assert known == [known[0]] + known[1..];
    }
  }

  function Keep(b: bool, name: string): seq<string> {
    if b then [name] else []
  }

  lemma RecognisedFirst(known: seq<string>, callers: seq<string>)
    requires known != []
    ensures Recognised(known, callers) == Keep(known[0] in callers, known[0]) + Recognised(known[1..], callers)
  {
  }

  lemma {:induction false} RecognisedFive(k: seq<string>, callers: seq<string>)
    requires |k| == 5
    ensures Recognised(k, callers) ==
      Keep(k[0] in callers, k[0]) + (Keep(k[1] in callers, k[1]) + Keep(k[2] in callers, k[2])
      + Keep(k[3] in callers, k[3]) + Keep(k[4] in callers, k[4]))
  {
    var k0, k1, k2, k3, k4 := Keep(k[0] in callers, k[0]), Keep(k[1] in callers, k[1]),
      Keep(k[2] in callers, k[2]), Keep(k[3] in callers, k[3]), Keep(k[4] in callers, k[4]);
    RecognisedFirst(k[4..], callers);
    assert k[4..][1..] == [];
    assert k4 + [] == k4;
    RecognisedFirst(k[3..], callers);
    assert k[3..][1..] == k[4..];
    RecognisedFirst(k[2..], callers);
    assert k[2..][1..] == k[3..];
    RecognisedFirst(k[1..], callers);
    assert k[1..][1..] == k[2..];
    RecognisedFirst(k, callers);
    Assoc4(k1, k2, k3, k4);
  }

  lemma Assoc4<T>(s1: seq<T>, s2: seq<T>, s3: seq<T>, s4: seq<T>)
    ensures s1 + (s2 + (s3 + s4)) == s1 + s2 + s3 + s4
  {
  }

  lemma WhenName(b: bool, j: Job)
    ensures CallerNames(When(b, j)) == Keep(b, CallerOf(j))
  {
    if b {
      assert CallerNames([j]) == [CallerOf(j)] + CallerNames([]);
    }
  }

  lemma FreebayesStepName(cfg: Config, a: SomaticArgs)
    requires TargetKnown(cfg, a)
    ensures CallerNames(FreebayesStep(cfg, a)) == Keep("freebayes" in a.callers, "freebayes")
  {
    if "freebayes" in a.callers {
      var j := FreebayesJob(cfg, a, cfg.refdata.targets[a.targetName]);
      assert FreebayesStep(cfg, a) == When(true, j);
      WhenName(true, j);
    }
  }

  lemma VarDictStepName(cfg: Config, a: SomaticArgs, panel: TargetRefs)
    requires TargetKnown(cfg, a)
    ensures CallerNames(VarDictStep(cfg, a, panel)) == Keep("vardict" in a.callers, "vardict")
  {
    if "vardict" in a.callers {
      var j := VarDictJob(cfg, a, cfg.refdata.targets[a.targetName], panel);
      assert VarDictStep(cfg, a, panel) == When(true, j);
      WhenName(true, j);
    }
  }

  lemma PanelJobsNames(cfg: Config, a: SomaticArgs, panel: TargetRefs)
    requires TargetKnown(cfg, a)
    ensures CallerNames(PanelJobs(cfg, a, panel)) ==
      Keep("vardict" in a.callers, "vardict") + Keep("strelka" in a.callers, "strelka")
      + Keep("mutect2" in a.callers, "mutect2") + Keep("varscan" in a.callers, "varscan")
  {
    var vd := VarDictStep(cfg, a, panel);
    var st := When("strelka" in a.callers, StrelkaJob(cfg, a, panel));
    var mu := When("mutect2" in a.callers, Mutect2Job(cfg, a, panel));
    var vs := When("varscan" in a.callers, VarscanJob(cfg, a));
    VarDictStepName(cfg, a, panel);
    WhenName("strelka" in a.callers, StrelkaJob(cfg, a, panel));
    WhenName("mutect2" in a.callers, Mutect2Job(cfg, a, panel));
    WhenName("varscan" in a.callers, VarscanJob(cfg, a));
    CallerNamesAppend(vd + st + mu, vs);
    CallerNamesAppend(vd + st, mu);
    CallerNamesAppend(vd, st);
  }

  /** The jobs `call_somatic_variants` adds are those of the recognised
      requested callers, one each, in the order freebayes, vardict, strelka,
      mutect2, varscan, whatever the order of the request. */
  lemma SomaticJobOrder(cfg: Config, a: SomaticArgs)
    ensures SomaticCalling(cfg, a).outcome.Ok? ==>
      CallerNames(SomaticCalling(cfg, a).added) == Recognised(KnownCallers, a.callers)
  {
    if SomaticCalling(cfg, a).outcome.Ok? {
      var panel := Panel(cfg, a);
      AllLookupsSucceed(cfg, a);
      FreebayesStepName(cfg, a);
      PanelJobsNames(cfg, a, panel);
      CallerNamesAppend(FreebayesStep(cfg, a), PanelJobs(cfg, a, panel));
      RecognisedFive(KnownCallers, a.callers);
    }
  }

  /** The requested caller each key of the result map belongs to. */
  function KeyCaller(k: Key): string {
    match k
    case FreebayesKey => "freebayes"
    case VardictKey => "vardict"
    case StrelkaSnvsKey => "strelka"
    case StrelkaIndelsKey => "strelka"
    case Mutect2Key => "mutect2"
    case VarscanSnvKey => "varscan"
    case VarscanIndelKey => "varscan"
  }

  lemma VarDictKeys(d: map<Key, Path>, cfg: Config, a: SomaticArgs, panel: TargetRefs, k: Key)
    requires TargetKnown(cfg, a)
    ensures k in WithVarDict(d, cfg, a, panel) <==> k in d || (k == VardictKey && "vardict" in a.callers)
  {
  }

  lemma StrelkaKeys(d: map<Key, Path>, cfg: Config, a: SomaticArgs, panel: TargetRefs, k: Key)
    ensures k in WithStrelka(d, cfg, a, panel) <==> k in d || (KeyCaller(k) == "strelka" && "strelka" in a.callers)
  {
  }

  lemma Mutect2Keys(d: map<Key, Path>, cfg: Config, a: SomaticArgs, panel: TargetRefs, k: Key)
    ensures k in WithMutect2(d, cfg, a, panel) <==> k in d || (k == Mutect2Key && "mutect2" in a.callers)
  {
  }

  lemma VarscanKeys(d: map<Key, Path>, cfg: Config, a: SomaticArgs, k: Key)
    ensures k in WithVarscan(d, cfg, a) <==> k in d || (KeyCaller(k) == "varscan" && "varscan" in a.callers)
  {
  }

  lemma PanelReportKeys(d0: map<Key, Path>, cfg: Config, a: SomaticArgs, panel: TargetRefs, k: Key)
    requires TargetKnown(cfg, a)
    ensures k in PanelReport(d0, cfg, a, panel) <==> k in d0 || (k != FreebayesKey && KeyCaller(k) in a.callers)
  {
    var d1 := WithVarDict(d0, cfg, a, panel);
    var d2 := WithStrelka(d1, cfg, a, panel);
    var d3 := WithMutect2(d2, cfg, a, panel);
    VarDictKeys(d0, cfg, a, panel, k);
    StrelkaKeys(d1, cfg, a, panel, k);
    Mutect2Keys(d2, cfg, a, panel, k);
    VarscanKeys(d3, cfg, a, k);
  }

  /** The result map has a key exactly for each requested caller it
      recognises: both strelka keys for strelka, both varscan keys for
      varscan, and nothing for any other name. Distinct keys have distinct
      names, so the map keyed by `Key` is the source's dictionary keyed by
      those names. */
  lemma SomaticKeys(cfg: Config, a: SomaticArgs)
    ensures SomaticCalling(cfg, a).outcome.Ok? ==>
      forall k :: k in SomaticCalling(cfg, a).outcome.value <==> KeyCaller(k) in a.callers
    ensures forall k1, k2 :: k1 != k2 ==> KeyName(k1) != KeyName(k2)
  {
    if SomaticCalling(cfg, a).outcome.Ok? {
      AllLookupsSucceed(cfg, a);
      var d0 := WithFreebayes(map[], cfg, a);
      forall k
        ensures k in SomaticCalling(cfg, a).outcome.value <==> KeyCaller(k) in a.callers
      {
        PanelReportKeys(d0, cfg, a, Panel(cfg, a), k);
      }
    }
  }

  lemma DefaultRecognised()
    ensures Recognised(KnownCallers, DefaultCallers) == ["vardict", "strelka"]
  {
    var c := DefaultCallers;
    assert "vardict" in c && "strelka" in c;
    assert "freebayes" !in c && "mutect2" !in c && "varscan" !in c;
    RecognisedFive(KnownCallers, c);
  }

  /** With the default request the outcome depends on both panel lookups. */
  lemma DefaultCallersOk(cfg: Config, a: SomaticArgs)
    requires a.callers == DefaultCallers
    ensures SomaticCalling(cfg, a).outcome.Ok? <==>
      cfg.helpers.captureName(a.cancer.captureKitId) in cfg.refdata.targets
      && a.targetName in cfg.refdata.targets
  {
    assert "vardict" in a.callers;
  }

  /** The default request yields exactly the vardict and both strelka keys. */
  lemma DefaultCallersKeys(cfg: Config, a: SomaticArgs)
    requires a.callers == DefaultCallers
    ensures var r := SomaticCalling(cfg, a);
      r.outcome.Ok? ==> r.outcome.value.Keys == {VardictKey, StrelkaSnvsKey, StrelkaIndelsKey}
  {
    var r := SomaticCalling(cfg, a);
    if r.outcome.Ok? {
      var c := a.callers;
      assert "vardict" in c && "strelka" in c;
      assert "freebayes" !in c && "mutect2" !in c && "varscan" !in c;
      SomaticKeys(cfg, a);
      forall k
        ensures k in r.outcome.value <==> k in {VardictKey, StrelkaSnvsKey, StrelkaIndelsKey}
      {
      }
    }
  }

  /** The default request adds the vardict job and then the strelka job. */
  lemma DefaultCallersOrder(cfg: Config, a: SomaticArgs)
    requires a.callers == DefaultCallers
    ensures var r := SomaticCalling(cfg, a);
      r.outcome.Ok? ==> CallerNames(r.added) == ["vardict", "strelka"]
  {
    SomaticJobOrder(cfg, a);
    DefaultRecognised();
  }

  /** The freebayes key reports the output of the freebayes job that was added. */
  lemma FreebayesReported(cfg: Config, a: SomaticArgs)
    requires SomaticCalling(cfg, a).outcome.Ok? && "freebayes" in a.callers
    ensures var r := SomaticCalling(cfg, a);
      var j := FreebayesJob(cfg, a, cfg.refdata.targets[a.targetName]);
      && j in r.added
      && r.outcome.value[FreebayesKey] == j.output
      && j.output == a.outdir + "/variants/" + cfg.helpers.libCaptureStr(a.cancer) + "-"
                     + cfg.helpers.libCaptureStr(a.normal) + ".freebayes-somatic.vcf.gz"
  {
    var panel := Panel(cfg, a);
    AllLookupsSucceed(cfg, a);
    var j := FreebayesJob(cfg, a, cfg.refdata.targets[a.targetName]);
    var d0 := WithFreebayes(map[], cfg, a);
    assert d0 == map[FreebayesKey := j.output];
    PanelReportKeys(d0, cfg, a, panel, FreebayesKey);
    assert FreebayesStep(cfg, a) == [j];
    var d1 := WithVarDict(d0, cfg, a, panel);
    var d2 := WithStrelka(d1, cfg, a, panel);
    var d3 := WithMutect2(d2, cfg, a, panel);
    assert d1[FreebayesKey] == j.output;
    assert d2[FreebayesKey] == j.output;
    assert d3[FreebayesKey] == j.output;
  }

  /** The vardict key reports the output of the vardict job that was added, a
      file of the pairing under `variants/vardict`; the job reads the target
      panel's slopped bed without its last three characters, i.e. without
      `.gz` when the bed is compressed. */
  lemma VarDictReported(cfg: Config, a: SomaticArgs)
    requires SomaticCalling(cfg, a).outcome.Ok? && "vardict" in a.callers
    ensures var r := SomaticCalling(cfg, a);
      var bed := cfg.refdata.targets[a.targetName].bedSlopped20;
      var j := VarDictJob(cfg, a, cfg.refdata.targets[a.targetName], Panel(cfg, a));
      && j in r.added
      && r.outcome.value[VardictKey] == j.output
      && j.output == a.outdir + "/variants/vardict/" + cfg.helpers.libCaptureStr(a.cancer) + "-"
                     + cfg.helpers.libCaptureStr(a.normal) + ".vardict-somatic.vcf.gz"
      && (EndsWith(bed, ".gz") ==> j.targetBed + ".gz" == bed)
  {
    var panel := Panel(cfg, a);
    AllLookupsSucceed(cfg, a);
    var bed := cfg.refdata.targets[a.targetName].bedSlopped20;
    var j := VarDictJob(cfg, a, cfg.refdata.targets[a.targetName], panel);
    assert VarDictStep(cfg, a, panel) == [j];
    assert j in PanelJobs(cfg, a, panel);
    var d1 := WithVarDict(WithFreebayes(map[], cfg, a), cfg, a, panel);
    var d2 := WithStrelka(d1, cfg, a, panel);
    var d3 := WithMutect2(d2, cfg, a, panel);
    assert d1[VardictKey] == j.output;
    assert d2[VardictKey] == j.output;
    assert d3[VardictKey] == j.output;
    if EndsWith(bed, ".gz") {
      DropLastEndsWith(bed, ".gz");
    }
  }

  /** Strelka's outputs: the SNV file is not the indel file, and both lie in
      the job's output directory; the indel candidates are read from the
      pairing's Manta directory. */
  lemma StrelkaOutputs(cfg: Config, a: SomaticArgs, panel: TargetRefs)
    ensures var j := StrelkaJob(cfg, a, panel);
      && j.outputSnvsVcf != j.outputIndelsVcf
      && StartsWith(j.outputSnvsVcf, j.outputDir)
      && StartsWith(j.outputIndelsVcf, j.outputDir)
      && j.inputIndelCandidates == a.outdir + "/variants/" + cfg.helpers.libCaptureStr(a.cancer) + "-"
                                   + cfg.helpers.libCaptureStr(a.normal) + "-manta-somatic"
  {
    var j := StrelkaJob(cfg, a, panel);
    StartsWithConcat(j.outputDir, "/results/variants/somatic.passed.snvs.vcf.gz");
    StartsWithConcat(j.outputDir, "/results/variants/somatic.passed.indels.vcf.gz");
  }

  /** Both strelka keys report the SNV output of the strelka job that was added. */
  lemma StrelkaReported(cfg: Config, a: SomaticArgs)
    requires SomaticCalling(cfg, a).outcome.Ok? && "strelka" in a.callers
    ensures var r := SomaticCalling(cfg, a);
      var j := StrelkaJob(cfg, a, Panel(cfg, a));
      && j in r.added
      && r.outcome.value[StrelkaSnvsKey] == j.outputSnvsVcf
      && r.outcome.value[StrelkaIndelsKey] == j.outputSnvsVcf
      && r.outcome.value[StrelkaIndelsKey] != j.outputIndelsVcf
  {
    var panel := Panel(cfg, a);
    AllLookupsSucceed(cfg, a);
    var j := StrelkaJob(cfg, a, panel);
    assert j in PanelJobs(cfg, a, panel);
    var d2 := WithStrelka(WithVarDict(WithFreebayes(map[], cfg, a), cfg, a, panel), cfg, a, panel);
    var d3 := WithMutect2(d2, cfg, a, panel);
    assert d3[StrelkaSnvsKey] == j.outputSnvsVcf && d3[StrelkaIndelsKey] == j.outputSnvsVcf;
    StrelkaOutputs(cfg, a, panel);
  }

  /** The mutect2 key reports the filtered output of the mutect2 job that was
      added, not its raw output. */
  lemma Mutect2Reported(cfg: Config, a: SomaticArgs)
    requires SomaticCalling(cfg, a).outcome.Ok? && "mutect2" in a.callers
    ensures var r := SomaticCalling(cfg, a);
      var j := Mutect2Job(cfg, a, Panel(cfg, a));
      && j in r.added
      && r.outcome.value[Mutect2Key] == j.outputFiltered
      && j.outputFiltered != j.output
  {
    var panel := Panel(cfg, a);
    AllLookupsSucceed(cfg, a);
    var j := Mutect2Job(cfg, a, panel);
    assert j in PanelJobs(cfg, a, panel);
    var d3 := WithMutect2(WithStrelka(WithVarDict(WithFreebayes(map[], cfg, a), cfg, a, panel), cfg, a, panel), cfg, a, panel);
    assert d3[Mutect2Key] == j.outputFiltered;
    assert |j.outputFiltered| == |j.output| + |"-filtered"|;
  }

  /** Replacing a trailing `vcf` by `Somatic.vcf`. */
  lemma ReplaceVcf(x: string, mid: string, name: string, renamed: string)
    requires name == mid + "vcf" && renamed == mid + "Somatic.vcf"
    ensures DropLast(x + name, 3) + "Somatic.vcf" == x + renamed
  {
    assert x + name == (x + mid) + "vcf";
    DropLastConcat(x + mid, "vcf");
  }

  lemma SnpNames()
    ensures "-varscan.snp.vcf" == "-varscan.snp." + "vcf"
    ensures "-varscan.snp.Somatic.vcf" == "-varscan.snp." + "Somatic.vcf"
  {
  }

  lemma IndelNames()
    ensures "-varscan.indel.vcf" == "-varscan.indel." + "vcf"
    ensures "-varscan.indel.Somatic.vcf" == "-varscan.indel." + "Somatic.vcf"
  {
  }

  /** Replacing the trailing `vcf` of VarScan's outputs by `Somatic.vcf`. */
  lemma VarscanRename(x: string)
    ensures DropLast(x + "-varscan.snp.vcf", 3) + "Somatic.vcf" == x + "-varscan.snp.Somatic.vcf"
    ensures DropLast(x + "-varscan.indel.vcf", 3) + "Somatic.vcf" == x + "-varscan.indel.Somatic.vcf"
  {
    SnpNames();
    ReplaceVcf(x, "-varscan.snp.", "-varscan.snp.vcf", "-varscan.snp.Somatic.vcf");
    IndelNames();
    ReplaceVcf(x, "-varscan.indel.", "-varscan.indel.vcf", "-varscan.indel.Somatic.vcf");
  }

  /** VarScan's keys report its outputs with the trailing `vcf` replaced by
      `Somatic.vcf`, in files named normal-then-cancer. */
  lemma VarscanReported(cfg: Config, a: SomaticArgs)
    requires SomaticCalling(cfg, a).outcome.Ok? && "varscan" in a.callers
    ensures var r := SomaticCalling(cfg, a);
      var x := a.outdir + "/variants/varscan/" + cfg.helpers.libCaptureStr(a.normal) + "-"
               + cfg.helpers.libCaptureStr(a.cancer);
      && VarscanJob(cfg, a) in r.added
      && r.outcome.value[VarscanSnvKey] == x + "-varscan.snp.Somatic.vcf"
      && r.outcome.value[VarscanIndelKey] == x + "-varscan.indel.Somatic.vcf"
  {
    var panel := Panel(cfg, a);
    AllLookupsSucceed(cfg, a);
    var j := VarscanJob(cfg, a);
    assert j in PanelJobs(cfg, a, panel);
    var x := a.outdir + "/variants/varscan/" + cfg.helpers.libCaptureStr(a.normal) + "-"
             + cfg.helpers.libCaptureStr(a.cancer);
    assert j.outputSnv == x + "-varscan.snp.vcf" && j.outputIndel == x + "-varscan.indel.vcf";
    VarscanRename(x);
  }

  /** Two requests that differ at most in names other than the five callers. */
  predicate SameRecognised(a: SomaticArgs, b: SomaticArgs) {
    && b == a.(callers := b.callers)
    && ("freebayes" in a.callers <==> "freebayes" in b.callers)
    && ("vardict" in a.callers <==> "vardict" in b.callers)
    && ("strelka" in a.callers <==> "strelka" in b.callers)
    && ("mutect2" in a.callers <==> "mutect2" in b.callers)
    && ("varscan" in a.callers <==> "varscan" in b.callers)
  }

  // The caller steps read the request only through which callers it names.

  lemma FreebayesSame(cfg: Config, a: SomaticArgs, b: SomaticArgs, d: map<Key, Path>)
    requires SameRecognised(a, b) && TargetKnown(cfg, a)
    ensures TargetKnown(cfg, b)
    ensures FreebayesStep(cfg, a) == FreebayesStep(cfg, b)
    ensures WithFreebayes(d, cfg, a) == WithFreebayes(d, cfg, b)
  {
    if "freebayes" in a.callers {
      var t := cfg.refdata.targets[a.targetName];
      assert FreebayesJob(cfg, a, t) == FreebayesJob(cfg, b, t);
    }
  }

  lemma VarDictSame(cfg: Config, a: SomaticArgs, b: SomaticArgs, panel: TargetRefs, d: map<Key, Path>)
    requires SameRecognised(a, b) && TargetKnown(cfg, a)
    ensures TargetKnown(cfg, b)
    ensures VarDictStep(cfg, a, panel) == VarDictStep(cfg, b, panel)
    ensures WithVarDict(d, cfg, a, panel) == WithVarDict(d, cfg, b, panel)
  {
    if "vardict" in a.callers {
      var t := cfg.refdata.targets[a.targetName];
      assert VarDictJob(cfg, a, t, panel) == VarDictJob(cfg, b, t, panel);
    }
  }

  lemma StrelkaSame(cfg: Config, a: SomaticArgs, b: SomaticArgs, panel: TargetRefs)
    requires SameRecognised(a, b)
    ensures StrelkaJob(cfg, a, panel) == StrelkaJob(cfg, b, panel)
  {
  }

  lemma Mutect2Same(cfg: Config, a: SomaticArgs, b: SomaticArgs, panel: TargetRefs)
    requires SameRecognised(a, b)
    ensures Mutect2Job(cfg, a, panel) == Mutect2Job(cfg, b, panel)
  {
  }

  lemma VarscanSame(cfg: Config, a: SomaticArgs, b: SomaticArgs)
    requires SameRecognised(a, b)
    ensures VarscanJob(cfg, a) == VarscanJob(cfg, b)
  {
  }

  lemma SameRecognisedPanel(cfg: Config, a: SomaticArgs, b: SomaticArgs, panel: TargetRefs, d: map<Key, Path>)
    requires SameRecognised(a, b) && TargetKnown(cfg, a)
    ensures TargetKnown(cfg, b)
    ensures PanelJobs(cfg, a, panel) == PanelJobs(cfg, b, panel)
    ensures PanelReport(d, cfg, a, panel) == PanelReport(d, cfg, b, panel)
  {
    VarDictSame(cfg, a, b, panel, d);
    StrelkaSame(cfg, a, b, panel);
    Mutect2Same(cfg, a, b, panel);
    VarscanSame(cfg, a, b);
  }

  /** `call_somatic_variants` reads the request only through which of the
      five callers it names. */
  lemma SameRecognisedCalls(cfg: Config, a: SomaticArgs, b: SomaticArgs)
    requires SameRecognised(a, b)
    ensures SomaticCalling(cfg, a) == SomaticCalling(cfg, b)
  {
    var targets := cfg.refdata.targets;
    var captureName := cfg.helpers.captureName(a.cancer.captureKitId);
    if captureName in targets && TargetKnown(cfg, a) {
      var panel := targets[captureName];
      AllLookupsSucceed(cfg, a);
      FreebayesSame(cfg, a, b, map[]);
      SameRecognisedPanel(cfg, a, b, panel, WithFreebayes(map[], cfg, a));
      AllLookupsSucceed(cfg, b);
    } else if "freebayes" in a.callers && a.targetName in targets {
      var t := targets[a.targetName];
      assert FreebayesJob(cfg, a, t) == FreebayesJob(cfg, b, t);
    }
  }

  /** A name `call_somatic_variants` does not recognise changes nothing: not
      the jobs it adds, not the map it returns, not the exception it raises. */
  lemma UnknownCallerIgnored(cfg: Config, a: SomaticArgs, x: string)
    requires x !in KnownCallers
    ensures SomaticCalling(cfg, a.(callers := a.callers + [x])) == SomaticCalling(cfg, a)
  {
    var b := a.(callers := a.callers + [x]);
    assert x != "freebayes" && x != "vardict" && x != "strelka" && x != "mutect2" && x != "varscan";
    assert SameRecognised(a, b);
    SameRecognisedCalls(cfg, a, b);
  }

}
