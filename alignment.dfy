/** Read trimming and alignment of one library (autoseq/tools/alignment.py):
    the jobs `align_library` adds for single-end and paired-end data and how
    they are wired, the read group given to the aligner, and the argument
    checks and steps of the trimming command. */
module Alignment {
  import opened Common
  import opened Jobs

  /** The arguments of `align_library` besides the pipeline. */
  datatype AlignArgs = AlignArgs(
    fq1: seq<Path>,
    fq2: seq<Path>,
    lib: string,
    ref: Path,
    outdir: Path,
    maxcores: int,
    removeDuplicates: bool)

  // ---------------------------------------------------------------------------
  // Read group and aligner

  /** The sample part of the read group: SDID-type-sample. */
  function ReadGroupSample(ld: LibDict): string {
    ld.sdid + "-" + ld.sampleType + "-" + ld.sampleId
  }

  /** The library part of the read group: SDID-type-sample-prep. */
  function ReadGroupLibrary(ld: LibDict): string {
    ld.sdid + "-" + ld.sampleType + "-" + ld.sampleId + "-" + ld.prepId
  }

  /** The quoted read-group header line with tab escapes: ID is the library
      id, SM the sample, LB the library, PL always ILLUMINA. */
  function ReadGroup(lib: string, ld: LibDict): string {
    "\"@RG\\tID:" + lib + "\\tSM:" + ReadGroupSample(ld) + "\\tLB:" + ReadGroupLibrary(ld) + "\\tPL:ILLUMINA\""
  }

  /** The read group names the library as its ID, and its LB is its SM
      extended by the preparation id, so libraries of one sample share SM. */
  lemma ReadGroupFields(lib: string, ld: LibDict)
    ensures ReadGroupLibrary(ld) == ReadGroupSample(ld) + "-" + ld.prepId
    ensures StartsWith(ReadGroup(lib, ld), "\"@RG\\tID:" + lib + "\\tSM:" + ReadGroupSample(ld) + "\\tLB:"
                                           + ReadGroupSample(ld) + "-" + ld.prepId)
  {
    var head := "\"@RG\\tID:" + lib + "\\tSM:" + ReadGroupSample(ld) + "\\tLB:" + ReadGroupLibrary(ld);
    StartsWithConcat(head, "\\tPL:ILLUMINA\"");
  }

  /** Two libraries of the same sample get the same SM and LB exactly when
      their preparation ids agree. */
  lemma ReadGroupSameSample(ld1: LibDict, ld2: LibDict)
    requires ld1.sdid == ld2.sdid && ld1.sampleType == ld2.sampleType && ld1.sampleId == ld2.sampleId
    ensures ReadGroupSample(ld1) == ReadGroupSample(ld2)
    ensures ReadGroupLibrary(ld1) == ReadGroupLibrary(ld2) <==> ld1.prepId == ld2.prepId
  {
    ReadGroupFields("", ld1);
    ReadGroupFields("", ld2);
    var pre := ReadGroupSample(ld1) + "-";
    if ReadGroupLibrary(ld1) == ReadGroupLibrary(ld2) {
      SliceConcat(pre, ld1.prepId);
      SliceConcat(pre, ld2.prepId);
    }
  }

  /** The two log files `Bwa.command` writes, named after the aligner's output. */
  function BwaLogs(j: Job): (Path, Path)
    requires j.Bwa?
  {
    (j.output + ".bwa.log", j.output + ".samblaster.log")
  }

  /** Two logs named after one output are distinct files next to it, and
      neither is the output itself. */
  lemma LogNamesDistinct(output: Path)
    ensures var (bwaLog, samblasterLog) := (output + ".bwa.log", output + ".samblaster.log");
      && bwaLog != samblasterLog
      && StartsWith(bwaLog, output) && StartsWith(samblasterLog, output)
      && bwaLog != output && samblasterLog != output
  {
    StartsWithConcat(output, ".bwa.log");
    StartsWithConcat(output, ".samblaster.log");
    if output + ".bwa.log" == output + ".samblaster.log" {
      SliceConcat(output, ".bwa.log");
      SliceConcat(output, ".samblaster.log");
    }
  }

  /** The aligner job of a library: its BAM is `outdir/lib.bam`. */
  function BwaJob(cfg: Config, a: AlignArgs, fastq1: Path, fastq2: Option<Path>): Job {
    Bwa(fastq1, fastq2, a.ref, a.removeDuplicates, ReadGroup(a.lib, cfg.helpers.libdict(a.lib)),
        a.maxcores, a.outdir + "/" + a.lib + ".bam", "bwa/" + a.lib, cfg.scratch, false)
  }

  // ---------------------------------------------------------------------------
  // Single-end libraries

  /** The trimming job of one single-end FASTQ file. */
  function SeSkewerJob(cfg: Config, a: AlignArgs, f: Path): Job {
    var fq := cfg.helpers.normpath(f);
    var bn := cfg.helpers.basename(fq);
    Skewer(fq, None, a.outdir + "/skewer/" + bn, None, a.outdir + "/skewer/skewer-stats-" + bn + ".log",
           a.maxcores, "skewer/" + bn, cfg.scratch, true)
  }

  function SeSkewerJobs(cfg: Config, a: AlignArgs): seq<Job> {
    seq(|a.fq1|, i requires 0 <= i < |a.fq1| => SeSkewerJob(cfg, a, a.fq1[i]))
  }

  /** The trimmed files, one per input file, in input order. */
  function SeTrimmed(cfg: Config, a: AlignArgs): seq<Path> {
    seq(|a.fq1|, i requires 0 <= i < |a.fq1| => SeSkewerJob(cfg, a, a.fq1[i]).output1)
  }

  function SeCatJob(cfg: Config, a: AlignArgs): Job {
    Cat(SeTrimmed(cfg, a), a.outdir + "/skewer/" + a.lib + "_1.fastq.gz", "cat/" + a.lib, false)
  }

  /** What `align_se` adds: one trimming job per file, the concatenation, the
      aligner. */
  function AlignSeJobs(cfg: Config, a: AlignArgs): seq<Job> {
    SeSkewerJobs(cfg, a) + [SeCatJob(cfg, a), BwaJob(cfg, a, SeCatJob(cfg, a).output, None)]
  }

  /** `align_se`: returns the aligner's BAM. */
  method AlignSe(p: Pipeline, a: AlignArgs) returns (bam: Path)
    modifies p`jobs
    ensures p.jobs == old(p.jobs) + AlignSeJobs(p.cfg, a)
    ensures bam == a.outdir + "/" + a.lib + ".bam"
  {
    var trimmed: seq<Path> := [];
    var i := 0;
    while i < |a.fq1|
      invariant 0 <= i <= |a.fq1|
      invariant p.jobs == old(p.jobs) + SeSkewerJobs(p.cfg, a)[..i]
      invariant trimmed == SeTrimmed(p.cfg, a)[..i]
    {
      var fq1 := p.cfg.helpers.normpath(a.fq1[i]);
      var bn := p.cfg.helpers.basename(fq1);
      var skewer := Skewer(fq1, None, a.outdir + "/skewer/" + bn, None,
                           a.outdir + "/skewer/skewer-stats-" + bn + ".log",
                           a.maxcores, "skewer/" + bn, p.cfg.scratch, true);
      trimmed := trimmed + [skewer.output1];
      p.Add(skewer);
      assert SeSkewerJobs(p.cfg, a)[..i + 1] == SeSkewerJobs(p.cfg, a)[..i] + [skewer];
      assert SeTrimmed(p.cfg, a)[..i + 1] == SeTrimmed(p.cfg, a)[..i] + [skewer.output1];
      i := i + 1;
    }
    assert SeSkewerJobs(p.cfg, a)[..i] == SeSkewerJobs(p.cfg, a);
    assert trimmed == SeTrimmed(p.cfg, a);
    var cat1 := Cat(trimmed, a.outdir + "/skewer/" + a.lib + "_1.fastq.gz", "cat/" + a.lib, false);
    p.Add(cat1);
    var bwa := Bwa(cat1.output, None, a.ref, a.removeDuplicates, ReadGroup(a.lib, p.cfg.helpers.libdict(a.lib)),
                   a.maxcores, a.outdir + "/" + a.lib + ".bam", "bwa/" + a.lib, p.cfg.scratch, false);
    p.Add(bwa);
    bam := bwa.output;
  }

  // ---------------------------------------------------------------------------
  // Paired-end libraries

  /** The trimming job of one pair of FASTQ files. */
  function PeSkewerJob(cfg: Config, a: AlignArgs, f1: Path, f2: Path): Job {
    var fq1 := cfg.helpers.normpath(f1);
    var fq2 := cfg.helpers.normpath(f2);
    var bn1 := cfg.helpers.basename(fq1);
    var bn2 := cfg.helpers.basename(fq2);
    Skewer(fq1, Some(fq2), a.outdir + "/skewer/libs/" + bn1, Some(a.outdir + "/skewer/libs/" + bn2),
           a.outdir + "/skewer/libs/skewer-stats-" + bn1 + ".log", a.maxcores, "skewer/" + bn1, cfg.scratch, true)
  }

  /** `align_pe` pairs the k-th files of the two lists, so it needs at least
      as many second files as first ones; extra second files are ignored. */
  predicate Paired(a: AlignArgs) {
    |a.fq1| <= |a.fq2|
  }

  function PeSkewerJobs(cfg: Config, a: AlignArgs): seq<Job>
    requires Paired(a)
  {
    seq(|a.fq1|, i requires 0 <= i < |a.fq1| => PeSkewerJob(cfg, a, a.fq1[i], a.fq2[i]))
  }

  function PeTrimmed1(cfg: Config, a: AlignArgs): seq<Path>
    requires Paired(a)
  {
    seq(|a.fq1|, i requires 0 <= i < |a.fq1| => PeSkewerJob(cfg, a, a.fq1[i], a.fq2[i]).output1)
  }

  function PeTrimmed2(cfg: Config, a: AlignArgs): seq<Path>
    requires Paired(a)
  {
    seq(|a.fq1|, i requires 0 <= i < |a.fq1| => PeSkewerJob(cfg, a, a.fq1[i], a.fq2[i]).output2.value)
  }

  function PeCat1Job(cfg: Config, a: AlignArgs): Job
    requires Paired(a)
  {
    Cat(PeTrimmed1(cfg, a), a.outdir + "/skewer/" + a.lib + "-concatenated_1.fastq.gz", "cat1/" + a.lib, true)
  }

  function PeCat2Job(cfg: Config, a: AlignArgs): Job
    requires Paired(a)
  {
    Cat(PeTrimmed2(cfg, a), a.outdir + "/skewer/" + a.lib + "-concatenated_2.fastq.gz", "cat2/" + a.lib, true)
  }

  /** What `align_pe` adds: one trimming job per pair, the two
      concatenations, the aligner. */
  function AlignPeJobs(cfg: Config, a: AlignArgs): seq<Job>
    requires Paired(a)
  {
    PeSkewerJobs(cfg, a)
    + [PeCat1Job(cfg, a), PeCat2Job(cfg, a),
       BwaJob(cfg, a, PeCat1Job(cfg, a).output, Some(PeCat2Job(cfg, a).output))]
  }

  /** `align_pe`: returns the aligner's BAM, or raises IndexError, before
      adding anything, when a first file has no second file. */
  method AlignPe(p: Pipeline, a: AlignArgs) returns (r: Result<Path>)
    modifies p`jobs
    ensures !Paired(a) ==> r == Err(IndexError) && p.jobs == old(p.jobs)
    ensures Paired(a) ==> r == Ok(a.outdir + "/" + a.lib + ".bam") && p.jobs == old(p.jobs) + AlignPeJobs(p.cfg, a)
  {
    if |a.fq2| < |a.fq1| {
      return Err(IndexError);
    }
    var trimmed1: seq<Path> := [];
    var trimmed2: seq<Path> := [];
    var i := 0;
    while i < |a.fq1|
      invariant 0 <= i <= |a.fq1|
      invariant p.jobs == old(p.jobs) + PeSkewerJobs(p.cfg, a)[..i]
      invariant trimmed1 == PeTrimmed1(p.cfg, a)[..i]
      invariant trimmed2 == PeTrimmed2(p.cfg, a)[..i]
    {
      var fq1 := p.cfg.helpers.normpath(a.fq1[i]);
      var fq2 := p.cfg.helpers.normpath(a.fq2[i]);
      var bn1 := p.cfg.helpers.basename(fq1);
      var bn2 := p.cfg.helpers.basename(fq2);
      var skewer := Skewer(fq1, Some(fq2), a.outdir + "/skewer/libs/" + bn1, Some(a.outdir + "/skewer/libs/" + bn2),
                           a.outdir + "/skewer/libs/skewer-stats-" + bn1 + ".log", a.maxcores, "skewer/" + bn1,
                           p.cfg.scratch, true);
      trimmed1 := trimmed1 + [skewer.output1];
      trimmed2 := trimmed2 + [skewer.output2.value];
      p.Add(skewer);
      assert PeSkewerJobs(p.cfg, a)[..i + 1] == PeSkewerJobs(p.cfg, a)[..i] + [skewer];
      assert PeTrimmed1(p.cfg, a)[..i + 1] == PeTrimmed1(p.cfg, a)[..i] + [skewer.output1];
      assert PeTrimmed2(p.cfg, a)[..i + 1] == PeTrimmed2(p.cfg, a)[..i] + [skewer.output2.value];
      i := i + 1;
    }
    assert PeSkewerJobs(p.cfg, a)[..i] == PeSkewerJobs(p.cfg, a);
    assert trimmed1 == PeTrimmed1(p.cfg, a);
    assert trimmed2 == PeTrimmed2(p.cfg, a);
    var cat1 := Cat(trimmed1, a.outdir + "/skewer/" + a.lib + "-concatenated_1.fastq.gz", "cat1/" + a.lib, true);
    p.Add(cat1);
    var cat2 := Cat(trimmed2, a.outdir + "/skewer/" + a.lib + "-concatenated_2.fastq.gz", "cat2/" + a.lib, true);
    p.Add(cat2);
    var bwa := Bwa(cat1.output, Some(cat2.output), a.ref, a.removeDuplicates,
                   ReadGroup(a.lib, p.cfg.helpers.libdict(a.lib)), a.maxcores, a.outdir + "/" + a.lib + ".bam",
                   "bwa/" + a.lib, p.cfg.scratch, false);
    p.Add(bwa);
    r := Ok(bwa.output);
  }

  // ---------------------------------------------------------------------------
  // align_library

  /** What `align_library` does: the jobs it adds and the BAM it returns or
      the exception it raises. */
  datatype Aligned = Aligned(added: seq<Job>, outcome: Result<Path>)

  /** `align_library`: single-end when there are no second files,
      paired-end otherwise. */
  function AlignLibrarySpec(cfg: Config, a: AlignArgs): (r: Aligned)
    ensures r.outcome.Ok? <==> a.fq2 == [] || Paired(a)
    ensures r.outcome.Err? ==> r.outcome.error == IndexError && r.added == []
  {
    if a.fq2 == [] then Aligned(AlignSeJobs(cfg, a), Ok(a.outdir + "/" + a.lib + ".bam"))
    else if !Paired(a) then Aligned([], Err(IndexError))
    else Aligned(AlignPeJobs(cfg, a), Ok(a.outdir + "/" + a.lib + ".bam"))
  }

  method AlignLibrary(p: Pipeline, a: AlignArgs) returns (r: Result<Path>)
    modifies p`jobs
    ensures p.jobs == old(p.jobs) + AlignLibrarySpec(p.cfg, a).added
    ensures r == AlignLibrarySpec(p.cfg, a).outcome
  {
    if a.fq2 == [] {
      var bam := AlignSe(p, a);
      r := Ok(bam);
    } else {
      r := AlignPe(p, a);
    }
  }

  /** The last job `align_library` adds is the aligner, writing the BAM it
      returns; it is given a second FASTQ exactly when the library has
      second files, i.e. it aligns single-end exactly when there are none. */
  lemma AlignerLast(cfg: Config, a: AlignArgs)
    ensures var r := AlignLibrarySpec(cfg, a);
      r.outcome.Ok? ==>
        && |r.added| > 0
        && var bwa := r.added[|r.added| - 1];
        && bwa.Bwa?
        && bwa.output == r.outcome.value
        && (bwa.inputFastq2.None? <==> a.fq2 == [])
  {
  }

  /** The aligner `align_library` adds writes its two logs next to the BAM
      it returns: two distinct files, neither of them that BAM. */
  lemma AlignerLogs(cfg: Config, a: AlignArgs)
    ensures var r := AlignLibrarySpec(cfg, a);
      r.outcome.Ok? ==>
        && |r.added| > 0
        && var (bwaLog, samblasterLog) := BwaLogs(r.added[|r.added| - 1]);
        && bwaLog == r.outcome.value + ".bwa.log"
        && samblasterLog == r.outcome.value + ".samblaster.log"
        && bwaLog != samblasterLog
        && bwaLog != r.outcome.value && samblasterLog != r.outcome.value
  {
    AlignerLast(cfg, a);
    var r := AlignLibrarySpec(cfg, a);
    if r.outcome.Ok? {
      LogNamesDistinct(r.outcome.value);
    }
  }

  /** Single-end: one trimming job per file, reading the normalised file and
      nothing as its mate, then the concatenation of their outputs in input
      order, then the aligner reading the concatenation. */
  lemma AlignSeWiring(cfg: Config, a: AlignArgs)
    ensures var js := AlignSeJobs(cfg, a); var n := |a.fq1|;
      && |js| == n + 2
      && (forall k :: 0 <= k < n ==>
            js[k].Skewer? && js[k].input1 == cfg.helpers.normpath(a.fq1[k]) && js[k].input2.None?)
      && js[n].Cat? && |js[n].input| == n
      && (forall k :: 0 <= k < n ==> js[n].input[k] == js[k].output1)
      && js[n + 1].Bwa? && js[n + 1].inputFastq1 == js[n].output && js[n + 1].inputFastq2.None?
  {
    var js := AlignSeJobs(cfg, a);
    var n := |a.fq1|;
    forall k | 0 <= k < n
      ensures js[k].Skewer? && js[k].input1 == cfg.helpers.normpath(a.fq1[k]) && js[k].input2.None?
      ensures js[n].input[k] == js[k].output1
    {
      assert js[k] == SeSkewerJob(cfg, a, a.fq1[k]);
    }
  }

  /** Paired-end: the k-th trimming job reads the k-th files of both lists;
      the first concatenation joins the first outputs in order, the second
      the second outputs; the aligner reads the two concatenations. */
  lemma AlignPeWiring(cfg: Config, a: AlignArgs)
    requires Paired(a)
    ensures var js := AlignPeJobs(cfg, a); var n := |a.fq1|;
      && |js| == n + 3
      && (forall k :: 0 <= k < n ==>
            && js[k].Skewer? && js[k].input1 == cfg.helpers.normpath(a.fq1[k])
            && js[k].input2 == Some(cfg.helpers.normpath(a.fq2[k])) && js[k].output2.Some?)
      && js[n].Cat? && js[n + 1].Cat? && |js[n].input| == n && |js[n + 1].input| == n
      && (forall k :: 0 <= k < n ==> js[n].input[k] == js[k].output1 && js[n + 1].input[k] == js[k].output2.value)
      && js[n + 2].Bwa? && js[n + 2].inputFastq1 == js[n].output && js[n + 2].inputFastq2 == Some(js[n + 1].output)
  {
    var js := AlignPeJobs(cfg, a);
    var n := |a.fq1|;
    forall k | 0 <= k < n
      ensures && js[k].Skewer? && js[k].input1 == cfg.helpers.normpath(a.fq1[k])
              && js[k].input2 == Some(cfg.helpers.normpath(a.fq2[k])) && js[k].output2.Some?
      ensures js[n].input[k] == js[k].output1 && js[n + 1].input[k] == js[k].output2.value
    {
      assert js[k] == PeSkewerJob(cfg, a, a.fq1[k], a.fq2[k]);
    }
  }

  // ---------------------------------------------------------------------------
  // Skewer.command

  /** Python's `os.path.join(a, b)` for a relative `b`. */
  function PathJoin(a: Path, b: Path): Path {
    if a == "" then b else if EndsWith(a, "/") then a + b else a + "/" + b
  }

  /** Copies the trimmed first file, and the second one only for a truthy
      second input. */
  function CopyStep(prefix: Path, output1: Path, input2: Option<Path>, output2: Path): string {
    "cp " + prefix + "-trimmed-pair1.fastq.gz" + " " + output1
    + Conditional(Truthy(input2), " && cp " + prefix + "-trimmed-pair2.fastq.gz" + " " + output2)
  }

  /** The five steps of `Skewer.command` once its checks have passed, with
      `output2` the second output's path. */
  function SkewerRun(j: Job, uuid: string, output2: Path): seq<string>
    requires j.Skewer?
  {
    var tmpdir := PathJoin(j.scratch, "skewer-" + uuid);
    var prefix := tmpdir + "/skewer";
    // The prefix and the first input are always set, so their `required`
    // cannot fail.
    var skewer := "skewer -z " + Optional("-t ", Some(IntToString(j.threads))) + " --quiet " + Pad("-o " + prefix)
                  + Pad(j.input1) + Optional("", j.input2);
    ["mkdir -p " + tmpdir, skewer, CopyStep(prefix, j.output1, j.input2, output2),
     "cp " + prefix + "-trimmed.log" + " " + j.stats, "rm -r " + tmpdir]
  }

  /** The steps of `Skewer.command` for a Skewer job; `uuid` is the fresh
      identifier of its temporary directory. Both outputs must be named
      `.gz`: otherwise ValueError, and AttributeError when the first is
      named `.gz` but the second output is not set at all. */
  function SkewerSteps(j: Job, uuid: string): (r: Result<seq<string>>)
    requires j.Skewer?
    ensures r.Ok? <==> EndsWith(j.output1, ".gz") && j.output2.Some? && EndsWith(j.output2.value, ".gz")
    ensures !EndsWith(j.output1, ".gz") ==> r.Err? && r.error.ValueError?
    ensures EndsWith(j.output1, ".gz") && j.output2.None? ==> r.Err? && r.error.AttributeError?
    ensures r.Ok? ==> |r.value| == 5
  {
    if !EndsWith(j.output1, ".gz") then Err(ValueError("Output files need to end with .gz"))
    else if j.output2.None? then Err(AttributeError("endswith"))
    else if !EndsWith(j.output2.value, ".gz") then Err(ValueError("Output files need to end with .gz"))
    else Ok(SkewerRun(j, uuid, j.output2.value))
  }

  /** What `Skewer.command` evidently intends, which takes two corrections:
      the check names only outputs that are set (every one must be named
      `.gz`), and the copy of the second trimmed file is built only when
      there is a second input, so a second output is needed only then. */
  function SkewerStepsIntended(j: Job, uuid: string): (r: Result<seq<string>>)
    requires j.Skewer?
    ensures r.Ok? <==> && EndsWith(j.output1, ".gz")
                       && (j.output2.Some? ==> EndsWith(j.output2.value, ".gz"))
                       && (Truthy(j.input2) ==> j.output2.Some?)
    ensures r.Ok? ==> |r.value| == 5
  {
    if !EndsWith(j.output1, ".gz") || (j.output2.Some? && !EndsWith(j.output2.value, ".gz")) then
      Err(ValueError("Output files need to end with .gz"))
    else if Truthy(j.input2) && j.output2.None? then
      Err(TypeError("second output is not set"))
    else
      // Without a second input the copy step never reads the second output,
      // so the placeholder for an unset one does not reach the command.
      Ok(SkewerRun(j, uuid, if j.output2.Some? then j.output2.value else ""))
  }

  /** The copy step as written: the second copy is concatenated before
      `conditional` looks at the second input, so an unset second output
      raises TypeError even without a second input. */
  function CopyStepAsWritten(prefix: Path, output1: Path, input2: Option<Path>, output2: Option<Path>): (r: Result<string>)
    ensures r.Ok? <==> output2.Some?
    ensures output2.None? ==> r.error.TypeError?
  {
    if output2.None? then Err(TypeError("can only concatenate str (not \"NoneType\") to str"))
    else Ok(CopyStep(prefix, output1, input2, output2.value))
  }

  /** The intended check changes nothing for a job whose second output is set. */
  lemma SkewerIntendedAgrees(j: Job, uuid: string)
    requires j.Skewer? && j.output2.Some?
    ensures SkewerStepsIntended(j, uuid) == SkewerSteps(j, uuid)
  {
  }

  /** `Skewer.command`: the steps joined with ` && `. */
  function SkewerCommand(j: Job, uuid: string): (r: Result<string>)
    requires j.Skewer?
    ensures r.Ok? <==> SkewerSteps(j, uuid).Ok?
  {
    var steps :- SkewerSteps(j, uuid);
    Ok(Join(" && ", steps))
  }

  /** Five steps: make the temporary directory, trim into it, copy the
      trimmed files out (the second only for a truthy second input), copy
      the statistics, remove the same directory. */
  lemma SkewerFiveSteps(j: Job, uuid: string)
    requires j.Skewer? && SkewerCommand(j, uuid).Ok?
    ensures var s := SkewerSteps(j, uuid).value; var tmpdir := PathJoin(j.scratch, "skewer-" + uuid);
      && SkewerCommand(j, uuid).value == s[0] + " && " + s[1] + " && " + s[2] + " && " + s[3] + " && " + s[4]
      && s[0] == "mkdir -p " + tmpdir
      && s[4] == "rm -r " + tmpdir
      && var prefix := tmpdir + "/skewer";
      && EndsWith(s[1], Pad("-o " + prefix) + Pad(j.input1) + Optional("", j.input2))
      && StartsWith(s[2], "cp " + prefix + "-trimmed-pair1.fastq.gz" + " " + j.output1)
      && (Truthy(j.input2) ==> EndsWith(s[2], Pad(" && cp " + prefix + "-trimmed-pair2.fastq.gz" + " " + j.output2.value)))
      && (!Truthy(j.input2) ==> s[2] == "cp " + prefix + "-trimmed-pair1.fastq.gz" + " " + j.output1)
      && s[3] == "cp " + prefix + "-trimmed.log" + " " + j.stats
  {
    var s := SkewerSteps(j, uuid).value;
    JoinFive(" && ", s[0], s[1], s[2], s[3], s[4]);
    assert s == [s[0], s[1], s[2], s[3], s[4]];
    var tmpdir := PathJoin(j.scratch, "skewer-" + uuid);
    var prefix := tmpdir + "/skewer";
    CopyStepShape(prefix, j.output1, j.input2, j.output2.value);
    TrimStepEnd("skewer -z " + Optional("-t ", Some(IntToString(j.threads))) + " --quiet ",
                Pad("-o " + prefix), Pad(j.input1), Optional("", j.input2));
  }

  /** The trimming step ends with its output prefix and its inputs. */
  lemma TrimStepEnd(head: string, out: string, in1: string, in2: string)
    ensures EndsWith(head + out + in1 + in2, out + in1 + in2)
  {
    assert head + out + in1 + in2 == head + (out + in1 + in2);
    EndsWithConcat(head, out + in1 + in2);
  }

  lemma CopyStepShape(prefix: Path, output1: Path, input2: Option<Path>, output2: Path)
    ensures var c := CopyStep(prefix, output1, input2, output2);
      && StartsWith(c, "cp " + prefix + "-trimmed-pair1.fastq.gz" + " " + output1)
      && (Truthy(input2) ==> EndsWith(c, Pad(" && cp " + prefix + "-trimmed-pair2.fastq.gz" + " " + output2)))
      && (!Truthy(input2) ==> c == "cp " + prefix + "-trimmed-pair1.fastq.gz" + " " + output1)
  {
    var first := "cp " + prefix + "-trimmed-pair1.fastq.gz" + " " + output1;
    var second := " && cp " + prefix + "-trimmed-pair2.fastq.gz" + " " + output2;
    StartsWithConcat(first, Conditional(Truthy(input2), second));
    EndsWithConcat(first, Pad(second));
    assert first + "" == first;
  }

  /** Every trimming job of a paired-end library generates its command when
      both file names end with `.gz`, and copies both trimmed files. */
  lemma PeSkewerCommandOk(cfg: Config, a: AlignArgs, f1: Path, f2: Path, uuid: string)
    requires EndsWith(cfg.helpers.basename(cfg.helpers.normpath(f1)), ".gz")
    requires EndsWith(cfg.helpers.basename(cfg.helpers.normpath(f2)), ".gz")
    ensures SkewerCommand(PeSkewerJob(cfg, a, f1, f2), uuid).Ok?
  {
    var bn1 := cfg.helpers.basename(cfg.helpers.normpath(f1));
    var bn2 := cfg.helpers.basename(cfg.helpers.normpath(f2));
    EndsWithExtend(a.outdir + "/skewer/libs/", bn1, ".gz");
    EndsWithExtend(a.outdir + "/skewer/libs/", bn2, ".gz");
  }

  /** The trimming jobs `align_se` adds leave the second output unset, so
      generating their command as written always fails. */
  lemma SeSkewerCommandFails(cfg: Config, a: AlignArgs, f: Path, uuid: string)
    ensures SkewerCommand(SeSkewerJob(cfg, a, f), uuid).Err?
  {
  }

  /** Correcting the check alone is not enough: the copy step as written
      still fails for every trimming job `align_se` adds. */
  lemma SeCopyStepFails(cfg: Config, a: AlignArgs, f: Path, prefix: Path)
    ensures var j := SeSkewerJob(cfg, a, f);
      && j.input2.None? && j.output2.None?
      && CopyStepAsWritten(prefix, j.output1, j.input2, j.output2) == Err(TypeError("can only concatenate str (not \"NoneType\") to str"))
  {
  }

  /** Under the intended check a single-end trimming job of a `.gz` file
      generates its five steps, and copies out only the one trimmed file. */
  lemma SeSkewerIntendedOk(cfg: Config, a: AlignArgs, f: Path, uuid: string)
    requires EndsWith(cfg.helpers.basename(cfg.helpers.normpath(f)), ".gz")
    ensures var j := SeSkewerJob(cfg, a, f); var r := SkewerStepsIntended(j, uuid);
      && r.Ok?
      && r.value[2] == "cp " + (PathJoin(cfg.scratch, "skewer-" + uuid) + "/skewer") + "-trimmed-pair1.fastq.gz" + " " + j.output1
  {
    var j := SeSkewerJob(cfg, a, f);
    EndsWithExtend(a.outdir + "/skewer/", cfg.helpers.basename(cfg.helpers.normpath(f)), ".gz");
    CopyStepShape(PathJoin(cfg.scratch, "skewer-" + uuid) + "/skewer", j.output1, None, "");
  }
}
