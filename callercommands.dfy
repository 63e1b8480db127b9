/** The command lines of three caller jobs of autoseq/tools/variantcalling.py:
    the conditional parts of VEP and VcfAddSample, and the argument checks and
    step structure of StrelkaSomatic. A job's attributes that Python leaves
    `None` by default are `Option`s. */
module CallerCommands {
  import opened Common
  import opened Jobs

  // ---------------------------------------------------------------------------
  // VEP

  /** The attributes of a `VEP` job that its command reads. */
  datatype Vep = Vep(
    inputVcf: Option<Path>,
    outputVcf: Option<Path>,
    referenceSequence: Option<Path>,
    vepDir: Option<Path>,
    additionalOptions: string,
    threads: int)

  /** The fixed options VEP always runs with. */
  const VepOptions: string :=
    " --check_existing  --total_length --allele_number  --no_escape --no_stats --everything --offline "

  /** The program, the additional options and the three required arguments. */
  function VepCall(options: string, dir: string, fasta: string, input: string): string {
    "variant_effect_predictor.pl --vcf --output_file STDOUT " + options + dir + fasta + input
  }

  /** The fork option, which VEP refuses with one process. */
  function VepFork(threads: int): (r: string)
    ensures threads <= 1 ==> r == ""
  {
    if threads > 1 then " --fork " + IntToString(threads) + " " else ""
  }

  /** The compression stage, only for a gzipped output. */
  function VepBgzip(out: Path): (r: string)
    ensures EndsWith(out, "gz") ==> r == " | bgzip "
    ensures !EndsWith(out, "gz") ==> r == ""
  {
    if EndsWith(out, "gz") then " | bgzip " else ""
  }

  /** The redirection into the output and its indexing. */
  function VepTail(out: Path): (r: string)
    ensures EndsWith(r, " && tabix -p vcf " + out)
  {
    Assoc3(" > " + Pad(out), " && tabix -p vcf ", out);
    EndsWithConcat(" > " + Pad(out), " && tabix -p vcf " + out);
    " > " + Pad(out) + " && tabix -p vcf " + out
  }

  /** `VEP.command`. A missing output raises AttributeError (its `endswith`
      is read first); a missing VEP directory, reference or input is
      refused by `required`. */
  function VepCommand(v: Vep): (r: Result<string>)
    ensures r.Ok? <==> v.outputVcf.Some? && v.vepDir.Some? && v.referenceSequence.Some? && v.inputVcf.Some?
    ensures v.outputVcf.None? ==> r == Err(AttributeError("endswith"))
  {
    if v.outputVcf.None? then Err(AttributeError("endswith"))
    else
      var out := v.outputVcf.value;
      var dir :- Required("--dir ", v.vepDir);
      var fasta :- Required("--fasta ", v.referenceSequence);
      var input :- Required("-i ", v.inputVcf);
      // `required("", output_vcf)` cannot fail once `endswith` was read.
      Ok(VepCall(v.additionalOptions, dir, fasta, input) + VepOptions + VepFork(v.threads) + VepBgzip(out) + VepTail(out))
  }

  /** The part of a successful VEP command before the fixed options. */
  function VepPrefix(v: Vep): string
    requires v.vepDir.Some? && v.referenceSequence.Some? && v.inputVcf.Some?
  {
    VepCall(v.additionalOptions, Pad("--dir " + v.vepDir.value), Pad("--fasta " + v.referenceSequence.value), Pad("-i " + v.inputVcf.value))
  }

  lemma VepShape(v: Vep)
    requires VepCommand(v).Ok?
    ensures VepCommand(v).value ==
      VepPrefix(v) + VepOptions + VepFork(v.threads) + VepBgzip(v.outputVcf.value) + VepTail(v.outputVcf.value)
  {
  }

  /** The thread count changes the command only by the fork option: with
      one thread (or fewer) the command is the single-threaded one, with
      more it is the single-threaded one with ` --fork N ` inserted after
      the fixed options. */
  lemma VepThreads(v: Vep)
    ensures VepCommand(v).Ok? <==> VepCommand(v.(threads := 1)).Ok?
    ensures v.threads <= 1 ==> VepCommand(v) == VepCommand(v.(threads := 1))
    ensures VepCommand(v).Ok? ==>
      var base := VepCommand(v.(threads := 1)).value;
      var k := |VepPrefix(v) + VepOptions|;
      && k <= |base|
      && VepCommand(v).value == base[..k] + VepFork(v.threads) + base[k..]
      && (v.threads > 1 ==> VepFork(v.threads) == " --fork " + IntToString(v.threads) + " ")
  {
    var w := v.(threads := 1);
    if VepCommand(v).Ok? {
      VepShape(v);
      VepShape(w);
      var p, f, b, t := VepPrefix(v) + VepOptions, VepFork(v.threads), VepBgzip(v.outputVcf.value), VepTail(v.outputVcf.value);
      var base := VepCommand(w).value;
      assert base == p + "" + b + t;
      assert p + "" == p;
      Assoc3(p, b, t);
      SliceConcat(p, b + t);
      Assoc3(p + f, b, t);
    }
  }

  /** The output is piped through bgzip exactly when its name ends with
      `gz`; it is indexed with tabix either way. */
  lemma VepCompression(v: Vep)
    requires VepCommand(v).Ok?
    ensures var out := v.outputVcf.value; var cmd := VepCommand(v).value;
      && (EndsWith(out, "gz") ==> EndsWith(cmd, " | bgzip " + VepTail(out)))
      && (!EndsWith(out, "gz") ==> EndsWith(cmd, VepOptions + VepFork(v.threads) + VepTail(out)))
      && EndsWith(cmd, " && tabix -p vcf " + out)
  {
    var out := v.outputVcf.value;
    VepShape(v);
    var x, o, f, b, t := VepPrefix(v), VepOptions, VepFork(v.threads), VepBgzip(out), VepTail(out);
    var cmd := x + o + f + b + t;
    Assoc3(x + o + f, b, t);
    EndsWithConcat(x + o + f, b + t);
    if !EndsWith(out, "gz") {
      assert x + o + f + "" == x + o + f;
      Assoc3(x + o, f, t);
      Assoc3(x, o, f + t);
      Assoc3(o, f, t);
      EndsWithConcat(x, o + f + t);
    }
    EndsWithExtend(x + o + f + b, t, " && tabix -p vcf " + out);
  }

  // ---------------------------------------------------------------------------
  // VcfAddSample

  /** The attributes of a `VcfAddSample` job that its command reads. */
  datatype VcfAddSample = VcfAddSample(
    inputVcf: Option<Path>,
    inputBam: Option<Path>,
    samplename: Option<string>,
    filterHom: bool,
    output: Option<Path>,
    scratch: Path)

  /** The filtered intermediate file in scratch; `uuid` is the fresh
      identifier Python draws for it. */
  function FilteredVcf(j: VcfAddSample, uuid: string): Path {
    j.scratch + "/" + uuid + ".vcf.gz"
  }

  /** The first step, which writes the filtered intermediate file. */
  function FilterStep(input: Path, filt: Path): (r: string)
    ensures EndsWith(r, " > " + filt)
  {
    var head := "vcf_filter.py --no-filtered " + input + " sq --site-quality 5 " + "|bgzip";
    Assoc3(head, " > ", filt);
    EndsWithConcat(head, " > " + filt);
    head + " > " + filt
  }

  /** The second step up to and including the intermediate file it reads. */
  function AddSampleHead(filterHom: bool, name: string, filt: Path): string {
    "vcf_add_sample.py " + Conditional(filterHom, "--filter_hom") + name + filt + " "
  }

  /** The redirection of the second step: compressed and indexed only for a
      gzipped output. */
  function AddSampleTail(out: Path): (r: string)
    ensures EndsWith(out, "gz") ==> r == "| bgzip" + " > " + out + " && tabix -p vcf " + out
    ensures !EndsWith(out, "gz") ==> r == " > " + out
  {
    var bgzip := if EndsWith(out, "gz") then "| bgzip" else "";
    var tabix := if EndsWith(out, "gz") then " && tabix -p vcf " + out else "";
    assert "" + " > " + out + "" == " > " + out;
    bgzip + " > " + out + tabix
  }

  /** The steps of `VcfAddSample.command`: filter into the intermediate
      file, add the sample's tags to it, remove it. A missing output raises
      AttributeError (its `endswith` is read first); a missing input VCF,
      sample name or BAM is refused by `required`. */
  function VcfAddSampleSteps(j: VcfAddSample, uuid: string): (r: Result<seq<string>>)
    ensures r.Ok? <==> j.output.Some? && j.inputVcf.Some? && j.samplename.Some? && j.inputBam.Some?
  {
    var filt := FilteredVcf(j, uuid);
    if j.output.None? then Err(AttributeError("endswith"))
    else
      var input :- Required("", j.inputVcf);
      var name :- Required("--samplename ", j.samplename);
      var bam :- Required("", j.inputBam);
      Ok([FilterStep(input, filt), AddSampleHead(j.filterHom, name, filt) + bam + AddSampleTail(j.output.value),
          "rm " + filt])
  }

  /** `VcfAddSample.command`: the steps joined with ` && `. */
  function VcfAddSampleCommand(j: VcfAddSample, uuid: string): (r: Result<string>)
    ensures r.Ok? <==> VcfAddSampleSteps(j, uuid).Ok?
  {
    var steps :- VcfAddSampleSteps(j, uuid);
    Ok(Join(" && ", steps))
  }

  /** The command is three steps whatever the output: the first writes the
      intermediate file, the second reads it, the third removes it. */
  lemma VcfAddSampleThreeSteps(j: VcfAddSample, uuid: string)
    requires VcfAddSampleCommand(j, uuid).Ok?
    ensures var s := VcfAddSampleSteps(j, uuid).value; var filt := FilteredVcf(j, uuid);
      && |s| == 3
      && VcfAddSampleCommand(j, uuid).value == s[0] + " && " + s[1] + " && " + s[2]
      && EndsWith(s[0], " > " + filt)
      && StartsWith(s[1], AddSampleHead(j.filterHom, Pad("--samplename " + j.samplename.value), filt))
      && s[2] == "rm " + filt
  {
    var s := VcfAddSampleSteps(j, uuid).value;
    var filt := FilteredVcf(j, uuid);
    JoinThree(" && ", s[0], s[1], s[2]);
    assert s == [s[0], s[1], s[2]];
    var head := AddSampleHead(j.filterHom, Pad("--samplename " + j.samplename.value), filt);
    StartsWithConcat(head, Pad(j.inputBam.value));
    StartsWithExtend(head + Pad(j.inputBam.value), AddSampleTail(j.output.value), head);
  }

  /** The second step of a generated command: head, BAM, redirection. */
  lemma AddSampleStep(j: VcfAddSample, uuid: string)
    requires VcfAddSampleSteps(j, uuid).Ok?
    ensures var s := VcfAddSampleSteps(j, uuid).value;
      && |s| == 3
      && s[1] == AddSampleHead(j.filterHom, Pad("--samplename " + j.samplename.value), FilteredVcf(j, uuid))
                 + Pad(j.inputBam.value) + AddSampleTail(j.output.value)
  {
  }

  /** The second step ends in bgzip and tabix exactly when the output's name
      ends with `gz`, and otherwise writes the output directly. */
  lemma VcfAddSampleCompression(j: VcfAddSample, uuid: string)
    requires VcfAddSampleCommand(j, uuid).Ok?
    ensures var s := VcfAddSampleSteps(j, uuid).value; var out := j.output.value;
      && |s| == 3
      && (EndsWith(out, "gz") ==> EndsWith(s[1], "| bgzip" + " > " + out + " && tabix -p vcf " + out))
      && (!EndsWith(out, "gz") ==> EndsWith(s[1], Pad(j.inputBam.value) + " > " + out))
  {
    AddSampleStep(j, uuid);
    var out := j.output.value;
    var head := AddSampleHead(j.filterHom, Pad("--samplename " + j.samplename.value), FilteredVcf(j, uuid));
    TailEndings(head, Pad(j.inputBam.value), AddSampleTail(out));
  }

  /** What a concatenation of three parts ends with. */
  lemma TailEndings(head: string, bam: string, tail: string)
    ensures EndsWith(head + bam + tail, tail)
    ensures EndsWith(head + bam + tail, bam + tail)
  {
    EndsWithConcat(head + bam, tail);
    Assoc3(head, bam, tail);
    EndsWithConcat(head, bam + tail);
  }

  // ---------------------------------------------------------------------------
  // StrelkaSomatic

  /** The attributes of a `StrelkaSomatic` job that its command reads. */
  datatype StrelkaParams = StrelkaParams(
    inputTumor: Option<Path>,
    inputNormal: Option<Path>,
    referenceSequence: Option<Path>,
    targetBed: Option<Path>,
    inputIndelCandidates: Option<Path>,
    outputDir: Option<Path>,
    outputSnvsVcf: Option<Path>,
    outputIndelsVcf: Option<Path>)

  /** The candidate indel file inside the Manta run directory. */
  function IndelCandidatesFile(mantaDir: string): Path {
    mantaDir + "/results/variants/candidateSmallIndels.vcf.gz"
  }

  /** The configuration call up to its call regions. */
  function ConfigureHead(normal: Path, tumor: Path, ref: Path, bed: Path): string {
    "configureStrelkaSomaticWorkflow.py --targeted " + " --normalBam " + normal + " --tumorBam " + tumor
    + " --ref " + ref + " --callRegions " + bed
  }

  /** The configuration call, up to and including its run directory. */
  function StrelkaConfigure(normal: Path, tumor: Path, ref: Path, bed: Path, candidates: string, dir: Path): (r: string)
    ensures Contains(r, IndelCandidatesFile(candidates))
    ensures EndsWith(r, " --runDir " + dir)
  {
    var head := ConfigureHead(normal, tumor, ref, bed) + " --indelCandidates ";
    var file := IndelCandidatesFile(candidates);
    ContainsMiddle(head, file, " ");
    ContainsExtend(head + file + " ", " --runDir ", file);
    ContainsExtend(head + file + " " + " --runDir ", dir, file);
    Assoc3(head + file + " ", " --runDir ", dir);
    EndsWithConcat(head + file + " ", " --runDir " + dir);
    head + file + " " + " --runDir " + dir
  }

  /** Configuring the workflow and then running it in its directory. */
  function RunStep(configure: string, dir: Path): string {
    configure + " && " + dir + "/runWorkflow.py -m local -j 20"
  }

  /** One of the raw outputs of the workflow (`kind` is `snvs` or `indels`). */
  function RawOutput(dir: Path, kind: string): Path {
    dir + "/results/variants/somatic." + kind + ".vcf.gz"
  }

  /** The awk program that keeps header lines and PASS records. */
  const PassFilter: string :=
    " | awk 'BEGIN { OFS = \"\\t\"} /^#/ { print $0 } {if($7==\"PASS\") print $0 }' "

  /** Keeps the PASS records of one of Strelka's raw outputs, compressed and
      indexed. */
  function PassStep(dir: Path, kind: string, output: string): (r: string)
    ensures StartsWith(r, "zcat " + RawOutput(dir, kind))
    ensures EndsWith(r, " && tabix -p vcf " + output)
  {
    var head := "zcat " + RawOutput(dir, kind);
    var tail := " | bgzip > " + output + " && tabix -p vcf " + output;
    StartsWithConcat(head, PassFilter + tail);
    Assoc3(head, PassFilter, tail);
    Assoc3(" | bgzip > " + output, " && tabix -p vcf ", output);
    EndsWithConcat(" | bgzip > " + output, " && tabix -p vcf " + output);
    EndsWithExtend(head + PassFilter, tail, " && tabix -p vcf " + output);
    head + PassFilter + tail
  }

  /** The steps of `StrelkaSomatic.command`: configure and run the workflow,
      then keep the PASS SNVs and the PASS indels. A missing tumor, normal or
      reference is refused by `required`; a missing target bed or output
      directory raises TypeError when it is concatenated; the candidates and
      the two outputs are formatted, so a missing one reads `None`. */
  function StrelkaSteps(p: StrelkaParams): (r: Result<seq<string>>)
    ensures r.Ok? <==>
      p.inputTumor.Some? && p.inputNormal.Some? && p.referenceSequence.Some? && p.targetBed.Some? && p.outputDir.Some?
    ensures (p.inputTumor.None? || p.inputNormal.None? || p.referenceSequence.None?) ==> r.Err? && r.error.ValueError?
    ensures r.Ok? ==> |r.value| == 3
  {
    // The three checks only refuse a missing value; the configuration then
    // concatenates the attributes themselves.
    var _ :- Required("", p.inputTumor);
    var _ :- Required("", p.inputNormal);
    var _ :- Required("", p.referenceSequence);
    if p.targetBed.None? || p.outputDir.None? then Err(TypeError("can only concatenate str (not \"NoneType\") to str"))
    else
      var dir := p.outputDir.value;
      var configure := StrelkaConfigure(p.inputNormal.value, p.inputTumor.value, p.referenceSequence.value, p.targetBed.value, FormatOpt(p.inputIndelCandidates), dir);
      Ok([RunStep(configure, dir),
          PassStep(dir, "snvs", FormatOpt(p.outputSnvsVcf)),
          PassStep(dir, "indels", FormatOpt(p.outputIndelsVcf))])
  }

  /** `StrelkaSomatic.command`: the steps joined with ` && `. */
  function StrelkaCommand(p: StrelkaParams): (r: Result<string>)
    ensures r.Ok? <==> StrelkaSteps(p).Ok?
  {
    var steps :- StrelkaSteps(p);
    Ok(Join(" && ", steps))
  }

  lemma StrelkaShape(p: StrelkaParams)
    requires StrelkaSteps(p).Ok?
    ensures var dir := p.outputDir.value;
      StrelkaSteps(p).value ==
        [RunStep(StrelkaConfigure(p.inputNormal.value, p.inputTumor.value, p.referenceSequence.value,
                                  p.targetBed.value, FormatOpt(p.inputIndelCandidates), dir), dir),
         PassStep(dir, "snvs", FormatOpt(p.outputSnvsVcf)),
         PassStep(dir, "indels", FormatOpt(p.outputIndelsVcf))]
  {
  }

  /** The workflow reads the candidate indels of the given Manta directory
      and runs in the output directory; the SNV step reads that directory's
      raw SNVs and writes the SNV output, the indel step likewise. */
  lemma StrelkaStepsWiring(p: StrelkaParams)
    requires StrelkaCommand(p).Ok?
    ensures var s := StrelkaSteps(p).value; var dir := p.outputDir.value;
      && StrelkaCommand(p).value == s[0] + " && " + s[1] + " && " + s[2]
      && Contains(s[0], IndelCandidatesFile(FormatOpt(p.inputIndelCandidates)))
      && Contains(s[0], " --runDir " + dir + " && " + dir + "/runWorkflow.py")
      && StartsWith(s[1], "zcat " + RawOutput(dir, "snvs"))
      && EndsWith(s[1], " && tabix -p vcf " + FormatOpt(p.outputSnvsVcf))
      && StartsWith(s[2], "zcat " + RawOutput(dir, "indels"))
      && EndsWith(s[2], " && tabix -p vcf " + FormatOpt(p.outputIndelsVcf))
  {
    StrelkaShape(p);
    var s := StrelkaSteps(p).value;
    var dir := p.outputDir.value;
    JoinThree(" && ", s[0], s[1], s[2]);
    assert s == [s[0], s[1], s[2]];
    var configure := StrelkaConfigure(p.inputNormal.value, p.inputTumor.value, p.referenceSequence.value,
                                      p.targetBed.value, FormatOpt(p.inputIndelCandidates), dir);
    var c := IndelCandidatesFile(FormatOpt(p.inputIndelCandidates));
    ContainsExtend(configure, " && ", c);
    ContainsExtend(configure + " && ", dir, c);
    ContainsExtend(configure + " && " + dir, "/runWorkflow.py -m local -j 20", c);
    RunDirWiring(configure, dir);
  }

  lemma RunDirWiring(configure: string, dir: Path)
    requires EndsWith(configure, " --runDir " + dir)
    ensures Contains(RunStep(configure, dir), " --runDir " + dir + " && " + dir + "/runWorkflow.py")
  {
    var x := configure[..|configure| - |" --runDir " + dir|];
    assert configure == x + (" --runDir " + dir);
    var mid := " --runDir " + dir + " && " + dir + "/runWorkflow.py";
    assert RunStep(configure, dir) == x + mid + " -m local -j 20";
    ContainsMiddle(x, mid, " -m local -j 20");
  }

  /** The attributes of a StrelkaSomatic job record. */
  function ParamsOf(j: Job): StrelkaParams
    requires j.StrelkaSomatic?
  {
    StrelkaParams(Some(j.inputTumor), Some(j.inputNormal), Some(j.referenceSequence), Some(j.targetBed),
                  Some(j.inputIndelCandidates), Some(j.outputDir), Some(j.outputSnvsVcf), Some(j.outputIndelsVcf))
  }

  /** A StrelkaSomatic job with every attribute set generates its command,
      and its workflow reads the candidates of the directory it was given
      and writes the outputs it reports. */
  lemma StrelkaJobCommand(j: Job)
    requires j.StrelkaSomatic?
    ensures StrelkaCommand(ParamsOf(j)).Ok?
    ensures var s := StrelkaSteps(ParamsOf(j)).value;
      && Contains(s[0], IndelCandidatesFile(j.inputIndelCandidates))
      && EndsWith(s[1], " && tabix -p vcf " + j.outputSnvsVcf)
      && EndsWith(s[2], " && tabix -p vcf " + j.outputIndelsVcf)
  {
    StrelkaStepsWiring(ParamsOf(j));
  }
}
