# autoseq liquid-biopsy core, modelled in Dafny

autoseq builds the task graph of a clinical sequencing analysis: a pipeline
object collects job records (aligners, variant callers, structural-variant
callers, plotting jobs). Each record names its input and output files, and
builders wire them together through shared paths. This project models the
liquid-biopsy part of that graph:

- **`call_somatic_variants`** (module `VariantCalling`). Which caller jobs it
  adds for a normal/cancer pairing, in what order, and what result dictionary
  it returns.
- **Caller command lines** (module `CallerCommands`). The conditional parts
  of the VEP and VcfAddSample commands, and the argument checks and steps of
  the StrelkaSomatic command.
- **The liquid-biopsy builder** (module `LiqBio`). The per-capture Svcaller
  jobs and their registry entries, the normal × cancer pairing analyses
  (Manta, optional purity and copy-number plot), and UMI consensus
  processing.
- **Read trimming and alignment** (module `Alignment`). `align_library`,
  `align_se` and `align_pe`, the read group given to the aligner, its log
  paths, and the checks and steps of the Skewer trimming command.

`Common` holds the shared vocabulary:

- Python exceptions as `Error` values, with `Result` carrying either a value
  or the exception;
- `startswith`, `endswith`, slicing and `join`;
- the job framework's `required`/`optional`/`conditional` argument helpers.

`Jobs` holds:

- the job records as one datatype;
- the configuration (reference data, output and scratch directories, and the
  foreign helper functions as function-valued fields);
- the registry of results;
- the `Pipeline` class, whose `jobs` and `reg` fields the builders update in
  place.

Every builder that updates the pipeline is a method on a `Pipeline`. Its
`ensures` ties the new jobs and registry to a pure specification function of
the old state. What the source promises is then proved as lemmas about those
functions.

Two behaviours worth knowing:

- Both `strelka_snvs` and `strelka_indels` report the SNV output, as
  variantcalling.py:527-528 assign them (`StrelkaReported`).
- The result containers of the base pipeline are taken to be plain
  dictionaries, so a missing entry raises `KeyError`. liqbio.py catches no
  exception around its lookups, so the error aborts configuration of the
  whole pipeline.

## Model

| member | source | states |
|---|---|---|
| VariantCalling.SomaticCalling | autoseq/tools/variantcalling.py:456-560 | succeeds exactly when the cancer capture's panel is a known target and, if freebayes or vardict is requested, the `target_name` panel is too; otherwise KeyError, with at most the freebayes job added |
| VariantCalling.CallSomaticVariants | autoseq/tools/variantcalling.py:456-560 | appends exactly the specified caller jobs to the pipeline, leaves the registry alone and returns the specified dictionary or exception |
| VariantCalling.SomaticJobOrder | autoseq/tools/variantcalling.py:479-558 | on success the jobs are one per requested known caller, in the fixed order freebayes, vardict, strelka, mutect2, varscan, whatever the order of the request |
| VariantCalling.SomaticKeys | autoseq/tools/variantcalling.py:479-560 | on success a result key is present exactly when its caller was requested; distinct keys have distinct names, so the result is the source's dictionary |
| VariantCalling.UnknownCallerIgnored | autoseq/tools/variantcalling.py:479-558 | adding a caller name outside the five known ones changes neither the jobs nor the result |
| VariantCalling.DefaultCallersOk | autoseq/tools/variantcalling.py:457-528 | with the default callers, calling succeeds exactly when both panel lookups succeed |
| VariantCalling.DefaultCallersKeys | autoseq/tools/variantcalling.py:457-528 | with the default callers the keys are exactly vardict, strelka_snvs and strelka_indels |
| VariantCalling.DefaultCallersOrder | autoseq/tools/variantcalling.py:457-528 | with the default callers the jobs are vardict then strelka |
| VariantCalling.FreebayesReported | autoseq/tools/variantcalling.py:480-494 | the freebayes job is added and its key reports its output, outdir/variants/C-N.freebayes-somatic.vcf.gz |
| VariantCalling.VarDictReported | autoseq/tools/variantcalling.py:499-512 | the vardict key reports the job's output under outdir/variants/vardict/; its target bed is the slopped panel bed without its last three characters, i.e. without `.gz` when it ends so |
| VariantCalling.StrelkaOutputs | autoseq/tools/variantcalling.py:515-524 | the SNV and indel outputs differ and both lie in the run directory; the indel candidates come from outdir/variants/C-N-manta-somatic |
| VariantCalling.StrelkaReported | autoseq/tools/variantcalling.py:527-528 | both strelka keys report the SNV output, which is not the indel output |
| VariantCalling.Mutect2Reported | autoseq/tools/variantcalling.py:530-544 | the mutect2 key reports the filtered output, not the raw one |
| VariantCalling.VarscanReported | autoseq/tools/variantcalling.py:546-558 | the varscan keys report the outputs with the trailing `vcf` replaced by `Somatic.vcf`, in files named normal first |
| CallerCommands.VepCommand | autoseq/tools/variantcalling.py:359-376 | the command is generated exactly when output, VEP directory, reference and input are set; an unset output raises AttributeError first |
| CallerCommands.VepFork | autoseq/tools/variantcalling.py:360-363 | no `--fork` option for one thread or fewer |
| CallerCommands.VepThreads | autoseq/tools/variantcalling.py:360-374 | the thread count never decides success; up to one thread the command is the single-thread one; above one it is that command with ` --fork N ` inserted after the fixed options |
| CallerCommands.VepCompression | autoseq/tools/variantcalling.py:364-374 | output piped through bgzip exactly when its name ends with `gz`; tabix indexing in both cases |
| CallerCommands.VcfAddSampleSteps | autoseq/tools/variantcalling.py:392-409 | the command is generated exactly when output, input VCF, sample name and BAM are set; three steps |
| CallerCommands.VcfAddSampleThreeSteps | autoseq/tools/variantcalling.py:393-409 | the first step writes the scratch file, the second reads it, the third removes it, joined with ` && ` |
| CallerCommands.AddSampleTail | autoseq/tools/variantcalling.py:394-407 | bgzip and tabix only for an output ending with `gz`, a plain redirect otherwise |
| CallerCommands.VcfAddSampleCompression | autoseq/tools/variantcalling.py:394-407 | the second step ends with bgzip and tabix of the output exactly when its name ends with `gz`, else with the BAM and a redirect |
| CallerCommands.StrelkaSteps | autoseq/tools/variantcalling.py:94-118 | generated exactly when tumour, normal, reference, target bed and run directory are set; a missing tumour, normal or reference raises ValueError; three steps |
| CallerCommands.StrelkaConfigure | autoseq/tools/variantcalling.py:100-106 | the configuration names the candidate-indel file of the given Manta directory and ends with the run directory |
| CallerCommands.PassStep | autoseq/tools/variantcalling.py:110-116 | a PASS filter reads the run directory's raw calls and ends by indexing the output it writes |
| CallerCommands.StrelkaStepsWiring | autoseq/tools/variantcalling.py:100-118 | the workflow is configured with the Manta candidates and run in its run directory; the SNV and indel steps read that directory's raw calls and write the two outputs |
| CallerCommands.StrelkaJobCommand | autoseq/tools/variantcalling.py:94-118 | a StrelkaSomatic job record always generates its command, reading the candidates of its own Manta directory |
| LiqBio.ConfigureSingleCaptureAnalysisLiqbio | autoseq/pipeline/liqbio.py:56-71 | the pipeline state becomes the single-capture analysis of the old state |
| LiqBio.SingleCaptureJobsInOrder | autoseq/pipeline/liqbio.py:61-69 | four Svcaller jobs are appended, for DEL, DUP, INV, TRA in that order, each reading the capture's BAM |
| LiqBio.SvPathsDistinct | autoseq/pipeline/liqbio.py:65-66 | no BAM path equals a GTF path, and different event types get different paths |
| LiqBio.RegisterSvsContents | autoseq/pipeline/liqbio.py:61-71 | recording adds exactly the capture's entries for the given events, with the Svcaller paths, and keeps every other entry |
| LiqBio.SingleCaptureRegistry | autoseq/pipeline/liqbio.py:61-71 | every event type of the capture is registered with its (BAM, GTF) pair, the eight paths are distinct, other captures' entries unchanged |
| LiqBio.SingleCaptureAnalyses | autoseq/pipeline/liqbio.py:92-93 | the captures' Svcaller jobs follow the existing jobs, and only the structural-variant registry changes |
| LiqBio.SingleCaptureAnalysesSvs | autoseq/pipeline/liqbio.py:92-93 | after the loop every listed capture has all its entries, the others are as before |
| LiqBio.ConfigureSingleCaptureAnalyses | autoseq/pipeline/liqbio.py:92-93 | the loop leaves the state the specification gives |
| LiqBio.MantaJob | autoseq/pipeline/liqbio.py:101-124 | KeyError exactly when the cancer panel is unknown; otherwise the cancer BAM is the tumour, the normal BAM the normal, the slopped bed, and outdir/variants/C-N-manta-somatic |
| LiqBio.ConfigureManta | autoseq/pipeline/liqbio.py:101-124 | adds the Manta job or reports its KeyError and adds nothing |
| LiqBio.MantaFeedsStrelka | autoseq/pipeline/liqbio.py:122 | Manta's directory is the one Strelka's job for the same pairing takes its candidate indels from, and Strelka's configuration names the candidate file inside it |
| LiqBio.ConfigurePureCN | autoseq/pipeline/liqbio.py:169 | stand-in for the purity step: one job, its tables registered for the pairing |
| LiqBio.CnaPlotJob | autoseq/pipeline/liqbio.py:127-161 | KeyError exactly when a looked-up entry is missing; the eight SV inputs are the registered GTFs of the cancer and normal for DEL, DUP, INV, TRA; purity inputs are the pairing's tables; outputs named normal first |
| LiqBio.ConfigureLiqbioCna | autoseq/pipeline/liqbio.py:127-161 | adds the plot job or reports the KeyError and adds nothing |
| LiqBio.CnaPlotJobLocal | autoseq/pipeline/liqbio.py:128-157 | the plot depends on the registry only through the entries it reads |
| LiqBio.PairingAnalysisOutcome | autoseq/pipeline/liqbio.py:163-170 | succeeds exactly when the panel is known and, with purity targets, the plot's inputs are registered; adds Manta alone without purity targets, Manta, PureCN and the plot with them |
| LiqBio.ConfigurePanelAnalysisCancerVsNormalLiqbio | autoseq/pipeline/liqbio.py:163-170 | leaves the state, or raises the error, the pairing analysis specifies |
| LiqBio.NoPurityWithoutTargets | autoseq/pipeline/liqbio.py:168-170 | without purity targets no purity or plot job is added and no purity tables are registered |
| LiqBio.PairingJobsShape | autoseq/pipeline/liqbio.py:163-170 | one pairing's jobs are Manta alone, or Manta, PureCN and the plot reading the tables just registered |
| LiqBio.PairingAnalysisLocal | autoseq/pipeline/liqbio.py:163-170 | a pairing appends its jobs after the existing ones, independent of existing jobs and of other pairings' purity tables |
| LiqBio.RowPairs | autoseq/pipeline/liqbio.py:97-99 | one normal is paired with every cancer, in cancer order |
| LiqBio.PairListLength | autoseq/pipeline/liqbio.py:96-99 | there are normals × cancers pairings |
| LiqBio.PairListOrder | autoseq/pipeline/liqbio.py:96-99 | pair (normal i, cancer j) comes at position i × cancers + j: the normal loop is outermost |
| LiqBio.PairingsErrSticky | autoseq/pipeline/liqbio.py:96-99 | once a pairing raises, later pairings leave the outcome unchanged |
| LiqBio.ConfigureNormalPairings | autoseq/pipeline/liqbio.py:97-99 | the inner loop leaves the state, or raises the error, the pairings of that row specify |
| LiqBio.ConfigurePanelAnalysesLiqbio | autoseq/pipeline/liqbio.py:90-99 | leaves the state, or raises the error, the panel analyses specify |
| LiqBio.PairingsOrder | autoseq/pipeline/liqbio.py:96-99 | on success the pairings append each pair's jobs in pair order and leave the SV and result registries alone |
| LiqBio.PanelAnalysesOrder | autoseq/pipeline/liqbio.py:90-99 | all single-capture jobs first, then each pairing's jobs in normal-outermost order |
| LiqBio.SmallestRun | autoseq/pipeline/liqbio.py:90-170 | one normal and one cancer with purity targets: eleven jobs (4 + 4 Svcaller, Manta, PureCN, plot), and the plot's eight SV inputs are the Svcaller GTF outputs |
| LiqBio.ConfigureFastqToBam | autoseq/pipeline/liqbio.py:221-234 | adds one FastqToBam job and returns outdir/bams/KIT/BARCODE.unmapped.bam |
| LiqBio.AlignmentWithUmiJobs | autoseq/pipeline/liqbio.py:200-219 | an alignment job then a realignment reading its output, named by the pass |
| LiqBio.ConfigureAlignmentWithUmi | autoseq/pipeline/liqbio.py:200-219 | adds those two jobs and returns the realigned BAM |
| LiqBio.ConsensusReadsJobs | autoseq/pipeline/liqbio.py:236-251 | grouping by UMI then duplex consensus calling from the grouped BAM |
| LiqBio.ConfigureConsensusReadsCalling | autoseq/pipeline/liqbio.py:236-251 | adds those two jobs and returns the consensus BAM |
| LiqBio.UmiChainWiring | autoseq/pipeline/liqbio.py:187-198 | seven jobs, each reading the previous one's BAM; the second alignment pass writes the same paths as the first |
| LiqBio.UmiChainUsesLastBarcode | autoseq/pipeline/liqbio.py:178-198 | after trimming every barcode, the chain runs once, on the last barcode's reads and names |
| LiqBio.UmiProcessingFails | autoseq/pipeline/liqbio.py:176-198 | UMI processing raises NameError exactly when the first capture has no barcodes; otherwise a non-empty run ends with a last trimmed barcode |
| LiqBio.TrimBarcodes | autoseq/pipeline/liqbio.py:178-185 | trims each barcode in order and keeps the last trimmed reads |
| LiqBio.ConfigureUmiChain | autoseq/pipeline/liqbio.py:187-198 | adds the seven-job chain and leaves the registry alone |
| LiqBio.ConfigureUmiCapture | autoseq/pipeline/liqbio.py:177-198 | one capture: its trimming jobs and chain, or the NameError |
| LiqBio.ConfigureUmiProcessing | autoseq/pipeline/liqbio.py:173-198 | leaves the jobs, or raises the error, UMI processing specifies |
| LiqBio.UmiProcessingErr | autoseq/pipeline/liqbio.py:176-198 | a failure among the first captures is the failure of the whole processing |
| Alignment.ReadGroupFields | autoseq/tools/alignment.py:146-151 | the read group's ID is the library id and its LB is its SM (SDID-type-sample) extended by the prep id |
| Alignment.ReadGroupSameSample | autoseq/tools/alignment.py:146-149 | libraries of one sample share SM, and share LB exactly when their prep ids agree |
| Alignment.AlignerLogs | autoseq/tools/alignment.py:24-25 | the aligner `align_library` adds writes its two logs next to the BAM it returns: two distinct files, neither of them that BAM |
| Alignment.AlignSe | autoseq/tools/alignment.py:107-159 | appends one trimming job per file, the concatenation and the aligner, and returns outdir/LIB.bam |
| Alignment.AlignPe | autoseq/tools/alignment.py:162-230 | raises IndexError before adding anything when a first file has no second one; otherwise appends the trimming jobs, two concatenations and the aligner, and returns outdir/LIB.bam |
| Alignment.AlignLibrarySpec | autoseq/tools/alignment.py:85-104 | succeeds unless paired-end files are missing a mate, in which case IndexError and no jobs |
| Alignment.AlignLibrary | autoseq/tools/alignment.py:85-104 | single-end exactly when there are no second files, paired-end otherwise |
| Alignment.AlignerLast | autoseq/tools/alignment.py:99-104 | the last job is the aligner writing the returned BAM, given a mate file exactly when the library has second files |
| Alignment.AlignSeWiring | autoseq/tools/alignment.py:120-157 | n trimming jobs on the normalised files without mates, then a concatenation of their outputs in order, then the aligner reading it |
| Alignment.AlignPeWiring | autoseq/tools/alignment.py:175-228 | the k-th trimming job reads the k-th files of both lists; the concatenations join first and second outputs in order; the aligner reads both |
| Alignment.SkewerSteps | autoseq/tools/alignment.py:60-82 | generated exactly when both outputs are set and end with `.gz`; ValueError for a first output not so named, AttributeError for an unset second one; five steps |
| Alignment.SkewerCommand | autoseq/tools/alignment.py:60-82 | generated exactly when the steps are |
| Alignment.SkewerFiveSteps | autoseq/tools/alignment.py:64-82 | make the temporary directory; trim with output prefix tmpdir/skewer, reading the inputs; copy out the trimmed files under that prefix (the second only for a truthy second input); copy the statistics under that prefix to the job's stats path; remove the same directory |
| Alignment.CopyStepShape | autoseq/tools/alignment.py:77-78 | the copy step copies the first trimmed file, and the second exactly when there is a second input |
| Alignment.PeSkewerCommandOk | autoseq/tools/alignment.py:187-188 | a paired-end trimming job of `.gz` files generates its command |
| Alignment.SeSkewerCommandFails | autoseq/tools/alignment.py:61 | a single-end trimming job never generates its command as written |
| Alignment.CopyStepAsWritten | autoseq/tools/alignment.py:77-78 | the copy step as written needs the second output even without a second input, and raises TypeError when it is unset |
| Alignment.SeCopyStepFails | autoseq/tools/alignment.py:77-78 | correcting the check of line 61 alone is not enough: the copy step still raises TypeError for every single-end trimming job |
| Alignment.SkewerStepsIntended | autoseq/tools/alignment.py:61-78 | checks only the outputs that are set and builds the second copy only for a second input, so it needs a second output only then |
| Alignment.SkewerIntendedAgrees | autoseq/tools/alignment.py:61-62 | the intended check agrees with the written one whenever the second output is set |
| Alignment.SeSkewerIntendedOk | autoseq/tools/alignment.py:124-131 | under the intended check a single-end job of a `.gz` file generates five steps copying out only the one trimmed file |

## Left out

- Shell text beyond what a contract states: only the VEP, VcfAddSample, StrelkaSomatic and Skewer commands are modelled, and the aligner only through its log paths. The other tools' command lines are left out; their job records keep the attributes the builders set.
- The job framework (job base class, `add`, `required`, `optional`, `conditional`) is not part of this model. Its helpers are modelled by what their uses rely on: the text they contribute is padded with one space on each side, so that neighbouring helpers stay separate tokens. The modelled command strings are exact up to that convention.
- `uuid.uuid4()` becomes a `uuid` parameter of the commands that use it.
- Helpers defined outside the modelled files become function-valued fields of the configuration, with no properties assumed. This covers capture names and BAM paths, the `compose_*` strings, the barcode parsers, `get_libdict`, `normpath`/`basename`, `find_fastqs`, `fq_trimming` and `get_vepped_germline_vcf`.
- `configure_purecn` is not part of this model. `LiqBio.ConfigurePureCN` stands in for it with one job that registers the pairing's tables.
- The clinseq base pipeline is not modelled: sample-data checks, the other panel analyses, QC and MultiQC.
- The commented-out Sveffect block of the single-capture analysis.
- Logging calls, which only print.
- The `min_alt_frac`/`min_num_reads` thresholds and the thread counts of the caller jobs, which only reach command lines left out above.
- The base pipeline's result containers (`capture_to_results`, `normal_cancer_pair_to_results`) are built outside the modelled files. They are treated as plain dictionaries that raise `KeyError` for an absent key. The read of a pairing's purity tables (`.pureCN_outputs`, liqbio.py:133) is an attribute read, and is treated the same way.
- Python dict order of `capture_to_barcodes` is taken as a given sequence of captures.
- Alignment.AlignSe: the concatenation reads the trimming jobs' first outputs. The source appends `skewer.output`, an attribute the Skewer job never sets (alignment.py:132).
- Alignment.SkewerSteps: the `-t` option takes the thread count as written; a thread count of `None` is not modelled, since every builder sets it.

## Findings

| source | as written | input that shows it | evidently intended | confidence | as-written member | corrected member |
|---|---|---|---|---|---|---|
| autoseq/tools/alignment.py:61 | `Skewer.command` calls `endswith` on the second output even when none is set, and `align_se` never sets it; line 78 then concatenates the unset second output before `conditional` tests the second input | any single-end library whose FASTQ name ends with `.gz`: line 61 raises AttributeError, and with line 61 corrected, line 78 raises TypeError (`SeCopyStepFails`), so no single-end trimming command can be generated (`align_se` also reads the unset `skewer.output` at alignment.py:132 while building the graph) | check only the outputs that are set, and build the second copy only when there is a second input | high, not executed | Alignment.SeSkewerCommandFails | Alignment.SkewerStepsIntended |
