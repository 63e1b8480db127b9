/** The task graph being built and the state the builders share: the job
    records, the reference-data configuration, the functions of the
    repository that the core calls but that are not part of this model, the
    result registry, and the pipeline object that owns the job list. */
module Jobs {
  import opened Common

  /** The structural-variant event types, in the order the builders use them. */
  datatype EventType = DEL | DUP | INV | TRA

  const EventTypes: seq<EventType> := [DEL, DUP, INV, TRA]

  function EventName(e: EventType): (r: string)
    ensures |r| == 3
  {
    match e
    case DEL => "DEL"
    case DUP => "DUP"
    case INV => "INV"
    case TRA => "TRA"
  }

  /** One (sample, library, capture panel) combination. The builders only read
      its capture kit; the remaining barcode fields are folded into `id`. */
  datatype UniqueCapture = UniqueCapture(id: string, captureKitId: string)

  /** The reference files of one capture panel (`refdata['targets'][name]`). */
  datatype TargetRefs = TargetRefs(
    bedSlopped20: Path,          // 'targets-bed-slopped20'
    blacklistBed: Path,          // 'blacklist-bed'
    intervalListSlopped20: Path, // 'targets-interval_list-slopped20'
    purecnTargets: Option<Path>) // 'purecn_targets'

  /** The reference-data configuration. Only the per-panel lookup can miss. */
  datatype RefData = RefData(
    referenceGenome: Path,
    referenceDict: Path,
    exac: Path,
    bwaIndex: Path,
    kg1: Path,                      // '1KG'
    millsAnd1KgGoldStandard: Path,  // 'Mills_and_1KG_gold_standard'
    targets: map<string, TargetRefs>)

  /** What `get_libdict` extracts from a library id. */
  datatype LibDict = LibDict(sdid: string, sampleType: string, sampleId: string, prepId: string)

  /** The four tables the purity/ploidy step produces for one pairing. */
  datatype PureCNOutputs = PureCNOutputs(csv: Path, genesCsv: Path, lohCsv: Path, variantsCsv: Path)

  /** What adapter trimming of one clinseq barcode adds and returns. */
  datatype Trimmed = Trimmed(jobs: seq<Job>, fastq1: Path, fastq2: Path)

  /** Functions of the repository that the core calls but that are not part of
      this model; the model takes them as given. */
  datatype Helpers = Helpers(
    libCaptureStr: UniqueCapture -> string,                          // compose_lib_capture_str
    sampleStr: UniqueCapture -> string,                              // compose_sample_str
    captureBam: UniqueCapture -> Path,                               // ClinseqPipeline.get_capture_bam
    captureName: string -> string,                                   // ClinseqPipeline.get_capture_name
    veppedGermlineVcf: UniqueCapture -> Path,                        // ClinseqPipeline.get_vepped_germline_vcf
    purecnOutputs: (UniqueCapture, UniqueCapture) -> PureCNOutputs,  // ClinseqPipeline.configure_purecn
    parsePrepId: string -> string,                                   // parse_prep_id
    extractUniqueCapture: string -> UniqueCapture,                   // extract_unique_capture
    fqTrimming: (string, Path) -> Trimmed,                           // fq_trimming of find_fastqs(barcode)
    libdict: string -> LibDict,                                      // get_libdict
    basename: Path -> string,                                        // os.path.basename
    normpath: Path -> Path)                                          // normpath

  /** The fixed configuration of one pipeline run: output and scratch
      directories, core count, reference data, the helpers above, and the
      capture lists the sample sheet yields. */
  datatype Config = Config(
    outdir: Path,
    scratch: Path,
    maxcores: int,
    refdata: RefData,
    helpers: Helpers,
    mappedNoWgs: seq<UniqueCapture>,    // get_mapped_captures_no_wgs()
    mappedNormal: seq<UniqueCapture>,   // get_mapped_captures_normal()
    mappedCancer: seq<UniqueCapture>,   // get_mapped_captures_cancer()
    captureToBarcodes: seq<(UniqueCapture, seq<string>)>) // get_unique_capture_to_clinseq_barcodes(), in key order

  /** One job added to the task graph: the job class and the attributes the
      builders assign to it. Jobs added by code that is not part of this model
      are `External`. */
  datatype Job =
    | Svcaller(inputBam: Path, eventType: EventType, outputBam: Path, outputGtf: Path,
               referenceSequence: Path, scratch: Path)
    | MantaSomaticSV(inputTumor: Path, inputNormal: Path, tumorId: string, normalId: string,
                     referenceSequence: Path, targetBed: Path, outputDir: Path)
    | PureCN(normal: UniqueCapture, cancer: UniqueCapture, purecnOutputs: PureCNOutputs)
    | LiqbioCNAPlot(inputTumorCnr: Path, inputTumorCns: Path, inputNormalCnr: Path, inputNormalCns: Path,
                    inputHetSnpsVcf: Path, inputPurecnCsv: Path, inputPurecnGenesCsv: Path,
                    inputPurecnLohCsv: Path, inputPurecnVariantsCsv: Path,
                    inputSvcallerT: seq<Path>, inputSvcallerN: seq<Path>,  // DEL, DUP, INV, TRA
                    inputGermlineMutVcf: Path, inputSomaticMutVcf: Path,
                    outputPlotPng: Path, outputCnaJson: Path, outputPurityJson: Path)
    | FastqToBam(inputFastq1: Path, inputMateFastq: Path, sample: string, library: string, outputBam: Path)
    | AlignUnmappedBam(inputBam: Path, referenceGenome: Path, outputBam: Path, jobname: string)
    | Realignment(inputBam: Path, outputBam: Path, referenceGenome: Path, knownIndel1: Path,
                  knownIndel2: Path, targetIntervals: Path, jobname: string)
    | GroupReadsByUmi(inputBam: Path, outputHistogram: Path, outputBam: Path, jobname: string)
    | CallDuplexConsensusReads(inputBam: Path, outputBam: Path, jobname: string)
    | Skewer(input1: Path, input2: Option<Path>, output1: Path, output2: Option<Path>, stats: Path,
             threads: int, jobname: string, scratch: Path, isIntermediate: bool)
    | Cat(input: seq<Path>, output: Path, jobname: string, isIntermediate: bool)
    | Bwa(inputFastq1: Path, inputFastq2: Option<Path>, inputReferenceSequence: Path,
          removeDuplicates: bool, readgroup: string, threads: int, output: Path,
          jobname: string, scratch: Path, isIntermediate: bool)
    | Freebayes(inputBams: seq<Path>, tumorId: string, normalId: string, somaticOnly: bool,
                referenceSequence: Path, targetBed: Path, threads: int, scratch: Path,
                jobname: string, output: Path)
    | VarDict(inputTumor: Path, inputNormal: Path, tumorId: string, normalId: string,
              referenceSequence: Path, referenceDict: Path, targetBed: Path, output: Path,
              blacklistBed: Path, jobname: string)
    | StrelkaSomatic(inputTumor: Path, inputNormal: Path, tumorId: string, normalId: string,
                     referenceSequence: Path, inputIndelCandidates: Path, targetBed: Path,
                     outputDir: Path, outputSnvsVcf: Path, outputIndelsVcf: Path, jobname: string)
    | Mutect2Somatic(inputTumor: Path, inputNormal: Path, tumorId: string, normalId: string,
                     referenceSequence: Path, output: Path, bamout: Path, exac: Path,
                     intervalList: Path, tumorPileupTable: Path, tumorContaminationTable: Path,
                     outputFiltered: Path, jobname: string)
    | Varscan2Somatic(inputTumor: Path, inputNormal: Path, tumorId: string, normalId: string,
                      referenceSequence: Path, normalPileup: Path, tumorPileup: Path,
                      outputSnv: Path, outputIndel: Path, jobname: string)
    | External(name: string, inputs: seq<Path>, outputs: seq<Path>)

  /** Per-capture copy-number results, registered by steps not part of this model. */
  datatype CaptureResults = CaptureResults(cnr: Path, cns: Path)

  /** Per-pairing variant results, registered by steps not part of this model. */
  datatype PairResults = PairResults(vcfAddsampleOutput: Path, veppedVcf: Path)

  /** The result registry: what earlier steps produced, for later steps to read.
      `svs` maps (capture, event type) to the (BAM, GTF) pair of that capture's
      structural-variant call; `pureCN` maps (normal, cancer) to the purity
      tables of that pairing. */
  datatype Registry = Registry(
    svs: map<(UniqueCapture, EventType), (Path, Path)>,
    captureResults: map<UniqueCapture, CaptureResults>,
    pairResults: map<(UniqueCapture, UniqueCapture), PairResults>,
    pureCN: map<(UniqueCapture, UniqueCapture), PureCNOutputs>)

  /** The mutable part of a pipeline, as a value. */
  datatype State = State(jobs: seq<Job>, reg: Registry)

  /** The pipeline object: its configuration, the jobs added so far, in order,
      and the result registry. */
  class Pipeline {
    const cfg: Config
    var jobs: seq<Job>
    var reg: Registry

    constructor (cfg: Config, reg: Registry)
      ensures this.cfg == cfg && this.reg == reg && jobs == []
    {
      this.cfg := cfg;
      this.reg := reg;
      jobs := [];
    }

    /** The jobs and the registry, as a value. */
    function Snapshot(): (s: State)
      reads this
      ensures s.jobs == jobs && s.reg == reg
    {
      State(jobs, reg)
    }

    /** `add`: append a job to the task graph. */
    method Add(job: Job)
      modifies this`jobs
      ensures jobs == old(jobs) + [job]
    {
      jobs := jobs + [job];
    }

    /** `set_capture_svs`: record a capture's structural-variant outputs for one event type. */
    method SetCaptureSvs(capture: UniqueCapture, event: EventType, outputs: (Path, Path))
      modifies this`reg
      ensures reg == old(reg).(svs := old(reg).svs[(capture, event) := outputs])
    {
      reg := reg.(svs := reg.svs[(capture, event) := outputs]);
    }

    /** Record the purity tables of a (normal, cancer) pairing. */
    method SetPureCN(normal: UniqueCapture, cancer: UniqueCapture, outputs: PureCNOutputs)
      modifies this`reg
      ensures reg == old(reg).(pureCN := old(reg).pureCN[(normal, cancer) := outputs])
    {
      reg := reg.(pureCN := reg.pureCN[(normal, cancer) := outputs]);
    }
  }
}
