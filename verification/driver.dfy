/** The decisions of the command-line entry point: which terminal action
    runs, where the dataset and its outputs live, which image and which
    participants are used, and which FreeSurfer jobs are issued. The
    filesystem, the BIDS index and the container runtime are values. */
module Driver {
  import opened Base
  import opened Text
  import Paths
  import Datasets
  import Participants
  import Reconcile
  import Images
  import Commands

  const DefaultFsVersion: string := "7.3.2"
  const DefaultFmriprepVersion: string := "23.1.3"
  const DefaultApptainerDir: string := "/opt/apptainer"

  /** The parsed command line. Optional flags are `None` when not given;
      `participantList` is empty when `--participant-list` is not given. */
  datatype Args = Args(
    tool: string,
    listDatasets: bool,
    dataset: Option<string>,
    outputLabel: Option<string>,
    fsLicense: string,
    apptainerDir: Option<string>,
    version: Option<string>,
    participantLabel: Option<string>,
    participantList: seq<string>,
    listMissing: bool)

  datatype Kind = File | Directory

  /** One T1w image of a subject, with its session and run entities. */
  datatype T1w = T1w(path: string, session: Option<string>, run: Option<string>)

  /** Everything the entry point observes outside itself. */
  datatype Env = Env(
    rawRoot: string,                          // the default raw-data root
    derivativesRoot: string,                  // the default derivatives root
    rawListing: seq<string>,                  // entries of the raw-data root
    paths: map<string, Kind>,                 // what exists on disk before the run
    apptainerInstalled: bool,                 // whether `/usr/bin/apptainer` exists
    build: Images.BuildOutcome,               // what an image build would report
    subjects: seq<string>,                    // subjects of the BIDS index
    t1w: map<string, seq<T1w>>,               // T1w images per subject
    outputEntries: map<string, seq<Reconcile.DirEntry>>)  // `sub-*` entries per directory

  predicate IsDir(env: Env, p: string) {
    p in env.paths && env.paths[p] == Directory
  }

  predicate IsFile(env: Env, p: string) {
    p in env.paths && env.paths[p] == File
  }

  function T1wOf(env: Env, participant: string): seq<T1w> {
    if participant in env.t1w then env.t1w[participant] else []
  }

  /** The `sub-*` entries a glob over `dir` finds; none when nothing is
      recorded for it. */
  function EntriesOf(env: Env, dir: string): seq<Reconcile.DirEntry> {
    if dir in env.outputEntries then env.outputEntries[dir] else []
  }

  /** A job handed to the runtime: the output directory it writes and its
      command line. */
  datatype Job = Job(outputDir: string, command: string)

  datatype Outcome =
    | DatasetsListed(datasets: seq<string>)
    | NoDatasetGiven(available: seq<string>)
    | DatasetNotFound(available: seq<string>)
    | MissingListed(missing: seq<string>)   // the subjects without output, ascending
    | Failed(error: Error)
    | Completed

  /** How a run ends, the image builds it issued, the participants it warned
      about and the jobs it launched, each in order. */
  datatype Report = Report(outcome: Outcome, builds: seq<string>, warnings: seq<string>, jobs: seq<Job>)

  /** The image version: `(version or 7.3.2) if tool == freesurfer else
      23.1.3`, so `--version` is ignored for every other tool. */
  function ImageVersion(tool: string, version: Option<string>): (v: string)
    ensures tool == "freesurfer" && Truthy(version) ==> v == version.value
    ensures tool == "freesurfer" && !Truthy(version) ==> v == DefaultFsVersion
    ensures tool != "freesurfer" ==> v == DefaultFmriprepVersion
  {
    if tool == "freesurfer" then Or(version, DefaultFsVersion) else DefaultFmriprepVersion
  }

  /** The output directory name: an explicit label wins; otherwise
      `<tool>_<version>` where the version follows the same precedence as
      the image version. */
  function OutputLabel(tool: string, outputLabel: Option<string>, version: Option<string>): (name: string)
    ensures Truthy(outputLabel) ==> name == outputLabel.value
    ensures !Truthy(outputLabel) ==> name == tool + "_" + ImageVersion(tool, version)
    ensures !Truthy(outputLabel) && tool != "freesurfer" ==> name == tool + "_" + DefaultFmriprepVersion
  {
    Or(outputLabel, tool + "_" + (if tool == "freesurfer" then Or(version, DefaultFsVersion)
                                  else DefaultFmriprepVersion))
  }

  /** The label the FreeSurfer branch writes under, spelled out separately
      in the per-image loop; it is the output label of the run. */
  function FreesurferLabel(outputLabel: Option<string>, version: Option<string>): (name: string)
    ensures name == OutputLabel("freesurfer", outputLabel, version)
  {
    Or(outputLabel, "freesurfer_" + Or(version, DefaultFsVersion))
  }

  /** The run's output directory: the dataset's derivatives directory joined
      with the output label. */
  function OutputDir(env: Env, args: Args, dataset: string): string {
    Paths.Join(Datasets.DerivativesPath(env.derivativesRoot, dataset),
               OutputLabel(args.tool, args.outputLabel, args.version))
  }

  /** A path as Python holds it: a plain string, or a path object that has
      the `glob` method. */
  datatype PathValue = Str(s: string) | PathObject(p: string)

  /** `list_missing_subjects` on the output directory it is handed. A path
      object is globbed for `sub-*` directories and the index subjects
      without a bare one are reported in ascending order; a plain string has
      no `glob` method, so the call raises an attribute error. */
  function ListMissing(env: Env, outputDir: PathValue): (o: Outcome)
    ensures outputDir.Str? <==> o == Failed(StringHasNoGlob)
    ensures outputDir.PathObject? ==>
              && o.MissingListed?
              && Reconcile.StrictlySorted(o.missing)
              && forall x :: x in o.missing <==>
                   x in env.subjects && x !in Reconcile.ProcessedLabels(EntriesOf(env, outputDir.p))
  {
    match outputDir
    case Str(_) => Failed(StringHasNoGlob)
    case PathObject(dir) => MissingListed(Reconcile.MissingSubjects(env.subjects, EntriesOf(env, dir)))
  }

  /** `--list-missing` exactly as `main` runs it: the output directory comes
      from `os.path.join`, so it is a plain string, and the listing always
      ends in an attribute error. */
  function ListMissingAsWritten(env: Env, args: Args, dataset: string): (o: Outcome)
    ensures o == Failed(StringHasNoGlob)
  {
    ListMissing(env, Str(OutputDir(env, args, dataset)))
  }

  /** `--list-missing` as evidently intended: the output directory of the
      run, `<dataset>-derivatives/<output label>`, is globbed as a path. */
  function ListMissingInOutputDir(env: Env, args: Args, dataset: string): (o: Outcome)
    ensures o.MissingListed?
    ensures Reconcile.StrictlySorted(o.missing)
    ensures forall x :: x in o.missing <==>
              && x in env.subjects
              && x !in Reconcile.ProcessedLabels(EntriesOf(env,
                   Paths.Join(Datasets.DerivativesPath(env.derivativesRoot, dataset),
                              OutputLabel(args.tool, args.outputLabel, args.version))))
  {
    ListMissing(env, PathObject(OutputDir(env, args, dataset)))
  }

  /** The discrepancy: for every dataset and arguments, the listing as
      written differs from the intended one. */
  lemma ListMissingAsWrittenNeverLists(env: Env, args: Args, dataset: string)
    ensures ListMissingAsWritten(env, args, dataset) != ListMissingInOutputDir(env, args, dataset)
  {
  }

  /** For a tool other than FreeSurfer without an explicit output label,
      `--version` changes neither the output directory nor the missing
      subjects reported: the label is always `<tool>_23.1.3`. */
  lemma ListMissingIgnoresVersionForOtherTools(env: Env, args: Args, dataset: string, version: Option<string>)
    requires args.tool != "freesurfer" && !Truthy(args.outputLabel)
    ensures ListMissingInOutputDir(env, args.(version := version), dataset)
            == ListMissingInOutputDir(env, args, dataset)
  {
  }

  /** `launch_apptainer` exactly as written: it announces the command and
      then hands the name `build_cmd`, which is undefined in its scope, to
      the shell, so the first job raises a name error before any command
      runs. The result is the commands run, or the error. */
  function LaunchAsWritten(jobs: seq<Job>): (r: Result<seq<string>, Error>)
    ensures r.Success? <==> jobs == []
    ensures r.Success? ==> r.value == []
    ensures r.Failure? ==> r.error == UndefinedName("build_cmd")
  {
    if jobs == [] then Success([]) else Failure(UndefinedName("build_cmd"))
  }

  /** `launch_apptainer` as evidently intended: each job's command is run,
      in job order. */
  function Launch(jobs: seq<Job>): (commands: seq<string>)
    ensures |commands| == |jobs|
    ensures forall i :: 0 <= i < |jobs| ==> commands[i] == jobs[i].command
  {
    if jobs == [] then [] else [jobs[0].command] + Launch(jobs[1..])
  }

  /** The discrepancy: as written, a run with any job to launch runs none
      of the commands the intended launcher runs. */
  lemma LaunchAsWrittenRunsNothing(jobs: seq<Job>)
    requires jobs != []
    ensures LaunchAsWritten(jobs) != Success(Launch(jobs))
    ensures Launch(jobs) != []
  {
  }

  /** `participant_list or [participant_label] if participant_label else []`,
      which Python reads as `(list or [label]) if label else []`. */
  function RequestedParticipants(participantLabel: Option<string>, list: seq<string>): (r: seq<string>)
    ensures !Truthy(participantLabel) ==> r == []
    ensures Truthy(participantLabel) && list != [] ==> r == list
    ensures Truthy(participantLabel) && list == [] ==> r == [participantLabel.value]
  {
    if Truthy(participantLabel) then (if list != [] then list else [participantLabel.value]) else []
  }

  /** Without `--participant-label` the list given by `--participant-list`
      is discarded and every subject of the index is processed. */
  lemma ListAloneSelectsEveryone(participantLabel: Option<string>, list: seq<string>, subjects: seq<string>)
    requires !Truthy(participantLabel)
    ensures Participants.Resolve(RequestedParticipants(participantLabel, list), subjects)
            == Participants.Resolution(Success(subjects), [])
  {
  }

  /** The image directory exactly as the program forms it: the default is a
      path object, but a directory given on the command line is a plain
      string, and dividing a string by a string raises a type error. */
  function ImageDirAsWritten(apptainerDir: Option<string>): (r: Result<string, Error>)
    ensures apptainerDir.None? ==> r == Success(DefaultApptainerDir)
    ensures apptainerDir.Some? ==> r == Failure(PathOperandType)
  {
    match apptainerDir
    case None => Success(DefaultApptainerDir)
    case Some(_) => Failure(PathOperandType)
  }

  /** The discrepancy: for every directory given with `--apptainer-dir`, the
      image directory as written is not the one that was asked for. */
  lemma ImageDirOptionAlwaysFails(dir: string)
    ensures ImageDirAsWritten(Some(dir)) != Success(ImageDir(Some(dir)))
  {
  }

  /** The image directory as evidently intended: the given directory, or the
      default one. */
  function ImageDir(apptainerDir: Option<string>): (dir: string)
    ensures apptainerDir.Some? ==> dir == apptainerDir.value
    ensures apptainerDir.None? ==> dir == DefaultApptainerDir
  {
    apptainerDir.GetOr(DefaultApptainerDir)
  }

  /** With the intended image directory, a provisioned image is the file
      named for the tool and version inside the directory that was asked for. */
  lemma ImageLandsInRequestedDir(dir: string, tool: string, version: string,
                                 existing: set<string>, build: Images.BuildOutcome)
    requires Images.Owner(tool).Some? && '/' !in version
    ensures var p := Images.EnsureImage(ImageDir(Some(dir)), tool, version, existing, build);
            p.result.Success? ==>
              && StartsWith(p.result.value, dir)
              && Paths.Basename(p.result.value) == Images.ImageFileName(Images.Owner(tool).value, tool, version)
  {
    var name := Images.ImageFileName(Images.Owner(tool).value, tool, version);
    assert '/' !in name;
    Paths.NoSlashIsRelative(name);
    Paths.JoinExtends(dir, name);
    Paths.JoinThenBasename(dir, name);
  }

  /** The output sub-directory of one image, as the per-image loop spells it
      out; it is the subject id the FreeSurfer command is given. */
  function OutputSubdir(participant: string, session: Option<string>, run: Option<string>): (subdir: string)
    ensures subdir == Commands.SubjectId(participant, session, run)
    ensures StartsWith(subdir, "sub-")
  {
    var subdir := "sub-" + participant;
    var subdir := if Truthy(session) then subdir + "_ses-" + session.value else subdir;
    var subdir := if Truthy(run) then subdir + "_run-" + run.value else subdir;
    assert subdir[..4] == "sub-";
    subdir
  }

  /** The fixed inputs of the per-image FreeSurfer loop. */
  datatype FsRun = FsRun(
    rawdata: string,
    derivatives: string,
    image: string,
    license: string,
    outputName: string)

  function ImageOptions(c: FsRun, participant: string, t: T1w): Commands.Options {
    Commands.Options(Some(c.license), c.rawdata, c.derivatives, c.image, participant, t.path,
                     c.outputName, t.session, t.run, None)
  }

  /** The job for one T1w image, or none when its output directory already
      exists. The directory tested is the one the job writes into: the
      derivatives mount, the `-sd` directory and the `-subjid` name. */
  function T1wJob(env: Env, c: FsRun, participant: string, t: T1w): (j: Option<Job>)
    ensures var dir := Paths.Join(Paths.Join(c.derivatives, c.outputName),
                                  Commands.SubjectId(participant, t.session, t.run));
            && (j.None? <==> IsDir(env, dir))
            && (j.Some? ==> j.value.outputDir == dir)
    ensures j.Some? ==>
              var spec := Commands.FreesurferSpec(ImageOptions(c, participant, t), c.license);
              && j.value.command == Commands.Render(spec)
              && spec.binds[2] == Commands.Bind(c.derivatives, "/derivatives")
              && spec.args[6] == "-sd" && spec.args[7] == "/derivatives/" + c.outputName
              && spec.args[2] == "-subjid"
              && spec.args[3] == Commands.SubjectId(participant, t.session, t.run)
  {
    var dir := Paths.Join(Paths.Join(c.derivatives, c.outputName), OutputSubdir(participant, t.session, t.run));
    if IsDir(env, dir) then None
    else Some(Job(dir, Commands.BuildCmd("freesurfer", ImageOptions(c, participant, t)).value))
  }

  /** The jobs for a participant's T1w images, in image order. */
  function T1wJobs(env: Env, c: FsRun, participant: string, images: seq<T1w>): (jobs: seq<Job>)
    ensures |jobs| <= |images|
    ensures forall j :: j in jobs ==> !IsDir(env, j.outputDir)
  {
    if images == [] then []
    else
      match T1wJob(env, c, participant, images[0])
      case None => T1wJobs(env, c, participant, images[1..])
      case Some(j) => [j] + T1wJobs(env, c, participant, images[1..])
  }

  /** The jobs for the resolved participants, in participant order. */
  function ParticipantJobs(env: Env, c: FsRun, participants: seq<string>): (jobs: seq<Job>)
    ensures forall j :: j in jobs ==> !IsDir(env, j.outputDir)
  {
    if participants == [] then []
    else T1wJobs(env, c, participants[0], T1wOf(env, participants[0]))
         + ParticipantJobs(env, c, participants[1..])
  }

  /** Participants are handled independently and in order: the jobs for two
      runs of participants are the jobs for each, concatenated. */
  lemma {:induction false} ParticipantJobsAppend(env: Env, c: FsRun, a: seq<string>, b: seq<string>)
    ensures ParticipantJobs(env, c, a + b) == ParticipantJobs(env, c, a) + ParticipantJobs(env, c, b)
  {
    if a == [] {
      assert a + b == b;
    } else {
      assert (a + b)[0] == a[0];
      assert (a + b)[1..] == a[1..] + b;
      ParticipantJobsAppend(env, c, a[1..], b);
    }
  }

  /** One participant's jobs are the jobs of its T1w images, in image order. */
  lemma ParticipantJobsSingle(env: Env, c: FsRun, participant: string)
    ensures ParticipantJobs(env, c, [participant]) == T1wJobs(env, c, participant, T1wOf(env, participant))
  {
  }

  /** `main`: the terminal actions, then dataset resolution, the creation of
      the output directory, and then the missing-subject listing or
      processing. */
  function Run(args: Args, env: Env): (r: Report)
    ensures |r.builds| <= 1
    ensures args.listDatasets ==>
              r == Report(DatasetsListed(Datasets.ListDatasets(env.rawListing)), [], [], [])
    ensures !args.listDatasets && !Truthy(args.dataset) ==>
              r == Report(NoDatasetGiven(Datasets.ListDatasets(env.rawListing)), [], [], [])
    ensures !args.listDatasets && Truthy(args.dataset)
            && Datasets.RawdataPath(env.rawRoot, args.dataset.value) !in env.paths ==>
              r == Report(DatasetNotFound(Datasets.ListDatasets(env.rawListing)), [], [], [])
    ensures !args.listDatasets && Truthy(args.dataset) && args.listMissing ==>
              r.builds == [] && r.warnings == [] && r.jobs == []
    ensures && !args.listDatasets && Truthy(args.dataset)
            && Datasets.RawdataPath(env.rawRoot, args.dataset.value) in env.paths
            && IsFile(env, OutputDir(env, args, args.dataset.value)) ==>
              r == Report(Failed(OutputPathNotDirectory(OutputDir(env, args, args.dataset.value))), [], [], [])
    ensures && !args.listDatasets && Truthy(args.dataset) && args.listMissing
            && Datasets.RawdataPath(env.rawRoot, args.dataset.value) in env.paths
            && !IsFile(env, OutputDir(env, args, args.dataset.value)) ==>
              r.outcome == ListMissingInOutputDir(env, args, args.dataset.value)
    ensures && !args.listDatasets && Truthy(args.dataset) && !args.listMissing
            && Datasets.RawdataPath(env.rawRoot, args.dataset.value) in env.paths
            && !IsFile(env, OutputDir(env, args, args.dataset.value)) ==>
              r == Process(args, env, Datasets.RawdataPath(env.rawRoot, args.dataset.value),
                           Datasets.DerivativesPath(env.derivativesRoot, args.dataset.value))
    ensures r.builds != [] ==> args.tool == "freesurfer" || args.tool == "fmriprep"
    ensures args.tool != "freesurfer" ==> r.jobs == []
    ensures r.jobs != [] ==> r.outcome == Completed
    ensures forall j :: j in r.jobs ==> !IsDir(env, j.outputDir)
  {
    var available := Datasets.ListDatasets(env.rawListing);
    if args.listDatasets then Report(DatasetsListed(available), [], [], [])
    else if !Truthy(args.dataset) then Report(NoDatasetGiven(available), [], [], [])
    else
      var dataset := args.dataset.value;
      var rawdata := Datasets.RawdataPath(env.rawRoot, dataset);
      if rawdata !in env.paths then Report(DatasetNotFound(available), [], [], [])
      else if IsFile(env, OutputDir(env, args, dataset)) then
        Report(Failed(OutputPathNotDirectory(OutputDir(env, args, dataset))), [], [], [])
      else if args.listMissing then
        Report(ListMissingInOutputDir(env, args, dataset), [], [], [])
      else Process(args, env, rawdata, Datasets.DerivativesPath(env.derivativesRoot, dataset))
  }

  /** The image `main` provisions for a supported tool. */
  function Provisioned(args: Args, env: Env): Images.Provision {
    Images.EnsureImage(ImageDir(args.apptainerDir), args.tool,
                       ImageVersion(args.tool, args.version), env.paths.Keys, env.build)
  }

  /** The participants `main` resolves against the BIDS index. */
  function Resolved(args: Args, env: Env): Participants.Resolution {
    Participants.Resolve(RequestedParticipants(args.participantLabel, args.participantList), env.subjects)
  }

  /** The processing part of `main` for a resolved dataset: for a supported
      tool the runtime check and image provisioning, then participant
      resolution, then the FreeSurfer jobs of the resolved participants. */
  function Process(args: Args, env: Env, rawdata: string, derivatives: string): (r: Report)
    ensures |r.builds| <= 1
    ensures var supported := args.tool == "freesurfer" || args.tool == "fmriprep";
            && (r.outcome == Completed <==>
                  && (!supported || (env.apptainerInstalled && Provisioned(args, env).result.Success?))
                  && Resolved(args, env).result.Success?)
            && (supported && !env.apptainerInstalled ==> r == Report(Failed(ApptainerNotFound), [], [], []))
            && (supported && env.apptainerInstalled ==> r.builds == Provisioned(args, env).builds)
            && (!supported ==> r.builds == [])
            && (supported && env.apptainerInstalled && Provisioned(args, env).result.Failure? ==>
                  r.outcome == Failed(Provisioned(args, env).result.error) && r.warnings == [] && r.jobs == [])
            && ((!supported || (env.apptainerInstalled && Provisioned(args, env).result.Success?)) ==>
                  r.warnings == Resolved(args, env).warnings)
            && (Resolved(args, env).result.Failure? ==>
                  (!supported || (env.apptainerInstalled && Provisioned(args, env).result.Success?)) ==>
                    r.outcome == Failed(NoValidParticipants))
            && (r.outcome == Completed && args.tool == "freesurfer" ==>
                  r.jobs == ParticipantJobs(env, FreesurferRun(args, rawdata, derivatives,
                                                               Provisioned(args, env).result.value),
                                            Resolved(args, env).result.value))
    ensures r.outcome != Completed ==> r.jobs == []
    ensures r.builds != [] ==> args.tool == "freesurfer" || args.tool == "fmriprep"
    ensures args.tool != "freesurfer" ==> r.jobs == []
    ensures forall j :: j in r.jobs ==> !IsDir(env, j.outputDir)
  {
    var supported := args.tool == "freesurfer" || args.tool == "fmriprep";
    if supported && !env.apptainerInstalled then Report(Failed(ApptainerNotFound), [], [], [])
    else
      var provision := if supported then Provisioned(args, env) else Images.Provision(Success(""), []);
      if provision.result.Failure? then Report(Failed(provision.result.error), provision.builds, [], [])
      else
        var resolution := Resolved(args, env);
        if resolution.result.Failure? then
          Report(Failed(resolution.result.error), provision.builds, resolution.warnings, [])
        else
          var jobs :=
            if args.tool == "freesurfer" then
              ParticipantJobs(env, FreesurferRun(args, rawdata, derivatives, provision.result.value),
                              resolution.result.value)
            else [];
          Report(Completed, provision.builds, resolution.warnings, jobs)
  }

  function FreesurferRun(args: Args, rawdata: string, derivatives: string, image: string): FsRun {
    FsRun(rawdata, derivatives, image, args.fsLicense, FreesurferLabel(args.outputLabel, args.version))
  }

  /** Images are handled independently and in order: the jobs for two runs of
      images are the jobs for each, concatenated. */
  lemma {:induction false} T1wJobsAppend(env: Env, c: FsRun, participant: string, a: seq<T1w>, b: seq<T1w>)
    ensures T1wJobs(env, c, participant, a + b)
            == T1wJobs(env, c, participant, a) + T1wJobs(env, c, participant, b)
  {
    if a == [] {
      assert a + b == b;
    } else {
      assert (a + b)[0] == a[0];
      assert (a + b)[1..] == a[1..] + b;
      T1wJobsAppend(env, c, participant, a[1..], b);
    }
  }

  /** One image yields no job when its output directory exists and exactly
      one job otherwise. */
  lemma T1wJobsSingle(env: Env, c: FsRun, participant: string, t: T1w)
    ensures var dir := Paths.Join(Paths.Join(c.derivatives, c.outputName),
                                  Commands.SubjectId(participant, t.session, t.run));
            && (IsDir(env, dir) ==> T1wJobs(env, c, participant, [t]) == [])
            && (!IsDir(env, dir) ==> |T1wJobs(env, c, participant, [t])| == 1)
  {
  }

  /** A participant without T1w images yields no job. */
  lemma NoT1wNoJobs(env: Env, c: FsRun, participant: string)
    requires T1wOf(env, participant) == []
    ensures ParticipantJobs(env, c, [participant]) == []
  {
  }

  /** Every job writes below the run's output directory. */
  lemma {:induction false} ParticipantJobsUnder(env: Env, c: FsRun, participants: seq<string>)
    ensures forall j :: j in ParticipantJobs(env, c, participants) ==>
              StartsWith(j.outputDir, Paths.Join(c.derivatives, c.outputName))
  {
    if participants != [] {
      T1wJobsUnder(env, c, participants[0], T1wOf(env, participants[0]));
      ParticipantJobsUnder(env, c, participants[1..]);
    }
  }

  lemma {:induction false} T1wJobsUnder(env: Env, c: FsRun, participant: string, images: seq<T1w>)
    ensures forall j :: j in T1wJobs(env, c, participant, images) ==>
              StartsWith(j.outputDir, Paths.Join(c.derivatives, c.outputName))
  {
    if images != [] {
      var t := images[0];
      var subdir := OutputSubdir(participant, t.session, t.run);
      assert !StartsWith(subdir, "/") by {
        assert subdir[0] == 's';
      }
      Paths.JoinExtends(Paths.Join(c.derivatives, c.outputName), subdir);
      T1wJobsUnder(env, c, participant, images[1..]);
    }
  }

  /** The FreeSurfer jobs of a run lie inside the output directory that
      `--list-missing` inspects for the same arguments. */
  lemma JobsLieInOutputDir(args: Args, env: Env)
    requires args.tool == "freesurfer" && Truthy(args.dataset)
    ensures forall j :: j in Run(args, env).jobs ==>
              StartsWith(j.outputDir,
                         Paths.Join(Datasets.DerivativesPath(env.derivativesRoot, args.dataset.value),
                                    OutputLabel(args.tool, args.outputLabel, args.version)))
  {
    var r := Run(args, env);
    if r.jobs != [] {
      var rawdata := Datasets.RawdataPath(env.rawRoot, args.dataset.value);
      var derivatives := Datasets.DerivativesPath(env.derivativesRoot, args.dataset.value);
      assert r == Process(args, env, rawdata, derivatives);
      var provision := Images.EnsureImage(ImageDir(args.apptainerDir), args.tool,
                         ImageVersion(args.tool, args.version), env.paths.Keys, env.build);
      var resolution := Participants.Resolve(
                RequestedParticipants(args.participantLabel, args.participantList), env.subjects);
      var c := FreesurferRun(args, rawdata, derivatives, provision.result.value);
      assert r.jobs == ParticipantJobs(env, c, resolution.result.value);
      ParticipantJobsUnder(env, c, resolution.result.value);
    }
  }

  /** A dataset whose raw-data directory is absent stops the run before any
      image, participant or job is considered. */
  lemma MissingDatasetStops(args: Args, env: Env)
    requires !args.listDatasets && Truthy(args.dataset)
    requires Datasets.RawdataPath(env.rawRoot, args.dataset.value) !in env.paths
    ensures Run(args, env)
            == Report(DatasetNotFound(Datasets.ListDatasets(env.rawListing)), [], [], [])
  {
  }

  /** With `--participant-list` but no `--participant-label`, a FreeSurfer run
      that completes issues the jobs of every subject of the index. */
  lemma ListAloneProcessesEverySubject(args: Args, env: Env)
    requires args.tool == "freesurfer" && !Truthy(args.participantLabel)
    requires Run(args, env).outcome == Completed
    ensures Run(args, env).warnings == []
    ensures Run(args, env).jobs ==
              ParticipantJobs(env,
                FreesurferRun(args,
                  Datasets.RawdataPath(env.rawRoot, args.dataset.value),
                  Datasets.DerivativesPath(env.derivativesRoot, args.dataset.value),
                  Images.EnsureImage(ImageDir(args.apptainerDir), args.tool,
                    ImageVersion(args.tool, args.version), env.paths.Keys, env.build).result.value),
                env.subjects)
  {
    ListAloneSelectsEveryone(args.participantLabel, args.participantList, env.subjects);
  }
}
