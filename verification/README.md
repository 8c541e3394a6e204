# ln2t-tools core in Dafny

ln2t-tools is a command-line orchestrator for neuroimaging datasets in BIDS
layout. It finds a dataset under a raw-data root, decides which participants
to process, and makes sure a FreeSurfer or fMRIPrep Apptainer image exists,
building it if it does not. For FreeSurfer it is meant to launch one
`recon-all` container command per T1w image whose output directory does not
exist yet; as written the first launch raises a `NameError` instead (see
"## Findings").
A `--list-missing` action is meant to report the raw subjects that have no
output directory; as written it raises an `AttributeError` instead (see
"## Findings").

This project models the pure decisions of that core as Dafny functions over
immutable values. The outside world is passed in as values:

- the listing of the raw-data root;
- the files and directories that exist before the run;
- the subjects and T1w records of the BIDS index;
- the `sub-*` entries of each directory, keyed by its path;
- whether `/usr/bin/apptainer` exists;
- what an image build reports.

Modules:

- `Base`: `Option`, `Result`, the error kinds the program raises, and Python truthiness (`None` and `""` are false).
- `Text`: prefixes, suffixes, and splitting at the first occurrence of a separator.
- `Paths`: `os.path.join` for two components, including an absolute second component replacing the first. Also `os.path.basename`.
- `Datasets`: dataset listing (`-rawdata` suffix filter and strip), and the raw-data and derivatives paths.
- `Participants`: participant resolution (`check_participants_exist`).
- `Reconcile`: missing-subject report (`list_missing_subjects`), with Python's string order and `sorted(set(...))`.
- `Images`: image provisioning (`ensure_image_exists`). It also parses image file names back, to show the naming is injective.
- `Commands`: subject id construction and `build_apptainer_cmd`. Each command string is proved equal to the rendering of a structured job spec: bind mounts, image, argument list.
- `Driver`: the decisions of `main`. These cover the terminal actions, dataset resolution, the output label and image version defaults, participant-list selection, and the per-T1w FreeSurfer jobs with their skip rules.

The missing-subject report recovers a subject from an output directory name
with `name[4:]`, so `sub-02_ses-A` yields `02_ses-A`, not `02`. A subject
whose outputs carry a session or run qualifier is therefore still reported
missing. `Reconcile.MissingIffNoBareDirectory` and
`Reconcile.SessionDirectoryLeavesSubjectMissing` state this behaviour.

## Model

| member | source | states |
|---|---|---|
| Datasets.ListDatasets | ln2t_tools/utils/utils.py:75-76 | every listed dataset `d` has `d + "-rawdata"` in the listing; every listing entry ending in `-rawdata` appears with its 8-character suffix removed; never longer than the listing |
| Datasets.ListedIffRawdataEntry | ln2t_tools/utils/utils.py:75-76 | a name is listed exactly when `<name>-rawdata` is an entry of the raw-data root (both directions) |
| Datasets.ListDatasetsAppend | ln2t_tools/utils/utils.py:75-76 | listing preserves enumeration order: it distributes over concatenation of listings |
| Datasets.LocateAgreesWithListing | ln2t_tools/ln2t_tools.py:45-54 | the raw-data path looked up for a dataset lies in the raw root and its last component is the entry that listing shows as that dataset; the derivatives path lies in the derivatives root and ends in `<dataset>-derivatives` |
| Participants.Partition | ln2t_tools/utils/utils.py:135-140 | the loop splits the request into known entries and unknown entries, together a permutation of the request (as multisets) |
| Participants.Resolve | ln2t_tools/utils/utils.py:131-145 | an empty request yields all index subjects with no warning; otherwise it fails with no-valid-participants iff no requested entry is known; kept entries are known requested ones; one warning per dropped entry; kept plus warned equals the request length; kept entries and warnings are exactly the request split in order by `Partition` |
| Participants.PartitionAppend | ln2t_tools/utils/utils.py:136-140 | resolution keeps request order: the kept and dropped lists of a concatenated request are the concatenations of the parts' lists |
| Participants.PartitionSingle | ln2t_tools/utils/utils.py:137-140 | a single entry is kept iff it is a known subject, and dropped with a warning otherwise, so duplicates are kept as often as requested |
| Reconcile.SortedDistinct | ln2t_tools/utils/utils.py:107 | `sorted(set(xs))`: strictly ascending in Python string order, with exactly the members of `xs` |
| Reconcile.MissingSubjects | ln2t_tools/utils/utils.py:97-107 | the report is strictly ascending and holds exactly the raw subjects not among `{name[4:]}` of the `sub-*` directories |
| Reconcile.SortedUnique | ln2t_tools/utils/utils.py:107 | two strictly ascending sequences with the same members are equal, so the report is fully determined by the missing set |
| Reconcile.MissingIffNoBareDirectory | ln2t_tools/utils/utils.py:99-104 | a raw subject is reported missing iff no output directory is named exactly `sub-<label>` |
| Reconcile.SessionDirectoryLeavesSubjectMissing | ln2t_tools/utils/utils.py:99-104 | raw {01, 02, 03} with directories `sub-01` and `sub-02_ses-A` reports `["02", "03"]` |
| Images.EnsureImage | ln2t_tools/utils/utils.py:50-71 | an unsupported tool fails before any path or build; the returned path is `<dir>/<owner>.<tool>.<version>.sif`; a present image is returned with no build; an absent one gets exactly one build command and succeeds iff the build exits 0 and the file then exists, failing with the image path otherwise |
| Images.ImageFileNameRoundTrip | ln2t_tools/utils/utils.py:50-56 | the image file name parses back to its tool and version (the owner being the tool's registry owner), whatever dots the version contains |
| Images.ImageFileNameInjective | ln2t_tools/utils/utils.py:56 | two supported images share a file name only if tool and version agree |
| Commands.SubjectIdRoundTrip | ln2t_tools/utils/utils.py:194-198 | for underscore-free labels, the subject id parses back to the label with its truthy session and run, in that fixed order |
| Commands.SubjectIdInjective | ln2t_tools/utils/utils.py:194-198 | images whose keys differ beyond falsy qualifiers get different subject ids |
| Commands.BuildCmd | ln2t_tools/utils/utils.py:189-215 | freesurfer with a license renders the spec: license, `/rawdata` and `/derivatives` mounts in order, image, `recon-all -all -subjid <id> -i <t1w> -sd /derivatives/<label> <flair>`. freesurfer without a license fails with missing-license. fmriprep renders its fixed participant-level spec. Any other tool fails with unsupported-tool |
| Commands.FreesurferRendering | ln2t_tools/utils/utils.py:200-206 | the structured FreeSurfer spec renders to the source's command template, with the subject id as built by the id rule |
| Commands.FmriprepRendering | ln2t_tools/utils/utils.py:208-213 | the structured fMRIPrep spec renders to the source's command template |
| Commands.FmriprepIgnoresImageQualifiers | ln2t_tools/utils/utils.py:207-213 | the fMRIPrep command does not depend on session, run, license, T1w, output label or FLAIR options |
| Driver.ImageVersion | ln2t_tools/ln2t_tools.py:65 | the image version is `(version or 7.3.2)` for freesurfer and `23.1.3` for every other tool, whatever `--version` says |
| Driver.OutputLabel | ln2t_tools/ln2t_tools.py:55 | an explicit output label wins; otherwise `<tool>_<image version>`, so a non-freesurfer tool gets `<tool>_23.1.3` regardless of `--version` |
| Driver.FreesurferLabel | ln2t_tools/ln2t_tools.py:104-108 | the label the per-image loop writes under equals the run's output label for freesurfer |
| Driver.ListMissing | ln2t_tools/utils/utils.py:86-110 | a plain-string output directory fails with an attribute error (and only it does); a path is globbed, and the report is strictly ascending and holds exactly the index subjects not among the labels recovered from its `sub-*` directories |
| Driver.ListMissingAsWritten | ln2t_tools/ln2t_tools.py:55-61 | as written: `--list-missing` always ends in the attribute error, because the output directory is a plain string |
| Driver.ListMissingInOutputDir | ln2t_tools/ln2t_tools.py:54-61 | corrected: the report lists, in ascending order, exactly the index subjects with no bare `sub-<label>` directory under `<dataset>-derivatives/<output label>` |
| Driver.ListMissingAsWrittenNeverLists | ln2t_tools/utils/utils.py:100 | for every dataset and arguments, the as-written listing differs from the corrected one |
| Driver.ListMissingIgnoresVersionForOtherTools | ln2t_tools/ln2t_tools.py:55 | without an output label, a non-FreeSurfer tool's missing-subject report does not depend on `--version` |
| Driver.LaunchAsWritten | ln2t_tools/utils/utils.py:218-220 | as written: only an empty job list launches without error, running nothing; any job makes the launch fail with a name error for `build_cmd`, with no command run |
| Driver.Launch | ln2t_tools/utils/utils.py:218-220 | corrected: one command run per job, each job's command, in job order |
| Driver.LaunchAsWrittenRunsNothing | ln2t_tools/ln2t_tools.py:129 | for any non-empty job list, the as-written launch differs from the corrected one, which runs at least one command |
| Driver.RequestedParticipants | ln2t_tools/ln2t_tools.py:68 | without a truthy participant label the request is empty; with one, it is the participant list when given, else the label alone |
| Driver.ListAloneSelectsEveryone | ln2t_tools/ln2t_tools.py:68-72 | `--participant-list` without `--participant-label` resolves to every subject with no warning |
| Driver.ImageDirAsWritten | ln2t_tools/utils/utils.py:56 | as written: the default image directory works, any directory given on the command line fails with a type error |
| Driver.ImageDirOptionAlwaysFails | ln2t_tools/cli/cli.py:14 | for every `--apptainer-dir` value, the image directory as written is not the directory that was asked for |
| Driver.ImageDir | ln2t_tools/utils/utils.py:56 | corrected: the given directory, else `/opt/apptainer` |
| Driver.ImageLandsInRequestedDir | ln2t_tools/utils/utils.py:56 | with the corrected directory, a provisioned image lies in the requested directory and is named `<owner>.<tool>.<version>.sif` |
| Driver.OutputSubdir | ln2t_tools/ln2t_tools.py:98-102 | the per-image output sub-directory equals the subject id `build_apptainer_cmd` builds from the same label, session and run, and starts with `sub-` |
| Driver.T1wJob | ln2t_tools/ln2t_tools.py:104-129 | an image gets no job iff its output directory exists. A job writes into that directory, and its command is the FreeSurfer spec: derivatives mounted at `/derivatives`, `-sd /derivatives/<label>`, `-subjid` the directory's name |
| Driver.T1wJobs | ln2t_tools/ln2t_tools.py:92-129 | no more jobs than images, and no job for an existing output directory |
| Driver.ParticipantJobs | ln2t_tools/ln2t_tools.py:74-129 | no job targets an existing output directory |
| Driver.ParticipantJobsAppend | ln2t_tools/ln2t_tools.py:74 | participants are processed independently and in order: the jobs of a concatenated participant list are the concatenated jobs |
| Driver.ParticipantJobsSingle | ln2t_tools/ln2t_tools.py:75-92 | one participant's jobs are the jobs of its T1w images from the index, in image order |
| Driver.T1wJobsAppend | ln2t_tools/ln2t_tools.py:92 | images are processed independently and in order |
| Driver.T1wJobsSingle | ln2t_tools/ln2t_tools.py:110-129 | an image with an existing output directory yields no job, any other image exactly one |
| Driver.NoT1wNoJobs | ln2t_tools/ln2t_tools.py:85-87 | a participant with no T1w image yields no job |
| Driver.ParticipantJobsUnder | ln2t_tools/ln2t_tools.py:104-108 | every job's output directory lies below `<derivatives>/<label>` |
| Driver.JobsLieInOutputDir | ln2t_tools/ln2t_tools.py:54-55 | the FreeSurfer jobs of a run lie inside `<dataset>-derivatives/<output label>`, the directory the corrected `--list-missing` globs |
| Driver.MissingDatasetStops | ln2t_tools/ln2t_tools.py:45-52 | an absent raw-data directory ends the run with the dataset listing and no build, warning or job |
| Driver.ListAloneProcessesEverySubject | ln2t_tools/ln2t_tools.py:68-75 | with only `--participant-list`, a completed FreeSurfer run issues the jobs of every index subject, with no warning |
| Driver.Run | ln2t_tools/ln2t_tools.py:23-129 | `--list-datasets` yields the listing; no dataset yields the listing; a dataset without raw data yields the listing. For an existing dataset, an output path that is a file fails as `os.makedirs` does. Otherwise `--list-missing` gives the corrected report for the run's output directory with no build, warning or job, and any other run is exactly the processing of that dataset. At most one image build, only for freesurfer or fmriprep. Only freesurfer issues jobs, and none targets an existing output directory |
| Driver.Process | ln2t_tools/ln2t_tools.py:63-129 | the run completes iff, for a supported tool, apptainer is installed and the image is provisioned, and participant resolution succeeds. A missing apptainer fails with nothing done. The builds are exactly those of provisioning, and none for other tools. A provisioning failure ends the run with its error and no warning or job. Otherwise the warnings are those of resolution, and no valid participant fails with that error. A completed FreeSurfer run issues exactly the jobs of the resolved participants with the provisioned image; failures issue no job; only freesurfer issues jobs |

## Findings

| source | as written | input that shows it | evidently intended | confidence | as-written member | corrected member |
|---|---|---|---|---|---|---|
| ln2t_tools/utils/utils.py:100 | `list_missing_subjects` calls `output_dir.glob`, but `main` passes the output directory built by `os.path.join` (ln2t_tools.py:55, 60), a `str`, so the call raises `AttributeError` | `--dataset <any existing dataset> --list-missing` | glob the output directory as a path and report the subjects without output | high, not executed | Driver.ListMissingAsWritten | Driver.ListMissingInOutputDir |
| ln2t_tools/utils/utils.py:220 | `launch_apptainer` passes `build_cmd` to `os.system`; that name exists only inside `ensure_image_exists`, so the first launch raises `NameError` and `main` stops before any job runs | a FreeSurfer run with one T1w image whose output directory does not exist | run `apptainer_cmd`, the command it was given | high, not executed | Driver.LaunchAsWritten | Driver.Launch |
| ln2t_tools/utils/utils.py:56 | the image directory is joined with `/`. The command-line option has no type conversion, so a directory given with `--apptainer-dir` is a `str`, and `str / str` raises `TypeError` | `--apptainer-dir /data/images` | use the given directory as a path, like the default `/opt/apptainer` | high, not executed | Driver.ImageDirAsWritten | Driver.ImageDir |

The corrected `Driver.ImageDir` is the one `Driver.Process` uses, and the
corrected `Driver.ListMissingInOutputDir` is the one `Driver.Run` uses. The
jobs of a report are those a run hands to the launcher; the corrected
`Driver.Launch` runs their commands in order.

## Left out

- Logging, `print` output and warning texts: the model returns outcomes, lists and the labels warned about, not message strings. Python's warning filter may print a repeated identical warning only once; `Participants.Resolve` reports one warning per dropped entry.
- `check_apptainer_is_installed("/usr/bin/apptainer")`: `shutil.which` on a path with a directory part only checks that file, so its answer becomes the input `apptainerInstalled`.
- `check_file_exists`: it only prints, and its result is ignored.
- `os.system` builds: they become the input `BuildOutcome`.
- `os.makedirs` of the output directory: the model fails the run when the output path itself is a file, as `FileExistsError` does. Creating the directory is not fed back into the filesystem snapshot, and a file somewhere above the output path is not modelled.
- Driver.Run: the `Completed` outcome and its job list describe the run with the corrected launcher. As written, the first job's launch raises `NameError`, so a run with any job ends in that error after announcing one command and running none (see "## Findings").
- Driver.Process: likewise, the `Completed` outcome with a non-empty job list holds for the corrected launcher only; as written the first launch raises `NameError`.
- Commands.BuildCmd: the options record makes every keyword except the license and the FLAIR option mandatory, and reads a license of `None` as "not passed". `build_apptainer_cmd` raises `KeyError` when the participant label, raw-data or derivatives path, image, T1w or output label is missing, and it tests only whether the license key is present, so `fs_license=None` renders `None` instead of failing. `main` always passes every one of these keywords.
- `os.system` of a launched command: the model gives the command sequence `Driver.Launch` would run, not its exit status, which `main` ignores.
- The filesystem is a snapshot taken before the run. Directories created by launched jobs are not fed back, so two T1w images with the same subject id both get a job.
- `get_flair_list`: its result is discarded and it only warns. FLAIR options are never passed, so the FreeSurfer command ends with an empty FLAIR field.
- The BIDSLayout queries: `layout.get_subjects()` becomes the input `subjects`, and the per-participant query `layout.get(sub=..., scope="rawdata", suffix="T1w", extension=".nii.gz", return_type="object")` in `main` becomes the input `t1w` (records with optional session and run). That input is unconstrained: which files those filters select is not modelled. `get_t1w_list` is imported by `main` but never called. The `sub-*` glob becomes `outputEntries`, the entries recorded for each globbed directory.
- Run entities: pybids returns the run as an integer, which is falsy when it is 0. The model treats session and run as optional strings whose truthiness is non-emptiness.
- Path normalisation by `pathlib` (collapsing `//`, `.`): paths are strings joined by `os.path.join` rules.
- `os.listdir` of an absent raw-data root raises an exception. The model treats the listing as always readable.
- The CLI wiring (`parse_args`), terminal colouring (`setup_terminal_colors`), `post_install.py` and `setup.py`: argument parsing, process-wide hooks and installer I/O.
