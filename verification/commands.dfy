/** `build_apptainer_cmd`: the subject id of one acquisition and the container
    command line for each supported tool. */
module Commands {
  import opened Base
  import opened Text

  /** A subject label with the optional session and run of one image. */
  datatype SubjectKey = SubjectKey(participant: string, session: Option<string>, run: Option<string>)

  /** `sub-<label>`, then `_ses-<session>` when the session is truthy, then
      `_run-<run>` when the run is truthy. */
  function SubjectId(participant: string, session: Option<string>, run: Option<string>): string {
    var id := "sub-" + participant;
    var id := if Truthy(session) then id + "_ses-" + session.value else id;
    if Truthy(run) then id + "_run-" + run.value else id
  }

  /** The key a subject id can stand for: falsy qualifiers are absent. */
  function Normalize(k: SubjectKey): SubjectKey {
    SubjectKey(k.participant,
               if Truthy(k.session) then k.session else None,
               if Truthy(k.run) then k.run else None)
  }

  /** Reads `sub-<label>[_ses-<session>][_run-<run>]` back into its parts. */
  function ParseSubjectId(id: string): Option<SubjectKey> {
    if !StartsWith(id, "sub-") then None
    else
      var rest := id[4..];
      match SplitFirst(rest, '_')
      case None => Some(SubjectKey(rest, None, None))
      case Some((participant, tail)) =>
        if StartsWith(tail, "ses-") then
          match SplitFirst(tail[4..], '_')
          case None => Some(SubjectKey(participant, Some(tail[4..]), None))
          case Some((session, tail')) =>
            if StartsWith(tail', "run-") && '_' !in tail'[4..] then
              Some(SubjectKey(participant, Some(session), Some(tail'[4..])))
            else None
        else if StartsWith(tail, "run-") && '_' !in tail[4..] then
          Some(SubjectKey(participant, None, Some(tail[4..])))
        else None
  }

  /** BIDS labels carry no underscore. */
  predicate PlainKey(k: SubjectKey) {
    && '_' !in k.participant
    && (k.session.Some? ==> '_' !in k.session.value)
    && (k.run.Some? ==> '_' !in k.run.value)
  }

  /** For underscore-free labels the subject id loses nothing but falsy
      qualifiers: parsing it back yields the normalised key. */
  lemma SubjectIdRoundTrip(k: SubjectKey)
    requires PlainKey(k)
    ensures ParseSubjectId(SubjectId(k.participant, k.session, k.run)) == Some(Normalize(k))
  {
    var p := k.participant;
    if Truthy(k.session) && Truthy(k.run) {
      ParseWithSessionAndRun(p, k.session.value, k.run.value);
    } else if Truthy(k.session) {
      ParseWithSession(p, k.session.value);
    } else if Truthy(k.run) {
      ParseWithRun(p, k.run.value);
    } else {
      ParseBare(p);
    }
  }

  lemma ParseBare(p: string)
    requires '_' !in p
    ensures ParseSubjectId("sub-" + p) == Some(SubjectKey(p, None, None))
  {
  }

  lemma ParseWithRun(p: string, r: string)
    requires '_' !in p && '_' !in r
    ensures ParseSubjectId("sub-" + p + "_run-" + r) == Some(SubjectKey(p, None, Some(r)))
  {
    var id := "sub-" + p + "_run-" + r;
    assert id == "sub-" + (p + ['_'] + ("run-" + r));
    StartsWithOfConcat("sub-", p + ['_'] + ("run-" + r));
    assert id[4..] == p + ['_'] + ("run-" + r);
    SplitFirstOfJoined(p, '_', "run-" + r);
    StartsWithOfConcat("run-", r);
    assert ("run-" + r)[4..] == r;
  }

  lemma ParseWithSession(p: string, s: string)
    requires '_' !in p && '_' !in s
    ensures ParseSubjectId("sub-" + p + "_ses-" + s) == Some(SubjectKey(p, Some(s), None))
  {
    var id := "sub-" + p + "_ses-" + s;
    assert id == "sub-" + (p + ['_'] + ("ses-" + s));
    StartsWithOfConcat("sub-", p + ['_'] + ("ses-" + s));
    assert id[4..] == p + ['_'] + ("ses-" + s);
    SplitFirstOfJoined(p, '_', "ses-" + s);
    StartsWithOfConcat("ses-", s);
    assert ("ses-" + s)[4..] == s;
  }

  lemma ParseWithSessionAndRun(p: string, s: string, r: string)
    requires '_' !in p && '_' !in s && '_' !in r
    ensures ParseSubjectId("sub-" + p + "_ses-" + s + "_run-" + r)
            == Some(SubjectKey(p, Some(s), Some(r)))
  {
    var id := "sub-" + p + "_ses-" + s + "_run-" + r;
    var tail := "ses-" + (s + ['_'] + ("run-" + r));
    assert id == "sub-" + (p + ['_'] + tail);
    StartsWithOfConcat("sub-", p + ['_'] + tail);
    assert id[4..] == p + ['_'] + tail;
    SplitFirstOfJoined(p, '_', tail);
    StartsWithOfConcat("ses-", s + ['_'] + ("run-" + r));
    assert tail[4..] == s + ['_'] + ("run-" + r);
    SplitFirstOfJoined(s, '_', "run-" + r);
    StartsWithOfConcat("run-", r);
    assert ("run-" + r)[4..] == r;
  }

  /** Distinct acquisitions get distinct subject ids, so their output
      directories cannot collide, unless they differ only in falsy
      qualifiers. */
  lemma SubjectIdInjective(k1: SubjectKey, k2: SubjectKey)
    requires PlainKey(k1) && PlainKey(k2)
    requires SubjectId(k1.participant, k1.session, k1.run) == SubjectId(k2.participant, k2.session, k2.run)
    ensures Normalize(k1) == Normalize(k2)
  {
    SubjectIdRoundTrip(k1);
    SubjectIdRoundTrip(k2);
  }

  /** The keyword options `build_apptainer_cmd` reads. `fsLicense` is `None`
      when the option is not passed, `flairOption` when it is not passed. */
  datatype Options = Options(
    fsLicense: Option<string>,
    rawdata: string,
    derivatives: string,
    image: string,
    participantLabel: string,
    t1w: string,
    outputLabel: string,
    session: Option<string>,
    run: Option<string>,
    flairOption: Option<string>)

  /** A host directory mounted at a container path. */
  datatype Bind = Bind(host: string, container: string)

  /** A container invocation as a structured value. */
  datatype JobSpec = JobSpec(binds: seq<Bind>, image: string, args: seq<string>)

  /** Where the license file is mounted inside the FreeSurfer container. */
  const LicenseMount: string := "/usr/local/freesurfer/.license"

  /** Appends `-B host:container ` for each mount, in order. */
  function BindsOnto(acc: string, binds: seq<Bind>): string
    decreases |binds|
  {
    if binds == [] then acc
    else BindsOnto(acc + "-B " + binds[0].host + ":" + binds[0].container + " ", binds[1..])
  }

  /** Appends each argument preceded by a single space. */
  function ArgsOnto(acc: string, args: seq<string>): string
    decreases |args|
  {
    if args == [] then acc
    else ArgsOnto(acc + " " + args[0], args[1..])
  }

  /** The command line that runs a job spec. */
  function Render(spec: JobSpec): string {
    ArgsOnto(BindsOnto("apptainer run ", spec.binds) + spec.image, spec.args)
  }

  /** FreeSurfer: license, raw data and derivatives mounts; full
      reconstruction of one image into `/derivatives/<output label>`, with
      the FLAIR options passed through last. */
  function FreesurferSpec(o: Options, license: string): JobSpec {
    JobSpec([Bind(license, LicenseMount), Bind(o.rawdata, "/rawdata"), Bind(o.derivatives, "/derivatives")],
             o.image,
             ["recon-all", "-all", "-subjid", SubjectId(o.participantLabel, o.session, o.run),
              "-i", o.t1w, "-sd", "/derivatives/" + o.outputLabel, o.flairOption.GetOr("")])
  }

  /** fMRIPrep: raw data and derivatives mounts; a participant-level run
      into `/derivatives/fmriprep` with a fixed output space. */
  function FmriprepSpec(o: Options): JobSpec {
    JobSpec([Bind(o.rawdata, "/rawdata"), Bind(o.derivatives, "/derivatives")],
             o.image,
             ["/rawdata", "/derivatives/fmriprep", "participant",
              "--participant-label", o.participantLabel,
              "--output-spaces", "MNI152NLin2009cAsym:res-2"])
  }

  /** `build_apptainer_cmd`: the command string for a tool, which is the
      rendering of that tool's job spec; a FreeSurfer request without a
      license and any other tool are errors. */
  function BuildCmd(tool: string, o: Options): (r: Result<string, Error>)
    ensures tool == "freesurfer" && o.fsLicense.Some? ==>
              r == Success(Render(FreesurferSpec(o, o.fsLicense.value)))
    ensures tool == "freesurfer" && o.fsLicense.None? ==> r == Failure(MissingLicense)
    ensures tool == "fmriprep" ==> r == Success(Render(FmriprepSpec(o)))
    ensures tool != "freesurfer" && tool != "fmriprep" ==> r == Failure(UnsupportedTool(tool))
  {
    if tool == "freesurfer" then
      if o.fsLicense.None? then Failure(MissingLicense)
      else
        var subjectId := "sub-" + o.participantLabel;
        var subjectId := if Truthy(o.session) then subjectId + "_ses-" + o.session.value else subjectId;
        var subjectId := if Truthy(o.run) then subjectId + "_run-" + o.run.value else subjectId;
        FreesurferRendering(o, o.fsLicense.value);
        Success("apptainer run " + "-B " + o.fsLicense.value + ":" + "/usr/local/freesurfer/.license" + " "
                + "-B " + o.rawdata + ":" + "/rawdata" + " " + "-B " + o.derivatives + ":" + "/derivatives" + " "
                + o.image + " " + "recon-all" + " " + "-all" + " " + "-subjid" + " " + subjectId + " "
                + "-i" + " " + o.t1w + " "
                + "-sd" + " " + ("/derivatives/" + o.outputLabel) + " " + o.flairOption.GetOr(""))
    else if tool == "fmriprep" then
      FmriprepRendering(o);
      Success("apptainer run " + "-B " + o.rawdata + ":" + "/rawdata" + " " + "-B " + o.derivatives + ":" + "/derivatives" + " "
              + o.image + " " + "/rawdata" + " " + "/derivatives/fmriprep" + " " + "participant" + " "
              + "--participant-label" + " " + o.participantLabel + " "
              + "--output-spaces" + " " + "MNI152NLin2009cAsym:res-2")
    else Failure(UnsupportedTool(tool))
  }

  lemma FreesurferRendering(o: Options, license: string)
    ensures Render(FreesurferSpec(o, license))
            == "apptainer run " + "-B " + license + ":" + "/usr/local/freesurfer/.license" + " "
               + "-B " + o.rawdata + ":" + "/rawdata" + " " + "-B " + o.derivatives + ":" + "/derivatives" + " "
               + o.image + " " + "recon-all" + " " + "-all" + " " + "-subjid" + " "
               + SubjectId(o.participantLabel, o.session, o.run) + " "
               + "-i" + " " + o.t1w + " "
               + "-sd" + " " + ("/derivatives/" + o.outputLabel) + " " + o.flairOption.GetOr("")
  {
    var spec := FreesurferSpec(o, license);
    var b := spec.binds;
    var b0 := "apptainer run ";
    var b1 := b0 + "-B " + license + ":" + LicenseMount + " ";
    var b2 := b1 + "-B " + o.rawdata + ":" + "/rawdata" + " ";
    var b3 := b2 + "-B " + o.derivatives + ":" + "/derivatives" + " ";
    assert BindsOnto(b0, b) == BindsOnto(b1, b[1..]);
    assert BindsOnto(b1, b[1..]) == BindsOnto(b2, b[2..]);
    assert BindsOnto(b2, b[2..]) == BindsOnto(b3, b[3..]);
    assert b[3..] == [];
    var a := spec.args;
    var t0 := b3 + spec.image;
    var t1 := t0 + " " + a[0];
    assert ArgsOnto(t0, a) == ArgsOnto(t1, a[1..]);
    var t2 := t1 + " " + a[1];
    assert ArgsOnto(t1, a[1..]) == ArgsOnto(t2, a[2..]);
    var t3 := t2 + " " + a[2];
    assert ArgsOnto(t2, a[2..]) == ArgsOnto(t3, a[3..]);
    var t4 := t3 + " " + a[3];
    assert ArgsOnto(t3, a[3..]) == ArgsOnto(t4, a[4..]);
    var t5 := t4 + " " + a[4];
    assert ArgsOnto(t4, a[4..]) == ArgsOnto(t5, a[5..]);
    var t6 := t5 + " " + a[5];
    assert ArgsOnto(t5, a[5..]) == ArgsOnto(t6, a[6..]);
    var t7 := t6 + " " + a[6];
    assert ArgsOnto(t6, a[6..]) == ArgsOnto(t7, a[7..]);
    var t8 := t7 + " " + a[7];
    assert ArgsOnto(t7, a[7..]) == ArgsOnto(t8, a[8..]);
    var t9 := t8 + " " + a[8];
    assert ArgsOnto(t8, a[8..]) == ArgsOnto(t9, a[9..]);
    assert a[9..] == [];
  }

  lemma FmriprepRendering(o: Options)
    ensures Render(FmriprepSpec(o))
            == "apptainer run " + "-B " + o.rawdata + ":" + "/rawdata" + " " + "-B " + o.derivatives + ":" + "/derivatives" + " "
               + o.image + " " + "/rawdata" + " " + "/derivatives/fmriprep" + " " + "participant" + " "
               + "--participant-label" + " " + o.participantLabel + " "
               + "--output-spaces" + " " + "MNI152NLin2009cAsym:res-2"
  {
    var spec := FmriprepSpec(o);
    var b := spec.binds;
    var b0 := "apptainer run ";
    var b1 := b0 + "-B " + o.rawdata + ":" + "/rawdata" + " ";
    var b2 := b1 + "-B " + o.derivatives + ":" + "/derivatives" + " ";
    assert BindsOnto(b0, b) == BindsOnto(b1, b[1..]);
    assert BindsOnto(b1, b[1..]) == BindsOnto(b2, b[2..]);
    assert b[2..] == [];
    var a := spec.args;
    var t0 := b2 + spec.image;
    var t1 := t0 + " " + a[0];
    assert ArgsOnto(t0, a) == ArgsOnto(t1, a[1..]);
    var t2 := t1 + " " + a[1];
    assert ArgsOnto(t1, a[1..]) == ArgsOnto(t2, a[2..]);
    var t3 := t2 + " " + a[2];
    assert ArgsOnto(t2, a[2..]) == ArgsOnto(t3, a[3..]);
    var t4 := t3 + " " + a[3];
    assert ArgsOnto(t3, a[3..]) == ArgsOnto(t4, a[4..]);
    var t5 := t4 + " " + a[4];
    assert ArgsOnto(t4, a[4..]) == ArgsOnto(t5, a[5..]);
    var t6 := t5 + " " + a[5];
    assert ArgsOnto(t5, a[5..]) == ArgsOnto(t6, a[6..]);
    var t7 := t6 + " " + a[6];
    assert ArgsOnto(t6, a[6..]) == ArgsOnto(t7, a[7..]);
    assert a[7..] == [];
  }

  /** The fMRIPrep command depends only on the mounts, the image and the
      participant: session, run, license, T1w, output label and FLAIR
      options are ignored. */
  lemma FmriprepIgnoresImageQualifiers(o1: Options, o2: Options)
    requires o1.rawdata == o2.rawdata && o1.derivatives == o2.derivatives
    requires o1.image == o2.image && o1.participantLabel == o2.participantLabel
    ensures BuildCmd("fmriprep", o1) == BuildCmd("fmriprep", o2)
  {
  }
}
