/** `ensure_image_exists`: the local container image for a tool and version,
    built from the tool's registry repository when it is absent. */
module Images {
  import opened Base
  import opened Text
  import Paths

  /** The registry owner of each supported tool's image. */
  function Owner(tool: string): Option<string> {
    if tool == "freesurfer" then Some("freesurfer")
    else if tool == "fmriprep" then Some("nipreps")
    else None
  }

  /** `<owner>.<tool>.<version>.sif`. */
  function ImageFileName(owner: string, tool: string, version: string): string {
    owner + "." + tool + "." + version + ".sif"
  }

  /** The build command issued for an absent image. */
  function BuildCommand(imagePath: string, owner: string, tool: string, version: string): string {
    "apptainer build " + imagePath + " docker://" + owner + "/" + tool + ":" + version
  }

  /** What the external build reports: its exit status and whether the image
      file exists once it has finished. */
  datatype BuildOutcome = BuildOutcome(exitCode: int, imagePresentAfter: bool)

  /** The image path or the error, and every build command issued. */
  datatype Provision = Provision(result: Result<string, Error>, builds: seq<string>)

  /** `ensure_image_exists`: an unsupported tool is rejected before any path
      is formed; a present image is returned without building; otherwise one
      build is attempted and its failure, or a still-missing file, is an
      error. */
  function EnsureImage(imageDir: string, tool: string, version: string,
                       existing: set<string>, build: BuildOutcome): (p: Provision)
    ensures Owner(tool).None? ==> p == Provision(Failure(UnsupportedTool(tool)), [])
    ensures Owner(tool).Some? ==>
              var path := Paths.Join(imageDir, ImageFileName(Owner(tool).value, tool, version));
              && (p.result.Success? ==> p.result.value == path)
              && (path in existing ==> p == Provision(Success(path), []))
              && (path !in existing ==>
                    && p.builds == [BuildCommand(path, Owner(tool).value, tool, version)]
                    && (p.result.Success? <==> build.exitCode == 0 && build.imagePresentAfter)
                    && (p.result.Failure? ==> p.result.error == ImageBuildFailed(path)))
  {
    match Owner(tool)
    case None => Provision(Failure(UnsupportedTool(tool)), [])
    case Some(owner) =>
      var path := Paths.Join(imageDir, ImageFileName(owner, tool, version));
      if path in existing then Provision(Success(path), [])
      else
        var cmd := BuildCommand(path, owner, tool, version);
        if build.exitCode != 0 || !build.imagePresentAfter then
          Provision(Failure(ImageBuildFailed(path)), [cmd])
        else Provision(Success(path), [cmd])
  }

  /** The tool and version an image file name stands for. */
  datatype ImageKey = ImageKey(tool: string, version: string)

  /** Reads `<owner>.<tool>.<version>.sif` back, accepting only the owner
      that belongs to the tool. */
  function ParseImageFileName(name: string): Option<ImageKey> {
    if !EndsWith(name, ".sif") then None
    else
      var stem := name[..|name| - 4];
      match SplitFirst(stem, '.')
      case None => None
      case Some((owner, rest)) =>
        match SplitFirst(rest, '.')
        case None => None
        case Some((tool, version)) =>
          if Owner(tool) == Some(owner) then Some(ImageKey(tool, version)) else None
  }

  /** The image file name determines the tool and the version it was built
      for: parsing it back yields both, whatever dots the version holds. */
  lemma ImageFileNameRoundTrip(tool: string, version: string)
    requires Owner(tool).Some?
    ensures ParseImageFileName(ImageFileName(Owner(tool).value, tool, version))
            == Some(ImageKey(tool, version))
  {
    var owner := Owner(tool).value;
    var name := ImageFileName(owner, tool, version);
    var stem := owner + "." + tool + "." + version;
    assert name == stem + ".sif";
    EndsWithOfConcat(stem, ".sif");
    assert name[..|name| - 4] == stem;
    assert stem == owner + ['.'] + (tool + "." + version);
    assert '.' !in owner;
    SplitFirstOfJoined(owner, '.', tool + "." + version);
    assert tool + "." + version == tool + ['.'] + version;
    assert '.' !in tool;
    SplitFirstOfJoined(tool, '.', version);
  }

  /** Two images share a file name only when they share tool and version. */
  lemma ImageFileNameInjective(tool1: string, version1: string, tool2: string, version2: string)
    requires Owner(tool1).Some? && Owner(tool2).Some?
    requires ImageFileName(Owner(tool1).value, tool1, version1)
             == ImageFileName(Owner(tool2).value, tool2, version2)
    ensures tool1 == tool2 && version1 == version2
  {
    ImageFileNameRoundTrip(tool1, version1);
    ImageFileNameRoundTrip(tool2, version2);
  }
}
