/**
 * The FreeSurfer runner: image discovery with BIDS entity filters, the
 * `docker run ... recon-all` command lines of a cross-sectional run and of the
 * longitudinal base template, the keyword overrides of the configuration, and
 * the decision of `run_freesurfer` / `run_freesurfer_base` to skip, refuse or
 * run. The container run itself (`run_docker`) is a parameter.
 */
module FreeSurferRunner {
  import opened Options
  import opened Paths
  import opened Values
  import opened Exceptions
  import opened Dicts
  import opened Sorting
  import Strings
  import opened Context
  import opened RunnerBase
  import opened FreeSurferSchema
  import Orchestrator

  // ------------------------------------------------------------- discovery

  /** `s` is `t` with some elements left out, the rest in their order. */
  predicate SubsequenceOf<T(==)>(s: seq<T>, t: seq<T>)
    decreases |t|
  {
    if s == [] then true
    else if t == [] then false
    else (s[0] == t[0] && SubsequenceOf(s[1..], t[1..])) || SubsequenceOf(s, t[1..])
  }

  /** Every `key-value` entity of the filters occurs in the file name. */
  predicate MatchesFilters(name: string, filters: Filters)
  {
    forall i :: 0 <= i < |filters| ==> Strings.Contains(name, filters[i].key + "-" + filters[i].val)
  }

  /** The candidates whose file name carries every filter entity, in their order. */
  function KeepMatching(candidates: seq<Path>, filters: Filters): (r: seq<Path>)
    ensures |r| <= |candidates|
    ensures forall p :: p in r <==> p in candidates && MatchesFilters(Name(p), filters)
    ensures SubsequenceOf(r, candidates)
  {
    if candidates == [] then []
    else
      var rest := KeepMatching(candidates[1..], filters);
      assert forall p :: p in candidates <==> p == candidates[0] || p in candidates[1..];
      if MatchesFilters(Name(candidates[0]), filters) then [candidates[0]] + rest else rest
  }

  /** The directory searched: `sub-<participant>`, or `sub-<participant>/ses-<session>` for a non-empty session. */
  function SearchRoot(bidsDir: Path, participant: string, session: Option<string>): (p: Path)
    ensures |p| == |bidsDir| + (if HasSession(session) then 2 else 1)
    ensures p[..|bidsDir| + 1] == Child(bidsDir, "sub-" + participant)
    ensures HasSession(session) ==> Name(p) == "ses-" + session.value
  {
    var subject := Child(bidsDir, "sub-" + participant);
    if HasSession(session) then Child(subject, "ses-" + session.value) else subject
  }

  /** The glob pattern for the NIfTI images of a BIDS suffix. */
  function SuffixPattern(suffix: string): string
  {
    "**/anat/*_" + suffix + ".nii.gz"
  }

  /**
   * `_discover_weighted_files(bids_dir, participant, suffix, session, filters)`:
   * the sorted glob matches; without filters (None or an empty dict) all of
   * them, otherwise exactly those whose name carries every filter entity.
   */
  function DiscoverWeightedFiles(fs: FileSystem, bidsDir: Path, participant: string, suffix: string,
                                 session: Option<string>, filters: Option<Filters>): (r: seq<Path>)
    ensures var candidates := SortPaths(fs.Glob(SearchRoot(bidsDir, participant, session), SuffixPattern(suffix)));
      && (filters.None? || filters.value == [] ==> r == candidates)
      && (filters.Some? ==> forall p :: p in r <==> p in candidates && MatchesFilters(Name(p), filters.value))
      && SubsequenceOf(r, candidates)
  {
    var candidates := SortPaths(fs.Glob(SearchRoot(bidsDir, participant, session), SuffixPattern(suffix)));
    if filters.None? || filters.value == [] then
      SubsequenceOfSelf(candidates);
      candidates
    else KeepMatching(candidates, filters.value)
  }

  lemma {:induction false} SubsequenceOfSelf<T>(s: seq<T>)
    ensures SubsequenceOf(s, s)
  {
    if s != [] {
      SubsequenceOfSelf(s[1..]);
    }
  }

  /** Only the first discovered image of a kind is used. */
  function First(ps: seq<Path>): (r: Option<Path>)
    ensures r.None? <==> ps == []
    ensures r.Some? ==> r.value == ps[0]
  {
    if ps == [] then None else Some(ps[0])
  }

  // ------------------------------------------------------- docker preamble

  const LicenceInContainer := "/opt/fs_license.txt"

  /** `_base_docker_cmd(config)`: `docker run --rm`, plus the licence variable and mount when the licence file exists. */
  function BaseDockerCmd(fs: FileSystem, config: FreeSurferDefaults): (cmd: seq<string>)
    ensures |cmd| >= 3 && cmd[..3] == ["docker", "run", "--rm"]
    ensures config.fsLicense.Some? && fs.Exists(config.fsLicense.value) ==>
      cmd[3..] == ["-e", "FS_LICENSE=" + LicenceInContainer, "-v", PathString(config.fsLicense.value) + ":" + LicenceInContainer + ":ro"]
    ensures !(config.fsLicense.Some? && fs.Exists(config.fsLicense.value)) ==> |cmd| == 3
  {
    var cmd := ["docker", "run", "--rm"];
    if config.fsLicense.Some? && fs.Exists(config.fsLicense.value) then
      cmd + ["-e", "FS_LICENSE=" + LicenceInContainer, "-v", PathString(config.fsLicense.value) + ":" + LicenceInContainer + ":ro"]
    else cmd
  }

  // ------------------------------------------------- recon-all arguments

  /** An extra image for surface refinement and whether it also refines the pial surface. */
  datatype Refinement = Refinement(image: string, pial: bool)

  /** What a cross-sectional `recon-all` invocation asks for. */
  datatype ReconAllRequest = ReconAllRequest(
    subject: string,
    threads: string,
    images: seq<string>,
    t2: Option<Refinement>,
    flair: Option<Refinement>,
    hires: bool)

  /** One `flag <x>` pair per item, in order: the `-i` images of a run and the `-tp` timepoints of a base template. */
  function FlagPairs(flag: string, xs: seq<string>): (r: seq<string>)
    ensures |r| == 2 * |xs|
    ensures forall k :: 0 <= k < |xs| ==> r[2 * k] == flag && r[2 * k + 1] == xs[k]
  {
    if xs == [] then []
    else
      var rest := FlagPairs(flag, xs[1..]);
      assert forall k :: 1 <= k < |xs| ==> ([flag, xs[0]] + rest)[2 * k] == rest[2 * (k - 1)];
      [flag, xs[0]] + rest
  }

  lemma {:induction false} FlagPairsAppend(flag: string, xs: seq<string>, x: string)
    ensures FlagPairs(flag, xs + [x]) == FlagPairs(flag, xs) + [flag, x]
  {
    if xs != [] {
      assert (xs + [x])[1..] == xs[1..] + [x];
      FlagPairsAppend(flag, xs[1..], x);
    }
  }

  /** `<flag> <image>`, followed by `<pialFlag>` when the pial surface is refined too. */
  function RefinementArgs(flag: string, pialFlag: string, r: Option<Refinement>): seq<string>
  {
    if r.None? then [] else [flag, r.value.image] + (if r.value.pial then [pialFlag] else [])
  }

  /** Reading the options after the fixed head of a `recon-all` argument list, as `recon-all` reads them. */
  function ParseTail(ts: seq<string>, acc: ReconAllRequest): Option<ReconAllRequest>
    decreases |ts|
  {
    if ts == [] then Some(acc)
    else if ts[0] == "-i" && |ts| >= 2 then ParseTail(ts[2..], acc.(images := acc.images + [ts[1]]))
    else if ts[0] == "-T2" && |ts| >= 2 then ParseTail(ts[2..], acc.(t2 := Some(Refinement(ts[1], false))))
    else if ts[0] == "-T2pial" && acc.t2.Some? then ParseTail(ts[1..], acc.(t2 := Some(acc.t2.value.(pial := true))))
    else if ts[0] == "-FLAIR" && |ts| >= 2 then ParseTail(ts[2..], acc.(flair := Some(Refinement(ts[1], false))))
    else if ts[0] == "-FLAIRpial" && acc.flair.Some? then ParseTail(ts[1..], acc.(flair := Some(acc.flair.value.(pial := true))))
    else if ts[0] == "-hires" then ParseTail(ts[1..], acc.(hires := true))
    else None
  }

  /** What a `recon-all` argument list asks for, or `None` when it is not one the runner can produce. */
  function ParseReconAll(args: seq<string>): Option<ReconAllRequest>
  {
    if |args| < 9 || args[..2] != ["recon-all", "-subject"] || args[3..8] != ["-sd", "/output", "-all", "-parallel", "-openmp"]
    then None
    else ParseTail(args[9..], ReconAllRequest(args[2], args[8], [], None, None, false))
  }

  /** The option names `recon-all` is given are pairwise different. */
  lemma OptionNamesDistinct(i: string, t2: string, t2pial: string, flair: string, flairpial: string, hires: string)
    requires i == "-i" && t2 == "-T2" && t2pial == "-T2pial" && flair == "-FLAIR" && flairpial == "-FLAIRpial" && hires == "-hires"
    ensures t2 != i && t2pial != i && flair != i && flairpial != i && hires != i
    ensures t2pial != t2 && flair != t2 && flairpial != t2 && hires != t2
    ensures flair != t2pial && flairpial != t2pial && hires != t2pial
    ensures flairpial != flair && hires != flair
    ensures hires != flairpial
  {
    assert |i| == 2 && |t2| == 3 && |t2pial| == 7 && |flair| == 6 && |flairpial| == 10 && |hires| == 6;
    assert flair[1] != hires[1];
  }

  lemma {:induction false} ParseInputs(images: seq<string>, rest: seq<string>, acc: ReconAllRequest)
    ensures ParseTail(FlagPairs("-i", images) + rest, acc) == ParseTail(rest, acc.(images := acc.images + images))
  {
    if images != [] {
      var ts := FlagPairs("-i", images) + rest;
      assert ts == ["-i", images[0]] + (FlagPairs("-i", images[1..]) + rest);
      assert ts[2..] == FlagPairs("-i", images[1..]) + rest;
      var acc1 := acc.(images := acc.images + [images[0]]);
      assert ParseTail(ts, acc) == ParseTail(ts[2..], acc1);
      ParseInputs(images[1..], rest, acc1);
      assert images == [images[0]] + images[1..];
      assert acc1.images + images[1..] == acc.images + images;
    } else {
      assert FlagPairs("-i", images) + rest == rest;
      assert acc.images + images == acc.images;
    }
  }

  lemma ParseT2(r: Option<Refinement>, rest: seq<string>, acc: ReconAllRequest)
    ensures ParseTail(RefinementArgs("-T2", "-T2pial", r) + rest, acc) == ParseTail(rest, if r.None? then acc else acc.(t2 := r))
  {
    OptionNamesDistinct("-i", "-T2", "-T2pial", "-FLAIR", "-FLAIRpial", "-hires");
    if r.Some? {
      var ts := RefinementArgs("-T2", "-T2pial", r) + rest;
      var acc1 := acc.(t2 := Some(Refinement(r.value.image, false)));
      assert ts[0] == "-T2" && ts[1] == r.value.image;
      if r.value.pial {
        assert ts[2..] == ["-T2pial"] + rest;
        assert ParseTail(ts[2..], acc1) == ParseTail(rest, acc.(t2 := r));
      } else {
        assert ts[2..] == rest;
      }
    } else {
      assert RefinementArgs("-T2", "-T2pial", r) + rest == rest;
    }
  }

  lemma ParseFlair(r: Option<Refinement>, rest: seq<string>, acc: ReconAllRequest)
    ensures ParseTail(RefinementArgs("-FLAIR", "-FLAIRpial", r) + rest, acc) == ParseTail(rest, if r.None? then acc else acc.(flair := r))
  {
    OptionNamesDistinct("-i", "-T2", "-T2pial", "-FLAIR", "-FLAIRpial", "-hires");
    if r.Some? {
      var ts := RefinementArgs("-FLAIR", "-FLAIRpial", r) + rest;
      var acc1 := acc.(flair := Some(Refinement(r.value.image, false)));
      assert ts[0] == "-FLAIR" && ts[1] == r.value.image;
      if r.value.pial {
        assert ts[2..] == ["-FLAIRpial"] + rest;
        assert ParseTail(ts[2..], acc1) == ParseTail(rest, acc.(flair := r));
      } else {
        assert ts[2..] == rest;
      }
    } else {
      assert RefinementArgs("-FLAIR", "-FLAIRpial", r) + rest == rest;
    }
  }

  /** The fixed head of the argument list, before the per-image options. */
  function ReconAllHead(req: ReconAllRequest): seq<string>
  {
    ["recon-all", "-subject", req.subject, "-sd", "/output", "-all", "-parallel", "-openmp", req.threads]
  }

  /** The options after the fixed head. */
  function ReconAllOptions(req: ReconAllRequest): seq<string>
  {
    FlagPairs("-i", req.images) + (RefinementArgs("-T2", "-T2pial", req.t2)
      + (RefinementArgs("-FLAIR", "-FLAIRpial", req.flair) + (if req.hires then ["-hires"] else [])))
  }

  /** The argument list that follows the image name in the container command. */
  function ReconAllArgs(req: ReconAllRequest): seq<string>
  {
    ReconAllHead(req) + ReconAllOptions(req)
  }

  lemma ParseHead(req: ReconAllRequest, tail: seq<string>)
    ensures ParseReconAll(ReconAllHead(req) + tail) == ParseTail(tail, ReconAllRequest(req.subject, req.threads, [], None, None, false))
  {
    var args := ReconAllHead(req) + tail;
    assert args[..2] == ["recon-all", "-subject"] && args[3..8] == ["-sd", "/output", "-all", "-parallel", "-openmp"];
    assert args[9..] == tail;
  }

  lemma ParseOptions(req: ReconAllRequest)
    ensures ParseTail(ReconAllOptions(req), ReconAllRequest(req.subject, req.threads, [], None, None, false)) == Some(req)
  {
    var t2 := RefinementArgs("-T2", "-T2pial", req.t2);
    var flair := RefinementArgs("-FLAIR", "-FLAIRpial", req.flair);
    var hires := if req.hires then ["-hires"] else [];
    var acc0 := ReconAllRequest(req.subject, req.threads, [], None, None, false);
    ParseInputs(req.images, t2 + (flair + hires), acc0);
    var acc1 := acc0.(images := req.images);
    assert acc0.(images := acc0.images + req.images) == acc1;
    ParseT2(req.t2, flair + hires, acc1);
    var acc2 := acc1.(t2 := req.t2);
    assert (if req.t2.None? then acc1 else acc1.(t2 := req.t2)) == acc2;
    ParseFlair(req.flair, hires, acc2);
    var acc3 := acc2.(flair := req.flair);
    assert (if req.flair.None? then acc2 else acc2.(flair := req.flair)) == acc3;
    OptionNamesDistinct("-i", "-T2", "-T2pial", "-FLAIR", "-FLAIRpial", "-hires");
    assert acc3.(hires := req.hires) == req;
    assert ParseTail(hires, acc3) == Some(req);
  }

  /** The argument list determines the request: reading it back gives exactly what was asked for. */
  lemma ReconAllRoundTrip(req: ReconAllRequest)
    ensures ParseReconAll(ReconAllArgs(req)) == Some(req)
  {
    ParseHead(req, ReconAllOptions(req));
    ParseOptions(req);
  }

  const BaseTail: seq<string> := ["-all", "-parallel", "-openmp"]

  /** The arguments of the base-template run: the base label, one `-tp <label>` per timepoint, the thread count. */
  function BaseArgs(base: string, timepoints: seq<string>, threads: string): seq<string>
  {
    ["recon-all", "-base", base, "-sd", "/output"] + FlagPairs("-tp", timepoints) + BaseTail + [threads]
  }

  /** What a base-template argument list asks for: the base label, the timepoints and the thread count. */
  datatype BaseRequest = BaseRequest(base: string, timepoints: seq<string>, threads: string)

  function ParseTimepoints(ts: seq<string>, base: string, acc: seq<string>): Option<BaseRequest>
    decreases |ts|
  {
    if |ts| == 4 && ts[..3] == BaseTail then Some(BaseRequest(base, acc, ts[3]))
    else if |ts| >= 2 && ts[0] == "-tp" then ParseTimepoints(ts[2..], base, acc + [ts[1]])
    else None
  }

  function ParseBase(args: seq<string>): Option<BaseRequest>
  {
    if |args| < 5 || args[..2] != ["recon-all", "-base"] || args[3..5] != ["-sd", "/output"] then None
    else ParseTimepoints(args[5..], args[2], [])
  }

  lemma {:induction false} ParseTimepointsOf(labels: seq<string>, base: string, acc: seq<string>, threads: string)
    ensures ParseTimepoints(FlagPairs("-tp", labels) + BaseTail + [threads], base, acc) == Some(BaseRequest(base, acc + labels, threads))
  {
    var ts := FlagPairs("-tp", labels) + BaseTail + [threads];
    if labels == [] {
      assert ts == BaseTail + [threads];
      assert ts[..3] == BaseTail && ts[3] == threads;
      assert acc + labels == acc;
    } else {
      assert ts == ["-tp", labels[0]] + (FlagPairs("-tp", labels[1..]) + BaseTail + [threads]);
      assert ts[..3] != BaseTail by {
        assert ts[0] == "-tp" && BaseTail[0] == "-all";
        assert ts[0][1] != BaseTail[0][1];
      }
      assert ts[2..] == FlagPairs("-tp", labels[1..]) + BaseTail + [threads];
      ParseTimepointsOf(labels[1..], base, acc + [labels[0]], threads);
      assert acc + [labels[0]] + labels[1..] == acc + labels;
    }
  }

  /** The base-template argument list determines its request. */
  lemma BaseRoundTrip(base: string, timepoints: seq<string>, threads: string)
    ensures ParseBase(BaseArgs(base, timepoints, threads)) == Some(BaseRequest(base, timepoints, threads))
  {
    var args := BaseArgs(base, timepoints, threads);
    var rest := FlagPairs("-tp", timepoints) + BaseTail + [threads];
    assert args == ["recon-all", "-base", base, "-sd", "/output"] + rest;
    assert args[5..] == rest;
    ParseTimepointsOf(timepoints, base, [], threads);
    assert [] + timepoints == timepoints;
  }

  // ------------------------------------------------ the recon-all command

  /** `str(relative)` of a relative path; the empty relative path prints as ".". */
  function RelativeString(rel: Path): string
  {
    if rel == [] then "." else Strings.Join(rel, "/")
  }

  /** The `ValueError` of `p.relative_to(base)` for a path outside `base` (in the wording of Python 3.12). */
  function NotRelative(p: Path, base: Path): Exc
  {
    Simple(ValueError, Repr(VStr(PathString(p))) + " is not in the subpath of " + Repr(VStr(PathString(base))))
  }

  /** `f"/data/{p.relative_to(bids_dir)}"`: where the container sees a host file of the BIDS dataset. */
  function InContainer(bidsDir: Path, p: Path): (r: Outcome<string>)
    ensures r.Ok? <==> bidsDir <= p
    ensures r.Ok? ==> r.value == "/data/" + RelativeString(p[|bidsDir|..])
    ensures r.Raised? ==> r.exc == NotRelative(p, bidsDir)
  {
    match RelativeTo(p, bidsDir)
    case None => Raised(NotRelative(p, bidsDir))
    case Some(rel) => Ok("/data/" + RelativeString(rel))
  }

  /** The container paths of the T1w images, in order; the first image outside the BIDS root raises. */
  function InContainerAll(bidsDir: Path, ps: seq<Path>): (r: Outcome<seq<string>>)
    ensures r.Ok? <==> forall k :: 0 <= k < |ps| ==> bidsDir <= ps[k]
    ensures r.Ok? ==> |r.value| == |ps| && forall k :: 0 <= k < |ps| ==> Ok(r.value[k]) == InContainer(bidsDir, ps[k])
    ensures r.Raised? ==> exists k :: 0 <= k < |ps| && r.exc == NotRelative(ps[k], bidsDir) && !(bidsDir <= ps[k])
    decreases |ps|
  {
    if ps == [] then Ok([])
    else
      var init :- InContainerAll(bidsDir, ps[..|ps| - 1]);
      var last :- InContainer(bidsDir, ps[|ps| - 1]);
      Ok(init + [last])
  }

  /** Converting one more image: the container paths so far, then the new image's. */
  lemma InContainerAllStep(bidsDir: Path, ps: seq<Path>, k: nat)
    requires k < |ps| && InContainerAll(bidsDir, ps[..k]).Ok? && InContainer(bidsDir, ps[k]).Ok?
    ensures InContainerAll(bidsDir, ps[..k + 1]) == Ok(InContainerAll(bidsDir, ps[..k]).value + [InContainer(bidsDir, ps[k]).value])
  {
    assert ps[..k + 1][..k] == ps[..k];
  }

  /** The image at position `k` is the first one outside the BIDS root: it decides what is raised. */
  lemma {:induction false} InContainerAllFails(bidsDir: Path, ps: seq<Path>, k: nat)
    requires k < |ps| && InContainerAll(bidsDir, ps[..k]).Ok? && !(bidsDir <= ps[k])
    ensures InContainerAll(bidsDir, ps) == Raised(NotRelative(ps[k], bidsDir))
    decreases |ps|
  {
    if k < |ps| - 1 {
      assert ps[..|ps| - 1][..k] == ps[..k];
      InContainerAllFails(bidsDir, ps[..|ps| - 1], k);
    } else {
      assert ps[..|ps| - 1] == ps[..k];
    }
  }

  /** The T2w or FLAIR refinement of the request, from the file chosen for it. */
  function RefinementFor(bidsDir: Path, file: Option<Path>, pial: bool): (r: Outcome<Option<Refinement>>)
    ensures file.None? ==> r == Ok(None)
    ensures file.Some? ==> (r.Ok? <==> bidsDir <= file.value)
    ensures file.Some? && r.Ok? ==> r.value == Some(Refinement(InContainer(bidsDir, file.value).value, pial))
    ensures r.Raised? ==> r.exc == NotRelative(file.value, bidsDir)
  {
    if file.None? then Ok(None)
    else
      var image :- InContainer(bidsDir, file.value);
      Ok(Some(Refinement(image, pial)))
  }

  /** The filters as the dictionary `str()` renders in the error message. */
  function FiltersValue(f: Filters): Value
  {
    VDict(seq(|f|, i requires 0 <= i < |f| => Entry(Some(f[i].key), VStr(f[i].val))))
  }

  /** The `ValueError` for a run without T1w images, naming the filters when some were given. */
  function NoT1w(inputs: FreeSurferInputs): Exc
  {
    var hint := if inputs.t1wFilters.Some? && inputs.t1wFilters.value != []
                then " matching filters " + Str(FiltersValue(inputs.t1wFilters.value)) else "";
    Simple(ValueError, "No T1w images found" + hint + " for " + inputs.SubjectLabel() + " in " + PathString(inputs.bidsDir))
  }

  /**
   * What the command asks `recon-all` to do: the subject label, the thread
   * count, every T1w image in order, the T2w and FLAIR refinements exactly when
   * a file is given for them (pial refinement as configured), high resolution as
   * configured. Any image outside the BIDS root raises `ValueError`.
   */
  function RequestFor(inputs: FreeSurferInputs, config: FreeSurferDefaults, t1w: seq<Path>,
                      t2: Option<Path>, flair: Option<Path>): (r: Outcome<ReconAllRequest>)
    ensures r.Ok? <==> (forall k :: 0 <= k < |t1w| ==> inputs.bidsDir <= t1w[k])
                       && (t2.Some? ==> inputs.bidsDir <= t2.value) && (flair.Some? ==> inputs.bidsDir <= flair.value)
    ensures r.Raised? ==> r.exc.cls == ValueError
    ensures r.Ok? ==>
      && r.value.subject == inputs.SubjectLabel() && r.value.threads == Strings.IntToString(config.nthreads)
      && |r.value.images| == |t1w|
      && (forall k :: 0 <= k < |t1w| ==> Ok(r.value.images[k]) == InContainer(inputs.bidsDir, t1w[k]))
      && (r.value.t2.Some? <==> t2.Some?)
      && (t2.Some? ==> r.value.t2.value == Refinement(InContainer(inputs.bidsDir, t2.value).value, config.useT2pial))
      && (r.value.flair.Some? <==> flair.Some?)
      && (flair.Some? ==> r.value.flair.value == Refinement(InContainer(inputs.bidsDir, flair.value).value, config.useFlairpial))
      && r.value.hires == config.hires
  {
    var images :- InContainerAll(inputs.bidsDir, t1w);
    var t2r :- RefinementFor(inputs.bidsDir, t2, config.useT2pial);
    var flairr :- RefinementFor(inputs.bidsDir, flair, config.useFlairpial);
    Ok(ReconAllRequest(inputs.SubjectLabel(), Strings.IntToString(config.nthreads), images, t2r, flairr, config.hires))
  }

  /** How `RequestFor` decides: the T1w images first, then the T2w file, then the FLAIR file. */
  lemma RequestForSteps(inputs: FreeSurferInputs, config: FreeSurferDefaults, t1w: seq<Path>, t2: Option<Path>, flair: Option<Path>)
    ensures var images := InContainerAll(inputs.bidsDir, t1w);
      var t2r := RefinementFor(inputs.bidsDir, t2, config.useT2pial);
      var flairr := RefinementFor(inputs.bidsDir, flair, config.useFlairpial);
      var r := RequestFor(inputs, config, t1w, t2, flair);
      && (images.Raised? ==> r == Raised(images.exc))
      && (images.Ok? && t2r.Raised? ==> r == Raised(t2r.exc))
      && (images.Ok? && t2r.Ok? && flairr.Raised? ==> r == Raised(flairr.exc))
      && (images.Ok? && t2r.Ok? && flairr.Ok? ==> r == Ok(ReconAllRequest(inputs.SubjectLabel(),
            Strings.IntToString(config.nthreads), images.value, t2r.value, flairr.value, config.hires)))
  {
  }

  /** Everything up to the image name: the preamble and the dataset (read-only) and SUBJECTS_DIR mounts. */
  function ImageAndMounts(fs: FileSystem, inputs: FreeSurferInputs, config: FreeSurferDefaults, subjectsDir: Path): seq<string>
  {
    BaseDockerCmd(fs, config) + ["-v", PathString(inputs.bidsDir) + ":/data:ro", "-v", PathString(subjectsDir) + ":/output",
                                 config.dockerImage]
  }

  /**
   * `_build_freesurfer_docker_command(...)`: `ValueError` without T1w images,
   * otherwise the container preamble and mounts, the image, and the
   * `recon-all` arguments of the request.
   */
  function CommandFor(fs: FileSystem, inputs: FreeSurferInputs, config: FreeSurferDefaults, subjectsDir: Path,
                      t1w: seq<Path>, t2: Option<Path>, flair: Option<Path>): (r: Outcome<seq<string>>)
    ensures t1w == [] ==> r == Raised(NoT1w(inputs))
    ensures t1w != [] ==> (r.Ok? <==> RequestFor(inputs, config, t1w, t2, flair).Ok?)
    ensures r.Raised? ==> r.exc.cls == ValueError
    ensures r.Ok? ==> r.value == ImageAndMounts(fs, inputs, config, subjectsDir) + ReconAllArgs(RequestFor(inputs, config, t1w, t2, flair).value)
  {
    if t1w == [] then Raised(NoT1w(inputs))
    else
      var req :- RequestFor(inputs, config, t1w, t2, flair);
      Ok(ImageAndMounts(fs, inputs, config, subjectsDir) + ReconAllArgs(req))
  }

  /** The loop over the T1w images: one `-i <container path>` per image, or the error of the first image outside the dataset. */
  method ExtendInputs(cmd: seq<string>, bidsDir: Path, t1w: seq<Path>) returns (r: Outcome<seq<string>>)
    ensures InContainerAll(bidsDir, t1w).Raised? ==> r == Raised(InContainerAll(bidsDir, t1w).exc)
    ensures InContainerAll(bidsDir, t1w).Ok? ==> r == Ok(cmd + FlagPairs("-i", InContainerAll(bidsDir, t1w).value))
  {
    var out := cmd;
    ghost var images: seq<string> := [];
    for k := 0 to |t1w|
      invariant InContainerAll(bidsDir, t1w[..k]) == Ok(images)
      invariant out == cmd + FlagPairs("-i", images)
    {
      var relative := InContainer(bidsDir, t1w[k]);
      if relative.Raised? {
        InContainerAllFails(bidsDir, t1w, k);
        return Raised(relative.exc);
      }
      InContainerAllStep(bidsDir, t1w, k);
      FlagPairsAppend("-i", images, relative.value);
      assert out + ["-i", relative.value] == cmd + (FlagPairs("-i", images) + ["-i", relative.value]);
      out := out + ["-i", relative.value];
      images := images + [relative.value];
    }
    assert t1w[..|t1w|] == t1w;
    return Ok(out);
  }

  /** `-T2 <path>` (with `-T2pial`) or `-FLAIR <path>` (with `-FLAIRpial`) for a chosen file; nothing without one. */
  method ExtendRefinement(cmd: seq<string>, bidsDir: Path, file: Option<Path>, flag: string, pialFlag: string, pial: bool)
    returns (r: Outcome<seq<string>>)
    ensures RefinementFor(bidsDir, file, pial).Raised? ==> r == Raised(RefinementFor(bidsDir, file, pial).exc)
    ensures RefinementFor(bidsDir, file, pial).Ok? ==> r == Ok(cmd + RefinementArgs(flag, pialFlag, RefinementFor(bidsDir, file, pial).value))
  {
    if file.None? {
      assert cmd + RefinementArgs(flag, pialFlag, None) == cmd;
      return Ok(cmd);
    }
    var relative := InContainer(bidsDir, file.value);
    if relative.Raised? {
      return Raised(relative.exc);
    }
    var out := cmd + [flag, relative.value];
    if pial {
      out := out + [pialFlag];
    }
    assert out == cmd + RefinementArgs(flag, pialFlag, Some(Refinement(relative.value, pial)));
    return Ok(out);
  }

  lemma Concat4(head: seq<string>, i: seq<string>, t: seq<string>, f: seq<string>, h: seq<string>)
    ensures head + i + t + f + h == head + (i + (t + (f + h)))
  {
  }

  lemma Concat3(a: seq<string>, b: seq<string>, c: seq<string>)
    ensures (a + b) + c == a + (b + c)
  {
  }

  lemma HeadSplit(base: seq<string>, data: string, output: string, image: string, req: ReconAllRequest)
    ensures base + ["-v", data, "-v", output, image, "recon-all", "-subject", req.subject, "-sd", "/output",
                    "-all", "-parallel", "-openmp", req.threads]
            == (base + ["-v", data, "-v", output, image]) + ReconAllHead(req)
  {
  }

  /** `_build_freesurfer_docker_command`, extending the command list step by step as the source does. */
  method BuildCommand(fs: FileSystem, inputs: FreeSurferInputs, config: FreeSurferDefaults, subjectsDir: Path,
                      t1w: seq<Path>, t2: Option<Path>, flair: Option<Path>) returns (r: Outcome<seq<string>>)
    ensures r == CommandFor(fs, inputs, config, subjectsDir, t1w, t2, flair)
  {
    if t1w == [] {
      return Raised(NoT1w(inputs));
    }
    var cmd := BaseDockerCmd(fs, config);
    cmd := cmd + ["-v", PathString(inputs.bidsDir) + ":/data:ro", "-v", PathString(subjectsDir) + ":/output",
                  config.dockerImage, "recon-all", "-subject", inputs.SubjectLabel(), "-sd", "/output",
                  "-all", "-parallel", "-openmp", Strings.IntToString(config.nthreads)];
    ghost var head := cmd;
    RequestForSteps(inputs, config, t1w, t2, flair);
    var withInputs := ExtendInputs(cmd, inputs.bidsDir, t1w);
    if withInputs.Raised? {
      return withInputs;
    }
    var withT2 := ExtendRefinement(withInputs.value, inputs.bidsDir, t2, "-T2", "-T2pial", config.useT2pial);
    if withT2.Raised? {
      return withT2;
    }
    var withFlair := ExtendRefinement(withT2.value, inputs.bidsDir, flair, "-FLAIR", "-FLAIRpial", config.useFlairpial);
    if withFlair.Raised? {
      return withFlair;
    }
    cmd := withFlair.value;
    if config.hires {
      cmd := cmd + ["-hires"];
    }
    RequestForSteps(inputs, config, t1w, t2, flair);
    ghost var req := RequestFor(inputs, config, t1w, t2, flair).value;
    ghost var i, t, f, h := FlagPairs("-i", req.images), RefinementArgs("-T2", "-T2pial", req.t2),
                          RefinementArgs("-FLAIR", "-FLAIRpial", req.flair), if req.hires then ["-hires"] else [];
    assert cmd == head + i + t + f + h;
    AssembleCommand(BaseDockerCmd(fs, config), PathString(inputs.bidsDir) + ":/data:ro", PathString(subjectsDir) + ":/output",
                    config.dockerImage, req, head, cmd);
    return Ok(cmd);
  }

  /** The command built step by step is the mounts followed by the `recon-all` arguments of the request. */
  lemma AssembleCommand(base: seq<string>, data: string, output: string, image: string, req: ReconAllRequest,
                        head: seq<string>, cmd: seq<string>)
    requires head == base + ["-v", data, "-v", output, image, "recon-all", "-subject", req.subject, "-sd", "/output",
                             "-all", "-parallel", "-openmp", req.threads]
    requires cmd == head + FlagPairs("-i", req.images) + RefinementArgs("-T2", "-T2pial", req.t2)
                    + RefinementArgs("-FLAIR", "-FLAIRpial", req.flair) + (if req.hires then ["-hires"] else [])
    ensures cmd == (base + ["-v", data, "-v", output, image]) + ReconAllArgs(req)
  {
    var i, t, f, h := FlagPairs("-i", req.images), RefinementArgs("-T2", "-T2pial", req.t2),
                      RefinementArgs("-FLAIR", "-FLAIRpial", req.flair), if req.hires then ["-hires"] else [];
    Concat4(head, i, t, f, h);
    HeadSplit(base, data, output, image, req);
    var mounts := base + ["-v", data, "-v", output, image];
    assert head == mounts + ReconAllHead(req);
    assert cmd == head + ReconAllOptions(req);
    Concat3(mounts, ReconAllHead(req), ReconAllOptions(req));
  }

  /** A command `docker run --rm` followed by `n` `-e`/`-v` pairs: `_get_image` returns the token after the pairs. */
  lemma ImageAfterPairs(cmd: seq<string>, n: nat)
    requires 3 + 2 * n < |cmd| && cmd[..3] == ["docker", "run", "--rm"]
    requires forall j :: 0 <= j < n ==> cmd[3 + 2 * j] == "-e" || cmd[3 + 2 * j] == "-v"
    requires !Strings.StartsWith(cmd[3 + 2 * n], "-")
    ensures ImageOf(cmd) == Ok(cmd[3 + 2 * n])
  {
    var docker, run := "docker", "run";
    assert docker[0] != run[0];
    assert cmd[0] == docker && cmd[1] == run && cmd[2] == "--rm";
    RunSecond(cmd);
    DockerOptions();
    ScanSteps(cmd, 2);
    ScanSkipsValuePairs(cmd, 3, n);
    ScanFindsFirstPositional(cmd, 3 + 2 * n, 3 + 2 * n);
  }

  /**
   * The image name follows the preamble and the mounts: `_get_image` steps over
   * `--rm` and every `-e`/`-v` pair and returns the configured image, provided
   * the image name is not itself spelled as an option.
   */
  lemma ImageAfterMounts(fs: FileSystem, config: FreeSurferDefaults, mounts: seq<string>, m: nat, rest: seq<string>)
    requires |mounts| == 2 * m && forall j :: 0 <= j < m ==> mounts[2 * j] == "-v"
    requires !Strings.StartsWith(config.dockerImage, "-")
    ensures ImageOf(BaseDockerCmd(fs, config) + mounts + [config.dockerImage] + rest) == Ok(config.dockerImage)
  {
    var base := BaseDockerCmd(fs, config);
    var cmd := base + mounts + [config.dockerImage] + rest;
    var e := |base| / 2 - 1;
    assert |base| == 3 + 2 * e;
    assert cmd[..3] == base[..3];
    forall j | 0 <= j < e + m
      ensures cmd[3 + 2 * j] == "-e" || cmd[3 + 2 * j] == "-v"
    {
      if j < e {
        assert cmd[3 + 2 * j] == base[3..][2 * j];
      } else {
        assert cmd[3 + 2 * j] == mounts[2 * (j - e)];
      }
    }
    assert cmd[3 + 2 * (e + m)] == config.dockerImage;
    ImageAfterPairs(cmd, e + m);
  }

  /**
   * What the cross-sectional command means: `_get_image` reads the configured
   * image back from it, and the arguments after the image read back as exactly
   * the request `RequestFor` describes.
   */
  lemma CommandMeaning(fs: FileSystem, inputs: FreeSurferInputs, config: FreeSurferDefaults, subjectsDir: Path,
                       t1w: seq<Path>, t2: Option<Path>, flair: Option<Path>)
    requires CommandFor(fs, inputs, config, subjectsDir, t1w, t2, flair).Ok?
    ensures var cmd := CommandFor(fs, inputs, config, subjectsDir, t1w, t2, flair).value;
      var k := |ImageAndMounts(fs, inputs, config, subjectsDir)|;
      && k <= |cmd|
      && ParseReconAll(cmd[k..]) == Some(RequestFor(inputs, config, t1w, t2, flair).value)
      && (!Strings.StartsWith(config.dockerImage, "-") ==> ImageOf(cmd) == Ok(config.dockerImage))
  {
    var req := RequestFor(inputs, config, t1w, t2, flair).value;
    var mounts := ImageAndMounts(fs, inputs, config, subjectsDir);
    var cmd := mounts + ReconAllArgs(req);
    assert cmd[|mounts|..] == ReconAllArgs(req);
    ReconAllRoundTrip(req);
    if !Strings.StartsWith(config.dockerImage, "-") {
      CommandImage(fs, inputs, config, subjectsDir, ReconAllArgs(req));
    }
  }

  /** `_get_image` finds the configured image after the preamble and the two mounts, whatever follows it. */
  lemma CommandImage(fs: FileSystem, inputs: FreeSurferInputs, config: FreeSurferDefaults, subjectsDir: Path, args: seq<string>)
    requires !Strings.StartsWith(config.dockerImage, "-")
    ensures ImageOf(ImageAndMounts(fs, inputs, config, subjectsDir) + args) == Ok(config.dockerImage)
  {
    var vols := ["-v", PathString(inputs.bidsDir) + ":/data:ro", "-v", PathString(subjectsDir) + ":/output"];
    assert ImageAndMounts(fs, inputs, config, subjectsDir) + args == BaseDockerCmd(fs, config) + vols + [config.dockerImage] + args;
    ImageAfterMounts(fs, config, vols, 2, args);
  }

  // --------------------------------------------- the base-template command

  /** The `ValueError` of a base template without sessions. */
  function NoSessions(participant: string): Exc
  {
    Simple(ValueError, "No sessions provided for longitudinal base template of " + participant)
  }

  /** Everything up to the image name of the base-template command: the preamble and the SUBJECTS_DIR mount. */
  function BaseImageAndMounts(fs: FileSystem, inputs: FreeSurferBaseInputs, config: FreeSurferDefaults): seq<string>
  {
    BaseDockerCmd(fs, config) + ["-v", PathString(inputs.subjectsDir) + ":/output", config.dockerImage]
  }

  /**
   * `_build_freesurfer_base_docker_command(inputs, config)`: `ValueError`
   * without sessions, otherwise the preamble, the mount, the image and the
   * `recon-all -base` arguments over the timepoint labels.
   */
  function BaseCommandFor(fs: FileSystem, inputs: FreeSurferBaseInputs, config: FreeSurferDefaults): (r: Outcome<seq<string>>)
    ensures r.Raised? <==> inputs.sessions == []
    ensures r.Raised? ==> r.exc == NoSessions(inputs.participant) && r.exc.cls == ValueError
    ensures r.Ok? ==>
      r.value == BaseImageAndMounts(fs, inputs, config) + BaseArgs(inputs.BaseLabel(), inputs.TimepointLabels(), Strings.IntToString(config.nthreads))
  {
    if inputs.sessions == [] then Raised(NoSessions(inputs.participant))
    else Ok(BaseImageAndMounts(fs, inputs, config)
            + BaseArgs(inputs.BaseLabel(), inputs.TimepointLabels(), Strings.IntToString(config.nthreads)))
  }

  lemma BaseSplit(mounts: seq<string>, base: string, tps: seq<string>, threads: string)
    ensures mounts + ["recon-all", "-base", base, "-sd", "/output"] + FlagPairs("-tp", tps) + BaseTail + [threads]
            == mounts + BaseArgs(base, tps, threads)
  {
  }

  /** `_build_freesurfer_base_docker_command`, extending the command list step by step as the source does. */
  method BuildBaseCommand(fs: FileSystem, inputs: FreeSurferBaseInputs, config: FreeSurferDefaults) returns (r: Outcome<seq<string>>)
    ensures r == BaseCommandFor(fs, inputs, config)
  {
    if inputs.sessions == [] {
      return Raised(NoSessions(inputs.participant));
    }
    var cmd := BaseDockerCmd(fs, config);
    cmd := cmd + ["-v", PathString(inputs.subjectsDir) + ":/output", config.dockerImage];
    ghost var mounts := cmd;
    cmd := cmd + ["recon-all", "-base", inputs.BaseLabel(), "-sd", "/output"];
    ghost var head := cmd;
    var labels := inputs.TimepointLabels();
    for k := 0 to |labels|
      invariant cmd == head + FlagPairs("-tp", labels[..k])
    {
      FlagPairsAppend("-tp", labels[..k], labels[k]);
      assert labels[..k + 1] == labels[..k] + [labels[k]];
      cmd := cmd + ["-tp", labels[k]];
    }
    assert labels[..|labels|] == labels;
    cmd := cmd + ["-all", "-parallel", "-openmp", Strings.IntToString(config.nthreads)];
    assert cmd == head + FlagPairs("-tp", labels) + BaseTail + [Strings.IntToString(config.nthreads)];
    BaseSplit(mounts, inputs.BaseLabel(), labels, Strings.IntToString(config.nthreads));
    return Ok(cmd);
  }

  /**
   * What the base-template command means: the arguments after the image read
   * back as the base label, every timepoint label in session order and the
   * thread count, and `_get_image` reads the configured image back.
   */
  lemma BaseCommandMeaning(fs: FileSystem, inputs: FreeSurferBaseInputs, config: FreeSurferDefaults)
    requires inputs.sessions != []
    ensures var cmd := BaseCommandFor(fs, inputs, config).value;
      var k := |BaseImageAndMounts(fs, inputs, config)|;
      && k <= |cmd|
      && ParseBase(cmd[k..]) == Some(BaseRequest(inputs.BaseLabel(), inputs.TimepointLabels(), Strings.IntToString(config.nthreads)))
      && (!Strings.StartsWith(config.dockerImage, "-") ==> ImageOf(cmd) == Ok(config.dockerImage))
  {
    var args := BaseArgs(inputs.BaseLabel(), inputs.TimepointLabels(), Strings.IntToString(config.nthreads));
    var mounts := BaseImageAndMounts(fs, inputs, config);
    var cmd := mounts + args;
    assert cmd[|mounts|..] == args;
    BaseRoundTrip(inputs.BaseLabel(), inputs.TimepointLabels(), Strings.IntToString(config.nthreads));
    if !Strings.StartsWith(config.dockerImage, "-") {
      var vols := ["-v", PathString(inputs.subjectsDir) + ":/output"];
      assert cmd == BaseDockerCmd(fs, config) + vols + [config.dockerImage] + args;
      ImageAfterMounts(fs, config, vols, 1, args);
    }
  }

  // ---------------------------------------------------- keyword overrides

  /** The attribute names of an object's fields, in order. */
  function FieldNames(fields: seq<Field>): (ns: seq<string>)
    ensures |ns| == |fields| && forall i :: 0 <= i < |fields| ==> ns[i] == fields[i].name
  {
    if fields == [] then [] else [fields[0].name] + FieldNames(fields[1..])
  }

  /**
   * `if hasattr(config, key): setattr(config, key, value)`: a field of that name
   * takes the value, and without one the object is left as it was.
   */
  function SetExisting(fields: seq<Field>, key: string, v: Value): (r: seq<Field>)
    ensures FieldNames(r) == FieldNames(fields)
    ensures forall n :: FindField(r, n) == if n == key && FindField(fields, n).Some? then Some(v) else FindField(fields, n)
  {
    if fields == [] then []
    else
      var rest := SetExisting(fields[1..], key, v);
      [if fields[0].name == key then Field(key, v) else fields[0]] + rest
  }

  /** The fields after the override loop over the given items, in order. */
  function Overridden(fields: seq<Field>, overrides: seq<Item<string, Value>>): seq<Field>
    decreases |overrides|
  {
    if overrides == [] then fields
    else
      var last := overrides[|overrides| - 1];
      SetExisting(Overridden(fields, overrides[..|overrides| - 1]), last.key, last.val)
  }

  /** The value the last override of a name gives it, if any override names it. */
  function LastOverride(overrides: seq<Item<string, Value>>, name: string): (r: Option<Value>)
    ensures r.None? <==> forall i :: 0 <= i < |overrides| ==> overrides[i].key != name
    ensures r.Some? ==> exists i :: 0 <= i < |overrides| && overrides[i] == Item(name, r.value)
                                    && forall j :: i < j < |overrides| ==> overrides[j].key != name
    decreases |overrides|
  {
    if overrides == [] then None
    else if overrides[|overrides| - 1].key == name then Some(overrides[|overrides| - 1].val)
    else LastOverride(overrides[..|overrides| - 1], name)
  }

  /** The `for key, value in overrides.items()` loop of both runners. */
  method ApplyOverrides(fields: seq<Field>, overrides: seq<Item<string, Value>>) returns (r: seq<Field>)
    ensures r == Overridden(fields, overrides)
  {
    r := fields;
    for k := 0 to |overrides|
      invariant r == Overridden(fields, overrides[..k])
    {
      assert overrides[..k + 1][..k] == overrides[..k];
      r := SetExisting(r, overrides[k].key, overrides[k].val);
    }
    assert overrides[..|overrides|] == overrides;
  }

  /**
   * Overrides only set attributes the configuration already has: the attribute
   * names stay the same, an existing attribute ends with the value of the last
   * override naming it, and every other attribute keeps its value.
   */
  lemma {:induction false} OverridesSetOnlyExisting(fields: seq<Field>, overrides: seq<Item<string, Value>>, name: string)
    ensures FieldNames(Overridden(fields, overrides)) == FieldNames(fields)
    ensures FindField(Overridden(fields, overrides), name) ==
      if FindField(fields, name).Some? && LastOverride(overrides, name).Some? then LastOverride(overrides, name)
      else FindField(fields, name)
    decreases |overrides|
  {
    if overrides != [] {
      OverridesSetOnlyExisting(fields, overrides[..|overrides| - 1], name);
    }
  }

  /**
   * The configuration a run uses: `config or FreeSurferDefaults()` (a
   * configuration object is always truthy, so only a missing one takes the
   * defaults), after the keyword overrides are set on its attributes.
   */
  function Configure(config: Option<FreeSurferDefaults>, overrides: seq<Item<string, Value>>): FreeSurferDefaults
  {
    var base := if config.Some? then config.value else NewFreeSurferDefaults();
    FromFields(Overridden(base.Fields(), overrides), base)
  }

  /**
   * The thread count, the licence and the image of the configuration a run
   * uses are the last override naming each, when that has the attribute's
   * type, and otherwise the given configuration's (or the default) value.
   */
  lemma ConfigureValues(config: Option<FreeSurferDefaults>, overrides: seq<Item<string, Value>>)
    ensures var base := if config.Some? then config.value else NewFreeSurferDefaults();
      var c := Configure(config, overrides);
      && c.nthreads == IntOr(LastOverride(overrides, "nthreads"), base.nthreads)
      && c.fsLicense == LicenseOr(LastOverride(overrides, "fs_license"), base.fsLicense)
      && c.dockerImage == StrOr(LastOverride(overrides, "docker_image"), base.dockerImage)
  {
    var base := if config.Some? then config.value else NewFreeSurferDefaults();
    var fields, c := base.Fields(), Configure(config, overrides);
    assert c.nthreads == IntOr(LastOverride(overrides, "nthreads"), base.nthreads) by {
      OverridesSetOnlyExisting(fields, overrides, "nthreads");
    }
    assert c.fsLicense == LicenseOr(LastOverride(overrides, "fs_license"), base.fsLicense) by {
      OverridesSetOnlyExisting(fields, overrides, "fs_license");
    }
    assert c.dockerImage == StrOr(LastOverride(overrides, "docker_image"), base.dockerImage) by {
      OverridesSetOnlyExisting(fields, overrides, "docker_image");
    }
  }

  /**
   * The four switches of the configuration a run uses are the last override
   * naming each, when that is a `bool`, and otherwise the given
   * configuration's (or the default) value.
   */
  lemma ConfigureSwitches(config: Option<FreeSurferDefaults>, overrides: seq<Item<string, Value>>)
    ensures var base := if config.Some? then config.value else NewFreeSurferDefaults();
      var c := Configure(config, overrides);
      && c.hires == BoolOr(LastOverride(overrides, "hires"), base.hires)
      && c.useT2pial == BoolOr(LastOverride(overrides, "use_t2pial"), base.useT2pial)
      && c.useFlairpial == BoolOr(LastOverride(overrides, "use_flairpial"), base.useFlairpial)
      && c.force == BoolOr(LastOverride(overrides, "force"), base.force)
  {
    var base := if config.Some? then config.value else NewFreeSurferDefaults();
    var fields, c := base.Fields(), Configure(config, overrides);
    assert c.hires == BoolOr(LastOverride(overrides, "hires"), base.hires) by {
      OverridesSetOnlyExisting(fields, overrides, "hires");
    }
    assert c.useT2pial == BoolOr(LastOverride(overrides, "use_t2pial"), base.useT2pial) by {
      OverridesSetOnlyExisting(fields, overrides, "use_t2pial");
    }
    assert c.useFlairpial == BoolOr(LastOverride(overrides, "use_flairpial"), base.useFlairpial) by {
      OverridesSetOnlyExisting(fields, overrides, "use_flairpial");
    }
    assert c.force == BoolOr(LastOverride(overrides, "force"), base.force) by {
      OverridesSetOnlyExisting(fields, overrides, "force");
    }
  }

  /**
   * Without overrides of its attributes a run uses the given configuration, or
   * the defaults, as is.
   */
  lemma ConfigureWithoutOverrides(config: Option<FreeSurferDefaults>, overrides: seq<Item<string, Value>>)
    requires forall i :: 0 <= i < |overrides| ==> overrides[i].key !in ConfigNames()
    ensures Configure(config, overrides) == if config.Some? then config.value else NewFreeSurferDefaults()
  {
    ConfigureValues(config, overrides);
    ConfigureSwitches(config, overrides);
    var names := ConfigNames();
    assert forall k :: 0 <= k < |names| ==> LastOverride(overrides, names[k]).None?;
  }

  // ------------------------------------------------------------ the runners

  /** What a runner does once its checks pass: report the outputs that exist, or run a command. */
  datatype Plan<O> = Skip(expected: O) | Execute(command: seq<string>, expected: O)

  /** `inputs.output_dir or bids_dir.parent / "derivatives" / "freesurfer"`. */
  function OutputDirOf(inputs: FreeSurferInputs): Path
  {
    if inputs.outputDir.Some? then inputs.outputDir.value
    else Child(Child(Parent(inputs.bidsDir), "derivatives"), "freesurfer")
  }

  /** `inputs.work_dir or output_dir.parent / "work" / "freesurfer"`. */
  function WorkDirOf(inputs: FreeSurferInputs, outputDir: Path): Path
  {
    if inputs.workDir.Some? then inputs.workDir.value else Child(Child(Parent(outputDir), "work"), "freesurfer")
  }

  /** The filesystem after `mkdir(parents=True, exist_ok=True)` of the output and work directories. */
  function AfterMkdirs(fs: FileSystem, outputDir: Path, workDir: Path): (r: FileSystem)
    ensures outputDir != [] ==> r.IsDir(outputDir)
    ensures workDir != [] ==> r.IsDir(workDir)
    ensures fs.dirs <= r.dirs && r.files == fs.files && r.glob == fs.glob
  {
    fs.(dirs := fs.dirs + Ancestors(outputDir) + Ancestors(workDir))
  }

  /** The filesystem `run_freesurfer` discovers images in: the given one, with its output and work directories created. */
  function Prepared(fs: FileSystem, inputs: FreeSurferInputs): FileSystem
  {
    var out := OutputDirOf(inputs);
    AfterMkdirs(fs, out, WorkDirOf(inputs, out))
  }

  /** `FreeSurferOutputs.from_inputs(inputs, output_dir, work_dir)` with the default directories. */
  function ExpectedOf(inputs: FreeSurferInputs): FreeSurferOutputs
  {
    var out := OutputDirOf(inputs);
    OutputsFor(inputs, out, WorkDirOf(inputs, out))
  }

  /** The T1w images of the run, through `_discover_t1w_files`. */
  function T1wFiles(fs: FileSystem, inputs: FreeSurferInputs): seq<Path>
  {
    DiscoverWeightedFiles(fs, inputs.bidsDir, inputs.participant, "T1w", inputs.session, inputs.t1wFilters)
  }

  /**
   * The T2w or FLAIR file of the run: none unless its filters are given (even
   * empty ones), otherwise the first discovered image, if any.
   */
  function ChosenFile(fs: FileSystem, inputs: FreeSurferInputs, suffix: string, filters: Option<Filters>): (r: Option<Path>)
    ensures filters.None? ==> r.None?
    ensures filters.Some? ==> (r.Some? <==> DiscoverWeightedFiles(fs, inputs.bidsDir, inputs.participant, suffix, inputs.session, filters) != [])
    ensures r.Some? ==> r.value == DiscoverWeightedFiles(fs, inputs.bidsDir, inputs.participant, suffix, inputs.session, filters)[0]
  {
    if filters.None? then None
    else First(DiscoverWeightedFiles(fs, inputs.bidsDir, inputs.participant, suffix, inputs.session, filters))
  }

  /** The command `run_freesurfer` builds on the prepared filesystem. */
  function RunCommand(fs: FileSystem, inputs: FreeSurferInputs, config: FreeSurferDefaults): Outcome<seq<string>>
  {
    var fs' := Prepared(fs, inputs);
    CommandFor(fs', inputs, config, OutputDirOf(inputs), T1wFiles(fs', inputs),
               ChosenFile(fs', inputs, "T2w", inputs.t2wFilters), ChosenFile(fs', inputs, "FLAIR", inputs.flairFilters))
  }

  /**
   * The decisions of `run_freesurfer` (given the configuration after its
   * overrides): the BIDS directory and the participant are checked first;
   * when the expected outputs exist and `force` is off the run is skipped
   * before any image is looked for; otherwise the command is built, with its
   * errors.
   */
  function PlanRun(fs: FileSystem, inputs: FreeSurferInputs, config: FreeSurferDefaults): (r: Outcome<Plan<FreeSurferOutputs>>)
    ensures !fs.IsDir(inputs.bidsDir) ==> r == Raised(ValidateInputDir(fs, inputs.bidsDir, "BIDS").exc)
    ensures fs.IsDir(inputs.bidsDir) && !fs.Exists(Child(inputs.bidsDir, "sub-" + inputs.participant)) ==>
      r == Raised(ValidateParticipant(fs, inputs.bidsDir, inputs.participant).exc)
    ensures r.Ok? ==> fs.IsDir(inputs.bidsDir) && fs.Exists(Child(inputs.bidsDir, "sub-" + inputs.participant))
    ensures r.Ok? ==> r.value.expected == ExpectedOf(inputs)
    ensures fs.IsDir(inputs.bidsDir) && fs.Exists(Child(inputs.bidsDir, "sub-" + inputs.participant)) ==>
      (r.Ok? && r.value.Skip? <==> ExpectedOf(inputs).Exist(Prepared(fs, inputs)) && !config.force)
    ensures r.Ok? && r.value.Execute? ==> RunCommand(fs, inputs, config) == Ok(r.value.command)
    ensures fs.IsDir(inputs.bidsDir) && fs.Exists(Child(inputs.bidsDir, "sub-" + inputs.participant))
            && !(ExpectedOf(inputs).Exist(Prepared(fs, inputs)) && !config.force) ==>
      && (r.Ok? <==> RunCommand(fs, inputs, config).Ok?)
      && (r.Raised? ==> r.exc == RunCommand(fs, inputs, config).exc)
      && (T1wFiles(Prepared(fs, inputs), inputs) == [] ==> r == Raised(NoT1w(inputs)))
  {
    var bids :- ValidateInputDir(fs, inputs.bidsDir, "BIDS");
    var participant :- ValidateParticipant(fs, inputs.bidsDir, inputs.participant);
    var expected := ExpectedOf(inputs);
    if expected.Exist(Prepared(fs, inputs)) && !config.force then Ok(Skip(expected))
    else
      var cmd :- RunCommand(fs, inputs, config);
      Ok(Execute(cmd, expected))
  }

  /** The keys of the record a skipped run returns, pairwise different. */
  lemma SkipKeysDistinct(keys: seq<string>)
    requires keys == ["tool", "participant", "skipped", "reason", "success", "inputs", "config", "expected_outputs"]
    ensures forall i, j :: 0 <= i < j < |keys| ==> keys[i] != keys[j]
  {
    assert keys[0][0] == 't' && keys[1][0] == 'p' && keys[2][0] == 's' && keys[3][0] == 'r';
    assert keys[4][0] == 's' && keys[5][0] == 'i' && keys[6][0] == 'c' && keys[7][0] == 'e';
    assert keys[2][1] == 'k' && keys[4][1] == 'u';
  }

  /** The record of a skipped run: skipped because the outputs exist, and successful. */
  function SkipRecord(tool: string, participant: string, inputsObj: Value, configObj: Value, expectedObj: Value): (r: Value)
    ensures r.VDict? && |r.entries| == 8
    ensures DictGet(r.entries, Some("tool")) == Some(VStr(tool))
    ensures DictGet(r.entries, Some("participant")) == Some(VStr(participant))
    ensures DictGet(r.entries, Some("skipped")) == Some(VBool(true))
    ensures DictGet(r.entries, Some("reason")) == Some(VStr("outputs_exist"))
    ensures DictGet(r.entries, Some("success")) == Some(VBool(true))
    ensures DictGet(r.entries, Some("inputs")) == Some(inputsObj)
    ensures DictGet(r.entries, Some("config")) == Some(configObj)
    ensures DictGet(r.entries, Some("expected_outputs")) == Some(expectedObj)
  {
    var keys := ["tool", "participant", "skipped", "reason", "success", "inputs", "config", "expected_outputs"];
    var vals := [VStr(tool), VStr(participant), VBool(true), VStr("outputs_exist"), VBool(true), inputsObj, configObj, expectedObj];
    var es := seq(8, i requires 0 <= i < 8 => Entry(Some(keys[i]), vals[i]));
    SkipKeysDistinct(keys);
    forall k | 0 <= k < 8
      ensures DictGet(es, es[k].key) == Some(es[k].val)
    {
      DictGetAt(es, k);
    }
    assert es[0].key == Some("tool") && es[1].key == Some("participant") && es[2].key == Some("skipped");
    assert es[3].key == Some("reason") && es[4].key == Some("success") && es[5].key == Some("inputs");
    assert es[6].key == Some("config") && es[7].key == Some("expected_outputs");
    VDict(es)
  }

  /**
   * The record of an executed run: the container run's record with the inputs,
   * the configuration and the expected outputs added and `skipped` False; every
   * other key keeps what the container run reported.
   */
  function ExecutedRecord(docker: seq<Entry>, inputsObj: Value, configObj: Value, expectedObj: Value): (r: seq<Entry>)
    ensures DictGet(r, Some("inputs")) == Some(inputsObj)
    ensures DictGet(r, Some("config")) == Some(configObj)
    ensures DictGet(r, Some("expected_outputs")) == Some(expectedObj)
    ensures DictGet(r, Some("skipped")) == Some(VBool(false))
    ensures forall k :: k != Some("inputs") && k != Some("config") && k != Some("expected_outputs") && k != Some("skipped") ==>
      DictGet(r, k) == DictGet(docker, k)
  {
    var ki, kc, ke, ks := Some("inputs"), Some("config"), Some("expected_outputs"), Some("skipped");
    var r1 := DictPut(docker, ki, inputsObj);
    var r2 := DictPut(r1, kc, configObj);
    var r3 := DictPut(r2, ke, expectedObj);
    var r4 := DictPut(r3, ks, VBool(false));
    ExecutedKeysDistinct(ki, kc, ke, ks);
    forall k
      ensures DictGet(r4, k) == if k == ks then Some(VBool(false)) else if k == ke then Some(expectedObj)
                                else if k == kc then Some(configObj) else if k == ki then Some(inputsObj)
                                else DictGet(docker, k)
    {
      DictPutGet(docker, ki, inputsObj, k);
      DictPutGet(r1, kc, configObj, k);
      DictPutGet(r2, ke, expectedObj, k);
      DictPutGet(r3, ks, VBool(false), k);
    }
    r4
  }

  lemma ExecutedKeysDistinct(ki: Key, kc: Key, ke: Key, ks: Key)
    requires ki == Some("inputs") && kc == Some("config") && ke == Some("expected_outputs") && ks == Some("skipped")
    ensures ki != kc && ki != ke && ki != ks && kc != ke && kc != ks && ke != ks
  {
    assert ki.value[0] == 'i' && kc.value[0] == 'c' && ke.value[0] == 'e' && ks.value[0] == 's';
  }

  /**
   * The import at the head of `runners/freesurfer.py` as written: `_base`
   * binds `run_docker` and the two checks, but not `_get_default_log_dir`,
   * which only `procedures/orchestrator.py` defines. So the import raises
   * `ImportError`. `RunLogDir` below uses the orchestrator's definition.
   */
  lemma DefaultLogDirImportFails()
    ensures ImportFromBase("run_docker").Ok?
    ensures ImportFromBase("validate_input_dir").Ok? && ImportFromBase("validate_participant").Ok?
    ensures ImportFromBase("_get_default_log_dir").Raised?
    ensures ImportFromBase("_get_default_log_dir").exc.cls == ImportError
  {
    var name := "_get_default_log_dir";
    forall i | 0 <= i < |ModuleNames|
      ensures ModuleNames[i] != name
    {
      if |ModuleNames[i]| == |name| {
        assert ModuleNames[i][0] != '_';
      }
    }
    assert ModuleNames[13] == "run_docker" && ModuleNames[8] == "validate_input_dir" && ModuleNames[9] == "validate_participant";
  }

  /**
   * `log_dir or _get_default_log_dir(inputs)`: the given directory, else `logs`
   * below the inputs' output directory, else `logs` below the working directory.
   */
  function RunLogDir(inputs: FreeSurferInputs, logDir: Option<Path>, cwd: Path): (d: Path)
    ensures logDir.Some? ==> d == logDir.value
    ensures logDir.None? ==> Orchestrator.DefaultLogDir(inputs.ToObject(), cwd) == Ok(d)
    ensures logDir.None? ==> d == Child(if inputs.outputDir.Some? then inputs.outputDir.value else cwd, "logs")
  {
    if logDir.Some? then logDir.value
    else
      var d := Child(if inputs.outputDir.Some? then inputs.outputDir.value else cwd, "logs");
      assert GetAttr(inputs.ToObject(), "output_dir") == Some(PathOrNone(inputs.outputDir));
      d
  }

  /**
   * `log_dir or (inputs.subjects_dir.parent / "logs")`: the base run does not
   * use the default of the other runners, but a `logs` directory beside the
   * subjects directory.
   */
  function BaseRunLogDir(inputs: FreeSurferBaseInputs, logDir: Option<Path>): (d: Path)
    ensures logDir.Some? ==> d == logDir.value
    ensures logDir.None? ==> Parent(d) == Parent(inputs.subjectsDir) && Name(d) == "logs"
  {
    if logDir.Some? then logDir.value else Child(Parent(inputs.subjectsDir), "logs")
  }

  /**
   * `run_freesurfer(inputs, config, log_dir, **overrides)`, with the Docker
   * daemon and the clock given as `host`: the plan and the record use the
   * configuration after the defaults and the overrides; an executed plan runs
   * `run_docker` and raises what it raises, and a returned record always
   * reports success and carries the inputs and that configuration as objects.
   */
  function RunFreeSurfer(fs: FileSystem, inputs: FreeSurferInputs, config: Option<FreeSurferDefaults>,
                         overrides: seq<Item<string, Value>>, logDir: Option<Path>, cwd: Path, host: DockerHost): (r: Outcome<Value>)
    ensures var plan := PlanRun(fs, inputs, Configure(config, overrides));
      && (plan.Raised? ==> r == Raised(plan.exc))
      && (plan.Ok? && plan.value.Skip? ==> r.Ok?)
      && (plan.Ok? && plan.value.Execute? ==>
            var run := RunDocker(plan.value.command, "freesurfer", inputs.participant, Some(RunLogDir(inputs, logDir, cwd)), true, host);
            (r.Raised? <==> run.Raised?) && (r.Raised? ==> r.exc == run.exc))
    ensures var plan := PlanRun(fs, inputs, Configure(config, overrides));
      r.Ok? ==>
        && r.value.VDict?
        && DictGet(r.value.entries, Some("success")) == Some(VBool(true))
        && DictGet(r.value.entries, Some("skipped")) == Some(VBool(plan.value.Skip?))
        && DictGet(r.value.entries, Some("inputs")) == Some(inputs.ToObject())
        && DictGet(r.value.entries, Some("config")) == Some(Configure(config, overrides).ToObject())
        && DictGet(r.value.entries, Some("expected_outputs")) == Some(ExpectedOf(inputs).ToObject())
        && DictGet(r.value.entries, Some("tool")) == Some(VStr("freesurfer"))
        && DictGet(r.value.entries, Some("participant")) == Some(VStr(inputs.participant))
  {
    var dir := RunLogDir(inputs, logDir, cwd);
    var c := Configure(config, overrides);
    var plan :- PlanRun(fs, inputs, c);
    PlanRecord(plan, "freesurfer", inputs.participant, inputs.ToObject(), c.ToObject(), plan.expected.ToObject(), dir, host)
  }

  /**
   * The record a run returns once planned: the skip record, or the record of
   * `run_docker` completed with the inputs, configuration and expected outputs;
   * an exception of `run_docker` escapes.
   */
  function PlanRecord<O>(plan: Plan<O>, tool: string, participant: string, inputsObj: Value, configObj: Value,
                         expectedObj: Value, logDir: Path, host: DockerHost): (r: Outcome<Value>)
    ensures plan.Skip? ==> r.Ok?
    ensures plan.Execute? ==>
      var run := RunDocker(plan.command, tool, participant, Some(logDir), true, host);
      (r.Raised? <==> run.Raised?) && (r.Raised? ==> r.exc == run.exc)
    ensures r.Ok? ==>
      && r.value.VDict?
      && DictGet(r.value.entries, Some("success")) == Some(VBool(true))
      && DictGet(r.value.entries, Some("skipped")) == Some(VBool(plan.Skip?))
      && DictGet(r.value.entries, Some("inputs")) == Some(inputsObj)
      && DictGet(r.value.entries, Some("config")) == Some(configObj)
      && DictGet(r.value.entries, Some("expected_outputs")) == Some(expectedObj)
      && DictGet(r.value.entries, Some("tool")) == Some(VStr(tool))
      && DictGet(r.value.entries, Some("participant")) == Some(VStr(participant))
  {
    match plan
    case Skip(_) => Ok(SkipRecord(tool, participant, inputsObj, configObj, expectedObj))
    case Execute(cmd, _) => RunRecord(cmd, tool, participant, inputsObj, configObj, expectedObj, logDir, host)
  }

  /** The executed branch: `run_docker`, then its record completed as `ExecutedRecord` says. */
  function RunRecord(cmd: seq<string>, tool: string, participant: string, inputsObj: Value, configObj: Value,
                     expectedObj: Value, logDir: Path, host: DockerHost): (r: Outcome<Value>)
    ensures var run := RunDocker(cmd, tool, participant, Some(logDir), true, host);
      (r.Raised? <==> run.Raised?) && (r.Raised? ==> r.exc == run.exc)
    ensures r.Ok? ==>
      && r.value.VDict?
      && DictGet(r.value.entries, Some("success")) == Some(VBool(true))
      && DictGet(r.value.entries, Some("skipped")) == Some(VBool(false))
      && DictGet(r.value.entries, Some("inputs")) == Some(inputsObj)
      && DictGet(r.value.entries, Some("config")) == Some(configObj)
      && DictGet(r.value.entries, Some("expected_outputs")) == Some(expectedObj)
      && DictGet(r.value.entries, Some("tool")) == Some(VStr(tool))
      && DictGet(r.value.entries, Some("participant")) == Some(VStr(participant))
  {
    var record :- RunDocker(cmd, tool, participant, Some(logDir), true, host);
    var es := ExecutedRecord(record, inputsObj, configObj, expectedObj);
    RecordKeysNotAdded(Some("success"));
    RecordKeysNotAdded(Some("tool"));
    RecordKeysNotAdded(Some("participant"));
    assert DictGet(es, Some("success")) == DictGet(record, Some("success"));
    assert DictGet(es, Some("tool")) == DictGet(record, Some("tool"));
    assert DictGet(es, Some("participant")) == DictGet(record, Some("participant"));
    Ok(VDict(es))
  }

  /** `success`, `tool` and `participant` are none of the keys an executed record adds. */
  lemma RecordKeysNotAdded(k: Key)
    requires k == Some("success") || k == Some("tool") || k == Some("participant")
    ensures k != Some("inputs") && k != Some("config") && k != Some("expected_outputs") && k != Some("skipped")
  {
    assert k.value[0] == 's' ==> k.value[1] == 'u';
    assert "skipped"[1] == 'k';
  }

  /** The timepoint labels whose subject directory does not exist, in order. */
  function MissingTimepoints(fs: FileSystem, subjectsDir: Path, labels: seq<string>): (r: seq<string>)
    ensures forall l :: l in r <==> l in labels && !fs.Exists(Child(subjectsDir, l))
    ensures SubsequenceOf(r, labels)
    ensures forall l :: multiset(r)[l] == if fs.Exists(Child(subjectsDir, l)) then 0 else multiset(labels)[l]
  {
    if labels == [] then []
    else
      var rest := MissingTimepoints(fs, subjectsDir, labels[1..]);
      assert forall l :: l in labels <==> l == labels[0] || l in labels[1..];
      assert labels == [labels[0]] + labels[1..];
      if !fs.Exists(Child(subjectsDir, labels[0])) then [labels[0]] + rest else rest
  }

  /** The `ValueError` naming the missing timepoints as a Python list. */
  function MissingError(participant: string, missing: seq<string>): Exc
  {
    Simple(ValueError, "Missing timepoint directories for " + participant + ": "
      + Str(VList(seq(|missing|, i requires 0 <= i < |missing| => VStr(missing[i]))))
      + ". Run run_freesurfer for each session first.")
  }

  /**
   * The decisions of `run_freesurfer_base`: every timepoint directory must
   * exist first; then an existing base template is skipped unless `force` is
   * on; only then is the command built, which refuses an empty session list.
   * An empty session list with an existing template is therefore skipped, not
   * refused.
   */
  function PlanBaseRun(fs: FileSystem, inputs: FreeSurferBaseInputs, config: FreeSurferDefaults): (r: Outcome<Plan<FreeSurferBaseOutputs>>)
    ensures var missing := MissingTimepoints(fs, inputs.subjectsDir, inputs.TimepointLabels());
      && (missing != [] ==> r == Raised(MissingError(inputs.participant, missing)))
      && (r.Ok? ==> missing == [] && r.value.expected == BaseOutputsFor(inputs))
    ensures (forall l :: l in inputs.TimepointLabels() ==> fs.Exists(Child(inputs.subjectsDir, l))) ==>
      && (r.Ok? && r.value.Skip? <==> BaseOutputsFor(inputs).Exist(fs) && !config.force)
      && (!(BaseOutputsFor(inputs).Exist(fs) && !config.force) ==>
            && (r.Raised? <==> inputs.sessions == [])
            && (r.Raised? ==> r.exc == NoSessions(inputs.participant))
            && (r.Ok? ==> r.value.command == BaseCommandFor(fs, inputs, config).value))
    ensures inputs.sessions == [] ==> (r.Raised? <==> !(BaseOutputsFor(inputs).Exist(fs) && !config.force))
  {
    var missing := MissingTimepoints(fs, inputs.subjectsDir, inputs.TimepointLabels());
    if missing != [] then
      assert missing[0] in missing;
      Raised(MissingError(inputs.participant, missing))
    else
      var expected := BaseOutputsFor(inputs);
      if expected.Exist(fs) && !config.force then Ok(Skip(expected))
      else
        var cmd :- BaseCommandFor(fs, inputs, config);
        Ok(Execute(cmd, expected))
  }

  /**
   * `run_freesurfer_base(inputs, config, log_dir, **overrides)`, with the Docker
   * daemon and the clock given as `host`, and the configuration after the
   * defaults and the overrides; a returned record always reports success.
   */
  function RunFreeSurferBase(fs: FileSystem, inputs: FreeSurferBaseInputs, config: Option<FreeSurferDefaults>,
                             overrides: seq<Item<string, Value>>, logDir: Option<Path>, host: DockerHost): (r: Outcome<Value>)
    ensures var plan := PlanBaseRun(fs, inputs, Configure(config, overrides));
      && (plan.Raised? ==> r == Raised(plan.exc))
      && (plan.Ok? && plan.value.Skip? ==> r.Ok?)
      && (plan.Ok? && plan.value.Execute? ==>
            var run := RunDocker(plan.value.command, "freesurfer_base", inputs.participant, Some(BaseRunLogDir(inputs, logDir)), true, host);
            (r.Raised? <==> run.Raised?) && (r.Raised? ==> r.exc == run.exc))
    ensures var plan := PlanBaseRun(fs, inputs, Configure(config, overrides));
      r.Ok? ==>
        && r.value.VDict?
        && DictGet(r.value.entries, Some("success")) == Some(VBool(true))
        && DictGet(r.value.entries, Some("skipped")) == Some(VBool(plan.value.Skip?))
        && DictGet(r.value.entries, Some("inputs")) == Some(inputs.ToObject())
        && DictGet(r.value.entries, Some("config")) == Some(Configure(config, overrides).ToObject())
        && DictGet(r.value.entries, Some("expected_outputs")) == Some(BaseOutputsFor(inputs).ToObject())
        && DictGet(r.value.entries, Some("tool")) == Some(VStr("freesurfer_base"))
        && DictGet(r.value.entries, Some("participant")) == Some(VStr(inputs.participant))
  {
    var dir := BaseRunLogDir(inputs, logDir);
    var c := Configure(config, overrides);
    var plan :- PlanBaseRun(fs, inputs, c);
    PlanRecord(plan, "freesurfer_base", inputs.participant, inputs.ToObject(), c.ToObject(), plan.expected.ToObject(), dir, host)
  }
}
