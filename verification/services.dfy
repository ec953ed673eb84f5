/**
 * The decision rules of the update web handlers: the guards of `set_request`, the pagination of
 * `query_updates`, the per-release split of `new_update` and the status gate of `trigger_tests`.
 * The database, Koji, the task queue and the message bus are not modelled: what they answer is a
 * parameter (a map, a function) and what is sent to them is part of the result.
 */
module UpdateServices {
  import opened Wrappers
  import opened Json
  import Strings
  import UpdateSchemas

  // ---------------------------------------------------------------------------
  // The update records the handlers look at.
  // ---------------------------------------------------------------------------

  datatype UpdateStatus = Pending | Testing | Stable | Unpushed | Obsolete | SideTagActive | SideTagExpired

  /** The requests a user may ask for. */
  datatype UpdateRequest = ToTesting | ToObsolete | ToUnpush | ToRevoke | ToStable

  datatype ContentType = Base | Rpm | Module | Container | Flatpak

  /** The fields of an update the handlers read. */
  datatype Update = Update(
    alias: string,
    locked: bool,
    status: UpdateStatus,
    request: Option<UpdateRequest>,
    contentType: ContentType)

  // ---------------------------------------------------------------------------
  // set_request
  // ---------------------------------------------------------------------------

  const LockedError := "Can't change request on a locked update"
  const StableToTestingError := "Pushing back to testing a stable update is not allowed"
  const RequirementError := "Requirement not met "

  /**
   * What the handler answers: an error and no body, or the update (as `update.set_request`
   * left it) together with the error that call raised, if any.
   */
  datatype RequestOutcome =
    | Refused(error: string)
    | Answered(update: Update, errors: seq<string>)

  /** `update.check_requirements(db, settings)`: whether the update may go stable, and why not. */
  type Requirements = Update -> (bool, string)

  /** `update.set_request(db, action, username)`: the new update, or the message of the exception it raised. */
  type RequestSetter = (Update, UpdateRequest, string) -> Result<Update>

  /**
   * `set_request`: a locked update is refused first; then a stable update may not go back to
   * testing; then a stable request needs the requirements met; only then is the request set.
   */
  function SetRequest(u: Update, action: UpdateRequest, user: string, check: Requirements, setter: RequestSetter)
    : (r: RequestOutcome)
    ensures u.locked ==> r == Refused(LockedError)
    ensures !u.locked && u.status == Stable && action == ToTesting ==> r == Refused(StableToTestingError)
    ensures !u.locked && !(u.status == Stable && action == ToTesting) && action == ToStable && !check(u).0 ==>
      r == Refused(RequirementError + check(u).1)
    ensures r.Answered? <==>
      !u.locked && !(u.status == Stable && action == ToTesting) && (action == ToStable ==> check(u).0)
    ensures r.Answered? ==>
      r == match setter(u, action, user)
           case Success(v) => Answered(v, [])
           case Failure(e) => Answered(u, [e])
  {
    if u.locked then Refused(LockedError)
    else if u.status == Stable && action == ToTesting then Refused(StableToTestingError)
    else if action == ToStable && !check(u).0 then Refused(RequirementError + check(u).1)
    else
      match setter(u, action, user)
      case Success(v) => Answered(v, [])
      case Failure(e) => Answered(u, [e])
  }

  /**
   * A refused request never reaches `update.set_request`: the answer is the same whatever that
   * call would do, and the update is not changed.
   */
  lemma RefusedNeverSets(u: Update, action: UpdateRequest, user: string, check: Requirements,
                         s1: RequestSetter, s2: RequestSetter)
    requires SetRequest(u, action, user, check, s1).Refused?
    ensures SetRequest(u, action, user, check, s2) == SetRequest(u, action, user, check, s1)
  {
  }

  /** The lock is checked first: a locked update is refused the same way whatever is asked and whatever its state. */
  lemma LockCheckedFirst(u: Update, a1: UpdateRequest, a2: UpdateRequest, user: string,
                         c1: Requirements, c2: Requirements, s1: RequestSetter, s2: RequestSetter)
    requires u.locked
    ensures SetRequest(u, a1, user, c1, s1) == SetRequest(u, a2, user, c2, s2) == Refused(LockedError)
  {
  }

  /**
   * The requirements are consulted only for a stable request, and only once the lock and the
   * stable-to-testing checks have passed.
   */
  lemma RequirementsOnlyForStable(u: Update, action: UpdateRequest, user: string,
                                  c1: Requirements, c2: Requirements, s: RequestSetter)
    requires action != ToStable || u.locked
    ensures SetRequest(u, action, user, c1, s) == SetRequest(u, action, user, c2, s)
  {
  }

  /** The request of an update changes only through `update.set_request`. */
  lemma RequestChangesOnlyBySetter(u: Update, action: UpdateRequest, user: string, check: Requirements, setter: RequestSetter)
    requires var r := SetRequest(u, action, user, check, setter); r.Answered? && r.update != u
    ensures setter(u, action, user) == Success(SetRequest(u, action, user, check, setter).update)
  {
  }

  // ---------------------------------------------------------------------------
  // query_updates: pagination and the selected package.
  // ---------------------------------------------------------------------------

  /** ⌈a / b⌉ for a positive divisor. */
  function CeilDiv(a: nat, b: nat): (q: nat)
    requires b > 0
    ensures (q - 1) * b < a <= q * b || (a == 0 && q == 0)
  {
    (a + b - 1) / b
  }

  /** The page count and the window of rows one page shows (SQL OFFSET and LIMIT). */
  datatype Window = Window(pages: nat, offset: int, limit: nat)

  const ZeroRowsError := "float division by zero"

  /**
   * `pages = ceil(total / rows_per_page)`, `offset = rows_per_page * (page - 1)`,
   * `limit = rows_per_page`; zero rows per page raises Python's division error.
   */
  function Paginate(total: nat, page: int, rowsPerPage: nat): (r: Result<Window>)
    ensures r.Failure? <==> rowsPerPage == 0
    ensures r.Failure? ==> r.error == ZeroRowsError
    ensures r.Success? ==> r.value.limit == rowsPerPage && r.value.offset == rowsPerPage * (page - 1)
    ensures r.Success? ==> (r.value.pages == 0 <==> total == 0)
    ensures r.Success? ==> (r.value.pages - 1) * rowsPerPage < total <= r.value.pages * rowsPerPage || total == 0
  {
    if rowsPerPage == 0 then Failure(ZeroRowsError)
    else Success(Window(CeilDiv(total, rowsPerPage), rowsPerPage * (page - 1), rowsPerPage))
  }

  /** A page within the page count shows a window that ends within the last page and starts within the rows. */
  lemma {:induction false} PageWithinPages(total: nat, page: int, rowsPerPage: nat)
    requires rowsPerPage > 0
    requires 1 <= page <= Paginate(total, page, rowsPerPage).value.pages
    ensures var w := Paginate(total, page, rowsPerPage).value;
      0 <= w.offset < total && w.offset + w.limit <= w.pages * rowsPerPage
  {
    var w := Paginate(total, page, rowsPerPage).value;
    assert w.offset + w.limit == rowsPerPage * page;
    MulMonotone(rowsPerPage, page, w.pages);
    MulMonotone(rowsPerPage, page - 1, w.pages - 1);
  }

  lemma MulMonotone(k: nat, a: int, b: int)
    requires a <= b
    ensures k * a <= k * b
  {
  }

  /** Every row lies on exactly one page: page `i / rows_per_page + 1`, which is within the page count. */
  lemma {:induction false} RowOnOnePage(total: nat, rowsPerPage: nat, i: nat, page: int)
    requires rowsPerPage > 0 && i < total
    ensures var w := Paginate(total, page, rowsPerPage).value;
      w.offset <= i < w.offset + w.limit <==> page == i / rowsPerPage + 1
    ensures 1 <= i / rowsPerPage + 1 <= Paginate(total, page, rowsPerPage).value.pages
  {
    var w := Paginate(total, page, rowsPerPage).value;
    MulSucc(rowsPerPage, page - 1);
    OnPage(rowsPerPage, i, page);
    var p := i / rowsPerPage;
    DivBelow(rowsPerPage, i);
    if p >= w.pages {
      MulMonotone(rowsPerPage, w.pages, p);
    }
  }

  lemma MulSucc(k: nat, a: int)
    ensures k * (a + 1) == k * a + k
  {
  }

  /** `i / d * d <= i`. */
  lemma DivBelow(d: nat, i: nat)
    requires d > 0
    ensures d * (i / d) <= i < d * (i / d) + d
  {
  }

  /** Row `i` is in the window of page `q` exactly when `q` is `i / d + 1`. */
  lemma OnPage(d: nat, i: nat, q: int)
    requires d > 0
    ensures d * (q - 1) <= i < d * (q - 1) + d <==> q == i / d + 1
  {
    var p := i / d;
    DivBelow(d, i);
    if q - 1 < p {
      MulMonotone(d, q, p);
      MulSucc(d, q - 1);
    } else if q - 1 > p {
      MulMonotone(d, p + 1, q - 1);
      MulSucc(d, p);
    }
  }

  /** The `package` answered: the first package filtered on, when the filter names any. */
  function SelectedPackage(packages: Option<seq<string>>): (r: Option<string>)
    ensures r.Some? <==> packages.Some? && |packages.value| > 0
    ensures r.Some? ==> r.value in packages.value
  {
    if packages.Some? && |packages.value| > 0 then Some(packages.value[0]) else None
  }

  // ---------------------------------------------------------------------------
  // new_update: one update per release.
  // ---------------------------------------------------------------------------

  datatype Release = Release(name: string, composedByBodhi: bool)

  datatype Build = Build(nvr: string, release: Release)

  datatype Caveat = Caveat(name: string, description: string)

  /** The data handed to `Update.new` or `Update.edit`: the release, the builds' NVRs and the side tag. */
  datatype Draft = Draft(release: Release, builds: seq<string>, fromTag: Option<string>)

  datatype SaveOutcome =
    | SaveError(message: string)
    | EditDraft(edited: string, draft: Draft)
    | NewDrafts(drafts: seq<Draft>, caveats: seq<Caveat>)
    | SaveCrash(exception: string)  // an exception raised outside the handler's `try`

  const UnableToCreate := "Unable to create update.  "
  const NotComposedError := "Cannot manually" + " create updates for a Release which is not composed by Bodhi.\n" +
    "Read the 'Automatic updates' page in Bodhi docs about this error."
  const IndexError := "list index out of range"
  /** No release means no `Update.new` call, so `result` is never bound when it is read. */
  const UnboundResult := "UnboundLocalError"
  /**
   * `request.buildinfo` is a `defaultdict(dict)`: an NVR that the validators did not record reads
   * as `{}`, so `request.buildinfo[nvr]['nvr']` raises `KeyError('nvr')` whichever NVR it is.
   */
  const UnknownBuildError := UnableToCreate + "'nvr'"

  /** Python truthiness of an optional string. */
  predicate Truthy(s: Option<string>) {
    s.Some? && s.value != ""
  }

  /** The first build that Koji's build info does not know, or the number of builds when it knows them all. */
  function FirstUnknown(nvrs: seq<string>, info: map<string, Release>): (i: nat)
    ensures i <= |nvrs|
    ensures forall j :: 0 <= j < i ==> nvrs[j] in info
    ensures i < |nvrs| ==> nvrs[i] !in info
    decreases |nvrs|
  {
    if nvrs == [] || nvrs[0] !in info then 0 else 1 + FirstUnknown(nvrs[1..], info)
  }

  /** The builds, each with the release Koji gives it. */
  function BuildsOf(nvrs: seq<string>, info: map<string, Release>): (r: seq<Build>)
    requires forall i :: 0 <= i < |nvrs| ==> nvrs[i] in info
    ensures |r| == |nvrs| && forall i :: 0 <= i < |nvrs| ==> r[i] == Build(nvrs[i], info[nvrs[i]])
  {
    seq(|nvrs|, i requires 0 <= i < |nvrs| => Build(nvrs[i], info[nvrs[i]]))
  }

  predicate DistinctReleases(rs: seq<Release>) {
    forall i, j :: 0 <= i < j < |rs| ==> rs[i] != rs[j]
  }

  /** The set of the builds' releases, in the order each first appears. */
  function ReleasesOf(builds: seq<Build>): (r: seq<Release>)
    ensures DistinctReleases(r)
    ensures forall x :: x in r <==> exists i :: 0 <= i < |builds| && builds[i].release == x
    ensures |r| <= |builds|
  {
    if builds == [] then []
    else
      var init := ReleasesOf(builds[..|builds| - 1]);
      var x := builds[|builds| - 1].release;
      assert forall i :: 0 <= i < |builds| - 1 ==> builds[..|builds| - 1][i] == builds[i];
      if x in init then init else init + [x]
  }

  /** One more build looked up: its build joins the builds. */
  lemma BuildsOfStep(nvrs: seq<string>, info: map<string, Release>, i: nat)
    requires i < |nvrs| && forall j :: 0 <= j <= i ==> nvrs[j] in info
    ensures BuildsOf(nvrs[..i + 1], info) == BuildsOf(nvrs[..i], info) + [Build(nvrs[i], info[nvrs[i]])]
  {
  }

  /** One more build: its release joins the set unless it is there already. */
  lemma ReleasesOfStep(builds: seq<Build>, b: Build)
    ensures ReleasesOf(builds + [b]) ==
      if b.release in ReleasesOf(builds) then ReleasesOf(builds) else ReleasesOf(builds) + [b.release]
  {
    assert (builds + [b])[..|builds|] == builds;
  }

  /** `[b for b in builds if b.release == release]`, as NVRs. */
  function NvrsFor(builds: seq<Build>, release: Release): (r: seq<string>)
    ensures forall n :: n in r <==> exists i :: 0 <= i < |builds| && builds[i] == Build(n, release)
  {
    if builds == [] then []
    else
      var init := builds[..|builds| - 1];
      var b := builds[|builds| - 1];
      assert forall i :: 0 <= i < |init| ==> init[i] == builds[i];
      NvrsFor(init, release) + (if b.release == release then [b.nvr] else [])
  }

  /** The caveat a split adds. */
  function SplitCaveat(n: nat): (c: Caveat)
    ensures c.name == "releases"
  {
    Caveat("releases", "Your update is being split into " + Strings.NatToString(n) + ", one for each release.")
  }

  /** The split caveat's description gives the count as a decimal numeral (`%i`) that reads back as it. */
  lemma SplitCaveatCounts(n: nat)
    ensures exists d ::
      && SplitCaveat(n).description == "Your update is being split into " + d + ", one for each release."
      && |d| > 0 && (forall i :: 0 <= i < |d| ==> Strings.IsDigit(d[i]))
      && Strings.ParseNat(d) == n
  {
    var d := Strings.NatToString(n);
    Strings.NatToStringRoundTrip(n);
    assert SplitCaveat(n).description == "Your update is being split into " + d + ", one for each release.";
  }

  /** One draft per release, holding the NVRs of that release's builds. */
  function Drafts(builds: seq<Build>, releases: seq<Release>, fromTag: Option<string>): (r: seq<Draft>)
    ensures |r| == |releases|
    ensures forall i :: 0 <= i < |releases| ==> r[i] == Draft(releases[i], NvrsFor(builds, releases[i]), fromTag)
  {
    seq(|releases|, i requires 0 <= i < |releases| => Draft(releases[i], NvrsFor(builds, releases[i]), fromTag))
  }

  /**
   * What `new_update` decides, up to the calls of `Update.new`/`Update.edit`: an unknown build is
   * an error; without a side tag, a release that Bodhi does not compose is an error; an edit
   * keeps the first release; otherwise one draft per release, with a caveat when there is more
   * than one release. A new update without builds drafts nothing, and reading the unbound
   * `result` after the `try` raises.
   */
  function Planned(nvrs: seq<string>, info: map<string, Release>, fromTag: Option<string>, edited: Option<string>)
    : (r: SaveOutcome)
    ensures r.EditDraft? || r.NewDrafts? ==> forall i :: 0 <= i < |nvrs| ==> nvrs[i] in info
    ensures r.EditDraft? ==> r.draft.builds == nvrs
  {
    var i := FirstUnknown(nvrs, info);
    if i < |nvrs| then SaveError(UnknownBuildError)
    else
      var builds := BuildsOf(nvrs, info);
      PlannedFor(nvrs, builds, ReleasesOf(builds), fromTag, edited)
  }

  /** What `new_update` does once every build is known, from the builds and their releases. */
  function PlannedFor(nvrs: seq<string>, builds: seq<Build>, releases: seq<Release>, fromTag: Option<string>,
                      edited: Option<string>): (r: SaveOutcome)
    ensures r.EditDraft? ==> Truthy(edited) && r.edited == edited.value && r.draft.release in releases
    ensures r.NewDrafts? ==> !Truthy(edited) && |r.drafts| == |releases| > 0
    ensures r.SaveCrash? <==> !Truthy(edited) && releases == [] && r == SaveCrash(UnboundResult)
    ensures r.EditDraft? || r.NewDrafts? ==> Truthy(fromTag) || forall x :: x in releases ==> x.composedByBodhi
  {
    if !Truthy(fromTag) && exists x :: x in releases && !x.composedByBodhi then SaveError(NotComposedError)
    else if Truthy(edited) then
      if releases == [] then SaveError(UnableToCreate + IndexError)
      else EditDraft(edited.value, Draft(releases[0], nvrs, fromTag))
    else if releases == [] then SaveCrash(UnboundResult)
    else NewDrafts(Drafts(builds, releases, fromTag), if |releases| > 1 then [SplitCaveat(|releases|)] else [])
  }

  /**
   * `new_update` from the builds' NVRs, Koji's release of each (`request.buildinfo`), the side
   * tag and the alias of the update being edited: the builds are looked up in order, the releases
   * gathered, checked, and the drafts made one release at a time.
   */
  method NewUpdate(nvrs: seq<string>, info: map<string, Release>, fromTag: Option<string>, edited: Option<string>)
    returns (r: SaveOutcome)
    ensures r == Planned(nvrs, info, fromTag, edited)
  {
    var unknown, builds, releases := GatherBuilds(nvrs, info);
    if unknown < |nvrs| {
      return SaveError(UnknownBuildError);
    }
    r := SaveBuilds(nvrs, builds, releases, fromTag, edited);
  }

  /** The rest of `new_update`, once every build is known: the composed check, then edit or split. */
  method SaveBuilds(nvrs: seq<string>, builds: seq<Build>, releases: seq<Release>, fromTag: Option<string>,
                    edited: Option<string>)
    returns (r: SaveOutcome)
    ensures r == PlannedFor(nvrs, builds, releases, fromTag, edited)
  {
    if !Truthy(fromTag) {
      var refused := AnyNotComposed(releases);
      if refused {
        return SaveError(NotComposedError);
      }
    }
    if Truthy(edited) {
      if releases == [] {
        return SaveError(UnableToCreate + IndexError);
      }
      return EditDraft(edited.value, Draft(releases[0], nvrs, fromTag));
    }
    if releases == [] {
      return SaveCrash(UnboundResult);
    }
    var caveats: seq<Caveat> := [];
    if |releases| > 1 {
      caveats := caveats + [SplitCaveat(|releases|)];
    }
    var drafts := MakeDrafts(builds, releases, fromTag);
    return NewDrafts(drafts, caveats);
  }

  /**
   * The first loop of `new_update`: each build in turn gets Koji's release, joining the set of
   * releases; the index of the first build Koji does not know is where the loop raises.
   */
  method GatherBuilds(nvrs: seq<string>, info: map<string, Release>)
    returns (unknown: nat, builds: seq<Build>, releases: seq<Release>)
    ensures unknown == FirstUnknown(nvrs, info)
    ensures unknown == |nvrs| ==> builds == BuildsOf(nvrs, info) && releases == ReleasesOf(builds)
  {
    builds, releases := [], [];
    var i := 0;
    while i < |nvrs|
      invariant 0 <= i <= |nvrs|
      invariant forall j :: 0 <= j < i ==> nvrs[j] in info
      invariant builds == BuildsOf(nvrs[..i], info)
      invariant releases == ReleasesOf(builds)
    {
      if nvrs[i] !in info {
        FirstUnknownAt(nvrs, info, i);
        return i, builds, releases;
      }
      var b := Build(nvrs[i], info[nvrs[i]]);
      BuildsOfStep(nvrs, info, i);
      ReleasesOfStep(builds, b);
      if b.release !in releases {
        releases := releases + [b.release];
      }
      builds := builds + [b];
      i := i + 1;
    }
    assert nvrs[..i] == nvrs;
    FirstUnknownAt(nvrs, info, |nvrs|);
    unknown := |nvrs|;
  }

  /** The composed-by-Bodhi loop of `new_update`: whether some release is not composed by Bodhi. */
  method AnyNotComposed(releases: seq<Release>) returns (found: bool)
    ensures found <==> exists x :: x in releases && !x.composedByBodhi
  {
    var k := 0;
    while k < |releases|
      invariant 0 <= k <= |releases|
      invariant forall j :: 0 <= j < k ==> releases[j].composedByBodhi
    {
      if !releases[k].composedByBodhi {
        return true;
      }
      k := k + 1;
    }
    return false;
  }

  /** The per-release loop of `new_update`: one draft per release, in the order of the releases. */
  method MakeDrafts(builds: seq<Build>, releases: seq<Release>, fromTag: Option<string>) returns (drafts: seq<Draft>)
    ensures drafts == Drafts(builds, releases, fromTag)
  {
    drafts := [];
    var k := 0;
    while k < |releases|
      invariant 0 <= k <= |releases|
      invariant drafts == Drafts(builds, releases[..k], fromTag)
    {
      drafts := drafts + [Draft(releases[k], NvrsFor(builds, releases[k]), fromTag)];
      k := k + 1;
    }
    assert releases[..k] == releases;
  }

  /**
   * `new_update` answers with the unknown-build error exactly when some build is missing from
   * Koji's build info; the text names the missing key `'nvr'`, never the build.
   */
  lemma UnknownBuildRefused(nvrs: seq<string>, info: map<string, Release>, fromTag: Option<string>,
                            edited: Option<string>)
    ensures Planned(nvrs, info, fromTag, edited) == SaveError(UnknownBuildError) <==>
      exists i :: 0 <= i < |nvrs| && nvrs[i] !in info
  {
    var i := FirstUnknown(nvrs, info);
    if i == |nvrs| {
      var builds := BuildsOf(nvrs, info);
      assert Planned(nvrs, info, fromTag, edited) == PlannedFor(nvrs, builds, ReleasesOf(builds), fromTag, edited);
      assert UnknownBuildError[0] == 'U' && NotComposedError[0] == 'C';
      assert UnknownBuildError[|UnableToCreate|] == '\'' && (UnableToCreate + IndexError)[|UnableToCreate|] == 'l';
    }
  }

  /**
   * Without a side tag, known builds of a release that Bodhi does not compose are refused before
   * any update is drafted; with one, or when every release is composed by Bodhi, they are not.
   */
  lemma NotComposedRefused(nvrs: seq<string>, info: map<string, Release>, fromTag: Option<string>, edited: Option<string>)
    requires forall i :: 0 <= i < |nvrs| ==> nvrs[i] in info
    ensures Planned(nvrs, info, fromTag, edited) == SaveError(NotComposedError) <==>
      !Truthy(fromTag) && exists i :: 0 <= i < |nvrs| && !info[nvrs[i]].composedByBodhi
  {
    FirstUnknownAt(nvrs, info, |nvrs|);
    var builds := BuildsOf(nvrs, info);
    assert Planned(nvrs, info, fromTag, edited) == PlannedFor(nvrs, builds, ReleasesOf(builds), fromTag, edited);
    SomeReleaseNotComposed(nvrs, info);
    ErrorsDiffer();
  }

  /** Some build's release is not composed by Bodhi exactly when one of the gathered releases is not. */
  lemma SomeReleaseNotComposed(nvrs: seq<string>, info: map<string, Release>)
    requires forall i :: 0 <= i < |nvrs| ==> nvrs[i] in info
    ensures (exists i :: 0 <= i < |nvrs| && !info[nvrs[i]].composedByBodhi) <==>
      exists x :: x in ReleasesOf(BuildsOf(nvrs, info)) && !x.composedByBodhi
  {
    var builds := BuildsOf(nvrs, info);
    var releases := ReleasesOf(builds);
    if exists i :: 0 <= i < |nvrs| && !info[nvrs[i]].composedByBodhi {
      var i :| 0 <= i < |nvrs| && !info[nvrs[i]].composedByBodhi;
      assert builds[i].release == info[nvrs[i]];
      assert info[nvrs[i]] in releases;
    }
    if exists x :: x in releases && !x.composedByBodhi {
      var x :| x in releases && !x.composedByBodhi;
      var i :| 0 <= i < |builds| && builds[i].release == x;
      assert !info[nvrs[i]].composedByBodhi;
    }
  }

  lemma ErrorsDiffer()
    ensures NotComposedError != UnableToCreate + IndexError
  {
    assert NotComposedError[0] == 'C';
    assert (UnableToCreate + IndexError)[0] == 'U';
  }

  /**
   * A new (not edited) update whose builds are all known and allowed is split into one draft per
   * distinct release; the releases caveat, naming the count, is added exactly when there is more
   * than one release.
   */
  lemma SplitPerRelease(nvrs: seq<string>, info: map<string, Release>, fromTag: Option<string>, edited: Option<string>)
    requires forall i :: 0 <= i < |nvrs| ==> nvrs[i] in info
    requires Truthy(fromTag) || forall i :: 0 <= i < |nvrs| ==> info[nvrs[i]].composedByBodhi
    requires !Truthy(edited)
    ensures nvrs == [] ==> Planned(nvrs, info, fromTag, edited) == SaveCrash(UnboundResult)
    ensures nvrs != [] ==> var builds := BuildsOf(nvrs, info);
      var releases := ReleasesOf(builds);
      Planned(nvrs, info, fromTag, edited) ==
        NewDrafts(Drafts(builds, releases, fromTag), if |releases| > 1 then [SplitCaveat(|releases|)] else [])
    ensures nvrs != [] ==> var releases := ReleasesOf(BuildsOf(nvrs, info));
      var caveats := Planned(nvrs, info, fromTag, edited).caveats;
      && (caveats != [] <==> |releases| > 1)
      && (|releases| > 1 ==> caveats == [SplitCaveat(|releases|)])
  {
    NotComposedRefused(nvrs, info, fromTag, edited);
    if nvrs != [] {
      var builds := BuildsOf(nvrs, info);
      assert builds[0].release in ReleasesOf(builds);
    }
  }

  /**
   * Without builds there is no release: an edit fails on `list(releases)[0]` inside the `try`,
   * and a new update reaches the unbound `result` after it.
   */
  lemma NoBuilds(info: map<string, Release>, fromTag: Option<string>, edited: Option<string>)
    ensures Planned([], info, fromTag, edited) ==
      if Truthy(edited) then SaveError(UnableToCreate + IndexError) else SaveCrash(UnboundResult)
  {
    assert ReleasesOf(BuildsOf([], info)) == [];
  }

  /** The drafts of a split are for distinct releases. */
  lemma SplitDraftsDistinct(nvrs: seq<string>, info: map<string, Release>, fromTag: Option<string>)
    requires forall i :: 0 <= i < |nvrs| ==> nvrs[i] in info
    ensures var drafts := Drafts(BuildsOf(nvrs, info), ReleasesOf(BuildsOf(nvrs, info)), fromTag);
      forall i, j :: 0 <= i < j < |drafts| ==> drafts[i].release != drafts[j].release
  {
  }

  /** Every build's release has its draft in a split. */
  lemma SplitDraftsCover(nvrs: seq<string>, info: map<string, Release>, fromTag: Option<string>, i: nat)
    requires forall i :: 0 <= i < |nvrs| ==> nvrs[i] in info
    requires i < |nvrs|
    ensures exists j ::
      && 0 <= j < |ReleasesOf(BuildsOf(nvrs, info))|
      && Drafts(BuildsOf(nvrs, info), ReleasesOf(BuildsOf(nvrs, info)), fromTag)[j].release == info[nvrs[i]]
  {
    var builds := BuildsOf(nvrs, info);
    var releases := ReleasesOf(builds);
    assert builds[i].release == info[nvrs[i]];
    assert info[nvrs[i]] in releases;
    var j :| 0 <= j < |releases| && releases[j] == info[nvrs[i]];
    assert Drafts(builds, releases, fromTag)[j].release == info[nvrs[i]];
  }

  /** Every NVR of a draft in a split is a build of that draft's release. */
  lemma SplitDraftsSound(nvrs: seq<string>, info: map<string, Release>, fromTag: Option<string>)
    requires forall i :: 0 <= i < |nvrs| ==> nvrs[i] in info
    ensures var drafts := Drafts(BuildsOf(nvrs, info), ReleasesOf(BuildsOf(nvrs, info)), fromTag);
      forall j, n :: 0 <= j < |drafts| && n in drafts[j].builds ==>
        exists i :: 0 <= i < |nvrs| && nvrs[i] == n && info[n] == drafts[j].release
  {
    var builds := BuildsOf(nvrs, info);
    var releases := ReleasesOf(builds);
    var drafts := Drafts(builds, releases, fromTag);
    forall j, n | 0 <= j < |drafts| && n in drafts[j].builds
      ensures exists i :: 0 <= i < |nvrs| && nvrs[i] == n && info[n] == drafts[j].release
    {
      assert drafts[j].builds == NvrsFor(builds, releases[j]);
      var i :| 0 <= i < |builds| && builds[i] == Build(n, releases[j]);
      assert nvrs[i] == n;
    }
  }

  /** The first unknown build is the one a left-to-right scan stops at. */
  lemma {:induction false} FirstUnknownAt(nvrs: seq<string>, info: map<string, Release>, i: nat)
    requires i <= |nvrs|
    requires forall j :: 0 <= j < i ==> nvrs[j] in info
    requires i < |nvrs| ==> nvrs[i] !in info
    ensures FirstUnknown(nvrs, info) == i
    decreases i
  {
    if i > 0 {
      FirstUnknownAt(nvrs[1..], info, i - 1);
    }
  }

  /** The NVRs of all drafts, one release after another. */
  function Grouped(builds: seq<Build>, releases: seq<Release>): seq<string> {
    if releases == [] then [] else NvrsFor(builds, releases[0]) + Grouped(builds, releases[1..])
  }

  function BuildNvrs(builds: seq<Build>): (r: seq<string>)
    ensures |r| == |builds| && forall i :: 0 <= i < |builds| ==> r[i] == builds[i].nvr
  {
    seq(|builds|, i requires 0 <= i < |builds| => builds[i].nvr)
  }

  /**
   * The drafts partition the builds: counted with multiplicity, the NVRs of the drafts for the
   * builds' releases are exactly the NVRs asked for.
   */
  lemma DraftsPartitionBuilds(nvrs: seq<string>, info: map<string, Release>)
    requires forall i :: 0 <= i < |nvrs| ==> nvrs[i] in info
    ensures var builds := BuildsOf(nvrs, info);
      multiset(Grouped(builds, ReleasesOf(builds))) == multiset(nvrs)
  {
    var builds := BuildsOf(nvrs, info);
    GroupedPartition(builds, ReleasesOf(builds));
    assert BuildNvrs(builds) == nvrs;
  }

  lemma {:induction false} GroupedPartition(builds: seq<Build>, releases: seq<Release>)
    requires DistinctReleases(releases)
    requires forall i :: 0 <= i < |builds| ==> builds[i].release in releases
    ensures multiset(Grouped(builds, releases)) == multiset(BuildNvrs(builds))
    decreases |builds|
  {
    if builds == [] {
      GroupedNothing(releases);
    } else {
      var init, b := builds[..|builds| - 1], builds[|builds| - 1];
      assert builds == init + [b];
      assert forall i :: 0 <= i < |init| ==> init[i] == builds[i];
      GroupedPartition(init, releases);
      GroupedStep(init, b, releases);
      assert b.release in releases;
      assert BuildNvrs(builds) == BuildNvrs(init) + [b.nvr];
      calc {
        multiset(Grouped(builds, releases));
        multiset(Grouped(init, releases)) + multiset{b.nvr};
        multiset(BuildNvrs(init)) + multiset{b.nvr};
        multiset(BuildNvrs(init) + [b.nvr]);
      }
    }
  }

  /** Without builds every draft is empty. */
  lemma {:induction false} GroupedNothing(releases: seq<Release>)
    ensures Grouped([], releases) == []
  {
    if releases != [] {
      GroupedNothing(releases[1..]);
    }
  }

  /** One more build adds its NVR to the group of its release and to no other. */
  lemma {:induction false} GroupedStep(builds: seq<Build>, b: Build, releases: seq<Release>)
    requires DistinctReleases(releases)
    ensures multiset(Grouped(builds + [b], releases)) ==
      multiset(Grouped(builds, releases)) + if b.release in releases then multiset{b.nvr} else multiset{}
    decreases |releases|
  {
    if releases != [] {
      var more := builds + [b];
      assert more[..|more| - 1] == builds;
      assert DistinctReleases(releases[1..]) by {
        forall i, j | 0 <= i < j < |releases[1..]| ensures releases[1..][i] != releases[1..][j] {
          assert releases[1..][i] == releases[i + 1] && releases[1..][j] == releases[j + 1];
        }
      }
      GroupedStep(builds, b, releases[1..]);
      assert b.release in releases <==> b.release == releases[0] || b.release in releases[1..];
    }
  }

  /** Every NVR of a draft belongs to a build of that draft's release. */
  lemma DraftHoldsItsRelease(builds: seq<Build>, release: Release, n: string)
    requires n in NvrsFor(builds, release)
    ensures exists i :: 0 <= i < |builds| && builds[i].nvr == n && builds[i].release == release
  {
    var i :| 0 <= i < |builds| && builds[i] == Build(n, release);
  }

  // ---------------------------------------------------------------------------
  // trigger_tests
  // ---------------------------------------------------------------------------

  const NotTestingError := "Update is not in testing status"

  /** A message sent to the bus: its class and its body. */
  datatype Publication = Publication(kind: UpdateSchemas.Kind, body: Json)

  datatype TriggerOutcome = TriggerOutcome(errors: seq<string>, published: seq<Publication>)

  /**
   * `trigger_tests`: an update not in testing is an error and nothing is sent; an RPM update in
   * testing sends an UpdateReadyForTestingV2 message built by `update._build_group_test_message`
   * (the `groupMessage` parameter) for the user with `retrigger=True`; any other update in testing
   * sends nothing.
   */
  function TriggerTests(u: Update, user: string, groupMessage: (Update, string, bool) -> Json): (r: TriggerOutcome)
    ensures r.errors == [NotTestingError] <==> u.status != Testing
    ensures r.errors == [] <==> u.status == Testing
    ensures |r.published| <= 1
    ensures |r.published| == 1 <==> u.status == Testing && u.contentType == Rpm
    ensures |r.published| == 1 ==>
      r.published[0] == Publication(UpdateSchemas.ReadyForTestingV2, groupMessage(u, user, true))
  {
    if u.status != Testing then TriggerOutcome([NotTestingError], [])
    else if u.contentType == Rpm then
      TriggerOutcome([], [Publication(UpdateSchemas.ReadyForTestingV2, groupMessage(u, user, true))])
    else TriggerOutcome([], [])
  }

  /** A published test request goes out on the ready-for-testing topic. */
  lemma TriggerTopic(u: Update, user: string, groupMessage: (Update, string, bool) -> Json)
    requires |TriggerTests(u, user, groupMessage).published| == 1
    ensures UpdateSchemas.Topic(TriggerTests(u, user, groupMessage).published[0].kind) ==
      "bodhi.update.status.testing.koji-build-group.build.complete"
  {
  }
}
