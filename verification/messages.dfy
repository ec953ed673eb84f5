/**
 * The values the update messages of bodhi-messages derive from their bodies
 * (`bodhi/messages/schemas/update.py`): the memoised update view, the URL, the affected
 * users and packages, the ownership qualifier, and the `summary` and `__str__` texts.
 *
 * A body lookup that would raise (`KeyError`, a list where a dict is expected, a value of
 * the wrong type) makes the derived value `None`. What the message classes take from modules
 * that are not part of this model (`past_tense`, `truncate`, `BodhiMessage.agent_name`,
 * `BodhiMessage.usernames`, `UpdateV1.packages`) is passed in as an `Env`.
 */
module UpdateMessages {
  import opened Wrappers
  import opened Json
  import opened UpdateSchemas
  import Strings

  // ---------------------------------------------------------------------------
  // The update view (`UpdateV1`, `BuildV1`, `UserV1`, `ReleaseV1`).
  // ---------------------------------------------------------------------------

  datatype BuildView = BuildView(nvr: string)

  /** `UpdateV1(alias, builds, UserV1(user.name), status, request, ReleaseV1(release.name))`. */
  datatype UpdateView = UpdateView(
    alias: string,
    builds: seq<BuildView>,
    owner: string,
    status: string,
    request: Json,
    release: string)

  /** The functions the message classes call but do not define. */
  datatype Env = Env(
    pastTense: string -> string,         // bodhi.messages.utils.past_tense
    truncate: string -> string,          // bodhi.messages.utils.truncate
    agentName: Json -> Option<string>,   // BodhiMessage.agent_name of a body (None is Python None)
    usernames: Json -> seq<string>,      // BodhiMessage.usernames of a body
    packages: UpdateView -> seq<string>) // UpdateV1.packages

  /** `d[key]` where the value must be a string. */
  function GetStr(j: Json, key: string): Option<string> {
    match Get(j, key)
    case Some(Str(s)) => Some(s)
    case _ => None
  }

  /** `d[key]` where the value must be a list. */
  function GetArr(j: Json, key: string): Option<seq<Json>> {
    match Get(j, key)
    case Some(Arr(items)) => Some(items)
    case _ => None
  }

  /** `[BuildV1(b['nvr']) for b in builds]`: one view per build, in order, or an error. */
  function BuildViews(items: seq<Json>): (r: Option<seq<BuildView>>)
    ensures r.Some? ==> |r.value| == |items|
    ensures r.Some? ==> forall i :: 0 <= i < |items| ==> GetStr(items[i], "nvr") == Some(r.value[i].nvr)
    ensures r.None? ==> exists i :: 0 <= i < |items| && GetStr(items[i], "nvr").None?
    decreases |items|
  {
    if items == [] then Some([])
    else
      match GetStr(items[0], "nvr")
      case None => None
      case Some(nvr) =>
        match BuildViews(items[1..])
        case None => None
        case Some(rest) => Some([BuildView(nvr)] + rest)
  }

  /** The update view of an update dictionary. */
  function View(d: Json): Option<UpdateView> {
    var alias :- GetStr(d, "alias");
    var items :- GetArr(d, "builds");
    var builds :- BuildViews(items);
    var user :- Get(d, "user");
    var owner :- GetStr(user, "name");
    var status :- GetStr(d, "status");
    var request :- Get(d, "request");
    var release :- Get(d, "release");
    var releaseName :- GetStr(release, "name");
    Some(UpdateView(alias, builds, owner, status, request, releaseName))
  }

  /** `_update`: the comment message carries the update inside its comment. */
  function UpdateDict(k: Kind, body: Json): Option<Json> {
    if k == Comment then GetPath(body, ["comment", "update"]) else Get(body, "update")
  }

  function UpdateOf(k: Kind, body: Json): Option<UpdateView> {
    var d :- UpdateDict(k, body);
    View(d)
  }

  function Nvrs(u: UpdateView): (r: seq<string>)
    ensures |r| == |u.builds| && forall i :: 0 <= i < |r| ==> r[i] == u.builds[i].nvr
  {
    seq(|u.builds|, i requires 0 <= i < |u.builds| => u.builds[i].nvr)
  }

  // ---------------------------------------------------------------------------
  // The message object: `update` is computed on first use and kept in `_update_obj`.
  // ---------------------------------------------------------------------------

  class UpdateMessage {
    const kind: Kind
    const body: Json
    var updateObj: Option<UpdateView>  // `_update_obj`; None until it has been set

    /** The cached view, once there is one, is the view of the body. */
    ghost predicate Valid()
      reads this
    {
      kind.IsUpdateMessage() && (updateObj.Some? ==> updateObj == UpdateOf(kind, body))
    }

    constructor(kind: Kind, body: Json)
      requires kind.IsUpdateMessage()
      ensures Valid() && this.kind == kind && this.body == body && updateObj == None
    {
      this.kind := kind;
      this.body := body;
      updateObj := None;
    }

    /**
     * The `update` property. The result is always the view of the body, so the cache is
     * invisible; a view, once cached, is never replaced, and a body without a well-formed
     * update leaves the cache empty (the property raises).
     */
    method Update() returns (r: Option<UpdateView>)
      requires Valid()
      modifies this
      ensures Valid()
      ensures r == UpdateOf(kind, body)
      ensures updateObj == r
      ensures old(updateObj).Some? ==> updateObj == old(updateObj)
    {
      if updateObj.None? {
        var d := UpdateDict(kind, body);
        if d.None? {
          return None;
        }
        var v := View(d.value);
        if v.None? {
          return None;
        }
        updateObj := v;
      }
      r := updateObj;
    }

    /**
     * `UpdateMessage.usernames`: the base list, with the update's owner appended when it is
     * not already there, sorted. The result is sorted, holds the owner, is the base list plus
     * at most that one name, and has no duplicate when the base list has none.
     */
    method Usernames(env: Env) returns (r: Option<seq<string>>)
      requires Valid()
      modifies this
      ensures Valid() && updateObj == UpdateOf(kind, body)
      ensures r.Some? <==> UpdateOf(kind, body).Some?
      ensures r.Some? ==>
        var base, owner := env.usernames(body), UpdateOf(kind, body).value.owner;
        && Strings.Sorted(r.value)
        && owner in r.value
        && multiset(r.value) == multiset(base) + (if owner in base then multiset{} else multiset{owner})
        && |r.value| <= |base| + 1
        && (Strings.NoDup(base) ==> Strings.NoDup(r.value))
    {
      var u := Update();
      if u.None? {
        return None;
      }
      var names := env.usernames(body);
      var owner := u.value.owner;
      if owner !in names {
        names := names + [owner];
      }
      assert owner in names;
      ghost var unsorted := names;
      names := Strings.Sort(names);
      Strings.SortSorts(unsorted);
      assert owner in multiset(names);
      if Strings.NoDup(env.usernames(body)) {
        assert Strings.NoDup(unsorted) by {
          forall i, j | 0 <= i < j < |unsorted| ensures unsorted[i] != unsorted[j] {
            if j == |unsorted| - 1 && unsorted != env.usernames(body) {
              assert unsorted[i] in env.usernames(body);
            }
          }
        }
        Strings.PermutationNoDup(unsorted, names);
      }
      r := Some(names);
    }

    /** `UpdateMessage.packages`: the packages of the update view. */
    method Packages(env: Env) returns (r: Option<seq<string>>)
      requires Valid()
      modifies this
      ensures Valid() && updateObj == UpdateOf(kind, body)
      ensures r.Some? <==> UpdateOf(kind, body).Some?
      ensures r.Some? ==> r.value == env.packages(UpdateOf(kind, body).value)
    {
      var u := Update();
      if u.None? {
        return None;
      }
      r := Some(env.packages(u.value));
    }
  }

  // ---------------------------------------------------------------------------
  // Derived values.
  // ---------------------------------------------------------------------------

  const UpdatesUrl := "https://bodhi.fedoraproject.org/updates/"

  /** The `url` property: the update's page, named by its alias (the artifact id for ready-for-testing). */
  function Url(k: Kind, body: Json): (r: Option<string>)
    ensures k.IsUpdateMessage() ==> (r.Some? <==> UpdateOf(k, body).Some?)
    ensures r.Some? ==> UpdatesUrl <= r.value
    ensures r.Some? && k.IsUpdateMessage() ==> r.value[|UpdatesUrl|..] == UpdateOf(k, body).value.alias
    ensures r.Some? && !k.IsUpdateMessage() ==> Some(Str(r.value[|UpdatesUrl|..])) == GetPath(body, ["artifact", "id"])
  {
    if k.IsUpdateMessage() then
      var u :- UpdateOf(k, body);
      Some(UpdatesUrl + u.alias)
    else
      match GetPath(body, ["artifact", "id"])
      case Some(Str(id)) => Some(UpdatesUrl + id)
      case _ => None
  }

  /** Two update messages with the same URL are about updates with the same alias. */
  lemma UrlIdentifiesUpdate(k1: Kind, body1: Json, k2: Kind, body2: Json)
    requires k1.IsUpdateMessage() && k2.IsUpdateMessage()
    requires Url(k1, body1).Some? && Url(k1, body1) == Url(k2, body2)
    ensures UpdateOf(k1, body1).value.alias == UpdateOf(k2, body2).value.alias
  {
  }

  /** `_owner_qual`: "their" exactly when the agent is the owner, the owner's possessive otherwise. */
  function OwnerQual(agent: Option<string>, owner: string): (r: string)
    ensures r == "their" <==> agent == Some(owner)
    ensures r != "their" ==> r == owner + "'s"
  {
    if agent == Some(owner) then "their"
    else
      assert |owner + "'s"| >= 2 && (owner + "'s")[|owner + "'s"| - 1] == 's';
      owner + "'s"
  }

  /** `f"{x}"` of an optional string: Python prints `None` for a missing agent. */
  function Show(x: Option<string>): string {
    if x.Some? then x.value else "None"
  }

  /** `_builds_summary`. */
  function BuildsSummary(env: Env, u: UpdateView): string {
    env.truncate(Strings.Join(" ", Nvrs(u)))
  }

  /** The build lines of `__str__`: `"\n".join(nvrs)`. */
  function BuildLines(nvrs: seq<string>): string {
    Strings.Join("\n", nvrs)
  }

  predicate IsPastTense(status: string) {
    status in ["unpush", "obsolete", "revoke"]
  }

  /** The verb of a request message. */
  function RequestAction(env: Env, status: string): string {
    if IsPastTense(status) then env.pastTense(status) else "submitted"
  }

  /** `len(body[key])` for a list. */
  function CountOf(body: Json, key: string): Option<string> {
    var items :- GetArr(body, key);
    Some(Strings.IntToString(|items|))
  }

  /** The ready-for-testing builds: `body['artifact']['builds']`. */
  function ArtifactBuilds(body: Json): Option<seq<Json>> {
    var artifact :- Get(body, "artifact");
    GetArr(artifact, "builds")
  }

  /** `[b[key] for b in builds]`, each a string. */
  function Fields(items: seq<Json>, key: string): (r: Option<seq<string>>)
    ensures r.Some? ==> |r.value| == |items|
    ensures r.Some? ==> forall i :: 0 <= i < |items| ==> GetStr(items[i], key) == Some(r.value[i])
    ensures r.None? ==> exists i :: 0 <= i < |items| && GetStr(items[i], key).None?
    decreases |items|
  {
    if items == [] then Some([])
    else
      match GetStr(items[0], key)
      case None => None
      case Some(x) =>
        match Fields(items[1..], key)
        case None => None
        case Some(rest) => Some([x] + rest)
  }

  /** Whose update a ready-for-testing message is about: the contact (V1) or the update's owner (V2). */
  function ReadyOwner(k: Kind, body: Json): Option<string> {
    if k == ReadyForTestingV2 then
      var u :- Get(body, "update");
      var user :- Get(u, "user");
      GetStr(user, "name")
    else
      var contact :- Get(body, "contact");
      GetStr(contact, "name")
  }

  const ReadyText := " bodhi update is ready for testing"
  const ReadyStrText := "'s Bodhi update is ready for testing"
  const PushText := " bodhi update completed push to "
  const MetText := " has met stable testing requirements"
  const MetSummaryTail := " bodhi update has met stable testing requirements"
  const BuildsHeading := "\nBuilds:\n"

  /**
   * The `summary` property of each message class. A summary exists only when what its template
   * reads does: the update view (or, for the ready-for-testing pair, the owner and the artifact's
   * builds). Every class whose template reads nothing else from the body has one as soon as the
   * update view exists.
   */
  function Summary(k: Kind, body: Json, env: Env): (r: Option<string>)
    ensures k.IsUpdateMessage() && r.Some? ==> UpdateOf(k, body).Some?
    ensures !k.IsUpdateMessage() && r.Some? ==> ReadyOwner(k, body).Some? && ArtifactBuilds(body).Some?
    ensures k.IsUpdateMessage() && !k.Comment? && !k.Eject? && !k.KarmaThreshold? ==>
      (r.Some? <==> UpdateOf(k, body).Some?)
  {
    if !k.IsUpdateMessage() then
      var owner :- ReadyOwner(k, body);
      var items :- ArtifactBuilds(body);
      var nvrs :- Fields(items, "nvr");
      Some(owner + "'s " + env.truncate(Strings.Join(" ", nvrs)) + ReadyText)
    else
      var u :- UpdateOf(k, body);
      var builds := BuildsSummary(env, u);
      match k
      case Comment =>
        var user :- GetPath(body, ["comment", "user", "name"]);
        var karma :- GetPath(body, ["comment", "karma"]);
        if user.Str? && karma.Num? then
          Some(user.s + " commented on update " + builds + " (karma: " + Strings.IntToString(karma.n) + ")")
        else None
      case CompleteStable => Some(u.owner + "'s " + builds + PushText + u.status)
      case CompleteTesting => Some(u.owner + "'s " + builds + PushText + u.status)
      case Eject =>
        var repo :- GetStr(body, "repo");
        var reason :- GetStr(body, "reason");
        Some(u.owner + "'s " + builds + " bodhi update was ejected from the " + repo +
             " mash. Reason: \"" + reason + "\"")
      case KarmaThreshold =>
        var status :- GetStr(body, "status");
        Some(u.owner + "'s " + builds + " bodhi update has reached the " + status + " karma threshold")
      case RequirementsMetStable => Some(u.owner + "'s " + builds + MetSummaryTail)
      case _ =>
        var agent := env.agentName(body);
        var qual := OwnerQual(agent, u.owner);
        if k.IsRequest() then
          var status := RequestStatus(k);
          if IsPastTense(status) then
            Some(Show(agent) + " " + env.pastTense(status) + " " + qual + " update " + u.alias +
                 " (" + builds + ")")
          else
            Some(Show(agent) + " submitted " + qual + " update " + u.alias + " (" + builds + ") to " + status)
        else  // the edit messages
          Some(Show(agent) + " edited " + qual + " update " + u.alias + " (" + builds + ")")
  }

  /**
   * The `__str__` of each message class (the eject message keeps the base class's: its summary).
   * A text exists only when the update view does (for the ready-for-testing pair, the owner and
   * the artifact's builds); the request, completed-push and requirements texts exist as soon as
   * the view does, and the eject text exactly when the eject summary does.
   */
  function Text(k: Kind, body: Json, env: Env): (r: Option<string>)
    ensures k.IsUpdateMessage() && r.Some? ==> UpdateOf(k, body).Some?
    ensures !k.IsUpdateMessage() && r.Some? ==> ReadyOwner(k, body).Some? && ArtifactBuilds(body).Some?
    ensures k.IsRequest() || k.CompleteStable? || k.CompleteTesting? || k.RequirementsMetStable? ==>
      (r.Some? <==> UpdateOf(k, body).Some?)
    ensures k.Eject? ==> r == Summary(k, body, env)
  {
    if !k.IsUpdateMessage() then
      var owner :- ReadyOwner(k, body);
      var items :- ArtifactBuilds(body);
      var nvrs :- Fields(items, "nvr");
      Some(owner + ReadyStrText + BuildsHeading + BuildLines(nvrs) + " ")
    else
      var u :- UpdateOf(k, body);
      var lines := BuildLines(Nvrs(u));
      if k.IsRequest() then Some(RequestText(k, env, body, u))
      else match k
      case Eject => Summary(k, body, env)
      case Comment =>
        var user :- GetPath(body, ["comment", "user", "name"]);
        var karma :- GetPath(body, ["comment", "karma"]);
        var text :- GetPath(body, ["comment", "text"]);
        if user.Str? && karma.Num? && text.Str? then
          Some(user.s + " commented on " + u.owner + "'s update " + u.alias + " with karma " +
               Strings.IntToString(karma.n) + ":\n\n" + text.s + "\n" + BuildsHeading + lines)
        else None
      case CompleteStable =>
        Some(u.owner + "'s Bodhi update " + u.alias + " completed push to " + u.status + BuildsHeading + lines + " ")
      case CompleteTesting =>
        Some(u.owner + "'s Bodhi update " + u.alias + " completed push to " + u.status + BuildsHeading + lines + " ")
      case KarmaThreshold =>
        var status :- GetStr(body, "status");
        Some(u.owner + "'s bodhi update " + u.alias + " has reached the " + status + " karma threshold." +
             BuildsHeading + lines)
      case RequirementsMetStable =>
        Some(u.owner + "'s Bodhi update " + u.alias + MetText + "." + BuildsHeading + lines)
      case EditV1 =>
        var bugs :- CountOf(body, "new_bugs");
        Some(Show(env.agentName(body)) + " edited " + u.alias + " adding " + bugs + " new bugs")
      case EditV2 =>
        var bugs :- CountOf(body, "new_bugs");
        var added :- CountOf(body, "new_builds");
        var removed :- CountOf(body, "removed_builds");
        Some(Show(env.agentName(body)) + " edited " + u.alias + " adding " + bugs + " new bug(s), adding " +
             added + " build(s), and removing " + removed + " build(s)")
      case _ => None  // the request and ready-for-testing classes are handled above
  }

  /** `UpdateRequestMessage.__str__`: " to <status>" is added when the verb is "submitted". */
  function RequestText(k: Kind, env: Env, body: Json, u: UpdateView): string
    requires k.IsRequest()
  {
    var agent := env.agentName(body);
    var status := RequestStatus(k);
    var action := RequestAction(env, status);
    var head := Show(agent) + " " + action + " " + OwnerQual(agent, u.owner) + " update " + u.alias;
    if action == "submitted" then head + " to " + status + "." + BuildsHeading + BuildLines(Nvrs(u))
    else head + "." + BuildsHeading + BuildLines(Nvrs(u))
  }

  // ---------------------------------------------------------------------------
  // The ready-for-testing messages (derived from BodhiMessage, not UpdateMessage).
  // ---------------------------------------------------------------------------

  /**
   * `UpdateReadyForTestingV1.agent_name`, `body.get('agent', None)`: Python's None when the body
   * has no agent or a null one, the body's value otherwise.
   */
  function ReadyAgentName(body: Json): (r: Option<Json>)
    ensures r.None? <==> Get(body, "agent").None? || Get(body, "agent") == Some(Null)
    ensures r.Some? ==> Get(body, "agent") == r
  {
    match Get(body, "agent")
    case Some(Null) => None
    case other => other
  }

  /**
   * The agent the ready-for-testing usernames add (`if self.agent_name:`): nothing for a falsy
   * agent, whatever its type; the name for a truthy string. A truthy agent of another type is
   * an error, as usernames here are strings.
   */
  function ReadyAgentUser(body: Json): Option<seq<string>> {
    match ReadyAgentName(body)
    case None => Some([])
    case Some(a) =>
      if !IsTruthy(a) then Some([])
      else if a.Str? then Some([a.s])
      else None
  }

  /**
   * `UpdateReadyForTestingV1.usernames`: the set of build issuers, with the agent when it is
   * truthy, sorted. The result is sorted, has no duplicate, and holds exactly the issuers and
   * that agent.
   */
  function ReadyUsernames(body: Json): (r: Option<seq<string>>)
    ensures r.Some? ==> ArtifactBuilds(body).Some?
    ensures r.Some? ==> Strings.Sorted(r.value) && Strings.NoDup(r.value)
    ensures r.Some? ==> forall x ::
      x in r.value <==>
        (exists i :: 0 <= i < |ArtifactBuilds(body).value| && GetStr(ArtifactBuilds(body).value[i], "issuer") == Some(x))
        || (ReadyAgentName(body) == Some(Str(x)) && x != "")
    ensures ArtifactBuilds(body).Some? && Fields(ArtifactBuilds(body).value, "issuer").Some? ==>
      (r.Some? <==> ReadyAgentName(body).None? || !IsTruthy(ReadyAgentName(body).value) || ReadyAgentName(body).value.Str?)
  {
    var items :- ArtifactBuilds(body);
    var issuers :- Fields(items, "issuer");
    var agent :- ReadyAgentUser(body);
    Strings.SortedSetSpec(issuers + agent);
    assert forall x :: x in issuers <==> exists i :: 0 <= i < |items| && GetStr(items[i], "issuer") == Some(x) by {
      forall x | x in issuers ensures exists i :: 0 <= i < |items| && GetStr(items[i], "issuer") == Some(x) {
        var i :| 0 <= i < |issuers| && issuers[i] == x;
        assert GetStr(items[i], "issuer") == Some(x);
      }
    }
    Some(Strings.SortedSet(issuers + agent))
  }

  /**
   * `UpdateReadyForTestingV1.packages`: the set of build components, sorted; sorted, without
   * duplicates, and holding exactly the components.
   */
  function ReadyPackages(body: Json): (r: Option<seq<string>>)
    ensures r.Some? ==> ArtifactBuilds(body).Some?
    ensures r.Some? ==> Strings.Sorted(r.value) && Strings.NoDup(r.value)
    ensures r.Some? ==> forall x ::
      x in r.value <==>
        exists i :: 0 <= i < |ArtifactBuilds(body).value| && GetStr(ArtifactBuilds(body).value[i], "component") == Some(x)
  {
    var items :- ArtifactBuilds(body);
    var components :- Fields(items, "component");
    Strings.SortedSetSpec(components);
    assert forall x :: x in components <==> exists i :: 0 <= i < |items| && GetStr(items[i], "component") == Some(x) by {
      forall x | x in components ensures exists i :: 0 <= i < |items| && GetStr(items[i], "component") == Some(x) {
        var i :| 0 <= i < |components| && components[i] == x;
        assert GetStr(items[i], "component") == Some(x);
      }
    }
    Some(Strings.SortedSet(components))
  }

  // ---------------------------------------------------------------------------
  // Properties of the texts.
  // ---------------------------------------------------------------------------

  /** Only the stable and testing requests read "submitted ... to <status>". */
  lemma RequestWording(k: Kind)
    requires k.IsRequest()
    ensures !IsPastTense(RequestStatus(k)) <==> k.RequestStable? || k.RequestTesting?
  {
  }

  /**
   * A stable or testing request is worded "<agent> submitted <owner qualifier> update <alias>
   * (<builds>) to <status>", the status being the topic's last part.
   */
  lemma SubmittedSummary(k: Kind, body: Json, env: Env)
    requires k.RequestStable? || k.RequestTesting?
    requires UpdateOf(k, body).Some?
    ensures var u, agent := UpdateOf(k, body).value, env.agentName(body);
      Summary(k, body, env) == Some(Show(agent) + " submitted " + OwnerQual(agent, u.owner) + " update " +
        u.alias + " (" + BuildsSummary(env, u) + ") to " + (if k.RequestStable? then "stable" else "testing"))
  {
    RequestWording(k);
  }

  /**
   * A revoke, unpush or obsolete request is worded with the past tense of its status and has
   * no " to <status>" part: "<agent> <past tense> <owner qualifier> update <alias> (<builds>)".
   */
  lemma PastTenseSummary(k: Kind, body: Json, env: Env)
    requires k.RequestRevoke? || k.RequestUnpush? || k.RequestObsolete?
    requires UpdateOf(k, body).Some?
    ensures var u, agent := UpdateOf(k, body).value, env.agentName(body);
      var status := if k.RequestRevoke? then "revoke" else if k.RequestUnpush? then "unpush" else "obsolete";
      Summary(k, body, env) == Some(Show(agent) + " " + env.pastTense(status) + " " + OwnerQual(agent, u.owner) +
        " update " + u.alias + " (" + BuildsSummary(env, u) + ")")
  {
    RequestWording(k);
  }

  /** alice asks for testing of bob's update: "alice submitted bob's update <alias> (<builds>) to testing". */
  lemma AliceRequestsTesting(body: Json, env: Env, u: UpdateView)
    requires UpdateOf(RequestTesting, body) == Some(u) && u.owner == "bob"
    requires env.agentName(body) == Some("alice")
    ensures Summary(RequestTesting, body, env) ==
      Some("alice" + " submitted " + "bob's" + " update " + u.alias + " (" + BuildsSummary(env, u) + ") to " + "testing")
  {
    SubmittedSummary(RequestTesting, body, env);
    assert OwnerQual(Some("alice"), "bob") == "bob's";
  }

  /** An owner who revokes their own update is "their" update's agent. */
  lemma OwnerRevokes(body: Json, env: Env, u: UpdateView)
    requires UpdateOf(RequestRevoke, body) == Some(u)
    requires env.agentName(body) == Some(u.owner)
    ensures Summary(RequestRevoke, body, env) ==
      Some(u.owner + " " + env.pastTense("revoke") + " their update " + u.alias + " (" + BuildsSummary(env, u) + ")")
  {
    PastTenseSummary(RequestRevoke, body, env);
    assert OwnerQual(Some(u.owner), u.owner) == "their";
    var x := u.owner + " " + env.pastTense("revoke");
    assert x + " " + "their" + " update " == x + " their update ";
  }

  /**
   * The detailed text of a request message: " to <status>" follows the owner qualifier and alias
   * exactly when the verb is "submitted", then the builds one per line.
   */
  lemma RequestTextWording(k: Kind, body: Json, env: Env)
    requires k.IsRequest() && UpdateOf(k, body).Some?
    ensures var u, agent, status := UpdateOf(k, body).value, env.agentName(body), RequestStatus(k);
      var action := RequestAction(env, status);
      var head := Show(agent) + " " + action + " " + OwnerQual(agent, u.owner) + " update " + u.alias;
      && (action == "submitted" ==> Text(k, body, env) == Some(head + " to " + status + "." + BuildsHeading + BuildLines(Nvrs(u))))
      && (action != "submitted" ==> Text(k, body, env) == Some(head + "." + BuildsHeading + BuildLines(Nvrs(u))))
      && ((k.RequestStable? || k.RequestTesting?) ==> action == "submitted")
  {
    RequestWording(k);
  }

  /**
   * The detailed text of every message that lists its builds ends with a "Builds:" heading and
   * the builds' NVRs one per line (the completed-push texts add a space).
   */
  lemma TextListsBuilds(k: Kind, body: Json, env: Env)
    requires k.IsUpdateMessage() && !k.Eject? && !k.EditV1? && !k.EditV2?
    requires Text(k, body, env).Some?
    ensures UpdateOf(k, body).Some?
    ensures var tail := if k.CompleteStable? || k.CompleteTesting? then " " else "";
      Strings.EndsWith(Text(k, body, env).value, BuildsHeading + BuildLines(Nvrs(UpdateOf(k, body).value)) + tail)
  {
    if k.IsRequest() {
      RequestTextListsBuilds(k, body, env);
    } else if k.Comment? {
      CommentTextListsBuilds(body, env);
    } else {
      OwnerTextListsBuilds(k, body, env);
    }
  }

  lemma CommentTextListsBuilds(body: Json, env: Env)
    requires Text(Comment, body, env).Some?
    ensures UpdateOf(Comment, body).Some?
    ensures Strings.EndsWith(Text(Comment, body, env).value, BuildsHeading + BuildLines(Nvrs(UpdateOf(Comment, body).value)) + "")
  {
    var u := UpdateOf(Comment, body).value;
    var user, karma, text := GetPath(body, ["comment", "user", "name"]).value,
      GetPath(body, ["comment", "karma"]).value, GetPath(body, ["comment", "text"]).value;
    var head := user.s + " commented on " + u.owner + "'s update " + u.alias + " with karma " +
      Strings.IntToString(karma.n) + ":\n\n" + text.s + "\n";
    var tail := BuildsHeading + BuildLines(Nvrs(u));
    assert Text(Comment, body, env).value == head + tail;
    assert tail + "" == tail;
    Strings.EndsWithConcat(head, tail);
  }

  /** The texts that start with the owner: completed push (with a trailing space), karma and requirements. */
  lemma OwnerTextListsBuilds(k: Kind, body: Json, env: Env)
    requires k.CompleteStable? || k.CompleteTesting? || k.KarmaThreshold? || k.RequirementsMetStable?
    requires Text(k, body, env).Some?
    ensures UpdateOf(k, body).Some?
    ensures var tail := if k.CompleteStable? || k.CompleteTesting? then " " else "";
      Strings.EndsWith(Text(k, body, env).value, BuildsHeading + BuildLines(Nvrs(UpdateOf(k, body).value)) + tail)
  {
    var u := UpdateOf(k, body).value;
    var lines := BuildsHeading + BuildLines(Nvrs(u));
    if k.CompleteStable? || k.CompleteTesting? {
      var head := u.owner + "'s Bodhi update " + u.alias + " completed push to " + u.status;
      PushTextIs(k, body, env, head);
      Strings.EndsWithConcat(head, lines + " ");
    } else {
      var head;
      if k.KarmaThreshold? {
        head := u.owner + "'s bodhi update " + u.alias + " has reached the " + GetStr(body, "status").value +
          " karma threshold.";
        KarmaTextIs(body, env, head);
      } else {
        head := u.owner + "'s Bodhi update " + u.alias + MetText + ".";
        MetTextIs(body, env, head);
      }
      Strings.EndsWithConcat(head, lines);
      assert lines + "" == lines;
    }
  }

  lemma PushTextIs(k: Kind, body: Json, env: Env, head: string)
    requires k.CompleteStable? || k.CompleteTesting?
    requires UpdateOf(k, body).Some?
    requires var u := UpdateOf(k, body).value; head == u.owner + "'s Bodhi update " + u.alias + " completed push to " + u.status
    ensures Text(k, body, env) == Some(head + (BuildsHeading + BuildLines(Nvrs(UpdateOf(k, body).value)) + " "))
  {
    var lines := BuildLines(Nvrs(UpdateOf(k, body).value));
    assert Text(k, body, env) == Some(head + BuildsHeading + lines + " ");
    assert head + BuildsHeading + lines + " " == head + (BuildsHeading + lines + " ");
  }

  lemma KarmaTextIs(body: Json, env: Env, head: string)
    requires UpdateOf(KarmaThreshold, body).Some? && GetStr(body, "status").Some?
    requires var u := UpdateOf(KarmaThreshold, body).value;
      head == u.owner + "'s bodhi update " + u.alias + " has reached the " + GetStr(body, "status").value + " karma threshold."
    ensures Text(KarmaThreshold, body, env) == Some(head + (BuildsHeading + BuildLines(Nvrs(UpdateOf(KarmaThreshold, body).value))))
  {
    var u := UpdateOf(KarmaThreshold, body).value;
    var lines := BuildLines(Nvrs(u));
    var status := GetStr(body, "status").value;
    assert Text(KarmaThreshold, body, env) ==
      Some(u.owner + "'s bodhi update " + u.alias + " has reached the " + status + " karma threshold." +
           BuildsHeading + lines);
    assert head + BuildsHeading + lines == head + (BuildsHeading + lines);
  }

  lemma MetTextIs(body: Json, env: Env, head: string)
    requires UpdateOf(RequirementsMetStable, body).Some?
    requires var u := UpdateOf(RequirementsMetStable, body).value; head == u.owner + "'s Bodhi update " + u.alias + MetText + "."
    ensures Text(RequirementsMetStable, body, env) ==
      Some(head + (BuildsHeading + BuildLines(Nvrs(UpdateOf(RequirementsMetStable, body).value))))
  {
    var lines := BuildLines(Nvrs(UpdateOf(RequirementsMetStable, body).value));
    assert Text(RequirementsMetStable, body, env) == Some(head + BuildsHeading + lines);
    assert head + BuildsHeading + lines == head + (BuildsHeading + lines);
  }

  /** A request's detailed text ends with the "Builds:" heading and the builds' NVRs one per line. */
  lemma RequestTextListsBuilds(k: Kind, body: Json, env: Env)
    requires k.IsRequest() && UpdateOf(k, body).Some?
    ensures Text(k, body, env).Some?
    ensures Strings.EndsWith(Text(k, body, env).value, BuildsHeading + BuildLines(Nvrs(UpdateOf(k, body).value)) + "")
  {
    var u := UpdateOf(k, body).value;
    assert Text(k, body, env) == Some(RequestText(k, env, body, u));
    RequestTextEnds(k, env, body, u);
  }

  lemma RequestTextEnds(k: Kind, env: Env, body: Json, u: UpdateView)
    requires k.IsRequest()
    ensures Strings.EndsWith(RequestText(k, env, body, u), BuildsHeading + BuildLines(Nvrs(u)) + "")
  {
    var agent, status := env.agentName(body), RequestStatus(k);
    var action := RequestAction(env, status);
    var head := Show(agent) + " " + action + " " + OwnerQual(agent, u.owner) + " update " + u.alias;
    var tail := BuildsHeading + BuildLines(Nvrs(u));
    if action == "submitted" {
      assert RequestText(k, env, body, u) == (head + " to " + status + ".") + tail;
      Strings.EndsWithConcat(head + " to " + status + ".", tail);
    } else {
      assert RequestText(k, env, body, u) == (head + ".") + tail;
      Strings.EndsWithConcat(head + ".", tail);
    }
    assert tail + "" == tail;
  }

  /** The build lines read back, split at newlines, as the builds' NVRs. */
  lemma BuildLinesReadBack(nvrs: seq<string>)
    requires |nvrs| > 0 && forall i :: 0 <= i < |nvrs| ==> '\n' !in nvrs[i]
    ensures Strings.Split(BuildLines(nvrs), '\n') == nvrs
  {
    Strings.SplitJoin(nvrs, '\n');
  }

  /** Every update message's summary shows its (truncated) builds summary. */
  lemma SummaryShowsBuilds(k: Kind, body: Json, env: Env)
    requires k.IsUpdateMessage() && Summary(k, body, env).Some?
    ensures UpdateOf(k, body).Some?
    ensures Strings.Contains(Summary(k, body, env).value, BuildsSummary(env, UpdateOf(k, body).value))
  {
    if k.Comment? {
      CommentSummaryShowsBuilds(body, env);
    } else if k.IsRequest() || k.EditV1? || k.EditV2? {
      AgentSummaryShowsBuilds(k, body, env);
    } else {
      OwnerSummaryShowsBuilds(k, body, env);
    }
  }

  lemma CommentSummaryShowsBuilds(body: Json, env: Env)
    requires Summary(Comment, body, env).Some?
    ensures UpdateOf(Comment, body).Some?
    ensures Strings.Contains(Summary(Comment, body, env).value, BuildsSummary(env, UpdateOf(Comment, body).value))
  {
    var u := UpdateOf(Comment, body).value;
    var user, karma := GetPath(body, ["comment", "user", "name"]).value, GetPath(body, ["comment", "karma"]).value;
    var before, after := user.s + " commented on update ", " (karma: " + Strings.IntToString(karma.n) + ")";
    CommentSummaryIs(body, env, before, after);
    Strings.ContainsMiddle(before, BuildsSummary(env, u), after);
  }

  lemma CommentSummaryIs(body: Json, env: Env, before: string, after: string)
    requires Summary(Comment, body, env).Some?
    requires var user, karma := GetPath(body, ["comment", "user", "name"]), GetPath(body, ["comment", "karma"]);
      && user.Some? && user.value.Str? && karma.Some? && karma.value.Num?
      && before == user.value.s + " commented on update "
      && after == " (karma: " + Strings.IntToString(karma.value.n) + ")"
    ensures UpdateOf(Comment, body).Some?
    ensures Summary(Comment, body, env).value == before + BuildsSummary(env, UpdateOf(Comment, body).value) + after
  {
  }

  /** The summaries that start with the agent: the edit and request messages. */
  lemma AgentSummaryShowsBuilds(k: Kind, body: Json, env: Env)
    requires k.IsRequest() || k.EditV1? || k.EditV2?
    requires Summary(k, body, env).Some?
    ensures UpdateOf(k, body).Some?
    ensures Strings.Contains(Summary(k, body, env).value, BuildsSummary(env, UpdateOf(k, body).value))
  {
    var u := UpdateOf(k, body).value;
    var builds := BuildsSummary(env, u);
    var agent := env.agentName(body);
    var qual := OwnerQual(agent, u.owner);
    if !k.IsRequest() {
      var before := Show(agent) + " edited " + qual + " update " + u.alias + " (";
      assert Summary(k, body, env).value == before + builds + ")";
      Strings.ContainsMiddle(before, builds, ")");
    } else if IsPastTense(RequestStatus(k)) {
      var before := Show(agent) + " " + env.pastTense(RequestStatus(k)) + " " + qual + " update " + u.alias + " (";
      assert Summary(k, body, env).value == before + builds + ")";
      Strings.ContainsMiddle(before, builds, ")");
    } else {
      var before := Show(agent) + " submitted " + qual + " update " + u.alias + " (";
      assert Summary(k, body, env).value == before + builds + ") to " + RequestStatus(k);
      Strings.ContainsMiddle(before, builds, ") to ");
      Strings.ContainsAppend(before + builds + ") to ", builds, RequestStatus(k));
    }
  }

  /** The summaries that start with the owner: completed push, eject, karma and requirements. */
  lemma OwnerSummaryShowsBuilds(k: Kind, body: Json, env: Env)
    requires k.CompleteStable? || k.CompleteTesting? || k.Eject? || k.KarmaThreshold? || k.RequirementsMetStable?
    requires Summary(k, body, env).Some?
    ensures UpdateOf(k, body).Some?
    ensures Strings.Contains(Summary(k, body, env).value, BuildsSummary(env, UpdateOf(k, body).value))
  {
    if k.CompleteStable? || k.CompleteTesting? {
      PushSummaryShowsBuilds(k, body, env);
    } else if k.Eject? {
      EjectSummaryShowsBuilds(body, env);
    } else if k.KarmaThreshold? {
      KarmaSummaryShowsBuilds(body, env);
    } else {
      MetSummaryShowsBuilds(body, env);
    }
  }

  lemma PushSummaryShowsBuilds(k: Kind, body: Json, env: Env)
    requires k.CompleteStable? || k.CompleteTesting?
    requires Summary(k, body, env).Some?
    ensures UpdateOf(k, body).Some?
    ensures Strings.Contains(Summary(k, body, env).value, BuildsSummary(env, UpdateOf(k, body).value))
  {
    var u := UpdateOf(k, body).value;
    var after := PushText + u.status;
    assert Summary(k, body, env).value == u.owner + "'s " + BuildsSummary(env, u) + after;
    Strings.ContainsMiddle(u.owner + "'s ", BuildsSummary(env, u), after);
  }

  lemma EjectSummaryShowsBuilds(body: Json, env: Env)
    requires Summary(Eject, body, env).Some?
    ensures UpdateOf(Eject, body).Some?
    ensures Strings.Contains(Summary(Eject, body, env).value, BuildsSummary(env, UpdateOf(Eject, body).value))
  {
    var u := UpdateOf(Eject, body).value;
    var repo, reason := GetStr(body, "repo").value, GetStr(body, "reason").value;
    var head := u.owner + "'s " + BuildsSummary(env, u) + " bodhi update was ejected from the ";
    Strings.ContainsMiddle(u.owner + "'s ", BuildsSummary(env, u), " bodhi update was ejected from the ");
    Strings.ContainsAppend(head, BuildsSummary(env, u), repo);
    Strings.ContainsAppend(head + repo, BuildsSummary(env, u), " mash. Reason: \"");
    Strings.ContainsAppend(head + repo + " mash. Reason: \"", BuildsSummary(env, u), reason);
    Strings.ContainsAppend(head + repo + " mash. Reason: \"" + reason, BuildsSummary(env, u), "\"");
    assert Summary(Eject, body, env).value == head + repo + " mash. Reason: \"" + reason + "\"";
  }

  lemma KarmaSummaryShowsBuilds(body: Json, env: Env)
    requires Summary(KarmaThreshold, body, env).Some?
    ensures UpdateOf(KarmaThreshold, body).Some?
    ensures Strings.Contains(Summary(KarmaThreshold, body, env).value,
                             BuildsSummary(env, UpdateOf(KarmaThreshold, body).value))
  {
    var u := UpdateOf(KarmaThreshold, body).value;
    var status := GetStr(body, "status").value;
    var head := u.owner + "'s " + BuildsSummary(env, u) + " bodhi update has reached the ";
    Strings.ContainsMiddle(u.owner + "'s ", BuildsSummary(env, u), " bodhi update has reached the ");
    Strings.ContainsAppend(head, BuildsSummary(env, u), status);
    Strings.ContainsAppend(head + status, BuildsSummary(env, u), " karma threshold");
    assert Summary(KarmaThreshold, body, env).value == head + status + " karma threshold";
  }

  lemma MetSummaryShowsBuilds(body: Json, env: Env)
    requires Summary(RequirementsMetStable, body, env).Some?
    ensures UpdateOf(RequirementsMetStable, body).Some?
    ensures Strings.Contains(Summary(RequirementsMetStable, body, env).value,
                             BuildsSummary(env, UpdateOf(RequirementsMetStable, body).value))
  {
    var u := UpdateOf(RequirementsMetStable, body).value;
    assert Summary(RequirementsMetStable, body, env).value == u.owner + "'s " + BuildsSummary(env, u) + MetSummaryTail;
    Strings.ContainsMiddle(u.owner + "'s ", BuildsSummary(env, u), MetSummaryTail);
  }

  /**
   * The requirements-met summary is worded "<owner>'s <builds> bodhi update has met stable
   * testing requirements".
   */
  lemma MetSummaryWording(body: Json, env: Env)
    requires UpdateOf(RequirementsMetStable, body).Some?
    ensures var u := UpdateOf(RequirementsMetStable, body).value;
      Summary(RequirementsMetStable, body, env) ==
        Some(u.owner + "'s " + BuildsSummary(env, u) + " bodhi update has met stable testing requirements")
  {
    var u := UpdateOf(RequirementsMetStable, body).value;
    assert Summary(RequirementsMetStable, body, env).value == u.owner + "'s " + BuildsSummary(env, u) + MetSummaryTail;
  }
}
