/**
 * The update message family of bodhi-messages: one message kind per class in
 * `bodhi/messages/schemas/update.py`, its fixed topic, and its draft-04 JSON body schema.
 * The schemas are JSON trees; the V2 schemas of the edit and ready-for-testing messages are
 * built from the V1 ones step by step, as the class bodies do after `copy.deepcopy`.
 */
module UpdateSchemas {
  import opened Wrappers
  import opened Json
  import Strings

  /** One constructor per message class. */
  datatype Kind =
    | Comment                // UpdateCommentV1
    | CompleteStable         // UpdateCompleteStableV1
    | CompleteTesting        // UpdateCompleteTestingV1
    | EditV1                 // UpdateEditV1
    | EditV2                 // UpdateEditV2
    | Eject                  // UpdateEjectV1
    | KarmaThreshold         // UpdateKarmaThresholdV1
    | RequestRevoke          // UpdateRequestRevokeV1
    | RequestStable          // UpdateRequestStableV1
    | RequestTesting         // UpdateRequestTestingV1
    | RequestUnpush          // UpdateRequestUnpushV1
    | RequestObsolete        // UpdateRequestObsoleteV1
    | RequirementsMetStable  // UpdateRequirementsMetStableV1
    | ReadyForTestingV1      // UpdateReadyForTestingV1
    | ReadyForTestingV2      // UpdateReadyForTestingV2
  {
    /** The subclasses of UpdateRequestMessage. */
    predicate IsRequest() {
      RequestRevoke? || RequestStable? || RequestTesting? || RequestUnpush? || RequestObsolete?
    }

    /** The subclasses of UpdateMessage (the ready-for-testing pair derives from BodhiMessage). */
    predicate IsUpdateMessage() {
      !ReadyForTestingV1? && !ReadyForTestingV2?
    }

    /** The classes whose schema is derived from another class's schema. */
    predicate IsDerived() {
      EditV2? || ReadyForTestingV2?
    }
  }

  /** The class attribute `topic`. */
  function Topic(k: Kind): string {
    match k
    case Comment => "bodhi.update.comment"
    case CompleteStable => "bodhi.update.complete.stable"
    case CompleteTesting => "bodhi.update.complete.testing"
    case EditV1 => "bodhi.update.edit"
    case EditV2 => "bodhi.update.edit"
    case Eject => "bodhi.update.eject"
    case KarmaThreshold => "bodhi.update.karma.threshold.reach"
    case RequestRevoke => "bodhi.update.request.revoke"
    case RequestStable => "bodhi.update.request.stable"
    case RequestTesting => "bodhi.update.request.testing"
    case RequestUnpush => "bodhi.update.request.unpush"
    case RequestObsolete => "bodhi.update.request.obsolete"
    case RequirementsMetStable => "bodhi.update.requirements_met.stable"
    case ReadyForTestingV1 => "bodhi.update.status.testing.koji-build-group.build.complete"
    case ReadyForTestingV2 => "bodhi.update.status.testing.koji-build-group.build.complete"
  }

  /** The request a request message announces: the last part of its topic. */
  function RequestStatus(k: Kind): string
    requires k.IsRequest()
  {
    match k
    case RequestRevoke => "revoke"
    case RequestStable => "stable"
    case RequestTesting => "testing"
    case RequestUnpush => "unpush"
    case _ => "obsolete"
  }

  /** `self.topic.split('.')[-1]` is the request a request message announces. */
  lemma RequestTopicStatus(k: Kind)
    requires k.IsRequest()
    ensures Strings.LastSegment(Topic(k)) == RequestStatus(k)
  {
    var prefix := "bodhi.update.request";
    assert Topic(k) == prefix + "." + RequestStatus(k);
    Strings.LastSegmentOf(prefix, RequestStatus(k));
  }

  // ---------------------------------------------------------------------------
  // Body schemas.
  // ---------------------------------------------------------------------------

  /**
   * What the schemas import from `bodhi.messages.schemas.base`, which is not part of this
   * model: SCHEMA_URL and the schemas of UpdateV1, BuildV1 and UserV1.
   */
  datatype BaseSchemas = BaseSchemas(url: string, update: Json, build: Json, user: Json)

  const DraftFour := "http://json-schema.org/draft-04/schema#"

  function Leaf(typ: string, description: string): Json {
    Obj(map["type" := Str(typ), "description" := Str(description)])
  }

  /** The shape every UpdateMessage V1 schema shares. */
  function Envelope(b: BaseSchemas, name: string, description: string,
                    properties: map<string, Json>, required: seq<string>): Json
  {
    Obj(map[
      "id" := Str(b.url + "/v1/" + name + "#"),
      "$schema" := Str(DraftFour),
      "description" := Str(description),
      "type" := Str("object"),
      "properties" := Obj(properties),
      "required" := Names(required),
      "definitions" := Obj(map["build" := b.build])
    ])
  }

  function AgentLeaf(what: string): Json {
    Leaf("string", "The user who requested the update to be " + what)
  }

  /** The `body_schema` of every class whose schema is written out rather than derived. */
  function SchemaV1(k: Kind, b: BaseSchemas): Json
    requires !k.IsDerived()
  {
    if k == ReadyForTestingV1 then ReadyForTestingV1Schema(b)
    else Envelope(b, Topic(k), V1Description(k), V1Properties(k, b), V1Required(k))
  }

  /** The schema `description` of each UpdateMessage V1 class. */
  function V1Description(k: Kind): string
    requires k.IsUpdateMessage() && !k.IsDerived()
  {
    match k
    case Comment => "Schema for message sent when a comment is added to an update"
    case CompleteStable => "Schema for message sent when an update is pushed stable"
    case CompleteTesting => "Schema for message sent when an update is pushed to testing"
    case EditV1 => "Schema for message sent when an update is edited"
    case Eject => "Schema for message sent when an update is ejected from a compose"
    case KarmaThreshold => "Schema for message sent when an update reaches its karma threshold"
    case RequestRevoke => "Schema for message sent when an update is revoked"
    case RequestStable => "Schema for message sent when an update is requested stable"
    case RequestTesting => "Schema for message sent when an update is requested testing"
    case RequestUnpush => "Schema for message sent when an update is unpushed"
    case RequestObsolete => "Schema for message sent when an update is obsoleted"
    case RequirementsMetStable => "Schema for message sent when an update meets stable requirements"
  }

  /** The schema `required` list of each UpdateMessage V1 class. */
  function V1Required(k: Kind): (r: seq<string>)
    requires k.IsUpdateMessage() && !k.IsDerived()
    ensures UpdateKey(k) in r
  {
    match k
    case Comment => ["comment"]
    case CompleteStable => ["update"]
    case CompleteTesting => ["update"]
    case EditV1 => ["agent", "new_bugs", "update"]
    case Eject => ["reason", "repo", "update"]
    case KarmaThreshold => ["status", "update"]
    case RequestRevoke => ["agent", "update"]
    case RequestStable => ["agent", "update"]
    case RequestTesting => ["agent", "update"]
    case RequestUnpush => ["agent", "update"]
    case RequestObsolete => ["agent", "update"]
    case RequirementsMetStable => ["update"]
  }

  /** The schema `properties` of each UpdateMessage V1 class. */
  function V1Properties(k: Kind, b: BaseSchemas): map<string, Json>
    requires k.IsUpdateMessage() && !k.IsDerived()
  {
    match k
    case Comment =>
      map["comment" := Obj(map[
        "type" := Str("object"),
        "description" := Str("The comment added to an update"),
        "properties" := Obj(map[
          "karma" := Leaf("integer", "The karma associated with the comment"),
          "text" := Leaf("string", "The text of the comment"),
          "timestamp" := Leaf("string", "The timestamp that the comment was left on."),
          "update" := b.update,
          "user" := b.user]),
        "required" := Names(["karma", "text", "timestamp", "update", "user"])])]
    case EditV1 =>
      map[
        "agent" := Leaf("string", "The user who edited the update"),
        "new_bugs" := Obj(map[
          "type" := Str("array"),
          "description" := Str("An array of bug ids that have been added to the update"),
          "items" := Leaf("integer", "A Bugzilla bug ID")]),
        "update" := b.update]
    case Eject =>
      map[
        "reason" := Leaf("string", "The reason the update was ejected"),
        "repo" := Leaf("string", "The name of the repo that the update is associated with"),
        "update" := b.update]
    case KarmaThreshold =>
      map[
        "status" := Obj(map[
          "type" := Str("string"),
          "description" := Str("Which karma threshold was reached"),
          "enum" := Names(["stable", "unstable"])]),
        "update" := b.update]
    case RequestRevoke => map["agent" := AgentLeaf("revoked"), "update" := b.update]
    case RequestStable => map["agent" := AgentLeaf("stable"), "update" := b.update]
    case RequestTesting => map["agent" := AgentLeaf("tested"), "update" := b.update]
    case RequestUnpush => map["agent" := AgentLeaf("unpushed"), "update" := b.update]
    case RequestObsolete => map["agent" := AgentLeaf("obsoleted"), "update" := b.update]
    case CompleteStable => map["update" := b.update]
    case CompleteTesting => map["update" := b.update]
    case RequirementsMetStable => map["update" := b.update]
  }

  const TeamName := "A human readable name of the team running the testing or gating"
  // The descriptions in the ready-for-testing schemas.
  const BuildDoc := "Details about a build to test."
  const BuildTypeDoc := "Artifact type, in this case \"koji-build\""
  const BuildIdDoc := "Build ID of the koji build."
  const TaskIdDoc := "Task ID of the koji build."
  const ComponentDoc := "Name of the component tested."
  const IssuerDoc := "Build issuer of the artifact."
  const ScratchDoc := "Indication if the build is a scratch build."
  const NvrDoc := "Name-version-release of the artifact."
  const ReadyDoc := "Schema for message sent when an update is ready for testing"
  const DocsDoc := " Link to documentation with details about the system."
  const EmailDoc := "Contact email address."
  const AliasDoc := "The bodhi identifier for this update"
  const GroupTypeDoc := "Artifact type, in this case \"rpm-build-group\"."
  const BuildsDoc := "A list of builds included in this group"
  const RepositoryDoc := "Url of the repository with packages from the side-tag."
  const ReleaseDoc := "The release targetted by this side-tag/group of builds."
  const ArtifactDoc := "Details about the builds to test."
  const GeneratedAtDoc := "Time when the requested was generated, in UTC and ISO 8601 format"
  const VersionDoc := "Version of the specification"
  const AgentDoc := "Re-trigger request: name of requester, trigger on push: \"bodhi\"."
  const RetriggerDoc := "This flag is True if the message is sent to re-trigger tests"

  /** The `definitions.build` entry of the ready-for-testing V1 schema: one koji build. */
  function ArtifactBuildSchema(): Json {
    Obj(map[
      "description" := Str(BuildDoc),
      "type" := Str("object"),
      "properties" := Obj(map[
        "type" := Leaf("string", BuildTypeDoc),
        "id" := Leaf("integer", BuildIdDoc),
        "task_id" := Obj(map[
          "description" := Str(TaskIdDoc),
          "type" := Names(["null", "integer"])]),
        "component" := Leaf("string", ComponentDoc),
        "issuer" := Leaf("string", IssuerDoc),
        "scratch" := Leaf("boolean", ScratchDoc),
        "nvr" := Leaf("string", NvrDoc)]),
      "required" := Names(["type", "id", "issuer", "component", "nvr", "scratch"])
    ])
  }

  function RefTo(name: string): Json {
    Obj(map["$ref" := Str(RefPrefix + name)])
  }

  const RefPrefix := "#/definitions/"

  /** The `properties.contact` entry of the ready-for-testing V1 schema. */
  function ContactSchema(): Json {
    Obj(map[
      "description" := Str(ReadyDoc),
      "type" := Str("object"),
      "properties" := Obj(map[
        "name" := Leaf("string", TeamName),
        "team" := Leaf("string", TeamName),
        "docs" := Leaf("string", DocsDoc),
        "email" := Leaf("string", EmailDoc)]),
      "required" := Names(["name", "team", "docs", "email"])])
  }

  /** The `properties.artifact.properties` entry of the ready-for-testing V1 schema. */
  function ArtifactProperties(): map<string, Json> {
    map[
      "id" := Leaf("string", AliasDoc),
      "type" := Leaf("string", GroupTypeDoc),
      "builds" := Obj(map[
        "type" := Str("array"),
        "description" := Str(BuildsDoc),
        "items" := RefTo("build")]),
      "repository" := Obj(map[
        "description" := Str(RepositoryDoc),
        "type" := Str("string"),
        "format" := Str("uri")]),
      "release" := Leaf("string", ReleaseDoc)]
  }

  /** The `properties.artifact` entry of the ready-for-testing V1 schema. */
  function ArtifactSchema(): Json {
    Obj(map[
      "description" := Str(ArtifactDoc),
      "type" := Str("object"),
      "properties" := Obj(ArtifactProperties()),
      "required" := Names(["id", "type", "builds", "repository", "release"])])
  }

  /** The `properties` entry of the ready-for-testing V1 schema. */
  function ReadyForTestingV1Properties(): map<string, Json> {
    map[
      "contact" := ContactSchema(),
      "artifact" := ArtifactSchema(),
      "generated_at" := Leaf("string",
        GeneratedAtDoc),
      "version" := Leaf("string", VersionDoc),
      "agent" := Leaf("string",
        AgentDoc)]
  }

  function ReadyForTestingV1Schema(b: BaseSchemas): Json {
    Obj(map[
      "id" := Str(b.url + "/v1/bodhi.update.status.testing#"),
      "$schema" := Str(DraftFour),
      "description" := Str(ReadyDoc),
      "type" := Str("object"),
      "properties" := Obj(ReadyForTestingV1Properties()),
      "required" := Names(["contact", "artifact", "generated_at", "version", "agent"]),
      "definitions" := Obj(map["build" := ArtifactBuildSchema()]),
      "re-trigger" := Leaf("bool", RetriggerDoc)
    ])
  }

  /** The top-level body key from which each UpdateMessage reads its update (`_update`). */
  function UpdateKey(k: Kind): string {
    if k == Comment then "comment" else "update"
  }

  /** Each UpdateMessage V1 schema requires the body key that the message reads its update from. */
  lemma UpdateKeyRequired(k: Kind, b: BaseSchemas)
    requires k.IsUpdateMessage() && !k.IsDerived()
    ensures Str(UpdateKey(k)) in Required(SchemaV1(k, b))
  {
    var e := Envelope(b, Topic(k), V1Description(k), V1Properties(k, b), V1Required(k));
    assert SchemaV1(k, b) == e;
    EnvelopeHasUpdateKey(k, b);
  }

  lemma EnvelopeHasUpdateKey(k: Kind, b: BaseSchemas)
    requires k.IsUpdateMessage() && !k.IsDerived()
    ensures Str(UpdateKey(k)) in Required(Envelope(b, Topic(k), V1Description(k), V1Properties(k, b), V1Required(k)))
  {
    var r := V1Required(k);
    EnvelopeRequired(b, Topic(k), V1Description(k), V1Properties(k, b), r);
    var i :| 0 <= i < |r| && r[i] == UpdateKey(k);
    assert Names(r).items[i] == Str(UpdateKey(k));
  }

  lemma EnvelopeRequired(b: BaseSchemas, name: string, description: string,
                         properties: map<string, Json>, required: seq<string>)
    ensures Required(Envelope(b, name, description, properties, required)) == Names(required).items
  {
  }

  // ---------------------------------------------------------------------------
  // Derived schemas: deep copy of V1, then assignments.
  // ---------------------------------------------------------------------------

  function BuildList(description: string): Json {
    Obj(map[
      "type" := Str("array"),
      "description" := Str(description),
      "items" := Leaf("string", "A build NVR")])
  }

  const AddedBuilds := BuildList("An array of build NVRs that have been added to the update")
  const RemovedBuilds := BuildList("An array of build NVRs that have been removed from the update")

  /** The shape of an Envelope: every property can be assigned, and so can `required`. */
  lemma EnvelopeAssignable(b: BaseSchemas, name: string, description: string,
                           properties: map<string, Json>, required: seq<string>)
    ensures forall key :: CanSet(Envelope(b, name, description, properties, required), ["properties", key])
    ensures CanSet(Envelope(b, name, description, properties, required), ["required"])
  {
  }

  /**
   * The assignments in the body of `UpdateEditV2`, applied to a copy of `v1`: `new_builds` and
   * `removed_builds` are added to the properties and appended to the required list; nothing
   * else changes.
   */
  method AddBuildLists(v1: Json) returns (s: Json)
    requires CanSet(v1, ["properties", "new_builds"]) && CanSet(v1, ["properties", "removed_builds"])
    requires CanSet(v1, ["required"])
    ensures Required(s) == Required(v1) + [Str("new_builds"), Str("removed_builds")]
    ensures GetPath(s, ["properties", "new_builds"]) == Some(AddedBuilds)
    ensures GetPath(s, ["properties", "removed_builds"]) == Some(RemovedBuilds)
    ensures forall key :: key != "new_builds" && key != "removed_builds" ==>
      GetPath(s, ["properties", key]) == GetPath(v1, ["properties", key])
    ensures forall key :: key != "properties" && key != "required" ==>
      GetPath(s, [key]) == GetPath(v1, [key])
  {
    var pNew, pRemoved, pReq := ["properties", "new_builds"], ["properties", "removed_builds"], ["required"];
    ApartAt(pNew, pRemoved, 1);
    ApartAt(pNew, pReq, 0);
    ApartAt(pRemoved, pReq, 0);
    s := v1;  // copy.deepcopy: a value

    var s1 := SetPath(s, pNew, AddedBuilds);
    SetKeepsCanSet(s, pNew, AddedBuilds, pRemoved);
    SetKeepsCanSet(s, pNew, AddedBuilds, pReq);
    var s2 := SetPath(s1, pRemoved, RemovedBuilds);
    SetKeepsCanSet(s1, pRemoved, RemovedBuilds, pReq);
    GetSetApart(s, pNew, pReq, AddedBuilds);
    GetSetApart(s1, pRemoved, pReq, RemovedBuilds);
    var extended := Arr(Required(s2) + [Str("new_builds"), Str("removed_builds")]);
    var s3 := SetPath(s2, pReq, extended);
    s := s3;

    GetSetSame(s2, pReq, extended);
    GetSetSame(s1, pRemoved, RemovedBuilds);
    GetSetApart(s2, pReq, pRemoved, extended);
    GetSetSame(v1, pNew, AddedBuilds);
    GetSetApart(s1, pRemoved, pNew, RemovedBuilds);
    GetSetApart(s2, pReq, pNew, extended);
    forall key | key != "new_builds" && key != "removed_builds"
      ensures GetPath(s3, ["properties", key]) == GetPath(v1, ["properties", key])
    {
      var q := ["properties", key];
      ApartAt(pNew, q, 1);
      ApartAt(pRemoved, q, 1);
      ApartAt(pReq, q, 0);
      GetSetApart(v1, pNew, q, AddedBuilds);
      GetSetApart(s1, pRemoved, q, RemovedBuilds);
      GetSetApart(s2, pReq, q, extended);
    }
    forall key | key != "properties" && key != "required"
      ensures GetPath(s3, [key]) == GetPath(v1, [key])
    {
      var q := [key];
      ApartAt(pNew, q, 0);
      ApartAt(pRemoved, q, 0);
      ApartAt(pReq, q, 0);
      GetSetApart(v1, pNew, q, AddedBuilds);
      GetSetApart(s1, pRemoved, q, RemovedBuilds);
      GetSetApart(s2, pReq, q, extended);
    }
  }

  /** `UpdateEditV2.body_schema`: the edit V1 schema with the two build lists added. */
  method EditV2Schema(b: BaseSchemas) returns (s: Json)
    ensures Required(s) == Required(SchemaV1(EditV1, b)) + [Str("new_builds"), Str("removed_builds")]
    ensures GetPath(s, ["properties", "new_builds"]) == Some(AddedBuilds)
    ensures GetPath(s, ["properties", "removed_builds"]) == Some(RemovedBuilds)
    ensures forall key :: key != "new_builds" && key != "removed_builds" ==>
      GetPath(s, ["properties", key]) == GetPath(SchemaV1(EditV1, b), ["properties", key])
    ensures forall key :: key != "properties" && key != "required" ==>
      GetPath(s, [key]) == GetPath(SchemaV1(EditV1, b), [key])
    ensures forall body :: MeetsRequired(s, body) ==> MeetsRequired(SchemaV1(EditV1, b), body)
  {
    EnvelopeAssignable(b, Topic(EditV1), V1Description(EditV1), V1Properties(EditV1, b), V1Required(EditV1));
    s := AddBuildLists(SchemaV1(EditV1, b));
    AppendedRequiredAccepted(SchemaV1(EditV1, b), s, [Str("new_builds"), Str("removed_builds")]);
  }

  /** The schema a `{'$ref': '#/definitions/<name>'}` node stands for, looked up in `schema`. */
  function Deref(schema: Json, node: Json): Option<Json> {
    match Get(node, "$ref")
    case Some(Str(r)) =>
      if RefPrefix <= r then GetPath(schema, ["definitions", r[|RefPrefix|..]]) else None
    case _ => Some(node)
  }

  const ItemsPath := ["properties", "artifact", "properties", "builds", "items"]

  /** The schema of one element of `artifact.builds`, with its `$ref` followed. */
  function ArtifactItemSchema(schema: Json): Option<Json> {
    var node :- GetPath(schema, ItemsPath);
    Deref(schema, node)
  }

  const DefsBuild := ["definitions", "build"]
  const DefsArtifactBuild := ["definitions", "artifactbuild"]
  const PropsUpdate := ["properties", "update"]

  /** Following a reference to `#/definitions/<name>` looks up that definition. */
  lemma DerefRefTo(schema: Json, name: string)
    ensures Deref(schema, RefTo(name)) == GetPath(schema, ["definitions", name])
  {
    assert (RefPrefix + name)[|RefPrefix|..] == name;
  }

  /**
   * The first three assignments in the body of `UpdateReadyForTestingV2`, on a copy of `v1`:
   * the artifact build definition moves to `artifactbuild`, the builds' items point at it, so an
   * artifact build means what it meant before, and `definitions.build` becomes `build`.
   * Nothing apart from those three paths changes.
   */
  method RenameArtifactBuild(v1: Json, build: Json) returns (s: Json)
    requires GetPath(v1, DefsBuild).Some? && CanSet(v1, DefsArtifactBuild)
    requires CanSet(v1, ItemsPath) && GetPath(v1, ItemsPath) == Some(RefTo("build"))
    ensures GetPath(s, DefsArtifactBuild) == GetPath(v1, DefsBuild)
    ensures ArtifactItemSchema(s) == ArtifactItemSchema(v1)
    ensures GetPath(s, DefsBuild) == Some(build)
    ensures forall q :: Apart(q, DefsArtifactBuild) && Apart(q, ItemsPath) && Apart(q, DefsBuild) ==>
      GetPath(s, q) == GetPath(v1, q)
    ensures forall q :: CanSet(v1, q) && q[0] != "definitions" && !(ItemsPath <= q[..|q| - 1]) ==>
      CanSet(s, q)
  {
    ApartAt(DefsArtifactBuild, DefsBuild, 1);
    ApartAt(DefsArtifactBuild, ItemsPath, 0);
    ApartAt(ItemsPath, DefsBuild, 0);
    GetSetApart(v1, DefsArtifactBuild, ItemsPath, GetPath(v1, DefsBuild).value);
    GetSetApart(v1, DefsArtifactBuild, DefsBuild, GetPath(v1, DefsBuild).value);
    s := v1;  // copy.deepcopy: a value

    var oldBuild := GetPath(s, DefsBuild).value;
    var s1 := SetPath(s, DefsArtifactBuild, oldBuild);
    SetKeepsCanSet(s, DefsArtifactBuild, oldBuild, ItemsPath);
    SetKeepsCanSet(s, DefsArtifactBuild, oldBuild, DefsBuild);
    var s2 := SetPath(s1, ItemsPath, RefTo("artifactbuild"));
    SetKeepsCanSet(s1, ItemsPath, RefTo("artifactbuild"), DefsBuild);
    var s3 := SetPath(s2, DefsBuild, build);
    s := s3;

    GetSetSame(v1, DefsArtifactBuild, oldBuild);
    GetSetApart(s1, ItemsPath, DefsArtifactBuild, RefTo("artifactbuild"));
    GetSetApart(s2, DefsBuild, DefsArtifactBuild, build);
    GetSetSame(s1, ItemsPath, RefTo("artifactbuild"));
    GetSetApart(s2, DefsBuild, ItemsPath, build);
    DerefRefTo(s3, "artifactbuild");
    DerefRefTo(v1, "build");
    GetSetSame(s2, DefsBuild, build);

    forall q | Apart(q, DefsArtifactBuild) && Apart(q, ItemsPath) && Apart(q, DefsBuild)
      ensures GetPath(s3, q) == GetPath(v1, q)
    {
      GetSetApart(v1, DefsArtifactBuild, q, oldBuild);
      GetSetApart(s1, ItemsPath, q, RefTo("artifactbuild"));
      GetSetApart(s2, DefsBuild, q, build);
    }
    forall q | CanSet(v1, q) && q[0] != "definitions" && !(ItemsPath <= q[..|q| - 1])
      ensures CanSet(s3, q)
    {
      ApartAt(DefsArtifactBuild, q, 0);
      ApartAt(DefsBuild, q, 0);
      SetKeepsCanSet(v1, DefsArtifactBuild, oldBuild, q);
      SetKeepsCanSet(s1, ItemsPath, RefTo("artifactbuild"), q);
      SetKeepsCanSet(s2, DefsBuild, build, q);
    }
  }

  /**
   * `body_schema['properties'][key] = schema; body_schema['required'].append(key)`, on a copy
   * of `v`: the property is added and required, and nothing else changes.
   */
  method AddRequiredProperty(v: Json, key: string, schema: Json) returns (s: Json)
    requires CanSet(v, ["properties", key]) && CanSet(v, ["required"])
    ensures Required(s) == Required(v) + [Str(key)]
    ensures GetPath(s, ["properties", key]) == Some(schema)
    ensures forall q :: Apart(q, ["properties", key]) && Apart(q, ["required"]) ==>
      GetPath(s, q) == GetPath(v, q)
  {
    var pKey, pReq := ["properties", key], ["required"];
    ApartAt(pKey, pReq, 0);
    s := v;  // copy.deepcopy: a value
    var s1 := SetPath(s, pKey, schema);
    SetKeepsCanSet(s, pKey, schema, pReq);
    GetSetApart(s, pKey, pReq, schema);
    var extended := Arr(Required(s1) + [Str(key)]);
    var s2 := SetPath(s1, pReq, extended);
    s := s2;

    GetSetSame(s1, pReq, extended);
    GetSetSame(v, pKey, schema);
    GetSetApart(s1, pReq, pKey, extended);
    forall q | Apart(q, pKey) && Apart(q, pReq)
      ensures GetPath(s2, q) == GetPath(v, q)
    {
      GetSetApart(v, pKey, q, schema);
      GetSetApart(s1, pReq, q, extended);
    }
  }

  /** The builds of an artifact are listed as references to the `build` definition. */
  lemma ArtifactBuildsRef()
    ensures GetPath(ArtifactSchema(), ["properties", "builds", "items"]) == Some(RefTo("build"))
    ensures CanSet(ArtifactSchema(), ["properties", "builds", "items"])
  {
    var builds := ArtifactProperties()["builds"];
    assert Get(builds, "items") == Some(RefTo("build"));
    GetPathCons(builds, "items", []);
    assert CanSet(builds, ["items"]);
    assert Get(Obj(ArtifactProperties()), "builds") == Some(builds);
    GetPathCons(Obj(ArtifactProperties()), "builds", ["items"]);
    CanSetCons(Obj(ArtifactProperties()), "builds", ["items"]);
    assert Get(ArtifactSchema(), "properties") == Some(Obj(ArtifactProperties()));
    GetPathCons(ArtifactSchema(), "properties", ["builds", "items"]);
    CanSetCons(ArtifactSchema(), "properties", ["builds", "items"]);
  }

  /** The ready-for-testing V1 schema has every dict the V2 class body assigns into. */
  lemma ReadyForTestingV1Assignable(b: BaseSchemas)
    ensures GetPath(ReadyForTestingV1Schema(b), DefsBuild) == Some(ArtifactBuildSchema())
    ensures CanSet(ReadyForTestingV1Schema(b), DefsArtifactBuild)
    ensures CanSet(ReadyForTestingV1Schema(b), ItemsPath)
    ensures GetPath(ReadyForTestingV1Schema(b), ItemsPath) == Some(RefTo("build"))
    ensures CanSet(ReadyForTestingV1Schema(b), PropsUpdate)
    ensures CanSet(ReadyForTestingV1Schema(b), ["required"])
  {
    ReadyForTestingV1Definitions(b);
    ReadyForTestingV1Items(b);
    var v1 := ReadyForTestingV1Schema(b);
    assert Get(v1, "properties") == Some(Obj(ReadyForTestingV1Properties()));
    CanSetCons(v1, "properties", ["update"]);
  }

  /** The ready-for-testing V1 schema defines `build`, in a dict that can take `artifactbuild`. */
  lemma ReadyForTestingV1Definitions(b: BaseSchemas)
    ensures GetPath(ReadyForTestingV1Schema(b), DefsBuild) == Some(ArtifactBuildSchema())
    ensures CanSet(ReadyForTestingV1Schema(b), DefsArtifactBuild)
  {
    var v1 := ReadyForTestingV1Schema(b);
    var defs := Obj(map["build" := ArtifactBuildSchema()]);
    assert Get(v1, "definitions") == Some(defs);
    assert Get(defs, "build") == Some(ArtifactBuildSchema());
    GetPathCons(defs, "build", []);
    GetPathCons(v1, "definitions", ["build"]);
    CanSetCons(v1, "definitions", ["artifactbuild"]);
  }

  /** The ready-for-testing V1 schema's artifact builds are references to `build`. */
  lemma ReadyForTestingV1Items(b: BaseSchemas)
    ensures CanSet(ReadyForTestingV1Schema(b), ItemsPath)
    ensures GetPath(ReadyForTestingV1Schema(b), ItemsPath) == Some(RefTo("build"))
  {
    var v1 := ReadyForTestingV1Schema(b);
    var props := Obj(ReadyForTestingV1Properties());
    assert Get(v1, "properties") == Some(props);
    assert Get(props, "artifact") == Some(ArtifactSchema());
    ArtifactBuildsRef();
    var rest := ["properties", "builds", "items"];
    assert ItemsPath == ["properties"] + (["artifact"] + rest);
    GetPathCons(props, "artifact", rest);
    CanSetCons(props, "artifact", rest);
    GetPathCons(v1, "properties", ["artifact"] + rest);
    CanSetCons(v1, "properties", ["artifact"] + rest);
  }

  /** The paths the two steps of `UpdateReadyForTestingV2` assign, and every path apart from them. */
  ghost predicate RenameThenAddKeeps(v1: Json, m: Json, s: Json) {
    && (forall q :: Apart(q, DefsArtifactBuild) && Apart(q, ItemsPath) && Apart(q, DefsBuild) ==>
          GetPath(m, q) == GetPath(v1, q))
    && (forall q :: Apart(q, PropsUpdate) && Apart(q, ["required"]) ==> GetPath(s, q) == GetPath(m, q))
  }

  /** Everything apart from the assigned paths is left as in `v1` by the two steps together. */
  lemma RenameThenAddFrame(v1: Json, m: Json, s: Json)
    requires RenameThenAddKeeps(v1, m, s)
    ensures forall key :: key != "update" && key != "artifact" ==>
      GetPath(s, ["properties", key]) == GetPath(v1, ["properties", key])
    ensures forall key :: key != "builds" ==>
      GetPath(s, ["properties", "artifact", "properties", key]) ==
      GetPath(v1, ["properties", "artifact", "properties", key])
    ensures forall key :: key != "properties" && key != "required" && key != "definitions" ==>
      GetPath(s, [key]) == GetPath(v1, [key])
  {
    forall key | key != "update" && key != "artifact"
      ensures GetPath(s, ["properties", key]) == GetPath(v1, ["properties", key])
    {
      KeptApart(v1, m, s, ["properties", key], 1, 0, 0, 1, 0);
    }
    forall key | key != "builds"
      ensures GetPath(s, ["properties", "artifact", "properties", key]) ==
              GetPath(v1, ["properties", "artifact", "properties", key])
    {
      KeptApart(v1, m, s, ["properties", "artifact", "properties", key], 1, 0, 0, 3, 0);
    }
    forall key | key != "properties" && key != "required" && key != "definitions"
      ensures GetPath(s, [key]) == GetPath(v1, [key])
    {
      KeptApart(v1, m, s, [key], 0, 0, 0, 0, 0);
    }
  }

  /** A path that branches away from all five assigned paths reads as in `v1`. */
  lemma KeptApart(v1: Json, m: Json, s: Json, q: seq<string>, iu: nat, ir: nat, ia: nat, ii: nat, ib: nat)
    requires RenameThenAddKeeps(v1, m, s)
    requires iu < |q| && iu < |PropsUpdate| && q[iu] != PropsUpdate[iu]
    requires ir < |q| && ir < 1 && q[ir] != "required"
    requires ia < |q| && ia < |DefsArtifactBuild| && q[ia] != DefsArtifactBuild[ia]
    requires ii < |q| && ii < |ItemsPath| && q[ii] != ItemsPath[ii]
    requires ib < |q| && ib < |DefsBuild| && q[ib] != DefsBuild[ib]
    ensures GetPath(s, q) == GetPath(v1, q)
  {
    ApartAt(q, PropsUpdate, iu);
    ApartAt(q, ["required"], ir);
    ApartAt(q, DefsArtifactBuild, ia);
    ApartAt(q, ItemsPath, ii);
    ApartAt(q, DefsBuild, ib);
  }

  /** The assigned paths after the two steps of `UpdateReadyForTestingV2` together. */
  lemma RenameThenAddAssigned(v1: Json, m: Json, s: Json)
    requires GetPath(m, DefsArtifactBuild) == GetPath(v1, DefsBuild)
    requires ArtifactItemSchema(m) == ArtifactItemSchema(v1)
    requires Required(s) == Required(m) + [Str("update")]
    requires RenameThenAddKeeps(v1, m, s)
    ensures Required(s) == Required(v1) + [Str("update")]
    ensures ArtifactItemSchema(s) == ArtifactItemSchema(v1)
    ensures GetPath(s, DefsArtifactBuild) == GetPath(v1, DefsBuild)
    ensures GetPath(s, DefsBuild) == GetPath(m, DefsBuild)
  {
    RenameThenAddDefinitions(v1, m, s);
    ApartAt(["required"], DefsArtifactBuild, 0);
    ApartAt(["required"], ItemsPath, 0);
    ApartAt(["required"], DefsBuild, 0);
    assert GetPath(m, ["required"]) == GetPath(v1, ["required"]);
  }

  /** Adding the `update` property leaves the definitions and the artifact builds' items as renamed. */
  lemma RenameThenAddDefinitions(v1: Json, m: Json, s: Json)
    requires RenameThenAddKeeps(v1, m, s)
    ensures ArtifactItemSchema(s) == ArtifactItemSchema(m)
    ensures GetPath(s, DefsArtifactBuild) == GetPath(m, DefsArtifactBuild)
    ensures GetPath(s, DefsBuild) == GetPath(m, DefsBuild)
  {
    ApartAt(DefsArtifactBuild, PropsUpdate, 0);
    ApartAt(DefsArtifactBuild, ["required"], 0);
    ApartAt(DefsBuild, PropsUpdate, 0);
    ApartAt(DefsBuild, ["required"], 0);
    ApartAt(ItemsPath, PropsUpdate, 1);
    ApartAt(ItemsPath, ["required"], 0);
    assert GetPath(s, ItemsPath) == GetPath(m, ItemsPath);
  }

  /**
   * The body of `UpdateReadyForTestingV2` applied to a copy of any schema that has the dicts it
   * assigns into: the artifact build definition moves to `artifactbuild` and the builds' items
   * follow it, `definitions.build` and the `update` property become the update's build and
   * update schemas, and `update` is required. Nothing else changes.
   */
  method DeriveReadyForTestingV2(v1: Json, b: BaseSchemas) returns (s: Json)
    requires GetPath(v1, DefsBuild).Some? && CanSet(v1, DefsArtifactBuild)
    requires CanSet(v1, ItemsPath) && GetPath(v1, ItemsPath) == Some(RefTo("build"))
    requires CanSet(v1, PropsUpdate) && CanSet(v1, ["required"])
    ensures Required(s) == Required(v1) + [Str("update")]
    ensures ArtifactItemSchema(s) == ArtifactItemSchema(v1)
    ensures GetPath(s, DefsArtifactBuild) == GetPath(v1, DefsBuild)
    ensures GetPath(s, DefsBuild) == Some(b.build)
    ensures GetPath(s, PropsUpdate) == Some(b.update)
    ensures forall key :: key != "update" && key != "artifact" ==>
      GetPath(s, ["properties", key]) == GetPath(v1, ["properties", key])
    ensures forall key :: key != "builds" ==>
      GetPath(s, ["properties", "artifact", "properties", key]) ==
      GetPath(v1, ["properties", "artifact", "properties", key])
    ensures forall key :: key != "properties" && key != "required" && key != "definitions" ==>
      GetPath(s, [key]) == GetPath(v1, [key])
  {
    var m := RenameArtifactBuild(v1, b.build);
    ApartAt(PropsUpdate, ItemsPath, 1);
    s := AddRequiredProperty(m, "update", b.update);
    RenameThenAddAssigned(v1, m, s);
    RenameThenAddFrame(v1, m, s);
  }

  /**
   * `UpdateReadyForTestingV2.body_schema`. Its artifact builds still mean a koji build as
   * described in V1, while `definitions.build` now holds the BuildV1 schema that the `update`
   * property's schema refers to; `update` is added and required. Every other property, every
   * other artifact property and every other top-level key is as in V1.
   */
  method ReadyForTestingV2Schema(b: BaseSchemas) returns (s: Json)
    ensures Required(s) == Required(SchemaV1(ReadyForTestingV1, b)) + [Str("update")]
    ensures ArtifactItemSchema(s) == ArtifactItemSchema(SchemaV1(ReadyForTestingV1, b))
    ensures GetPath(s, DefsArtifactBuild) == Some(ArtifactBuildSchema())
    ensures GetPath(s, DefsBuild) == Some(b.build)
    ensures GetPath(s, PropsUpdate) == Some(b.update)
    ensures forall key :: key != "update" && key != "artifact" ==>
      GetPath(s, ["properties", key]) == GetPath(SchemaV1(ReadyForTestingV1, b), ["properties", key])
    ensures forall key :: key != "builds" ==>
      GetPath(s, ["properties", "artifact", "properties", key]) ==
      GetPath(SchemaV1(ReadyForTestingV1, b), ["properties", "artifact", "properties", key])
    ensures forall key :: key != "properties" && key != "required" && key != "definitions" ==>
      GetPath(s, [key]) == GetPath(SchemaV1(ReadyForTestingV1, b), [key])
    ensures forall body :: MeetsRequired(s, body) ==> MeetsRequired(SchemaV1(ReadyForTestingV1, b), body)
  {
    ReadyForTestingV1Assignable(b);
    s := DeriveReadyForTestingV2(SchemaV1(ReadyForTestingV1, b), b);
    AppendedRequiredAccepted(SchemaV1(ReadyForTestingV1, b), s, [Str("update")]);
  }
}
