# Bodhi update messages and update handlers, modelled in Dafny

Bodhi is Fedora's update system. This project models two parts of it.

- **The update message family of bodhi-messages** (`bodhi/messages/schemas/update.py`).
  - One message kind per class, each with its fixed topic and its draft-04 JSON body schema.
  - The values every message derives from its body:
    - the URL of the update page;
    - the memoised update view (`update`, cached in `_update_obj`);
    - the affected usernames and packages;
    - the ownership qualifier ("their" or "<owner>'s");
    - the one-line `summary` and the multi-line `__str__` text of every class.
  - The V2 schemas of the edit and ready-for-testing messages. Each is built from a deep copy of the V1 schema by assigning into nested dicts.
- **The decision rules of the update web handlers** (`bodhi/server/services/updates.py`).
  - The guards of `set_request`, checked in order: locked update, stable back to testing, stable requirements.
  - The pagination arithmetic and the selected `package` of `query_updates`.
  - What `new_update` does with the builds it is given:
    - looks up each build's release;
    - refuses releases not composed by Bodhi unless a side tag is given;
    - for an edit, keeps the first release;
    - otherwise makes one update draft per release, with a `releases` caveat when there is more than one.
  - The status gate of `trigger_tests`.

The files are:

- `wrappers.dfy`: `Option` and `Result`.
- `json.dfy`:
  - JSON values;
  - dict lookup (a missing key is `None`);
  - nested dict assignment and its read-back laws;
  - the `required` list of a schema and the additive-evolution law.
- `strings.dfy`: Python's string ordering, `list.sort()` / `sorted(set(...))`, `str.join`, `str.split`, `%i`, substring and `endswith`.
- `schemas.dfy`: message kinds, topics, the V1 schemas, and the V2 schema derivations as methods over JSON values.
- `messages.dfy`:
  - the body-derived values;
  - the `UpdateMessage` class with its cached update view;
  - the summary and text templates.
- `services.dfy`: the handler rules.

A JSON lookup that would raise in Python (`KeyError`, indexing a list as a dict) makes the derived value `None`. Where the model also expects a string or a list and Python would not check the type, the model's `None` is stricter than Python; "## Left out" names those places.

The functions the core calls but does not define are passed in as parameters:

- `past_tense` and `truncate`;
- `BodhiMessage.agent_name` and `BodhiMessage.usernames`;
- `UpdateV1.packages`;
- `UpdateV1.schema()`, `BuildV1.schema()` and `SCHEMA_URL`;
- `check_requirements` and `Update.set_request`;
- Koji's build info;
- `_build_group_test_message`.

## Model

| member | source | states |
|---|---|---|
| UpdateMessages.Url | bodhi-messages/bodhi/messages/schemas/update.py:37-44 | For an update message, a URL exists exactly when the update view does. The URL is the updates page prefix followed by exactly the update's alias. |
| UpdateMessages.UrlIdentifiesUpdate | bodhi-messages/bodhi/messages/schemas/update.py:44 | Two update messages with the same URL are about updates with the same alias. |
| UpdateMessages.BuildViews | bodhi-messages/bodhi/messages/schemas/update.py:52 | The build views are one per body build, in order, each with that build's `nvr`. The lookup fails exactly when some build has no string `nvr`. |
| UpdateMessages.UpdateMessage.Update | bodhi-messages/bodhi/messages/schemas/update.py:47-55 | The `update` property always answers the view of the body, so the cache is invisible. A cached view is never replaced. A body without a well-formed update leaves the cache empty. |
| UpdateMessages.UpdateMessage.Usernames | bodhi-messages/bodhi/messages/schemas/update.py:58-70 | The result is sorted and contains the owner. As a multiset it is the base list plus the owner when the owner was absent, so it is at most one longer. It has no duplicate when the base list has none. |
| UpdateMessages.UpdateMessage.Packages | bodhi-messages/bodhi/messages/schemas/update.py:73-80 | The packages are those of the cached update view, present exactly when the view is. |
| UpdateMessages.OwnerQual | bodhi-messages/bodhi/messages/schemas/update.py:93-98 | The qualifier is "their" exactly when the agent is the owner; otherwise it is the owner's name followed by "'s". |
| UpdateMessages.View | bodhi-messages/bodhi/messages/schemas/update.py:51-54 | `UpdateV1(...)` built from the update dict: alias, builds, owner, status, request and release name; `None` when a key is missing. |
| UpdateMessages.Nvrs | bodhi-messages/bodhi/messages/schemas/update.py:90 | The NVRs of the view's builds, one per build, in order. |
| UpdateMessages.Fields | bodhi-messages/bodhi/messages/schemas/update.py:954 | `[b[key] for b in builds]` gives one string per build, in order. It fails exactly when some build lacks a string value for the key. |
| UpdateMessages.ReadyAgentName | bodhi-messages/bodhi/messages/schemas/update.py:971-977 | The ready-for-testing agent is None exactly when the body has no `agent` or a null one; otherwise it is the body's value. |
| UpdateMessages.ReadyUsernames | bodhi-messages/bodhi/messages/schemas/update.py:947-957 | The result is sorted and free of duplicates. A name is in it exactly when it is some build's issuer, or it is the agent and the agent is a non-empty string. Once the issuers are read, a result exists exactly when the agent is absent, falsy of any JSON type (skipped, as `if self.agent_name:` does) or a string. |
| UpdateMessages.ReadyPackages | bodhi-messages/bodhi/messages/schemas/update.py:960-968 | The result is sorted and free of duplicates, and holds exactly the builds' components. |
| UpdateSchemas.Topic | bodhi-messages/bodhi/messages/schemas/update.py:150-901 | The `topic` class attribute of each of the fifteen classes; the edit pair and the ready-for-testing pair share theirs. |
| UpdateSchemas.RequestStatus | bodhi-messages/bodhi/messages/schemas/update.py:566 | The status a request class announces, the last segment of its topic (proved by `UpdateSchemas.RequestTopicStatus`). |
| UpdateSchemas.RequestTopicStatus | bodhi-messages/bodhi/messages/schemas/update.py:566 | For every request class, the last `.`-segment of its topic is the status it announces (revoke, stable, testing, unpush, obsolete). |
| UpdateMessages.RequestWording | bodhi-messages/bodhi/messages/schemas/update.py:567 | A request status uses a past-tense verb exactly when the class is not the stable or testing request. |
| UpdateMessages.SubmittedSummary | bodhi-messages/bodhi/messages/schemas/update.py:572-576 | A stable or testing request summary reads "<agent> submitted <qualifier> update <alias> (<builds>) to stable/testing". |
| UpdateMessages.PastTenseSummary | bodhi-messages/bodhi/messages/schemas/update.py:567-571 | A revoke, unpush or obsolete summary uses the past tense of its status and has no " to <status>" part. |
| UpdateMessages.AliceRequestsTesting | bodhi-messages/bodhi/messages/schemas/update.py:572-576 | Worked case: alice asking for testing of bob's update gives "alice submitted bob's update <alias> (<builds>) to testing". |
| UpdateMessages.OwnerRevokes | bodhi-messages/bodhi/messages/schemas/update.py:567-571 | Worked case: an owner revoking their own update gives "<owner> <past tense of revoke> their update <alias> (<builds>)". |
| UpdateMessages.RequestText | bodhi-messages/bodhi/messages/schemas/update.py:578-600 | `UpdateRequestMessage.__str__`: agent, verb, owner qualifier and alias, " to <status>" only after "submitted", then ".", the heading and the NVRs one per line. Its wording is stated by the next two rows. |
| UpdateMessages.RequestTextWording | bodhi-messages/bodhi/messages/schemas/update.py:578-600 | A request's `__str__` adds " to <status>" exactly when the verb is "submitted", which it is for stable and testing. Then come ".", the "Builds:" heading and the NVRs one per line. |
| UpdateMessages.RequestTextListsBuilds | bodhi-messages/bodhi/messages/schemas/update.py:597-600 | A request's text always exists once the update view does, and ends with the "Builds:" heading and the NVRs one per line. |
| UpdateMessages.TextListsBuilds | bodhi-messages/bodhi/messages/schemas/update.py:152-168 | The text of every comment, request, completed-push, karma and requirements message ends with the "Builds:" heading and the NVRs joined by newlines. The completed-push texts add a trailing space. |
| UpdateMessages.CommentTextListsBuilds | bodhi-messages/bodhi/messages/schemas/update.py:152-168 | The comment text ends with the heading and the NVRs one per line. |
| UpdateMessages.OwnerTextListsBuilds | bodhi-messages/bodhi/messages/schemas/update.py:245-261 | The completed-push, karma and requirements texts end with the heading and the NVRs one per line; completed push adds a space. |
| UpdateMessages.BuildLinesReadBack | bodhi-messages/bodhi/messages/schemas/update.py:168 | The builds block read back by splitting at newlines is the NVRs, when no NVR holds a newline. |
| UpdateMessages.SummaryShowsBuilds | bodhi-messages/bodhi/messages/schemas/update.py:88-90 | Every update message's summary contains its truncated builds summary. |
| UpdateMessages.CommentSummaryShowsBuilds | bodhi-messages/bodhi/messages/schemas/update.py:177-189 | The comment summary contains the builds summary. |
| UpdateMessages.AgentSummaryShowsBuilds | bodhi-messages/bodhi/messages/schemas/update.py:556-576 | The request and edit summaries contain the builds summary. |
| UpdateMessages.OwnerSummaryShowsBuilds | bodhi-messages/bodhi/messages/schemas/update.py:231-243 | The completed-push, eject, karma and requirements summaries contain the builds summary. |
| UpdateMessages.PushSummaryShowsBuilds | bodhi-messages/bodhi/messages/schemas/update.py:283-295 | The completed-push summaries contain the builds summary. |
| UpdateMessages.EjectSummaryShowsBuilds | bodhi-messages/bodhi/messages/schemas/update.py:473-486 | The eject summary contains the builds summary. |
| UpdateMessages.KarmaSummaryShowsBuilds | bodhi-messages/bodhi/messages/schemas/update.py:518-531 | The karma summary contains the builds summary. |
| UpdateMessages.MetSummaryShowsBuilds | bodhi-messages/bodhi/messages/schemas/update.py:743-756 | The requirements-met summary contains the builds summary. |
| UpdateMessages.MetSummaryWording | bodhi-messages/bodhi/messages/schemas/update.py:753-756 | The requirements-met summary reads "<owner>'s <builds> bodhi update has met stable testing requirements". |
| UpdateMessages.Summary | bodhi-messages/bodhi/messages/schemas/update.py:177-1014 | The `summary` of all fifteen classes. A summary exists only when the update view does (for the ready-for-testing pair, the owner and the artifact's builds). For every class except comment, eject and karma, which read further body fields, it exists exactly when the update view does. |
| UpdateMessages.Text | bodhi-messages/bodhi/messages/schemas/update.py:100-1030 | The `__str__` of all fifteen classes. A text exists only when the update view does (for the ready-for-testing pair, the owner and the artifact's builds). The request, completed-push and requirements texts exist exactly when the view does. The eject text is its summary, the base class's `__str__`. |
| UpdateSchemas.V1Required | bodhi-messages/bodhi/messages/schemas/update.py:144 | The `required` list of each written-out update message V1 schema (the twelve classes other than the edit V2 and ready-for-testing pair), one case per class; every list names the key the message reads its update from. |
| UpdateSchemas.V1Description | bodhi-messages/bodhi/messages/schemas/update.py:116-148 | The `description` of each written-out update message V1 schema, one case per class. |
| UpdateSchemas.V1Properties | bodhi-messages/bodhi/messages/schemas/update.py:116-148 | The `properties` of each written-out update message V1 schema, one case per class, with the base schemas for `update` and `user`. |
| UpdateSchemas.SchemaV1 | bodhi-messages/bodhi/messages/schemas/update.py:116-148 | The `body_schema` of every class written out as a literal: the envelope of id, `$schema`, description, properties, required and definitions, or the ready-for-testing V1 literal. |
| UpdateSchemas.ReadyForTestingV1Schema | bodhi-messages/bodhi/messages/schemas/update.py:784-899 | The ready-for-testing V1 `body_schema`: contact, artifact with its koji builds, generation time, version, agent and retrigger flag. |
| UpdateSchemas.UpdateKeyRequired | bodhi-messages/bodhi/messages/schemas/update.py:83-86 | Every update message V1 schema requires the top-level key that `_update` reads: `comment` for comments, `update` otherwise. |
| UpdateSchemas.EnvelopeHasUpdateKey | bodhi-messages/bodhi/messages/schemas/update.py:206-209 | The written-out V1 schema of each update message lists that key in `required`. |
| UpdateSchemas.AddBuildLists | bodhi-messages/bodhi/messages/schemas/update.py:399-415 | On a copy: `new_builds` and `removed_builds` are added to the properties and appended, in that order, to `required`. Every other property and every other top-level key is unchanged. |
| UpdateSchemas.EditV2Schema | bodhi-messages/bodhi/messages/schemas/update.py:398-415 | The edit V2 `required` list is the V1 list followed by `new_builds`, `removed_builds`. The two build lists are the added properties, and the rest of the schema is as in V1. Every payload with the keys V2 requires has the keys V1 requires, so a V1 consumer accepts it. |
| UpdateSchemas.RenameArtifactBuild | bodhi-messages/bodhi/messages/schemas/update.py:993-996 | The V1 `build` definition moves to `artifactbuild` and the builds' items follow it, so an artifact build means what it meant in V1. `definitions.build` becomes the given schema; nothing apart from the three assigned paths changes. |
| UpdateSchemas.AddRequiredProperty | bodhi-messages/bodhi/messages/schemas/update.py:997-998 | The property is added, `required` is extended by exactly that key, and every path apart from the two assigned ones is unchanged. |
| UpdateSchemas.DeriveReadyForTestingV2 | bodhi-messages/bodhi/messages/schemas/update.py:990-998 | For any schema with the dicts the class body assigns into: `required` gains exactly `update`; `artifactbuild` equals the old `build` definition; artifact items resolve as before; the new `build` and `update` are the base schemas; everything else is kept. |
| UpdateSchemas.ReadyForTestingV2Schema | bodhi-messages/bodhi/messages/schemas/update.py:990-998 | The ready-for-testing V2 schema satisfies those laws against the V1 schema. In particular its `artifactbuild` definition is V1's `build` definition. Every payload with the keys V2 requires has the keys V1 requires. |
| UpdateSchemas.ReadyForTestingV1Assignable | bodhi-messages/bodhi/messages/schemas/update.py:784-900 | The ready-for-testing V1 schema has every dict the V2 class body assigns into, and its builds' items refer to `build`. |
| UpdateSchemas.ArtifactBuildsRef | bodhi-messages/bodhi/messages/schemas/update.py:827-831 | The artifact's `builds.items` is a reference to `#/definitions/build`. |
| UpdateSchemas.DerefRefTo | bodhi-messages/bodhi/messages/schemas/update.py:994 | Following `{'$ref': '#/definitions/<name>'}` looks up `definitions.<name>`. |
| Json.AdditiveRequired | bodhi-messages/bodhi/messages/schemas/update.py:990-998 | When a newer schema only appends to the older `required` list, every payload meeting the newer list meets the older one. So does that payload cut down to the older list's keys. |
| Json.AppendedRequiredAccepted | bodhi-messages/bodhi/messages/schemas/update.py:997-998 | For every payload at once: when the newer `required` list is the older one followed by more keys, a payload with the newer keys has the older ones. |
| Json.GetSetSame | bodhi-messages/bodhi/messages/schemas/update.py:993 | After `d[k1]...[kn] = v` the path reads back `v`. |
| Json.GetSetApart | bodhi-messages/bodhi/messages/schemas/update.py:993-998 | An assignment leaves every path that branches away from it unchanged. |
| Strings.SortSorts | bodhi-messages/bodhi/messages/schemas/update.py:69 | `list.sort()` gives a sorted permutation. |
| Strings.SortedUnique | bodhi-messages/bodhi/messages/schemas/update.py:69 | Two sorted permutations of one list are equal, so the sort used stands for Python's. |
| Strings.SortedSetSpec | bodhi-messages/bodhi/messages/schemas/update.py:954-957 | `sorted(set(s))` is sorted, duplicate-free, and holds exactly the elements of `s`. |
| Strings.SortedSetUnique | bodhi-messages/bodhi/messages/schemas/update.py:967-968 | Any sorted, duplicate-free list with the elements of `s` is `sorted(set(s))`. |
| Strings.SplitJoin | bodhi-messages/bodhi/messages/schemas/update.py:599 | `sep.join(xs).split(sep) == xs` when no element holds the separator. |
| Strings.LastSegmentOf | bodhi-messages/bodhi/messages/schemas/update.py:566 | `(prefix + "." + last).split('.')[-1] == last` when `last` has no dot. |
| Strings.NatToStringRoundTrip | bodhi-server/bodhi/server/services/updates.py:586 | The `%i` rendering of a count is a non-empty numeral that reads back as that count. |
| UpdateServices.SetRequest | bodhi-server/bodhi/server/services/updates.py:205-235 | The guards are checked in order: locked; stable to testing; a stable request whose requirements fail. The first that applies is the error and nothing is set. The request is passed to `update.set_request` exactly when none applies. Its result, or its exception's message as the recorded error, is the answer. |
| UpdateServices.RefusedNeverSets | bodhi-server/bodhi/server/services/updates.py:205-224 | A refused request never reaches `update.set_request`: the answer is the same whatever that call would do. |
| UpdateServices.LockCheckedFirst | bodhi-server/bodhi/server/services/updates.py:205-208 | A locked update is refused with the lock error whatever is asked and whatever the requirements say. |
| UpdateServices.RequirementsOnlyForStable | bodhi-server/bodhi/server/services/updates.py:215-224 | The requirements only matter for a stable request to an unlocked update. |
| UpdateServices.RequestChangesOnlyBySetter | bodhi-server/bodhi/server/services/updates.py:226-235 | When the answered update differs from the original, it is what `update.set_request` returned. |
| UpdateServices.CeilDiv | bodhi-server/bodhi/server/services/updates.py:429 | The result is the ceiling: `(q-1)*b < a <= q*b`, or both are zero. |
| UpdateServices.Paginate | bodhi-server/bodhi/server/services/updates.py:427-430 | With zero rows per page it fails with Python's division error, and only then. Otherwise limit is rows_per_page, offset is rows_per_page·(page−1), and pages is ⌈total/rows_per_page⌉, zero exactly when there are no rows. |
| UpdateServices.PageWithinPages | bodhi-server/bodhi/server/services/updates.py:429-430 | For 1 ≤ page ≤ pages the window starts within the rows and `offset + limit ≤ pages·rows_per_page`. |
| UpdateServices.RowOnOnePage | bodhi-server/bodhi/server/services/updates.py:429-430 | Every row is in the window of exactly one page, `i / rows_per_page + 1`, and that page is within the page count. |
| UpdateServices.SelectedPackage | bodhi-server/bodhi/server/services/updates.py:331-333 | `package` is set exactly when the packages filter is non-empty, and then it is one of the packages filtered on. |
| UpdateServices.FirstUnknown | bodhi-server/bodhi/server/services/updates.py:521-522 | The first build that Koji's build info does not know: every earlier build is known. |
| UpdateServices.BuildsOf | bodhi-server/bodhi/server/services/updates.py:537-539 | One build per NVR, in order, each with the release Koji gives it. |
| UpdateServices.ReleasesOf | bodhi-server/bodhi/server/services/updates.py:540 | The set of releases: distinct, holding exactly the builds' releases, no more than the builds. |
| UpdateServices.NvrsFor | bodhi-server/bodhi/server/services/updates.py:592 | An NVR is in a release's group exactly when some build of that NVR has that release. |
| UpdateServices.Drafts | bodhi-server/bodhi/server/services/updates.py:589-594 | One draft per release, each with that release, its builds' NVRs and the side tag. |
| UpdateServices.SplitCaveat | bodhi-server/bodhi/server/services/updates.py:582-587 | The split caveat is named "releases". |
| UpdateServices.SplitCaveatCounts | bodhi-server/bodhi/server/services/updates.py:585-587 | The caveat's description is "Your update is being split into <d>, one for each release.", where `d` is a non-empty decimal numeral that reads back as the count. |
| UpdateServices.Planned | bodhi-server/bodhi/server/services/updates.py:511-604 | The reference outcome of `new_update`. An edit or a new set of drafts is answered only when every build is known, and an edit keeps all the NVRs asked for. |
| UpdateServices.PlannedFor | bodhi-server/bodhi/server/services/updates.py:542-604 | The reference outcome once every build is known. An edit draft needs a truthy `edited` and takes one of the releases. New drafts need a falsy one and are one per release, with at least one release. The `UnboundLocalError` crash happens exactly for a new update without releases. Any draft implies a side tag or releases all composed by Bodhi. |
| UpdateServices.NewUpdate | bodhi-server/bodhi/server/services/updates.py:511-644 | The loops of `new_update` produce exactly the planned outcome: unknown build, not-composed error, edit draft, one draft per release with caveats, or the `UnboundLocalError` of a new update without builds. |
| UpdateServices.GatherBuilds | bodhi-server/bodhi/server/services/updates.py:521-540 | The first loop stops at the first unknown build; when all are known it yields their builds and the set of releases. |
| UpdateServices.SaveBuilds | bodhi-server/bodhi/server/services/updates.py:542-644 | Once all builds are known, the composed check, then the edit or the split, give the planned outcome. |
| UpdateServices.AnyNotComposed | bodhi-server/bodhi/server/services/updates.py:544-552 | The check loop finds a release exactly when some release is not composed by Bodhi. |
| UpdateServices.MakeDrafts | bodhi-server/bodhi/server/services/updates.py:589-600 | The per-release loop makes one draft per release, in order. |
| UpdateServices.UnknownBuildRefused | bodhi-server/bodhi/server/services/updates.py:635-638 | The outcome is "Unable to create update.  'nvr'" exactly when some build is missing from Koji's build info. `request.buildinfo` is a `defaultdict(dict)` (bodhi-server/bodhi/server/__init__.py:84-96), so line 522 reads `{}['nvr']` and raises `KeyError('nvr')` whichever build is missing. |
| UpdateServices.NotComposedRefused | bodhi-server/bodhi/server/services/updates.py:544-552 | With all builds known, the not-composed error is the outcome exactly when there is no side tag and some build's release is not composed by Bodhi. |
| UpdateServices.SomeReleaseNotComposed | bodhi-server/bodhi/server/services/updates.py:545-546 | Some build's release is not composed by Bodhi exactly when one of the gathered releases is not. |
| UpdateServices.SplitPerRelease | bodhi-server/bodhi/server/services/updates.py:582-604 | A new update whose builds are known and allowed gives one draft per distinct release when there is any build. The releases caveat, naming the count, is added exactly when there is more than one release. Without builds the outcome is the `UnboundLocalError` crash. |
| UpdateServices.NoBuilds | bodhi-server/bodhi/server/services/updates.py:574-647 | With no builds, an edit fails with "Unable to create update.  list index out of range" (line 576, inside the `try`). A new update creates nothing and crashes with `UnboundLocalError` when line 644 reads `result`, outside the `try`. |
| UpdateServices.SplitDraftsDistinct | bodhi-server/bodhi/server/services/updates.py:590 | The drafts of a split are for distinct releases. |
| UpdateServices.SplitDraftsCover | bodhi-server/bodhi/server/services/updates.py:589-592 | Every build's release has a draft. |
| UpdateServices.SplitDraftsSound | bodhi-server/bodhi/server/services/updates.py:592 | Every NVR of a draft is a requested build whose release is the draft's release. |
| UpdateServices.DraftsPartitionBuilds | bodhi-server/bodhi/server/services/updates.py:589-594 | Counted with multiplicity, the drafts' NVRs are exactly the requested NVRs, so the groups partition the builds. |
| UpdateServices.GroupedPartition | bodhi-server/bodhi/server/services/updates.py:592 | Grouping builds by a distinct list covering their releases keeps every NVR exactly as often as it occurs. |
| UpdateServices.DraftHoldsItsRelease | bodhi-server/bodhi/server/services/updates.py:592 | Every NVR in a release's group belongs to a build of that release. |
| UpdateServices.TriggerTests | bodhi-server/bodhi/server/services/updates.py:755-766 | An update not in testing records "Update is not in testing status" and publishes nothing. At most one message is published: a ready-for-testing V2 message with the group test message (retrigger set), exactly when the update is in testing and is an RPM update. |
| UpdateServices.TriggerTopic | bodhi-server/bodhi/server/services/updates.py:759-763 | A published test request goes out on the ready-for-testing topic. |

## Left out

- Databases, sessions, commits and rollbacks, Koji, Celery tasks, Greenwave, the message bus and logging are not modelled. What they answer is a parameter, and what is sent to them is part of the result.
- The SQLAlchemy filter chain and the count query of `query_updates` are not modelled; the row total is a parameter.
- `UpdateServices.Paginate` uses exact integer ceiling division for `math.ceil(total / float(rows_per_page))`. It does not model floating-point rounding of very large totals.
- In `new_update`, the builds and releases are re-read after the commit. The model assumes the re-read gives the same builds and releases as the first loop.
- `Update.new`, `Update.edit`, `obsolete_older_updates`, the side-tag tagging task after the split, and the caveats those calls add are not modelled. The outcome is the drafts handed to them, and `LockedUpdateException` from `Update.edit` is not modelled.
- `UpdateServices.NewUpdate`: the request validators that run before the handler (`validate_builds_or_from_tag_exist` and the others at updates.py:463-475) are not part of this model. Every input, including an empty build list, is taken to reach the handler. A new update without builds is modelled as what the handler itself then does: it raises `UnboundLocalError` at line 644, outside its `try`.
- Python's iteration order of a `set` of releases is unspecified. The model uses first-appearance order, and an edit keeps the first release in that order.
- `UpdateServices.SetRequest`: when `update.set_request` raises after changing the update, the answer carries the update as it was before the call; partial changes made before the exception are not modelled.
- The `UpdateStatus`, `UpdateRequest` and `ContentType` enumerations come from the server models, which are not part of this model. Only the members the handlers compare against matter.
- `past_tense`, `truncate`, `BodhiMessage`, `UpdateV1.packages` and the `.schema()` of `UpdateV1`, `BuildV1` and `UserV1` are not part of this model. They are parameters with no assumed behaviour, so NVR splitting and truncation length are not stated.
- JSON-Schema validation itself is done by the messaging library. Schemas are JSON trees, and the evolution law is stated on their `required` lists and assigned paths.
- The V1 schemas cannot be changed by the V2 derivations: schemas are values, which stands for `copy.deepcopy`.
- Python does not check the types of body fields; the model reads them as strings (or lists) and answers `None` for any other JSON type, where Python would go on:
  - `UpdateMessages.View` (so `UpdateMessages.Url`, `UpdateMessages.UpdateMessage.Update`, `UpdateMessages.UpdateMessage.Usernames` and `UpdateMessages.UpdateMessage.Packages`) requires a string alias, status, `user.name`, `release.name` and build `nvr`. `UpdateV1(...)` accepts any value there.
  - `UpdateMessages.ReadyUsernames` and `UpdateMessages.ReadyPackages` require string issuers and components, and `ReadyUsernames` answers `None` for a truthy agent that is not a string. Python puts any hashable value in the set, and `sorted` raises only when it meets values it cannot compare.
  - `UpdateMessages.Summary` and `UpdateMessages.Text` answer `None` for a printed field of another type, such as a number where a string is expected. Python would print its `str()`.
- The edit message texts (`UpdateEditV1.__str__`, `UpdateEditV2.__str__`) are modelled by `UpdateMessages.Text`, but no lemma beyond the builds-summary one states their wording.
- `UpdateMessages.SummaryShowsBuilds`: states that each summary contains the builds summary. The exact wording is proved only for the request and requirements-met messages (`UpdateMessages.SubmittedSummary`, `UpdateMessages.PastTenseSummary`, `UpdateMessages.MetSummaryWording`).
