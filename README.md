# OpenMetadata: back-end helpers and UI page rules, in Dafny

OpenMetadata is a metadata catalogue: a Java service, an OpenSearch or
Elasticsearch index, and a React front end. This project models the small,
exact rules of that code base:

- **Back end**
  - how the search repository names indices under a cluster alias, routes
    inherited-field and delete updates to child documents, and assembles
    update scripts;
  - the decision rules of the `openmetadata-ops` command line;
  - the SSL key rename in the server configuration;
  - the chart search document;
  - the Flowable field-extension builder.
- **Front end**
  - the glossary-term page's widget table;
  - the domain utilities;
  - the glossary page's loading and navigation;
  - the state updates and permissions of the stored-procedure, search-index,
    container and topic pages;
  - the topic schema and pipeline task tabs;
  - the incident header and its resolution stepper;
  - the feed-card footer;
  - the team picker.

Each source file is one Dafny module. Three shared modules serve these:

- `Wrappers`: Option and Result.
- `JavaStrings`: `split`, `join`, `trim`, `indexOf` and case folding, as
  java.lang.String defines them.
- `JsValues`: JavaScript values. A missing property reads as `undefined`,
  object spread is map union, and truthiness is JavaScript's.

`EntityPageCommon` holds the rules the entity pages share:

- the `(specific || EditAll) && !deleted` permission;
- the follower list;
- the soft-delete toggle;
- merging a server response into page state.

How the source's code is modelled:

- Code that mutates objects is Dafny classes with `modifies` clauses:
  - the configuration's SSL map;
  - the chart document and its suggestions;
  - the field-extension builder;
  - the widget class's layout and heights;
  - each page's React state.
- Loops are methods with invariants, proved against specification
  functions:
  - the update-script builder;
  - the paged glossary fetch;
  - the reindex polling;
  - the incident stepper.
- The stream pipelines of index-name prefixing are recursive functions
  over the list of parts.
- Server calls, routes and helpers that are not shown become parameters.
  One example is a function `split` standing for `Fqn.split`, or
  `compare` for fast-json-patch.
- Each server response is an input, with `None` for a call that throws.

`Entity.java` is not part of this model. The entity type and field names
the search repository uses are the constants at the top of
`search_repository.dfy`:

- entity types: `databaseService`, `dashboardService`, `messagingService`,
  `pipelineService`, `mlmodelService`, `storageService`, `searchService`,
  `apiService`, `dashboard`, `domain`, `dataProduct`, `tag`, `glossaryTerm`,
  `testSuite`, `query`;
- fields: `owners`, `domain`, `disabled`, `testSuites`, `displayName`,
  `followers`, `usageSummary`.

`isRunCompleted` is the predicate `OpenMetadataOperations.IsRunCompleted`:
a record exists and has an execution time. Its meaning is stated in the
contract of `WaitAndReturnReindexingAppStatus`.

Two behaviours of the source are modelled as written and stated as
lemmas:

- `UnquotedEntityListLosesLetters`: the `--entities` argument always loses
  its first and last characters, so an unquoted `table,dashboard` selects
  `able` and `dashboar`.
- `ApiServiceRoutedAsOrdinaryType`: the delete and soft-delete routes do
  not list `apiService` among the service types, while `getFieldPath` does.
  On a delete or a soft delete, an API service's children are therefore
  matched on `apiService.id` instead of `service.id`.

## Model

| member | source | states |
|---|---|---|
| SearchRepository.QualifiedNames | openmetadata-service/src/main/java/org/openmetadata/service/search/SearchRepository.java:217-219 | one output name per input part, each the alias-and-separator prefix followed by the trimmed part |
| SearchRepository.GetIndexOrAliasName | openmetadata-service/src/main/java/org/openmetadata/service/search/SearchRepository.java:213-220 | a null or empty cluster alias returns the name unchanged; with an alias, the result starts with the alias and the separator |
| SearchRepository.GetIndexNameWithoutAlias | openmetadata-service/src/main/java/org/openmetadata/service/search/SearchRepository.java:222-229 | when the name starts with alias plus separator, that prefix followed by the result is the name; otherwise the name is returned unchanged |
| SearchRepository.AliasPreservesParts | openmetadata-service/src/main/java/org/openmetadata/service/search/SearchRepository.java:213-220 | with an alias free of commas, the aliased name splits back into exactly one qualified part per comma-separated input part |
| SearchRepository.StripAfterAdd | openmetadata-service/src/main/java/org/openmetadata/service/search/SearchRepository.java:213-229 | removing the alias from an aliased single index name gives back the trimmed name |
| SearchRepository.NoAliasIsIdentity | openmetadata-service/src/main/java/org/openmetadata/service/search/SearchRepository.java:213-229 | without an alias, adding and removing the alias both return the name unchanged |
| SearchRepository.GetFieldPath | openmetadata-service/src/main/java/org/openmetadata/service/search/SearchRepository.java:722-735 | a service type (any of the eight, ignoring case) gives `service.<field>`; any other type gives `<type>.<field>` |
| SearchRepository.IsServiceType | openmetadata-service/src/main/java/org/openmetadata/service/search/SearchRepository.java:722-735 | the eight service types, compared ignoring case |
| SearchRepository.FieldPathIgnoresServiceCase | openmetadata-service/src/main/java/org/openmetadata/service/search/SearchRepository.java:722-735 | two spellings of a service type that differ only in case give the same `service.<field>` path |
| SearchRepository.MarkInherited | openmetadata-service/src/main/java/org/openmetadata/service/search/SearchRepository.java:618-622 | the copied owners are the entity's owners, in order, each with `inherited` set |
| SearchRepository.ApplyChanges | openmetadata-service/src/main/java/org/openmetadata/service/search/SearchRepository.java:614-718 | the loop over one list of field changes builds exactly the step-by-step fold of those changes |
| SearchRepository.Step | openmetadata-service/src/main/java/org/openmetadata/service/search/SearchRepository.java:614-717 | one field change of the inherited-changes loop: owners, display-name and other inheritable fields, for each of the three kinds |
| SearchRepository.GetInheritedFieldChanges | openmetadata-service/src/main/java/org/openmetadata/service/search/SearchRepository.java:608-720 | deleted, then updated, then added changes; the script is empty exactly when no change names an inheritable field; the parameters hold only inheritable fields and the owner and previous-value keys |
| SearchRepository.FoldIgnoresOtherFields | openmetadata-service/src/main/java/org/openmetadata/service/search/SearchRepository.java:614-718 | dropping the changes to non-inheritable fields leaves the script and parameters unchanged |
| SearchRepository.FoldScriptGrowth | openmetadata-service/src/main/java/org/openmetadata/service/search/SearchRepository.java:614-718 | the script only grows, keeps what it had as a prefix, and stays the same length exactly when none of the changes is inheritable |
| SearchRepository.ScriptEmptyIffNoInheritableChange | openmetadata-service/src/main/java/org/openmetadata/service/search/SearchRepository.java:608-720 | the script is empty if and only if no added, updated or deleted change names an inheritable field |
| SearchRepository.DataKeys | openmetadata-service/src/main/java/org/openmetadata/service/search/SearchRepository.java:608-720 | every parameter key is an inheritable field or one of `deletedOwners`, `updatedOwners`, `entityBeforeUpdate` |
| SearchRepository.ParentMatch | openmetadata-service/src/main/java/org/openmetadata/service/search/SearchRepository.java:454-472 | a service whose parameters carry `domain` or `displayName` is matched by `service.id`; every other parent by `<type>.id`; the value is the entity id |
| SearchRepository.PropagateInheritedFieldsToChildren | openmetadata-service/src/main/java/org/openmetadata/service/search/SearchRepository.java:445-478 | a child update is sent if and only if there is a change description with an inheritable change and some child aliases; the call carries the computed script, parameters and parent match |
| SearchRepository.UnreadableDomainKeepsTypeMatch | openmetadata-service/src/main/java/org/openmetadata/service/search/SearchRepository.java:454-472 | an added domain whose value cannot be read as a reference gives the plain propagate script and no `domain` parameter, so even a service is matched by `<type>.id` |
| SearchRepository.PutEachKeepsLast | openmetadata-service/src/main/java/org/openmetadata/service/search/SearchRepository.java:955-963 | putting each deleted follower's id under one key leaves only the last id |
| SearchRepository.ParamMap.constructor | openmetadata-service/src/main/java/org/openmetadata/service/search/SearchRepository.java:934-937 | the caller's parameter map holds the given entries |
| SearchRepository.GetScriptWithParams | openmetadata-service/src/main/java/org/openmetadata/service/search/SearchRepository.java:934-1000 | the caller's map ends as the specified parameters; the script is returned unless the call throws (None, after the earlier puts): a followers change whose new or old value is not a list of references, a usage summary that is not a usage-details object, or a query's `queryUsedIn` that is not a list of references |
| SearchRepository.AppendAddedFollowers | openmetadata-service/src/main/java/org/openmetadata/service/search/SearchRepository.java:942-953 | each added followers field (ignoring case) puts its ids and appends one add clause; a non-list value stops the loop as failed |
| SearchRepository.AppendDeletedFollowers | openmetadata-service/src/main/java/org/openmetadata/service/search/SearchRepository.java:955-965 | each deleted followers field puts every follower id in turn under its name and appends one remove clause; a non-list value stops the loop as failed |
| SearchRepository.AppendUpdatedFields | openmetadata-service/src/main/java/org/openmetadata/service/search/SearchRepository.java:967-998 | the loop over updated fields builds exactly the fold of their checks, and it fails exactly when some updated field it reaches has a usage summary or (for a query) a `queryUsedIn` of the wrong kind |
| SearchRepository.UpdateOneField | openmetadata-service/src/main/java/org/openmetadata/service/search/SearchRepository.java:968-997 | the usage summary, query usage (queries only), votes, pipeline status and test suites checks are applied in that order, each appending its clause and parameter; the call fails exactly when the usage summary is not usage details or a query's `queryUsedIn` is not a list of references |
| SearchRepository.UpdatedFieldStep | openmetadata-service/src/main/java/org/openmetadata/service/search/SearchRepository.java:967-998 | one updated field's five checks in source order |
| SearchRepository.UsageSummaryCheck | openmetadata-service/src/main/java/org/openmetadata/service/search/SearchRepository.java:968-972 | a `usageSummary` change adds its clause and parameter when its value is usage details and throws otherwise; other fields change nothing |
| SearchRepository.QueryUsedInCheck | openmetadata-service/src/main/java/org/openmetadata/service/search/SearchRepository.java:973-981 | a query's `queryUsedIn` change adds its clause and parameter when its value is a list of references and throws otherwise; other fields and types change nothing |
| SearchRepository.VotesCheck | openmetadata-service/src/main/java/org/openmetadata/service/search/SearchRepository.java:982-986 | a `votes` change adds its clause and parameter |
| SearchRepository.PipelineStatusCheck | openmetadata-service/src/main/java/org/openmetadata/service/search/SearchRepository.java:987-992 | a `pipelineStatus` change adds its clause and parameter |
| SearchRepository.TestSuitesCheck | openmetadata-service/src/main/java/org/openmetadata/service/search/SearchRepository.java:993-997 | a `testSuites` change adds its clause and parameter |
| SearchRepository.ScriptWithParams | openmetadata-service/src/main/java/org/openmetadata/service/search/SearchRepository.java:934-1000 | the specification of the script builder: added, then deleted, then updated fields folded over one state |
| SearchRepository.FoldAddedThrows | openmetadata-service/src/main/java/org/openmetadata/service/search/SearchRepository.java:942-953 | the added-fields loop fails exactly when some added followers value is not a list of references |
| SearchRepository.FoldDeletedThrows | openmetadata-service/src/main/java/org/openmetadata/service/search/SearchRepository.java:955-965 | the deleted-fields loop fails exactly when some deleted followers value is not a list of references |
| SearchRepository.FoldUpdatedThrows | openmetadata-service/src/main/java/org/openmetadata/service/search/SearchRepository.java:967-998 | the updated-fields loop fails exactly when some updated field throws |
| SearchRepository.ScriptFailsIffSomeChangeThrows | openmetadata-service/src/main/java/org/openmetadata/service/search/SearchRepository.java:934-1000 | the whole script fails exactly when some added, deleted or updated change throws |
| SearchRepository.FoldsExtend | openmetadata-service/src/main/java/org/openmetadata/service/search/SearchRepository.java:940-998 | none of the three loops removes script text, overwrites `updatedAt`, or changes anything after a failure |
| SearchRepository.ScriptStartsWithUpdatedAt | openmetadata-service/src/main/java/org/openmetadata/service/search/SearchRepository.java:934-1000 | the script always begins with the `updatedAt` assignment and the parameters always hold the entity's `updatedAt` |
| SearchRepository.FollowerClausePerAddedField | openmetadata-service/src/main/java/org/openmetadata/service/search/SearchRepository.java:942-953 | when no cast fails, the added fields add one followers clause per followers field, so the text is the start followed by that many clauses |
| SearchRepository.DeleteOrUpdateChildren | openmetadata-service/src/main/java/org/openmetadata/service/search/SearchRepository.java:831-899 | the full route table: a domain gives the global domain-removal update and then a delete by `domain.id`; a data product the global removal by `dataProducts.id` with its FQN; a tag or glossary term the global tag removal by `tags.tagFQN`; a dashboard a soft delete of the children by `dashboards.id`; a basic test suite a delete by `testSuite.id`, any other test suite a removal by `testSuites.id`; the seven routed service types a delete by `service.id`; every other type a delete by `<type>.id` when there are child aliases and no call otherwise |
| SearchRepository.SoftDeleteOrRestoredChildren | openmetadata-service/src/main/java/org/openmetadata/service/search/SearchRepository.java:901-932 | always one call on the child aliases, matched by `service.id` for routed services, `dashboards.id` for dashboards and `<type>.id` otherwise; dashboards get the literal size-check script with the delete flag |
| SearchRepository.ApiServiceRoutedAsOrdinaryType | openmetadata-service/src/main/java/org/openmetadata/service/search/SearchRepository.java:881-898 | `apiService` is a service for field paths but the delete routes treat it as an ordinary type and match `apiService.id` |
| SearchRepository.ChildRoutesAreCaseSensitive | openmetadata-service/src/main/java/org/openmetadata/service/search/SearchRepository.java:905-931 | the child routes compare types exactly: `DatabaseService` is a service for field paths but its children are matched by `DatabaseService.id` |
| OpenMetadataOperations.IsValidEmail | openmetadata-service/src/main/java/org/openmetadata/service/util/OpenMetadataOperations.java:419-422 | the email check as a scan: a non-empty local part before the first `@`, and a domain whose last dot has a non-empty name before it and at least two letters after it |
| OpenMetadataOperations.ValidEmailIffPattern | openmetadata-service/src/main/java/org/openmetadata/service/util/OpenMetadataOperations.java:419-422 | the scan `IsValidEmail` used by the model accepts exactly the emails the pattern `^[A-Za-z0-9._%+-]+@[A-Za-z0-9.-]+\.[A-Za-z]{2,}$` matches, in both directions |
| OpenMetadataOperations.CreateUser | openmetadata-service/src/main/java/org/openmetadata/service/util/OpenMetadataOperations.java:414-447 | exit code 0 or 1; an empty password or an invalid email fails before the configuration is read; a created user splits the email at an `@` into a name without `@` and a domain; success exactly when the password and email are accepted, the provider is basic, the user is new and creation does not throw |
| OpenMetadataOperations.CreateUserFollowsEmailPattern | openmetadata-service/src/main/java/org/openmetadata/service/util/OpenMetadataOperations.java:414-447 | the same outcome stated against the email pattern itself: an email the pattern rejects exits 1 without reading the configuration, and exit 0 requires a matching email |
| OpenMetadataOperations.CreatedUserSplitsAtFirstAt | openmetadata-service/src/main/java/org/openmetadata/service/util/OpenMetadataOperations.java:438-442 | for an accepted email on a basic provider, the username is the text before the first `@` and the domain the text after it |
| OpenMetadataOperations.InstallApp | openmetadata-service/src/main/java/org/openmetadata/service/util/OpenMetadataOperations.java:350-371 | an installed app without `--force` exits 0 and does nothing; a deletion is reported exactly when `--force` was given and `deleteApplication` found and deleted the app (an absent app is caught and skipped); exit 0 exactly when neither the configuration, a forced delete nor the install throws (or the app was already there); an install happens exactly on a successful run that was forced or found no app |
| OpenMetadataOperations.ParseTransportationStrategy | openmetadata-service/src/main/java/org/openmetadata/service/util/OpenMetadataOperations.java:299-307 | the upper-cased argument selects SMTP or SMTPS by name, and every other value falls back to SMTP_TLS |
| OpenMetadataOperations.ParseTemplates | openmetadata-service/src/main/java/org/openmetadata/service/util/OpenMetadataOperations.java:311-316 | the upper-cased argument `COLLATE` selects COLLATE and every other value gives OPENMETADATA |
| OpenMetadataOperations.EnumFallbacks | openmetadata-service/src/main/java/org/openmetadata/service/util/OpenMetadataOperations.java:299-316 | an unrecognised strategy or template, whatever its case, falls back to SMTP_TLS and OPENMETADATA |
| OpenMetadataOperations.StoredPassword | openmetadata-service/src/main/java/org/openmetadata/service/util/OpenMetadataOperations.java:297 | a missing password is stored as the empty string, a given one as it is |
| OpenMetadataOperations.ParseEntities | openmetadata-service/src/main/java/org/openmetadata/service/util/OpenMetadataOperations.java:730-731 | a string shorter than two characters throws; otherwise the set is the comma-split of the string without its first and last characters |
| OpenMetadataOperations.EntitiesBetweenFirstAndLast | openmetadata-service/src/main/java/org/openmetadata/service/util/OpenMetadataOperations.java:730-731 | whatever the first and last characters are, a list of comma-free names between them is selected exactly |
| OpenMetadataOperations.DefaultEntitiesIsAll | openmetadata-service/src/main/java/org/openmetadata/service/util/OpenMetadataOperations.java:703-706 | the default `'all'` selects the single entry `all` |
| OpenMetadataOperations.UnquotedEntityListLosesLetters | openmetadata-service/src/main/java/org/openmetadata/service/util/OpenMetadataOperations.java:730-731 | the unquoted argument `table,dashboard` selects `able` and `dashboar`: the first and last letters are removed unconditionally |
| OpenMetadataOperations.GetBackfillConfiguration | openmetadata-service/src/main/java/org/openmetadata/service/util/OpenMetadataOperations.java:869-881 | no start date: disabled with no dates; a start date: enabled with that start and the given end date, or today when none is given |
| OpenMetadataOperations.GetValueOrUnavailable | openmetadata-service/src/main/java/org/openmetadata/service/util/OpenMetadataOperations.java:979-981 | a null or empty value reads `Unavailable`, anything else its JSON form |
| OpenMetadataOperations.ExitCodeForStatus | openmetadata-service/src/main/java/org/openmetadata/service/util/OpenMetadataOperations.java:970-976 | a completed run exits 0 exactly when its status is SUCCESS or COMPLETED, otherwise 1 |
| OpenMetadataOperations.IsRunCompleted | openmetadata-service/src/main/java/org/openmetadata/service/util/OpenMetadataOperations.java:983-989 | a run record exists and has an execution time |
| OpenMetadataOperations.WaitAndReturnReindexingAppStatus | openmetadata-service/src/main/java/org/openmetadata/service/util/OpenMetadataOperations.java:921-977 | polling stops at the first poll after which the held record is completed (a throwing poll keeps the previous record) and returns that record's exit code; no earlier poll showed a completed run; when the polls run out the run is still incomplete at every point |
| ApplicationConfig.RenameCertificatePath | openmetadata-service/src/main/java/org/openmetadata/service/OpenMetadataApplicationConfig.java:74-80 | a null SSL map stays null; a map with `certificatePath` loses that key and gets its value under `caCertificate`; a map without it is unchanged; every other key is kept |
| ApplicationConfig.RenameIdempotent | openmetadata-service/src/main/java/org/openmetadata/service/OpenMetadataApplicationConfig.java:72-83 | renaming a second time changes nothing |
| ApplicationConfig.PipelineServiceClientConfiguration.constructor | openmetadata-service/src/main/java/org/openmetadata/service/OpenMetadataApplicationConfig.java:72-83 | the section holds the given SSL map |
| ApplicationConfig.OpenMetadataApplicationConfig.constructor | openmetadata-service/src/main/java/org/openmetadata/service/OpenMetadataApplicationConfig.java:72-83 | the configuration holds the given section, possibly null |
| ApplicationConfig.OpenMetadataApplicationConfig.GetPipelineServiceClientConfiguration | openmetadata-service/src/main/java/org/openmetadata/service/OpenMetadataApplicationConfig.java:72-83 | returns the held section; a present section's SSL map is replaced by its renamed form |
| ApplicationConfig.ReadTwice | openmetadata-service/src/main/java/org/openmetadata/service/OpenMetadataApplicationConfig.java:72-83 | for any section, two successive reads both see the original SSL map renamed once, and that map is what the section keeps |
| ChartIndexes.EntityReference.constructor | openmetadata-service/src/main/java/org/openmetadata/service/search/indexes/ChartIndex.java:26-30 | an owner reference with the given name and display name |
| ChartIndexes.Chart.constructor | openmetadata-service/src/main/java/org/openmetadata/service/search/indexes/ChartIndex.java:19-23 | a chart with the given name, FQN and owner |
| ChartIndexes.ChartIndex.constructor | openmetadata-service/src/main/java/org/openmetadata/service/search/indexes/ChartIndex.java:21-23 | the index wraps the given chart |
| ChartIndexes.OwnerDisplayName | openmetadata-service/src/main/java/org/openmetadata/service/search/indexes/ChartIndex.java:28 | a null or empty display name becomes the owner's name; any other is kept |
| ChartIndexes.Suggest | openmetadata-service/src/main/java/org/openmetadata/service/search/indexes/ChartIndex.java:33-35 | exactly two suggestions: the name with weight 10, then the FQN with weight 5 |
| ChartIndexes.ChartIndex.BuildESDoc | openmetadata-service/src/main/java/org/openmetadata/service/search/indexes/ChartIndex.java:25-43 | the owner's display name is filled in place and its name kept; the document is the serialised chart minus the excluded fields, plus `fqnParts`, `suggest` and `entityType` = `chart` |
| ChartIndexes.DisplayNameFallbackIsIdempotent | openmetadata-service/src/main/java/org/openmetadata/service/search/indexes/ChartIndex.java:28 | applying the fallback twice equals applying it once, and it always yields a display name |
| FieldExtensionBuilders.FieldExtensionBuilder.constructor | openmetadata-service/src/main/java/org/openmetadata/service/governance/workflows/flowable/builders/FieldExtensionBuilder.java:5-9 | a new builder has no name, no value and no expression |
| FieldExtensionBuilders.FieldExtensionBuilder.FieldName | openmetadata-service/src/main/java/org/openmetadata/service/governance/workflows/flowable/builders/FieldExtensionBuilder.java:11-14 | sets the name, keeps the other fields and returns the same builder |
| FieldExtensionBuilders.FieldExtensionBuilder.FieldValue | openmetadata-service/src/main/java/org/openmetadata/service/governance/workflows/flowable/builders/FieldExtensionBuilder.java:16-19 | sets the value, keeps the other fields and returns the same builder |
| FieldExtensionBuilders.FieldExtensionBuilder.Expression | openmetadata-service/src/main/java/org/openmetadata/service/governance/workflows/flowable/builders/FieldExtensionBuilder.java:21-24 | sets the expression, keeps the other fields and returns the same builder |
| FieldExtensionBuilders.FieldExtensionBuilder.Build | openmetadata-service/src/main/java/org/openmetadata/service/governance/workflows/flowable/builders/FieldExtensionBuilder.java:26-38 | succeeds exactly when a value or an expression is set; the name is always copied; a value wins and leaves no expression; otherwise the expression is used; failing carries the source's message |
| FieldExtensionBuilders.ValueWinsOverExpression | openmetadata-service/src/main/java/org/openmetadata/service/governance/workflows/flowable/builders/FieldExtensionBuilder.java:26-38 | a chain setting name, expression and value builds the value without the expression |
| FieldExtensionBuilders.NameOnlyFails | openmetadata-service/src/main/java/org/openmetadata/service/governance/workflows/flowable/builders/FieldExtensionBuilder.java:26-38 | a chain setting only a name fails with the missing-value message |
| DomainUtils.Nodes | openmetadata-ui/src/main/resources/ui/src/utils/DomainUtils.tsx:310-325 | the list of nodes searched starts with the domain itself, followed by its descendants |
| DomainUtils.IsDomainExist | openmetadata-ui/src/main/resources/ui/src/utils/DomainUtils.tsx:310-325 | the domain itself has the searched FQN, or one of its children does, recursively |
| DomainUtils.IsDomainExistIffSomeNode | openmetadata-ui/src/main/resources/ui/src/utils/DomainUtils.tsx:310-325 | the recursive search is true exactly when the root or some descendant has the searched FQN |
| DomainUtils.ForestSearch | openmetadata-ui/src/main/resources/ui/src/utils/DomainUtils.tsx:318-322 | some child's search succeeds exactly when some node below the children has the FQN |
| DomainUtils.ConvertDomainsToTreeOptions | openmetadata-ui/src/main/resources/ui/src/utils/DomainUtils.tsx:253-302 | one option per domain in the same order, with id, name, label, key and value from the domain; `isLeaf` exactly when there are no children; `selectable` is `!multiple`; the top-level icon only at level 0 |
| DomainUtils.ConvertDomain | openmetadata-ui/src/main/resources/ui/src/utils/DomainUtils.tsx:258-298 | an option keeps its domain's key, id and name and has one child option per child domain |
| DomainUtils.TreeKeepsShape | openmetadata-ui/src/main/resources/ui/src/utils/DomainUtils.tsx:253-302 | the converted tree lists the same FQNs in the same order at every depth |
| DomainUtils.SelectableEverywhere | openmetadata-ui/src/main/resources/ui/src/utils/DomainUtils.tsx:290-296 | children are converted with the same `multiple`, so every option at every depth is selectable exactly when the selection is single |
| DomainUtils.ConvertAt | openmetadata-ui/src/main/resources/ui/src/utils/DomainUtils.tsx:258 | the i-th option is the conversion of the i-th domain |
| DomainUtils.GetDomainFieldFromEntityType | openmetadata-ui/src/main/resources/ui/src/utils/DomainUtils.tsx:243-251 | `domains` exactly for teams and users, `domain` for every other type |
| DomainUtils.GetQueryFilterToExcludeDomainTerms | openmetadata-ui/src/main/resources/ui/src/utils/DomainUtils.tsx:109-142 | no must_not at the top; a given parent FQN adds exactly one leading term on it, and the last clause always excludes the domain's own FQN |
| DomainUtils.GetQueryFilterForDomain | openmetadata-ui/src/main/resources/ui/src/utils/DomainUtils.tsx:144-157 | assets under the FQN prefix, excluding data products |
| DomainUtils.DomainOptionsKeys | openmetadata-ui/src/main/resources/ui/src/utils/DomainUtils.tsx:177-208 | one more option than there are domains; the first has the default key and the others follow the input order keyed by FQN, "" when absent |
| DomainUtils.GetDomainOptions | openmetadata-ui/src/main/resources/ui/src/utils/DomainUtils.tsx:177-208 | the loop pushes exactly the specified menu: the all-domains item, then one item per domain |
| DomainUtils.FindIndex | openmetadata-ui/src/main/resources/ui/src/utils/DomainUtils.tsx:233-235 | the index of the first domain whose FQN equals the key, or none when no domain has it |
| DomainUtils.InitializeDomainEntityRef | openmetadata-ui/src/main/resources/ui/src/utils/DomainUtils.tsx:229-241 | undefined exactly when no domain has the key; otherwise the reference to the first domain that has it |
| GlossaryPage.IsGlossaryActive | openmetadata-ui/src/main/resources/ui/src/pages/Glossary/GlossaryPage/GlossaryPage.component.tsx:104-113 | true when the route has no FQN; otherwise true exactly when the FQN splits into one part |
| GlossaryPage.FetchStep | openmetadata-ui/src/main/resources/ui/src/pages/Glossary/GlossaryPage/GlossaryPage.component.tsx:163-189 | one more page, fetched when the last page said go on, keeps the record of requests, cursors and pages |
| GlossaryPage.FetchStop | openmetadata-ui/src/main/resources/ui/src/pages/Glossary/GlossaryPage/GlossaryPage.component.tsx:163-191 | when the last page says stop (no cursor, or the FQN found), the loop has loaded exactly those pages in order |
| GlossaryPage.FetchGlossaryList | openmetadata-ui/src/main/resources/ui/src/pages/Glossary/GlossaryPage/GlossaryPage.component.tsx:155-198 | a loaded list is the concatenation of the pages fetched, each request sent with the previous page's cursor, stopping at the first page with no next cursor or after which the FQN is present; without an FQN at most one request; a throwing request leaves the list unset, after requests that each got a page that said go on, and was itself sent with the right cursor; when the answers given run out, every request so far got a page that said go on |
| GlossaryPage.Find | openmetadata-ui/src/main/resources/ui/src/pages/Glossary/GlossaryPage/GlossaryPage.component.tsx:269-271 | the first glossary whose FQN matches, or none exactly when no glossary has it |
| GlossaryPage.ChooseActiveGlossary | openmetadata-ui/src/main/resources/ui/src/pages/Glossary/GlossaryPage/GlossaryPage.component.tsx:263-280 | nothing before glossaries are loaded; a term route fetches term details; otherwise the active glossary is the first one with the FQN, or the first glossary, and a route without an FQN whose first glossary has an FQN is replaced by `getGlossaryPath` of that FQN |
| GlossaryPage.Without | openmetadata-ui/src/main/resources/ui/src/pages/Glossary/GlossaryPage/GlossaryPage.component.tsx:337 | the glossaries kept are exactly those whose id differs from the deleted one; order and multiplicity are fixed by WithoutAppend |
| GlossaryPage.WithoutAppend | openmetadata-ui/src/main/resources/ui/src/pages/Glossary/GlossaryPage/GlossaryPage.component.tsx:337-342 | the filter maps a concatenation to the concatenation of the filtered parts, and keeps one glossary exactly when its id is not the deleted one, so order and multiplicity are kept |
| GlossaryPage.WithoutKeepsFirst | openmetadata-ui/src/main/resources/ui/src/pages/Glossary/GlossaryPage/GlossaryPage.component.tsx:337-342 | the first glossary left after the delete is the first one whose id is not the deleted one |
| GlossaryPage.HandleGlossaryDelete | openmetadata-ui/src/main/resources/ui/src/pages/Glossary/GlossaryPage/GlossaryPage.component.tsx:326-357 | a failed delete changes nothing; a successful one leaves exactly Without(glossaries, id), the list in its order minus the glossaries with that id, and goes to the first remaining glossary, or to the glossary root when none is left |
| GlossaryPage.HandleGlossaryTermUpdate | openmetadata-ui/src/main/resources/ui/src/pages/Glossary/GlossaryPage/GlossaryPage.component.tsx:359-389 | an empty patch sends nothing; otherwise the patch goes out for the active glossary's id; without a response only an error is shown; with one, the response becomes the active glossary, a changed name (or no active glossary) moves the route to the response's path and reloads the list, and the terms are refreshed exactly when some operation's path starts with `/owners` |
| GlossaryPage.ParentFqn | openmetadata-ui/src/main/resources/ui/src/pages/Glossary/GlossaryPage/GlossaryPage.component.tsx:402-407 | no FQN stays none; otherwise the FQN's parts without the last, joined with `.` |
| GlossaryPage.ParentOfTopLevelTerm | openmetadata-ui/src/main/resources/ui/src/pages/Glossary/GlossaryPage/GlossaryPage.component.tsx:402-410 | deleting a term directly under its glossary returns to the glossary |
| GlossaryPage.UpdateVote | openmetadata-ui/src/main/resources/ui/src/pages/Glossary/GlossaryPage/GlossaryPage.component.tsx:302-318 | the vote goes to the glossary endpoint exactly when the active FQN has at most one part, with the active id or "" |
| GlossaryPage.VoteOnActiveGlossary | openmetadata-ui/src/main/resources/ui/src/pages/Glossary/GlossaryPage/GlossaryPage.component.tsx:302-318 | on a glossary route the vote goes to the glossary endpoint |
| GlossaryTermLayout.CustomizeGlossaryTermPageClassBase.constructor | openmetadata-ui/src/main/resources/ui/src/utils/CustomizeGlossaryTerm/CustomizeGlossaryTermBaseClass.ts:105-139 | the heights table is the thirteen fixed heights; the layout is the header (height 1) above the tabs (height 10, row 1), both static and spanning all 8 columns |
| GlossaryTermLayout.DefaultLayout | openmetadata-ui/src/main/resources/ui/src/utils/CustomizeGlossaryTerm/CustomizeGlossaryTermBaseClass.ts:122-139 | the header and the tabs across all 8 columns, in rows 0 and 1, static, with heights read from the record |
| GlossaryTermLayout.CustomizeGlossaryTermPageClassBase.UpdateDefaultLayoutLayout | openmetadata-ui/src/main/resources/ui/src/utils/CustomizeGlossaryTerm/CustomizeGlossaryTermBaseClass.ts:193-195 | the layout becomes the given one and the heights are unchanged |
| GlossaryTermLayout.CustomizeGlossaryTermPageClassBase.UpdateLandingPageWidgetDefaultHeights | openmetadata-ui/src/main/resources/ui/src/utils/CustomizeGlossaryTerm/CustomizeGlossaryTermBaseClass.ts:197-199 | the heights become the given record and the layout is unchanged |
| GlossaryTermLayout.CustomizeGlossaryTermPageClassBase.GetKeyFromWidgetName | openmetadata-ui/src/main/resources/ui/src/utils/CustomizeGlossaryTerm/CustomizeGlossaryTermBaseClass.ts:201-230 | a name gives a real key exactly when it is one of the eleven listed names, and then the key of that name; any other name, TERMS_TABLE included, gives the placeholder |
| GlossaryTermLayout.CustomizeGlossaryTermPageClassBase.GetWidgetsFromKey | openmetadata-ui/src/main/resources/ui/src/utils/CustomizeGlossaryTerm/CustomizeGlossaryTermBaseClass.ts:247-255 | the header component exactly when the key starts with the header key, the tab component exactly when it does not but starts with the tabs key, the generic widget otherwise |
| GlossaryTermLayout.CustomizeGlossaryTermPageClassBase.GetWidgetHeight | openmetadata-ui/src/main/resources/ui/src/utils/CustomizeGlossaryTerm/CustomizeGlossaryTermBaseClass.ts:257-285 | a listed name reads its height from the current heights record; every other name gets the default height 2 |
| GlossaryTermLayout.CustomizeGlossaryTermPageClassBase.GetDefaultWidgetForTab | openmetadata-ui/src/main/resources/ui/src/utils/CustomizeGlossaryTerm/CustomizeGlossaryTermBaseClass.ts:287-367 | nothing on tabs other than the overview; on the overview nine non-static widgets inside the 8 columns, each with the height the record gives its key, with the keys description, custom properties, domain, synonyms, related terms, references, tags, owner and reviewer in that order |
| GlossaryTermLayout.CustomizeGlossaryTermPageClassBase.GetCommonWidgetList | openmetadata-ui/src/main/resources/ui/src/utils/CustomizeGlossaryTerm/CustomizeGlossaryTermBaseClass.ts:369-388 | seven widgets for a glossary; for a term the same seven followed by owner, synonyms and related terms; no widget twice |
| GlossaryTermLayout.KeyName | openmetadata-ui/src/main/resources/ui/src/utils/CustomizeGlossaryTerm/CustomizeGlossaryTermBaseClass.ts:201-230 | the name of each widget key as the enum writes it, the key the switch compares against |
| GlossaryTermLayout.KeyNameRoundTrip | openmetadata-ui/src/main/resources/ui/src/utils/CustomizeGlossaryTerm/CustomizeGlossaryTermBaseClass.ts:201-230 | the name of every key the switch lists leads back to that key |
| GlossaryTermLayout.OverviewGridHasNoOverlap | openmetadata-ui/src/main/resources/ui/src/utils/CustomizeGlossaryTerm/CustomizeGlossaryTermBaseClass.ts:287-367 | with the constructor's heights every overview widget has a positive height and no two overlap on the grid |
| EntityPageCommon.EditPermission | openmetadata-ui/src/main/resources/ui/src/pages/StoredProcedure/StoredProcedurePage.tsx:414-433 | an edit is allowed exactly when the entity is not deleted and the operation's flag or EditAll is set |
| EntityPageCommon.ViewPermission | openmetadata-ui/src/main/resources/ui/src/pages/StoredProcedure/StoredProcedurePage.tsx:435-437 | viewing is allowed exactly when ViewAll or the operation's flag is set |
| EntityPageCommon.EditAllAllowsEveryEdit | openmetadata-ui/src/main/resources/ui/src/pages/StoredProcedure/StoredProcedurePage.tsx:414-433 | EditAll allows every edit of an entity that is not deleted |
| EntityPageCommon.IsFollowing | openmetadata-ui/src/main/resources/ui/src/pages/StoredProcedure/StoredProcedurePage.tsx:118-121 | following exactly when some follower's id is the user's id |
| EntityPageCommon.Followed | openmetadata-ui/src/main/resources/ui/src/pages/StoredProcedure/StoredProcedurePage.tsx:234 | spreading succeeds exactly when the known followers are an array, undefined or null and the added value is an array; then the result is the known followers, unchanged and in order, followed by the added ones |
| EntityPageCommon.Unfollowed | openmetadata-ui/src/main/resources/ui/src/pages/StoredProcedure/StoredProcedurePage.tsx:266-268 | the followers kept are exactly those whose id differs from the removed one; order and multiplicity are fixed by UnfollowedAppend |
| EntityPageCommon.UnfollowedAppend | openmetadata-ui/src/main/resources/ui/src/pages/StoredProcedure/StoredProcedurePage.tsx:266-268 | the filter maps a concatenation to the concatenation of the filtered parts, and keeps one follower exactly when its id is not the removed one, so order and multiplicity are kept |
| EntityPageCommon.UnfollowedKeepsOthers | openmetadata-ui/src/main/resources/ui/src/pages/StoredProcedure/StoredProcedurePage.tsx:266-268 | when no follower has the removed id, the list is unchanged, order included |
| EntityPageCommon.FollowThenUnfollow | openmetadata-ui/src/main/resources/ui/src/pages/StoredProcedure/StoredProcedurePage.tsx:230-279 | when the added value can be spread: after the server adds the user the page shows them following, and removing the user's id then leaves them not following |
| EntityPageCommon.RemovedId | openmetadata-ui/src/main/resources/ui/src/pages/StoredProcedure/StoredProcedurePage.tsx:258-267 | the removed id is the first old value's id, and there is none exactly when the old values have no first element |
| EntityPageCommon.ToggleDelete | openmetadata-ui/src/main/resources/ui/src/pages/StoredProcedure/StoredProcedurePage.tsx:307-319 | an undefined entity stays undefined; otherwise `deleted` is flipped, `version` is set only for a truthy version, and every other property is kept |
| EntityPageCommon.ToggleTwice | openmetadata-ui/src/main/resources/ui/src/pages/StoredProcedure/StoredProcedurePage.tsx:307-341 | deleting and then restoring gives the deleted flag its old truth value |
| EntityPageCommon.MergeResponse | openmetadata-ui/src/main/resources/ui/src/pages/StoredProcedure/StoredProcedurePage.tsx:214-224 | nothing without a previous entity; otherwise each property is the response's when the response has it or it is the key, and the previous value otherwise |
| EntityPageCommon.MergeKeyOnlyClearsMissing | openmetadata-ui/src/main/resources/ui/src/pages/StoredProcedure/StoredProcedurePage.tsx:219-223 | after the merge the key reads as the response's value; when the response has the key, the key entry changes nothing |
| EntityPageCommon.SetProps | openmetadata-ui/src/main/resources/ui/src/pages/StoredProcedure/StoredProcedurePage.tsx:240 | the listed properties take their new values and every other is kept |
| EntityPageCommon.EditField | openmetadata-ui/src/main/resources/ui/src/pages/StoredProcedure/StoredProcedurePage.tsx:281-302 | nothing is sent while the entity is undefined; otherwise the field takes the new value and every other property is kept |
| EntityPageCommon.EchoedEditIsApplied | openmetadata-ui/src/main/resources/ui/src/pages/StoredProcedure/StoredProcedurePage.tsx:207-228 | when the server returns the data that was sent, the state becomes exactly the edited entity |
| EntityPageCommon.TabNavigation | openmetadata-ui/src/main/resources/ui/src/pages/StoredProcedure/StoredProcedurePage.tsx:373-383 | it navigates exactly when the chosen tab is not the active one, and then to the chosen tab; the same rule is `handleTabChange` of TopicDetails.component.tsx:166-172 and ContainerPage.tsx:216-226 |
| EntityPageCommon.FollowEntity | openmetadata-ui/src/main/resources/ui/src/pages/StoredProcedure/StoredProcedurePage.tsx:230-250 | an undefined entity stays undefined; when the followers or the added value cannot be spread the updater throws and the state stays as it was; otherwise the followers become the known ones and then the added ones, and every other property is kept |
| EntityPageCommon.UnFollowEntity | openmetadata-ui/src/main/resources/ui/src/pages/StoredProcedure/StoredProcedurePage.tsx:252-279 | an undefined entity stays undefined; without a removed id the state is unchanged; otherwise the followers with the removed id go, undefined or null followers become undefined, followers of any other non-array kind make `filter` throw and leave the state as it was, and every other property is kept |
| EntityPageCommon.UnfollowEndsFollowing | openmetadata-ui/src/main/resources/ui/src/pages/StoredProcedure/StoredProcedurePage.tsx:252-279 | after an unfollow of the user's id the user is no longer following |
| EntityPageCommon.AfterDomainUpdate | openmetadata-ui/src/main/resources/ui/src/pages/StoredProcedure/StoredProcedurePage.tsx:364-371 | the version is the returned one; every other property comes from the current entity, or from the returned one when there is none |
| StoredProcedurePage.DerivePermissions | openmetadata-ui/src/main/resources/ui/src/pages/StoredProcedure/StoredProcedurePage.tsx:407-440 | on a deleted procedure no edit is allowed; otherwise each edit flag holds exactly when its operation or EditAll is granted; viewAll is ViewAll, viewBasic is ViewAll or ViewBasic |
| StoredProcedurePage.EditAllUnlocksProcedure | openmetadata-ui/src/main/resources/ui/src/pages/StoredProcedure/StoredProcedurePage.tsx:412-440 | EditAll on a procedure that is not deleted allows every edit |
| StoredProcedurePage.SaveUpdatedStoredProceduresData | openmetadata-ui/src/main/resources/ui/src/pages/StoredProcedure/StoredProcedurePage.tsx:195-205 | with no procedure loaded the edited data comes straight back; otherwise a patch from the current procedure to the edited one is sent for its id, "" when the id is undefined or null |
| StoredProcedurePage.ExtensionUpdate | openmetadata-ui/src/main/resources/ui/src/pages/StoredProcedure/StoredProcedurePage.tsx:385-405 | only the extension is taken from the response and every other property is kept; an undefined procedure stays undefined |
| StoredProcedurePage.StoredProcedurePageState.constructor | openmetadata-ui/src/main/resources/ui/src/pages/StoredProcedure/StoredProcedurePage.tsx:81-88 | no procedure and no permission until they are fetched; the tab is the route's tab, or the code tab |
| StoredProcedurePage.StoredProcedurePageState.HandleStoreProcedureUpdate | openmetadata-ui/src/main/resources/ui/src/pages/StoredProcedure/StoredProcedurePage.tsx:207-228 | the state becomes the previous procedure merged with the response under the key; permissions and tab are unchanged |
| StoredProcedurePage.StoredProcedurePageState.HandleFollow | openmetadata-ui/src/main/resources/ui/src/pages/StoredProcedure/StoredProcedurePage.tsx:289-291 | a user who is following unfollows and any other user follows, applying the unfollow or follow updater |
| StoredProcedurePage.StoredProcedurePageState.HandleToggleDelete | openmetadata-ui/src/main/resources/ui/src/pages/StoredProcedure/StoredProcedurePage.tsx:307-319 | the state becomes the soft-delete toggle of the previous one |
| StoredProcedurePage.StoredProcedurePageState.AfterDeleteAction | openmetadata-ui/src/main/resources/ui/src/pages/StoredProcedure/StoredProcedurePage.tsx:358-362 | a soft delete toggles the flag; a hard delete leaves the state as it is and goes home |
| StoredProcedurePage.StoredProcedurePageState.AfterDomainUpdateAction | openmetadata-ui/src/main/resources/ui/src/pages/StoredProcedure/StoredProcedurePage.tsx:364-371 | the state takes the returned version over the current procedure, or over the returned one when none is loaded |
| StoredProcedurePage.StoredProcedurePageState.OnExtensionUpdate | openmetadata-ui/src/main/resources/ui/src/pages/StoredProcedure/StoredProcedurePage.tsx:385-405 | the state takes only the response's extension |
| SearchIndexDetailsPage.ViewPermissionOf | openmetadata-ui/src/main/resources/ui/src/pages/SearchIndexDetailsPage/SearchIndexDetailsPage.tsx:89-92 | the page may be viewed exactly when ViewAll or ViewBasic is granted |
| SearchIndexDetailsPage.DerivePermissions | openmetadata-ui/src/main/resources/ui/src/pages/SearchIndexDetailsPage/SearchIndexDetailsPage.tsx:147-180 | on a deleted index no edit is allowed; otherwise each edit flag holds exactly when its operation or EditAll is granted; sample data needs ViewAll or ViewSampleData; viewAll is ViewAll |
| SearchIndexDetailsPage.ViewAllSeesEverything | openmetadata-ui/src/main/resources/ui/src/pages/SearchIndexDetailsPage/SearchIndexDetailsPage.tsx:89-180 | ViewAll grants viewing, sample data and viewAll, whether or not the index is deleted |
| SearchIndexDetailsPage.SaveUpdatedSearchIndexData | openmetadata-ui/src/main/resources/ui/src/pages/SearchIndexDetailsPage/SearchIndexDetailsPage.tsx:220-230 | the patch runs from the current details without their undefined properties (from {} when none are loaded) to the edited data, for the index id, "" when undefined |
| SearchIndexDetailsPage.PatchBaseIgnoresUndefined | openmetadata-ui/src/main/resources/ui/src/pages/SearchIndexDetailsPage/SearchIndexDetailsPage.tsx:222-225 | details and their copy without undefined properties give the same patch |
| SearchIndexDetailsPage.DescriptionEdit | openmetadata-ui/src/main/resources/ui/src/pages/SearchIndexDetailsPage/SearchIndexDetailsPage.tsx:269-280 | an edit is sent exactly when details are loaded and the text differs from the current description; it changes only the description |
| SearchIndexDetailsPage.DescriptionEditIsIdempotent | openmetadata-ui/src/main/resources/ui/src/pages/SearchIndexDetailsPage/SearchIndexDetailsPage.tsx:269-280 | saving again the description just sent sends nothing |
| SearchIndexDetailsPage.SearchIndexPageState.constructor | openmetadata-ui/src/main/resources/ui/src/pages/SearchIndexDetailsPage/SearchIndexDetailsPage.tsx:80-88 | no details and no permission before they are fetched |
| SearchIndexDetailsPage.SearchIndexPageState.OnSearchIndexUpdate | openmetadata-ui/src/main/resources/ui/src/pages/SearchIndexDetailsPage/SearchIndexDetailsPage.tsx:232-253 | the state becomes the previous details merged with the response under the key |
| SearchIndexDetailsPage.SearchIndexPageState.HandleToggleDelete | openmetadata-ui/src/main/resources/ui/src/pages/SearchIndexDetailsPage/SearchIndexDetailsPage.tsx:369-381 | the state becomes the soft-delete toggle of the previous details |
| SearchIndexDetailsPage.SearchIndexPageState.HandleFollowSearchIndex | openmetadata-ui/src/main/resources/ui/src/pages/SearchIndexDetailsPage/SearchIndexDetailsPage.tsx:403-471 | a user who is following (with the followers defaulting to []) unfollows and any other user follows, applying the unfollow or follow updater |
| ContainerPage.DerivePermissions | openmetadata-ui/src/main/resources/ui/src/pages/ContainerPage/ContainerPage.tsx:179-209 | on a deleted container no edit is allowed; otherwise each edit flag holds exactly when its operation or EditAll is granted; viewBasic is ViewAll or ViewBasic; viewAll is ViewAll |
| ContainerPage.IsDataModelEmpty | openmetadata-ui/src/main/resources/ui/src/pages/ContainerPage/ContainerPage.tsx:211-214 | with no container loaded the data model counts as empty; an object data model is empty exactly when it has no properties |
| ContainerPage.ActiveTab | openmetadata-ui/src/main/resources/ui/src/pages/ContainerPage/ContainerPage.tsx:548-552 | the route's tab when there is one; otherwise the children tab for a container without a data model and the schema tab for one with a data model |
| ContainerPage.ContainerTabs | openmetadata-ui/src/main/resources/ui/src/pages/ContainerPage/ContainerPage.tsx:426-431 | no tabs until the container is loaded, then the detail tabs of that container |
| ContainerPage.RenderedView | openmetadata-ui/src/main/resources/ui/src/pages/ContainerPage/ContainerPage.tsx:495-514 | the loader exactly while loading; then the missing-entity view exactly on an error; then the permission placeholder exactly without view permission; then the empty placeholder exactly without data; the details otherwise |
| ContainerPage.HandleUpdateContainerData | openmetadata-ui/src/main/resources/ui/src/pages/ContainerPage/ContainerPage.tsx:228-238 | the patch runs from the current container without its undefined properties (from {} when none is loaded) to the edited one, for its id or "" |
| ContainerPage.TakeFromResponse | openmetadata-ui/src/main/resources/ui/src/pages/ContainerPage/ContainerPage.tsx:294-330 | the field and the version come from the response; every other property is the previous one, and undefined when the state was undefined |
| ContainerPage.DisplayNameUpdate | openmetadata-ui/src/main/resources/ui/src/pages/ContainerPage/ContainerPage.tsx:240-264 | an undefined state stays undefined; otherwise the display name and the version come from the response |
| ContainerPage.OwnerUpdateChangesOnlyOwners | openmetadata-ui/src/main/resources/ui/src/pages/ContainerPage/ContainerPage.tsx:294-312 | an owner update changes no property other than the owners and the version |
| ContainerPage.FollowToggle | openmetadata-ui/src/main/resources/ui/src/pages/ContainerPage/ContainerPage.tsx:266-292 | when following, the shown followers without the removed id (no change when none was removed); otherwise, when spreading succeeds, the shown followers and then the added ones, and when it throws the previous state; every other property is the previous one, and undefined when the state was undefined |
| ContainerPage.ContainerPageState.constructor | openmetadata-ui/src/main/resources/ui/src/pages/ContainerPage/ContainerPage.tsx:88-92 | loading, no error, no container, no permission and no feed count before the first fetch |
| ContainerPage.ContainerPageState.FetchResourcePermission | openmetadata-ui/src/main/resources/ui/src/pages/ContainerPage/ContainerPage.tsx:143-167 | the details and feed counts are fetched exactly when the permission arrives with ViewAll or ViewBasic; a failed detail fetch sets the error; loading ends; a denied view shows the permission placeholder and a loaded container the details |
| ContainerPage.ContainerPageState.HandleUpdateDisplayName | openmetadata-ui/src/main/resources/ui/src/pages/ContainerPage/ContainerPage.tsx:240-264 | nothing changes while no container is loaded; otherwise the display-name updater is applied |
| ContainerPage.ContainerPageState.HandleFollowContainer | openmetadata-ui/src/main/resources/ui/src/pages/ContainerPage/ContainerPage.tsx:266-292 | the follow toggle is applied with the followers the page showed and whether the user is among them |
| ContainerPage.ContainerPageState.HandleUpdateFromResponse | openmetadata-ui/src/main/resources/ui/src/pages/ContainerPage/ContainerPage.tsx:294-330 | the state becomes the previous container with the field and the version taken from the response |
| ContainerPage.ContainerPageState.HandleToggleDelete | openmetadata-ui/src/main/resources/ui/src/pages/ContainerPage/ContainerPage.tsx:332-344 | the state becomes the soft-delete toggle of the previous container |
| ContainerPage.ContainerPageState.AfterDomainUpdateAction | openmetadata-ui/src/main/resources/ui/src/pages/ContainerPage/ContainerPage.tsx:352-359 | the state takes the returned version over the current container, or over the returned one when none is loaded |
| ContainerPage.ContainerPageState.HandleExtensionUpdate | openmetadata-ui/src/main/resources/ui/src/pages/ContainerPage/ContainerPage.tsx:383-400 | nothing changes while no container is loaded; otherwise the response replaces the container |
| ContainerPage.ContainerPageState.HandleContainerUpdate | openmetadata-ui/src/main/resources/ui/src/pages/ContainerPage/ContainerPage.tsx:411-424 | the state becomes the previous container merged with the response; an undefined state stays undefined |
| TopicDetails.DerivePermissions | openmetadata-ui/src/main/resources/ui/src/components/Topic/TopicDetails/TopicDetails.component.tsx:244-274 | on a deleted topic no edit is allowed; otherwise each edit flag holds exactly when its operation or EditAll is granted, and editAll exactly when EditAll is; sample data needs ViewAll or ViewSampleData; viewAll is ViewAll |
| TopicDetails.EditAllImpliesEachEdit | openmetadata-ui/src/main/resources/ui/src/components/Topic/TopicDetails/TopicDetails.component.tsx:244-274 | whenever editAll holds, every specific edit permission holds too |
| TopicDetails.FollowTopic | openmetadata-ui/src/main/resources/ui/src/components/Topic/TopicDetails/TopicDetails.component.tsx:105-114 | the unfollow handler exactly when some follower has the user's id, the follow handler otherwise |
| TopicDetails.ActiveTab | openmetadata-ui/src/main/resources/ui/src/components/Topic/TopicDetails/TopicDetails.component.tsx:77-78 | the route's tab, or the schema tab when the route has none |
| TopicDetails.FieldUpdate | openmetadata-ui/src/main/resources/ui/src/components/Topic/TopicDetails/TopicDetails.component.tsx:116-128 | the topic sent under the field's key has the new value in that field and every other property unchanged |
| TopicDetails.DescriptionUpdate | openmetadata-ui/src/main/resources/ui/src/components/Topic/TopicDetails/TopicDetails.component.tsx:174-186 | an update is sent exactly when the text differs from the current description, and it is the description field update |
| TopicDetails.DescriptionUpdateSettles | openmetadata-ui/src/main/resources/ui/src/components/Topic/TopicDetails/TopicDetails.component.tsx:174-186 | saving again the text just sent sends nothing |
| TopicDetails.HandleTagSelection | openmetadata-ui/src/main/resources/ui/src/components/Topic/TopicDetails/TopicDetails.component.tsx:208-216 | an update is sent exactly when the created tag object is truthy; its tags are the tier tag, when there is one, followed by the selected tags; every other property is kept |
| TopicDetails.SelectedTagsKeepOrder | openmetadata-ui/src/main/resources/ui/src/components/Topic/TopicDetails/TopicDetails.component.tsx:211-213 | every selected tag is sent at its own position, shifted by one behind a tier tag |
| TopicSchema.IsReadOnly | openmetadata-ui/src/main/resources/ui/src/components/Topic/TopicSchema/TopicSchema.tsx:87-90 | always read-only when version data is present; otherwise read-only exactly as the topic's deleted flag says |
| TopicSchema.MessageSchema | openmetadata-ui/src/main/resources/ui/src/components/Topic/TopicSchema/TopicSchema.tsx:92-101 | the versioned schema of the current version exactly in the version view of a version with a change description; the topic's own schema otherwise |
| TopicSchema.SchemaEditAccess | openmetadata-ui/src/main/resources/ui/src/components/Topic/TopicSchema/TopicSchema.tsx:103-116 | each edit access holds exactly when EditAll or the specific permission is granted, whether or not the topic is deleted |
| TopicSchema.SchemaAccessAgreesUntilDeleted | openmetadata-ui/src/main/resources/ui/src/components/Topic/TopicSchema/TopicSchema.tsx:103-116 | the schema tab grants at least what the topic page grants and the same on a topic that is not deleted; on a deleted topic EditAll still grants tag edits that the page refuses |
| TopicSchema.ToggleExpandAll | openmetadata-ui/src/main/resources/ui/src/components/Topic/TopicSchema/TopicSchema.tsx:155-161 | every row is expanded while fewer rows are expanded than exist; otherwise none is |
| TopicSchema.ToggleExpandAllTwice | openmetadata-ui/src/main/resources/ui/src/components/Topic/TopicSchema/TopicSchema.tsx:155-161 | two presses from a collapsed table collapse it again, and on a table with rows the first press expands every row |
| TopicSchema.UniqByValue | openmetadata-ui/src/main/resources/ui/src/components/Topic/TopicSchema/TopicSchema.tsx:202 | uniqBy on the value: each kept option is the first input option with its value, the kept options follow the order of those first occurrences, every value appears exactly once, and the first input option comes first |
| TopicSchema.WithSource | openmetadata-ui/src/main/resources/ui/src/components/Topic/TopicSchema/TopicSchema.tsx:202 | the options kept are exactly those with the given source; order and multiplicity are fixed by WithSourceAppend |
| TopicSchema.WithSourceAppend | openmetadata-ui/src/main/resources/ui/src/components/Topic/TopicSchema/TopicSchema.tsx:202 | the filter maps a concatenation to the concatenation of the filtered parts, and keeps one option exactly when its source is the given one, so order and multiplicity are kept |
| TopicSchema.WithSourceDistinct | openmetadata-ui/src/main/resources/ui/src/components/Topic/TopicSchema/TopicSchema.tsx:202 | picking one source keeps the values distinct |
| TopicSchema.TagFilter | openmetadata-ui/src/main/resources/ui/src/components/Topic/TopicSchema/TopicSchema.tsx:199-206 | the groups are keyed by exactly the sources of the deduplicated options, and each group is the deduplicated options with that source, in input order; so every grouped option is the first input option with its value, and the first option of every input value is listed under its source |
| TopicSchema.TagFilterGroupsAreDistinct | openmetadata-ui/src/main/resources/ui/src/components/Topic/TopicSchema/TopicSchema.tsx:199-206 | every group is non-empty and lists no value twice |
| TopicSchema.TagFilterListsEveryValue | openmetadata-ui/src/main/resources/ui/src/components/Topic/TopicSchema/TopicSchema.tsx:199-206 | the value of every input option is listed under some source |
| TopicSchema.TopicSchemaState.constructor | openmetadata-ui/src/main/resources/ui/src/components/Topic/TopicSchema/TopicSchema.tsx:73-74 | no field is being edited and no row is expanded |
| TopicSchema.TopicSchemaState.ExpandAllOnMount | openmetadata-ui/src/main/resources/ui/src/components/Topic/TopicSchema/TopicSchema.tsx:312-314 | on mount every schema row key is expanded, and the description editor is untouched |
| TopicSchema.TopicSchemaState.ToggleExpandAllRows | openmetadata-ui/src/main/resources/ui/src/components/Topic/TopicSchema/TopicSchema.tsx:155-161 | the expanded rows become the expand-all toggle of the current ones |
| TopicSchema.TopicSchemaState.HandleFieldDescriptionChange | openmetadata-ui/src/main/resources/ui/src/components/Topic/TopicSchema/TopicSchema.tsx:140-153 | an update is sent exactly when a field is being edited and an update handler exists, with the schema that the field-description update gives for the field's FQN; the editor closes in every case |
| TopicSchema.FieldTagsChange | openmetadata-ui/src/main/resources/ui/src/components/Topic/TopicSchema/TopicSchema.tsx:125-138 | an update is sent exactly when a field is given and an update handler exists, with the schema that the field-tag update gives for the field's FQN; every other topic property is kept |
| PipelineTaskTab.TaskPermissions | openmetadata-ui/src/main/resources/ui/src/components/Pipeline/PipelineTaskTab/PipelineTaskTab.tsx:69-82 | nothing is editable while the permissions are undefined; otherwise each access holds exactly when EditAll or the specific permission is granted |
| PipelineTaskTab.TasksInternal | openmetadata-ui/src/main/resources/ui/src/components/Pipeline/PipelineTaskTab/PipelineTaskTab.tsx:84-90 | no rows without tasks; otherwise one row per task, in order, with the same name and description and its tags or [] |
| PipelineTaskTab.TaskRowsHaveTags | openmetadata-ui/src/main/resources/ui/src/components/Pipeline/PipelineTaskTab/PipelineTaskTab.tsx:84-90 | every row has a tags list, and a task that already has one appears unchanged |
| PipelineTaskTab.PipelineTaskTabState.constructor | openmetadata-ui/src/main/resources/ui/src/components/Pipeline/PipelineTaskTab/PipelineTaskTab.tsx:62-65 | no task is being edited |
| PipelineTaskTab.PipelineTaskTabState.OnTaskUpdate | openmetadata-ui/src/main/resources/ui/src/components/Pipeline/PipelineTaskTab/PipelineTaskTab.tsx:124-140 | an update exactly when a task is being edited: the tasks copied, with the edited row replaced by the edited task carrying the new description and every other row unchanged; the editor closes in every case |
| PipelineTaskTab.KeepSelected | openmetadata-ui/src/main/resources/ui/src/components/Pipeline/PipelineTaskTab/PipelineTaskTab.tsx:146-148 | the task's tags kept are exactly those whose FQN is among the selected tags |
| PipelineTaskTab.KeepSelectedAppend | openmetadata-ui/src/main/resources/ui/src/components/Pipeline/PipelineTaskTab/PipelineTaskTab.tsx:146-148 | the kept tags are in their previous order, each as often as before: the filter of a concatenation is the concatenation of the filters, and one tag is kept exactly when its FQN is selected |
| PipelineTaskTab.NotIn | openmetadata-ui/src/main/resources/ui/src/components/Pipeline/PipelineTaskTab/PipelineTaskTab.tsx:151-154 | the selected tags taken are exactly those whose FQN the task does not have yet |
| PipelineTaskTab.NotInAppend | openmetadata-ui/src/main/resources/ui/src/components/Pipeline/PipelineTaskTab/PipelineTaskTab.tsx:151-154 | the new tags are in selection order: the filter of a concatenation is the concatenation of the filters, and one tag is taken exactly when the task lacks its FQN |
| PipelineTaskTab.Convert | openmetadata-ui/src/main/resources/ui/src/components/Pipeline/PipelineTaskTab/PipelineTaskTab.tsx:150-155 | each newly selected tag converted in order |
| PipelineTaskTab.MergedTags | openmetadata-ui/src/main/resources/ui/src/components/Pipeline/PipelineTaskTab/PipelineTaskTab.tsx:146-160 | no result exactly when the task row has no tags list; otherwise the kept tags followed by the converted new ones |
| PipelineTaskTab.MergedTagsAreTheSelection | openmetadata-ui/src/main/resources/ui/src/components/Pipeline/PipelineTaskTab/PipelineTaskTab.tsx:142-160 | when conversion keeps each FQN, the task ends up with exactly the selected FQNs, and a tag it already had keeps its old label |
| PipelineTaskTab.HandleTableTagSelection | openmetadata-ui/src/main/resources/ui/src/components/Pipeline/PipelineTaskTab/PipelineTaskTab.tsx:142-168 | the same number of tasks, each task with the edited task's name replaced by the edited task with its merged tags and every other task unchanged |
| IncidentManagerPageHeader.HeaderPermissionsOf | openmetadata-ui/src/main/resources/ui/src/components/DataQuality/IncidentManager/IncidentManagerPageHeader/IncidentManagerPageHeader.component.tsx:212-219 | nothing is editable while the test-case permission is undefined; otherwise status and owner edits each need EditAll or their own permission |
| IncidentManagerPageHeader.ColumnName | openmetadata-ui/src/main/resources/ui/src/components/DataQuality/IncidentManager/IncidentManagerPageHeader/IncidentManagerPageHeader.component.tsx:79-88 | a column name exactly when the entity link contains `::columns::`, and then the name extracted from the link |
| IncidentManagerPageHeader.ColumnLinkHasColumnName | openmetadata-ui/src/main/resources/ui/src/components/DataQuality/IncidentManager/IncidentManagerPageHeader/IncidentManagerPageHeader.component.tsx:79-88 | a link to a table column is recognised as a column link |
| IncidentManagerPageHeader.DropLast | openmetadata-ui/src/main/resources/ui/src/components/DataQuality/IncidentManager/IncidentManagerPageHeader/IncidentManagerPageHeader.component.tsx:105-107 | all entries but the last, none for an empty history |
| IncidentManagerPageHeader.FirstOpenTask | openmetadata-ui/src/main/resources/ui/src/components/DataQuality/IncidentManager/IncidentManagerPageHeader/IncidentManagerPageHeader.component.tsx:182-188 | none exactly when no thread is an open task; otherwise the first open task thread |
| IncidentManagerPageHeader.IncidentHeaderState.constructor | openmetadata-ui/src/main/resources/ui/src/components/DataQuality/IncidentManager/IncidentManagerPageHeader/IncidentManagerPageHeader.component.tsx:62-77 | no status shown and no active task; the history is the feed provider's |
| IncidentManagerPageHeader.IncidentHeaderState.HandleSeverityUpdate | openmetadata-ui/src/main/resources/ui/src/components/DataQuality/IncidentManager/IncidentManagerPageHeader/IncidentManagerPageHeader.component.tsx:95-112 | without a status or after a failed request nothing changes; otherwise the status takes the new severity and replaces the last history entry |
| IncidentManagerPageHeader.IncidentHeaderState.OnIncidentStatusUpdate | openmetadata-ui/src/main/resources/ui/src/components/DataQuality/IncidentManager/IncidentManagerPageHeader/IncidentManagerPageHeader.component.tsx:122-125 | the new status is shown and appended to the history |
| IncidentManagerPageHeader.IncidentHeaderState.HandleAssigneeUpdate | openmetadata-ui/src/main/resources/ui/src/components/DataQuality/IncidentManager/IncidentManagerPageHeader/IncidentManagerPageHeader.component.tsx:127-155 | without a status nothing is sent or changed; otherwise the first assignee is sent with the status's severity and test case as an Assigned status, and the shown status moves to Assigned with that assignee and is appended |
| IncidentManagerPageHeader.IncidentHeaderState.FetchTestCaseResolution | openmetadata-ui/src/main/resources/ui/src/components/DataQuality/IncidentManager/IncidentManagerPageHeader/IncidentManagerPageHeader.component.tsx:157-165 | for a test case with an incident id the first status of the incident is shown, and none for an empty list or a failed request; without an id nothing changes |
| IncidentManagerPageHeader.IncidentHeaderState.SelectActiveTask | openmetadata-ui/src/main/resources/ui/src/components/DataQuality/IncidentManager/IncidentManagerPageHeader/IncidentManagerPageHeader.component.tsx:182-188 | the active task becomes the first open task thread |
| IncidentManagerPageHeader.LastOf | openmetadata-ui/src/main/resources/ui/src/components/DataQuality/IncidentManager/IncidentManagerPageHeader/IncidentManagerPageHeader.component.tsx:191 | lodash `last`: undefined for an empty history, otherwise its last entry |
| IncidentManagerPageHeader.SameIncident | openmetadata-ui/src/main/resources/ui/src/components/DataQuality/IncidentManager/IncidentManagerPageHeader/IncidentManagerPageHeader.component.tsx:193 | the entry's state id equals the active task's incident id, where a missing entry, task or id is undefined and two undefined sides are equal |
| IncidentManagerPageHeader.IncidentHeaderState.OnHistoryChange | openmetadata-ui/src/main/resources/ui/src/components/DataQuality/IncidentManager/IncidentManagerPageHeader/IncidentManagerPageHeader.component.tsx:190-204 | only when the last history entry belongs to the active task's incident (two missing ids count as equal): a resolved entry clears the shown status and asks for the task count again, and any other entry is shown; with an empty history and no active task the shown status becomes undefined and the count is not fetched again |
| TaskTabIncidentManagerHeader.StageClassName | openmetadata-ui/src/main/resources/ui/src/components/Entity/Task/TaskTabIncidentManagerHeader/TasktabIncidentManagerHeaderNew.tsx:90 | exactly the lower-case spelling of the stage's name |
| TaskTabIncidentManagerHeader.StepOf | openmetadata-ui/src/main/resources/ui/src/components/Entity/Task/TaskTabIncidentManagerHeader/TasktabIncidentManagerHeaderNew.tsx:89-107 | a step keyed by its stage, with the stage's lower-case class name |
| TaskTabIncidentManagerHeader.Recorded | openmetadata-ui/src/main/resources/ui/src/components/Entity/Task/TaskTabIncidentManagerHeader/TasktabIncidentManagerHeaderNew.tsx:39 | the stage of every recorded status, in order |
| TaskTabIncidentManagerHeader.StepperStages | openmetadata-ui/src/main/resources/ui/src/components/Entity/Task/TaskTabIncidentManagerHeader/TasktabIncidentManagerHeaderNew.tsx:39-50 | the recorded stages first, then exactly the stages pending after the latest one, and nothing more when the latest stage has no entry |
| TaskTabIncidentManagerHeader.TestCaseResolutionStepper | openmetadata-ui/src/main/resources/ui/src/components/Entity/Task/TaskTabIncidentManagerHeader/TasktabIncidentManagerHeaderNew.tsx:38-109 | one step per stage the stepper lists, in order, each keyed by its stage |
| TaskTabIncidentManagerHeader.CurrentStep | openmetadata-ui/src/main/resources/ui/src/components/Entity/Task/TaskTabIncidentManagerHeader/TasktabIncidentManagerHeaderNew.tsx:209 | the stepper's current step is the length of the history |
| TaskTabIncidentManagerHeader.CurrentStepIsFirstPending | openmetadata-ui/src/main/resources/ui/src/components/Entity/Task/TaskTabIncidentManagerHeader/TasktabIncidentManagerHeaderNew.tsx:207-211 | the current step, at the length of the history, is the first pending stage |
| TaskTabIncidentManagerHeader.IsResolved | openmetadata-ui/src/main/resources/ui/src/components/Entity/Task/TaskTabIncidentManagerHeader/TasktabIncidentManagerHeaderNew.tsx:111-118 | resolved exactly when the latest status is Resolved |
| TaskTabIncidentManagerHeader.AppendDecidesResolved | openmetadata-ui/src/main/resources/ui/src/components/Entity/Task/TaskTabIncidentManagerHeader/TasktabIncidentManagerHeaderNew.tsx:111-118 | recording a status resolves the incident exactly when that status is Resolved |
| FeedCardFooter.PostLength | openmetadata-ui/src/main/resources/ui/src/components/ActivityFeed/ActivityFeedCardV2/FeedCardFooter/FeedCardFooterNew.tsx:35 | the thread's post count, 0 when it is not given |
| FeedCardFooter.MaxTs | openmetadata-ui/src/main/resources/ui/src/components/ActivityFeed/ActivityFeedCardV2/FeedCardFooter/FeedCardFooterNew.tsx:39-40 | none exactly when no post has a timestamp; otherwise a timestamp some post has that no post exceeds |
| FeedCardFooter.LatestReplyTimeStamp | openmetadata-ui/src/main/resources/ui/src/components/ActivityFeed/ActivityFeedCardV2/FeedCardFooter/FeedCardFooterNew.tsx:39-40 | none without posts or when a post lacks a timestamp (it sorts last and is taken first after the reversal); otherwise the largest timestamp |
| FeedCardFooter.Dedupe | openmetadata-ui/src/main/resources/ui/src/components/ActivityFeed/ActivityFeedCardV2/FeedCardFooter/FeedCardFooterNew.tsx:42 | the same entries, each once, in the order of their first occurrence, the first one first |
| FeedCardFooter.RepliedUniqueUsersList | openmetadata-ui/src/main/resources/ui/src/components/ActivityFeed/ActivityFeedCardV2/FeedCardFooter/FeedCardFooterNew.tsx:42-47 | the first three entries of the senders without repeats (all of them when there are fewer): at most three distinct repliers, each a sender of some post, the first poster first |
| FeedCardFooter.RepliersAreTheEarliest | openmetadata-ui/src/main/resources/ui/src/components/ActivityFeed/ActivityFeedCardV2/FeedCardFooter/FeedCardFooterNew.tsx:42-47 | the repliers are shown in the order in which they first posted, and a sender who is not shown first posted after all three who are |
| FeedCardFooter.OneUserRepliesOnce | openmetadata-ui/src/main/resources/ui/src/components/ActivityFeed/ActivityFeedCardV2/FeedCardFooter/FeedCardFooterNew.tsx:42-47 | any non-empty run of posts by one user gives that user exactly once |
| FeedCardFooter.ReplierAvatars | openmetadata-ui/src/main/resources/ui/src/components/ActivityFeed/ActivityFeedCardV2/FeedCardFooter/FeedCardFooterNew.tsx:69-79 | avatars exactly for a thread with replies that is not a post: the first two distinct senders (all when there are fewer), so at most two distinct repliers from the list |
| TeamsSelectable.Joinable | openmetadata-ui/src/main/resources/ui/src/components/TeamsSelectable/TeamsSelectable.tsx:43 | the teams kept are exactly the joinable ones |
| TeamsSelectable.JoinableAppend | openmetadata-ui/src/main/resources/ui/src/components/TeamsSelectable/TeamsSelectable.tsx:41-48 | the joinable teams keep input order and each yields exactly one entry: the filter of a concatenation is the concatenation of the filters, and one team is kept exactly when it is joinable |
| TeamsSelectable.GetOptions | openmetadata-ui/src/main/resources/ui/src/components/TeamsSelectable/TeamsSelectable.tsx:41-48 | one option per joinable team, in order, labelled with its name and valued with its id |
| TeamsSelectable.HandleSelectionChange | openmetadata-ui/src/main/resources/ui/src/components/TeamsSelectable/TeamsSelectable.tsx:37-39 | the value of every selected option, in order |
| TeamsSelectable.SelectingAllReportsJoinableIds | openmetadata-ui/src/main/resources/ui/src/components/TeamsSelectable/TeamsSelectable.tsx:37-48 | selecting every option reports the id of every joinable team and the id of no other team |

## Left out

- The search client, REST calls, `history.push` navigation, toasts, promises and React render scheduling are left out. Each server answer is an input value, and each navigation is a returned route.
- The lazy, synchronised creation in `getSearchClient` is left out: the model is sequential.
- The ops command's infrastructure is left out: Flyway, JDBI, YAML loading, secrets managers, and the stdin prompt of `promptUserForDelete`. Only their decision rules are modelled.
- The reindex wait's `Thread.sleep` polling is a finite sequence of poll results. Timing is not modelled.
- The email check is a scan over character classes, not Java's regular-expression engine.
- Helpers from outside the core are parameters of the members that use them. They are `Fqn.split`, `createTagObject`, `updateTierTag`, `getEntityName`, `getAllTags`, fast-json-patch `compare`, `getMap`, `getFQNParts`, `removeNonIndexableFields`, `pojoToJson`, `nullOrEmpty`, `getVersionedSchema`, `getColumnNameFromEntityLink` and `getGlossaryPath`.
- The values of constants and enums defined outside the core are assumed. These include `TEST_CASE_STATUS`, the index name separator, the entity types and the field names.
- Case folding is ASCII only. Java's and JavaScript's full Unicode case mapping is not modelled.
- EntityPageCommon.UnFollowEntity: an `oldValue` without a first element leaves the followers unchanged, where the source throws on `oldValue[0]`.
- EntityPageCommon.UnFollowEntity: when `filter` throws on non-array followers, the model keeps the previous state. In the source the call runs inside the state updater, outside the `try`, so the error escapes the handler.
- ContainerPage.FollowToggle: inherits the same behaviour for an empty `oldValue`.
- ContainerPage.FollowToggle: when the spread of the added followers throws, the model keeps the previous state. In the source the spread runs inside the state updater, outside the `try`, so the error escapes the handler instead of being shown as a toast.
- EntityPageCommon.Spreadable: only arrays are iterable. Spreading a string, which JavaScript splits into characters, is modelled as a throw.
- IncidentManagerPageHeader.IncidentHeaderState.SelectActiveTask: the `setActiveThread(openTask)` call into the activity-feed provider is left out. The provider's state is not part of this model.
- PipelineTaskTab.PipelineTaskTabState.OnTaskUpdate: requires the edited task index to be in range. JavaScript would instead extend the array with holes.
- The version, vote and feed-count handlers of the entity pages are left out: they only navigate or reload.
- In `handleTagSelection` of TopicDetails, the converted tags shadow the argument. The model only tests `createTagObject`'s result for truthiness, as the source's guard does.
- `DEFAULT_ENTITY_PERMISSION` is the empty permission map.
- The followers a page's closure captured are an explicit parameter.
- The `tagFilter` of PipelineTaskTab is left out: it is the same rule as TopicSchema's TagFilter.
- configureEmailSettings: only the enum parsing and the password rule are modelled. Copying the remaining fields into the settings object is not.
- DomainUtils functions outside the core are left out: `getOwner`, `getQueryFilterToIncludeDomain`, `getDomainDetailTabs`, `getDomainWidgetsFromKey`, `renderDomainLink` and the domain tooltip.
- In CustomizeGlossaryTermBaseClass, `getGlossaryChildTerms` and the map from widget keys to React components are left out, because they only render.
- JSX and antd rendering are left out, as is the text the incident stepper shows for each step.
- TeamsSelectable: the search-text state and `loadOptions` paging are left out.
- The thin UI pages that only compose components are left out. So are the generated schema types, `Migration.java` and the Playwright tests.
