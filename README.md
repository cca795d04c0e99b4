# Digital Atlas: the import pipeline and the object administration, in Dafny

Digital Atlas is a map of infrastructure objects. Each object carries:
- a type and a region;
- optional coordinates, a website, a Google Maps link and contact phones;
- a name and an address in Russian, and optionally in Kazakh and English;
- a list of priority directions.

Editors import objects in bulk from an Excel workbook or edit them one by one. Super-admins also maintain the dictionaries (types, regions, directions) and the user accounts. A public JSON endpoint serves the published objects to the map.

This project models the server side of that system as Dafny modules, one per source file, and proves what each operation promises.

**Shared helpers**
- `Wrappers`: `Option` and `Result`.
- `Strings`: the JavaScript string built-ins the source calls, and the zod string formats.

**Foundations**
- `Coordinates`: the coordinate guards and constructors of `lib/types.ts`.
- `Store`: the database as a value `Db` and as a mutable `Database` class whose methods are the Prisma writes the actions issue.

**Spreadsheet import**
- `ImportSchema`: the row schema, the column mapping and `mapExcelRow` of `lib/validation/import.ts`.
- `ImportExtraction`: `validateImportFile`, the walk over the first worksheet.
- `ImportPersistence`: `importObjects`, which resolves names through the dictionaries and writes the rows in batches of 100, each in its own transaction with per-row faults.

**Access control**
- `Auth`: the credentials check, the JWT and session callbacks, and the role gate of `lib/auth.ts`.
- `Middleware`: path blocking and the response headers of `middleware.ts`.

**Actions and endpoints**
- `Users`: the user actions of `app/actions/users.ts`.
- `ObjectSchema`: the object form schema of `lib/validation/object.ts`.
- `ObjectsApi`: the public listing of `app/api/objects/route.ts`, covering filters, paging and the projection to the API shape.
- `ObjectActions`: the object actions of `app/actions/objects.ts`.
- `DictionaryActions`: the dictionary actions of `app/actions/dictionaries.tsx`.

Where the source changes state step by step, a method on a class performs the same steps. Its postcondition ties the new state to a pure outcome function of the old state, for example `Outcome(r, db.State()) == CreateOutcome(old(db.State()), session, input)`. The properties the source promises are then lemmas about those functions:
- a failed action writes nothing;
- writes keep the store's references resolving;
- created rows can be read back;
- batches partition the rows.

## Model

| member | source | states |
|---|---|---|
| Coordinates.CreateLatitude | lib/types.ts:15-20 | succeeds exactly for -90 <= v <= 90 and returns v; otherwise the error names v |
| Coordinates.CreateLongitude | lib/types.ts:22-27 | succeeds exactly for -180 <= v <= 180 and returns v; otherwise the error names v |
| Coordinates.CreateCoordinates | lib/types.ts:36-41 | succeeds exactly when both guards hold; the latitude error wins when both components are out of range |
| Coordinates.AreCoordinatesValid | lib/types.ts:44-49 | true exactly when both components are present and within range |
| Coordinates.GuardAgreesWithConstructor | lib/types.ts:36-49 | the guard accepts a present pair exactly when createCoordinates does, and the pair comes back unchanged |
| Strings.Split | app/actions/import.ts:243-245 | split(',') yields at least one piece, and no piece holds the separator |
| Strings.JoinSplit | app/actions/import.ts:243-245 | joining the pieces of a split gives back the input |
| Strings.SplitJoin | app/actions/import.ts:243-245 | splitting a join of separator-free pieces gives back the pieces |
| Strings.SplitPiece | app/actions/import.ts:243-245 | a separator-free prefix extends the first piece of the split |
| Strings.TrimStartSpec | app/actions/import.ts:245 | trimStart leaves a suffix and drops only whitespace |
| Strings.TrimEndSpec | app/actions/import.ts:245 | trimEnd leaves a prefix and drops only whitespace |
| Strings.TrimIsSlice | app/actions/import.ts:245 | trim returns a slice, everything outside it is whitespace, and the slice neither starts nor ends with whitespace |
| Strings.TrimEmptyIffBlank | app/actions/import.ts:262-266 | a string trims to "" exactly when it is all whitespace |
| Strings.TrimIdempotent | app/actions/import.ts:245 | trimming twice is trimming once |
| Strings.TrimEachTrimmed | app/actions/import.ts:265 | trimmed pieces are fixed points of trim |
| Strings.TrimEach | app/actions/import.ts:265 | one trimmed piece per piece, in order |
| Strings.DropEmpty | app/actions/import.ts:266 | filter(Boolean) keeps exactly the non-empty pieces and never lengthens the list; DropEmptySingleton and DropEmptyConcat pin down the list itself |
| Strings.DropEmptySingleton | app/actions/import.ts:266 | one string is kept exactly when it is non-empty |
| Strings.DropEmptyConcat | app/actions/import.ts:266 | filtering a concatenation concatenates the filtered parts, so order is kept |
| Strings.DropEmptyCounts | app/actions/import.ts:266 | every non-empty string is kept as often as it occurs, and no empty one |
| Strings.ToLowerCaseVariants | middleware.ts:21 | lowering is idempotent, and two strings lower alike exactly when they differ only in letter case |
| Strings.Contains | middleware.ts:23 | includes is true exactly when the fragment occurs at some position |
| Strings.NatToString | middleware.ts:56 | the decimal rendering of a number is non-empty and made of digits |
| Strings.NatToStringRoundTrip | middleware.ts:56 | reading the rendered digits back gives the number |
| Auth.FindByEmail | lib/auth.ts:20-22 | the index found holds the e-mail and no earlier row does; None exactly when no row holds it |
| Auth.RequireAuth | lib/auth.ts:87-93 | succeeds exactly when there is a session and returns it; otherwise Unauthorized |
| Auth.RequireRole | lib/auth.ts:95-108 | no session gives Unauthorized; SUPER_ADMIN passes only a super-admin; EDITOR passes an editor or a super-admin |
| Auth.RequireRoleIsRanking | lib/auth.ts:95-108 | the gate passes exactly when the role ranks at least as high as the required one; a signed-in refusal is Forbidden(required) |
| Auth.SuperAdminGateImpliesEditorGate | lib/auth.ts:95-108 | whatever passes the SUPER_ADMIN gate passes the EDITOR gate |
| Auth.Authorize | lib/auth.ts:14-48 | a user is returned exactly when both credentials are non-empty, the database does not fail, the e-mail is found and bcrypt matches; it is that user's id, e-mail, name and role |
| Auth.Jwt | lib/auth.ts:56-64 | on sign-in the token takes the user's id, e-mail, name and role; without a user the token is returned unchanged |
| Auth.SignedInUserGate | lib/auth.ts:14-108 | after sign-in, the session holds the user's id, e-mail, name and role, and the role gate passes exactly when the stored role ranks high enough |
| Auth.JwtKeepsTokenWithoutUser | lib/auth.ts:56-73 | a later request without a user keeps the session the token held |
| Middleware.SomeContained | middleware.ts:23 | some() is true exactly when some fragment occurs in the string |
| Middleware.IsBlocked | middleware.ts:21-23 | blocked exactly when the lower-cased path contains one of the twelve fragments |
| Middleware.BlockingIgnoresCase | middleware.ts:21-23 | paths differing only in letter case are both blocked or both let through |
| Middleware.BlockedPathsAreLowerCase | middleware.ts:3-16 | every blocked fragment is already lower case |
| Middleware.FragmentInAnyCaseIsBlocked | middleware.ts:18-31 | a path holding a fragment in any mix of case, at any position, is blocked |
| Middleware.ResponseHeaders.Set | middleware.ts:56-62 | headers.set adds the entry or replaces its value |
| Middleware.HeaderNamesDistinct | middleware.ts:56-75 | the six header names are pairwise different |
| Middleware.Handle | middleware.ts:18-79 | 404 with no headers exactly for a blocked path; otherwise the response time, the four security headers with their values, and the report-only CSP exactly in production, and nothing else |
| ImportSchema.Position | lib/validation/import.ts:73-88 | every field has a column below 14 |
| ImportSchema.MappingIsBijection | lib/validation/import.ts:73-91 | the mapping lists each of the 14 fields exactly once, and TEMPLATE_COLUMNS holds its headers in order |
| ImportSchema.ColumnAt | lib/validation/import.ts:73-88 | column k maps the header of the field at position k to that field |
| ImportSchema.EveryFieldListed | lib/validation/import.ts:4-23 | every schema field is one of the fourteen |
| ImportSchema.MapExcelRow | lib/validation/import.ts:94-104 | a field is in the mapped row exactly when its header is in the sheet row, with that header's value unchanged |
| ImportSchema.FieldCheck | lib/validation/import.ts:6-23 | a field's check reports an issue on that field, never a pairing issue |
| ImportSchema.Checks | lib/validation/import.ts:4-23 | one check outcome per field, in declaration order |
| ImportSchema.Reported | lib/validation/import.ts:55-62 | the issues listed are exactly the failed checks' issues |
| ImportSchema.FieldIssues | lib/validation/import.ts:4-23 | no issue is a pairing issue; there are none exactly when every field check passes, and every failed check's issue is listed |
| ImportSchema.SchemaOrderComplete | lib/validation/import.ts:4-23 | the declaration order covers every field |
| ImportSchema.TranslationsBounded | lib/validation/import.ts:12-15 | accepted translations are at most 1000 characters |
| ImportSchema.LocationAcceptable | lib/validation/import.ts:19-35 | accepted coordinates are in range and paired, and an accepted website is '' or a URL |
| ImportSchema.ParsedRow | lib/validation/import.ts:4-35 | the parsed row of an accepted row satisfies the row invariant and carries both coordinates or neither |
| ImportSchema.ValidateImportRow | lib/validation/import.ts:49-70 | a failure carries at least one issue; a success satisfies the row invariant |
| ImportSchema.FieldCheckAgrees | lib/validation/import.ts:6-23 | each check reports nothing exactly when the cell meets the field's declarative condition |
| ImportSchema.ValidateMatchesSchema | lib/validation/import.ts:4-70 | validation succeeds exactly on rows meeting the declarative schema, and then returns the cells' own content |
| ImportSchema.PairingRule | lib/validation/import.ts:24-35 | exactly one coordinate yields the pairing issue at `latitude`; a paired row never carries it |
| ImportSchema.MissingAddressReported | lib/validation/import.ts:7 | a row without address_ru fails with a Required issue on that field |
| ImportSchema.CheckImportFile | lib/validation/import.ts:38-42 | accepted exactly for an .xlsx name, at most 10 MiB, at most 1000 rows and every row valid; then the parsed rows in order |
| ImportSchema.RowIssues | lib/validation/import.ts:41 | no element issue exactly when every row passes the row schema |
| ImportExtraction.HeaderKey | app/actions/import.ts:106-108 | a column is keyed only by a non-empty header |
| ImportExtraction.RowDataLastColumnWins | app/actions/import.ts:104-110 | a key is in the row object exactly when a non-empty cell sits under a header with that text, and it holds the last such column's cell |
| ImportExtraction.BuildRowData | app/actions/import.ts:104-110 | the eachCell loop builds the row object its specification describes |
| ImportExtraction.Classify | app/actions/import.ts:90-113 | sheet row 1 is the header; any other row carries its number, its mapped row and its validation |
| ImportExtraction.Visits | app/actions/import.ts:90 | one classification per visited row, in order |
| ImportExtraction.IssueErrors | app/actions/import.ts:120-128 | one error entry per issue, in issue order, with the mapped value of the issue's field |
| ImportExtraction.VisitAppends | app/actions/import.ts:90-130 | a visit counts a data row, appends at most one accepted row, and appends errors exactly past the limit or on a schema failure |
| ImportExtraction.VisitRow | app/actions/import.ts:90-130 | the row callback reaches the visit its specification describes |
| ImportExtraction.AppendIssueErrors | app/actions/import.ts:121-128 | forEach appends exactly the issue errors |
| ImportExtraction.ValidateImportFile | app/actions/import.ts:72-141 | a caller below EDITOR is refused with the gate's error before the file is read; an editor's call fails exactly when there is no first worksheet, and otherwise returns the walk's rows, errors and row count, valid exactly when there is no error |
| ImportExtraction.ScanCounts | app/actions/import.ts:93-102 | totalRows counts every data row, and at most 1000 rows are accepted |
| ImportExtraction.NoErrorsIff | app/actions/import.ts:93-130 | no error exactly when there are at most 1000 data rows and each passes the schema |
| ImportExtraction.ValidIff | app/actions/import.ts:132-137 | the file is valid exactly when it has at most 1000 data rows and every non-header row passes the row schema |
| ImportExtraction.AcceptedRowsTraceable | app/actions/import.ts:115-119 | every accepted row is a data row that passed the schema, with that row's number and data |
| ImportExtraction.NoErrorsAcceptsEveryDataRow | app/actions/import.ts:89-127 | a walk without errors has accepted one row per data row it counted |
| ImportExtraction.ValidFileAcceptsEveryRow | app/actions/import.ts:89-140 | a valid file's accepted rows number exactly its totalRows |
| ImportExtraction.LimitRowRejected | app/actions/import.ts:94-101 | a data row past the 1000th adds exactly one general error and no row |
| ImportExtraction.AcceptedRowsOrdered | app/actions/import.ts:90-119 | accepted rows come out in increasing row number |
| ImportExtraction.AscendingSheetAscendingVisits | app/actions/import.ts:90 | a sheet read in row order yields data rows in row order |
| ImportPersistence.NameMap | app/actions/import.ts:185-193 | new Map(entries) holds exactly the keys of the entries |
| ImportPersistence.NameMapLastWins | app/actions/import.ts:185-193 | an entry whose key no later entry repeats is the one the map keeps |
| ImportPersistence.CodedKeyPrefersName | app/actions/import.ts:186-192 | a type or region is keyed by its non-empty ru name, else by its code; a direction without a name is keyed by '' |
| ImportPersistence.DirectionTokens | app/actions/import.ts:243-245 | one token per comma-separated piece, empty pieces kept, the k-th token being the k-th piece trimmed |
| ImportPersistence.PhoneTokens | app/actions/import.ts:262-267 | the phone tokens are the comma pieces trimmed with the empty ones dropped, none for a missing or empty text; every piece with a non-empty trim is among them |
| ImportPersistence.ResolveUpTo | app/actions/import.ts:246-258 | the ids and the unknown names together number the tokens seen; every id is a known token's and every unknown name an unknown token |
| ImportPersistence.ResolveSingleton | app/actions/import.ts:246-258 | one token resolves to its id when the map knows it and is reported as unknown otherwise |
| ImportPersistence.ResolveConcat | app/actions/import.ts:246-258 | resolving a concatenation resolves each part in turn, so every token resolves or is reported, in order |
| ImportPersistence.ResolvePrefix | app/actions/import.ts:246-258 | the prefix step of ResolveConcat |
| ImportPersistence.DirectionsAccounted | app/actions/import.ts:242-259 | the resolved ids and the unknown names together number the comma-separated pieces: no name is dropped silently |
| ImportPersistence.OrNull | app/actions/import.ts:276-277 | the `or null` fallback keeps exactly the truthy strings |
| ImportPersistence.NewObject | app/actions/import.ts:270-281 | the created object is unpublished, and its phones are the non-empty phone tokens, or null when there are none |
| ImportPersistence.NewTranslations | app/actions/import.ts:284-315 | ru comes first from the required texts, and no translation is published |
| ImportPersistence.RowStep | app/actions/import.ts:212-340 | the type is checked before the region; the row is written exactly when both resolve and the write does not throw |
| ImportPersistence.Steps | app/actions/import.ts:212 | one plan per row |
| ImportPersistence.DirectionErrors | app/actions/import.ts:251-256 | one directions error per unknown name |
| ImportPersistence.BatchErrors | app/actions/import.ts:346-354 | one general error per row of a failed batch |
| ImportPersistence.RowsRun | app/actions/import.ts:211-342 | a batch runs at most its own rows before it throws |
| ImportPersistence.ResolveDirections | app/actions/import.ts:241-259 | the direction loop collects the resolved ids and appends one error per unknown name |
| ImportPersistence.ImportRowInto | app/actions/import.ts:212-340 | the per-row body reaches the store, errors and counters its plan describes |
| ImportPersistence.ImportBatch | app/actions/import.ts:204-356 | one batch in its transaction reaches the batch's specified outcome, rolled back when it throws |
| ImportPersistence.StepsOfBatch | app/actions/import.ts:205 | planning a batch's rows equals taking the batch of the planned rows |
| ImportPersistence.ImportBatches | app/actions/import.ts:200-356 | the batch loop reaches the outcome of all batches in order |
| ImportPersistence.ImportObjectsOutcome | app/actions/import.ts:144-157 | a caller below EDITOR is refused with the gate's error and nothing is written; an editor's call succeeds exactly when there is a worksheet; every failure leaves the store as it was |
| ImportPersistence.ImportObjects | app/actions/import.ts:144-366 | with the dictionary rows read from the store, a refused caller gets the gate's error and the store is unchanged; otherwise the store and the result are those ImportObjectsOutcome gives, and references that resolved before still resolve |
| ImportPersistence.BatchesPartitionRows | app/actions/import.ts:201-205 | the batches are consecutive non-empty slices of at most 100 rows whose concatenation is the row list |
| ImportPersistence.StepCountsOnce | app/actions/import.ts:218-340 | every row moves exactly one of imported and failed by one |
| ImportPersistence.StepsCountOnce | app/actions/import.ts:212-341 | n rows move the counters by n in total |
| ImportPersistence.NoBatchFaultAccounting | app/actions/import.ts:204-356 | without a failing batch, imported + failed grows by exactly the number of rows |
| ImportPersistence.ImportAccounting | app/actions/import.ts:360-365 | without a failing batch, imported + failed is the number of validated rows, and success holds exactly when nothing failed |
| ImportPersistence.InvalidFileWritesNothing | app/actions/import.ts:150-157 | an invalid file writes nothing and reports each validation error as a failure |
| ImportPersistence.ImportObjectsAccounting | app/actions/import.ts:144-366 | for an editor's valid file without a failing batch, imported + failed is the file's number of data rows, and success holds exactly when nothing failed |
| ImportPersistence.ImportObjectsInvalidFile | app/actions/import.ts:144-157 | an editor's import of an invalid file writes nothing and reports each validation error as a failure |
| ImportPersistence.UnknownNamesSkipRow | app/actions/import.ts:215-238 | an unknown type or region writes nothing and adds one failure with one error on type or, failing that, region |
| ImportPersistence.CreatedRowShape | app/actions/import.ts:240-331 | an importable row creates one unpublished object under the next id, with its type and region, its translations and one link per resolved direction |
| ImportPersistence.RowStepWrite | app/actions/import.ts:240-329 | an importable row's plan writes the object, translations and links built from the row |
| ImportPersistence.PutNewTranslations | app/actions/import.ts:284-319 | the translation writes of a row amount to one update per written language |
| ImportPersistence.TranslationsWritten | app/actions/import.ts:284-319 | ru is always written; kz and en exactly when both their texts are truthy; none is published; no other object's rows change |
| ImportPersistence.FailedBatchRollsBack | app/actions/import.ts:210-355 | a failing batch restores the store and adds one general error and one failure per row |
| ImportPersistence.FailedBatchOvercounts | app/actions/import.ts:331-354 | a batch that throws after all its rows were written counts them both as imported and as failed |
| ImportPersistence.AllStepsImported | app/actions/import.ts:331 | rows that are all written count only as imported |
| ImportPersistence.StepsOnlyAddUnpublished | app/actions/import.ts:270-281 | written rows keep ids below the next id and only add unpublished objects |
| ImportPersistence.StepOnlyAddsUnpublished | app/actions/import.ts:270-281 | one row write keeps ids below the next id and only adds an unpublished object |
| ImportPersistence.BatchesOnlyAddUnpublished | app/actions/import.ts:204-356 | the batches, rolled back or not, only add unpublished objects |
| ImportPersistence.ImportOnlyAddsUnpublished | app/actions/import.ts:144-366 | an import leaves existing objects untouched and every new object unpublished |
| ImportPersistence.ImportObjectsOnlyAddsUnpublished | app/actions/import.ts:144-366 | whoever calls importObjects, existing objects stay untouched and every new object is unpublished |
| ImportPersistence.SnapshotMapsInto | app/actions/import.ts:160-193 | name maps built from the store's own types, regions and directions hand out only ids of the store |
| ImportPersistence.RowStepResolves | app/actions/import.ts:203-283 | with such maps, a planned write refers only to the store's type, region and directions |
| ImportPersistence.StepKeepsReferencesResolved | app/actions/import.ts:270-330 | one row's writes keep the dictionaries and keep every reference resolving |
| ImportPersistence.StepsKeepReferencesResolved | app/actions/import.ts:200-340 | a batch's rows keep every reference resolving |
| ImportPersistence.BatchesKeepReferencesResolved | app/actions/import.ts:196-358 | the batches, rolled back or not, keep every reference resolving |
| ImportPersistence.ImportKeepsReferencesResolved | app/actions/import.ts:196-358 | an import whose maps point into the store writes no dangling type, region or direction reference |
| ImportPersistence.ImportObjectsKeepsReferencesResolved | app/actions/import.ts:144-366 | importObjects with the store's own dictionaries keeps every reference resolving, whoever calls it |
| Store.LinksWithout | app/actions/objects.ts:268-270 | deleting an object's links keeps exactly the links of other objects and never adds one |
| Store.LinksFor | app/actions/objects.ts:272-279 | createMany of links makes one link per direction id, in order, all for the object |
| Store.DirectionsOf | app/actions/objects.ts:197-204 | a direction is listed for an object exactly when the link between them exists |
| Store.DirectionsOfConcat | app/actions/objects.ts:272-279 | appending links appends their directions |
| Store.DirectionsOfWithout | app/actions/objects.ts:268-270 | after deleting an object's links it has no directions and every other object keeps its own |
| Store.DirectionsOfLinksFor | app/actions/objects.ts:197-204 | the new links give the object exactly the given directions and no other object any |
| Store.ReplaceLinks | app/actions/objects.ts:267-279 | delete-then-create leaves the object with exactly the submitted directions and every other object unchanged |
| Store.LinksToDirection | app/actions/dictionaries.tsx:416-422 | the count of links to a direction is zero exactly when no link references it |
| Store.CreatedEffect | app/actions/objects.ts:142-207 | creating an object adds it under the next id with its translations and links and leaves the dictionaries alone |
| Store.PutTranslationsAppend | app/actions/objects.ts:192-194 | a createMany of one more row puts that row under its (object, language) key |
| Store.PutTranslationsLookup | app/actions/objects.ts:244-263 | each key of the object holds the last row written for its language; other keys keep their row or their absence |
| Store.Database.Restore | app/actions/import.ts:211-355 | a failed transaction leaves every table as it was before it |
| Store.Database.CreateObject | app/actions/objects.ts:144-156 | object.create adds the row under the next id and moves the counter past it |
| Store.Database.WriteNewObject | app/actions/objects.ts:142-207 | the object, its translations and its links are written exactly as Created describes |
| Store.Database.UpdateObject | app/actions/objects.ts:223-235 | object.update replaces the one row and nothing else |
| Store.Database.PutObjectTranslation | app/actions/objects.ts:244-263 | upsert writes the row under (object, language) and nothing else |
| Store.Database.CreateLinks | app/actions/objects.ts:272-279 | createMany appends one link per direction id |
| Store.Database.DeleteLinksOf | app/actions/objects.ts:268-270 | deleteMany removes the object's links and keeps the rest in order |
| Store.Database.DeleteObject | app/actions/objects.ts:292-294 | object.delete removes the one row and nothing else |
| Store.Database.CreateType | app/actions/dictionaries.tsx:41-47 | the type row goes under the next id and the counter moves past it |
| Store.Database.UpdateType | app/actions/dictionaries.tsx:92-99 | the one type row is replaced and nothing else |
| Store.Database.PutTypeName | app/actions/dictionaries.tsx:107-120 | the type name is written under (type, language) and nothing else |
| Store.Database.DeleteType | app/actions/dictionaries.tsx:143-145 | the one type row is removed and nothing else |
| Store.Database.CreateRegion | app/actions/dictionaries.tsx:185-190 | the region row goes under the next id and the counter moves past it |
| Store.Database.UpdateRegion | app/actions/dictionaries.tsx:235-241 | the one region row is replaced and nothing else |
| Store.Database.PutRegionName | app/actions/dictionaries.tsx:249-262 | the region name is written under (region, language) and nothing else |
| Store.Database.DeleteRegion | app/actions/dictionaries.tsx:285-287 | the one region row is removed and nothing else |
| Store.Database.CreateDirection | app/actions/dictionaries.tsx:326-330 | the direction row goes under the next id and the counter moves past it |
| Store.Database.UpdateDirection | app/actions/dictionaries.tsx:375-380 | the one direction row is replaced and nothing else |
| Store.Database.PutDirectionName | app/actions/dictionaries.tsx:388-401 | the direction name is written under (direction, language) and nothing else |
| Store.Database.DeleteDirection | app/actions/dictionaries.tsx:424-426 | the one direction row is removed and nothing else |
| Users.IndexOfId | app/actions/users.ts:167-169 | findUnique by id finds a row carrying the id, or reports that no row does |
| Users.ParseRole | app/actions/users.ts:13 | the role enum accepts exactly "SUPER_ADMIN" and "EDITOR" |
| Users.ParseUser | app/actions/users.ts:9-14 | userSchema accepts exactly the inputs with a valid e-mail, a 1-100 character name, an optional password of at least six characters and a known role, and keeps their values; a rejection carries at least one issue |
| Users.CreateUserOutcome | app/actions/users.ts:76-110 | a user is created exactly when the caller is a super-admin, the input is valid, a password is given and the e-mail is free; the row holds the hash and is verified from the given time; a failure changes nothing |
| Users.UpdateUserOutcome | app/actions/users.ts:112-154 | an update succeeds exactly when the caller is a super-admin, the input is valid, no one changes their own role, the e-mail is not another user's and the user exists; only that row changes |
| Users.DeleteUserOutcome | app/actions/users.ts:156-188 | a delete succeeds exactly when the caller is a super-admin deleting someone else who exists, and a super-admin only while another one exists; only that row goes |
| Users.ResetPasswordOutcome | app/actions/users.ts:190-205 | a reset succeeds exactly when the caller is a super-admin, the password has at least six characters and the user exists; only the hash changes |
| Users.ToggleStatusOutcome | app/actions/users.ts:207-237 | a toggle succeeds exactly when the caller is a super-admin acting on another existing user; a verified user is deactivated, a deactivated one is verified now, and the result says whether the user is now active |
| Users.UserTable.Insert | app/actions/users.ts:97-105 | user.create appends the row under the next id |
| Users.UserTable.Replace | app/actions/users.ts:146-149 | user.update replaces one row and keeps the counter |
| Users.UserTable.Remove | app/actions/users.ts:181-183 | user.delete removes one row and keeps the others in order |
| Users.UserTable.CreateUser | app/actions/users.ts:76-110 | the table reaches the outcome CreateUserOutcome describes |
| Users.UserTable.UpdateUser | app/actions/users.ts:112-154 | the table reaches the outcome UpdateUserOutcome describes |
| Users.UserTable.DeleteUser | app/actions/users.ts:156-188 | the table reaches the outcome DeleteUserOutcome describes |
| Users.UserTable.ResetUserPassword | app/actions/users.ts:190-205 | the table reaches the outcome ResetPasswordOutcome describes |
| Users.UserTable.ToggleUserStatus | app/actions/users.ts:207-237 | the table reaches the outcome ToggleStatusOutcome describes |
| Users.SuperAdminCountConcat | app/actions/users.ts:172-174 | the super-admin count of two tables together is the sum of their counts |
| Users.SuperAdminCountSplit | app/actions/users.ts:172-174 | the count splits into the rows before a row, the row and the rows after |
| Users.SuperAdminCountPositive | app/actions/users.ts:171-179 | the count is positive exactly when some row is a super-admin |
| Users.DeleteKeepsASuperAdmin | app/actions/users.ts:166-179 | deleting a user never removes the last super-admin |
| Users.UpdateKeepsASuperAdmin | app/actions/users.ts:118-121 | an update by a super-admin of the table never leaves it without a super-admin |
| Users.OwnRoleIsKept | app/actions/users.ts:118-121 | a successful update of one's own row keeps one's role |
| Users.PasswordChangesOnlyWhenGiven | app/actions/users.ts:141-144 | the password hash changes exactly when a password was given |
| Users.RowUpdatesTouchOnlyTarget | app/actions/users.ts:146-149 | update, password reset and status toggle change only the row with the given id |
| Users.DeleteRemovesOnlyTarget | app/actions/users.ts:181-183 | a delete removes exactly the user's row and keeps every other row |
| Users.CreateKeepsValid | app/actions/users.ts:85-105 | creating a user keeps ids and e-mails unique and below the next id |
| Users.UpdateKeepsValid | app/actions/users.ts:123-149 | updating a user keeps ids and e-mails unique |
| Users.DeleteKeepsValid | app/actions/users.ts:181-183 | deleting a user keeps ids and e-mails unique |
| Users.ResetAndToggleKeepValid | app/actions/users.ts:199-232 | a password reset and a status toggle keep ids and e-mails unique |
| Users.CreatedUserIsActive | app/actions/users.ts:95-105 | the created user is found by e-mail as the last row, verified now and holding the hash |
| Users.ToggleTwiceRestoresActivity | app/actions/users.ts:227-236 | toggling twice succeeds again, restores whether the user is active, and the two results differ |
| Users.SameIdsSameIndex | app/actions/users.ts:217-219 | rows with the same ids in the same places are searched alike by id |
| ObjectSchema.EmptyToUndefined | lib/validation/object.ts:8 | the trimmed text, or undefined exactly when only whitespace was sent |
| ObjectSchema.EmptyToUndefinedIdempotent | lib/validation/object.ts:8 | normalising a kept text again changes nothing |
| ObjectSchema.NormalizeWebsite | lib/validation/object.ts:16-32 | a URL or "" is kept as sent; any other text is trimmed, and a blank one becomes undefined; nothing is rejected |
| ObjectSchema.NormalizeWebsiteIdempotent | lib/validation/object.ts:16-32 | normalising a normalised website again changes nothing |
| ObjectSchema.PhoneIssuesAt | lib/validation/object.ts:11-13 | a phone has no issue exactly when it has at least three characters, all digits, spaces, `-`, `+`, `(` or `)`; issues carry the phone's index |
| ObjectSchema.PhoneIssues | lib/validation/object.ts:33 | a phone list has no issue exactly when every phone is valid |
| ObjectSchema.DirectionIdIssues | lib/validation/object.ts:34 | a direction list has no issue exactly when every id is a UUID |
| ObjectSchema.TranslationIssues | lib/validation/object.ts:19-23 | a translation has no issue exactly when its name and address have 1 to 1000 characters |
| ObjectSchema.OptionalTranslationIssues | lib/validation/object.ts:37-38 | an omitted kz or en translation is accepted; a given one follows the translation rules |
| ObjectSchema.PhoneListIssues | lib/validation/object.ts:33 | an omitted or null phone list is accepted; a given one needs every phone valid |
| ObjectSchema.DirectionListIssues | lib/validation/object.ts:34 | an omitted direction list is accepted; a given one needs every id a UUID |
| ObjectSchema.BaseIssuesMatchFields | lib/validation/object.ts:26-40 | the field checks report nothing exactly when the field rules hold |
| ObjectSchema.ParseObject | lib/validation/object.ts:42-53 | a rejection carries at least one issue |
| ObjectSchema.ParseObjectMatchesRules | lib/validation/object.ts:26-53 | the schema accepts exactly the objects whose fields are valid and whose coordinates are paired |
| ObjectSchema.ParsedObjectShape | lib/validation/object.ts:19-40 | an accepted object keeps its ids and ru texts, normalises the URL and website, defaults directions to [] and `isPublished` to false |
| ObjectSchema.PairingReportedIffUnpaired | lib/validation/object.ts:42-53 | the pairing issue is reported exactly when one coordinate is given without the other |
| ObjectSchema.AcceptedCoordinatesAreValid | lib/validation/object.ts:4-5 | an accepted object's coordinates are absent together or a pair the coordinate guards accept |
| ObjectSchema.AcceptedPhonesAreValid | lib/validation/object.ts:11-13 | every phone of an accepted object is valid |
| ObjectSchema.ParseLang | lib/validation/object.ts:57 | a parsed language has the given code |
| ObjectSchema.ParseLangCode | lib/validation/object.ts:57 | every language code parses back to its language |
| ObjectSchema.IdIssues | lib/validation/object.ts:59-61 | an id filter has no issue exactly when every id is a UUID |
| ObjectSchema.PositiveInt | lib/validation/object.ts:62-63 | an accepted page or limit is the number sent, at least one |
| ObjectSchema.ParseObjectsQuery | lib/validation/object.ts:56-64 | an accepted query has page at least 1 (default 1), limit 1 to 100 (default 50) and language ru by default, else the values sent; a rejection carries an issue |
| ObjectSchema.QueryNumbersRule | lib/validation/object.ts:56-64 | a query is accepted exactly when its language, if sent, is ru, kz or en, its id lists hold only uuids, its page is a positive integer and its limit a positive integer at most 100 |
| ObjectActions.Resolve | app/actions/objects.ts:146-147 | the form's type, region and direction ids map to store ids one for one; the translations are kept |
| ObjectActions.Admit | app/actions/objects.ts:138-140 | the role gate fails first; then the parse; success exactly when the caller is an editor and the form is valid |
| ObjectActions.Stored | app/actions/objects.ts:149-150 | on create a given coordinate is stored and null or undefined store nothing |
| ObjectActions.Assigned | app/actions/objects.ts:227-228 | on update an undefined coordinate keeps the column, null clears it, a value replaces it |
| ObjectActions.Kept | app/actions/objects.ts:229-230 | on update an undefined URL or website keeps the column |
| ObjectActions.NullAsUndefined | app/actions/objects.ts:153 | a null phone list is passed on as undefined; anything else unchanged |
| ObjectActions.TranslationOf | app/actions/objects.ts:159-190 | ru is always supplied |
| ObjectActions.TranslationRows | app/actions/objects.ts:159-190 | the translation rows start with ru |
| ObjectActions.PresentRowsAreTranslationRows | app/actions/objects.ts:237-265 | visiting ru, kz, en and keeping the supplied ones gives the same rows as create |
| ObjectActions.LastForAppend | app/actions/objects.ts:244-263 | one more row is the last for its own language and changes no other language |
| ObjectActions.TranslationRowsLast | app/actions/objects.ts:159-194 | each language's last row is the one the form supplies |
| ObjectActions.CreateObjectOutcome | app/actions/objects.ts:137-213 | creation succeeds exactly when the caller is an editor and the form is valid, and returns the next id; a failure changes nothing |
| ObjectActions.UpdateObjectOutcome | app/actions/objects.ts:216-286 | an update succeeds exactly when the caller is an editor, the form is valid and the object exists; a missing object rolls back |
| ObjectActions.DeleteObjectOutcome | app/actions/objects.ts:289-300 | a delete succeeds exactly when the caller is an editor and the object exists; it removes that object row and leaves every other object, the translations, the links and the dictionaries as they were |
| ObjectActions.TogglePublishOutcome | app/actions/objects.ts:303-327 | a toggle succeeds exactly when the caller is an editor and the object exists, negates its flag, returns the new value and changes nothing else |
| ObjectActions.NoLinksNoDirections | app/actions/objects.ts:197-204 | an object no link mentions has no directions |
| ObjectActions.CreateWritesTranslations | app/actions/objects.ts:144-194 | the new object is published as ru is, has the session's creator, and has a translation row exactly for each supplied language with the form's text |
| ObjectActions.CreateWritesLinks | app/actions/objects.ts:197-204 | the new object is linked to exactly the listed directions, in order |
| ObjectActions.CreateKeepsConsistent | app/actions/objects.ts:142-207 | creating keeps every id, translation and link below the next id |
| ObjectActions.UpdateKeepsConsistent | app/actions/objects.ts:220-280 | updating keeps every id, translation and link below the next id |
| ObjectActions.UpdateUpsertsSuppliedTranslations | app/actions/objects.ts:237-265 | supplied languages are upserted; an omitted language's row or its absence stays; other objects' rows stay |
| ObjectActions.UpdateReplacesLinks | app/actions/objects.ts:267-279 | the object's directions become exactly the form's list; other objects keep theirs |
| ObjectActions.UpdateWritesFields | app/actions/objects.ts:223-235 | the updated row follows the undefined-keeps, null-clears rules, keeps the creator, follows ru's flag, and no other object changes |
| ObjectActions.ToggleTwiceRestores | app/actions/objects.ts:316-320 | toggling twice restores the flag and the whole store |
| ObjectActions.DeleteKeepsConsistent | app/actions/objects.ts:289-300 | a delete keeps every id, translation and link below the next id |
| ObjectActions.DeleteUndoesCreate | app/actions/objects.ts:289-300 | deleting the object an editor just created restores the object table |
| ObjectActions.DeleteTwiceNotFound | app/actions/objects.ts:289-300 | a second delete of the same object fails as not found and writes nothing |
| ObjectActions.CreateObject | app/actions/objects.ts:137-213 | the store reaches the outcome CreateObjectOutcome describes |
| ObjectActions.UpsertTranslations | app/actions/objects.ts:237-265 | the upsert loop writes the supplied rows in order and nothing else |
| ObjectActions.WriteUpdate | app/actions/objects.ts:220-280 | the writes reach the store Updated describes |
| ObjectActions.UpdateObject | app/actions/objects.ts:216-286 | the store reaches the outcome UpdateObjectOutcome describes |
| ObjectActions.DeleteObject | app/actions/objects.ts:289-300 | the store reaches the outcome DeleteObjectOutcome describes |
| ObjectActions.ToggleObjectPublish | app/actions/objects.ts:303-327 | the store reaches the outcome TogglePublishOutcome describes |
| ObjectActions.OrDefault | app/actions/objects.ts:20-21 | a missing or zero number takes the default; any other is kept |
| ObjectActions.CeilDiv | app/actions/objects.ts:89 | with a positive limit the page count is the ceiling of total over limit |
| ObjectActions.AdminPaging | app/actions/objects.ts:20-22 | a missing or zero page or limit takes its default (1 and 50), and the offset is (page - 1) times limit |
| ObjectActions.AdminPagesAgreeWithApi | app/actions/objects.ts:89 | with positive page and limit the page count is the public API's, and a page below it has more objects after it, and conversely |
| ObjectActions.AdminPagingDefaults | app/actions/objects.ts:20-22 | without parameters the first 50 objects are shown |
| ObjectActions.BuildAdminWhere | app/actions/objects.ts:24-43 | an object matches the built filter exactly when a non-empty search occurs, ignoring case, in some translation's name or address and a given type and region match |
| ObjectsApi.ParamsOf | app/api/objects/route.ts:54-62 | a missing or empty language becomes "ru", an empty search is dropped, each id list becomes the sent ids with the empty ones filtered out (in order, by DropEmpty), and page and limit pass through |
| ObjectsApi.ParseApiQuery | app/api/objects/route.ts:9-17 | the route's query schema accepts exactly what the list query rules accept with no limit maximum, and keeps the page, limit and language sent |
| ObjectsApi.LimitFromEnv | app/api/objects/route.ts:19-27 | a finite positive environment value is rounded down; anything else gives the fallback |
| ObjectsApi.FractionalEnvLimitIsZero | app/api/objects/route.ts:19-22 | a positive default limit below one rounds down to zero |
| ObjectsApi.PagingOf | app/api/objects/route.ts:75-89 | the page defaults to 1 and the limit to the default; a limit above the maximum is refused, otherwise used as asked; the offset is (page - 1) times limit |
| ObjectsApi.PageCount | app/actions/objects.ts:89 | the page count is the least number of pages that hold every object |
| ObjectsApi.HasMoreBeforeLastPage | app/api/objects/route.ts:251 | `hasMore` holds exactly on the pages before the last one |
| ObjectsApi.HasMoreIffNextPageStartsInside | app/api/objects/route.ts:251 | `hasMore` holds exactly when the next page starts before the last matching object |
| ObjectsApi.BuildWhere | app/api/objects/route.ts:92-122 | an object matches the built filter exactly when it is published, non-empty region, type and direction lists admit it, and a given search occurs, ignoring case, in a translation in the requested language |
| ObjectsApi.NoFiltersListsAllPublished | app/api/objects/route.ts:92-94 | without filters exactly the published objects are listed |
| ObjectsApi.SearchIgnoresCase | app/api/objects/route.ts:112-121 | two searches that differ only in letter case list the same objects |
| ObjectsApi.PlanListing | app/api/objects/route.ts:49-124 | invalid parameters and a limit above the maximum give 400; otherwise the paging, the filter and the translation languages are those above |
| ObjectsApi.TranslationLanguages | app/api/objects/route.ts:124 | the requested language first, ru among them, no repeats, nothing else |
| ObjectsApi.FirstWithLang | app/api/objects/route.ts:202-203 | the first translation in the language, or none when no translation has it |
| ObjectsApi.PickTranslation | app/api/objects/route.ts:197-206 | the requested language's first translation, else ru's first, else the first one, and nothing only for an empty list |
| ObjectsApi.DisplayName | app/api/objects/route.ts:223-239 | the picked translation's name when non-empty, else the fallback; never empty with a non-empty fallback |
| ObjectsApi.DisplayAddress | app/api/objects/route.ts:231 | the picked translation's address, or "" |
| ObjectsApi.DisplayNamePrefersRequestedLanguage | app/api/objects/route.ts:197-206 | a non-empty name in the requested language is shown |
| ObjectsApi.PhoneStrings | app/api/objects/route.ts:35-43 | each phone element maps to its text, one for one |
| ObjectsApi.NormalizePhones | app/api/objects/route.ts:29-47 | a non-array gives null; an array gives all its non-empty texts in order (the filter of DropEmpty over the element texts), or null when none remains |
| ObjectsApi.PhoneStringTrimmed | app/api/objects/route.ts:36-40 | a phone's text has no surrounding whitespace |
| ObjectsApi.NormalizePhonesIdempotent | app/api/objects/route.ts:29-47 | a normalised list, stored back as text, normalises to itself |
| ObjectsApi.Format | app/api/objects/route.ts:196-243 | the object's name and address come from its picked translation (else empty); the type's and region's names from theirs, else their codes, so never empty when the code is not; one name per direction, each from that direction's picked translation; the phones normalised |
| DictionaryActions.CodeIssues | app/actions/dictionaries.tsx:11 | a code has no issue exactly when it has 1 to 50 characters |
| DictionaryActions.OrderIssues | app/actions/dictionaries.tsx:13 | an order has no issue exactly when it is a non-negative integer |
| DictionaryActions.NameIssues | app/actions/dictionaries.tsx:15 | a name has no issue exactly when it has 1 to 100 characters |
| DictionaryActions.OptionalNameIssues | app/actions/dictionaries.tsx:16-17 | an omitted kz or en name is accepted; a given one follows the name rule |
| DictionaryActions.NamesIssues | app/actions/dictionaries.tsx:14-18 | the names have no issue exactly when ru and every given kz or en name have 1 to 100 characters |
| DictionaryActions.ParseDict | app/actions/dictionaries.tsx:10-19 | a rejection carries at least one issue; an accepted form keeps its names |
| DictionaryActions.ParseDictMatchesRules | app/actions/dictionaries.tsx:10-19 | the type, region and direction schemas accept exactly the forms with a valid code, colour, order and names, and the row carries the form's code, colour and integer order |
| DictionaryActions.NameRows | app/actions/dictionaries.tsx:49-71 | the name rows start with ru |
| DictionaryActions.UpsertRowsStep | app/actions/dictionaries.tsx:101-122 | visiting one more language adds its row exactly when its name is given |
| DictionaryActions.UpsertRowsAreNameRows | app/actions/dictionaries.tsx:101-122 | update's loop over ru, kz, en writes the same rows as create |
| DictionaryActions.LastForAppend | app/actions/dictionaries.tsx:107-120 | one more row is the last for its own language and changes no other language |
| DictionaryActions.NameRowsLast | app/actions/dictionaries.tsx:49-71 | each language's last row is the form's name in it |
| DictionaryActions.WithNames | app/actions/dictionaries.tsx:73-75 | the kind's name table becomes the given one |
| DictionaryActions.WithNamesTwice | app/actions/dictionaries.tsx:101-122 | a second name write overrides the first |
| DictionaryActions.WithEntry | app/actions/dictionaries.tsx:41-47 | the id holds the written row and joins the kind's ids; every other row of every table, the objects, the links, the names and the next id stay as they were |
| DictionaryActions.WithoutEntry | app/actions/dictionaries.tsx:143-145 | deleting a row removes exactly its id from the kind's ids |
| DictionaryActions.Admit | app/actions/dictionaries.tsx:36-38 | the role gate fails first; success exactly when the caller is a super-admin and the form parses |
| DictionaryActions.CreateOutcome | app/actions/dictionaries.tsx:35-84 | creation succeeds exactly when the caller is a super-admin and the form is valid, and returns the next id; a failure changes nothing |
| DictionaryActions.UpdateOutcome | app/actions/dictionaries.tsx:86-129 | an update succeeds exactly when the caller is a super-admin, the form is valid and the entry exists; a failure changes nothing |
| DictionaryActions.DeleteOutcome | app/actions/dictionaries.tsx:131-151 | a delete succeeds exactly when the caller is a super-admin, nothing references the entry and it exists; a referenced entry reports its count; only that entry goes |
| DictionaryActions.DeleteKeepsReferencesResolved | app/actions/dictionaries.tsx:134-141 | after a delete every object's type, region and directions still exist |
| DictionaryActions.NameWritesKeepEntries | app/actions/dictionaries.tsx:49-60 | name writes leave every stored row alone |
| DictionaryActions.CreateWritesEntry | app/actions/dictionaries.tsx:35-84 | a successful create stores the parsed row (code, colour, order) under the new id and changes no other row of any table |
| DictionaryActions.UpdateWritesEntry | app/actions/dictionaries.tsx:86-129 | a successful update replaces the row under the id by the parsed row and changes no other row of any table |
| DictionaryActions.EntryWriteGrows | app/actions/dictionaries.tsx:41-47 | writing a row keeps every id, every name, the objects and the links |
| DictionaryActions.NameWritesKeepTables | app/actions/dictionaries.tsx:73-75 | writing names keeps every kind's ids, the objects and the links |
| DictionaryActions.GrowingKeepsReferencesResolved | app/actions/dictionaries.tsx:40-83 | a store with the same objects and links and no fewer ids still resolves every reference |
| DictionaryActions.EntryAndNamesKeepReferencesResolved | app/actions/dictionaries.tsx:40-83 | writing a row and its names keeps every reference resolved |
| DictionaryActions.CreateKeepsReferencesResolved | app/actions/dictionaries.tsx:35-84 | creating an entry keeps every reference resolved |
| DictionaryActions.UpdateKeepsReferencesResolved | app/actions/dictionaries.tsx:86-129 | updating an entry keeps every reference resolved |
| DictionaryActions.CreateWritesNames | app/actions/dictionaries.tsx:40-83 | the new entry exists and has exactly the given names; other names are unchanged |
| DictionaryActions.UpdateUpsertsProvidedNames | app/actions/dictionaries.tsx:101-122 | given names are upserted; an omitted language keeps its name or its absence; other entries' names are unchanged |
| DictionaryActions.PutName | app/actions/dictionaries.tsx:107-120 | one upsert writes one name and nothing else |
| DictionaryActions.PutNames | app/actions/dictionaries.tsx:73-75 | createMany writes the rows in order and nothing else |
| DictionaryActions.AddEntry | app/actions/dictionaries.tsx:41-47 | create puts the row under the next id and moves the counter |
| DictionaryActions.ReplaceEntry | app/actions/dictionaries.tsx:92-99 | update replaces the row and nothing else |
| DictionaryActions.PushNames | app/actions/dictionaries.tsx:49-71 | the pushed rows are the name rows |
| DictionaryActions.WriteCreate | app/actions/dictionaries.tsx:40-83 | the writes reach the store CreatedEntry describes |
| DictionaryActions.Create | app/actions/dictionaries.tsx:35-84 | the store reaches the outcome CreateOutcome describes |
| DictionaryActions.UpsertNames | app/actions/dictionaries.tsx:101-122 | the loop writes each given name in ru, kz, en order and nothing else |
| DictionaryActions.Update | app/actions/dictionaries.tsx:86-129 | the store reaches the outcome UpdateOutcome describes |
| DictionaryActions.Delete | app/actions/dictionaries.tsx:131-151 | the store reaches the outcome DeleteOutcome describes |

## Left out

**Foreign libraries and I/O**
- Workbook loading with ExcelJS and base64 decoding (app/actions/import.ts:72-87): the model starts from the parsed first worksheet, a sequence of rows of cells. A missing worksheet or a parse error is one top-level failure.
- The import template download (app/actions/import.ts:1-69) builds a workbook and a file name from the clock; it is not modelled.
- Prisma and PostgreSQL: the database is the in-memory `Store.Db`. A transaction that throws is modelled as the store returning to its snapshot.
- Foreign keys, the unique (object, direction) link constraint and the cascade deletes of the Prisma schema: that schema is not part of this model. `Store.Database.DeleteObject` removes the object row only and leaves its translations and links.
- bcrypt's hash and compare: `Auth` takes the matching pairs as a set, and `Users` takes the hash as an argument.
- The clock: `Date.now`, `new Date()` and the X-Response-Time measurement are arguments.
- NextAuth session lookup: the session is an argument.
- `revalidatePath`, console logging and the JSON response envelopes (status codes other than the ones named in the table) are not modelled.
- The middleware matcher configuration (middleware.ts:81-87) is routing configuration.
- The session lifetime and the sign-in page settings of lib/auth.ts are configuration.

**Numbers and strings**
- Coordinates are reals. Floating point, NaN and Infinity are not modelled.
- Record ids are naturals handed out in increasing order, not UUID strings. `ObjectActions.Resolve` maps the form's UUID strings to ids through a given function.
- String lengths count Dafny characters, not UTF-16 code units, so zod's bounds differ for characters outside the Basic Multilingual Plane.
- Letter case is folded for ASCII letters only, in `Strings.ToLower`, `ObjectsApi.ContainsInsensitive` and the middleware's path check. PostgreSQL's case-insensitive `contains` and JavaScript's `toLowerCase` fold every script.
- `Strings.IsUrl`: zod's `url()` check is approximated by the scheme syntax (a letter, then letters, digits, `+`, `-` or `.`, then `:`). The WHATWG URL parser also accepts surrounding whitespace, so `ObjectSchema.NormalizeWebsite` trims a URL with leading blanks that the source keeps as sent.
- `Strings.IsEmail`: zod's `email()` check is approximated by its shape (a local part, one `@`, a dotted domain, no whitespace).
- `z.coerce.number` string parsing is not modelled: page and limit arrive as the numbers it produces.
- zod type errors (a field of the wrong JavaScript type) are not modelled: inputs arrive with the expected types. The pairing refine is always evaluated, while zod skips it when another field failed to parse.
- Spreadsheet cells carry the result of JavaScript's `Number()` coercion as data, not a parser.
- ObjectsApi.PhoneStrings: a number in the stored phone list is an integer rendered in decimal. JavaScript's `String()` of a fractional number, or of one at 1e21 or above (exponent notation), is not modelled.
- ImportSchema.ValidateImportRow: the catch branch for an error other than a ZodError (lib/validation/import.ts:65-68, one `unknown` issue) is not modelled. The row schema has no transform or refine that throws, so `parse` throws only ZodErrors on the inputs modelled.

**Database reads and listings**
- `getUsers` and `getUser` (app/actions/users.ts:16-74), `getAdminObject` (app/actions/objects.ts:94-134) and the three dictionary list reads are queries with includes and orderings. They are not modelled.
- In `getAdminObjects` and the public GET, the model builds the filter and the paging; the `findMany` ordering, the `include`/`select` shapes and `count` are database behaviour. `ObjectsApi.Format` takes an object as loaded.
- The `getUsers` statistics are a database count.

**Faults and concurrency**
- ImportPersistence.RowStep: a row's write fault is modelled as thrown before the row writes anything. A fault between the object and its translations is not modelled, nor PostgreSQL refusing later statements of an aborted transaction.
- A batch fault is given as the number of its rows that ran before the transaction threw. `ImportPersistence.FailedBatchOvercounts` shows that such a batch can count a row both as imported and as failed, as the source does.
- ImportPersistence.ImportObjects: the three dictionary reads (app/actions/import.ts:160-182) are not performed by the model; their rows are arguments that its precondition `DictionarySnapshot` ties to the store, one row per entry with its `ru` name, in any order.
- Concurrency: the model is sequential. The `Promise.all` dictionary reads and check-then-act races between admin actions (for example two deletes of the last super-admins) are not modelled.

**Weaker contracts**
- Users.UpdateKeepsASuperAdmin: it assumes the caller's session names a super-admin row of the table. The source checks the session's role only, so a stale session whose row was demoted is not covered.
- ObjectSchema.ParseObject: its own contract states only that a rejection carries an issue. What it accepts and what it produces are stated by `ParseObjectMatchesRules`, `ParsedObjectShape` and `PairingReportedIffUnpaired`.
