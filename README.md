# life-death-museum-backend, modelled in Dafny

This project models the REST backend of the "life and death museum": a personalised memorial
room. A user signs up and answers the onboarding questions. An AI analysis then recommends one
of the museum's themes. The user fills the room with decorative catalog objects. Some are
generated from free text by image models; others are presets imported from a folder of images.
Positioned copies of these objects ("modified" objects) are placed on the walls and the floor.
Choosing a theme provisions the theme's default placed objects for the user.

## How the model is built

- Each core source file is one Dafny module of the same name: `ThemeConfig`,
  `ThemeDefaultObjects`, `ModifiedService`, `ObjectService`, `ObjectController` and so on.
  Shared modules: `Wrappers` (Option/Result), `Text` (the JavaScript string operations used:
  trim, split/join, case conversion, `includes`), `Json` (request bodies and stored mixed
  values), `Http` (status and JSON replies) and `Models` (the three Mongoose schemas as
  datatypes, with what `save()` checks and stores).
- The database is the value `Store.State`. It holds the catalog objects, the placed objects,
  the users, the next fresh key and the clock. Every service operation and route handler is a
  function from a state (and the request) to an `Outcome` or a `Handled` reply: the result
  paired with the new state. The lemmas about the stores are stated on these functions.
- Where the source mutates the database step by step (provisioning loop, upload loop, service
  writes), there is also a method on the class `Store.Db`. Each such method is proved to compute
  its specification function: the function applied to `old(db.Snapshot())` yields the method's
  result and `db.Snapshot()`.
- Collaborators whose code is outside the core are parameters of function type. These are the
  text and image generators, object storage uploads, `JSON.parse`, `Number()`, the ObjectId
  check and cast, the password hash, token signing, URL download and base64 decoding, the
  clock and the random file-name prefix.

Where the code and its documentation disagree, the model follows the code:

- Signing up through `src/controller/auth.ts` and `src/controller/signup.ts` fails as written
  (see Findings). The account-creation scenario is therefore modelled twice: as written, and as
  evidently intended.
- `extractJSON` in `src/utils/responseParser.ts` says it finds the last valid JSON
  value. The code returns the first balanced `{…}` that parses. A stray `}` before it hides
  every later object. Braces inside string literals are counted like any other brace.
- `OnType` is imported from `src/models/ObjectModel.ts` by the validators and the import
  script, but that file does not export it. The prompts describe `LeftWall`/`RightWall`/`Floor`,
  while the catalog schema allows only `Wall` and `Floor`. The model therefore takes the `OnType`
  values as a parameter and keeps the schema's own enumeration as a constant
  (`Models.SideWallsNotOnTypes` states that the schema has no side walls).
- In the Imagen fallback chain, an answer without image data is not a quota failure. It
  therefore ends the chain instead of moving to the next model (`ImagenFallback.EmptyCandidateStops`).

## Model

| member | source | states |
|---|---|---|
| Models.SaveImageObject | src/models/ObjectModel.ts:22-63 | a saved catalog object satisfies the schema, keeps its creation time, its user-made flag and its placement kind, and that kind is one of the enumeration's |
| Models.SideWallsNotOnTypes | src/models/ObjectModel.ts:54-58 | the placement-kind enumeration holds neither `LeftWall` nor `RightWall` |
| Models.SaveKeepsTrimmed | src/models/ObjectModel.ts:24-47 | what a successful save stores is the object with every `trim` setter applied |
| Models.TrimmedSetValid | src/models/ObjectModel.ts:33-47 | a trimmed image set passes the required checks exactly when none of its three parts is blank |
| Models.TrimmedNameValid | src/models/ObjectModel.ts:24-28 | a trimmed name is present and stays trimmed exactly when the name is not blank |
| Models.TrimmedSetsValid | src/models/ObjectModel.ts:42-48 | every trimmed set is valid exactly when no set has a blank part |
| Models.SaveAcceptsIff | src/models/ObjectModel.ts:22-63 | a save succeeds exactly when the name and every part of the current and listed sets hold something besides white space and the placement kind is `Wall` or `Floor` |
| Models.NewUser | src/models/UserModel.ts:49-61 | a new account starts with both id lists empty, no invitation and no analysis, and keeps the given name, email, password, theme and time |
| Models.NewUserValid | src/models/UserModel.ts:21-66 | a new account with a name, an email, a password and the default theme satisfies the user schema |
| Models.NewUserWithoutNameInvalid | src/models/UserModel.ts:22-26 | an account without a name breaks the user schema |
| Models.SaveModified | src/models/ModifiedObject.ts:17-32 | a saved placement passes the placed-object schema and keeps its user-made flag, data, time, coordinates and placement kind (the schema declares no image location and no mirroring flag, so a placement holds neither); a refused save's error starts with "ModifiedObject validation failed: " |
| Models.TrimmedListValid | src/models/ObjectModel.ts:42-48 | every set of a list passes the required checks after trimming exactly when no set has a blank part |
| Models.FaultText | src/models/ModifiedObject.ts:17-32 | the report of one failed validator names the path it guards |
| Models.JoinFaultsNamesPaths | src/models/ModifiedObject.ts:17-32 | the joined reports of the failed validators name every failed path |
| Models.ValidationMessage | src/models/ModifiedObject.ts:17-32 | the error of a refused save starts with "ModifiedObject validation failed: " and names every failed path |
| Models.MissingMessage | src/models/ModifiedObject.ts:19-24 | a single missing path is reported as "<path>: Path `<path>` is required." after that prefix |
| Models.RequiredFault | src/models/ObjectModel.ts:24-28 | a required path raises no fault exactly when its value is not empty, and otherwise exactly one "required" fault for that path |
| Models.SetFaults | src/models/ObjectModel.ts:33-41 | an image set raises no fault exactly when its name, colour and source are all present |
| Models.SetsFaults | src/models/ObjectModel.ts:42-48 | the listed sets raise no fault exactly when every set from the given position on has its three parts |
| Models.EnumFault | src/models/ModifiedObject.ts:19-24 | a required enumerated path raises no fault exactly when its value is one of the listed values |
| Models.ModifiedFaults | src/models/ModifiedObject.ts:17-32 | the placed-object validators raise no fault exactly when the name, the current set, every listed set, the placement kind and the item function pass their required and enumeration checks |
| Models.SaveModifiedReports | src/models/ModifiedObject.ts:17-32 | a save is refused exactly when some validator fails once the setters have run, and the error is then the validation message of those faults, naming every failed path |
| Models.TrimmedChecksIffValid | src/models/ObjectModel.ts:22-63 | once the trim setters have run, the placed-object schema accepts a placement exactly when every required and enumeration check passes |
| Models.ValidStaysTrimmed | src/models/ObjectModel.ts:22-63 | the trim setters leave a placement the schema accepts as it is |
| Models.ClearedFunctionRefused | src/models/ModifiedObject.ts:19-24 | clearing the item function of a placement the schema accepts makes its save fail with "ModifiedObject validation failed: itemFunction: Path `itemFunction` is required." alone |
| Models.EmptyNameRefused | src/models/ObjectModel.ts:24-28 | emptying the name of a placement the schema accepts makes its save fail with the required-name message alone |
| Models.SaveModifiedAcceptsIff | src/models/ModifiedObject.ts:17-32 | saving a placement succeeds exactly when its name and every part of its current and listed sets are not blank, the current set is present, the placement kind is in the enumeration and the trimmed item function is one of `Gallery`, `Link`, `Board`, `None` |
| Store.FindObject | src/services/modifiedService.ts:56 | `findById` on catalog objects: a cast error exactly when the id is not an ObjectId, no document exactly when the id is absent or not stored, otherwise the stored document under that key |
| Store.FindModified | src/services/modifiedService.ts:105 | `findById` on placed objects: a cast error exactly when the id is not an ObjectId, no document exactly when the key is not stored, otherwise the stored document |
| Store.FindUser | src/services/modifiedService.ts:112 | `findById` on users: a cast error exactly when the id is not an ObjectId, no document exactly when the key is not stored, otherwise the stored user |
| Store.UpdateUser | src/services/modifiedService.ts:90-92 | `findByIdAndUpdate` on users: a cast error exactly when the id is not an ObjectId; otherwise only the addressed user changes, by the given update, and a missing user changes nothing |
| Store.UpdateUserKeepsValid | src/services/modifiedService.ts:90-92 | an update that keeps the user's id lists below the key counter keeps the database consistent |
| Store.InsertNewestFirst | src/services/modifiedService.ts:173 | inserting one document into a result list adds exactly that document and keeps the others |
| Store.InsertKeepsOrder | src/services/modifiedService.ts:173 | inserting keeps a list sorted by descending `createdAt` |
| Store.InsertKeepsDistinct | src/services/modifiedService.ts:170-173 | inserting a document with a new key keeps every key once |
| Store.CollectNewestFirst | src/services/modifiedService.ts:170-174 | `find({_id: {$in: ids}}).sort({createdAt: -1})`: exactly the stored documents whose keys are listed, each once, newest first |
| Store.Remove | src/services/modifiedService.ts:201-203 | `$pull` removes every occurrence of the value and keeps every other element |
| Store.RemoveAbsent | src/services/modifiedService.ts:201-203 | pulling a value the list does not hold leaves the list as it was |
| Store.RemoveAppended | src/services/modifiedService.ts:90-92 | pulling a value just pushed onto a list that did not hold it gives the list back |
| Text.Trim | src/services/modifiedService.ts:75 | `trim()`: the result is a slice of the input with only white space cut at both ends and no white space left at either end |
| Text.TrimIdempotent | src/validators/object.validator.ts:30 | trimming twice is trimming once |
| Text.BlankIffAllSpace | src/controller/modified.ts:25 | `s.trim().length === 0` exactly when every character is white space |
| Text.HasNonSpaceIffNotBlank | src/controller/modified.ts:95 | a string holds a non-space character exactly when it does not trim to nothing |
| Text.Lower | src/services/ai/google-imagen-fallback-image-generator.ts:73 | `toLowerCase()` maps each character on its own and keeps the length |
| Text.ContainsIffOccurs | src/services/ai/google-imagen-fallback-image-generator.ts:73-75 | `includes` holds exactly when the word occurs at some position |
| Text.Split | scripts/import-objects-from-folder.ts:22 | `split("-")` gives at least one piece and no piece holds the separator |
| Text.JoinSplit | scripts/import-objects-from-folder.ts:75-79 | joining the pieces of a split with the separator gives the string back |
| Text.SplitJoin | scripts/import-objects-from-folder.ts:22 | splitting a join of separator-free pieces gives the pieces back |
| Text.ParseInt | src/controller/user.ts:67 | `parseInt(s, 10)` is NaN exactly when no digit follows the leading white space and sign |
| Text.ParseIntOfNatToString | src/controller/user.ts:67 | `parseInt` reads back every rendered natural number |
| Text.NatToString | scripts/import-objects-from-folder.ts:200 | a rendered natural number is a non-empty string of digits |
| ThemeConfig.Placeholder | src/config/theme-config.ts:46 | every placeholder id starts with `PLACEHOLDER_` |
| ThemeConfig.GetThemeConfig | src/config/theme-config.ts:233-235 | a theme is found exactly for ids 1 to 5, and it is the table's entry, carrying that id |
| ThemeConfig.GetDefaultModifiedObjectConfigs | src/config/theme-config.ts:240-243 | templates are found exactly when the theme is, and they are its two templates |
| ThemeConfig.TableKeys | src/config/theme-config.ts:37-228 | the table has entries exactly for ids 1 to 5, each carrying its own key as id |
| ThemeConfig.ShippedTheme | src/config/theme-config.ts:43-74 | each shipped theme has two templates, each with a placeholder original, no item function, not reversed, and its theme id and position in its data |
| ThemeConfig.AllTemplatesArePlaceholders | src/config/theme-config.ts:37-228 | every template of every shipped theme is such a placeholder template |
| ThemeDefaultObjects.InvalidThemeMessage | src/services/theme-default-object.service.ts:34-39 | the unknown-theme message starts with "Invalid theme ID: " |
| ThemeDefaultObjects.Guard | src/services/theme-default-object.service.ts:32-50 | an unknown theme is refused with "Invalid theme ID: …"; getting past the guard means the theme is known and has templates |
| ThemeDefaultObjects.HasValidConfig | src/services/theme-default-object.service.ts:127-135 | a valid configuration belongs to a known theme with at least one template |
| ThemeDefaultObjects.HasValidIffGuardPasses | src/services/theme-default-object.service.ts:127-135 | the configuration is valid exactly when provisioning gets past its guard: known theme, templates, and a first template without the placeholder prefix, later ones never inspected |
| ThemeDefaultObjects.OverlayWins | src/services/theme-default-object.service.ts:82-89 | the stored data is the template's data with the original's id, the user, the theme, the default flag and the position written over it, every other key kept |
| ThemeDefaultObjects.DefaultRecordCopies | src/services/theme-default-object.service.ts:69-90 | the record copies name, description, current set, image sets and placement kind from the original, takes coordinates and function from the template (its mirroring flag is dropped, as the placed-object schema does not declare it), is not user-made and carries the overlaid data |
| ThemeDefaultObjects.DefaultRecordSaves | src/services/theme-default-object.service.ts:69-93 | the placed-object schema accepts the copy exactly when the original's name and every part of its current and listed sets are not blank, its kind is in the enumeration, and the template names one of the four item functions |
| ThemeDefaultObjects.CatalogObjectCopyable | src/services/theme-default-object.service.ts:69-93 | for a catalog object that passed its own schema, the copy is accepted exactly when the template's item function is one of the four |
| ThemeDefaultObjects.SetFilledWhenValid | src/models/ObjectModel.ts:33-47 | a set that passed the schema has no blank part |
| ThemeDefaultObjects.Decide | src/services/theme-default-object.service.ts:58-93 | a template is skipped exactly when its id casts but names no catalog object |
| ThemeDefaultObjects.DecideStops | src/services/theme-default-object.service.ts:58-93 | a template stops the loop exactly when its id does not cast or the save rejects the copy of an existing original, and a rejection carries the schema's validation error, which starts with "ModifiedObject validation failed: " |
| ThemeDefaultObjects.DecidePlaces | src/services/theme-default-object.service.ts:69-93 | a placed record is the trimmed copy of an existing, acceptable original, passes the placed-object schema and is marked as the theme's default for that user |
| ThemeDefaultObjects.Decisions | src/services/theme-default-object.service.ts:57-61 | one decision per template, each taken on the catalog as it stands |
| ThemeDefaultObjects.Store1 | src/services/theme-default-object.service.ts:93-94 | a save adds the record under the fresh key with the current time and touches nothing else |
| ThemeDefaultObjects.PlaceFrom | src/services/theme-default-object.service.ts:57-97 | the loop never touches users or catalog, and uses one key per saved template |
| ThemeDefaultObjects.PlaceFromKeys | src/services/theme-default-object.service.ts:57-97 | the loop saves at most one object per remaining template and reports exactly the new keys, in template order |
| ThemeDefaultObjects.KeysFrom | src/services/theme-default-object.service.ts:94 | the keys handed out are consecutive from the first fresh one |
| ThemeDefaultObjects.Provision | src/services/theme-default-object.service.ts:26-118 | a refused guard returns its error and changes nothing, and provisioning never writes users or the catalog |
| ThemeDefaultObjects.ProvisionKeys | src/services/theme-default-object.service.ts:54-109 | a success reports at least one and at most as many keys as templates, exactly the keys just created, in template order |
| ThemeDefaultObjects.ShippedTableNeverProvisions | src/services/theme-default-object.service.ts:44-50 | with the shipped table no theme has a valid configuration and provisioning always fails without changing anything |
| ThemeDefaultObjects.PlaceFromFrame | src/services/theme-default-object.service.ts:57-97 | the loop only adds placed objects under the new keys and leaves every earlier one as it was, also when a later save fails |
| ThemeDefaultObjects.PlaceFromMarks | src/services/theme-default-object.service.ts:69-93 | every object the loop adds is marked as the theme's default for that user |
| ThemeDefaultObjects.PlaceFromFails | src/services/theme-default-object.service.ts:57-117 | the loop fails exactly when some remaining template stops it |
| ThemeDefaultObjects.PlaceFromAllPlaced | src/services/theme-default-object.service.ts:57-97 | when every remaining template is placed, one object is created per template |
| ThemeDefaultObjects.TemplatesFail | src/services/theme-default-object.service.ts:57-117 | the loop over the templates fails exactly when one of them has an id that does not cast or an existing original whose copy the schema rejects |
| ThemeDefaultObjects.TemplatesAllFound | src/services/theme-default-object.service.ts:57-97 | when every template names an existing original whose copy the schema accepts, one object is created per template |
| ThemeDefaultObjects.ProvisionAllFound | src/services/theme-default-object.service.ts:57-109 | with a valid configuration whose originals all exist and copy acceptably, provisioning succeeds with one key per template |
| ThemeDefaultObjects.ProvisionFails | src/services/theme-default-object.service.ts:57-117 | past the guard, provisioning fails exactly when a template id does not cast, a copy is rejected by the schema, or no original was found |
| ThemeDefaultObjects.ProvisionPreservesValid | src/services/theme-default-object.service.ts:26-118 | provisioning keeps the store consistent, and every placed object it adds is that user's theme default |
| ThemeDefaultObjects.PlaceFromKeepsValid | src/services/theme-default-object.service.ts:57-97 | the loop keeps the store consistent |
| ThemeDefaultObjects.CreateDefaultModifiedObjects | src/services/theme-default-object.service.ts:26-118 | the loop over the database produces the result and the store of the functional provisioning |
| ThemeDefaultObjects.PlaceAll | src/services/theme-default-object.service.ts:57-97 | the `for` loop over the templates, run on the database, gives the result and the store of the functional loop from the first template on |
| ThemeDefaultObjects.DecideIn | src/services/theme-default-object.service.ts:61-93 | the lookup and save check done on the database take the decision of the functional loop for that template |
| ThemeDefaultObjects.PlaceOneInPlace | src/services/theme-default-object.service.ts:58-94 | one step on the database stops, skips or saves as that template's decision says, leaves the catalog alone and changes the store only when it saves |
| ThemeAnalysis.PromptListsEveryAnswer | src/services/theme-analysis-service.ts:71-75 | the prompt starts with its header and contains the numbered block `Q<i>: question` / `A<i>: answer` of every response |
| ThemeAnalysis.KeywordScores | src/services/theme-analysis-service.ts:117-141 | every theme gets a score, 2 when the lower-cased answers mention one of its keywords and 0 otherwise |
| ThemeAnalysis.ScoreThemes | src/services/theme-analysis-service.ts:119-141 | the scoring steps give the table of scores |
| ThemeAnalysis.BestIsLatestMaximum | src/services/theme-analysis-service.ts:143-145 | the reduction from any point keeps a theme with the highest score, no later theme scoring as much |
| ThemeAnalysis.WinnerIsLatestMaximum | src/services/theme-analysis-service.ts:143-147 | the chosen theme has the highest score, and a tie goes to the highest theme id |
| ThemeAnalysis.FallbackChoice | src/services/theme-analysis-service.ts:143-147 | the fallback always picks a theme from 1 to 5 |
| ThemeAnalysis.Fallback | src/services/theme-analysis-service.ts:116-161 | the fallback verdict is a number from 1 to 5 with a text reason |
| ThemeAnalysis.FallbackPicksLatestMentioned | src/services/theme-analysis-service.ts:117-147 | the fallback picks the highest-numbered theme whose keywords are mentioned, or theme 5 when none is |
| ThemeAnalysis.NoKeywordGivesTheme5 | src/services/theme-analysis-service.ts:143-147 | answers mentioning no keyword get theme 5 |
| ThemeAnalysis.WrongCountFallsBack | src/services/theme-analysis-service.ts:66-68 | any number of responses other than five goes straight to the fallback |
| ThemeAnalysis.AnalysisOutcomes | src/services/theme-analysis-service.ts:63-111 | the verdict is either the fallback's or, for five responses, the generated and parsed answer with truthy choice and reason that the range check let through |
| ThemeAnalysis.ArrayChoiceCompared | src/services/theme-analysis-service.ts:97-100 | a one-element array choice compares as its element (`[7]` is above 5), an array of two or more elements never compares, and `[]` and `[null]` are below 1 |
| ThemeAnalysis.NumericChoiceInRange | src/services/theme-analysis-service.ts:97-100 | a numeric choice that is returned lies between 1 and 5 |
| ThemeAnalysis.TextChoicePasses | src/services/theme-analysis-service.ts:97-102 | a choice that is the text `three` passes the range check, because both comparisons with a non-number are false, and is returned as it is |
| ThemeAnalysis.CheckedChoiceInRange | src/services/theme-analysis-service.ts:97-100 | with the range check applied to numbers only, every returned choice is a number from 1 to 5 |
| ThemeAnalysis.ThemeInfoMatchesConfig | src/services/theme-analysis-service.ts:166-200 | the information for ids 1 to 5 is that theme's name, traits and description from the theme table, and theme 1's for any other id |
| ModifiedService.NewModified | src/services/modifiedService.ts:67-85 | the new placed object has the trimmed name and description, the given coordinates and function, `{}` for missing additional data, the catalog object's user-made flag, placement kind and image sets, and no current set; the given image location and mirroring flag are not kept, since the schema does not declare them |
| ModifiedService.CreateRejection | src/services/modifiedService.ts:56-65 | the service's own checks refuse creation exactly when the original id is not an ObjectId, names no stored catalog object ("Original object not found") or one without image sets; the schema's refusal that follows them as written is stated by `CreateAsWrittenNeverCreates` |
| ModifiedService.Create | src/services/modifiedService.ts:41-95 | as corrected (see Findings: the record is stored without the placed-object validators that reject it as written): a refusal changes nothing; a success stores the new object under a fresh key, leaves the catalog alone and appends that key to the owner's `modifiedObjectIds` only, and happens exactly when the original is usable and the user id is an ObjectId |
| ModifiedService.CreateAsWrittenNeverCreates | src/services/modifiedService.ts:56-95 | as written, creation never succeeds and stores nothing: past the lookups, the save rejects the record for its missing current set, with a validation error that starts with "ModifiedObject validation failed: " and names `currentImageSet` |
| ModifiedService.CreatePreservesValid | src/services/modifiedService.ts:41-95 | creation keeps every key and timestamp consistent with the counters |
| ModifiedService.CreateCopiesImageSets | src/services/modifiedService.ts:62-71 | the new object carries the catalog object's image sets, as many, each with the same name, colour and source |
| ModifiedService.ApplyUpdate | src/services/modifiedService.ts:126-147 | each given field replaces the stored one (name and description trimmed, a null description removed), every other field and the image sets stay; a given image location or mirroring flag changes nothing, since strict mode drops both |
| ModifiedService.UpdateNothingIsIdentity | src/services/modifiedService.ts:126-147 | an update that gives no field changes nothing |
| ModifiedService.UpdateIdempotent | src/services/modifiedService.ts:126-147 | applying the same update twice is applying it once |
| ModifiedService.OwnershipRejection | src/services/modifiedService.ts:105-117 | an update or delete goes ahead exactly when the object exists and its key is in the user's `modifiedObjectIds`; a missing object is "Modified object not found", a missing owner the Forbidden message |
| ModifiedService.Update | src/services/modifiedService.ts:100-152 | a refusal changes nothing; `imageSets` is refused after the ownership check; past both, the result is the `save()` of the updated object, and a success stores exactly that saved, schema-valid object and nothing else |
| ModifiedService.UpdateOfValidSaves | src/services/modifiedService.ts:126-150 | for a stored object the schema accepts, the save of its update succeeds exactly when a given name is not blank and a given item function is not null and trims to one of the four functions; a given image location or mirroring flag makes no difference |
| ModifiedService.Delete | src/services/modifiedService.ts:182-207 | a success removes the object and pulls its key from the owner's list, touching no other user and no catalog object; it happens exactly when the ownership check passes |
| ModifiedService.UpdatePreservesValid | src/services/modifiedService.ts:100-152 | an update keeps the database consistent |
| ModifiedService.DeletePreservesValid | src/services/modifiedService.ts:182-207 | a delete keeps the database consistent |
| ModifiedService.CreateThenDelete | src/services/modifiedService.ts:182-207 | deleting a just-created object as its owner brings the database back to its earlier state, apart from the advanced counters |
| ModifiedService.DeleteUndoesInsert | src/services/modifiedService.ts:200-206 | deleting undoes the insert and the `$push` of a fresh key |
| ModifiedService.CreatedState | src/services/modifiedService.ts:87-92 | the state after a creation for a stored user is the insert plus the `$push` of the new key |
| ModifiedService.DeleteOwned | src/services/modifiedService.ts:186-206 | deleting an owned object removes it and pulls its key, nothing more |
| ModifiedService.DeleteThenUpdateNotFound | src/services/modifiedService.ts:105-109 | after a delete the same id is "Modified object not found" to an update |
| ModifiedService.CreateModified | src/services/modifiedService.ts:41-95 | `createModified` on the database has the effect of the creation function and keeps the database consistent |
| ModifiedService.UpdateModified | src/services/modifiedService.ts:100-152 | `updateModified` on the database has the effect of the update function, its save included, and keeps the database consistent |
| ModifiedService.StoreSaved | src/services/modifiedService.ts:150 | a refused save stores nothing; an accepted one replaces the stored object by the saved one |
| ModifiedService.OverwriteGiven | src/services/modifiedService.ts:126-147 | the field-by-field assignments compute the update of the stored object; the image-location and mirroring assignments change nothing |
| ModifiedService.DeleteModified | src/services/modifiedService.ts:182-207 | `deleteModified` on the database has the effect of the delete function and keeps the database consistent |
| ModifiedService.GetAllModified | src/services/modifiedService.ts:157-177 | an unknown user is "User not found"; otherwise exactly the stored placed objects whose keys the user lists, each once, newest first |
| ModifiedController.SetMessage | src/controller/modified.ts:88-117 | every set error names the set as `imageSets[i]` |
| ModifiedController.FirstFault | src/controller/modified.ts:85-119 | the position found is the first set with a fault: all sets before it are sound |
| ModifiedController.SetsRejectionFirst | src/controller/modified.ts:85-119 | the set check reports the first faulty set with its message, and passes exactly when every set is sound |
| ModifiedController.CreateRejectionIffInvalid | src/controller/modified.ts:24-120 | the POST checks pass exactly when the body is valid; a missing, non-string or blank name is reported first |
| ModifiedController.CoordinatesOf | src/controller/modified.ts:59-67 | checked coordinates are read back as the numbers of `x` and `y` |
| ModifiedController.OptString | src/controller/modified.ts:13-21 | an absent field is undefined and a string field is that string |
| ModifiedController.PostWith | src/controller/modified.ts:8-144 | only a 201 changes the database; a failed check answers 400 with its message and changes nothing |
| ModifiedController.PostAsWritten | src/controller/modified.ts:123-134 | the handler as written changes the database only when it answers 201 |
| ModifiedController.PostAsWrittenNeverCreates | src/controller/modified.ts:123-141 | as written, every body that passes the checks ends in 500 "Failed to create modified object" and nothing is stored, because `originalObjectId` is never passed on |
| ModifiedController.Post | src/controller/modified.ts:8-144 | with the original id passed on, only a 201 changes the database, and only a valid body gets one |
| ModifiedController.PostCreates | src/controller/modified.ts:122-136 | with the original id passed on and the corrected service, a valid body naming a stored catalog object with image sets, from a stored user, gets 201 with the new object, stored under the next key and appended to the user's list |
| ModifiedController.PostDiscrepancy | src/controller/modified.ts:123-134 | one concrete valid body gets 500 from the handler as written and 201 from the handler and service as corrected |
| ModifiedController.UpdateRejection | src/controller/modified.ts:165-216 | an empty body is refused with "Request body cannot be empty", a body with `imageSets` with the immutability message, and every refusal is a 400 |
| ModifiedController.UpdateRejectionIffInvalid | src/controller/modified.ts:165-216 | the PATCH checks pass exactly when the body is valid |
| ModifiedController.UpdateErrorReply | src/controller/modified.ts:235-262 | "Modified object not found" is 404, a Forbidden message 403, a message about imageSrc, coordinates, itemFunction or imageSets 400, anything else 500 |
| ModifiedController.Patch | src/controller/modified.ts:147-264 | only a 200 changes the database; a failed check answers with its reply and changes nothing |
| ModifiedController.PatchOutcomes | src/controller/modified.ts:219-247 | for a valid body: an unknown object is 404, an object the user does not own 403; for an owned one the updated object is saved: an accepted save is stored and returned with 200, a refused one answers with the reply its validation error maps to and changes nothing |
| ModifiedController.PatchNullFunction | src/controller/modified.ts:237-256 | the owner of a placement the schema accepts who sends `{"itemFunction": null}` gets 400 with "ModifiedObject validation failed: itemFunction: Path `itemFunction` is required." and nothing changes |
| ModifiedController.PatchBlankName | src/controller/modified.ts:237-261 | the owner of a placement the schema accepts who sends a blank name gets 500 "Failed to update modified object" and nothing changes |
| ModifiedController.FunctionMessageMapsTo400 | src/controller/modified.ts:248-256 | the missing-function validation error maps to 400 with its own text |
| ModifiedController.NameMessageMapsTo500 | src/controller/modified.ts:237-261 | the missing-name validation error contains none of the mapped words and maps to 500 |
| ModifiedController.ForbiddenUpdateReply | src/controller/modified.ts:244-247 | the update's Forbidden message maps to 403 with its text |
| ModifiedController.DeleteErrorReply | src/controller/modified.ts:300-316 | "Modified object not found" is 404, a Forbidden message 403, anything else 500 "Failed to delete modified object" |
| ModifiedController.Delete | src/controller/modified.ts:288-319 | the reply is 204 exactly when the service deletes, and the database is what the service leaves |
| ModifiedController.RemoveOutcomes | src/controller/modified.ts:296-313 | an unknown object is 404, an object the user does not own 403, and a 204 leaves neither the object nor its key in the user's list |
| ModifiedValidator.UpdateNeedsKnownKey | src/validators/modified.validator.ts:51-82 | a PATCH body with no field the schema knows is refused ("Request body cannot be empty" once unknown keys are stripped) |
| ModifiedValidator.UpdateSchemaPassesHandler | src/validators/modified.validator.ts:51-82 | every body the PATCH schema accepts, without `imageSets`, also passes the handler's own checks |
| ModifiedValidator.CreateSchemaPassesHandler | src/validators/modified.validator.ts:6-44 | a body the POST schema accepts, with a non-blank name, a non-empty image location and no `imageSets`, passes the handler's checks |
| ModifiedValidator.BlankNamePassesSchemaOnly | src/validators/modified.validator.ts:8-11 | a name of one space passes the schema's `min(1)` (checked before `trim`) but is refused by the handler |
| ObjectValidator.HandlerContentPassesSchema | src/validators/object.validator.ts:4-21 | every content the handlers accept also passes the schema |
| ObjectValidator.BlankContentPassesSchemaOnly | src/validators/object.validator.ts:7-10 | a content of one space passes the schema but not the handler |
| ObjectValidator.BasicSchemaAndHandlerMeetOnFloor | src/validators/object.validator.ts:26-45 | a basic-object body both the schema and the handler accept has placement kind `Floor` |
| ObjectValidator.WallPassesSchemaOnly | src/validators/object.validator.ts:31-33 | `Wall` passes the schema's enumeration but the handler refuses it as an invalid placement kind |
| ObjectValidator.AddSchemaIdCasts | src/validators/object.validator.ts:48-57 | an object id the add schema accepts never makes `findById` throw a cast error |
| ObjectValidator.UpdateSchemaPassesPatchChecks | src/validators/object.validator.ts:60-88 | a body the update schema accepts, without `Wall`, passes the PATCH handler's checks |
| ObjectValidator.WallUpdatePassesSchemaOnly | src/validators/object.validator.ts:76 | `onType: "Wall"` passes the update schema but the handler refuses it |
| ObjectController.ContentOf | src/controller/object.ts:19-30 | a body passes the content check exactly when `content` is a string that is not blank, and the content is that string |
| ObjectController.Followup | src/controller/object.ts:14-43 | missing or blank content gives 400; otherwise the reply is 200 exactly when the question text was generated, with the trimmed question, and 500 "Failed to generate follow-up question" when it was not |
| ObjectController.Create | src/controller/object.ts:46-76 | missing or blank content gives 400 and changes nothing; any other request ends in 201 or 500 |
| ObjectController.CreateReportsStored | src/controller/object.ts:65-68 | a 201 reply carries the object just stored under a fresh key, which is user-made, and the owner's object list gains that key, nothing else of the owner changing (the undeclared `questionIndex` increment is stripped by strict mode) |
| ObjectController.CreateForUnknownUser | src/controller/object.ts:65-68 | when the caller's account is gone the object is still stored and answered with 201, and no account changes |
| ObjectController.ListUserObjects | src/controller/object.ts:79-115 | an unknown user gives 404 and an uncastable id 500; otherwise 200 with exactly the user-made objects whose keys the user lists, newest first, each once |
| ObjectController.ListPresetObjects | src/controller/object.ts:118-136 | the reply lists exactly the stored objects that are not user-made, newest first, each once |
| ObjectController.BasicRejection | src/controller/object.ts:161-179 | the request passes the first three checks exactly when there is at least one file, the name is truthy and `onType` is one of `LeftWall`, `RightWall`, `Floor` |
| ObjectController.BasicRejectionOrder | src/controller/object.ts:161-179 | no files is reported before a missing name or `onType`, which is reported before an `onType` outside the three allowed |
| ObjectController.Uploads | src/controller/object.ts:266-275 | each complete form set is handed to the service with its own name, colour and file, in order |
| ObjectController.CheckedInputsFiled | src/controller/object.ts:251-263 | once every set passed the loop, every set has a file |
| ObjectController.BasicCheck | src/controller/object.ts:161-263 | the handler reaches the service exactly when the first checks pass, at least one set was assembled and no set lacks a name, a colour or a file, and then with those sets |
| ObjectController.BasicCheckReportsPosition | src/controller/object.ts:244-263 | no sets gives "At least one imageSet is required"; otherwise the message names the position of the first incomplete set and what it lacks |
| ObjectController.PostBasicWith | src/controller/object.ts:150-285 | a failing check is answered with 400 and its message and changes nothing |
| ObjectController.PostBasicStoresOnlyOnSuccess | src/controller/object.ts:150-285 | the reply is 201, 400 or 500, and only 201 changes the store |
| ObjectController.PostBasicCreated | src/controller/object.ts:265-277 | a 201 reply means every check passed and carries the single object added under the fresh key, a preset with the given placement and the given sets in order |
| ObjectController.PostBasicOnlyFloor | src/controller/object.ts:175-179 | although the handler admits the three placements, only `Floor` can be stored, because the schema's enumeration lacks the side walls |
| ObjectController.PresetFactsForInputs | src/controller/object.ts:265-275 | the stored preset has as many sets as the form, the first is current, and each keeps the trimmed name and colour of its form set |
| ObjectController.PostBasicIn | src/controller/object.ts:150-285 | the in-place handler, fed the form's keys in order, produces the reply and the store of the functional one |
| ObjectController.SetsFieldRejection | src/controller/object.ts:328-334 | the element loop of an update answers only with 400 "Each imageSet must have name, color, and src fields" or, for a `null` element, 500 |
| ObjectController.SetsFieldRejectionIff | src/controller/object.ts:328-334 | the loop passes exactly when every element has a truthy name, colour and source |
| ObjectController.PatchRejectionIffInvalid | src/controller/object.ts:313-335 | the update body is refused exactly when a truthy `onType` is not one of the three, or given `imageSets` is not a non-empty array of complete elements |
| ObjectController.TrimmedField | src/controller/object.ts:345-348 | an absent field keeps the current value, a string is stored trimmed, and anything else makes the update fail |
| ObjectController.CastSet | src/controller/object.ts:350-356 | an `imageSets` element casts exactly when it is an object whose three parts each cast to text (a string as is, a number or boolean as its text), and the set is made of those texts |
| ObjectController.CastSets | src/controller/object.ts:350-356 | a cast list has one set per element, each the cast of its element |
| ObjectController.PartText | src/controller/object.ts:350-356 | a part of an `imageSets` element casts to text as Mongoose casts a String path: a string as it is, a number or boolean as its text, an array or null not at all |
| ObjectController.NumericNameCasts | src/controller/object.ts:350-356 | a set whose name is a number is stored with that number's text |
| ObjectController.UpdateOnlyProvided | src/controller/object.ts:337-356 | an update changes only the fields the body provides; a provided name or description is stored trimmed, a provided `onType` as given, and origin, creation time and current set stay |
| ObjectController.UpdateReplacesSets | src/controller/object.ts:350-356 | provided sets replace the stored ones one for one, each trimmed by the schema |
| ObjectController.UpdateKeepsValid | src/controller/object.ts:352-356 | an update that passes the schema's validators leaves a valid object |
| ObjectController.PatchOutcomes | src/controller/object.ts:288-366 | the reply is 200, 400, 403, 404 or 500; an unknown object is 404, a user-made one 403, and only 200 changes the store, replacing that object by its update; a found preset object with a body that passes the checks and an update the schema accepts gets 200 |
| ObjectController.PatchSideWallsFail | src/controller/object.ts:313-356 | an update to `LeftWall` or `RightWall` passes the handler's check yet never succeeds, and changes nothing |
| ObjectController.PatchIn | src/controller/object.ts:288-366 | the in-place handler produces the reply and the store of the functional one |
| ObjectController.DeleteOutcomes | src/controller/object.ts:369-407 | the reply is 200 exactly when the id names a stored preset, which is then the only object removed, and the reply echoes the id; a user-made object is 403 and nothing else changes |
| ObjectController.DeleteIn | src/controller/object.ts:369-407 | the in-place handler produces the reply and the store of the functional one |
| ObjectService.FollowUpQuestion | src/services/objectService.ts:39-51 | the question fails exactly when the text generator fails, and is otherwise the generated text trimmed |
| ObjectService.ImageData | src/services/objectService.ts:98-102 | the first image's base64 data wins when non-empty, else its URL; there is no data exactly when there is no image or both are missing or empty |
| ObjectService.GenerateAndUpload | src/services/objectService.ts:62-113 | metadata that gets through has a truthy name, description and placement |
| ObjectService.MetadataCheckedFirst | src/services/objectService.ts:74-81 | metadata without a truthy name, description or placement fails with "Failed to parse object metadata from AI response" before any image is generated, and changes nothing |
| ObjectService.NoImageNoUpload | src/services/objectService.ts:98-102 | when the generator returns no image data the request fails with "Failed to generate image from AI response" and nothing is uploaded or stored |
| ObjectService.DefaultSetSurvives | src/services/objectService.ts:116-122 | trimming the default set keeps its name `Default` and colour `#ffffff` and only trims its image location |
| ObjectService.UserObjectFields | src/services/objectService.ts:116-132 | the new object has the one default set, also current, is user-made, carries the creation time and the trimmed name and description |
| ObjectService.SavedIsTrimmed | src/services/objectService.ts:125-134 | what the save stores is the new object with the schema's trimming applied |
| ObjectService.UserObjectStored | src/services/objectService.ts:134-142 | the object is stored under a fresh key and the owner's object list gains that key; the `$inc` of the undeclared `questionIndex` is stripped, so nothing else of the owner changes |
| ObjectService.UnknownUserStillStores | src/services/objectService.ts:134-142 | an owner id with no account still gets the object stored, and no account changes |
| ObjectService.CreateUserObjectSteps | src/services/objectService.ts:57-148 | a created object went through generation and upload first, and the result is the storing of what they produced |
| ObjectService.UserObjectCreated | src/services/objectService.ts:57-148 | a created object has the fresh key, is the saved form of the generated metadata and uploaded image, and is the only object added, with only the owner's object list extended by its key |
| ObjectService.ExtensionAfterLastDot | src/services/objectService.ts:161 | the upload extension is the text after the last dot, or `png` when that is empty |
| ObjectService.ExtensionWithoutDot | src/services/objectService.ts:161 | a file name without a dot is its own extension, the empty name giving `png` |
| ObjectService.UploadFrom | src/services/objectService.ts:159-175 | the uploads give one location per set |
| ObjectService.UploadsSucceed | src/services/objectService.ts:159-175 | all uploads succeed exactly when every single one does, and then each location is that set's upload |
| ObjectService.FirstFailingUpload | src/services/objectService.ts:159-175 | the first failing upload, in set order, decides the error |
| ObjectService.TrimmedDescription | src/services/objectService.ts:184 | an absent or null description stays absent, a string is trimmed, and anything else makes `trim` throw |
| ObjectService.PresetSets | src/services/objectService.ts:169-175 | each uploaded set keeps its name and colour and takes its own location |
| ObjectService.BasicObjectSaved | src/services/objectService.ts:177-192 | the preset is stored under the fresh key with as many sets as given, the first current, not user-made, the given placement, the trimmed name, and each set trimmed |
| ObjectService.SaveBasicObject | src/services/objectService.ts:177-192 | a save that is refused (a name or description that is not a string, no sets, a set whose name or colour is not a string, or a schema failure) stores nothing |
| ObjectService.BasicObjectInserted | src/services/objectService.ts:190-192 | saving adds exactly the one object under the fresh key |
| ObjectService.BasicObjectSteps | src/services/objectService.ts:153-193 | a created preset means every upload succeeded and the result is saving the sets with those locations |
| ObjectService.SideWallsNeverSaved | src/services/objectService.ts:181-190 | a preset placed on `LeftWall` or `RightWall` is refused by the schema and nothing is stored |
| ObjectService.FirstUploadFailureWins | src/services/objectService.ts:159-175 | when an upload fails, the first failing one is the error and nothing is stored |
| ObjectService.GenerateAndUploadIn | src/services/objectService.ts:62-113 | the step-by-step generation and upload gives what the functional one gives |
| ObjectService.StoreUserObjectIn | src/services/objectService.ts:134-142 | the in-place store produces the result and the state of the functional one |
| ObjectService.CreateUserObjectIn | src/services/objectService.ts:57-148 | the in-place creation produces the result and the state of the functional one |
| ObjectService.UploadAll | src/services/objectService.ts:159-175 | the upload loop gives what the functional uploads give |
| ObjectService.SaveBasicObjectIn | src/services/objectService.ts:177-192 | the in-place save produces the result and the state of the functional one |
| ObjectService.CreateBasicObjectIn | src/services/objectService.ts:153-193 | the in-place creation produces the result and the state of the functional one |
| ObjectService.BasicSavedFacts | src/services/objectService.ts:177-192 | the saved preset is the only object added, under the fresh key, with the facts of a preset built from the given sets |
| ObjectService.BasicCreatedFacts | src/services/objectService.ts:153-193 | a created preset is the only object added, under the fresh key, with the facts of a preset built from the given sets |
| ObjectForm.SetKeyIndexOfSetKey | src/controller/object.ts:211-213 | the field name `imageSets[N][field]` reads back as index `N` |
| ObjectForm.SetKeyIndexShape | src/controller/object.ts:211-213 | a field name that yields an index is exactly `imageSets[`, one or more digits, `][`, the field and `]`, the index being the digits' value |
| ObjectForm.ArrayEntry | src/controller/object.ts:192-206 | an array element is kept exactly when it is an object whose name and colour are strings, and then with that name and colour and no file |
| ObjectForm.ArraySetsAt | src/controller/object.ts:190-207 | index `N` holds a set exactly when element `N` of the array is kept, holding that element's name and colour |
| ObjectForm.LastField | src/controller/object.ts:210-223 | a found field value comes from a listed field of the body naming that set and field |
| ObjectForm.FlatSetsAt | src/controller/object.ts:210-223 | index `N` holds a set exactly when some flat field names it, and then the last listed name and colour win, missing ones staying empty |
| ObjectForm.MetaKeyField | src/controller/object.ts:211-214 | a flat metadata field is either the name or the colour |
| ObjectForm.LastFile | src/controller/object.ts:227-237 | a file attached to set `N` is one of the uploaded files whose field name is `imageSets[N][file]` |
| ObjectForm.AttachFilesAt | src/controller/object.ts:227-237 | a set exists after the files are attached exactly when it had metadata or a file names it, and then it carries the last such file |
| ObjectForm.LeastFirst | src/controller/object.ts:240-242 | the ordered entries start with the least index |
| ObjectForm.SortedEntriesMembers | src/controller/object.ts:240-242 | the ordered entries are exactly the map's entries, each once |
| ObjectForm.SortedEntriesAscending | src/controller/object.ts:240-242 | the entries are listed by strictly ascending index |
| ObjectForm.SortByIndex | src/controller/object.ts:240-242 | the sorting loop lists the map's entries by ascending index |
| ObjectForm.Values | src/controller/object.ts:242 | dropping the indices keeps the sets in order |
| ObjectForm.FirstIncomplete | src/controller/object.ts:251-263 | the position found is the first whose set lacks a name, a colour or a file, or the end |
| ObjectForm.InputsRejectionFirst | src/controller/object.ts:251-263 | the loop reports the first incomplete set by its position in the ordered list, and passes exactly when every set is complete |
| ObjectForm.CollectArray | src/controller/object.ts:190-207 | the array pass fills the map with the kept elements at their indices |
| ObjectForm.CollectFlat | src/controller/object.ts:210-223 | the flat pass fills the map as the fields dictate, in the order given |
| ObjectForm.AttachIn | src/controller/object.ts:227-237 | the file pass attaches each file to its set, creating the set if needed |
| ObjectForm.CollectSets | src/controller/object.ts:184-242 | the assembled list is the sets gathered from the body and the files, ordered by index |
| ImagenFallback.RequireApiKey | src/services/ai/google-imagen-fallback-image-generator.ts:23-26 | the generator is built exactly when a non-empty key is given, with that key; otherwise it fails with "Google GenAI API key is required" |
| ImagenFallback.Without | src/services/ai/google-imagen-fallback-image-generator.ts:47 | `filter((m) => m !== customModel)` keeps exactly the other candidates |
| ImagenFallback.WithoutCutsOut | src/services/ai/google-imagen-fallback-image-generator.ts:47 | filtering a listed candidate out of a duplicate-free list removes exactly its one position |
| ImagenFallback.WithoutAbsent | src/services/ai/google-imagen-fallback-image-generator.ts:47 | filtering out a name the list does not hold keeps the list |
| ImagenFallback.TryOrder | src/services/ai/google-imagen-fallback-image-generator.ts:42-48 | without a custom model (or with an empty one) the three candidates are tried in their listed order; an unknown custom model goes first before all three; a custom model that is a candidate goes first and the others keep their order; no model is ever tried twice |
| ImagenFallback.ImageBytes | src/services/ai/google-imagen-fallback-image-generator.ts:113-120 | at most one image per generated entry |
| ImagenFallback.ImageBytesKeeps | src/services/ai/google-imagen-fallback-image-generator.ts:113-120 | an image is kept exactly when some generated entry carries it and it is not empty |
| ImagenFallback.CollectImages | src/services/ai/google-imagen-fallback-image-generator.ts:100-120 | the push loop collects exactly the non-empty image bytes, in order |
| ImagenFallback.Attempt | src/services/ai/google-imagen-fallback-image-generator.ts:91-130 | a successful attempt returns at least one image and no empty one |
| ImagenFallback.AttemptIn | src/services/ai/google-imagen-fallback-image-generator.ts:91-130 | `tryGenerateWithModel` as written computes the attempt function: the call's failure, "No image data from Imagen model: " with the model, or the images |
| ImagenFallback.ChainSkipsQuota | src/services/ai/google-imagen-fallback-image-generator.ts:53-80 | after `k` quota or rate-limit failures the loop continues with the remaining models, remembering the last failure |
| ImagenFallback.FirstSuccessWins | src/services/ai/google-imagen-fallback-image-generator.ts:53-63 | the first model that succeeds after only quota failures decides the result |
| ImagenFallback.OtherErrorStops | src/services/ai/google-imagen-fallback-image-generator.ts:64-78 | a failure whose message mentions neither "quota", "rate limit" nor "429" (in any letter case) is rethrown at once and no later model is tried |
| ImagenFallback.AllQuotaFailures | src/services/ai/google-imagen-fallback-image-generator.ts:82-85 | when every model fails on quota the error is "All Imagen models failed. Last error: " followed by the last model's message |
| ImagenFallback.SuccessComesFromAModel | src/services/ai/google-imagen-fallback-image-generator.ts:53-85 | every success is the result of one model reached after only quota failures |
| ImagenFallback.GenerateImageIn | src/services/ai/google-imagen-fallback-image-generator.ts:33-86 | `generateImage` with its loop computes the fallback chain over the try order, with `n` defaulting to 1 and `created` the time in whole seconds |
| ImagenFallback.QuotaFreeIsNotQuota | src/services/ai/google-imagen-fallback-image-generator.ts:72-76 | a message without q, 9 or "li" (in any case) is never classified as a quota failure |
| ImagenFallback.AvoidsWord | src/services/ai/google-imagen-fallback-image-generator.ts:72-76 | such a message, lower-cased, does not contain a word holding one of those letters |
| ImagenFallback.NoImageDataIsNotQuota | src/services/ai/google-imagen-fallback-image-generator.ts:122-124 | the "No image data" failure for such a model name is not a quota failure |
| ImagenFallback.CandidatesQuotaFree | src/services/ai/google-imagen-fallback-image-generator.ts:17-21 | none of the three candidate names holds q, 9 or "li" |
| ImagenFallback.EmptyCandidateStops | src/services/ai/google-imagen-fallback-image-generator.ts:72-78 | a candidate that answers without image data ends the whole chain with "No image data from Imagen model: " and that model; the next candidate is not tried |
| GeminiImage.Dimensions | src/services/ai/gemini-image-generator.ts:114-117 | a size yields dimensions only when both of its first two `x`-separated pieces are numbers other than zero |
| GeminiImage.ParseSizeToAspectRatio | src/services/ai/gemini-image-generator.ts:113-129 | an aspect ratio is derived exactly when the size has two non-zero dimensions |
| GeminiImage.SizeClassified | src/services/ai/gemini-image-generator.ts:135-146 | `WxH` with non-zero numbers is "4K" when the width reaches 3840 or the height 2160, and "HD" otherwise |
| GeminiImage.NoSizeNoClass | src/services/ai/gemini-image-generator.ts:113-146 | no size, or a size without `x`, yields neither an aspect ratio nor an image size |
| GeminiImage.ZeroDimensionNoClass | src/services/ai/gemini-image-generator.ts:138-139 | a missing, non-numeric or zero dimension yields no image size |
| GeminiImage.ConfigPrecedence | src/services/ai/gemini-image-generator.ts:42-70 | an explicit non-empty aspect ratio or image size wins; otherwise the one derived from the size; otherwise "16:9" and "4K"; the tools are passed through |
| GeminiImage.PartImages | src/services/ai/gemini-image-generator.ts:81-88 | at most one image per part |
| GeminiImage.PartImagesKeep | src/services/ai/gemini-image-generator.ts:81-88 | an entry is collected exactly when a part carries it as inline data, also when that data is undefined |
| GeminiImage.CandidateImagesKeep | src/services/ai/gemini-image-generator.ts:79-90 | an entry is collected exactly when some candidate with parts has it as inline data |
| GeminiImage.CollectKeeps | src/services/ai/gemini-image-generator.ts:52-91 | when all `n` calls succeed, an entry is collected exactly when one of the responses carries it |
| GeminiImage.FirstFailureWins | src/services/ai/gemini-image-generator.ts:72-104 | the first failing call decides the error, whatever the later calls would do |
| GeminiImage.GenerateImage | src/services/ai/gemini-image-generator.ts:93-100 | a successful generation returns at least one image |
| GeminiImage.NoCallsNoImages | src/services/ai/gemini-image-generator.ts:52-95 | with `n` zero or negative no call is made and the result is "No image data from Gemini" |
| GeminiImage.ResponseImagesIn | src/services/ai/gemini-image-generator.ts:79-90 | the nested loops over candidates and parts compute the collected images |
| GeminiImage.CollectIn | src/services/ai/gemini-image-generator.ts:52-91 | the `n`-call loop computes the collection, stopping at the first failure |
| GeminiImage.GenerateImageIn | src/services/ai/gemini-image-generator.ts:38-105 | `generateImage` computes the generation function: model default, configuration, calls, the empty check and the time in seconds |
| ImportObjects.FolderNameFacts | scripts/import-objects-from-folder.ts:17-64 | a parsed folder name has a listed placement kind, a name and a kind without `-`, and never an empty description |
| ImportObjects.ShortFormIsGeneralForm | scripts/import-objects-from-folder.ts:24-40 | the `name--onType` branch returns what the general `name-description-onType` branch would return for the same folder |
| ImportObjects.TooFewPartsRefused | scripts/import-objects-from-folder.ts:61-63 | a folder name with fewer than three `-` pieces is refused |
| ImportObjects.FolderNameRoundTrip | scripts/import-objects-from-folder.ts:42-58 | `name-description-onType` parses back to its name, its description (which may hold `-`; none when empty) and its kind |
| ImportObjects.UnknownOnTypeRefused | scripts/import-objects-from-folder.ts:48-52 | a last piece that is not a listed placement kind is refused |
| ImportObjects.StemThenExtension | scripts/import-objects-from-folder.ts:74 | a file name is its name without extension followed by its extension |
| ImportObjects.ExtensionOf | scripts/import-objects-from-folder.ts:74 | for `stem.e` with a non-empty stem and no dot in `e`, the extension is `.e` and the base name is the stem |
| ImportObjects.ImageFileByExtension | scripts/import-objects-from-folder.ts:112-115 | such a file is an image file exactly when its lower-cased extension is .png, .jpg, .jpeg, .gif or .webp |
| ImportObjects.NormalizeColor | scripts/import-objects-from-folder.ts:96-101 | only a four-character colour is rewritten |
| ImportObjects.FileNameFacts | scripts/import-objects-from-folder.ts:70-107 | a parsed file name has a set name without `-` and a seven-character hex colour |
| ImportObjects.ShortHexPairs | scripts/import-objects-from-folder.ts:97-101 | `#RGB` becomes `#RRGGBB`, each digit doubled and upper-cased |
| ImportObjects.ShortHexExpands | scripts/import-objects-from-folder.ts:88-101 | the normalised colour is a valid six-digit hex colour; expanded from `#RGB` it names the same colour, channel by channel, with no lower-case digit |
| ImportObjects.NormalizeIdempotent | scripts/import-objects-from-folder.ts:96-101 | normalising a normalised colour changes nothing |
| ImportObjects.FileNameRoundTrip | scripts/import-objects-from-folder.ts:70-107 | `name-color.ext` with a valid hex colour parses back to the name and the normalised colour |
| ImportObjects.ImageFilesKeep | scripts/import-objects-from-folder.ts:134-137 | the filter keeps exactly the image files of the folder |
| ImportObjects.FirstBadFileIff | scripts/import-objects-from-folder.ts:147-155 | no file is reported exactly when every image file name parses; a reported file is one whose name does not, with its message |
| ImportObjects.CheckFolderIff | scripts/import-objects-from-folder.ts:120-163 | a folder passes exactly when its name parses and it holds at least one image file, all with parsable names; it then carries the parsed name and exactly the image files |
| ImportObjects.ValidateAllIff | scripts/import-objects-from-folder.ts:292-311 | phase one passes exactly when every folder is valid, and then keeps one validation per folder in folder order; any failure is reported as "Validation failed. Please fix the errors above before proceeding." |
| ImportObjects.BuildSetsPerFile | scripts/import-objects-from-folder.ts:190-215 | a successful build has one image set per image file, in file order, each holding the file's parsed name and colour and the location its own upload returned |
| ImportObjects.StoreObject | scripts/import-objects-from-folder.ts:221-230 | a refused save leaves the database as it was; an accepted one stores the trimmed object under a fresh key |
| ImportObjects.CreateFromFolderAdds | scripts/import-objects-from-folder.ts:168-232 | creating from one folder either changes nothing or adds exactly one catalog object under the next key |
| ImportObjects.CreatedObjectFacts | scripts/import-objects-from-folder.ts:217-230 | the created object is not user-made, has the folder's trimmed name and placement kind, one image set per image file with the first one current, the current time, and satisfies the schema |
| ImportObjects.CreatorAddsOne | scripts/import-objects-from-folder.ts:319-331 | every creation step of the script changes nothing or adds one catalog object |
| ImportObjects.AddsOneStep | scripts/import-objects-from-folder.ts:230 | a step that adds one object keeps every stored object and every other collection |
| ImportObjects.CreateFromKeeps | scripts/import-objects-from-folder.ts:317-331 | phase two never changes or removes a stored object and leaves users and placed objects alone, also when a later folder fails and earlier objects stay created |
| ImportObjects.CreateFromKeys | scripts/import-objects-from-folder.ts:317-331 | a successful phase two creates one object per folder, under consecutive keys |
| ImportObjects.OneInvalidNoneCreated | scripts/import-objects-from-folder.ts:279-311 | one invalid folder, wherever it is, means nothing at all is created and the summary error is reported |
| ImportObjects.ImportOnlyAdds | scripts/import-objects-from-folder.ts:237-343 | the import only adds catalog objects under fresh keys |
| ImportObjects.ImportKeys | scripts/import-objects-from-folder.ts:292-335 | a successful import has created exactly one object per folder, in folder order |
| ImportObjects.ScriptOnlyAdds | scripts/import-objects-from-folder.ts:237-343 | the script's own import keeps every stored object, user and placed object |
| ImportObjects.CreateFromFolderIn | scripts/import-objects-from-folder.ts:168-232 | creating from one folder on the database has the effect of the creation function |
| ImportObjects.ValidateAllIn | scripts/import-objects-from-folder.ts:281-310 | the validation loop gives the validation function's result: every folder's check in order, or "Validation failed" as soon as one folder fails |
| ImportObjects.CreateAllIn | scripts/import-objects-from-folder.ts:319-331 | the creation loop on the database computes the creation function over the validated folders: one object per folder in order, stopping at the first failure |
| ImportObjects.ImportIn | scripts/import-objects-from-folder.ts:279-335 | the two loops of `main` compute the import function: every folder validated before the first object is created, creation stopping at the first failure |
| ImageConverter.LazyUpTo | src/utils/imageConverter.ts:40 | the lazy `(.*?)` stops at the first `;base64` on the same line, never crossing a line end |
| ImageConverter.LineFrom | src/utils/imageConverter.ts:45 | the greedy `(.+)` takes the text up to the next line end or the end of the string |
| ImageConverter.ToBuffer | src/utils/imageConverter.ts:61-69 | data starting with `http://` or `https://` is downloaded; anything else is decoded as base64 |
| ImageConverter.PlainBase64 | src/utils/imageConverter.ts:34-53 | data not starting with `data:` is decoded whole, with MIME type `image/png` |
| ImageConverter.DataUrl | src/utils/imageConverter.ts:39-49 | `data:<type>;base64,<payload>` on one line gives that MIME type and decodes only the payload |
| ImageConverter.LazyReachesBase64 | src/utils/imageConverter.ts:40 | in such a data URL the lazy match ends exactly after the MIME type |
| ImageConverter.LazyPayloadReaches | src/utils/imageConverter.ts:45 | in such a data URL the payload group is exactly the payload |
| ImageConverter.DataUrlWithoutPayload | src/utils/imageConverter.ts:39-49 | a data URL with nothing after the comma keeps its MIME type but decodes the whole string |
| ImageConverter.NoPayloadFrom | src/utils/imageConverter.ts:45-48 | with nothing after the comma the payload pattern matches nowhere |
| ImageConverter.LineToEnd | src/utils/imageConverter.ts:45 | without a line end the greedy group runs to the end of the string |
| ResponseParser.LastZeroOpen | src/utils/responseParser.ts:17-26 | the remembered start is a `{` read at depth zero, before the current position |
| ResponseParser.FirstParsed | src/utils/responseParser.ts:17-40 | a found candidate is a non-empty span of the text ending after the starting point |
| ResponseParser.DepthStep | src/utils/responseParser.ts:18-24 | each character moves the depth by one up for `{`, one down for `}`, and not otherwise |
| ResponseParser.ExtractJson | src/utils/responseParser.ts:12-41 | the scanning loop returns the first balanced candidate the JSON parser accepts, or nothing |
| ResponseParser.ParseJson | src/utils/responseParser.ts:49-61 | the parse gives what the functional definition gives |
| ResponseParser.ExtractedShape | src/utils/responseParser.ts:18-31 | an extracted candidate starts with `{` and ends with `}`, both at depth zero, and parses |
| ResponseParser.OpenWhenPositive | src/utils/responseParser.ts:18-22 | while the depth is positive some `{` was read at depth zero |
| ResponseParser.EarlierCandidatesFail | src/utils/responseParser.ts:25-35 | every balanced candidate that closes before the extracted one failed to parse |
| ResponseParser.ParseFailsOnlyWithoutCandidate | src/utils/responseParser.ts:49-61 | parsing fails exactly when no candidate parses, and then with "No JSON found in response" |
| ResponseParser.StrayCloserHidesObject | src/utils/responseParser.ts:23-25 | a `}` before any `{` drives the depth below zero, so a later complete object is never found |
| ResponseParser.DepthPrefixes | src/utils/responseParser.ts:17-26 | the depths of that text's prefixes are -1, 0 and -1 as the braces are read |
| ResponseParser.QuotedBraceCloses | src/utils/responseParser.ts:18-26 | a `}` inside a JSON string still counts, so `{"}"}` yields the candidate `{"}` or nothing |
| Auth.FormatMatchesPattern | src/controller/auth.ts:32-33 | an address in the readable format matches the regular expression `^[^\s@]+@[^\s@]+\.[^\s@]+$` |
| Auth.CutMeetsFormat | src/controller/auth.ts:32 | a cut of the address at an `@` and a later dot into three non-empty clean runs gives the readable format |
| Auth.PatternMeetsFormat | src/controller/auth.ts:32 | every address the regular expression matches is in the readable format |
| Auth.EmailFormatIffPattern | src/controller/auth.ts:32-35 | the readable format (one `@`, a non-empty clean local part, a domain with an inner dot) holds exactly when the regular expression matches |
| Auth.Signup | src/controller/auth.ts:23-76 | the reply is 201, 400, 409 or 500, and only 201 changes the store |
| Auth.SignupRejections | src/controller/auth.ts:27-41 | a missing or empty address or password gives 400 first; then an address the pattern refuses gives 400; the reply is 409 exactly when the checks pass and the address is taken |
| Auth.SignupCreates | src/controller/auth.ts:43-71 | a 201 reply means the address was well formed and free; one account is added under a fresh key holding the address, the hash of the password and empty lists; the reply holds only id, address and token |
| Auth.SignupAccountLacksName | src/controller/auth.ts:48-56 | the account the handler builds has no name, which the user schema requires |
| Auth.SignupAsWritten | src/controller/auth.ts:48-58 | the handler as written, where the save runs the schema's validators and refuses the nameless account |
| Auth.SignupAsWrittenNeverCreates | src/controller/auth.ts:48-75 | as written no signup succeeds: a request that passes the checks gets 500 and nothing is stored, and every other request gets the corrected handler's reply |
| Auth.SignupIn | src/controller/auth.ts:23-76 | the in-place handler produces the reply and the store of the functional one |
| Signup.NamedSignup | src/controller/signup.ts:13-56 | the reply is 201, 400, 409 or 500, and only 201 changes the store |
| Signup.NamedSignupRejections | src/controller/signup.ts:17-31 | a missing name, address or password gives 400 first; then a malformed address gives 400; the reply is 409 exactly when the checks pass and the address is taken |
| Signup.NamedSignupCreates | src/controller/signup.ts:33-51 | a 201 reply means the address was well formed and free; one account is added holding the trimmed name, the address, the hash of the password, no theme and empty lists; the reply holds only id, name and address |
| Signup.NamedSignupAccountLacksTheme | src/controller/signup.ts:38-42 | the account this handler builds has no theme, whose colours and weather the user schema requires |
| Signup.NamedSignupAsWritten | src/controller/signup.ts:38-44 | the handler as written, where the save runs the schema's validators and refuses the account without a theme |
| Signup.NamedSignupAsWrittenNeverCreates | src/controller/signup.ts:38-55 | as written this handler creates no account either: a request that passes the checks gets 500 and nothing is stored |
| Signup.NamedSignupIn | src/controller/signup.ts:13-56 | the in-place handler produces the reply and the store of the functional one |
| UserController.StoredInvitation | src/controller/user.ts:35-39 | an empty invitation is stored as nothing; any other is stored trimmed by the schema |
| UserController.ReportedInvitation | src/controller/user.ts:47-50 | the reply reports `null` exactly when no invitation or an empty one is stored, and the stored text otherwise |
| UserController.PatchInvitation | src/controller/user.ts:24-58 | an id that does not cast gives 500, an unknown user 404, and only a 200 reply changes the store |
| UserController.InvitationWritten | src/controller/user.ts:35-50 | a 200 reply sets only the caller's invitation, as given or cleared, leaves every other user and field alone, and reports the stored value |
| UserController.EmptyInvitationClears | src/controller/user.ts:35-50 | an empty invitation clears the stored one and is reported as `null` |
| UserController.ThemeIdParam | src/controller/user.ts:67-75 | the theme id is accepted exactly when `parseInt` reads a number from 1 to 5, and it is that number |
| UserController.ThemeIdParamAccepts | src/controller/user.ts:67-75 | the plain decimal ids 1 to 5 are accepted as themselves |
| UserController.ThemeEntriesPresent | src/controller/user.ts:127-145 | the colour, weather and music entries are written only when their lookup gives a value, and then hold that value |
| UserController.LookupTheme | src/controller/user.ts:78-84 | a theme is found exactly when the table has it, and it is the table's entry |
| UserController.LookupShippedTheme | src/controller/user.ts:78-84 | against the shipped table the lookup is `getThemeConfig`, finding exactly the ids 1 to 5 |
| UserController.Provisioned | src/controller/user.ts:100-124 | without a valid configuration nothing is provisioned and nothing changes; provisioning never touches users or the catalog |
| UserController.KeptIds | src/controller/user.ts:107-124 | a failed provisioning keeps no ids; a successful one keeps the ids it returned |
| UserController.ApplyTheme | src/controller/user.ts:100-180 | applying a theme to an existing user always answers 200 and leaves the catalog and the set of users alone |
| UserController.ThemeDataCounts | src/controller/user.ts:162-180 | the reply's data carries the theme id and the number of objects added |
| UserController.ApplyThemeWrites | src/controller/user.ts:100-180 | the user's placed-object list is replaced by the ids just provisioned, the theme id is set, theme fields outside the written ones survive, other users are untouched, and `defaultObjectsAdded` is the new list's length |
| UserController.PutTheme | src/controller/user.ts:61-189 | a theme id outside 1 to 5 is refused with 400 exactly; only 200 changes the store; the catalog and the set of users never change |
| UserController.ThemeAlwaysFound | src/controller/user.ts:78-84 | with every id from 1 to 5 in the table, "Theme not found" never happens |
| UserController.ThemeUserChecks | src/controller/user.ts:92-98 | an uncastable user id gives 500 and an unknown user 404, both changing nothing; the reply is 200 exactly when the user exists |
| UserController.PutThemeApplies | src/controller/user.ts:61-189 | a 200 reply means the id was accepted, the user exists and the theme was found, and the result is applying that theme |
| UserController.ShippedThemeEmptiesList | src/controller/user.ts:104-130 | with the shipped table a theme change empties the user's placed-object list while those objects stay in the store, and reports 0 objects added |
| UserController.PatchMusic | src/controller/user.ts:192-271 | as corrected (see Findings): a missing or falsy theme id gives 400 "Theme ID is required"; only 200 changes the store, and it needs a number from 1 to 5 |
| UserController.MusicZeroIsMissing | src/controller/user.ts:201-206 | theme id 0 is reported as missing, not as out of range |
| UserController.MusicRangeChecked | src/controller/user.ts:208-213 | a truthy theme id that is not a number from 1 to 5 gives 400 "Invalid theme ID. Must be a number between 1 and 5." |
| UserController.MusicWritten | src/controller/user.ts:225-233 | as corrected, a 200 reply writes only the caller's music address and name, leaving every other field and user alone |
| UserController.PatchMusicAsWrittenNeverUpdates | src/controller/user.ts:225-260 | as written, the music update never answers 200 and never changes the store: where the corrected handler answers 200 it answers 500 "Failed to update music.", and every other reply is the corrected one |
| Onboarding.QuestionsJson | src/controller/onboarding.ts:11-17 | the question list is one JSON string per question, in order |
| Onboarding.GetQuestions | src/controller/onboarding.ts:19-28 | the reply is 200 with the five fixed questions in order |
| Onboarding.AnswersOutcomes | src/controller/onboarding.ts:30-70 | a body that is not an array or has fewer than five answers gets 400 whoever asks; a signed-in caller with five or more answers gets 201; a missing caller gets 401 only for an acceptable body |
| Onboarding.AnswersContentIgnored | src/controller/onboarding.ts:36-66 | only the number of answers matters, never their content |
| ThemeOnboarding.AnswerRejection | src/controller/themeOnboarding.ts:45-52 | the answer loop passes exactly when every answer has a truthy question and answer; it fails only with 400, or 500 when an answer is `null` |
| ThemeOnboarding.AnalyzeAndStore | src/controller/themeOnboarding.ts:54-109 | the analysis step answers 200 or 500, and a 500 changes nothing |
| ThemeOnboarding.Analyze | src/controller/themeOnboarding.ts:15-110 | the reply is 200, 400, 401 or 500, and only 200 changes the store |
| ThemeOnboarding.AnalyzeFromProfile | src/controller/themeOnboarding.ts:113-201 | the reply is 200, 400, 401, 404 or 500, and only 200 changes the store |
| ThemeOnboarding.GetAnalysis | src/controller/themeOnboarding.ts:204-262 | the reply is 200, 401, 404 or 500 |
| ThemeOnboarding.AnalyzeChecksBeforeAi | src/controller/themeOnboarding.ts:22-55 | a request refused with 400 or 401 is refused before the analysis service is called, whatever that service would do |
| ThemeOnboarding.AnalyzeRejections | src/controller/themeOnboarding.ts:22-52 | 401 exactly when there is no caller; then a missing or non-array `responses` gives the format error, a count other than five the count error, and the fields error only when some answer is incomplete |
| ThemeOnboarding.AnalyzeStores | src/controller/themeOnboarding.ts:54-100 | a 200 reply means five complete answers were analysed; the caller's analysis is set to the choice, reason, theme name, time and answers, nothing else changes, and the reply reports it |
| ThemeOnboarding.AnalyzeForUnknownUser | src/controller/themeOnboarding.ts:61-73 | for a caller with no account the analysis still answers 200 and nothing is stored |
| ThemeOnboarding.ProfileRejections | src/controller/themeOnboarding.ts:127-141 | an unknown caller gives 404, and 400 exactly when the saved answers are missing or not five |
| ThemeOnboarding.GetAnalysisOutcomes | src/controller/themeOnboarding.ts:215-252 | 404 exactly when the user is unknown, has no analysis or its choice is 0; a 200 reply reports the stored analysis and its theme |
| ThemeOnboarding.AnalyzeThenGet | src/controller/themeOnboarding.ts:61-252 | reading back after a successful analysis returns what was stored, unless the choice is 0 |
| ThemeOnboarding.AnalyzeAsWritten | src/controller/themeOnboarding.ts:61-73 | the analysis as written against the user schema, which declares no `aiAnalysis` path, so the update is stripped |
| ThemeOnboarding.AnalyzeAsWrittenNotKept | src/controller/themeOnboarding.ts:61-229 | as written, a caller who gets 200 from the analysis still gets 404 "No AI analysis found" when reading it back |

## Left out

- HTTP wiring (Express routing, CORS, body parsing), the JWT/Passport middleware, and the login, profile and token-verification routes: the caller's id reaches each handler as an optional string.
- Password hashing (bcrypt) and token signing (JWT) are the parameters `hash` and `token`; their cryptography is not modelled.
- The Google GenAI SDK calls, object storage uploads, `fetch` in `urlToBuffer`, and the base64 decoder are function parameters; the network, the SDKs' own retries and their error types are not modelled.
- The analysis service `ArtiAIService` and the theme descriptions that `src/controller/user.ts` imports but that `src/config/theme-config.ts` does not define are not part of this model; they are parameters.
- `JSON.parse`, `Number()`, `mongoose.Types.ObjectId.isValid` and the ObjectId cast are parameters; numbers are reals with no NaN, and only what the model branches on is fixed.
- The clock (`Date.now`, Mongoose timestamps) is a counter in the store, and the random file-name prefix of the import script (`randomBytes`) is the parameter `prefixOf`.
- Gemini's aspect-ratio classification works on floating point; it is the parameter `ratio`.
- `n` (the number of images requested) is an integer; non-integer values are not modelled.
- `Promise.all` in the upload loops is modelled as a sequential loop: the uploads run in order and the first failure decides the error. Parallel execution and the order in which rejections arrive are not modelled.
- The import script's file-system reads (`readdirSync`, `statSync`), its MIME-type table, its usage message and `process.exit` are left out; the folder listing is a parameter.
- Node's `path.extname` and `path.basename` are modelled for file names without a directory part, which is what the folder listing yields.
- Console logging in every file is left out.
- Text case conversion (`toLowerCase`/`toUpperCase`) covers ASCII letters only; other characters are kept.
- Email and name are taken as strings. A missing or falsy field is refused as missing, and an email that is not a string is refused as malformed, although the regular-expression test would read an array such as `["a@b.com"]` through its text.
- NamedSignup: a truthy name that is not a string answers 500 "internal server error", where Mongoose's string cast would store a number or boolean name as its text and answer 201.
- Mongoose schema validation on `save()` is modelled for catalog objects (`Models.SaveImageObject`) and placed objects (`Models.SaveModified`, applied in theme provisioning, in `ModifiedService.CreateAsWritten` and in every update, `ModifiedService.Update` and `ModifiedController.Patch`). When several paths of a placement fail, the message lists them in the schema's path order (name, current set, listed sets, placement kind, item function); the order of Mongoose's own error list is taken to be that one. User writes are stored as given, except in `Auth.SignupAsWritten` and `Signup.NamedSignupAsWritten`, which apply the user schema's required fields.
- Create: the corrected creation stores the placed object without the placed-object validators; as written they always reject it (see Findings), and `ModifiedController.Post`, `PostCreates` and `PostDiscrepancy` build on this corrected service. A record the corrected creation stores has no current set, so a later update of it is refused by the save: its message names `currentImageSet`, which alone maps to 500, and also `itemFunction` when the function is still null after the update (a POST may send `itemFunction: null`), which maps to 400.
- DefaultRecordCopies: the copied image sets keep no subdocument `_id`, because `Models.ImageSet` has no id; Mongoose's own ids of subdocuments are not modelled anywhere.
- Mongoose's strict mode drops writes to paths a schema does not declare. The placed-object schema declares neither `imageSrc` nor `isReversed`, so a placement holds neither: `ModifiedService.NewModified`, `ThemeDefaultObjects.DefaultRecord` and `ModifiedService.ApplyUpdate` drop them and `ModifiedController.ModifiedJson` never shows them. The POST and PATCH handlers still check them (POST requires `imageSrc`, both refuse a non-boolean `isReversed`) and pass them on. The model applies this to the analysis in `ThemeOnboarding.AnalyzeAsWritten`, to the music in `UserController.PatchMusicAsWritten`, and to the `questionIndex` increment of `src/services/objectService.ts`, which it leaves out. The `themeId`, `theme.leftWallColor`, `theme.rightWallColor` and, in `PUT /user/theme/:themeId`, `theme.backgroundMusic.*` writes of `src/controller/user.ts` are stored in the model although strict mode would drop them.
- ApplyThemeWrites: states that the theme id, the wall colours and the music are written, which strict mode drops as written; only the placed-object list, the floor colour and the weather actually change, and where the theme has no colours or music the reply reads those paths back as undefined and leaves them out.
- ThemeEntriesPresent: the wall-colour and music entries it states are those strict mode drops (see the line above).
- `onboardingResponses` is not declared in the user schema, and nothing in the core writes it. As written, `POST /arti/analyze-from-profile` therefore answers 400 for every existing user (`ThemeOnboarding.ProfileRejections` states the rule it applies).
- The `OnType` enumeration is a parameter: `src/models/ObjectModel.ts` does not define it (see above).
- ObjectService.PresetPath: a preset set name that is not a string is rendered as the empty string, where JavaScript would interpolate its text form.
- ImagenFallback.NoImageDataIsNotQuota: proved only for model names without the letters q, 9 and the pair "li", which covers the three shipped candidates (`ImagenFallback.CandidatesQuotaFree`); other custom model names are not covered.

## Findings

| source | as written | input that shows it | evidently intended | confidence | as-written member | corrected member |
|---|---|---|---|---|---|---|
| src/controller/modified.ts:123-134 | `POST /modified` builds the service parameters without `originalObjectId`, so the service looks up an undefined id, finds nothing and answers 500 "Original object not found" | any body that passes validation, e.g. one naming an existing catalog object | the validated `originalObjectId` is passed on; with the service also corrected (next row), the placed object is created with 201 | high, not executed | ModifiedController.PostAsWrittenNeverCreates | ModifiedController.PostCreates |
| src/services/modifiedService.ts:73-87 | `createModified` builds a record without `currentImageSet`, which the placed-object schema inherits as required from the catalog schema (and with `itemFunction: null` where one is required), so `save()` always throws | any creation whose lookups pass, e.g. a stored catalog object with one image set | the placed object is stored and its key pushed onto the owner's list | high, not executed | ModifiedService.CreateAsWrittenNeverCreates | ModifiedService.Create |
| src/services/theme-analysis-service.ts:98-100 | the range check `choice < 1 \|\| choice > 5` is false for a choice that is not a number, so the text is returned as the theme choice | the model answers `{"choice":"three","reason":"r"}` | a choice that is not a number between 1 and 5 falls back to the keyword analysis | high, not executed | ThemeAnalysis.TextChoicePasses | ThemeAnalysis.CheckedChoiceInRange |
| src/controller/auth.ts:48-58 | the user is created without `name`, which the user schema requires, so `save()` throws and signup answers 500 | `{"email":"a@b.com","password":"secret123"}` for a new email | the account is created and signup answers 201 with a token | high, not executed | Auth.SignupAsWrittenNeverCreates | Auth.SignupCreates |
| src/controller/signup.ts:38-44 | the user is created without `theme`, whose `floorColor`, `wallColor` and `weather` the schema requires, so `save()` throws and signup answers 500 | `{"email":"a@b.com","password":"secret123","name":"A"}` for a new email | the account is created and signup answers 201 | medium, not executed | Signup.NamedSignupAsWrittenNeverCreates | Signup.NamedSignupCreates |
| src/controller/themeOnboarding.ts:61-73 | the `$set` of `aiAnalysis.*` names a path the user schema does not declare, so strict mode drops it; analysis answers 200 but stores nothing | a successful `POST /arti/analyze` followed by `GET /arti/analysis` for a user without a stored analysis | the analysis is stored and read back | medium, not executed | ThemeOnboarding.AnalyzeAsWrittenNotKept | ThemeOnboarding.AnalyzeThenGet |
| src/controller/user.ts:225-260 | `PATCH /users/theme/music` sets `theme.backgroundMusic.*`, which the user schema does not declare, so strict mode drops the update; the reply then reads `theme.backgroundMusic.name` of undefined, throws and answers 500 "Failed to update music." | a stored user and theme id 1 with music configured | the music is stored and the reply 200 echoes it | medium, not executed | UserController.PatchMusicAsWrittenNeverUpdates | UserController.MusicWritten |
