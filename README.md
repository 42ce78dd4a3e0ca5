# A verified model of rollup-plugin-chrome-extension's manifest pipeline

This project models, in Dafny, the part of rollup-plugin-chrome-extension (and its
successor, the crxjs Vite plugin) that turns a Chrome extension manifest and a compiled
bundle into the final `manifest.json`. The model covers:

- how every manifest field is classified into css, js, html, img and "others" input
  buckets, and how permissions are derived from the bundle's code (`deriveFiles`,
  `derivePermissions`);
- the manifest-input plugin's cache: `options` loads and caches the manifest,
  `watchChange` invalidates it, and `generateBundle` memoises the permission hash and
  writes the MV2 `web_accessible_resources`;
- the MV3 rewrite `updateManifestV3`, which picks `chunkFileNames`, rejects conflicting
  outputs and appends one wildcard resource entry;
- the content-script resource collection of `plugin-contentScriptResources`: the chunk
  and asset graph, both `getResources` traversals, how declared and dynamic scripts write
  into `web_accessible_resources`, and the cleanup that dedupes MV2 lists and merges MV3
  entries with the same sorted `matches`;
- the file-event creators, the HTML reference selection and the CSS importer traversal;
- the Vite manifest plugins (version gate, serve-mode entries, stub input, plugin
  reordering, the transform and render folds, the ref-id round trip, the manifest output
  step), the background loader plugin, the simple reloader and the top-level
  `chromeExtension` plugin.

Objects whose fields the source updates in place are classes: the manifest-input cache
`ManifestInput.Cache`, the output options `UpdateManifest.OutputOptions`, the
reloader cache `SimpleReloader.ReloaderCache`, the Vite plugins' closure state
`PluginManifest.ManifestPlugin` and `PluginBackground.BackgroundPlugin`, and the
composed `ChromeExtension.ChromeExtensionPlugin`. Everything else is a value: the
manifest is a datatype, a bundle is a sequence of `(fileName, output)` pairs (JavaScript
object key order decides "first" and "last wins"), and a JavaScript `Set` or
`[...new Set(xs)]` is an insertion-ordered duplicate-free sequence (`SeqSet`). A `Set`
compares objects by identity, so on a `web_accessible_resources` list, which mixes
path strings with MV3 entry objects, `WarSet` dedupes the paths and keeps every entry.

Collaborators whose code is not part of this model are function-valued parameters or
fields of an environment datatype: `glob.hasMagic` and `glob.sync`, cosmiconfig's
`load`, path `join`, `relative`, `resolve` and `normalizePath`, the permission detector
table, `validateManifest`, `combinePerms`, `reduceToRecord`, rollup's `emitFile` and
`getFileName`, `stubUrl`, `generateFileNames` and the HTML document cheerio would parse.
Clock values (`Date.now`, `toTimeString`) and environment variables are inputs.

Module layout (one file each): `Wrappers` (Option and Result), `SeqSet`, `Strings`,
`ManifestTypes`, `WarSet`, `Helpers`, `ManifestParser`, `ManifestInput`, `UpdateManifest`,
`ContentScriptResources`, `ContentScriptWar`, `ContentScriptCleanup`, `FileEvents`,
`HtmlParser`, `CssImportDeps`, `PluginManifest`, `PluginBackground`, `SimpleReloader`,
`ChromeExtension`.

## Model

| member | source | states |
|---|---|---|
| Helpers.ChunkOrAsset | src/helpers.ts:5-15 | `isChunk` holds iff the output is a chunk, `isAsset` iff it is an asset, and exactly one of them holds |
| Helpers.Not | src/helpers.ts:3 | `not(fn)(x)` is `!fn(x)` for every `x` |
| Helpers.NotNot | src/helpers.ts:3 | `not(not(fn))` agrees with `fn` |
| Helpers.Delete | src/plugin-reloader-simple/index.ts:137 | deleting a bundle key keeps exactly the entries under other keys |
| Helpers.Put | src/plugin-reloader-simple/index.ts:56-60 | an emitted file is found under its name with the new value, and every other key looks up as before |
| Helpers.LookupDelete | src/plugin-reloader-simple/index.ts:137 | after `delete bundle[key]` the key is absent and every other key looks up as before |
| Helpers.DeleteConcat | src/plugin-reloader-simple/index.ts:137 | deleting from a concatenation deletes from each part, so the kept entries keep their order |
| SeqSet.DedupeElements | src/manifest-input/index.ts:16-18 | `dedupe` has no duplicates, holds exactly the input's elements and is no longer than the input |
| SeqSet.DedupeFirstOccurrenceOrder | src/manifest-input/index.ts:16-18 | `dedupe` keeps elements in order of first occurrence |
| SeqSet.DedupeIdempotent | src/manifest-input/index.ts:16-18 | deduping twice is deduping once |
| SeqSet.DedupeOfNoDups | src/manifest-input/index.ts:16-18 | a duplicate-free list is its own `dedupe` |
| SeqSet.AddAllConcat | src/manifest-input/manifest-parser/index.ts:21 | adding two lists to a set one after the other is adding their concatenation |
| WarSet.AddWar | src/manifest-input/index.ts:16-18 | `set.add` on a resource item: the result holds the old items and the new one, keeps the old list as a prefix and repeats no path that the old list did not repeat |
| WarSet.AddAllWar | src/manifest-input/index.ts:16-18 | adding a list of resource items: exactly the items of both, the old list as a prefix, no repeated path introduced |
| WarSet.AddAllWarEntries | src/manifest-input/index.ts:16-18 | every entry object is added: the result's entries are the old entries followed by the added ones, equal entries included |
| WarSet.AddAllWarConcat | src/manifest-input/index.ts:16-18 | adding two lists one after the other is adding their concatenation |
| WarSet.DedupeWarOfUnique | src/manifest-input/index.ts:16-18 | a resource list without repeated paths is its own `dedupe` |
| WarSet.DedupeWarAppendPaths | src/manifest-input/index.ts:321-325 | deduping a resource list with paths appended repeats no path, holds exactly the old items and the new paths, keeps the old entries, and keeps an old list without repeated paths as a prefix |
| WarSet.DedupeWarSpec | src/manifest-input/index.ts:16-18 | `dedupe` on resource items repeats no path, holds exactly the input's items, keeps every entry in order (two equal entries stay two), and is idempotent |
| FileEvents.FileTypesSpec | src/files.sharedEvents.ts:13-30 | `fileTypes` lists nine distinct kinds, every script kind is among them, and `isScript` holds exactly for `MODULE`, `BACKGROUND` and `CONTENT` |
| FileEvents.NormalizeFilePaths | src/files.sharedEvents.ts:32-42 | `fileName` and `id` go through `normalizePath`; the kind and every other field are copied |
| FileEvents.AddFiles | src/files.sharedEvents.ts:46-48 | same length and order as the input, each file normalised |
| FileEvents.AddFilesIdempotent | src/files.sharedEvents.ts:46-48 | with an idempotent `normalizePath`, adding already added files changes nothing |
| FileEvents.SetById | src/files.sharedEvents.ts:76 | `Map.set` by id: the ids become the insertion-ordered set of the old ids plus the new one |
| FileEvents.ById | src/files.sharedEvents.ts:76 | the children's ids are the deduped input ids, in order of first appearance |
| FileEvents.SetByIdLast | src/files.sharedEvents.ts:76 | one `Map.set` keeps "each child is the last record given with its id" |
| FileEvents.ByIdSpec | src/files.sharedEvents.ts:70-78 | `PARSE_RESULT` children have pairwise distinct ids, exactly the input ids, and each is the last record given for its id |
| FileEvents.AddFilesEventOf | src/files.sharedEvents.ts:46-48 | `ADD_FILES` carries the normalised files, same length, kinds and other fields |
| FileEvents.ParseResultOf | src/files.sharedEvents.ts:70-78 | `PARSE_RESULT` keeps the file name and keys the children by id |
| FileEvents.ChangeOf | src/files.sharedEvents.ts:51-54 | `CHANGE` yields the id together with the change's event |
| CssImportDeps.MatchFromSpec | packages/vite-plugin/src/node/getCSSImportDeps.ts:3-4 | the unanchored regex search from `i` succeeds iff the pattern matches at some position at or after `i` |
| CssImportDeps.IsCssRequestSpec | packages/vite-plugin/src/node/getCSSImportDeps.ts:3-7 | `isCSSRequest(u)` iff `u` holds a `.` followed by one of the nine CSS languages and then the end or a `?` |
| CssImportDeps.CssRequestExample | packages/vite-plugin/src/node/getCSSImportDeps.ts:3-7 | `a.css?used` is a CSS request |
| CssImportDeps.AddDeps | packages/vite-plugin/src/node/getCSSImportDeps.ts:17-26 | the reduce only adds nodes that pass both filters and are found from the list, adds every passing list node and every passing importer of an added node, and terminates on cyclic graphs |
| CssImportDeps.GetCssImportDeps | packages/vite-plugin/src/node/getCSSImportDeps.ts:13-29 | every result node is a module of the graph and a CSS request, and self-accepting when `selfAccepting` is set |
| CssImportDeps.GetCssImportDepsSpec | packages/vite-plugin/src/node/getCSSImportDeps.ts:17-28 | a node is in the result iff it is reachable from the start through importer edges whose every node passes both filters |
| CssImportDeps.ResultReachable | packages/vite-plugin/src/node/getCSSImportDeps.ts:17-26 | every result node is reachable through passing nodes, so importers of a rejected node are never explored |
| CssImportDeps.ChainInResult | packages/vite-plugin/src/node/getCSSImportDeps.ts:17-26 | every node of a passing importer chain from the start is in the result |
| ManifestInput.CachedAssets | src/manifest-input/index.ts:168-171 | `cache.assets` is duplicate-free and holds exactly the css, img and others files |
| ManifestInput.DetectPermissions | src/manifest-input/index.ts:243-269 | with `assetChanged` and a stored hash the stored permissions are reused and `assetChanged` is reset; otherwise the permissions are the fold over the chunks, duplicate-free, and their hash is stored; a warning is issued iff they were recomputed, `verbose` is set and there was no hash or it changed |
| ManifestInput.PermsReusedOnce | src/manifest-input/index.ts:245-269 | after one reuse of the stored permissions the next `generateBundle` recomputes them |
| ManifestInput.WithDefaults | src/manifest-input/index.ts:283-293 | missing `manifest_version`, `name`, `version` and `description` default to 2 and the package details, permissions are combined, every other field is kept |
| ManifestInput.ImportedChunkNames | src/manifest-input/index.ts:311-318 | exactly the file names of the non-entry chunks |
| ManifestInput.WithImports | src/manifest-input/index.ts:303-326 | without content-script js the manifest is unchanged; otherwise `web_accessible_resources` becomes `dedupe(war ++ non-entry chunks ++ content-script js)`, deduping paths by value and entries by identity |
| ManifestInput.WithImportsSpec | src/manifest-input/index.ts:321-325 | the new resources repeat no path, hold exactly the old resources, the imported chunks and the content-script js, keep every old entry in order (equal entries included), and keep an old list without repeated paths as a prefix |
| ManifestInput.Wrapped | src/manifest-input/index.ts:359-361 | each script path is replaced by its loader wrapper, in order |
| ManifestInput.WithWrappers | src/manifest-input/index.ts:332-375 | with wake events, background scripts and every content script's `js` are wrapped and other fields kept, and `content_scripts` is deleted when there are none; without wake events nothing changes |
| ManifestInput.WithKey | src/manifest-input/index.ts:381-383 | a non-empty public key becomes `key`; otherwise the manifest is unchanged |
| ManifestInput.EmittedManifestSpec | src/manifest-input/index.ts:273-415 | a validation failure yields its errors as warnings and a `ValidationError`; otherwise the emitted manifest has the defaults, the combined permissions and the public key |
| ManifestInput.Cache.constructor | src/manifest-input/index.ts:79-86 | the default cache: no assets, no input, no hash, no manifest, `assetChanged` false |
| ManifestInput.Cache.Options | src/manifest-input/index.ts:134-191 | a `TypeError` when nothing is cached and `input` is not a path; an empty-file error; a cached manifest is neither reloaded nor re-derived; a fresh load stores `input = js ++ html` and the deduped assets; "at least one script or HTML file" whenever `input` is empty; otherwise the options with `input` as a record |
| ManifestInput.Cache.Store | src/manifest-input/index.ts:155-171 | the loaded manifest, its path, `srcDir`, `input` and `assets` are stored, nothing else changes |
| ManifestInput.Cache.WatchChange | src/manifest-input/index.ts:225-234 | a `manifest.json` id drops the manifest and clears `assetChanged`; any other id sets `assetChanged` to whether `readFile` held it and removes it |
| ManifestInput.Cache.GenerateBundle | src/manifest-input/index.ts:240-418 | the permission cache steps as `DetectPermissions`; no cached manifest is a `TypeError`; otherwise the emitted manifest, with validation errors appended to the warnings; the manifest, input and assets are kept |
| ManifestParser.Accepted | src/manifest-input/manifest-parser/index.ts:18-20 | exactly the detector keys whose detector accepts the chunk's code |
| ManifestParser.DerivePermissions | src/manifest-input/manifest-parser/index.ts:14-21 | the result is the input set plus exactly the accepted keys; nothing is removed, the old members stay first and no duplicate is added |
| ManifestParser.DerivePermissionsAllUnion | src/manifest-input/index.ts:251-256 | folding `derivePermissions` over the chunks gives each name some chunk's code triggers, exactly once |
| ManifestParser.ExpandOne | src/manifest-input/manifest-parser/index.ts:48-55 | a resource without glob magic is kept verbatim; a glob is replaced by its matches, in order, each with the first `srcDir` removed |
| ManifestParser.ExpandWarVerbatim | src/manifest-input/manifest-parser/index.ts:124-131 | without glob magic the resource list is kept as it is |
| ManifestParser.ExpandWarSources | src/manifest-input/manifest-parser/index.ts:47-55 | every derived file is a non-glob resource or a glob match with `srcDir` removed |
| ManifestParser.Present | src/manifest-input/manifest-parser/index.ts:110 | `filter(isString)` keeps exactly the values that are present |
| ManifestParser.ValidateSpec | src/manifest-input/manifest-parser/index.ts:109-113 | `validate` holds exactly `join(srcDir, x)` for the present `x`, in order of first occurrence, duplicate-free when `join(srcDir, ·)` is injective |
| ManifestParser.JsSourcesSpec | src/manifest-input/manifest-parser/index.ts:57-65 | the js bucket holds the war scripts (`.js`, `.ts`, `.jsx`, `.tsx`), `service_worker` in MV3 or `background.scripts` in MV2 (lines 133-141), and every content script's `js` |
| ManifestParser.HtmlSourcesSpec | src/manifest-input/manifest-parser/index.ts:67-74 | the html bucket holds the war `.htm`/`.html` files, the options, devtools and popup pages of the manifest's version (MV2 at lines 143-152, with `background.page`) and every `chrome_url_overrides` value |
| ManifestParser.CssSourcesSpec | src/manifest-input/manifest-parser/index.ts:76-86 | the css bucket holds the war `.css` files and every content script's `css` |
| ManifestParser.IconValues | src/manifest-input/manifest-parser/index.ts:176-180 | a string icon contributes itself, an icon set all its values, an absent icon nothing |
| ManifestParser.ActionIconSetMV2 | src/manifest-input/manifest-parser/index.ts:166-183 | the MV2 action icon set is duplicate-free and holds exactly the browser and page action icons |
| ManifestParser.IconValuesAsWritten | src/manifest-input/manifest-parser/index.ts:93-95 | `Object.values` of a string icon yields its single characters |
| ManifestParser.StringIconLostAsWritten | src/manifest-input/manifest-parser/index.ts:93-95 | an MV3 string `default_icon` of two or more characters is not among the values as written, and is in the corrected ones |
| ManifestParser.ImgSourcesSpec | src/manifest-input/manifest-parser/index.ts:88-96 | the img bucket holds the war images (case-insensitive extension list), the `icons` values and the action icons of the manifest's version (MV2 at lines 185-191) |
| ManifestParser.ImgSourcesAsWrittenSpec | src/manifest-input/manifest-parser/index.ts:88-96 | the MV3 img bucket as written: each character of a string action icon is in it; with an icon set or no icon it equals the corrected bucket |
| ManifestParser.OthersSourcesSpec | src/manifest-input/manifest-parser/index.ts:99 | `others` holds exactly the war files in none of the four other buckets |
| ManifestParser.DeriveFiles | src/manifest-input/manifest-parser/index.ts:27-36 | the MV3 path is taken iff `manifest_version` is 3; every other value takes the MV2 path |
| ManifestParser.DeriveFilesBuckets | src/manifest-input/manifest-parser/index.ts:101-113 | every bucket is duplicate-free and no `others` file is in another bucket (MV2 at lines 196-208) |
| UpdateManifest.OutputOptions.constructor | src/manifest-input/updateManifest.ts:7 | the options object holds the given `output` |
| UpdateManifest.ChosenChunkFileNames | src/manifest-input/updateManifest.ts:17-20 | `chunkFileNames` (a pattern or a naming function) is the first output's value or the default `chunks/[name]-[hash].js`; an empty output array throws |
| UpdateManifest.ChunkFileNameKeys | src/manifest-input/updateManifest.ts:28-31 | each output's `chunkFileNames`, an undefined one as `no cfn` |
| UpdateManifest.ConflictingSpec | src/manifest-input/updateManifest.ts:26-36 | the set has more than one member iff two outputs disagree, undefined counting as one value and naming functions compared by identity |
| UpdateManifest.AssignAll | src/manifest-input/updateManifest.ts:39 | every output gets the chosen `chunkFileNames` and keeps its other fields |
| UpdateManifest.AllMatches | src/manifest-input/updateManifest.ts:45-47 | exactly the content scripts' `matches` and the `host_permissions` |
| UpdateManifest.MatchesSpec | src/manifest-input/updateManifest.ts:45-49 | `matches` is duplicate-free, holds exactly those patterns, in order of first occurrence |
| UpdateManifest.ResourcePatternPlain | src/manifest-input/updateManifest.ts:51-56 | a name without placeholders is its own pattern |
| UpdateManifest.ResourcePatternNameHash | src/manifest-input/updateManifest.ts:51-56 | a `pre[name]mid[hash]post` template with no other `[` becomes `pre*mid*post` |
| UpdateManifest.WithModuleBackground | src/manifest-input/updateManifest.ts:12-14 | an existing background gets `type: 'module'`; none is created |
| UpdateManifest.Rewritten | src/manifest-input/updateManifest.ts:45-65 | exactly one `{matches, resources: [pattern]}` entry is appended after the existing ones and nothing else but the background type changes |
| UpdateManifest.UpdateManifestV3 | src/manifest-input/updateManifest.ts:5-69 | without content scripts neither `options` nor the cache is touched; an empty output array or conflicting outputs throw; otherwise the cache and every output get the chosen `chunkFileNames`, and the manifest is rewritten from a pattern while a naming function throws at `.split`; the caller's manifest is a value and never changes |
| UpdateManifest.RewriteAgrees | src/manifest-input/updateManifest.ts:22-65 | after a rewrite every output and the cache agree on one `chunkFileNames`, and the appended entry is built from its pattern |
| Strings.ReplaceFirst | src/manifest-input/updateManifest.ts:54-56 | `replace` with a string pattern replaces the first occurrence only, and leaves a string without one unchanged |
| Strings.Find | src/manifest-input/updateManifest.ts:54 | the first position where the pattern occurs, if any |
| ContentScriptResources.ChunksById | src/plugin-contentScriptResources.ts:58-67 | an id is mapped iff some chunk has it as a truthy `facadeModuleId` |
| ContentScriptResources.ChunksByIdLastWins | src/plugin-contentScriptResources.ts:58-67 | the id maps to the output name of the last chunk with that facade |
| ContentScriptResources.ResourceIds | src/plugin-contentScriptResources.ts:74-77 | exactly the module ids with the imported-resource prefix, the prefix stripped and passed through `stubUrl(..).pathname` |
| ContentScriptResources.SplitIds | src/plugin-contentScriptResources.ts:81-85 | every id lands in exactly one of the two lists |
| ContentScriptResources.SplitIdsSpec | src/plugin-contentScriptResources.ts:79-87 | ids some chunk answers for go to `chunks` as that chunk's name, all others to `assets` relative to the root, and nothing else is in either |
| ContentScriptResources.GetCrxImportsFromBundle | src/plugin-contentScriptResources.ts:69-88 | the loop computes that partition of the module list |
| ContentScriptResources.Collect | src/plugin-contentScriptResources.ts:313-354 | `getResources` throws the `isChunk(undefined)` TypeError on a name whose output the bundle lacks; otherwise it only grows the three sets, keeps them duplicate-free, and never fails when every import resolves to an output the bundle has (rollup version at lines 406-430) |
| ContentScriptResources.CollectChildren | src/plugin-contentScriptResources.ts:343-351 | the loop over a node's imports grows the sets and keeps them duplicate-free |
| ContentScriptResources.NodeCollected | src/plugin-contentScriptResources.ts:340-342 | a node's own assets and css end up in the collected sets |
| ContentScriptResources.ChildVisited | src/plugin-contentScriptResources.ts:343-351 | every child's file is added to `imports` and its own resources are collected into the result |
| ContentScriptResources.CollectReaches | src/plugin-contentScriptResources.ts:343-351 | on an acyclic graph every file along an import chain from the start is in `imports` |
| ContentScriptResources.ChunksByIdNames | src/plugin-contentScriptResources.ts:58-67 | every name `getChunksById` maps to is an output of the bundle |
| ContentScriptResources.RollupResolved | src/plugin-contentScriptResources.ts:414-427 | the rollup closure fails exactly at a name the bundle lacks; every chunk it follows is an output, and it contributes no css |
| ContentScriptResources.RollupImportsTransitive | src/plugin-contentScriptResources.ts:406-430 | on an acyclic chunk-import graph every transitively imported chunk is in `imports` |
| ContentScriptResources.ViteLookup | src/plugin-contentScriptResources.ts:328 | `filesData[key]`: the entry under that key, or none when the key is absent |
| ContentScriptResources.FilesByName | src/plugin-contentScriptResources.ts:308-311 | a file name is mapped iff some vite manifest entry has it as `file`, to such an entry |
| ContentScriptResources.KeyChildren | src/plugin-contentScriptResources.ts:343-346 | one child per import key, unresolved exactly when the vite manifest lacks the key |
| ContentScriptResources.ViteResolved | src/plugin-contentScriptResources.ts:319-351 | when every import key is in the vite manifest, every entry's `file` is an output and every chunk that answers for a module id is some entry's `file`, no lookup below the start fails, and a start that is an output file or a key succeeds |
| ContentScriptResources.ViteFallbackMissing | src/plugin-contentScriptResources.ts:319-332 | a name that is neither an output file nor a key takes the `{}` fallback and throws at `isChunk(bundle[undefined])` unless an output is named `undefined` |
| ContentScriptResources.VitePresent | src/plugin-contentScriptResources.ts:319-332 | a name that is an entry's `file` or a key of a consistent vite manifest reaches an output of the bundle |
| ContentScriptCleanup.Upsert | src/plugin-contentScriptResources.ts:231-233 | `map.set` by sorted matches: the keys become the insertion-ordered set of the old keys plus this one |
| ContentScriptCleanup.UpsertAt | src/plugin-contentScriptResources.ts:231-233 | the group with the key gets the resources added, the others are unchanged, a new key goes last |
| ContentScriptCleanup.GroupEntries | src/plugin-contentScriptResources.ts:225-234 | the merge succeeds iff every item is an entry |
| ContentScriptCleanup.MatchKeys | src/plugin-contentScriptResources.ts:230 | each entry's key is its sorted `matches` |
| ContentScriptCleanup.GroupEntriesKeys | src/plugin-contentScriptResources.ts:225-234 | the groups' keys are the distinct sorted match lists, in order of first occurrence |
| ContentScriptCleanup.GroupEntriesResources | src/plugin-contentScriptResources.ts:225-234 | each group's resources are duplicate-free and are exactly the resources of the entries with that sorted match list |
| ContentScriptCleanup.MergedSnoc | src/plugin-contentScriptResources.ts:226-234 | a resource is merged under a key iff the earlier entries merge it or the last entry has that key and lists it |
| ContentScriptCleanup.GroupItems | src/plugin-contentScriptResources.ts:235-240 | one `{matches, resources}` entry per group, in order |
| ContentScriptCleanup.CleanUpSpec | src/plugin-contentScriptResources.ts:216-242 | an absent list is left alone and an empty one deleted; an MV2 list becomes its `dedupe`, duplicate-free with the same items; an MV3 list fails only on a plain path; nothing else changes |
| ContentScriptCleanup.CleanUpMV3 | src/plugin-contentScriptResources.ts:224-241 | MV3 entries come out with sorted, pairwise distinct `matches` and duplicate-free resources; every input match set is represented, and each entry's resources are the union of those of its input entries |
| ContentScriptCleanup.CleanUpShape | src/plugin-contentScriptResources.ts:216-242 | whatever list remains is duplicate-free in MV2, and merged by distinct sorted match lists in MV3 |
| ContentScriptCleanup.GroupEntriesErr | src/plugin-contentScriptResources.ts:226-229 | an error on a prefix of the list is the error of the whole merge |
| ContentScriptCleanup.CleanUpManifest | src/plugin-contentScriptResources.ts:216-242 | the imperative cleanup computes `CleanUp` |
| ContentScriptWar.WithOwnFile | src/plugin-contentScriptResources.ts:102-105 | in ESM format the script's own output file joins its imports |
| ContentScriptWar.DeclaredName | src/plugin-contentScriptResources.ts:97-124 | one script name: helper scripts are skipped; collected css extends the script's `css`; nothing is added when assets and imports are empty; MV2 appends the flat paths, MV3 one entry with the script's `matches`; earlier items are kept |
| ContentScriptWar.DeclaredNames | src/plugin-contentScriptResources.ts:97-125 | over a script's `js`: earlier items are kept, the css only grows and every appended item is of the script's kind |
| ContentScriptWar.DeclaredScripts | src/plugin-contentScriptResources.ts:95-127 | the same number of content scripts and the old items as a prefix |
| ContentScriptWar.DeclaredScriptsSpec | src/plugin-contentScriptResources.ts:95-127 | each script differs only by a longer `css`; MV2 appends only paths; every MV3 entry appended carries the `matches` of some content script |
| ContentScriptWar.DeclaredHelpersOnly | src/plugin-contentScriptResources.ts:98 | when every name is a helper script nothing changes |
| ContentScriptWar.DeclaredNameResources | src/plugin-contentScriptResources.ts:102-123 | no assets and no imports add nothing; in ESM format the script's output file is among the MV2 paths appended, or in the resources of the single MV3 entry appended |
| ContentScriptWar.DeclaredNamesErr | src/plugin-contentScriptResources.ts:97-100 | an error on some name is the error of the whole loop |
| ContentScriptWar.DeclaredScriptsErr | src/plugin-contentScriptResources.ts:96-100 | an error on some script is the error of the whole loop |
| ContentScriptWar.DeclaredNameStep | src/plugin-contentScriptResources.ts:97-124 | the imperative inner iteration computes `DeclaredName` |
| ContentScriptWar.DeclaredScriptStep | src/plugin-contentScriptResources.ts:97-125 | the imperative inner loop computes `DeclaredNames` |
| ContentScriptWar.UpdateResourcesFromDeclaredScripts | src/plugin-contentScriptResources.ts:90-127 | the imperative loop over scripts and names computes the declared-scripts manifest |
| ContentScriptWar.DynamicResources | src/plugin-contentScriptResources.ts:177-191 | the collected `resources` set is duplicate-free |
| ContentScriptWar.DynamicResourcesSpec | src/plugin-contentScriptResources.ts:179-191 | when every script resolves, a resource is collected iff some dynamic script contributes it as an asset, css, import or (ESM) its own output file |
| ContentScriptWar.DynamicResourcesErr | src/plugin-contentScriptResources.ts:179-182 | an error on some script is the error of the whole loop |
| ContentScriptWar.FindPlaceholder | src/plugin-contentScriptResources.ts:197-199 | the first entry whose first resource is `<dynamic_scripts>`, every earlier item being a non-placeholder entry; a plain path before any placeholder throws |
| ContentScriptWar.DynamicWarPlaceholder | src/plugin-contentScriptResources.ts:197-211 | MV3 with a placeholder entry: the first one gets the collected resources and keeps its `matches`; nothing else changes and nothing is reported |
| ContentScriptWar.DynamicWarDefault | src/plugin-contentScriptResources.ts:200-211 | MV3 without a placeholder entry: one warning, and one entry with `http://*/*` and `https://*/*` appended |
| ContentScriptWar.DynamicManifest | src/plugin-contentScriptResources.ts:170-214 | the result keeps a resource list |
| ContentScriptWar.DynamicManifestSpec | src/plugin-contentScriptResources.ts:193-213 | only the resource list changes, at most one warning, and an empty collected set leaves the manifest unchanged |
| ContentScriptWar.CollectDynamicResources | src/plugin-contentScriptResources.ts:177-191 | the imperative loop computes `DynamicResources` |
| ContentScriptWar.PlaceDynamicResources | src/plugin-contentScriptResources.ts:193-213 | the imperative placement computes `DynamicWar` |
| ContentScriptWar.UpdateResourcesFromDynamicScripts | src/plugin-contentScriptResources.ts:170-214 | the method computes `DynamicManifest` |
| ContentScriptWar.DynamicScripts | src/plugin-contentScriptResources.ts:432-442 | succeeds only when every dynamic file names a chunk of the bundle |
| ContentScriptWar.WithWar | src/plugin-contentScriptResources.ts:402-403 | `web_accessible_resources ?? []`: a present list is kept as it is, an absent one becomes `[]`, and no other field changes |
| ContentScriptWar.SharedEntryPushed | src/plugin-contentScriptResources.ts:97-124 | when a script has a `js` name with assets or imports, the MV3 declared pass appends an entry with that script's `matches` |
| ContentScriptWar.PassesScripts | src/plugin-contentScriptResources.ts:119-122 | the passes change only the content scripts and the resource list; each script only gains css, and in MV3 a script that pushed an entry comes out with its `matches` sorted (the entry shares the array the cleanup sorts in place at line 473), every other keeps them |
| ContentScriptWar.PassesSpec | src/plugin-contentScriptResources.ts:444-484 | the resource list the three passes leave is duplicate-free in MV2 and merged by distinct sorted match lists in MV3 |
| ContentScriptWar.RunPasses | src/plugin-contentScriptResources.ts:444-484 | the method runs the three passes in order, including the in-place sort of shared `matches` |
| ContentScriptWar.RollupGenerateBundle | src/plugin-contentScriptResources.ts:392-487 | the rollup `generateBundle` computes its manifest from the bundle, failing where its closure meets a name the bundle lacks |
| ContentScriptWar.ViteGenerateBundle | src/plugin-contentScriptResources.ts:270-385 | the wrapped `vite:manifest` hook computes its manifest; an empty vite manifest leaves it unchanged, and a script name reaching the `{}` fallback fails |
| HtmlParser.Attr | src/files_htmlParser.ts:89 | `$(elem).attr(name)` is defined iff the element carries that attribute, and then it is one of the element's values for it |
| HtmlParser.Values | src/files_htmlParser.ts:87-91 | mapping `attr(name)` and keeping the strings yields exactly the defined values of the elements, never more entries than elements |
| HtmlParser.FilteredValues | src/files_htmlParser.ts:87-91 | a selection followed by `attr(name)` and `filter(isString)` yields exactly the attribute values of the selected elements of the document |
| HtmlParser.GetScripts | src/files_htmlParser.ts:77-85 | an element is selected iff it is a `script` in the document without `data-rollup-asset` whose `src` starts with none of `http:`, `https:`, `data:`, `/` |
| HtmlParser.GetAssets | src/files_htmlParser.ts:95-103 | an element is selected iff it is a `script` with `data-rollup-asset="true"` and a local `src` |
| HtmlParser.GetScriptSrc | src/files_htmlParser.ts:87-91 | a name is returned iff it is the `src` of some page script of the document |
| HtmlParser.GetJsAssets | src/files_htmlParser.ts:105-109 | a name is returned iff it is the `src` of some asset script of the document |
| HtmlParser.ScriptsDisjoint | src/files_htmlParser.ts:77-103 | no element is both a page script and an asset script, and no selected script's `src` is remote, a data URL or root-relative |
| HtmlParser.GetCssHrefs | src/files_htmlParser.ts:113-127 | a name is returned iff it is the `href` of a `link rel="stylesheet"` whose `href` is local |
| HtmlParser.GetImgSrcs | src/files_htmlParser.ts:147-152 | the result has one entry per defined image `src` plus one per defined favicon `href` |
| HtmlParser.ImgPartSpec | src/files_htmlParser.ts:131-137 | the image part holds exactly the `src` of `img` elements not starting with `http://`, `https://` or `data:` (a root-relative `/` source is kept) |
| HtmlParser.FaviconPartSpec | src/files_htmlParser.ts:139-145 | the favicon part holds exactly the `href` of `link rel="icon"` elements not starting with `http:`, `https:` or `data:` |
| HtmlParser.ImgSrcsSpec | src/files_htmlParser.ts:147-152 | image sources come first and favicon hrefs after them, and a name is returned iff it is one or the other |
| HtmlParser.ConcatParts | src/files_htmlParser.ts:148-151 | a spread of two lists keeps the first list's entries before the second's and the union of their members |
| HtmlParser.ParseHtml | src/files_htmlParser.ts:52-73 | the record has exactly the four kinds `SCRIPT_HTML`, `CSS`, `IMAGE`, `RAW`, in that order, holding the script, stylesheet, image and asset-script references |
| HtmlParser.ResolveId | src/files_htmlParser.ts:27-30 | an absolute reference is joined onto the root, any other is resolved against the HTML file's directory |
| HtmlParser.RefFile | src/files_htmlParser.ts:26-38 | each reference becomes a record of its kind, its resolved id and the id's path relative to the root |
| HtmlParser.KindFiles | src/files_htmlParser.ts:26-38 | one record per reference of a kind, in order |
| HtmlParser.AllFiles | src/files_htmlParser.ts:25-39 | the `flatMap` holds exactly the records of every reference of every kind |
| HtmlParser.ParseAsset | src/files_htmlParser.ts:14-46 | the event is `ERROR` with the thrown error iff loading the HTML throws, and otherwise a `PARSE_RESULT` for the asset's own file name |
| HtmlParser.ParseAssetChildren | src/files_htmlParser.ts:21-41 | a parse result's children have distinct ids, every reference's resolved id is among them, and every child is the record of some reference |
| HtmlParser.KindsChildren | src/files_htmlParser.ts:25-41 | the records keyed by id have distinct ids, keep every reference's id, and each is the record of some reference |
| PluginManifest.InputValues | packages/vite-plugin/src/node/plugin-manifest.ts:65-67 | a missing input is `[]`, a string becomes a one-element list, an array is kept and a record gives its values |
| PluginManifest.ServeInputs | packages/vite-plugin/src/node/plugin-manifest.ts:65-74 | one entry per build input, in order; an absolute input is made relative to `config.root` (else the working directory) |
| PluginManifest.OptimizeEntries | packages/vite-plugin/src/node/plugin-manifest.ts:62-84 | the serve-mode `optimizeDeps.entries` has no duplicates and holds exactly the explicit entries, the build inputs, the content scripts, the service worker and the HTML files |
| PluginManifest.ConfigHook | packages/vite-plugin/src/node/plugin-manifest.ts:42-87 | `config` throws iff `manifest_version` is not 3; a build returns nothing and a serve returns the config with the merged entries |
| PluginManifest.VersionErrorMessage | packages/vite-plugin/src/node/plugin-manifest.ts:48-51 | for version `v` other than 3 the message is "CRXJS does not support Manifest v<v>, please use Manifest v3" |
| PluginManifest.StubOptions | packages/vite-plugin/src/node/plugin-manifest.ts:117-129 | a string input ending in `index.html` is replaced by the stub id; every other input and every other option is kept |
| PluginManifest.StubOptionsIdempotent | packages/vite-plugin/src/node/plugin-manifest.ts:117-129 | applying the stub-input `options` hook twice is applying it once |
| PluginManifest.StubIndex | packages/vite-plugin/src/node/plugin-manifest.ts:139-144 | the index found is the first chunk whose facade module is the stub, and no earlier entry is one |
| PluginManifest.StubIndexIs | packages/vite-plugin/src/node/plugin-manifest.ts:139-144 | the first stub chunk's index is the one found |
| PluginManifest.StubIndexNone | packages/vite-plugin/src/node/plugin-manifest.ts:139-144 | a bundle without a stub chunk yields no index |
| PluginManifest.WithoutStub | packages/vite-plugin/src/node/plugin-manifest.ts:138-145 | only the first stub chunk is deleted and every other entry keeps its order; a bundle without one is unchanged |
| PluginManifest.StubGenerateBundle | packages/vite-plugin/src/node/plugin-manifest.ts:138-145 | the loop that deletes and breaks yields the bundle without its first stub chunk |
| PluginManifest.TransformHooks | packages/vite-plugin/src/node/plugin-manifest.ts:168-171 | the transform hooks are the plugins' `transformCrxManifest` hooks with their names, in plugin order |
| PluginManifest.RenderHooks | packages/vite-plugin/src/node/plugin-manifest.ts:267-275 | the render hooks are the plugins' `renderCrxManifest` hooks, given the bundle, in plugin order |
| PluginManifest.FoldSpec | packages/vite-plugin/src/node/plugin-manifest.ts:168-178 | a fold's error is one some hook threw (wrapped with its plugin's name); a successful fold yields the input manifest or what some hook returned from the manifest before it; without hooks it yields its input |
| PluginManifest.RunHooks | packages/vite-plugin/src/node/plugin-manifest.ts:168-178 | the `for` loop over the plugins computes the fold: each result replaces the manifest unless nullish, and the first throw ends it |
| PluginManifest.FoldErrStays | packages/vite-plugin/src/node/plugin-manifest.ts:168-178 | once a prefix of the hooks has thrown, the whole fold throws that error |
| PluginManifest.TransformFailureNamesPlugin | packages/vite-plugin/src/node/plugin-manifest.ts:173-177 | a failed transform fold rethrows an error whose message is prefixed with `[<name>]` of a plugin that has the hook |
| PluginManifest.RenderFailureNamesPlugin | packages/vite-plugin/src/node/plugin-manifest.ts:276-290 | a failed render fold throws "Error in <name>.renderCrxManifest" for one of the plugins |
| PluginManifest.MapScript | packages/vite-plugin/src/node/plugin-manifest.ts:185-196 | `{ js = [], ...rest }` maps each script file in order and keeps `css`, `matches` and the other keys |
| PluginManifest.MapScriptFiles | packages/vite-plugin/src/node/plugin-manifest.ts:185-207 | every content script's `js` is mapped, the service worker is mapped when set and not empty, and nothing else in the manifest changes |
| PluginManifest.MapScriptTwice | packages/vite-plugin/src/node/plugin-manifest.ts:185-261 | mapping the files with `f` and then `g` is mapping them with their composition |
| PluginManifest.RefRoundTrip | packages/vite-plugin/src/node/plugin-manifest.ts:183-262 | emitting ref ids in `transform` and turning them into file names in `generateBundle` maps every script file and the worker through `getFileName(emitFile(file))` |
| PluginManifest.ServeLoaders | packages/vite-plugin/src/node/plugin-manifest.ts:216-232 | in serve mode the fold throws the ReferenceError for `add` iff some content script has a js file, and otherwise the manifest is only normalised |
| PluginManifest.BuildRefs | packages/vite-plugin/src/node/plugin-manifest.ts:183-215 | a build replaces every script and the worker with its ref id, and emits the content scripts, the worker and the HTML files in that order |
| PluginManifest.WriteManifest | packages/vite-plugin/src/node/plugin-manifest.ts:333-346 | the manifest chunk is gone, `manifest.json` holds the serialised manifest (written into the asset or emitted), and every other entry is kept |
| PluginManifest.ResolvedConfig.constructor | packages/vite-plugin/src/node/plugin-manifest.ts:151-154 | the resolved config holds the plugin list and the command |
| PluginManifest.PostIndex | packages/vite-plugin/src/node/plugin-manifest.ts:156-158 | the index of the first plugin named `crx:manifest-post`, or -1 when there is none |
| PluginManifest.MoveToEnd | packages/vite-plugin/src/node/plugin-manifest.ts:159-160 | `splice(i, 1)` and `push` put plugin `i` last and keep the others in order |
| PluginManifest.MoveLastToEnd | packages/vite-plugin/src/node/plugin-manifest.ts:156-160 | moving the last plugin to the end changes nothing, so `splice(-1, 1)` when the plugin is absent leaves the list as it was |
| PluginManifest.MovedPlugins | packages/vite-plugin/src/node/plugin-manifest.ts:151-161 | the reordered list has as many plugins as before |
| PluginManifest.MoveToEndPermutes | packages/vite-plugin/src/node/plugin-manifest.ts:159-160 | moving a plugin to the end is a permutation |
| PluginManifest.MovedPluginsSpec | packages/vite-plugin/src/node/plugin-manifest.ts:151-161 | `crx:manifest-post` ends up last with the others in their order, the list is a permutation, and without that plugin nothing changes |
| PluginManifest.ManifestPlugin.constructor | packages/vite-plugin/src/node/plugin-manifest.ts:32-36 | the closure starts without manifest, plugins, ref id or config |
| PluginManifest.ManifestPlugin.Config | packages/vite-plugin/src/node/plugin-manifest.ts:42-87 | `config` stores the manifest and returns what the config hook computes |
| PluginManifest.ManifestPlugin.BuildStart | packages/vite-plugin/src/node/plugin-manifest.ts:88-90 | `buildStart` records `options.plugins` only when it is given |
| PluginManifest.ManifestPlugin.LoaderBuildStart | packages/vite-plugin/src/node/plugin-manifest.ts:96-103 | the loader's `buildStart` records the ref id of the emitted manifest chunk |
| PluginManifest.ManifestPlugin.ConfigResolved | packages/vite-plugin/src/node/plugin-manifest.ts:151-161 | `configResolved` keeps the config and moves `crx:manifest-post` to the end of its plugins |
| PluginManifest.ManifestPlugin.Transform | packages/vite-plugin/src/node/plugin-manifest.ts:162-236 | other ids are ignored; without plugins the loop throws; the transform fold's error is rethrown; a build maps scripts to ref ids and a serve goes through the loader step |
| PluginManifest.ManifestPlugin.GenerateBundle | packages/vite-plugin/src/node/plugin-manifest.ts:237-347 | a missing manifest chunk makes `.code` throw, missing plugins make the loop throw, and otherwise the bundle is the one the render step and the output step produce |
| PluginManifest.GenerateBundleSpec | packages/vite-plugin/src/node/plugin-manifest.ts:240-346 | a decode error is rethrown; a successful run has no manifest chunk, keeps every other entry except `manifest.json`, and needs the plugins |
| PluginBackground.ResolveId | src/node/plugin-background.ts:18-20 | `/<workerClientId>` resolves to the client id and any other source to nothing |
| PluginBackground.Loader | src/node/plugin-background.ts:51-66 | it throws iff in watch mode without a port; in watch mode it imports the HMR client and then the worker from the dev server when one is set; in production it imports the worker relatively, or gives `null` without one |
| PluginBackground.LoaderImports | src/node/plugin-background.ts:52-62 | in watch mode the loader begins with the HMR client import and goes beyond it iff a worker is set; a production loader exists only for a worker and imports exactly it |
| PluginBackground.BackgroundPlugin.constructor | src/node/plugin-background.ts:8 | the port starts undefined |
| PluginBackground.BackgroundPlugin.FileWriterStart | src/node/plugin-background.ts:31-33 | the server port is stored as decimal text, and a missing port throws without storing anything |
| PluginBackground.BackgroundPlugin.RenderCrxManifest | src/node/plugin-background.ts:34-80 | the loader's error is rethrown, no loader returns `null`, and otherwise the background becomes the module worker `service-worker-loader.js` with the loader as the emitted source |
| Strings.NatToStringRoundTrip | src/node/plugin-background.ts:32 | the decimal text of a port reads back as the same number |
| SimpleReloader.WithContentReloader | src/plugin-reloader-simple/index.ts:120-125 | the content reloader goes in front of the script's `js` (an absent `js` counts as empty) and every other key is kept |
| SimpleReloader.ReloadManifest | src/plugin-reloader-simple/index.ts:90-131 | the updater fails with "Unable to emit background page reloader" without a background path, then with "Unable to emit content script reloader" without a content path, and succeeds iff both are set |
| SimpleReloader.ReloadManifestSpec | src/plugin-reloader-simple/index.ts:94-128 | the description is the load message, the background (created if absent) is persistent with the background reloader before its old scripts, every content script has the content reloader first, and nothing else changes |
| SimpleReloader.ReloaderCache.constructor | src/plugin-reloader-simple/index.ts:32 | the cache starts empty |
| SimpleReloader.ReloaderCache.GenerateBundle | src/plugin-reloader-simple/index.ts:41-138 | the cache holds the output dir, the load message and the three paths emitted in order (the timestamp file under its fixed name, then the background reloader with its timestamp and load-message placeholders filled in, then the content reloader with its load message); the three emitted assets are in the bundle `updateManifest` receives; an updater failure is thrown; otherwise the result has no timestamp entry, and, when the three names are distinct and the updater keeps the two reloader entries, it holds both reloaders with their filled-in code |
| SimpleReloader.ClientsInBundle | src/plugin-reloader-simple/index.ts:50-83 | after the three emissions the bundle holds the timestamp file and both reloaders under their names, and every other entry looks up as before |
| SimpleReloader.TimestampDropped | src/plugin-reloader-simple/index.ts:137 | after the delete no entry has the timestamp path, every other entry is still there, and the entries before and after the timestamp keep their order |
| ChromeExtension.Translate | src/index.ts:67-82 | the manifest plugin's and the html plugin's "no script" messages become "A Chrome extension must have at least one script or HTML file."; any other error is rethrown unchanged |
| ChromeExtension.TranslateIdempotent | src/index.ts:67-82 | rewording an already reworded error changes nothing |
| ChromeExtension.EmptyFileErrorKept | src/index.ts:80-82 | the manifest plugin's empty-file error is neither "no script" message, so it is rethrown unchanged |
| ChromeExtension.OptionsFoldSnoc | src/index.ts:62-66 | the last sub-plugin's `options` acts on what the earlier ones produced, falling back to the original options on a falsy result |
| ChromeExtension.OptionsFoldSpec | src/index.ts:62-66 | the reduce throws only what some sub-plugin threw and yields the original options or some sub-plugin's result; a falsy last result yields the original options whatever came before |
| ChromeExtension.ChromeOptions | src/index.ts:60-84 | `options` succeeds exactly when the reduce does, with the reduce's result |
| ChromeExtension.ChromeOptionsErrors | src/index.ts:67-82 | a failing `options` throws the rewording of an error some sub-plugin threw, never either "no script" message |
| ChromeExtension.ChromeExtensionPlugin.constructor | src/index.ts:50 | the manifest plugin starts with an empty cache |
| ChromeExtension.ChromeExtensionPlugin.Options | src/index.ts:60-84 | the manifest plugin's cache goes through its `options`: the permission hash, the read files, the asset flag and `chunkFileNames` stay; a cached manifest keeps the manifest, `input`, `assets`, `srcDir` and the manifest path; with nothing cached, a non-path input is a `TypeError` and an empty manifest file the rethrown empty-file error, both leaving the cache untouched, and a loaded file stores its manifest, its path, a `srcDir` and the derived `input` and `assets`; a manifest without scripts becomes the extension-wide message; otherwise the result is the reduce over the manifest plugin's options (with `input` as a record) and the html plugin |
| ChromeExtension.ChromeExtensionPlugin.WatchChange | src/index.ts:93-96 | the change goes to the manifest plugin's cache: a manifest id drops the manifest and clears the asset flag, any other id sets the flag exactly when the file was read and forgets the file; `assets`, `input`, the permission hash, `srcDir`, the manifest path and `chunkFileNames` stay |
| ChromeExtension.ChromeExtensionPlugin.GenerateBundle | src/index.ts:98-101 | the manifest plugin runs first: the permission hash and asset flag take the detection step's values, the warnings are the detection's warnings followed by any manifest schema errors, and its error ends the hook; the name validation runs only after it succeeded, and its error is thrown; the manifest, `assets`, `input`, `srcDir`, the read files, the manifest path and `chunkFileNames` stay |
| Strings.Sort | src/plugin-contentScriptResources.ts:230 | `matches.sort()` is sorted and a permutation of the matches |
| ManifestParser.ValidateDistinct | src/manifest-input/manifest-parser/index.ts:109-113 | a bucket is duplicate-free once its names are joined onto `srcDir` |
| ManifestParser.ValidateDisjoint | src/manifest-input/manifest-parser/index.ts:101-113 | buckets built from disjoint name lists stay disjoint once joined onto `srcDir` |

## Left out

- File-system reads and writes: the memoised `readFile` and the asset emission of the manifest-input `buildStart` (src/manifest-input/index.ts:99-106, 197-223); the missing-asset copy of the manifest plugin (packages/vite-plugin/src/node/plugin-manifest.ts:293-329); the reloader's `writeBundle` (src/plugin-reloader-simple/index.ts:141-156). The `readFile` cache is modelled as a set of ids, which is what `watchChange` reads.
- JSON serialisation and parsing. The manifest is a datatype, `JSON.stringify` of the permissions is modelled as keeping the list (`PermsHash`), and the emitted JSON text is a `stringify` parameter. The `.[jt]sx?"` rewrite of the serialised text (src/manifest-input/index.ts:389-393) works on text that is not modelled.
- The text of a caught `ValidationError` and the `this.error` detail lines: validation failures are a list of messages returned as warnings.
- Console output, `this.warn` and the `picocolors` red text: warnings are returned as values.
- The `configResolved` monkey-patching of Vite's hooks (src/plugin-contentScriptResources.ts:263-295). Only its `getResources` closure is modelled.
- ContentScriptResources.Collect: the rollup `getResources` (src/plugin-contentScriptResources.ts:406-430) has no visited guard. The model gives each graph a rank and follows an edge only when the rank goes down, so it always terminates. The properties (`CollectReaches`, `RollupImportsTransitive`) assume an acyclic graph, where every edge goes down and the guard never blocks. A cyclic chunk graph, on which the source recurses without end, is not modelled.
- Character order stands for JavaScript's UTF-16 code-unit order in `matches.sort()`.
- `Set` identity: strings are compared by value, as JavaScript does for primitive strings. In a `web_accessible_resources` list every MV3 entry is taken to be a distinct object, so `WarSet.DedupeWar` never drops one. The same entry object listed twice, which no modelled code produces, would be kept twice.
- `isMV2` is defined outside the shown files and is taken as `manifest_version == 2`.
- `validateManifest`, `combinePerms`, `reduceToRecord`, `stubUrl`, `generateFileNames`, `glob`, cosmiconfig, cheerio, `normalizePath`, the path helpers, the permission detectors, `emitFile` and `getFileName` are parameters. Nothing about their code is modelled beyond the contract each use needs.
- The html-inputs and validate-names plugins are not part of this model. `ChromeExtension` takes the html plugin's `options` and the validation's `generateBundle` as function parameters; their `buildStart` and `watchChange` are left out.
- `buildStart` of `chromeExtension` runs two promises with `Promise.all`. Their interleaving, and async ordering in general, is left out; the hooks are modelled in the order they are written.
- `Date.now`, `toTimeString` and `ROLLUP_WATCH` are inputs.
- The network, browser and timer clients (worker HMR client, fetch handler, reloader clients, Firebase push reloader) are not part of this model.
- The Vite dev-server wiring (plugin-hmr, src/node/index.ts, plugin-options) is not part of this model.
- The per-file asset lifecycle machine (`files-asset.machine`) is not part of this model. Only the event creators and the HTML parser that feeds it are modelled.
- The manifest as `ManifestV3Export` may be a function of the Vite env; the model takes the resolved manifest.
- The serve branch of the manifest plugin's `transform` calls an `add` that is never defined (packages/vite-plugin/src/node/plugin-manifest.ts:216-232). `PluginManifest.ServeLoaders` models only its outcome, a `ReferenceError` whenever some content script has a js file.
- ContentScriptWar.UpdateResourcesFromDeclaredScripts, ContentScriptWar.UpdateResourcesFromDynamicScripts and the other `web_accessible_resources` passes require the field to be present; the drivers set it to `[]` first (src/plugin-contentScriptResources.ts:302-303, 401-403).
- ContentScriptWar.DeclaredScripts: a declared script without `matches` contributes the empty list as its MV3 `matches`; the source states that `matches` is always defined.
- ContentScriptWar.DynamicScripts: the `dynamicScriptResources` map of the source is never written to, so the model has no "already handled" skip.
- ManifestParser.DeriveFiles and ManifestParser.DeriveFilesBuckets build the MV3 img bucket with the corrected `IconValues` (see Findings). As written, a string `action.default_icon` contributes its characters instead; `ImgSourcesAsWritten` and `ImgSourcesAsWrittenSpec` state that bucket, but the derived file lists do not use it.
- ManifestParser.ImgSourcesSpec states the MV3 bucket with the corrected action-icon values, not the as-written `Object.values` of lines 93-95. It differs only for a string icon, which `ImgSourcesAsWrittenSpec` covers.
- ManifestParser.DeriveFiles requires `web_accessible_resources` to have the shape its schema version demands (strings for MV2, entries for MV3); the source's types assume the same.
- ManifestParser.DeriveFilesBuckets requires `join(srcDir, ·)` to be injective. `path.join` normalises, so two different names can join to the same path, and the buckets are then not duplicate-free.
- ManifestInput.Cache.Options requires a freshly loaded manifest to pass `WarShapeFits`, for the same reason as `DeriveFiles`.
- ManifestInput.DetectPermissions: the stored hash is a list of names, so a `permsHash` that does not parse to an array is not modelled.
- PluginManifest.WriteManifest: when the bundle already holds a `manifest.json` entry that is a chunk rather than an asset, the source writes `source` onto that chunk; the model states the result only for an asset or a missing entry.
- PluginManifest.ManifestPlugin.Transform and GenerateBundle require the resolved config, which `configResolved` sets before any build hook runs.
- PluginBackground.BackgroundPlugin.RenderCrxManifest: `getFileName` of the emitted loader asset is its fixed file name `service-worker-loader.js`; the emission itself is not modelled.
- `Object.assign(_internalCache, cache)` (src/plugin-reloader-simple/index.ts:86): the exported copy of the reloader cache is not modelled; `ReloaderCache` is the only copy.
- SimpleReloader.Enabled: a plugin that is absent is modelled by the caller checking `Enabled` before it builds the cache.

## Findings

| source | as written | input that shows it | evidently intended | confidence | as-written member | corrected member |
|---|---|---|---|---|---|---|
| src/manifest-input/manifest-parser/index.ts:93-95 | the MV3 image bucket takes `Object.values(action.default_icon)`; for a string icon that gives its characters, not the path | an MV3 manifest whose `action.default_icon` is a string of two or more characters, such as `"icon.png"` | a string `default_icon` contributes itself, as the MV2 path does at lines 176-177 | not executed | ManifestParser.IconValuesAsWritten, ManifestParser.StringIconLostAsWritten, ManifestParser.ImgSourcesAsWrittenSpec | ManifestParser.IconValues |
