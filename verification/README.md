# Orebfuscator world reader, modelled in Dafny

Orebfuscator hides ores from X-ray clients. It is configured per world in the
"Worlds" section of the plugin's configuration file. The world reader turns
that section into five things:

- four category configurations: Default, Normal, TheEnd and Nether;
- a map from lower-cased world names to their own configurations.

Each section of "Worlds" declares categories in its "Types" list and world
names in its "Names" list. Each category is resolved as follows:

- It is read from the first section whose "Types" names it.
- If no section names it, a section is created at a free path and filled
  with the category's built-in defaults.
- Normal, TheEnd and Nether then take every setting they leave unset from
  the Default configuration.

An adopted section is read with saving only for the Default category, which
writes the bootstrap values it falls back to back into the file; a section
adopted for Normal, TheEnd or Nether is read without saving. A created
section is always written: the created Default section gets its "Types" and
every bootstrap value, and a factory section gets its "Types" and its three
material defaults (Mode1Block, RandomBlocks, ObfuscateBlocks). Named worlds
are read without saving, and the first section that names a world wins.
The darkness, obfuscate and proximity block sets are held as membership
tables: 256 slots when newly allocated, while a table read over an existing
one keeps that table's length. The random blocks stay a list of ids. Only the
factories' obfuscate tables are filtered, by a global transparency table; a
table read from the file has a slot set exactly when its id is listed.

The project has two layers.

- **Value functions.** Each reader is a function from the store (the
  configuration, as a map from dotted paths to values) to the value read and
  the store after the read. These are in modules `Settings`, `Materials`,
  `BlockTables`, `Paths`, `WorldTypes`, `Records` and `Resolution`.
- **Imperative classes.** The world reader (`Reader.WorldReader`) and the
  configuration objects it fills in (`WorldConfigs.WorldConfig`,
  `WorldConfigs.ProximityHiderConfig`) are classes whose fields the methods
  update. Tables are arrays that are overwritten in place. Each method is
  proved equal to the value function that describes it. `Snapshot()` is the
  value of a configuration object.

Modules, in dependency order:

- `ConfigStore` (store.dfy) — the store and its `get`/`set`/typed getters.
- `Settings` (settings.dfy) — `getInt`, `getBoolean`, `getStringList`.
- `Materials` (materials.dfy) — the material reader, as a codec.
- `BlockTables` (block_tables.dfy) — both `setBlockValues` overloads and
  `isBlockTransparent`.
- `Paths` (paths.dfy) — `createPath`.
- `WorldTypes` (world_types.dfy) — `parseWorldTypes`.
- `Records` (records.dfy) — configuration records, the `init` cascade and
  the factories' constants.
- `Resolution` (resolution.dfy) — `readBlockMatrix`, `readProximityHider`,
  `readWorld`, the factories, `readWorldByType`, `readWorldsByName` and
  `load`, as values.
- `WorldConfigs` (world_config.dfy) — the configuration classes.
- `Reader` (reader.dfy) — the world reader class.
- `Persistence` (persistence.dfy) — what the saving reads of a created
  section leave in the store.
- `Fields` (fields.dfy) — what each of the fifteen settings of any section
  reads as, and what a saving read writes back, when the section holds some
  settings and lacks others.

In the table below, every source path is
`Plugin/src/main/java/com/lishid/orebfuscator/config/WorldReader.java`.

## Model

| member | source | states |
|---|---|---|
| Settings.Clamp | Plugin/src/main/java/com/lishid/orebfuscator/config/WorldReader.java:347-354 | The clamped value lies in [min, max]. A value already in range is unchanged. Below min gives min; above max gives max. |
| Settings.IntSetting | Plugin/src/main/java/com/lishid/orebfuscator/config/WorldReader.java:340-357 | A present path gives its stored integer, clamped, and leaves the store alone. An absent path gives the clamped default, or nothing when there is no default. The default is written to the path only when saving is asked for. Any result lies in [min, max]. |
| Settings.BoolSetting | Plugin/src/main/java/com/lishid/orebfuscator/config/WorldReader.java:359-369 | A present path gives its stored boolean and leaves the store alone. An absent path gives the default. The default is written back exactly when saving is asked for. |
| Settings.StringListSetting | Plugin/src/main/java/com/lishid/orebfuscator/config/WorldReader.java:371-381 | A present path gives its stored list. An absent path without saving gives the default, which may be null, and leaves the store alone. An absent path with saving writes the default and returns a list that is never null (empty for a null default). |
| Materials.MaterialIdSetting | Plugin/src/main/java/com/lishid/orebfuscator/config/WorldReader.java:183 | The material reader's assumed contract, as `readWorld` relies on it. Without saving the store is untouched. A present path resolves its stored value. An absent path gives the default, which is written in stored form only when saving is asked for and there is a default. |
| Materials.MaterialIdsSetting | Plugin/src/main/java/com/lishid/orebfuscator/config/WorldReader.java:224 | The same contract for id lists, as `readBlockMatrix` relies on it. |
| BlockTables.MembershipTable | Plugin/src/main/java/com/lishid/orebfuscator/config/WorldReader.java:318-324 | Slot i of the table says exactly whether i is in the list; the table has the requested length. |
| BlockTables.SetBlockValues | Plugin/src/main/java/com/lishid/orebfuscator/config/WorldReader.java:318-324 | After the loop the whole array is the membership table of the list, over the array's own length. |
| BlockTables.TableIds | Plugin/src/main/java/com/lishid/orebfuscator/config/WorldReader.java:182 | The id list of a table, which `readWorld` passes as the default for a table read, holds exactly the set slots. |
| BlockTables.TableIdsRoundTrip | Plugin/src/main/java/com/lishid/orebfuscator/config/WorldReader.java:182 | Rebuilding a table from its own id list gives the same table. So a table read whose path is absent, and which therefore falls back to the table's own ids, changes nothing. |
| BlockTables.MembershipTableIds | Plugin/src/main/java/com/lishid/orebfuscator/config/WorldReader.java:318-324 | The id list of a table built from a list is exactly the listed ids that fit the table. Ids out of range are lost. |
| BlockTables.IsBlockTransparent | Plugin/src/main/java/com/lishid/orebfuscator/config/WorldReader.java:383-392 | An id in 0..255 reads its slot. A negative id reads the slot 256 higher. An id of 256 or more is opaque. |
| BlockTables.FilteredTable | Plugin/src/main/java/com/lishid/orebfuscator/config/WorldReader.java:326-338 | Slot i is set exactly when i is listed and i's transparency equals the required one. |
| BlockTables.FilteredWithinPlain | Plugin/src/main/java/com/lishid/orebfuscator/config/WorldReader.java:326-338 | Filtering only clears slots: every slot set in the filtered table is set in the plain one. |
| BlockTables.SetBlockValuesFiltered | Plugin/src/main/java/com/lishid/orebfuscator/config/WorldReader.java:326-338 | After the loop the whole array is the filtered table of the list. |
| Paths.FreeIndex | Plugin/src/main/java/com/lishid/orebfuscator/config/WorldReader.java:85-87 | The probe ends. It stops at an absent candidate, and every candidate before it is present. |
| Paths.FreePath | Plugin/src/main/java/com/lishid/orebfuscator/config/WorldReader.java:81-90 | The chosen path is absent from the store. It is `path.key` followed by some counter n (none for n = 0), and every earlier candidate is present. |
| Paths.CreatePath | Plugin/src/main/java/com/lishid/orebfuscator/config/WorldReader.java:81-90 | The probing loop returns exactly that first free path. It terminates because numbered candidates longer than every key cannot be present. |
| WorldTypes.ParseWorldType | Plugin/src/main/java/com/lishid/orebfuscator/config/WorldReader.java:152-165 | A string parses to category t exactly when it equals t's label ignoring case. A string matching no label gives nothing. |
| WorldTypes.LabelsApart | Plugin/src/main/java/com/lishid/orebfuscator/config/WorldReader.java:154-161 | No string matches two labels, so the order of the label tests does not matter. |
| WorldTypes.LabelRoundTrip | Plugin/src/main/java/com/lishid/orebfuscator/config/WorldReader.java:154-161 | Each label, written in capitals (as the factories write it) or in lower case, parses back to its category. |
| WorldTypes.ParsedTypes | Plugin/src/main/java/com/lishid/orebfuscator/config/WorldReader.java:148-171 | The parsed list is never longer than the input. |
| WorldTypes.ParsedTypesAppend | Plugin/src/main/java/com/lishid/orebfuscator/config/WorldReader.java:151-168 | Parsing distributes over concatenation, so the output keeps the input's order. |
| WorldTypes.ParsedTypesContains | Plugin/src/main/java/com/lishid/orebfuscator/config/WorldReader.java:99 | A category is in the parsed list exactly when some entry of the list equals its label ignoring case. This is the `contains` test of `readWorldByType`. |
| WorldTypes.ParseWorldTypes | Plugin/src/main/java/com/lishid/orebfuscator/config/WorldReader.java:148-171 | The loop, which skips unsupported entries, returns exactly the parsed list. |
| Records.Merge | Plugin/src/main/java/com/lishid/orebfuscator/config/WorldReader.java:127 | The `init(baseWorld)` cascade. Without a base the record is unchanged. With a base every field, the proximity settings included, is the record's own value where it sets one and the base's value where it does not (`Inherits`). Tables stay 256 slots. |
| Records.FactoryOf | Plugin/src/main/java/com/lishid/orebfuscator/config/WorldReader.java:246-316 | Each factory's "Types" label is its category's label. Its forced obfuscate id is its Mode1 block, inside the table. |
| Records.FactoryObfuscateTable | Plugin/src/main/java/com/lishid/orebfuscator/config/WorldReader.java:256-260 | A factory's obfuscate table sets exactly its signature id, plus its listed ids that are not transparent. |
| Records.FactoryRecord | Plugin/src/main/java/com/lishid/orebfuscator/config/WorldReader.java:262-267 | A factory's configuration has full-size tables. |
| Resolution.BlockMatrix | Plugin/src/main/java/com/lishid/orebfuscator/config/WorldReader.java:222-235 | With no ids resolved, the table is returned as it was, missing or not. Otherwise it becomes the membership table of the ids. It keeps its own length, or 256 slots when it was missing. The store is the one the id read left. |
| Resolution.ReadProximity | Plugin/src/main/java/com/lishid/orebfuscator/config/WorldReader.java:201-220 | Without saving the store is untouched. Distance lies in [2, 64] and EndY in [0, 255]. A full-size table stays full size. The value of each setting is stated by `Fields.ProximityRead`. |
| Resolution.ReadWorldSettings | Plugin/src/main/java/com/lishid/orebfuscator/config/WorldReader.java:178-185 | Without saving the store is untouched. The proximity settings are not touched by these eight reads. The air-generator chance lies in [40, 100]. Table sizes are preserved. The value of each setting is stated by `Fields.SettingsRead`. |
| Resolution.ReadWorldRecord | Plugin/src/main/java/com/lishid/orebfuscator/config/WorldReader.java:173-199 | Without saving the store is untouched. Every integer setting lies in its clamp range. Full-size tables stay full size. The value of each setting is stated by `Fields.ReadWorldRecordFields`. |
| Resolution.AbsentProximityKept | Plugin/src/main/java/com/lishid/orebfuscator/config/WorldReader.java:201-220 | Reading the proximity settings of an absent section without saving gives back the current settings unchanged. |
| Resolution.AbsentSectionKept | Plugin/src/main/java/com/lishid/orebfuscator/config/WorldReader.java:173-199 | Reading an absent section without saving gives back the configuration unchanged, store included. This is the default-persistence contract seen from a read that does not save. |
| Resolution.CreateDefault | Plugin/src/main/java/com/lishid/orebfuscator/config/WorldReader.java:237-244 | The created default configuration has full-size tables and clamped settings. Its values and the store it leaves are stated by `Persistence.DefaultPersisted`. |
| Resolution.CreateFactory | Plugin/src/main/java/com/lishid/orebfuscator/config/WorldReader.java:246-316 | A factory configuration has the category's Mode1 block and random list. Its obfuscate table is the filtered one with the signature id set. With those three fields cleared it is the empty record: every other field is unset. The section's "Types" is the category's label. |
| Resolution.FirstDeclaring | Plugin/src/main/java/com/lishid/orebfuscator/config/WorldReader.java:95-108 | When the search finds a section, it is the first among the keys whose "Types" list names the category. Otherwise no section names it. |
| Resolution.AdoptedRecord | Plugin/src/main/java/com/lishid/orebfuscator/config/WorldReader.java:99-106 | Only the Default category saves: adopting a section for any other category leaves the store unchanged. Tables are full size. |
| Resolution.FallbackRecord | Plugin/src/main/java/com/lishid/orebfuscator/config/WorldReader.java:110-125 | A created category configuration has full-size tables. |
| Resolution.WorldByType | Plugin/src/main/java/com/lishid/orebfuscator/config/WorldReader.java:92-130 | When a section declares the category, the result is the first such section's record, cascaded from the base; for a non-Default category the store is unchanged. Otherwise it is the created section's record, cascaded from the base. With a base, each field is the own record's value where it sets one and the base's value elsewhere. |
| Resolution.FactoryFallback | Plugin/src/main/java/com/lishid/orebfuscator/config/WorldReader.java:110-125 | When no section declares a non-Default category, its section is created at a path that was free. The result carries the factory's Mode1 block, random list and signature id. Exactly its non-transparent listed ids are obfuscated. The new section's "Types" is the category's label. |
| Resolution.BindNames | Plugin/src/main/java/com/lishid/orebfuscator/config/WorldReader.java:139-145 | Names already bound keep their configuration. Each lower-cased name of the list is bound. Only newly bound names get the section's record. |
| Resolution.BindSection | Plugin/src/main/java/com/lishid/orebfuscator/config/WorldReader.java:132-146 | The same for a section's whole "Names" list. A missing or empty list binds nothing. |
| Resolution.BindAll | Plugin/src/main/java/com/lishid/orebfuscator/config/WorldReader.java:66-68 | After the loop over the keys, a name is bound exactly when it was bound before or some section among the keys names it. Earlier bindings are kept. |
| Resolution.FirstBinderWins | Plugin/src/main/java/com/lishid/orebfuscator/config/WorldReader.java:66-68 | Suppose a name is unbound and section i is the first to name it. Then it ends up bound to section i's record. |
| Resolution.Categories | Plugin/src/main/java/com/lishid/orebfuscator/config/WorldReader.java:59-62 | The four calls of `load`: Normal, TheEnd and Nether each have, field by field, their own section's value where it sets one and the Default configuration's value elsewhere, each own section read from the store the previous category left (`Cascades`). No names are bound yet. |
| Resolution.Load | Plugin/src/main/java/com/lishid/orebfuscator/config/WorldReader.java:53-68 | After a load the three categories cascade from the default field by field, as in `Categories`. A name is bound exactly when some section named it, in the store as the categories left it. |
| Resolution.LoadFirstBinderWins | Plugin/src/main/java/com/lishid/orebfuscator/config/WorldReader.java:64-68 | After a load, a name maps to the record of the first listed section that names it. |
| Resolution.AdoptedAbsentInherited | Plugin/src/main/java/com/lishid/orebfuscator/config/WorldReader.java:99-106 | A category other than Default adopted from a section takes the base's value for every field whose path the section leaves out, the proximity settings included. |
| Resolution.LoadNormalAbsentInherited | Plugin/src/main/java/com/lishid/orebfuscator/config/WorldReader.java:59-62 | After a load, a Normal category adopted from a section has the Default configuration's value in every field whose path that section leaves out. |
| Resolution.AdoptedPresentOverrides | Plugin/src/main/java/com/lishid/orebfuscator/config/WorldReader.java:99-106 | A category other than Default adopted from a section takes, for every field whose path the section holds, the stored value: the boolean, the integer clamped to its range, the id or ids the stored names resolve to, or the membership table of the stored ids (the base's table when none resolve). |
| Resolution.LoadNormalPresentOverrides | Plugin/src/main/java/com/lishid/orebfuscator/config/WorldReader.java:59-62 | After a load, a Normal category adopted from a section has that section's stored value in every field whose path the section holds. |
| Persistence.SettingsWritten | Plugin/src/main/java/com/lishid/orebfuscator/config/WorldReader.java:178-185 | Reading with saving the eight own settings of a section that holds only its "Types" returns the starting values unchanged and writes each set one back in stored form; nothing already stored changes, and the proximity part stays absent. |
| Persistence.ProximityWritten | Plugin/src/main/java/com/lishid/orebfuscator/config/WorldReader.java:201-220 | Reading with saving the proximity settings where there are none returns them unchanged and writes each set one back in stored form; nothing already stored changes. |
| Persistence.DefaultPersisted | Plugin/src/main/java/com/lishid/orebfuscator/config/WorldReader.java:237-244 | On a free path, the created default configuration is exactly the bootstrap record. The section's "Types" is `["DEFAULT"]`, and every bootstrap value that is set is stored under its path, the proximity settings included. |
| Persistence.DefaultFallbackPersisted | Plugin/src/main/java/com/lishid/orebfuscator/config/WorldReader.java:110-125 | When no section declares Default, the default category is exactly the bootstrap record, and its set values are written under the created section. |
| Persistence.FactoryPersisted | Plugin/src/main/java/com/lishid/orebfuscator/config/WorldReader.java:250-254 | On a free path, a factory writes its category's Mode1 block, random blocks and obfuscate blocks, in stored form, under the new section. |
| Fields.SettingsRead | Plugin/src/main/java/com/lishid/orebfuscator/config/WorldReader.java:178-185 | Any section, any starting record, with or without saving. Each of the eight own settings the section holds reads as its stored value: boolean, clamped integer, resolved id or ids, or the membership table of the stored ids sized as the starting table (the starting table when none resolve). Each one it lacks keeps the starting value (an integer clamped). A saving read writes it back under its path in stored form. Entries already stored never change, and every key added is a setting of the section. |
| Fields.ProximityRead | Plugin/src/main/java/com/lishid/orebfuscator/config/WorldReader.java:201-220 | The same for the seven proximity settings under `.ProximityHider`, from any store that answers for them as the file does. Distance is clamped to [2, 64] and EndY to [0, 255]. |
| Fields.ReadWorldRecordFields | Plugin/src/main/java/com/lishid/orebfuscator/config/WorldReader.java:173-199 | `readWorld` over a starting record: all fifteen settings read as stated by `SettingsRead` and `ProximityRead`, the proximity reads seeing the file as it was even after the eight own settings were written back. Every value written back is still there at the end, and nothing already stored changes. |
| Fields.AdoptedDefaultFields | Plugin/src/main/java/com/lishid/orebfuscator/config/WorldReader.java:99-106 | The Default category adopted from a section, read over the bootstrap record with saving. Each setting the section holds gives its stored value. Each it lacks keeps the bootstrap value and is written back into that section in stored form. Nothing already stored changes. |
| WorldConfigs.WorldConfig.Init | Plugin/src/main/java/com/lishid/orebfuscator/config/WorldReader.java:127 | The configuration becomes the cascade of itself over the base. The base is unchanged. Tables are kept or freshly allocated, never shared. |
| Reader.WorldReader.GetInt | Plugin/src/main/java/com/lishid/orebfuscator/config/WorldReader.java:340-357 | The value and the new store are those of `Settings.IntSetting`. |
| Reader.WorldReader.GetBoolean | Plugin/src/main/java/com/lishid/orebfuscator/config/WorldReader.java:359-369 | The value and the new store are those of `Settings.BoolSetting`. |
| Reader.WorldReader.GetStringList | Plugin/src/main/java/com/lishid/orebfuscator/config/WorldReader.java:371-381 | The value and the new store are those of `Settings.StringListSetting`. |
| Reader.WorldReader.ReadBlockMatrix | Plugin/src/main/java/com/lishid/orebfuscator/config/WorldReader.java:222-235 | The table and store are those of `Resolution.BlockMatrix`. A caller's array is overwritten in place and returned. A new 256-slot array is allocated only when there was none. |
| Reader.WorldReader.ReadProximityHider | Plugin/src/main/java/com/lishid/orebfuscator/config/WorldReader.java:201-220 | The proximity configuration and the store are those of `Resolution.ReadProximity`. |
| Reader.WorldReader.ReadWorld | Plugin/src/main/java/com/lishid/orebfuscator/config/WorldReader.java:173-199 | The configuration (the given one, or a fresh one for null) and the store are those of `Resolution.ReadWorldRecord`. |
| Reader.WorldReader.CreateDefaultWorld | Plugin/src/main/java/com/lishid/orebfuscator/config/WorldReader.java:237-244 | A fresh configuration and the store, as `Resolution.CreateDefault`. |
| Reader.WorldReader.CreateFactoryWorld | Plugin/src/main/java/com/lishid/orebfuscator/config/WorldReader.java:246-316 | A fresh configuration and the store, as `Resolution.CreateFactory`, for each of the three factories. |
| Reader.WorldReader.FactoryTable | Plugin/src/main/java/com/lishid/orebfuscator/config/WorldReader.java:256-260 | A fresh 256-slot array holding the factory's obfuscate table. |
| Reader.WorldReader.FindWorld | Plugin/src/main/java/com/lishid/orebfuscator/config/WorldReader.java:93-125 | The search loop and the fallback switch give the category's own record before the cascade. |
| Reader.WorldReader.ReadWorldByType | Plugin/src/main/java/com/lishid/orebfuscator/config/WorldReader.java:92-130 | A fresh configuration and the store, as `Resolution.WorldByType`. The base configuration is unchanged. |
| Reader.WorldReader.ReadWorldsByName | Plugin/src/main/java/com/lishid/orebfuscator/config/WorldReader.java:132-146 | The name map becomes `Resolution.BindSection` of the previous one. The store is unchanged. |
| Reader.WorldReader.BindAllNames | Plugin/src/main/java/com/lishid/orebfuscator/config/WorldReader.java:139-145 | The name loop: the map becomes `Resolution.BindNames` of the previous one. |
| Reader.WorldReader.ReadCategories | Plugin/src/main/java/com/lishid/orebfuscator/config/WorldReader.java:59-62 | The four configurations and the store are those of `Resolution.Categories`. |
| Reader.WorldReader.ReadAllByName | Plugin/src/main/java/com/lishid/orebfuscator/config/WorldReader.java:64-68 | The name map becomes `Resolution.BindAll` over the keys, starting empty. Other configurations are unchanged. |
| Reader.WorldReader.Load | Plugin/src/main/java/com/lishid/orebfuscator/config/WorldReader.java:53-68 | The four category fields and the name map hold exactly the configurations of `Resolution.Load`. The store is the one it leaves. The key set is read once, before any section is created. |

## Left out

- Logging of unsupported world types (line 163) is not modelled; an unsupported entry is skipped as in the code.
- The configuration file is a map from full dotted paths to values. A path is present when it holds a value or when a key lies below it, as a section does. Loading and saving the file are not modelled.
- The section's `getKeys(false)` is an input sequence of keys to `Load`, in the order the file lists them. A missing "Worlds" section is the empty sequence.
- The material reader's name tables are not part of this model. It is a codec of four total functions, with the contract `readWorld` relies on.
- The `WorldConfig` and `ProximityHiderConfig` constructors are not part of this model. `new WorldConfig()` is assumed to leave every field unset (no value, no table), which is `Records.EmptyWorld` and the `WorldConfigs.WorldConfig` constructor.
- `WorldConfig.setDefaults()` is not part of this model. The values it installs are an input record held by the reader.
- `WorldConfig.init(baseWorld)` is not part of this model. It is assumed to fill every unset field from the base and to copy inherited tables into new arrays, so no two configurations share an array.
- The block-id getters of `WorldConfig` are not part of this model. They are assumed to list a table's set slots in ascending order.
- The transparency table from `OrebfuscatorConfig.getTransparentBlocks()` is an input of 256 entries.
- The calls that hand the results to `OrebfuscatorConfig` (lines 70-74) are not modelled; the results stay in the reader's fields.
- The name map is a plain map. Weak references and garbage collection of a `WeakHashMap` are not modelled.
- `equalsIgnoreCase` and `toLowerCase` fold ASCII capitals only. Locale-dependent folding is not modelled.
- Paths.CreatePath: the counter is unbounded. The source's 32-bit `int` counter could in principle overflow, which the model does not capture.
- BlockTables.IsBlockTransparent: requires an id of at least -256. Below that the source indexes the table with a negative id and throws, which the model does not capture.
- BlockTables.SetBlockValuesFiltered: requires an array of at most 32768 slots. Beyond that the source's `(short)` cast wraps the index, which the model does not capture. Every array the reader passes has 256 slots.
- `createNormalWorld`, `createEndWorld` and `createNetherWorld` are one member, `Reader.WorldReader.CreateFactoryWorld`, parameterised by each category's constants (`Records.FactoryOf`).
- The factories filter their obfuscate lists with a required transparency of `false`, so only opaque listed ids are kept (lines 258, 282 and 306); the model follows the code.
