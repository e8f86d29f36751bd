# GMod Lua entity creator, modelled in Dafny

The editor extension adds one command, `extension.createEntity`, to a folder in
the explorer. The command asks the user for an entity's settings through a row
of input boxes and quick picks. It then creates a directory named after the
entity's class and writes three Garry's Mod Lua scripts into it:
`cl_init.lua`, `init.lua` and `shared.lua`. Each script is a JavaScript
template literal with some of the settings spliced in.

The model has five modules:

- `Js` (`js.dfy`): the bits of JavaScript the code leans on. `Option`
  stands for a value that may be `undefined`. `Truthy`, `Or` and `OrElse` model
  `||` on strings. `Render` is what `${x}` prints, so `undefined` gives
  `"undefined"`.
- `Text` (`text.dfy`): substring occurrence and template literals.
  - `Fill(strings, values)` is a literal's value: its fixed strings with the
    values spliced in between, verbatim.
  - `Unfill` reads the values back when they hold no double quote.
  - `Join` writes a fixed string as its lines.
- `Settings` (`settings.dfy`): `promptForEntitySettings` as a function of the
  user's answers. Answer k goes to the k-th prompt shown; `None` is a dismissed
  prompt. The function returns the settings record (or nothing) and the prompts
  that were shown.
- `Templates` (`templates.dfy`): the three generators. Every template is
  written out character for character, as lists of lines, and the generated
  text is `Fill` of those strings.
- `Scaffold` (`scaffold.dfy`): `createEntity` and the command's callback.
  - The file system is a tree of directories and files.
  - The class `FileSystem` holds the directories and files. `existsSync` is
    its predicate `ExistsSync`, read off the current snapshot. `mkdirSync` and
    `writeFileSync` are its methods, each proved against a function on the
    snapshot (`Mkdir`, `WriteFile`).
  - `createEntity` is a method proved against `CreateEntitySpec`, and the
    lemmas about that function state its outcome.

What the code does, and so what the model does, in four places where one
might expect otherwise:

- An entity directory that already exists is reused. The code only checks
  `existsSync` before `mkdirSync`, and then overwrites the three files; it does
  not fail with "already exists". If a *file* sits at that path,
  `writeFileSync` fails instead.
- The class name is not checked for path separators, and the entity type is
  whatever string the quick pick gave. Only the exact string `"Prop"` selects
  the Prop templates.
- Not every field ends up with a concrete value. The 3D-name text falls
  back to the raw print-name answer, so it can stay `undefined` or `""` even
  though the print name is defaulted to `"New Entity"`.
- A failing file-system call throws. No error message is shown, and the
  success message appears only when every call succeeded.
- When the command runs without a folder (from the command palette),
  `folder.fsPath` throws after the prompts, so nothing is created. The model
  takes the folder as an `Option`.

## Model

| member | source | states |
|---|---|---|
| Settings.PromptForEntitySettings | src/extension.ts:16-50 | A missing or empty class name yields no settings after one prompt. Otherwise the record keeps the class name and has every defaulted field non-empty. The prompts shown are class name, print name, category, type, 3D name, then, only when the 3D name is shown, the text box pre-filled with the raw print-name answer and the font box pre-filled with "DermaLarge", then the model path. |
| Settings.CancelIgnoresLaterAnswers | src/extension.ts:17-20 | Once the class name is missing or empty, no later answer changes the outcome. |
| Settings.OnlyShownPromptsMatter | src/extension.ts:16-50 | Two answer scripts that agree on every prompt shown give the same outcome. |
| Settings.DefaultsApplied | src/extension.ts:22-48 | A missing or empty print name, category, type or model path gives way to "New Entity", "Other", "Prop" or ""; any other answer is kept verbatim. The model path is the last answer shown, and the class name passes through unchanged. |
| Settings.ThreeDNameResolved | src/extension.ts:28-36 | The 3D name is shown exactly for the answer "Yes". Without it the font is "DermaLarge" and the text is the raw print-name answer. With it, an empty font falls back to "DermaLarge" and an empty text falls back to the raw print-name answer. |
| Settings.TextPromptPrefilled | src/extension.ts:34 | The 3D-name text box is pre-filled with the raw print-name answer. |
| Text.FillHoldsValue | src/extension.ts:117-134 | Each substituted value appears verbatim in the literal's value, at its offset. |
| Text.FillHoldsValueTwice | src/extension.ts:74-102 | Two different substitutions land in order and do not overlap. |
| Text.FillHoldsInContext | src/extension.ts:168-175 | A value is spliced in between the end of the fixed string before it and the start of the one after it. |
| Text.FillConfined | src/extension.ts:74-102 | When every substitution sits between double quotes, a quote-free text in the value lies inside one fixed string or inside one value. |
| Text.FillHoldsOnlyValues | src/extension.ts:117-160 | A quote-free text with a character that no fixed string has occurs in the value exactly when one of the values holds it. |
| Text.UnfillFill | src/extension.ts:168-186 | With quote-free values and quoted substitutions, reading the value back gives the values: the literal loses nothing. |
| Templates.ClInitWithLabel | src/extension.ts:73-102 | With the 3D name shown, the font and the rendered text each appear at two places at least. The font goes into surface.SetFont and the text into surface.GetTextSize. |
| Templates.ClInitLabelPlacement | src/extension.ts:84-95 | With the 3D name shown, the label is drawn within the squared distance 10000, in a box padded by 5 and 2, on a 2D camera. |
| Templates.ClInitWithoutLabel | src/extension.ts:103-110 | Without the 3D name, cl_init.lua is one fixed text whatever the other settings are. It has no cam.Start3D2D and no distance check. |
| Templates.InitForProp | src/extension.ts:116-128 | The Prop init.lua starts by sending cl_init.lua. It puts the model path into SetModel, uses PhysicsInit(SOLID_VPHYSICS) and drops to the floor. |
| Templates.PropInitPlaysNoSequence | src/extension.ts:116-134 | The Prop init.lua holds "LookupSequence" exactly when the model path does. |
| Templates.InitForOtherTypes | src/extension.ts:135-154 | Any other type's init.lua starts with include("shared.lua"). It puts the model path into SetModel, uses PhysicsInitStatic(SOLID_BBOX), looks up "idle_all_01" and defines SetCustomModel. |
| Templates.OtherInitHasNoDynamicPhysics | src/extension.ts:135-160 | The other init.lua holds "PhysicsInit(SOLID_VPHYSICS)" exactly when the model path does. |
| Templates.InitRevealsProp | src/extension.ts:113-162 | Two settings with the same init.lua agree on whether the type is exactly "Prop". |
| Templates.SharedDeclarations | src/extension.ts:164-187 | Both shared.lua variants declare the print name and the category verbatim, each on its own line, and set Spawnable and AdminSpawnable to true. |
| Templates.SharedBase | src/extension.ts:167-180 | Prop's shared.lua starts with ENT.Type and derives from base_gmodentity. Any other type's starts with AddCSLuaFile() and derives from base_anim. |
| Templates.GeneratorsReadOnlyTheirFields | src/extension.ts:70-165 | cl_init.lua depends only on the 3D-name fields. init.lua depends only on the type and the model path. shared.lua depends only on the type, print name and category. |
| Templates.ClInitReadsBack | src/extension.ts:85-99 | Quote-free font and text are read back from the labelled cl_init.lua in the order they are spliced. |
| Templates.InitReadsBack | src/extension.ts:123-140 | A quote-free model path is read back from init.lua. |
| Templates.SharedReadsBack | src/extension.ts:171-183 | A quote-free print name and category are read back from shared.lua. |
| Templates.SharedDeterminesNames | src/extension.ts:164-187 | Quote-free settings of one type with the same shared.lua have the same print name and category. |
| Templates.SharedUnescaped | src/extension.ts:171-183 | Without escaping, a quote in the print name can forge the category line: two different print names give the same shared.lua. |
| Scaffold.WriteAllOutcome | src/extension.ts:63-65 | A run of writes succeeds exactly when every target's parent is a directory and no target is a directory. It leaves the directories alone and stores every write. |
| Scaffold.WriteAllTouchesOnlyTargets | src/extension.ts:63-65 | A run of writes changes no path it does not write. |
| Scaffold.WriteAllKeepsWellFormed | src/extension.ts:63-65 | A run of writes keeps the tree well formed. |
| Scaffold.CreateEntityOutcome | src/extension.ts:53-68 | createEntity succeeds exactly when the directory exists, or nothing is at its path and the folder is a directory, and no script path is a directory. On success the directory is present and the three files hold the generated texts. |
| Scaffold.CreateEntityInFreshFolder | src/test/suite/extension.test.ts:10-36 | In a folder with nothing named after the class, createEntity succeeds and leaves the directory and its three files in place. |
| Scaffold.CreateEntityTouchesOnlyEntity | src/extension.ts:53-68 | No file outside the three scripts changes, and the only directory that can appear is the entity's. |
| Scaffold.CreateEntityIdempotent | src/extension.ts:54-57 | Running createEntity again with the same settings succeeds and changes nothing: the directory is reused and the files are rewritten with the same texts. |
| Scaffold.CreateEntityKeepsWellFormed | src/extension.ts:53-68 | createEntity keeps the file-system tree well formed. |
| Scaffold.FileSystem.MkdirSync | src/extension.ts:56 | mkdirSync fails with "already exists" when something is at the path and with "no parent" when the parent is not a directory; otherwise it adds the directory. |
| Scaffold.FileSystem.WriteFileSync | src/extension.ts:63-65 | writeFileSync fails on a directory or when the parent is missing; otherwise it creates or replaces the file. |
| Scaffold.CreateEntity | src/extension.ts:53-68 | The method's status and new state are those of CreateEntitySpec on the old state, for the generated texts. |
| Scaffold.WriteEntityFiles | src/extension.ts:63-65 | The three sequential writes end as WriteAll of the three entity files: a failing write stops the rest. |
| Scaffold.RunCreateEntityCommand | src/extension.ts:5-14 | The command shows the prompts of promptForEntitySettings. Without settings, or without a folder, nothing changes and no message appears. With both, the file system ends as CreateEntitySpec says, and "Entity created successfully!" appears exactly when it succeeded. |

## Left out

- Extension activation, command registration and `context.subscriptions` are not modelled: they only hook the callback into the editor.
- The editor's input boxes and quick picks are replaced by a script of answers, and the information message is a returned value.
- `await`, promises and the order of events in the editor are not modelled. The command runs its steps in sequence, and `createEntity` is called without being awaited.
- `path.join` is modelled as appending one segment. Normalisation of `..`, `.` and separators inside the class name is not modelled.
- File-system failures other than a parent that is not a directory, a directory in the way and an existing path (permissions, a full disk) are not modelled. A missing parent (ENOENT) and a file used as a parent (ENOTDIR) are one error, `NoParentDirectory`. The file system is a set of directory paths and a map from file paths to contents.
- The Lua scripts are treated as text; what Garry's Mod does with them is outside the model.
- Templates.ClInitWithLabel: states that some lines and values occur in the generated text, not the whole text. The template is written out in full as `LabelClInit`.
- Templates.ClInitLabelPlacement: states that some fixed lines occur, not the whole text.
- Templates.InitForProp: states the first line and some lines that occur, not the whole text. The template is written out in full as `PropInit`.
- Templates.InitForOtherTypes: states the first line and some lines that occur, not the whole text. The template is written out in full as `EntityInit`.
- Templates.SharedDeclarations: states the declaration lines that occur, not the whole text.
- Templates.SharedBase: states the first line and the base-class line, not the whole text.
