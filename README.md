# WebInit decision layer in Dafny

WebInit (`webInit.py`) scaffolds a static web page: it writes an HTML file, and
optionally a CSS and a JavaScript file, into the current directory. Each file
is rendered from a template whose placeholders (file name, author, email,
date, title, stylesheet and script references) are filled from a
configuration. Before writing, it checks whether the target files exist and,
if so, asks `run anyway? [y/n]` until it reads `y` or `n`.

This project models the part of that script that decides what happens:

- `FileNames` (filenames.dfy): Python's `str.endswith`, `str.split(".")` and
  `".".join`, the title derivation `getFnameWithoutExtension`, and the suffix
  rules the command-line block applies to the page, stylesheet and script
  names, including the `"None"` sentinel.
- `Scaffold` (scaffold.dfy): the configuration as a value (`Settings`), the
  file system as a set of existing paths and directories (`FileSystem`), the
  three placeholder maps, the asset-mode paths, the ordered side effects of
  `run()` (`Plan`), the y/n prompt over a finite sequence of answers
  (`Decide`), the whole run (`RunSpec`) and the configuration produced by the
  command line (`Configured`).
- `WebInit` (webinit.dfy): the `Config` class, whose fields the setters and
  the command-line block update in place; the `WebConstructer` class, whose
  creation checks the working directory and whose `Run` method performs the
  three existence checks and the prompt loop, then calls `Generate` for the
  directory and the writes at the end of `run()`; `ApplyArguments` for the
  `__main__` block, which hands the `--css_fname` and `--js_fname` blocks to
  `ApplyStylesheetArgument` and `ApplyScriptArgument`; and `InitWebpage` for
  the whole program.

The environment comes in as plain values: the set of existing paths replaces
`os.path.exists`/`os.path.isdir`, a sequence of console answers replaces
`input`, and the date is a string. `run()`'s side effects come back as a list
of actions: `MakeDir(dir)` for `os.mkdir`, and `Write(artifact, path,
template, fields)` for rendering a template with a placeholder map into a
file. Paths are joined with a fixed `/`.

Two behaviours of the code are easy to miss:

- The existence checks look at `wd/<main>`, `wd/<css>` and `wd/<js>`, without
  the asset prefix and whatever the include flags. So in asset mode an
  existing `wd/assets/style.css` is overwritten without a prompt
  (`Scaffold.AssetFileOverwrittenWithoutPrompt`), while a disabled
  stylesheet's default name still triggers the prompt
  (`Scaffold.PromptIffTargetExists`).
- The page's stylesheet and script references are always the configured
  names, even when those files are disabled; after `"None"` they are the
  defaults `style.css` and `script.js` (`Scaffold.HtmlFields`,
  `Scaffold.Configured`).

## Model

| member | source | states |
|---|---|---|
| `FileNames.Split` | webInit.py:10 | `split(".")` always returns at least one piece |
| `FileNames.SplitPiecesHaveNoDot` | webInit.py:10 | no piece of `split(".")` contains a dot |
| `FileNames.Join` | webInit.py:10 | splitting the `".".join` of one or more dot-free pieces gives those pieces back |
| `FileNames.StripExtension` | webInit.py:9-10 | `getFnameWithoutExtension` returns exactly the text before the last dot, or "" when there is no dot |
| `FileNames.LastDot` | webInit.py:9-10 | reference definition of the title split: the index of the last `.`, every later character is not a dot, -1 when there is none |
| `FileNames.JoinSplit` | webInit.py:10 | joining the pieces of `split(".")` with `"."` gives the original string back |
| `FileNames.SplitAtLastDot` | webInit.py:10 | the pieces before the last one are the split of the text before the last dot, and the last piece is the text after it; without a dot the split is the whole string |
| `FileNames.StripExtensionRebuildsName` | webInit.py:9-10 | with a dot, result + "." + last segment is the input and the last segment has no dot; without a dot, the result is "" |
| `FileNames.StripKnownExtension` | webInit.py:9-10 | a name ending in a dot-led extension with no other dot (".html", ".css", ".js") loses exactly that extension |
| `FileNames.HtmlTitle` | webInit.py:77 | for a page name ending in ".html", the title followed by ".html" is the page name |
| `FileNames.Normalize` | webInit.py:182-183 | the result ends with the extension; it is the input when the input already ends with it, otherwise the input with the extension appended once |
| `FileNames.NormalizeIdempotent` | webInit.py:182-183 | normalising twice equals normalising once |
| `FileNames.MainName` | webInit.py:169-172 | the page name always ends in ".html" |
| `FileNames.TitleRestoresMainName` | webInit.py:169-172 | the title of a normalised page name, followed by ".html", is that name |
| `FileNames.ArtifactName` | webInit.py:179-191 | "None" and only "None" disables the artifact; any other argument yields a name ending in the extension, equal to the argument or the argument plus the extension |
| `FileNames.ArtifactNameIdempotent` | webInit.py:179-191 | for ".css" and ".js", applying the rule to its own result changes nothing |
| `Scaffold.DefaultSettings` | webInit.py:19-38 | a new configuration includes CSS and JS and names the files index.html, style.css and script.js |
| `Scaffold.CommonFields` | webInit.py:93-98 | the shared placeholder map has exactly FNAME, AUTHOR, EMAIL and DATE, holding the file name, author, email and date |
| `Scaffold.HtmlFields` | webInit.py:71-80 | the page's map has exactly FNAME, AUTHOR, EMAIL, DATE, TITLE, CSS_FILE and JS_FILE; TITLE + ".html" is the page name; CSS_FILE and JS_FILE are the (asset-prefixed) names even when those files are disabled |
| `Scaffold.CssFields` | webInit.py:93-98 | the stylesheet's map has exactly the four shared keys: FNAME is the bare name, AUTHOR the author, EMAIL the email and DATE the date |
| `Scaffold.JsFields` | webInit.py:111-116 | the script's map has exactly the four shared keys: FNAME is the bare name, AUTHOR the author, EMAIL the email and DATE the date |
| `Scaffold.InitHtml` | webInit.py:60-82 | the page is rendered from the main template with exactly the page map `HtmlFields`, into `wd/<main>`, which is `wd/` followed by the map's FNAME |
| `Scaffold.InitCss` | webInit.py:84-100 | the stylesheet is rendered from the CSS template with exactly the map `CssFields` (four shared keys, FNAME the bare name), into `wd/assets/<css>` in asset mode and `wd/<css>` otherwise |
| `Scaffold.InitJs` | webInit.py:102-118 | the script is rendered from the JS template with exactly the map `JsFields` (four shared keys, FNAME the bare name), into `wd/assets/<js>` in asset mode and `wd/<js>` otherwise |
| `Scaffold.AssetModePaths` | webInit.py:61-66 | in asset mode the CSS/JS output paths and the page's CSS_FILE/JS_FILE are under `assets`, otherwise bare names; the page's references always name the files written; the CSS/JS FNAME stays bare |
| `Scaffold.PlanMakesAssetDirOnlyIfMissing` | webInit.py:143-145 | a directory is created only in asset mode when `wd/assets` is missing, only that one, and before any write |
| `Scaffold.Plan` | webInit.py:143-151 | the page is written always and first among the files, then the stylesheet exactly when CSS is included, then the script exactly when JS is included; each write is the page, stylesheet or script render of `InitHtml`/`InitCss`/`InitJs` (via `Render`) |
| `Scaffold.Render` | webInit.py:147-151 | each file is produced by its own method: the page by `initHTML`, the stylesheet by `initCSS`, the script by `initJS`; the result writes that file |
| `Scaffold.PlanTargetsStartWithWorkingDir` | webInit.py:143-151 | every directory created and every file written has a path that begins with `wd/` as text |
| `Scaffold.ParentNameLeavesWorkingDir` | webInit.py:169-172 | the page name is not checked: the name "../page" makes the page `wd/../page.html` |
| `Scaffold.Decide` | webInit.py:133-141 | the prompt stops at the first "y" (proceed) or "n" (abort), every earlier answer being neither; if there is none, all answers are neither |
| `Scaffold.SkippedAnswers` | webInit.py:133-141 | after any run of answers other than "y"/"n", the first "y" or "n" decides, and it is the last answer read |
| `Scaffold.NeedsConfirmation` | webInit.py:121-131 | confirmation is needed exactly when one of the three bare names exists under `wd` |
| `Scaffold.RunSpec` | webInit.py:120-152 | the run prompts exactly when confirmation is needed; a prompted run finishes only after reading a "y" as its last answer; it ends with the answers run out exactly when it prompted and no answer is "y" or "n"; a finished run performs exactly the plan; an aborted run, or one whose answers ran out, creates no directory and writes nothing; it never reads more answers than there are |
| `Scaffold.PromptIffTargetExists` | webInit.py:121-132 | the run prompts if and only if `wd/<main>`, `wd/<css>` or `wd/<js>` exists; without a prompt no answer is read and the run finishes |
| `Scaffold.FirstAnswerDecides` | webInit.py:133-141 | once prompted, skipped answers followed by "y" finish the run with the plan, followed by "n" abort it with no actions |
| `Scaffold.AssetFileOverwrittenWithoutPrompt` | webInit.py:121-130 | in asset mode, an existing `wd/assets/<css>` with no bare-name target present is overwritten without a prompt |
| `Scaffold.Configured` | webInit.py:169-191 | the page name gains ".html"; the asset flag is copied; "None" clears the include flag and keeps the default name; any other name gains its extension and keeps the include flag; no other field changes |
| `Scaffold.ConfiguredTitle` | webInit.py:77 | the title of a configured run, followed by ".html", is its page name |
| `Scaffold.HomeSettings` | webInit.py:161-164 | the default arguments with the name "home" select home.html, style.css and script.js outside asset mode |
| `Scaffold.HomePlan` | webInit.py:121-151 | with nothing under `/w` there is no prompt, and the plan is the page, the stylesheet and the script |
| `Scaffold.HomePage` | webInit.py:71-81 | the "home" page goes to `/w/home.html`, titled "home", referring to `style.css` and `script.js` |
| `Scaffold.HomeAssets` | webInit.py:84-118 | outside asset mode the "home" stylesheet and script go to `/w/style.css` and `/w/script.js` |
| `Scaffold.HomeExample` | webInit.py:166-193 | "home" in an empty directory writes home.html, style.css and script.js there without a prompt, titled "home" and referring to the bare names |
| `WebInit.Config.constructor` | webInit.py:19-38 | a new `Config` holds the default settings |
| `WebInit.Config.SetWorkingDir` | webInit.py:40-41 | only the working directory changes |
| `WebInit.Config.UseAssetFolder` | webInit.py:43-44 | only the asset flag changes |
| `WebInit.WebConstructer.Create` | webInit.py:53-58 | construction succeeds if and only if `wd` exists and is a directory, then with a fresh default configuration whose working directory is `wd`; otherwise it fails with the original message |
| `WebInit.WebConstructer.Run` | webInit.py:120-152 | the loop's result equals `RunSpec`: it prompts exactly when a bare-name target exists, reads answers up to the first "y" or "n", and then, through `Generate`, performs the ordered plan (proceed) or nothing (abort, answers exhausted) |
| `WebInit.WebConstructer.Generate` | webInit.py:143-151 | the actions taken after the confirmation are exactly the plan of the current configuration |
| `WebInit.ApplyArguments` | webInit.py:169-191 | the configuration afterwards is `Configured` of the one before and the arguments |
| `WebInit.ApplyStylesheetArgument` | webInit.py:180-185 | "None" clears only the CSS include flag; any other name is stored with ".css" appended unless present, and nothing else changes |
| `WebInit.ApplyScriptArgument` | webInit.py:187-191 | "None" clears only the JS include flag; any other name is stored with ".js" appended unless present, and nothing else changes |
| `WebInit.InitWebpage` | webInit.py:156-193 | the program fails exactly when the current directory is not a directory; otherwise its result is the run of the default configuration set up by the arguments |

## Left out

- Reading the templates, rendering them with `string.Template.substitute`,
  and writing the files. A write is recorded as an action carrying the
  template path and the placeholder map. So a template that names a missing
  placeholder, or a template file that is missing, fails only in the original.
- `readAuthorInfo` (reading `config.json`). The author and email are
  parameters, so a missing or malformed config file is not modelled.
- `getDate` (`datetime.now().strftime("%b %d, %Y")`). The date is a parameter
  because clock access and locale formatting cannot be verified. The three
  `getDate()` calls, one per render (webInit.py:75, 97, 115), are one value
  here, so a run that crosses midnight can date its files differently only
  in the original.
- `argparse`: the parsed arguments arrive as an `Arguments` value.
  `print`, including the "exists" messages, is left out.
- `input` and `exit`. The answers are a finite sequence. When they run out
  before a "y" or "n", the outcome is `NoAnswer` with no actions. In the
  original, `input` then raises `EOFError`, or waits for ever on a live console.
- `Scaffold.PlanTargetsStartWithWorkingDir`: states only that every target
  path begins with `wd/` as text. Names are never checked, so a page, stylesheet
  or script name containing `..` makes the original write outside the working
  directory (`Scaffold.ParentNameLeavesWorkingDir`), and so does an absolute
  name, for which `os.path.join` drops `wd` altogether.
- `os.path.join` separator rules (an absolute second part replacing the
  first, trailing separators). Paths are concatenated with `/`.
- Failures of `os.mkdir` and of the writes, for instance when `wd/assets`
  exists as a plain file. The model says only which effects are attempted.
- `WebInit.Config.constructor`: `wd` and `asset` start as "" and false.
  In the original they are unset until their setters run, and reading them
  earlier raises `AttributeError`. The program always sets both before `run()`.
- Strings are sequences of Dafny characters. Encodings and Unicode are not modelled.
