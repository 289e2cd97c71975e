/** The decision layer of webInit.py on plain values: the configuration as a
    record, the file system as a set of existing paths, the placeholder maps
    handed to the templates, the ordered list of side effects of `run()`, the
    y/n prompt, and the command-line rules that fill in the configuration. */
module Scaffold {

  import opened Wrappers
  import opened FileNames

  /** `Config.ASSET_DIR`. */
  const AssetDir: string := "assets"
  /** `Config.TEMPLATE_DIR`. */
  const TemplateDir: string := "webInitTemplate"

  /** `os.path.join` with a fixed separator. */
  function PathJoin(dir: string, name: string): string
  {
    dir + "/" + name
  }

  predicate HasPrefix(s: string, prefix: string)
  {
    |prefix| <= |s| && s[..|prefix|] == prefix
  }

  /** The paths that exist and those of them that are directories; stands in
      for `os.path.exists` and `os.path.isdir`. */
  datatype FileSystem = FileSystem(paths: set<string>, dirs: set<string>)
  {
    predicate Exists(p: string) { p in paths }
    predicate IsDir(p: string) { p in dirs }
  }

  /** The constructor's guard: `wd` exists and is a directory. */
  predicate ValidWorkingDir(fs: FileSystem, wd: string)
  {
    fs.Exists(wd) && fs.IsDir(wd)
  }

  /** The value of every field of a `Config` object. */
  datatype Settings = Settings(
    wd: string,
    asset: bool,
    author: string,
    email: string,
    includeCss: bool,
    includeJs: bool,
    mainFname: string,
    mainTemplate: string,
    cssFname: string,
    cssTemplate: string,
    jsFname: string,
    jsTemplate: string)

  /** A freshly constructed `Config`: the template paths under the installation
      directory, the author read from its config file, CSS and JS on, and the
      default names. `wd` and `asset` have no value in the original until their
      setters run; here they start as "" and false. */
  function DefaultSettings(installDir: string, author: string, email: string): (s: Settings)
    ensures s.includeCss && s.includeJs
    ensures s.mainFname == "index.html" && s.cssFname == "style.css" && s.jsFname == "script.js"
  {
    var templateDir := PathJoin(installDir, TemplateDir);
    Settings(
      wd := "", asset := false, author := author, email := email,
      includeCss := true, includeJs := true,
      mainFname := "index.html", mainTemplate := PathJoin(templateDir, "main.template.html"),
      cssFname := "style.css", cssTemplate := PathJoin(templateDir, "style.template.css"),
      jsFname := "script.js", jsTemplate := PathJoin(templateDir, "script.template.js"))
  }

  /** How the HTML page refers to a CSS or JS file, and where that file goes
      relative to the working directory: under `assets` in asset mode. */
  function AssetRef(asset: bool, fname: string): string
  {
    if asset then PathJoin(AssetDir, fname) else fname
  }

  const HtmlKeys: set<string> := {"FNAME", "AUTHOR", "EMAIL", "DATE", "TITLE", "CSS_FILE", "JS_FILE"}
  const CommonKeys: set<string> := {"FNAME", "AUTHOR", "EMAIL", "DATE"}

  /** The placeholders shared by all three templates. */
  function CommonFields(fname: string, s: Settings, date: string): (m: map<string, string>)
    ensures m.Keys == CommonKeys
    ensures m["FNAME"] == fname && m["AUTHOR"] == s.author && m["EMAIL"] == s.email && m["DATE"] == date
  {
    map["FNAME" := fname, "AUTHOR" := s.author, "EMAIL" := s.email, "DATE" := date]
  }

  /** The map `initHTML` substitutes: the common fields of the page, its title
      and the references to the stylesheet and the script, which are there
      whether or not those files are generated. */
  function HtmlFields(s: Settings, date: string): (m: map<string, string>)
    ensures m.Keys == HtmlKeys && m["FNAME"] == s.mainFname
    ensures forall k :: k in CommonKeys ==> m[k] == CommonFields(s.mainFname, s, date)[k]
    ensures HasSuffix(s.mainFname, ".html") ==> m["TITLE"] + ".html" == s.mainFname
    ensures m["CSS_FILE"] == AssetRef(s.asset, s.cssFname) && m["JS_FILE"] == AssetRef(s.asset, s.jsFname)
  {
    HtmlTitle(s.mainFname);
    CommonFields(s.mainFname, s, date)
      ["TITLE" := StripExtension(s.mainFname)]
      ["CSS_FILE" := AssetRef(s.asset, s.cssFname)]
      ["JS_FILE" := AssetRef(s.asset, s.jsFname)]
  }

  /** The map `initCSS` substitutes: its FNAME is the bare file name. */
  function CssFields(s: Settings, date: string): (m: map<string, string>)
    ensures m.Keys == CommonKeys && m["FNAME"] == s.cssFname
    ensures m["AUTHOR"] == s.author && m["EMAIL"] == s.email && m["DATE"] == date
  {
    CommonFields(s.cssFname, s, date)
  }

  /** The map `initJS` substitutes: its FNAME is the bare file name. */
  function JsFields(s: Settings, date: string): (m: map<string, string>)
    ensures m.Keys == CommonKeys && m["FNAME"] == s.jsFname
    ensures m["AUTHOR"] == s.author && m["EMAIL"] == s.email && m["DATE"] == date
  {
    CommonFields(s.jsFname, s, date)
  }

  datatype Artifact = Html | Css | Js

  /** One side effect of `run()`: `os.mkdir`, or rendering a template with a
      placeholder map into a file (created or truncated). */
  datatype Action =
    | MakeDir(dir: string)
    | Write(artifact: Artifact, path: string, template: string, fields: map<string, string>)
  {
    function Target(): string
    {
      match this
      case MakeDir(dir) => dir
      case Write(_, path, _, _) => path
    }
  }

  /** `initHTML`: the page goes straight into the working directory, under
      the name its own map gives as FNAME. */
  function InitHtml(s: Settings, date: string): (a: Action)
    ensures a.Write? && a.artifact == Html && a.template == s.mainTemplate
    ensures a.fields == HtmlFields(s, date) && a.path == PathJoin(s.wd, s.mainFname)
  {
    Write(Html, PathJoin(s.wd, s.mainFname), s.mainTemplate, HtmlFields(s, date))
  }

  /** `initCSS`: the stylesheet goes where the page refers to it, while its
      own map names it by the bare file name. */
  function InitCss(s: Settings, date: string): (a: Action)
    ensures a.Write? && a.artifact == Css && a.template == s.cssTemplate
    ensures s.asset ==> a.path == PathJoin(PathJoin(s.wd, AssetDir), s.cssFname)
    ensures !s.asset ==> a.path == PathJoin(s.wd, s.cssFname)
    ensures a.fields == CssFields(s, date)
  {
    Write(Css, PathJoin(s.wd, AssetRef(s.asset, s.cssFname)), s.cssTemplate, CssFields(s, date))
  }

  /** `initJS`: the script goes where the page refers to it, while its own
      map names it by the bare file name. */
  function InitJs(s: Settings, date: string): (a: Action)
    ensures a.Write? && a.artifact == Js && a.template == s.jsTemplate
    ensures s.asset ==> a.path == PathJoin(PathJoin(s.wd, AssetDir), s.jsFname)
    ensures !s.asset ==> a.path == PathJoin(s.wd, s.jsFname)
    ensures a.fields == JsFields(s, date)
  {
    Write(Js, PathJoin(s.wd, AssetRef(s.asset, s.jsFname)), s.jsTemplate, JsFields(s, date))
  }

  /** With asset mode on, the stylesheet and the script are written under
      `wd/assets` and the page refers to them as `assets/<name>`; with it off
      both are bare names. Either way the page's references, taken relative to
      the working directory, are the files written, and the CSS and JS maps
      carry the bare names. */
  lemma AssetModePaths(s: Settings, date: string)
    ensures s.asset ==>
      && InitCss(s, date).path == PathJoin(s.wd, PathJoin(AssetDir, s.cssFname))
      && InitJs(s, date).path == PathJoin(s.wd, PathJoin(AssetDir, s.jsFname))
      && HtmlFields(s, date)["CSS_FILE"] == PathJoin(AssetDir, s.cssFname)
      && HtmlFields(s, date)["JS_FILE"] == PathJoin(AssetDir, s.jsFname)
    ensures !s.asset ==>
      && InitCss(s, date).path == PathJoin(s.wd, s.cssFname)
      && InitJs(s, date).path == PathJoin(s.wd, s.jsFname)
      && HtmlFields(s, date)["CSS_FILE"] == s.cssFname
      && HtmlFields(s, date)["JS_FILE"] == s.jsFname
    ensures PathJoin(s.wd, HtmlFields(s, date)["CSS_FILE"]) == InitCss(s, date).path
    ensures PathJoin(s.wd, HtmlFields(s, date)["JS_FILE"]) == InitJs(s, date).path
    ensures CssFields(s, date)["FNAME"] == s.cssFname && JsFields(s, date)["FNAME"] == s.jsFname
  {
  }

  /** The three existence checks of `run()`: on the bare names directly under
      the working directory, whatever the asset mode and the include flags. */
  predicate NeedsConfirmation(s: Settings, fs: FileSystem)
    ensures NeedsConfirmation(s, fs) <==>
      exists name :: name in [s.mainFname, s.cssFname, s.jsFname] && fs.Exists(PathJoin(s.wd, name))
  {
    fs.Exists(PathJoin(s.wd, s.mainFname))
    || fs.Exists(PathJoin(s.wd, s.cssFname))
    || fs.Exists(PathJoin(s.wd, s.jsFname))
  }

  /** What `run()` does once it may proceed: create `wd/assets` in asset mode
      when it is missing, write the page, then the stylesheet and the script
      if they are included. So the page is always written, and first among
      the files; the stylesheet follows exactly when CSS is included, then
      the script exactly when JS is included. */
  function Plan(s: Settings, fs: FileSystem, date: string): (p: seq<Action>)
    ensures Written(p) == [Html] + (if s.includeCss then [Css] else []) + (if s.includeJs then [Js] else [])
    ensures forall i :: 0 <= i < |p| && p[i].Write? ==> p[i] == Render(p[i].artifact, s, date)
  {
    var assetDir := PathJoin(s.wd, AssetDir);
    PlanPieces(s.asset && !fs.Exists(assetDir), assetDir, s, date);
    Optional(s.asset && !fs.Exists(assetDir), MakeDir(assetDir))
      + [Render(Html, s, date)]
      + Optional(s.includeCss, Render(Css, s, date))
      + Optional(s.includeJs, Render(Js, s, date))
  }

  /** The steps of `Plan`: an optional directory, the page, and the optional
      stylesheet and script write exactly the included files, in that order,
      each by its own render. */
  lemma PlanPieces(mkdir: bool, dir: string, s: Settings, date: string)
    ensures var p := Optional(mkdir, MakeDir(dir)) + [Render(Html, s, date)]
        + Optional(s.includeCss, Render(Css, s, date)) + Optional(s.includeJs, Render(Js, s, date));
      && Written(p) == [Html] + (if s.includeCss then [Css] else []) + (if s.includeJs then [Js] else [])
      && forall i :: 0 <= i < |p| && p[i].Write? ==> p[i] == Render(p[i].artifact, s, date)
  {
    var d := Optional(mkdir, MakeDir(dir));
    var h := [Render(Html, s, date)];
    var c := Optional(s.includeCss, Render(Css, s, date));
    var j := Optional(s.includeJs, Render(Js, s, date));
    WrittenOptional(mkdir, MakeDir(dir));
    WrittenOptional(true, Render(Html, s, date));
    WrittenOptional(s.includeCss, Render(Css, s, date));
    WrittenOptional(s.includeJs, Render(Js, s, date));
    WrittenPieces(d, h, c, j, s.includeCss, s.includeJs);
    RenderedPieces(d, h, c, j, s, date);
  }

  /** The write `run()` does for each file: `initHTML`, `initCSS` or `initJS`. */
  function Render(k: Artifact, s: Settings, date: string): (a: Action)
    ensures a.Write? && a.artifact == k
  {
    match k
    case Html => InitHtml(s, date)
    case Css => InitCss(s, date)
    case Js => InitJs(s, date)
  }

  /** Four consecutive groups of actions whose writes are all renders of
      their own file still have only such writes once joined. */
  lemma RenderedPieces(d: seq<Action>, h: seq<Action>, c: seq<Action>, j: seq<Action>, s: Settings, date: string)
    requires forall i :: 0 <= i < |d| ==> d[i].MakeDir?
    requires forall i :: 0 <= i < |h| ==> h[i] == Render(Html, s, date)
    requires forall i :: 0 <= i < |c| ==> c[i] == Render(Css, s, date)
    requires forall i :: 0 <= i < |j| ==> j[i] == Render(Js, s, date)
    ensures var p := d + h + c + j;
      forall i :: 0 <= i < |p| && p[i].Write? ==> p[i] == Render(p[i].artifact, s, date)
  {
    var p := d + h + c + j;
    forall i | 0 <= i < |p| && p[i].Write?
      ensures p[i] == Render(p[i].artifact, s, date)
    {
      if i < |d| {
        assert false;
      } else if i < |d| + |h| {
        assert p[i] == h[i - |d|];
      } else if i < |d| + |h| + |c| {
        assert p[i] == c[i - |d| - |h|];
      } else {
        assert p[i] == j[i - |d| - |h| - |c|];
      }
    }
  }

  /** An action taken only when `taken` holds. */
  function Optional(taken: bool, a: Action): seq<Action>
  {
    if taken then [a] else []
  }

  /** The files a list of actions writes, in order. */
  function Written(actions: seq<Action>): seq<Artifact>
  {
    if actions == [] then []
    else (if actions[0].Write? then [actions[0].artifact] else []) + Written(actions[1..])
  }

  lemma WrittenOptional(taken: bool, a: Action)
    ensures Written(Optional(taken, a)) == if taken && a.Write? then [a.artifact] else []
  {
    assert [a][1..] == [];
  }

  lemma {:induction false} WrittenConcat(a: seq<Action>, b: seq<Action>)
    ensures Written(a + b) == Written(a) + Written(b)
    decreases |a|
  {
    if a == [] {
      assert a + b == b;
    } else {
      var head := if a[0].Write? then [a[0].artifact] else [];
      assert (a + b)[0] == a[0];
      assert (a + b)[1..] == a[1..] + b;
      WrittenConcat(a[1..], b);
      assert Written(a + b) == head + (Written(a[1..]) + Written(b));
    }
  }

  /** The files written by four consecutive groups of actions, the first
      writing nothing and the second only the page. */
  lemma WrittenPieces(d: seq<Action>, h: seq<Action>, c: seq<Action>, j: seq<Action>, css: bool, js: bool)
    requires Written(d) == [] && Written(h) == [Html]
    requires Written(c) == (if css then [Css] else []) && Written(j) == (if js then [Js] else [])
    ensures Written(d + h + c + j) == [Html] + (if css then [Css] else []) + (if js then [Js] else [])
  {
    WrittenConcat(d + h + c, j);
    WrittenConcat(d + h, c);
    WrittenConcat(d, h);
  }

  /** At most one directory is created, `wd/assets`, first, and only in asset
      mode when it does not exist yet. */
  lemma PlanMakesAssetDirOnlyIfMissing(s: Settings, fs: FileSystem, date: string)
    ensures var plan := Plan(s, fs, date);
      && (|plan| > 0 && plan[0].MakeDir? <==> s.asset && !fs.Exists(PathJoin(s.wd, AssetDir)))
      && forall i :: 0 <= i < |plan| && plan[i].MakeDir? ==> i == 0 && plan[i].dir == PathJoin(s.wd, AssetDir)
  {
  }

  /** Every directory created and every file written has a path that begins
      with `wd/` as text. Names are not checked, so `..` segments in them
      still lead out of the working directory (see
      `ParentNameLeavesWorkingDir`). */
  lemma PlanTargetsStartWithWorkingDir(s: Settings, fs: FileSystem, date: string)
    ensures forall a :: a in Plan(s, fs, date) ==> HasPrefix(a.Target(), s.wd + "/")
  {
    var root := s.wd + "/";
    forall name | true ensures HasPrefix(PathJoin(s.wd, name), root) {
      assert PathJoin(s.wd, name)[..|root|] == root;
    }
  }

  /** Outcome of the y/n prompt over a finite sequence of answers: the first
      "y" proceeds, the first "n" aborts, anything else is asked again; the
      count is the number of answers read. */
  datatype Decision = Proceed(used: nat) | Abort(used: nat) | Exhausted

  predicate IsAnswer(a: string)
  {
    a == "y" || a == "n"
  }

  function Decide(answers: seq<string>): (d: Decision)
    ensures d.Proceed? ==> 1 <= d.used <= |answers| && answers[d.used - 1] == "y"
    ensures d.Abort? ==> 1 <= d.used <= |answers| && answers[d.used - 1] == "n"
    ensures !d.Exhausted? ==> forall j :: 0 <= j < d.used - 1 ==> !IsAnswer(answers[j])
    ensures d.Exhausted? ==> forall j :: 0 <= j < |answers| ==> !IsAnswer(answers[j])
  {
    if answers == [] then Exhausted
    else if answers[0] == "y" then Proceed(1)
    else if answers[0] == "n" then Abort(1)
    else match Decide(answers[1..])
      case Proceed(k) => Proceed(k + 1)
      case Abort(k) => Abort(k + 1)
      case Exhausted => Exhausted
  }

  /** Answers other than "y" and "n" are skipped: after any run of them, the
      first real answer decides, and it is the answer read last. */
  lemma {:induction false} SkippedAnswers(junk: seq<string>, a: string, rest: seq<string>)
    requires forall j :: 0 <= j < |junk| ==> !IsAnswer(junk[j])
    requires IsAnswer(a)
    ensures Decide(junk + [a] + rest) == if a == "y" then Proceed(|junk| + 1) else Abort(|junk| + 1)
    decreases |junk|
  {
    if junk != [] {
      assert (junk + [a] + rest)[1..] == junk[1..] + [a] + rest;
      SkippedAnswers(junk[1..], a, rest);
    }
  }

  datatype Outcome = Finished | Aborted | NoAnswer

  /** What `run()` reports: whether it prompted, how many answers it read,
      how it ended, and the side effects it performed, in order. */
  datatype RunResult = RunResult(prompted: bool, consumed: nat, outcome: Outcome, actions: seq<Action>)

  /** The result of `run()`: only a run that finishes has side effects, and
      then exactly the plan; an abort, or answers that run out, create no
      directory and write nothing. */
  function RunSpec(s: Settings, fs: FileSystem, answers: seq<string>, date: string): (r: RunResult)
    ensures r.prompted == NeedsConfirmation(s, fs)
    ensures r.outcome == Finished ==> r.actions == Plan(s, fs, date)
    ensures r.outcome != Finished ==> r.actions == []
    ensures r.consumed <= |answers|
    ensures r.prompted && r.outcome == Finished ==> 1 <= r.consumed && answers[r.consumed - 1] == "y"
    ensures r.outcome == NoAnswer <==> r.prompted && forall j :: 0 <= j < |answers| ==> !IsAnswer(answers[j])
  {
    if !NeedsConfirmation(s, fs) then RunResult(false, 0, Finished, Plan(s, fs, date))
    else match Decide(answers)
      case Proceed(k) => RunResult(true, k, Finished, Plan(s, fs, date))
      case Abort(k) => RunResult(true, k, Aborted, [])
      case Exhausted => RunResult(true, |answers|, NoAnswer, [])
  }

  /** `run()` prompts exactly when the page, the stylesheet name or the script
      name already exists directly under the working directory; the asset
      prefix and the include flags play no part. Without a prompt no answer
      is read and the run completes. */
  lemma PromptIffTargetExists(s: Settings, fs: FileSystem, answers: seq<string>, date: string)
    ensures var r := RunSpec(s, fs, answers, date);
      && (r.prompted <==>
           fs.Exists(PathJoin(s.wd, s.mainFname)) || fs.Exists(PathJoin(s.wd, s.cssFname))
           || fs.Exists(PathJoin(s.wd, s.jsFname)))
      && (!r.prompted ==> r.consumed == 0 && r.outcome == Finished)
  {
  }

  /** Once prompted, the first "y" or "n" after any number of other answers
      decides the run, and no further answer is read. */
  lemma FirstAnswerDecides(s: Settings, fs: FileSystem, junk: seq<string>, a: string, rest: seq<string>, date: string)
    requires NeedsConfirmation(s, fs)
    requires forall j :: 0 <= j < |junk| ==> !IsAnswer(junk[j])
    requires IsAnswer(a)
    ensures var r := RunSpec(s, fs, junk + [a] + rest, date);
      && r.consumed == |junk| + 1
      && (a == "y" ==> r.outcome == Finished && r.actions == Plan(s, fs, date))
      && (a == "n" ==> r.outcome == Aborted && r.actions == [])
  {
    SkippedAnswers(junk, a, rest);
  }

  /** In asset mode the existence checks look at `wd/<name>` while the
      stylesheet is written to `wd/assets/<name>`: when only the latter
      exists, it is overwritten without a prompt. */
  lemma AssetFileOverwrittenWithoutPrompt(s: Settings, fs: FileSystem, answers: seq<string>, date: string)
    requires s.asset && s.includeCss
    requires fs.Exists(PathJoin(s.wd, PathJoin(AssetDir, s.cssFname)))
    requires !fs.Exists(PathJoin(s.wd, s.mainFname)) && !fs.Exists(PathJoin(s.wd, s.cssFname))
    requires !fs.Exists(PathJoin(s.wd, s.jsFname))
    ensures var r := RunSpec(s, fs, answers, date);
      && !r.prompted && r.outcome == Finished
      && exists i :: 0 <= i < |r.actions| && r.actions[i].Write? && r.actions[i].artifact == Css
           && fs.Exists(r.actions[i].path)
  {
    var r := RunSpec(s, fs, answers, date);
    var assetDir := PathJoin(s.wd, AssetDir);
    var d := if !fs.Exists(assetDir) then [MakeDir(assetDir)] else [];
    assert r.actions[|d| + 1] == InitCss(s, date);
  }

  /** The page name is used as given: a name "../page" makes the page
      `wd/../page.html`, which lies in the parent of the working directory. */
  lemma ParentNameLeavesWorkingDir(d: Settings, args: Arguments, date: string)
    requires args.name == "../page"
    ensures InitHtml(Configured(d, args), date).path == PathJoin(d.wd, "../page.html")
  {
    ParentPageName();
    var c := Configured(d, args);
    assert c.wd == d.wd && c.mainFname == "../page.html";
    assert InitHtml(c, date).path == PathJoin(c.wd, c.mainFname);
  }

  lemma ParentPageName()
    ensures MainName("../page") == "../page.html"
  {
    assert !HasSuffix("../page", ".html");
  }

  /** The parsed command line. */
  datatype Arguments = Arguments(name: string, asset: bool, cssFname: string, jsFname: string)

  /** The command line with only the page name given: CSS "style", JS "script". */
  function DefaultArguments(name: string): Arguments
  {
    Arguments(name, false, "style", "script")
  }

  /** The configuration after the command-line block: the page name gains
      ".html", the asset flag is copied, and "None" switches CSS or JS off and
      keeps its default name, while any other name gains its extension. */
  function Configured(s: Settings, args: Arguments): (c: Settings)
    ensures c.mainFname == MainName(args.name) && c.asset == args.asset
    ensures args.cssFname == Disabled ==> !c.includeCss && c.cssFname == s.cssFname
    ensures args.cssFname != Disabled ==>
      c.includeCss == s.includeCss && c.cssFname == Normalize(args.cssFname, ".css")
    ensures args.jsFname == Disabled ==> !c.includeJs && c.jsFname == s.jsFname
    ensures args.jsFname != Disabled ==>
      c.includeJs == s.includeJs && c.jsFname == Normalize(args.jsFname, ".js")
    ensures c.(mainFname := s.mainFname, asset := s.asset, includeCss := s.includeCss,
               cssFname := s.cssFname, includeJs := s.includeJs, jsFname := s.jsFname) == s
  {
    var c := s.(mainFname := MainName(args.name), asset := args.asset);
    var c := match ArtifactName(args.cssFname, ".css")
      case None => c.(includeCss := false)
      case Some(n) => c.(cssFname := n);
    match ArtifactName(args.jsFname, ".js")
      case None => c.(includeJs := false)
      case Some(n) => c.(jsFname := n)
  }

  /** The page title of a configured run, followed by ".html", is the page
      name. */
  lemma ConfiguredTitle(s: Settings, args: Arguments, date: string)
    ensures HtmlFields(Configured(s, args), date)["TITLE"] + ".html" == Configured(s, args).mainFname
  {
  }

  /** The default arguments with the name "home" select home.html,
      style.css and script.js, all included, outside asset mode. */
  lemma HomeSettings(d: Settings)
    ensures var c := Configured(d, DefaultArguments("home"));
      c == d.(mainFname := "home.html", asset := false, cssFname := "style.css", jsFname := "script.js")
  {
    assert Normalize("home", ".html") == "home.html" by {
      assert !HasSuffix("home", ".html");
    }
    assert Normalize("style", ".css") == "style.css" by {
      assert !HasSuffix("style", ".css");
    }
    assert Normalize("script", ".js") == "script.js" by {
      assert !HasSuffix("script", ".js");
    }
  }

  /** The page of the "home" example and its references. */
  lemma HomePage(s: Settings, date: string)
    requires s.wd == "/w" && !s.asset
    requires s.mainFname == "home.html" && s.cssFname == "style.css" && s.jsFname == "script.js"
    ensures InitHtml(s, date).path == "/w/home.html" && InitHtml(s, date).fields["TITLE"] == "home"
    ensures InitHtml(s, date).fields["CSS_FILE"] == "style.css" && InitHtml(s, date).fields["JS_FILE"] == "script.js"
  {
    var m := HtmlFields(s, date);
    assert InitHtml(s, date).fields == m;
    HomeTitle();
    ExamplePaths();
  }

  /** The title of "home.html" is "home". */
  lemma HomeTitle()
    ensures StripExtension("home.html") == "home"
  {
    StripKnownExtension("home.html", ".html");
    assert "home.html"[..4] == "home";
  }

  /** The three file paths of the "home" example. */
  lemma ExamplePaths()
    ensures PathJoin("/w", "home.html") == "/w/home.html"
    ensures PathJoin("/w", "style.css") == "/w/style.css"
    ensures PathJoin("/w", "script.js") == "/w/script.js"
  {
  }

  /** The stylesheet and script of the "home" example. */
  lemma HomeAssets(s: Settings, date: string)
    requires s.wd == "/w" && !s.asset && s.cssFname == "style.css" && s.jsFname == "script.js"
    ensures InitCss(s, date).path == "/w/style.css" && InitJs(s, date).path == "/w/script.js"
  {
    ExamplePaths();
  }

  /** Running with only the name "home" in a working directory that holds
      nothing yet writes home.html, style.css and script.js there, and the
      page refers to the bare file names. */
  lemma HomeExample(installDir: string, author: string, email: string, date: string)
    ensures var s := Configured(DefaultSettings(installDir, author, email).(wd := "/w"), DefaultArguments("home"));
      var r := RunSpec(s, FileSystem({"/w"}, {"/w"}), [], date);
      && !r.prompted && r.outcome == Finished
      && |r.actions| == 3
      && r.actions[0].Write? && r.actions[0].path == "/w/home.html"
      && r.actions[0].fields["TITLE"] == "home"
      && r.actions[0].fields["CSS_FILE"] == "style.css" && r.actions[0].fields["JS_FILE"] == "script.js"
      && r.actions[1].Write? && r.actions[1].path == "/w/style.css"
      && r.actions[2].Write? && r.actions[2].path == "/w/script.js"
  {
    var d := DefaultSettings(installDir, author, email).(wd := "/w");
    HomeSettings(d);
    var s := Configured(d, DefaultArguments("home"));
    HomePlan(s, date);
    HomePage(s, date);
    HomeAssets(s, date);
  }

  /** In the "home" example nothing exists yet, so there is no prompt, and
      the plan is the three writes. */
  lemma HomePlan(s: Settings, date: string)
    requires s.wd == "/w" && !s.asset && s.includeCss && s.includeJs
    requires s.mainFname == "home.html" && s.cssFname == "style.css" && s.jsFname == "script.js"
    ensures !NeedsConfirmation(s, FileSystem({"/w"}, {"/w"}))
    ensures Plan(s, FileSystem({"/w"}, {"/w"}), date) == [InitHtml(s, date), InitCss(s, date), InitJs(s, date)]
  {
    assert |PathJoin("/w", "home.html")| != |"/w"|;
    assert |PathJoin("/w", "style.css")| != |"/w"|;
    assert |PathJoin("/w", "script.js")| != |"/w"|;
  }
}
