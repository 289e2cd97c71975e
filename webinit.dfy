/** The objects of webInit.py: `Config`, whose fields the setters and the
    command-line block update in place, and `WebConstructer`, whose
    constructor checks the working directory and whose `run()` checks for
    existing files, asks for confirmation and performs its side effects in
    order. The file system, the console answers and the date are parameters;
    the side effects come back as a list of actions. */
module WebInit {

  import opened Wrappers
  import opened FileNames
  import opened Scaffold

  class Config {
    var wd: string
    var asset: bool
    var author: string
    var authorEmail: string
    var includeCss: bool
    var includeJs: bool
    var mainFname: string
    var mainTemplate: string
    var cssFname: string
    var cssTemplate: string
    var jsFname: string
    var jsTemplate: string

    /** The current value of every field. */
    function Values(): Settings
      reads this
    {
      Settings(wd, asset, author, authorEmail, includeCss, includeJs,
               mainFname, mainTemplate, cssFname, cssTemplate, jsFname, jsTemplate)
    }

    /** `Config()`: the author and email are what `readAuthorInfo` reads from
        the installation's config file. */
    constructor (installDir: string, author: string, email: string)
      ensures Values() == DefaultSettings(installDir, author, email)
    {
      var templateDir := PathJoin(installDir, TemplateDir);
      wd, asset := "", false;
      this.author, authorEmail := author, email;
      includeCss, includeJs := true, true;
      mainFname := "index.html";
      mainTemplate := PathJoin(templateDir, "main.template.html");
      cssFname := "style.css";
      cssTemplate := PathJoin(templateDir, "style.template.css");
      jsFname := "script.js";
      jsTemplate := PathJoin(templateDir, "script.template.js");
    }

    method SetWorkingDir(wd: string)
      modifies this
      ensures Values() == old(Values()).(wd := wd)
    {
      this.wd := wd;
    }

    method UseAssetFolder(flag: bool)
      modifies this
      ensures Values() == old(Values()).(asset := flag)
    {
      asset := flag;
    }
  }

  class WebConstructer {
    const config: Config

    constructor (config: Config)
      ensures this.config == config
    {
      this.config := config;
    }

    /** `WebConstructer(wd)`: a fresh configuration, kept only when `wd`
        exists and is a directory; otherwise the construction fails with the
        original's message. */
    static method Create(wd: string, fs: FileSystem, installDir: string, author: string, email: string)
      returns (r: Result<WebConstructer, string>)
      ensures r.Success? <==> ValidWorkingDir(fs, wd)
      ensures r.Failure? ==> r.error == "Abort, " + wd + " is not a valid directory."
      ensures r.Success? ==> fresh(r.value) && fresh(r.value.config)
      ensures r.Success? ==> r.value.config.Values() == DefaultSettings(installDir, author, email).(wd := wd)
    {
      var config := new Config(installDir, author, email);
      if fs.Exists(wd) && fs.IsDir(wd) {
        config.SetWorkingDir(wd);
        var w := new WebConstructer(config);
        r := Success(w);
      } else {
        r := Failure("Abort, " + wd + " is not a valid directory.");
      }
    }

    /** `run()`: the three existence checks, the y/n loop over `answers`, then
        the asset directory and the writes. Whatever the answers, it either
        acts exactly as planned or (on "n", or when the answers run out)
        does nothing. */
    method Run(fs: FileSystem, answers: seq<string>, date: string) returns (r: RunResult)
      ensures r == RunSpec(config.Values(), fs, answers, date)
    {
      var s := config.Values();
      var safeRun := true;
      if fs.Exists(PathJoin(config.wd, config.mainFname)) {
        safeRun := false;
      }
      if fs.Exists(PathJoin(config.wd, config.cssFname)) {
        safeRun := false;
      }
      if fs.Exists(PathJoin(config.wd, config.jsFname)) {
        safeRun := false;
      }

      assert safeRun == !NeedsConfirmation(s, fs);

      var read := 0;
      if !safeRun {
        while true
          invariant 0 <= read <= |answers|
          invariant forall j :: 0 <= j < read ==> !IsAnswer(answers[j])
          decreases |answers| - read
        {
          if read == |answers| {
            return RunResult(true, read, NoAnswer, []);
          }
          var ans := answers[read];
          if IsAnswer(ans) {
            assert answers == answers[..read] + [ans] + answers[read + 1..];
            SkippedAnswers(answers[..read], ans, answers[read + 1..]);
          }
          read := read + 1;
          if ans == "y" {
            break;
          }
          if ans == "n" {
            return RunResult(true, read, Aborted, []);
          }
        }
      }

      var actions := Generate(fs, date);
      r := RunResult(!safeRun, read, Finished, actions);
    }

    /** The part of `run()` after the confirmation: `wd/assets` when asset
        mode is on and it is missing, then the page, the stylesheet if
        included and the script if included, in that order. */
    method Generate(fs: FileSystem, date: string) returns (actions: seq<Action>)
      ensures actions == Plan(config.Values(), fs, date)
    {
      var s := config.Values();
      actions := [];
      if config.asset {
        if !fs.Exists(PathJoin(config.wd, AssetDir)) {
          actions := actions + [MakeDir(PathJoin(config.wd, AssetDir))];
        }
      }
      ghost var assetDir := PathJoin(s.wd, AssetDir);
      ghost var d := Optional(s.asset && !fs.Exists(assetDir), MakeDir(assetDir));
      ghost var c := Optional(s.includeCss, InitCss(s, date));
      ghost var j := Optional(s.includeJs, InitJs(s, date));
      assert actions == d;
      actions := actions + [InitHtml(s, date)];
      if config.includeCss {
        actions := actions + [InitCss(s, date)];
      }
      assert actions == d + [InitHtml(s, date)] + c;
      if config.includeJs {
        actions := actions + [InitJs(s, date)];
      }
      assert actions == d + [InitHtml(s, date)] + c + j;
    }
  }

  /** The `__main__` block after argument parsing: it sets the page name, the
      asset flag, and for CSS and JS either clears the include flag ("None")
      or stores the name with its extension. */
  method ApplyArguments(web: WebConstructer, args: Arguments)
    modifies web.config
    ensures web.config.Values() == Configured(old(web.config.Values()), args)
  {
    var config := web.config;
    if HasSuffix(args.name, ".html") {
      config.mainFname := args.name;
    } else {
      config.mainFname := args.name + ".html";
    }

    if args.asset {
      config.UseAssetFolder(true);
    } else {
      config.UseAssetFolder(false);
    }
    assert config.Values() == old(config.Values()).(mainFname := MainName(args.name), asset := args.asset);

    ApplyStylesheetArgument(config, args.cssFname);
    ApplyScriptArgument(config, args.jsFname);
  }

  /** The `--css_fname` block: "None" clears the include flag, any other name
      is stored with ".css" appended unless it is already there. */
  method ApplyStylesheetArgument(config: Config, cssFname: string)
    modifies config
    ensures config.Values() == match ArtifactName(cssFname, ".css")
      case None => old(config.Values()).(includeCss := false)
      case Some(n) => old(config.Values()).(cssFname := n)
  {
    if cssFname == Disabled {
      config.includeCss := false;
    } else {
      var name := cssFname;
      if !HasSuffix(name, ".css") {
        name := name + ".css";
      }
      config.cssFname := name;
    }
  }

  /** The `--js_fname` block: "None" clears the include flag, any other name
      is stored with ".js" appended unless it is already there. */
  method ApplyScriptArgument(config: Config, jsFname: string)
    modifies config
    ensures config.Values() == match ArtifactName(jsFname, ".js")
      case None => old(config.Values()).(includeJs := false)
      case Some(n) => old(config.Values()).(jsFname := n)
  {
    if jsFname == Disabled {
      config.includeJs := false;
    } else {
      var name := jsFname;
      if !HasSuffix(name, ".js") {
        name := name + ".js";
      }
      config.jsFname := name;
    }
  }

  /** The whole program: construct in the current directory, apply the
      command line, run. It fails exactly when the current directory is not
      a directory; otherwise its result is that of the configured run. */
  method InitWebpage(cwd: string, fs: FileSystem, installDir: string, author: string, email: string,
                     args: Arguments, answers: seq<string>, date: string)
    returns (r: Result<RunResult, string>)
    ensures r.Failure? <==> !ValidWorkingDir(fs, cwd)
    ensures r.Success? ==>
      r.value == RunSpec(Configured(DefaultSettings(installDir, author, email).(wd := cwd), args), fs, answers, date)
  {
    var made := WebConstructer.Create(cwd, fs, installDir, author, email);
    if made.Failure? {
      return Failure(made.error);
    }
    var web := made.value;
    ApplyArguments(web, args);
    var result := web.Run(fs, answers, date);
    r := Success(result);
  }
}
