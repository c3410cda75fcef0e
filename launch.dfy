/** Start-up of the terminal visualiser (dsviz.py): the command-line
    arguments, the first load of the dataset, and the interactive choice of a
    config when the library asks for one (prompt_for_config). */
module Launch {
  import opened Text
  import opened Library

  /** One typed answer to "Select a config (1-n) or enter name directly"
      (dsviz.py:148-153). The answer is not stripped. int(choice) is the
      decimal value of choice here because isdigit() holds (see
      ParseIntOfDecimal). */
  function ResolveChoice(configs: seq<string>, choice: string): (r: Option<string>)
    // whatever is picked is one of the configs
    ensures r.Some? ==> r.value in configs
    // a number k in 1..len picks the k-th config, even when some config is called k
    ensures IsDecimal(choice) && 1 <= DecimalValue(choice) <= |configs| ==>
      r == Some(configs[DecimalValue(choice) - 1])
    // failing that, a config of exactly that name is picked
    ensures !(IsDecimal(choice) && 1 <= DecimalValue(choice) <= |configs|) ==>
      r == (if choice in configs then Some(choice) else None)
  {
    if IsDecimal(choice) && 1 <= DecimalValue(choice) <= |configs| then
      Some(configs[DecimalValue(choice) - 1])
    else if choice in configs then
      Some(choice)
    else
      None
  }

  /** The number wins: with configs "2" and "a", typing 2 picks "a". */
  lemma NumberBeatsName()
    ensures ResolveChoice(["2", "a"], "2") == Some("a")
  {
    assert IsDecimal("2") && DecimalValue("2") == 2;
  }

  /** The prompt's answer, and the input lines it left unread. */
  datatype Prompted = Prompted(config: Option<string>, rest: seq<string>)

  /** The `while True` of prompt_for_config: ask until an answer resolves.
      Running out of input raises EOFError, which the function's
      `except Exception` turns into None. */
  function AskUntilValid(configs: seq<string>, lines: seq<string>): (p: Prompted)
    ensures p.config.Some? ==> p.config.value in configs
    ensures |p.rest| <= |lines| && p.rest == lines[|lines| - |p.rest|..]
    decreases |lines|
  {
    if lines == [] then Prompted(None, [])
    else
      match ResolveChoice(configs, lines[0])
      case Some(c) => Prompted(Some(c), lines[1..])
      case None => AskUntilValid(configs, lines[1..])
  }

  /** The first answer that resolves decides, and the prompt reads nothing
      after it. */
  lemma {:induction false} AskUntilValidFirst(configs: seq<string>, lines: seq<string>, k: nat)
    requires k < |lines| && ResolveChoice(configs, lines[k]).Some?
    requires forall j :: 0 <= j < k ==> ResolveChoice(configs, lines[j]).None?
    ensures AskUntilValid(configs, lines) == Prompted(ResolveChoice(configs, lines[k]), lines[k + 1..])
  {
    if k > 0 {
      var rest := lines[1..];
      assert forall j :: 0 <= j < k - 1 ==> rest[j] == lines[j + 1];
      AskUntilValidFirst(configs, rest, k - 1);
      assert rest[k..] == lines[k + 1..];
    }
  }

  /** When no answer resolves, the input runs out and no config is chosen. */
  lemma {:induction false} AskUntilValidNone(configs: seq<string>, lines: seq<string>)
    requires forall j :: 0 <= j < |lines| ==> ResolveChoice(configs, lines[j]).None?
    ensures AskUntilValid(configs, lines) == Prompted(None, [])
  {
    if lines != [] {
      var rest := lines[1..];
      assert forall j :: 0 <= j < |rest| ==> rest[j] == lines[j + 1];
      AskUntilValidNone(configs, rest);
    }
  }

  /** prompt_for_config as a whole (dsviz.py:131-161): a failed lookup and an
      empty config list both give None without reading any input. */
  function Prompt(list: ConfigLister, name: string, lines: seq<string>): (p: Prompted)
    ensures list(name).LookupFailed? ==> p == Prompted(None, lines)
    ensures list(name).Configs? && list(name).names == [] ==> p == Prompted(None, lines)
    ensures p.config.Some? ==> list(name).Configs? && p.config.value in list(name).names
  {
    match list(name)
    case LookupFailed(_) => Prompted(None, lines)
    case Configs(configs) =>
      if configs == [] then Prompted(None, lines) else AskUntilValid(configs, lines)
  }

  /** The loop of prompt_for_config, reading one answer per line. */
  method PromptForConfig(list: ConfigLister, name: string, lines: seq<string>) returns (p: Prompted)
    ensures p == Prompt(list, name, lines)
  {
    if list(name).LookupFailed? {
      return Prompted(None, lines);
    }
    var configs := list(name).names;
    if configs == [] {
      return Prompted(None, lines);
    }
    var pos := 0;
    assert lines[pos..] == lines;
    while pos < |lines|
      invariant 0 <= pos <= |lines|
      invariant AskUntilValid(configs, lines) == AskUntilValid(configs, lines[pos..])
    {
      var choice := lines[pos];
      assert lines[pos..][1..] == lines[pos + 1..];
      pos := pos + 1;
      if IsDecimal(choice) {
        ParseIntOfDecimal(choice);
        var k := ParseInt(choice).value;
        if 1 <= k <= |configs| {
          return Prompted(Some(configs[k - 1]), lines[pos..]);
        }
      }
      if choice in configs {
        return Prompted(Some(choice), lines[pos..]);
      }
    }
    return Prompted(None, []);
  }

  /** How start-up ends: the usage text, an error that ends the program, or
      a dataset to browse. Ready keeps the config shown by the `i` command
      and the input lines not yet read. */
  datatype Startup =
    | Usage
    | NoDatasetName
    | NoConfigSelected
    | LoadFailed(error: string)
    | Ready(dataset: Dataset, datasetName: string, configName: Option<string>, rest: seq<string>)

  /** Lines 203-208: no config chosen ends the program; otherwise the
      dataset is loaded with the chosen config, and any failure of that load
      is reported by the outer handler. */
  function AfterPrompt(load: Loader, name: string, p: Prompted): (l: Startup)
    ensures l.Ready? ==>
      IsGiven(p.config) && load(name, p.config).Loaded?
      && l == Ready(load(name, p.config).dataset, name, p.config, p.rest)
    ensures !IsGiven(p.config) <==> l == NoConfigSelected
    ensures IsGiven(p.config) && load(name, p.config).Loaded? ==> l.Ready?
    ensures IsGiven(p.config) && !load(name, p.config).Loaded? ==>
      l == LoadFailed(load(name, p.config).message)
  {
    if !IsGiven(p.config) then NoConfigSelected
    else
      match load(name, p.config)
      case Loaded(ds) => Ready(ds, name, p.config, p.rest)
      case ValueError(message) => LoadFailed(message)
      case Failed(message) => LoadFailed(message)
  }

  /** Lines 194-213 once the first load has answered with first: use the
      dataset, fall back to the prompt when a config is missing and none was
      given on the command line, and report every other failure. */
  method Resume(first: LoadOutcome, load: Loader, list: ConfigLister, name: string,
                cli: Option<string>, lines: seq<string>)
    returns (l: Startup)
    ensures first.Loaded? ==> l == Ready(first.dataset, name, cli, lines)
    ensures AsksForConfig(first) && !IsGiven(cli) ==> l == AfterPrompt(load, name, Prompt(list, name, lines))
    ensures !first.Loaded? && !(AsksForConfig(first) && !IsGiven(cli)) ==> l == LoadFailed(first.message)
  {
    match first {
      case Loaded(ds) =>
        l := Ready(ds, name, cli, lines);
      case ValueError(message) =>
        if Contains(message, ConfigMissing) && !IsGiven(cli) {
          var p := PromptForConfig(list, name, lines);
          if !IsGiven(p.config) {
            l := NoConfigSelected;
          } else {
            match load(name, p.config) {
              case Loaded(ds) => l := Ready(ds, name, p.config, p.rest);
              case ValueError(m) => l := LoadFailed(m);
              case Failed(m) => l := LoadFailed(m);
            }
          }
        } else {
          l := LoadFailed(message);
        }
      case Failed(message) =>
        l := LoadFailed(message);
    }
  }

  /** args[1] if there is one (`sys.argv[2]`). */
  function CliConfig(args: seq<string>): Option<string> {
    if |args| > 1 then Some(args[1]) else None
  }

  /** main up to the command loop (dsviz.py:163-213), with args the
      arguments after the program name. The first load never passes the
      config given on the command line. */
  method LaunchVisualizer(args: seq<string>, load: Loader, list: ConfigLister, lines: seq<string>)
    returns (l: Startup)
    ensures |args| == 0 <==> l == Usage
    ensures |args| > 0 && args[0] == "" ==> l == NoDatasetName
    ensures |args| > 0 && args[0] != "" ==>
      var name := args[0];
      var first := load(name, None);
      && (first.Loaded? ==> l == Ready(first.dataset, name, CliConfig(args), lines))
      && (AsksForConfig(first) && !IsGiven(CliConfig(args)) ==>
            l == AfterPrompt(load, name, Prompt(list, name, lines)))
      // with a config on the command line, a dataset that needs one fails to load
      && (AsksForConfig(first) && IsGiven(CliConfig(args)) ==> l == LoadFailed(first.message))
      && (!first.Loaded? && !AsksForConfig(first) ==> l == LoadFailed(first.message))
    // the command-line config is never the one a dataset was loaded with
    ensures l.Ready? && IsGiven(CliConfig(args)) ==> l.dataset == load(args[0], None).dataset
  {
    if |args| < 1 {
      return Usage;
    }
    var name := args[0];
    if name == "" {
      return NoDatasetName;
    }
    var cli := CliConfig(args);
    var first := load(name, None);
    l := Resume(first, load, list, name, cli, lines);
  }

  /** Start-up as the usage text in dsviz.py's docstring intends it: a
      config given on the command line is the one the first load uses. */
  method LaunchWithCliConfig(args: seq<string>, load: Loader, list: ConfigLister, lines: seq<string>)
    returns (l: Startup)
    ensures |args| == 0 <==> l == Usage
    ensures |args| > 0 && args[0] == "" ==> l == NoDatasetName
    ensures |args| > 0 && args[0] != "" ==>
      var name := args[0];
      var first := load(name, Requested(CliConfig(args)));
      && (first.Loaded? ==> l == Ready(first.dataset, name, CliConfig(args), lines))
      && (AsksForConfig(first) && !IsGiven(CliConfig(args)) ==>
            l == AfterPrompt(load, name, Prompt(list, name, lines)))
      && (!first.Loaded? && !(AsksForConfig(first) && !IsGiven(CliConfig(args))) ==>
            l == LoadFailed(first.message))
    // a config given on the command line is the one loaded, whenever it loads
    ensures |args| > 1 && args[0] != "" && args[1] != "" && load(args[0], Some(args[1])).Loaded? ==>
      l == Ready(load(args[0], Some(args[1])).dataset, args[0], Some(args[1]), lines)
  {
    if |args| < 1 {
      return Usage;
    }
    var name := args[0];
    if name == "" {
      return NoDatasetName;
    }
    var cli := CliConfig(args);
    var first := load(name, Requested(cli));
    l := Resume(first, load, list, name, cli, lines);
  }

  /** A loader for a dataset that cannot be loaded without a config: with
      the config "all" it loads, without one it raises the library's
      ValueError. */
  function NeedsConfigLoader(ds: Dataset): Loader {
    (name: string, config: Option<string>) =>
      if config == Some("all") then Loaded(ds)
      else ValueError(ConfigMissing + ". Please pick one among the available configs: ['all']")
  }

  /** The usage example of dsviz.py's docstring, `dsviz.py
      HuggingFaceTB/smoltalk all`, for such a dataset: as written, start-up
      reports the load error; with the command-line config used, it loads. */
  method DocumentedUsage(ds: Dataset, list: ConfigLister, lines: seq<string>)
    returns (asWritten: Startup, intended: Startup)
    ensures asWritten.LoadFailed?
    ensures intended == Ready(ds, "HuggingFaceTB/smoltalk", Some("all"), lines)
  {
    var args := ["HuggingFaceTB/smoltalk", "all"];
    var load := NeedsConfigLoader(ds);
    assert AsksForConfig(load(args[0], None)) by {
      var message := ConfigMissing + ". Please pick one among the available configs: ['all']";
      assert message[0..|ConfigMissing|] == ConfigMissing;
      assert OccursAt(message, ConfigMissing, 0);
    }
    asWritten := LaunchVisualizer(args, load, list, lines);
    intended := LaunchWithCliConfig(args, load, list, lines);
  }
}
