/** The three JSON endpoints of app.py: /api/get_configs, /api/load_dataset
    and /api/get_example. Each turns the library's outcome into one response
    envelope; no exception reaches the web server. */
module Api {
  import opened Text
  import opened Records
  import opened Library
  import opened Json

  /** The `info` object of a successful load. */
  datatype Info = Info(numExamples: nat, features: seq<string>, datasetName: string, configName: Option<string>)

  /** The JSON envelopes the endpoints answer with. */
  datatype Response =
    /** {success: true, configs} */
    | ConfigList(configs: seq<string>)
    /** {success: true, info, examples} */
    | DatasetLoaded(info: Info, examples: seq<Record>)
    /** {success: false, error, need_config: true, configs, message} */
    | ConfigNeeded(error: string, configs: seq<string>, message: string)
    /** {success: true, example, index, total} */
    | Example(example: Record, index: int, total: nat)
    /** {success: false, error} */
    | Failure(error: string)
  {
    /** The envelope's `success` field. */
    predicate Success() {
      ConfigList? || DatasetLoaded? || Example?
    }
  }

  /** How many records a successful load sends along. */
  const BatchSize := 10

  /** The `message` of a need-config envelope. */
  const ConfigPrompt := "\U{1F50D} This dataset requires a configuration!"

  function Min(a: int, b: int): int {
    if a <= b then a else b
  }

  /** The load_dataset call both data endpoints make for a request. */
  function Attempt(load: Loader, name: string, config: Option<string>): LoadOutcome {
    load(name, Requested(config))
  }

  /** The first min(10, len) records of a dataset, normalised: the
      `examples` of a successful load. */
  function FirstBatch(rows: seq<Record>): (b: seq<Entries>)
    ensures |b| == Min(BatchSize, |rows|)
    ensures forall i :: 0 <= i < |b| ==> b[i] == Normalized(rows[i])
  {
    seq(Min(BatchSize, |rows|), i requires 0 <= i < Min(BatchSize, |rows|) => Normalized(rows[i]))
  }

  /** The `examples` list as jsonify meets it: a list of dicts. */
  function ExamplesValue(examples: seq<Entries>): (v: Value)
    ensures v.List? && |v.items| == |examples|
    ensures forall i :: 0 <= i < |examples| ==> v.items[i] == Dict(examples[i])
  {
    List(seq(|examples|, i requires 0 <= i < |examples| => Dict(examples[i])))
  }

  /** The error text of a single fetch outside the dataset. */
  function OutOfRange(index: int, total: nat): string {
    "Index " + IntToString(index) + " out of range (0-" + IntToString(total - 1) + ")"
  }

  /** /api/get_configs (app.py:13-27): the config names, or the lookup's
      error text. */
  function GetConfigs(list: ConfigLister, name: string): (r: Response)
    ensures r.Success() <==> list(name).Configs?
    ensures list(name).Configs? ==> r == ConfigList(list(name).names)
    ensures list(name).LookupFailed? ==> r == Failure(list(name).message)
  {
    match list(name)
    case Configs(names) => ConfigList(names)
    case LookupFailed(message) => Failure(message)
  }

  /** /api/load_dataset (app.py:30-91). */
  method LoadDataset(load: Loader, list: ConfigLister, name: string, config: Option<string>)
    returns (r: Response)
    // after a load: the summary and the first min(10, len) records,
    // normalised, in order, when jsonify can encode them; otherwise the
    // text of the TypeError it raises on one of the objects they hold
    ensures Attempt(load, name, config).Loaded? ==>
      var ds := Attempt(load, name, config).dataset;
      var batch := FirstBatch(ds.rows);
      && (Encodable(ExamplesValue(batch)) ==>
            r.DatasetLoaded? && r.info == Info(|ds.rows|, ds.features, name, config) && r.examples == batch)
      && (!Encodable(ExamplesValue(batch)) ==> r.Failure? && Rejects(ExamplesValue(batch), r.error))
    // a ValueError naming the missing config asks for one, listing the configs
    ensures AsksForConfig(Attempt(load, name, config)) && list(name).Configs? ==>
      r == ConfigNeeded(Attempt(load, name, config).message, list(name).names, ConfigPrompt)
    // ... unless listing the configs fails too
    ensures AsksForConfig(Attempt(load, name, config)) && list(name).LookupFailed? ==>
      r == Failure(list(name).message)
    // every other failure is reported with its own text
    ensures !Attempt(load, name, config).Loaded? && !AsksForConfig(Attempt(load, name, config)) ==>
      r == Failure(Attempt(load, name, config).message)
    ensures r.ConfigNeeded? <==> AsksForConfig(Attempt(load, name, config)) && list(name).Configs?
    ensures r.Success() <==>
      Attempt(load, name, config).Loaded?
      && Encodable(ExamplesValue(FirstBatch(Attempt(load, name, config).dataset.rows)))
  {
    var outcome := load(name, Requested(config));
    match outcome {
      case ValueError(message) =>
        if Contains(message, ConfigMissing) {
          match list(name) {
            case Configs(names) => r := ConfigNeeded(message, names, ConfigPrompt);
            case LookupFailed(lookupMessage) => r := Failure(lookupMessage);
          }
        } else {
          r := Failure(message);
        }
      case Failed(message) =>
        r := Failure(message);
      case Loaded(ds) =>
        var info := Info(|ds.rows|, ds.features, name, config);
        var examples: seq<Record> := [];
        var i := 0;
        while i < Min(BatchSize, |ds.rows|)
          invariant 0 <= i <= Min(BatchSize, |ds.rows|)
          invariant |examples| == i
          invariant forall j :: 0 <= j < i ==> examples[j] == Normalized(ds.rows[j])
        {
          var example := NormalizeRecord(ds.rows[i]);
          examples := examples + [example];
          i := i + 1;
        }
        assert examples == FirstBatch(ds.rows);
        match Rejection(ExamplesValue(examples)) {
          case Some(m) => r := Failure(m);
          case None => r := DatasetLoaded(info, examples);
        }
    }
  }

  /** /api/get_example (app.py:94-139). The index defaults to 0 when the
      request has none. */
  method GetExample(load: Loader, name: string, config: Option<string>, index: Option<int>)
    returns (r: Response)
    ensures !Attempt(load, name, config).Loaded? ==> r == Failure(Attempt(load, name, config).message)
    ensures Attempt(load, name, config).Loaded? ==>
      var rows := Attempt(load, name, config).dataset.rows;
      var i := if index.Some? then index.value else 0;
      && (i < 0 || i >= |rows| ==> r == Failure(OutOfRange(i, |rows|)))
      && (0 <= i < |rows| && Encodable(Dict(Normalized(rows[i]))) ==>
            r == Example(Normalized(rows[i]), i, |rows|))
      && (0 <= i < |rows| && !Encodable(Dict(Normalized(rows[i]))) ==>
            r.Failure? && Rejects(Dict(Normalized(rows[i])), r.error))
    ensures r.Success() <==>
      var i := if index.Some? then index.value else 0;
      && Attempt(load, name, config).Loaded?
      && 0 <= i < |Attempt(load, name, config).dataset.rows|
      && Encodable(Dict(Normalized(Attempt(load, name, config).dataset.rows[i])))
  {
    var i := if index.Some? then index.value else 0;
    var outcome := load(name, Requested(config));
    if outcome.Loaded? {
      var rows := outcome.dataset.rows;
      if i < 0 || i >= |rows| {
        r := Failure(OutOfRange(i, |rows|));
      } else {
        var example := NormalizeRecord(rows[i]);
        match Rejection(Dict(example)) {
          case Some(m) => r := Failure(m);
          case None => r := Example(example, i, |rows|);
        }
      }
    } else {
      r := Failure(outcome.message);
    }
  }

  /** A record of the batch that jsonify rejects makes it reject the whole
      batch. */
  lemma BatchRejectsWithRecord(batch: seq<Entries>, i: nat, m: string)
    requires i < |batch| && Rejects(Dict(batch[i]), m)
    ensures Rejects(ExamplesValue(batch), m)
  {
    assert ExamplesValue(batch).items[i] == Dict(batch[i]);
  }

  /** Both endpoints send the same JSON for a record in the first batch: the
      batch load and the single fetch apply one normalisation, and when the
      single fetch cannot encode the record, the batch that holds it cannot
      be encoded either. Each request loads the dataset anew, and load is a
      function, so both see the same rows. */
  method EndpointsAgree(load: Loader, list: ConfigLister, name: string, config: Option<string>, i: nat)
    returns (batch: Response, single: Response)
    requires Attempt(load, name, config).Loaded?
    requires i < Min(BatchSize, |Attempt(load, name, config).dataset.rows|)
    ensures batch.DatasetLoaded? ==>
      single.Example? && i < |batch.examples| && batch.examples[i] == single.example
    ensures batch.DatasetLoaded? || batch.Failure?
    ensures single.Example? || single.Failure?
    ensures single.Failure? ==> batch.Failure?
  {
    batch := LoadDataset(load, list, name, config);
    single := GetExample(load, name, config, Some(i));
    ghost var rows := Attempt(load, name, config).dataset.rows;
    ghost var first := FirstBatch(rows);
    if !Encodable(Dict(Normalized(rows[i]))) {
      ghost var m :| Rejects(Dict(Normalized(rows[i])), m);
      BatchRejectsWithRecord(first, i, m);
    }
  }

  /** Fetching index 15 of a ten-record dataset reports the range 0-9:
      the message reads "Index 15 out of range (0-9)". */
  lemma OutOfRangeMessageExample()
    ensures OutOfRange(15, 10) == "Index " + "15" + " out of range (0-" + "9" + ")"
  {
    assert IntToString(15) == "15" by {
      assert NatToString(15) == NatToString(1) + [DigitChar(5)];
    }
    assert IntToString(10 - 1) == "9";
  }
}
