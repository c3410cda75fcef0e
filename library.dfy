/** The two calls into the HuggingFace `datasets` library that both front
    ends make: load_dataset(name, [config], split='train') and
    get_dataset_config_names(name). Their behaviour is not modelled; each is a
    function parameter from its arguments to the outcome it reports. */
module Library {
  import opened Text
  import opened Records

  /** A loaded train split: its rows and the names of its features. */
  datatype Dataset = Dataset(rows: seq<Record>, features: seq<string>)

  /** What load_dataset returns or raises. ValueError is told apart because
      both front ends catch it specially; every other exception is Failed. */
  datatype LoadOutcome =
    | Loaded(dataset: Dataset)
    | ValueError(message: string)
    | Failed(message: string)

  /** What get_dataset_config_names returns or raises. */
  datatype ConfigsOutcome =
    | Configs(names: seq<string>)
    | LookupFailed(message: string)

  /** load_dataset(name, split='train') when the config is None, and
      load_dataset(name, config, split='train') otherwise. */
  type Loader = (string, Option<string>) -> LoadOutcome

  /** get_dataset_config_names(name) */
  type ConfigLister = string -> ConfigsOutcome

  /** The text by which the library's ValueError says a config is required. */
  const ConfigMissing := "Config name is missing"

  /** The load failed with a ValueError whose message mentions the missing
      config. */
  predicate AsksForConfig(outcome: LoadOutcome) {
    outcome.ValueError? && Contains(outcome.message, ConfigMissing)
  }

  /** Python truthiness of an optional config name: None and "" are false. */
  predicate IsGiven(config: Option<string>) {
    config.Some? && config.value != ""
  }

  /** The config the web endpoints pass to load_dataset: the one requested
      when it is truthy (`if config_name:`), none otherwise. */
  function Requested(config: Option<string>): (r: Option<string>)
    ensures r.Some? <==> IsGiven(config)
    ensures r.Some? ==> r == config
  {
    if IsGiven(config) then config else None
  }
}
