/** Model-mapping tables and options (modelmap/types.rs). */
module ModelMapTypes {
  import opened Wrappers

  datatype Canonical = Canonical(model: string, provider: Option<string>)

  datatype ModelMap = ModelMap(byToken: map<string, Canonical>, providerAliases: map<string, string>)

  /** One `[[mappings]]` entry of a mapping file. */
  datatype RawEntry = RawEntry(token: string, toModel: string, toProvider: Option<string>, aliases: Option<seq<string>>)

  /** A mapping file already deserialized; missing lists default to empty / absent. */
  datatype RawMappingFile = RawMappingFile(mappings: seq<RawEntry>, providerAliases: Option<map<string, string>>)

  datatype ApplyOptions = ApplyOptions(normalizeProvider: bool, overrideProvider: bool, strict: bool)
}
