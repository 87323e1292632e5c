/** The options CrawlerDataProvider declares: three option groups, each with
    its defaults, its required keys and the type each key must have. Only
    the declared data is modelled; how an options resolver applies it is
    library behaviour. */
module ProviderOptions {
  import opened Resources

  /** The allowed types named in the declarations. */
  datatype AllowedType = BoolType | IntType | StringType | StringListType

  predicate HasAllowedType(v: Value, t: AllowedType)
  {
    match t
    case BoolType => v.Bool?
    case IntType => v.Int?
    case StringType => v.Str?
    case StringListType => v.List? && forall i :: 0 <= i < |v.items| ==> v.items[i].Str?
  }

  datatype OptionGroup = OptionGroup(
    defaults: map<string, Value>,
    required: set<string>,
    allowedTypes: map<string, AllowedType>)

  /** Names of the two dispatch groups (constants of the host bundle's
      provider interface, which is not part of this model). */
  const FullDispatch := "full_dispatch"
  const SingleDispatch := "single_dispatch"

  /** The mandatory denylist pattern: a PCRE matching common binary,
      script and archive file extensions. It is kept as an opaque string. */
  const CoreInvalidLinks := "@.*\\.(js|JS|gif|GIF|jpg|JPG|png|PNG|ico|ICO|eps|jpeg|JPEG|bmp|BMP|css|CSS|sit|wmf|zip|ppt|mpg|xls|gz|rpm|tgz|mov|MOV|exe|mp3|MP3|kmz|gpx|kml|swf|SWF)$@"

  const AlwaysDefaults: map<string, Value> := map[
    "own_host_only" := Bool(false),
    "allow_subdomains" := Bool(false),
    "allow_query_in_url" := Bool(false),
    "allow_hash_in_url" := Bool(false),
    "allowed_mime_types" := List([Str("text/html"), Str("application/pdf")]),
    "allowed_schemes" := List([Str("http")]),
    "content_max_size" := Int(0),
    "core_invalid_links" := Str(CoreInvalidLinks)]

  /** Every default of the group is also required. */
  const AlwaysGroup := OptionGroup(
    AlwaysDefaults,
    AlwaysDefaults.Keys,
    map[
      "own_host_only" := BoolType,
      "allow_subdomains" := BoolType,
      "allow_query_in_url" := BoolType,
      "allow_hash_in_url" := BoolType,
      "allowed_mime_types" := StringListType,
      "allowed_schemes" := StringListType,
      "content_max_size" := IntType,
      "core_invalid_links" := StringType])

  const FullDispatchDefaults: map<string, Value> := map[
    "seed" := Null,
    "valid_links" := List([]),
    "user_invalid_links" := List([]),
    "max_link_depth" := Int(15),
    "max_crawl_limit" := Int(0)]

  const FullDispatchGroup := OptionGroup(
    FullDispatchDefaults,
    FullDispatchDefaults.Keys,
    map[
      "seed" := StringType,
      "valid_links" := StringListType,
      "user_invalid_links" := StringListType,
      "max_link_depth" := IntType,
      "max_crawl_limit" := IntType])

  /** No defaults; `host` is required and must be a string. */
  const SingleDispatchGroup := OptionGroup(map[], {"host"}, map["host" := StringType])

  /** The top-level options: each group is itself required. */
  const ProviderGroups: map<string, OptionGroup> := map[
    "always" := AlwaysGroup,
    FullDispatch := FullDispatchGroup,
    SingleDispatch := SingleDispatchGroup]

  /** Keys whose default value does not have the key's allowed type. */
  function DefaultsOfWrongType(g: OptionGroup): set<string>
  {
    set k | k in g.defaults && !(k in g.allowedTypes && HasAllowedType(g.defaults[k], g.allowedTypes[k]))
  }

  /** Keys a caller must supply because the group has no default for them. */
  function KeysWithoutDefault(g: OptionGroup): set<string>
  {
    g.required - g.defaults.Keys
  }

  /** Every required key of every group has a declared type. */
  lemma RequiredKeysAreTyped()
    ensures forall name :: name in ProviderGroups ==>
              ProviderGroups[name].required <= ProviderGroups[name].allowedTypes.Keys
  {
  }

  /** All defaults of the `always` group have their declared type. */
  lemma AlwaysDefaultsWellTyped()
    ensures DefaultsOfWrongType(AlwaysGroup) == {}
  {
    var mimeTypes := AlwaysDefaults["allowed_mime_types"];
    assert HasAllowedType(mimeTypes, StringListType) by {
      assert mimeTypes.items == [Str("text/html"), Str("application/pdf")];
    }
    var schemes := AlwaysDefaults["allowed_schemes"];
    assert HasAllowedType(schemes, StringListType) by {
      assert schemes.items == [Str("http")];
    }
    forall k | k in AlwaysDefaults
      ensures k in AlwaysGroup.allowedTypes && HasAllowedType(AlwaysDefaults[k], AlwaysGroup.allowedTypes[k])
    {
    }
  }

  /** Of the full-dispatch defaults only `seed` (null, declared `string`)
      lacks its declared type, so a full crawl needs a seed from the caller. */
  lemma OnlySeedDefaultIllTyped()
    ensures DefaultsOfWrongType(FullDispatchGroup) == {"seed"}
  {
    var bad := DefaultsOfWrongType(FullDispatchGroup);
    assert "seed" in bad;
    forall k | k in bad ensures k == "seed" {
      assert k in FullDispatchDefaults;
    }
  }

  /** Every required key of `always` and of the full-dispatch group has a
      default; `host` is the one single-dispatch key without one, so a
      single dispatch needs a host from the caller. */
  lemma OnlyHostLacksDefault()
    ensures KeysWithoutDefault(AlwaysGroup) == {} && KeysWithoutDefault(FullDispatchGroup) == {}
    ensures KeysWithoutDefault(SingleDispatchGroup) == {"host"}
  {
  }
}
