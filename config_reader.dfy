/** The strict, read-only loader that downstream tools use, and how it relates
    to the lenient loader of the setup tool. */
module ConfigReader {
  import opened Json
  import opened Schema
  import Setup

  /** The three exceptions the loader raises: `FileNotFoundError`, the
      `ValueError` for invalid JSON, and the `KeyError` for missing keys. */
  datatype LoadError = FileNotFound | InvalidJson | MissingRequiredKeys

  datatype Result<T> = Ok(value: T) | Err(error: LoadError)

  /** The keys the strict loader insists on; `kms_keys` is not one of them. */
  predicate HasRequiredKeys(c: Object) {
    AccountsKey in c && RegionKey in c
  }

  /** `load_config`: each parse failure maps to its own error, an object
      without `account_ids` or without `region` is rejected, and any other
      object is returned as parsed, without defaulting or removing keys. */
  function Load(source: ParseResult): (r: Result<Object>)
    ensures r == Err(FileNotFound) <==> source.NoFile?
    ensures r == Err(InvalidJson) <==> source.BadJson?
    ensures r == Err(MissingRequiredKeys) <==> source.Parsed? && !HasRequiredKeys(source.obj)
    ensures r.Ok? <==> source.Parsed? && HasRequiredKeys(source.obj)
    ensures r.Ok? ==> source.Parsed? && r.value == source.obj
    ensures r.Ok? ==> RegionKey in r.value && AccountsKey in r.value
  {
    match source
    case NoFile => Err(FileNotFound)
    case BadJson => Err(InvalidJson)
    case Parsed(obj) =>
      if AccountsKey !in obj || RegionKey !in obj then Err(MissingRequiredKeys)
      else Ok(obj)
  }

  /** An object that has `region` and `account_ids` loads whether or not it
      has `kms_keys`. */
  lemma KmsKeysNotRequired(obj: Object)
    requires RegionKey in obj && AccountsKey in obj
    ensures Load(Parsed(obj - {KmsKeysKey})) == Ok(obj - {KmsKeysKey})
  {
  }

  /** Whatever the setup tool loads (and later saves) passes the strict loader
      unchanged. */
  lemma AcceptsLenientResult(obj: Object)
    ensures Load(Parsed(Setup.Defaulted(obj))) == Ok(Setup.Defaulted(obj))
  {
  }

  /** Where the strict loader succeeds, the lenient one returns the same
      object, except that it adds an empty `kms_keys` table if there is none. */
  lemma LenientAddsAtMostKmsKeys(source: ParseResult)
    requires Load(source).Ok?
    ensures Setup.Defaulted(Setup.BaseObject(source))
         == Setup.WithDefault(Load(source).value, KmsKeysKey, JObject(map[]))
  {
    var obj := source.obj;
    var expected := Setup.WithDefault(obj, KmsKeysKey, JObject(map[]));
    assert Setup.Defaulted(obj).Keys == expected.Keys;
  }

  /** Where the strict loader fails, the lenient one still produces a
      configuration: the all-defaults one after a parse failure, and one with
      a key added after a missing-key failure. */
  lemma LenientRecoversWhereStrictFails(source: ParseResult)
    requires Load(source).Err?
    ensures Populated(Setup.Defaulted(Setup.BaseObject(source)))
    ensures !source.Parsed? ==> Setup.Defaulted(Setup.BaseObject(source)) == Setup.EmptyConfig
    ensures source.Parsed? ==> Setup.Defaulted(source.obj).Keys > source.obj.Keys
  {
    if !source.Parsed? {
      Setup.LoadWithoutUsableFile(source);
    }
  }
}
