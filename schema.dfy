/** The keys of the configuration file and the shapes it is expected to have. */
module Schema {
  import opened Json

  const RegionKey: string := "region"
  const AccountsKey: string := "account_ids"
  const KmsKeysKey: string := "kms_keys"

  /** All three top-level keys are present. */
  predicate Populated(c: Object) {
    RegionKey in c && AccountsKey in c && KmsKeysKey in c
  }

  /** `key` is present and holds a JSON object (a nested alias table). */
  predicate HasTable(c: Object, key: string) {
    key in c && c[key].JObject?
  }

  /** Populated, and both alias tables are objects, so that every mutator
      can write into them. */
  predicate WellFormed(c: Object) {
    Populated(c) && HasTable(c, AccountsKey) && HasTable(c, KmsKeysKey)
  }
}
