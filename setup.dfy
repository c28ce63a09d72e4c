/** The interactive setup tool: lenient loading with defaults, and the three
    in-place editors of the configuration dictionary. */
module Setup {
  import opened Json
  import opened Schema
  import opened Text

  /** What an editor reports to the user: the value was stored, the value was
      blank and nothing happened, or the alias was blank (an error message). */
  datatype Outcome = Set | Skipped | AliasEmpty

  /** The configuration after an edit, and the edit's outcome. */
  datatype Edit = Edit(config: Object, outcome: Outcome)

  /** The configuration a missing or unreadable file yields. */
  const EmptyConfig: Object :=
    map[RegionKey := JString(""), AccountsKey := JObject(map[]), KmsKeysKey := JObject(map[])]

  /** `m.setdefault(key, value)`: inserts `key` only when it is absent and
      leaves every present key, whatever its value, as it was. */
  function WithDefault(m: Object, key: string, value: JValue): (r: Object)
    ensures r.Keys == m.Keys + {key}
    ensures key in m ==> r[key] == m[key]
    ensures key !in m ==> r[key] == value
    ensures forall k :: k in m ==> r[k] == m[k]
  {
    if key in m then m else m[key := value]
  }

  /** The dictionary `load_config` starts from before defaulting. */
  function BaseObject(source: ParseResult): Object {
    match source
    case Parsed(obj) => obj
    case _ => map[]
  }

  /** The three `setdefault` calls of `load_config`: the result has all three
      keys, keeps every key of `m` with its value, and adds nothing but the
      missing top-level keys with their empty defaults. */
  function Defaulted(m: Object): (r: Object)
    ensures Populated(r)
    ensures r.Keys == m.Keys + EmptyConfig.Keys
    ensures forall k :: k in m ==> r[k] == m[k]
    ensures forall k :: k in r && k !in m ==> k in EmptyConfig && r[k] == EmptyConfig[k]
  {
    var withRegion := WithDefault(m, RegionKey, JString(""));
    var withAccounts := WithDefault(withRegion, AccountsKey, JObject(map[]));
    WithDefault(withAccounts, KmsKeysKey, JObject(map[]))
  }

  /** `set_region`: a blank answer changes nothing; otherwise `region` holds
      the trimmed answer and no other key changes. */
  function RegionEdit(c: Object, input: string): (e: Edit)
    ensures e.outcome == Set <==> Trim(input) != []
    ensures e.outcome == Skipped <==> Trim(input) == []
    ensures e.outcome == Skipped ==> e.config == c
    ensures e.outcome == Set ==>
      && e.config.Keys == c.Keys + {RegionKey}
      && e.config[RegionKey] == JString(Trim(input))
      && (forall k :: k in c && k != RegionKey ==> e.config[k] == c[k])
    ensures Populated(c) ==> Populated(e.config)
    ensures WellFormed(c) ==> WellFormed(e.config)
  {
    var region := Trim(input);
    if region != [] then Edit(c[RegionKey := JString(region)], Set)
    else Edit(c, Skipped)
  }

  /** `c[table][key] = value`: the nested table maps `key` to `value`,
      replacing any earlier value, and nothing else changes. */
  function Put(c: Object, table: string, key: string, value: string): (r: Object)
    requires HasTable(c, table)
    ensures r.Keys == c.Keys
    ensures forall k :: k in c && k != table ==> r[k] == c[k]
    ensures HasTable(r, table)
    ensures r[table].fields.Keys == c[table].fields.Keys + {key}
    ensures r[table].fields[key] == JString(value)
    ensures forall a :: a in c[table].fields && a != key ==> r[table].fields[a] == c[table].fields[a]
  {
    c[table := JObject(c[table].fields[key := JString(value)])]
  }

  /** `add_account` and `add_kms_key`, which differ only in the table they
      write (`table`): a blank alias is an error and changes nothing, a blank
      value is skipped and changes nothing, and otherwise the trimmed alias
      is put into that table with the trimmed value. The table must be an
      object only when the write is reached. */
  function EntryEdit(c: Object, table: string, alias: string, value: string): (e: Edit)
    requires Trim(alias) != [] && Trim(value) != [] ==> HasTable(c, table)
    ensures e.outcome == AliasEmpty <==> Trim(alias) == []
    ensures e.outcome == Skipped <==> Trim(alias) != [] && Trim(value) == []
    ensures e.outcome == Set <==> Trim(alias) != [] && Trim(value) != []
    ensures e.outcome != Set ==> e.config == c
    ensures e.outcome == Set ==> e.config == Put(c, table, Trim(alias), Trim(value))
    ensures Populated(c) ==> Populated(e.config)
    ensures WellFormed(c) ==> WellFormed(e.config)
  {
    var key := Trim(alias);
    if key == [] then Edit(c, AliasEmpty)
    else
      var v := Trim(value);
      if v == [] then Edit(c, Skipped)
      else Edit(Put(c, table, key, v), Set)
  }

  /** A missing file and a file that is not valid JSON both load as the
      all-defaults configuration. */
  lemma LoadWithoutUsableFile(source: ParseResult)
    requires !source.Parsed?
    ensures Defaulted(BaseObject(source)) == EmptyConfig
  {
  }

  /** Loading never changes a configuration that already has all three keys,
      so a saved configuration that parses back to itself loads as itself. */
  lemma DefaultedKeepsPopulated(m: Object)
    requires Populated(m)
    ensures Defaulted(m) == m
  {
  }

  lemma DefaultedIdempotent(m: Object)
    ensures Defaulted(Defaulted(m)) == Defaulted(m)
  {
    DefaultedKeepsPopulated(Defaulted(m));
  }

  /** The loaded configuration accepts every editor exactly when each alias
      table that the file itself provides is an object. */
  lemma DefaultedWellFormed(m: Object)
    ensures WellFormed(Defaulted(m)) <==>
      (AccountsKey in m ==> m[AccountsKey].JObject?) && (KmsKeysKey in m ==> m[KmsKeysKey].JObject?)
  {
  }

  /** Putting the same alias twice keeps only the second value. */
  lemma PutTwice(c: Object, table: string, key: string, first: string, second: string)
    requires HasTable(c, table)
    ensures Put(Put(c, table, key, first), table, key, second) == Put(c, table, key, second)
  {
    var t := c[table].fields;
    assert t[key := JString(first)][key := JString(second)] == t[key := JString(second)];
  }

  /** Adding the same alias twice keeps only the second value. */
  lemma LastWriteWins(c: Object, table: string, alias: string, first: string, second: string)
    requires HasTable(c, table)
    requires Trim(alias) != [] && Trim(first) != [] && Trim(second) != []
    ensures EntryEdit(EntryEdit(c, table, alias, first).config, table, alias, second)
         == EntryEdit(c, table, alias, second)
  {
    PutTwice(c, table, Trim(alias), Trim(first), Trim(second));
  }

  /** Answering the region prompt with blanks keeps the old region. */
  lemma BlankRegionSession(c: Object)
    ensures RegionEdit(c, "  ") == Edit(c, Skipped)
  {
    assert AllSpace("  ");
  }

  /** A session on a fresh configuration: a blank alias is refused, a blank
      account ID is skipped, and of two IDs given for `PROD` the later one
      is kept. */
  lemma AddAccountSession()
    ensures EntryEdit(EmptyConfig, AccountsKey, "", "123") == Edit(EmptyConfig, AliasEmpty)
    ensures EntryEdit(EmptyConfig, AccountsKey, " PROD ", "") == Edit(EmptyConfig, Skipped)
    ensures var first := EntryEdit(EmptyConfig, AccountsKey, "PROD", "999").config;
            EntryEdit(first, AccountsKey, "PROD", " 888").config[AccountsKey]
              == JObject(map["PROD" := JString("888")])
  {
    TrimsTo(" PROD ", 1, "PROD", 1);
    TrimsTo("PROD", 0, "PROD", 0);
    TrimsTo("999", 0, "999", 0);
    TrimsTo(" 888", 1, "888", 0);
    LastWriteWins(EmptyConfig, AccountsKey, "PROD", "999", " 888");
  }

  /** Writes into two different tables do not interfere. */
  lemma PutDistinctTablesCommute(c: Object, t1: string, k1: string, v1: string,
                                 t2: string, k2: string, v2: string)
    requires HasTable(c, t1) && HasTable(c, t2) && t1 != t2
    ensures Put(Put(c, t1, k1, v1), t2, k2, v2) == Put(Put(c, t2, k2, v2), t1, k1, v1)
  {
  }

  /** Accounts and KMS keys live in separate tables: adding one and then the
      other gives the same configuration in either order. */
  lemma AccountAndKeyEditsCommute(c: Object, alias: string, id: string, keyAlias: string, arn: string)
    requires WellFormed(c)
    ensures EntryEdit(EntryEdit(c, AccountsKey, alias, id).config, KmsKeysKey, keyAlias, arn).config
         == EntryEdit(EntryEdit(c, KmsKeysKey, keyAlias, arn).config, AccountsKey, alias, id).config
  {
    if Trim(alias) != [] && Trim(id) != [] && Trim(keyAlias) != [] && Trim(arn) != [] {
      PutDistinctTablesCommute(c, AccountsKey, Trim(alias), Trim(id), KmsKeysKey, Trim(keyAlias), Trim(arn));
    }
  }

  /** The configuration dictionary that `setup.py` loads, edits in place and
      finally saves. */
  class Config {
    var entries: Object

    /** `load_config`: start from the parsed object, or from `{}` when the
        file is absent or not valid JSON, then default the three keys. */
    constructor Load(source: ParseResult)
      ensures entries == Defaulted(BaseObject(source))
    {
      match source {
        case Parsed(obj) => entries := obj;
        case _ => entries := map[];
      }
      new;
      var _ := SetDefault(RegionKey, JString(""));
      var _ := SetDefault(AccountsKey, JObject(map[]));
      var _ := SetDefault(KmsKeysKey, JObject(map[]));
    }

    /** `dict.setdefault`: returns the value now stored under `key`. */
    method SetDefault(key: string, value: JValue) returns (current: JValue)
      modifies this
      ensures entries == WithDefault(old(entries), key, value)
      ensures key in entries && current == entries[key]
    {
      if key !in entries {
        entries := entries[key := value];
      }
      current := entries[key];
    }

    /** `set_region`, with the answer to the prompt as `input`. */
    method SetRegion(input: string) returns (outcome: Outcome)
      modifies this
      ensures Edit(entries, outcome) == RegionEdit(old(entries), input)
    {
      var region := Trim(input);
      if region != [] {
        entries := entries[RegionKey := JString(region)];
        outcome := Set;
      } else {
        outcome := Skipped;
      }
    }

    /** `add_account`, with the answers to its two prompts as parameters;
        `accountId` is not looked at when the alias is blank. */
    method AddAccount(alias: string, accountId: string) returns (outcome: Outcome)
      requires Trim(alias) != [] && Trim(accountId) != [] ==> HasTable(entries, AccountsKey)
      modifies this
      ensures Edit(entries, outcome) == EntryEdit(old(entries), AccountsKey, alias, accountId)
    {
      var key := Trim(alias);
      if key == [] {
        return AliasEmpty;
      }
      var id := Trim(accountId);
      if id != [] {
        var accounts := entries[AccountsKey].fields;
        entries := entries[AccountsKey := JObject(accounts[key := JString(id)])];
        outcome := Set;
      } else {
        outcome := Skipped;
      }
    }

    /** `add_kms_key`, with the answers to its two prompts as parameters;
        `arn` is not looked at when the alias is blank. */
    method AddKmsKey(alias: string, arn: string) returns (outcome: Outcome)
      requires Trim(alias) != [] && Trim(arn) != [] ==> HasTable(entries, KmsKeysKey)
      modifies this
      ensures Edit(entries, outcome) == EntryEdit(old(entries), KmsKeysKey, alias, arn)
    {
      var key := Trim(alias);
      if key == [] {
        return AliasEmpty;
      }
      var keyArn := Trim(arn);
      if keyArn != [] {
        var keys := entries[KmsKeysKey].fields;
        entries := entries[KmsKeysKey := JObject(keys[key := JString(keyArn)])];
        outcome := Set;
      } else {
        outcome := Skipped;
      }
    }
  }
}
