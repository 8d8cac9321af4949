/**
 * The per-customer environment store behind `set_cust_env` and
 * `get_cust_env`: values are kept as text under (customer number, key);
 * an integer is stored as its decimal text, None as the empty string, and a
 * key never set reads back as absent, which is not the same as empty.
 */
module CustomerEnv {
  import opened Strings

  /** A value handed to set_cust_env. */
  datatype EnvValue = IntValue(i: int) | StrValue(s: string) | NoneValue

  type Store = map<(int, string), string>

  /** The text stored for a value: Python's `str` for numbers and text, "" for None. */
  function StoredText(v: EnvValue): (t: string)
    ensures v.IntValue? ==> t == IntToString(v.i) && ParseInt(t) == Some(v.i)
    ensures v.StrValue? ==> t == v.s
    ensures v.NoneValue? ==> t == ""
  {
    match v
    case IntValue(i) => IntToStringRoundTrip(i); IntToString(i)
    case StrValue(s) => s
    case NoneValue => ""
  }

  /** set_cust_env: store the value's text under the key; every other key keeps its value. */
  function SetCustEnv(store: Store, customer: int, key: string, v: EnvValue): (r: Store)
    ensures (customer, key) in r && r[(customer, key)] == StoredText(v)
    ensures r.Keys == store.Keys + {(customer, key)}
    ensures forall k :: k in store && k != (customer, key) ==> r[k] == store[k]
  {
    store[(customer, key) := StoredText(v)]
  }

  /** get_cust_env: the stored text, or None for a key never set. */
  function GetCustEnv(store: Store, customer: int, key: string): (r: Option<string>)
    ensures r.None? <==> (customer, key) !in store
    ensures r.Some? ==> r.value == store[(customer, key)]
  {
    if (customer, key) in store then Some(store[(customer, key)]) else None
  }

  /** What was set is what is read back, as text. */
  lemma GetAfterSet(store: Store, customer: int, key: string, v: EnvValue)
    ensures GetCustEnv(SetCustEnv(store, customer, key, v), customer, key) == Some(StoredText(v))
  {
  }

  /** An integer reads back as its decimal text, which parses to the same integer. */
  lemma IntegerReadsBackAsDecimal(store: Store, customer: int, key: string, i: int)
    ensures var r := GetCustEnv(SetCustEnv(store, customer, key, IntValue(i)), customer, key);
            r == Some(IntToString(i)) && ParseInt(r.value) == Some(i)
  {
  }

  /** None and "" both read back as the empty string, never as absent. */
  lemma EmptyIsNotAbsent(store: Store, customer: int, key: string, v: EnvValue)
    requires v == NoneValue || v == StrValue("")
    ensures GetCustEnv(SetCustEnv(store, customer, key, v), customer, key) == Some("")
    ensures GetCustEnv(SetCustEnv(store, customer, key, v), customer, key).Some?
  {
  }

  /** Setting a key leaves every other key's reading as it was. */
  lemma SetLeavesOthers(store: Store, customer: int, key: string, v: EnvValue, c2: int, k2: string)
    requires (c2, k2) != (customer, key)
    ensures GetCustEnv(SetCustEnv(store, customer, key, v), c2, k2) == GetCustEnv(store, c2, k2)
  {
  }

  /** A later set on the same key replaces the earlier one entirely. */
  lemma SetOverwrites(store: Store, customer: int, key: string, v1: EnvValue, v2: EnvValue)
    ensures SetCustEnv(SetCustEnv(store, customer, key, v1), customer, key, v2)
            == SetCustEnv(store, customer, key, v2)
  {
  }

  /**
   * The test suite's sequence for customer 123: 1 reads "1"; "abc$a" reads
   * back unchanged; then None and '' both read ""; a key never set is absent.
   */
  lemma SetGetScenario(store: Store, authKey: string)
    requires (123, "a_not_exist_key") !in store
    requires authKey != "a_not_exist_key"
    ensures var s1 := SetCustEnv(store, 123, "name", IntValue(1));
            var s2 := SetCustEnv(s1, 123, authKey, StrValue("abc$a"));
            var s3 := SetCustEnv(s2, 123, authKey, NoneValue);
            var s4 := SetCustEnv(s3, 123, authKey, StrValue(""));
            && GetCustEnv(s1, 123, "name") == Some("1")
            && GetCustEnv(s2, 123, authKey) == Some("abc$a")
            && GetCustEnv(s3, 123, authKey) == Some("")
            && GetCustEnv(s4, 123, authKey) == Some("")
            && GetCustEnv(s4, 123, "a_not_exist_key") == None
  {
    assert IntToString(1) == "1";
    var s1 := SetCustEnv(store, 123, "name", IntValue(1));
    MismatchNotPrefix("name", "a_not_exist_key", 0);
    assert (123, "a_not_exist_key") !in s1;
  }
}
