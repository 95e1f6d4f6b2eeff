/** The configuration flow and entry setup: which credentials an entry ends up holding. */
module Setup {
  import opened Types
  import opened Ltmk
  import opened Adapter

  /** The fields of a form or an entry. */
  datatype Field =
    | AddressField
    | AccountField
    | PasswordField
    | RegionField
    | DeviceIdField
    | LtmkField
    | SetupModeField
    | RealtimeField
    | OfflineField

  const DEFAULT_REGION := "EU"

  /** A submitted form field. */
  datatype Value = Text(text: string) | Flag(on: bool)
  type Form = map<Field, Value>
  type Data = map<Field, string>
  type Address = s: string | s != "" witness "-"

  /** The two setup modes with a cloud account. */
  datatype Mode = Cloud | CloudCutter

  datatype ConfigEntry = ConfigEntry(data: Data, options: map<Field, bool>)
  datatype Problem = InvalidAuth | CannotConnect | NoDevice | LtmkFetch | InvalidLtmk
  datatype FlowResult = Show(problem: Option<Problem>) | AlreadyConfigured | Created(entry: ConfigEntry)

  /** What setting an entry up comes to. */
  datatype SetupOutcome =
    | Ready(auth: Option<Account>, ltmk: Option<Key>, deviceId: string)
    | AuthFailed
    | Malformed

  predicate HasText(input: Form, field: Field) {
    field in input && input[field].Text?
  }

  /** What the cloud form's schema lets through: it has no key field. */
  predicate CloudForm(input: Form, manual: bool) {
    && LtmkField !in input
    && HasText(input, AccountField) && HasText(input, PasswordField) && HasText(input, RegionField)
    && (manual ==> HasText(input, AddressField))
  }

  /** What the local form's schema lets through. */
  predicate LocalForm(input: Form, manual: bool) {
    && HasText(input, DeviceIdField) && HasText(input, LtmkField)
    && (manual ==> HasText(input, AddressField))
  }

  /** The text fields, trimmed except for the password. */
  function EntryData(input: Form): (data: Data)
    ensures forall k :: HasText(input, k) <==> k in data
  {
    map k | k in input && input[k].Text? :: if k == PasswordField then input[k].text else Trim(input[k].text)
  }

  function Get(data: Data, field: Field, fallback: string): string {
    if field in data then data[field] else fallback
  }

  function RealtimeOf(input: Form): bool {
    RealtimeField in input && input[RealtimeField].Flag? && input[RealtimeField].on
  }

  /** The account a form names. */
  function AccountOf(data: Data): Account
    requires AccountField in data && PasswordField in data
  {
    Account(data[AccountField], data[PasswordField], Get(data, RegionField, DEFAULT_REGION))
  }

  /** The key an entry stores: an absent or empty text is no key, other text must decode. */
  function StoredKey(data: Data): Option<Key> {
    if LtmkField in data && data[LtmkField] != "" then FromHex(data[LtmkField]) else None
  }

  predicate KeyIsCorrupt(data: Data) {
    LtmkField in data && data[LtmkField] != "" && FromHex(data[LtmkField]).None?
  }

  /** What the fields of an entry give its client. */
  function CredentialsOf(data: Data): (outcome: SetupOutcome)
    ensures outcome.Ready? ==> outcome.auth.Some? || outcome.ltmk.Some?
    ensures outcome.Ready? ==> outcome.ltmk == StoredKey(data) && (outcome.auth.Some? <==> AccountField in data)
  {
    if AddressField !in data || KeyIsCorrupt(data) then Malformed
    else if AccountField in data && PasswordField !in data then AuthFailed
    else if AccountField !in data && StoredKey(data).None? then AuthFailed
    else if DeviceIdField !in data then Malformed
    else Ready(if AccountField in data then Some(AccountOf(data)) else None, StoredKey(data), data[DeviceIdField])
  }

  /** Set an entry up: the adapter is built only with credentials it can work with. */
  method SetupEntry<T>(data: Data, world: nat -> Wake<T>, path: nat -> bool, build: nat -> Option<Fault>)
    returns (outcome: SetupOutcome, adapter: BleClientAdapter?<T>)
    ensures outcome == CredentialsOf(data)
    ensures outcome.Ready? <==> adapter != null
    ensures adapter != null ==> fresh(adapter) && adapter.auth == outcome.auth && adapter.ltmk == outcome.ltmk
  {
    adapter := null;
    if AddressField !in data {
      return Malformed, null;
    }
    var ltmk: Option<Key> := None;
    if LtmkField in data && data[LtmkField] != "" {
      ltmk := FromHex(data[LtmkField]);
      if ltmk.None? {
        return Malformed, null;
      }
    }
    var auth: Option<Account> := None;
    if AccountField in data {
      if PasswordField !in data {
        return AuthFailed, null;
      }
      auth := Some(AccountOf(data));
    } else if ltmk.None? {
      return AuthFailed, null;
    }
    if DeviceIdField !in data {
      return Malformed, null;
    }
    adapter := new BleClientAdapter<T>(auth, ltmk, world, path, build);
    outcome := Ready(auth, ltmk, data[DeviceIdField]);
  }

  /** The entry a cloud step creates from its form data, the device id and the fetched key's text. */
  function CloudEntry(mode: Mode, data: Data, deviceId: string, ltmkHex: Option<string>, realtime: bool)
    : (entry: ConfigEntry)
    ensures forall f :: f in data && f !in {DeviceIdField, SetupModeField, LtmkField} ==>
                          f in entry.data && entry.data[f] == data[f]
    ensures forall f :: f in entry.data && f !in {DeviceIdField, SetupModeField, LtmkField} ==> f in data
    ensures DeviceIdField in entry.data && entry.data[DeviceIdField] == deviceId
    ensures ltmkHex.Some? ==> LtmkField in entry.data && entry.data[LtmkField] == ltmkHex.value
    ensures ltmkHex.None? && LtmkField !in data ==> LtmkField !in entry.data
  {
    var named := data[DeviceIdField := deviceId][SetupModeField := if mode.Cloud? then "cloud" else "cloud_cutter"];
    if ltmkHex.Some? then
      ConfigEntry(named[LtmkField := ltmkHex.value], map[RealtimeField := realtime, OfflineField := true])
    else ConfigEntry(named, map[RealtimeField := realtime])
  }

  /** A cloud entry sets up with the form's account, and with the fetched key unless that is empty. */
  lemma CloudCredentials(mode: Mode, form: Data, address: string, deviceId: string, key: Option<Key>, realtime: bool)
    requires AccountField in form && PasswordField in form && LtmkField !in form
    ensures var hex := if key.Some? then Some(Hex(key.value)) else None;
            CredentialsOf(CloudEntry(mode, form[AddressField := address], deviceId, hex, realtime).data)
            == Ready(Some(AccountOf(form)), if key == Some([]) then None else key, deviceId)
  {
    var hex := if key.Some? then Some(Hex(key.value)) else None;
    var data := CloudEntry(mode, form[AddressField := address], deviceId, hex, realtime).data;
    assert AccountOf(data) == AccountOf(form);
    if key.Some? {
      StoredTextIsFaithful(data, key.value);
    }
  }

  lemma LocalCredentials(data: Data, key: Key)
    requires AddressField in data && DeviceIdField in data && LtmkField in data && AccountField !in data
    requires data[LtmkField] == Hex(key) && key != []
    ensures CredentialsOf(data) == Ready(None, Some(key), data[DeviceIdField])
  {
    StoredTextIsFaithful(data, key);
  }

  class ConfigFlow {
    const discovered: Option<Address>    // set when Bluetooth discovery started the flow
    const configured: set<string>        // addresses that already have an entry

    constructor (discovered: Option<Address>, configured: set<string>)
      ensures this.discovered == discovered && this.configured == configured
    {
      this.discovered, this.configured := discovered, configured;
    }

    predicate Manual() {
      discovered.None?
    }

    /** The address an entry made from this form gets. */
    function AddressFor(input: Form): string
      requires Manual() ==> HasText(input, AddressField)
    {
      if discovered.Some? then discovered.value else EntryData(input)[AddressField]
    }

    predicate Taken(input: Form)
      requires Manual() ==> HasText(input, AddressField)
    {
      Manual() && AddressFor(input) in configured
    }

    /** The device id an entry gets: the one typed in wins, and blank counts as not typed. */
    function DeviceFor(data: Data, found: Option<string>): Option<string> {
      if DeviceIdField in data && data[DeviceIdField] != "" then Some(data[DeviceIdField]) else found
    }

    /** Check the account, look the device up unless it was typed in, and fetch the key if the mode wants it. */
    method AskAccount(mode: Mode, data: Data, rejected: Option<Problem>, found: Option<string>, fetched: Option<Key>)
      returns (error: Option<Problem>, deviceId: Option<string>, key: Option<Key>)
      ensures error == if rejected.Some? then rejected
                       else if DeviceFor(data, found).None? then Some(NoDevice)
                       else if mode.CloudCutter? && fetched.None? then Some(LtmkFetch)
                       else None
      ensures error.None? ==> deviceId == DeviceFor(data, found) && deviceId.Some?
      ensures error.None? ==> key == if mode.CloudCutter? then fetched else None
    {
      error := rejected;
      deviceId, key := None, None;
      if DeviceIdField in data && data[DeviceIdField] != "" {
        deviceId := Some(data[DeviceIdField]);
      }
      if error.None? && deviceId.None? {
        if found.None? {
          error := Some(NoDevice);
        }
        deviceId := found;
      }
      if error.None? && mode.CloudCutter? {
        key := fetched;
        if fetched.None? {
          error := Some(LtmkFetch);
        }
      }
    }

    /** The cloud and cloud-cutter step. The parameters after the form are what the account answers: why it
        rejects the login, the device id it finds, the key it hands out (None: the fetch failed). */
    method CloudStep(mode: Mode, form: Option<Form>, rejected: Option<Problem>, found: Option<string>,
                     fetched: Option<Key>)
      returns (r: FlowResult)
      requires form.Some? ==> CloudForm(form.value, Manual())
      ensures r.Created? <==>
              && form.Some? && !Taken(form.value) && rejected.None?
              && DeviceFor(EntryData(form.value), found).Some?
              && (mode.CloudCutter? ==> fetched.Some?)
      ensures r.AlreadyConfigured? <==> form.Some? && Taken(form.value)
      ensures r.Show? && form.Some? ==>
                r.problem == if rejected.Some? then rejected
                             else if DeviceFor(EntryData(form.value), found).None? then Some(NoDevice)
                             else Some(LtmkFetch)
      ensures form.None? ==> r == Show(None)
      ensures r.Created? ==>
                && Get(r.entry.data, AddressField, "") == AddressFor(form.value)
                && CredentialsOf(r.entry.data)
                   == Ready(Some(AccountOf(EntryData(form.value))),
                            if mode.CloudCutter? && fetched != Some([]) then fetched else None,
                            DeviceFor(EntryData(form.value), found).value)
      ensures r.Created? ==>
                r.entry.options ==
                  if mode.CloudCutter? then map[RealtimeField := RealtimeOf(form.value), OfflineField := true]
                  else map[RealtimeField := RealtimeOf(form.value)]
    {
      if form.None? {
        return Show(None);
      }
      var input := form.value;
      var typed := EntryData(input);
      var address := if discovered.Some? then discovered.value else typed[AddressField];
      if Manual() && address in configured {
        return AlreadyConfigured;
      }
      var data := typed[AddressField := address];
      var error, deviceId, key := AskAccount(mode, data, rejected, found, fetched);
      if error.Some? {
        return Show(error);
      }
      CloudCredentials(mode, typed, address, deviceId.value, key, RealtimeOf(input));
      var hex := if key.Some? then Some(Hex(key.value)) else None;
      r := Created(CloudEntry(mode, data, deviceId.value, hex, RealtimeOf(input)));
    }

    /** The local step: no account, and the key the user pasted. */
    method LocalStep(form: Option<Form>) returns (r: FlowResult)
      requires form.Some? ==> LocalForm(form.value, Manual())
      ensures r.Created? <==> form.Some? && ParseLtmk(form.value[LtmkField].text).Some? && !Taken(form.value)
      ensures r.AlreadyConfigured? <==> form.Some? && ParseLtmk(form.value[LtmkField].text).Some? && Taken(form.value)
      ensures r.Show? ==> r.problem == if form.None? then None else Some(InvalidLtmk)
      ensures r.Created? ==>
                && Get(r.entry.data, AddressField, "") == AddressFor(form.value)
                && CredentialsOf(r.entry.data)
                   == Ready(None, ParseLtmk(form.value[LtmkField].text), Trim(form.value[DeviceIdField].text))
                && r.entry.options == map[RealtimeField := RealtimeOf(form.value), OfflineField := true]
    {
      if form.None? {
        return Show(None);
      }
      var input := form.value;
      var data := EntryData(input);
      var address := if discovered.Some? then discovered.value else data[AddressField];
      TrimTwice(input[LtmkField].text);
      var parsed := ParseLtmk(data[LtmkField]);
      if parsed.None? {
        return Show(Some(InvalidLtmk));
      }
      if Manual() && address in configured {
        return AlreadyConfigured;
      }
      var entryData := map[AddressField := address, DeviceIdField := data[DeviceIdField],
                           LtmkField := Hex(parsed.value), SetupModeField := "local"];
      assert data[DeviceIdField] == Trim(input[DeviceIdField].text);
      LocalCredentials(entryData, parsed.value);
      r := Created(ConfigEntry(entryData, map[RealtimeField := RealtimeOf(input), OfflineField := true]));
    }
  }

  /** The text a key is stored as says all of it, and only the empty key is stored as no key. */
  lemma StoredTextIsFaithful(data: Data, key: Key)
    requires LtmkField in data && data[LtmkField] == Hex(key)
    ensures !KeyIsCorrupt(data)
    ensures StoredKey(data) == if key == [] then None else Some(key)
  {
    StoredKeyReturns(key);
  }
}
