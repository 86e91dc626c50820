/** The app's custom DNS server setting: an optional address that notifies
    a listener and is written to the "custom_dns" shared preferences on
    every assignment, and is loaded from there when the holder is made.
    The preferences are a string map; committing them is not modelled. */
module CustomDnsService {
  import opened Wrappers
  import opened Inet

  const SHARED_PREFERENCES: string := "custom_dns"
  const KEY_ADDRESS: string := "address"

  /** Removes one '/' at the start of the text, if there is one. */
  function StripStartingSlash(s: string): (r: string)
    ensures s != [] && s[0] == '/' ==> s == "/" + r
    ensures s == [] || s[0] != '/' ==> r == s
  {
    if s != [] && s[0] == '/' then s[1..] else s
  }

  /** The string `persist` stores for an address: "" for null. */
  function RawAddress(lib: AddressLibrary, address: Option<InetAddress>): (r: string)
    ensures address.None? ==> r == ""
    ensures address.Some? ==> lib.toString(address.value) in {r, "/" + r}
    ensures address.Some? && r != [] && r[0] == '/' ==> lib.toString(address.value) == "/" + r
  {
    match address
    case None => ""
    case Some(a) => StripStartingSlash(lib.toString(a))
  }

  /** The preferences after `persist`: only the address key changes. */
  function Persisted(preferences: map<string, string>, lib: AddressLibrary, address: Option<InetAddress>)
    : (r: map<string, string>)
    ensures KEY_ADDRESS in r && r[KEY_ADDRESS] == RawAddress(lib, address)
    ensures r.Keys == preferences.Keys + {KEY_ADDRESS}
    ensures forall k :: k in preferences && k != KEY_ADDRESS ==> r[k] == preferences[k]
  {
    preferences[KEY_ADDRESS := RawAddress(lib, address)]
  }

  /** `loadCustomDns`: a missing key and a stored string the validator
      rejects both give null. */
  function LoadCustomDns(preferences: map<string, string>, lib: AddressLibrary): (r: Option<InetAddress>)
    ensures r.Some? <==> KEY_ADDRESS in preferences && lib.isValid(preferences[KEY_ADDRESS])
    ensures r.Some? ==> r.value == lib.getByName(preferences[KEY_ADDRESS])
  {
    if KEY_ADDRESS in preferences && lib.isValid(preferences[KEY_ADDRESS]) then
      Some(lib.getByName(preferences[KEY_ADDRESS]))
    else
      None
  }

  lemma StripExamples()
    ensures StripStartingSlash("//x") == "/x"
    ensures StripStartingSlash("/::1") == "::1"
    ensures StripStartingSlash("::1") == "::1"
  {
  }

  /** Reloading what `persist` stored for an address gives what the
      library makes of the stripped text, whatever else is stored. */
  lemma PersistThenLoad(preferences: map<string, string>, lib: AddressLibrary, a: InetAddress)
    ensures var raw := StripStartingSlash(lib.toString(a));
      LoadCustomDns(Persisted(preferences, lib, Some(a)), lib) == if lib.isValid(raw) then Some(lib.getByName(raw)) else None
  {
  }

  /** With a library that reads its own (stripped) output back, an address
      survives a persist and a fresh load. */
  lemma RoundTrip(preferences: map<string, string>, lib: AddressLibrary, a: InetAddress)
    requires lib.isValid(StripStartingSlash(lib.toString(a)))
    requires lib.getByName(StripStartingSlash(lib.toString(a))) == a
    ensures LoadCustomDns(Persisted(preferences, lib, Some(a)), lib) == Some(a)
  {
    PersistThenLoad(preferences, lib, a);
  }

  /** Clearing the address persists "", which reloads as null unless the
      validator accepts the empty string. */
  lemma ClearThenLoad(preferences: map<string, string>, lib: AddressLibrary)
    requires !lib.isValid("")
    ensures LoadCustomDns(Persisted(preferences, lib, None), lib) == None
  {
  }

  /** What an assignment does, in order. */
  datatype Effect = Notified(address: Option<InetAddress>) | Wrote(raw: string)

  class CustomDns {
    const lib: AddressLibrary
    var preferences: map<string, string>
    var dnsServerAddress: Option<InetAddress>
    /** Whether an `onChange` listener is registered. */
    var hasOnChange: bool
    /** The listener calls and writes made by assignments, oldest first. */
    var effects: seq<Effect>

    constructor (preferences: map<string, string>, lib: AddressLibrary)
      ensures this.lib == lib && this.preferences == preferences
      ensures dnsServerAddress == LoadCustomDns(preferences, lib)
      ensures !hasOnChange && effects == []
    {
      this.lib := lib;
      this.preferences := preferences;
      dnsServerAddress := LoadCustomDns(preferences, lib);
      hasOnChange := false;
      effects := [];
    }

    method SetOnChange(registered: bool)
      modifies this`hasOnChange
      ensures hasOnChange == registered
    {
      hasOnChange := registered;
    }

    /** `persist`: writes the current address under the address key. */
    method Persist()
      modifies this`preferences, this`effects
      ensures preferences == Persisted(old(preferences), lib, dnsServerAddress)
      ensures effects == old(effects) + [Wrote(RawAddress(lib, dnsServerAddress))]
    {
      var raw := RawAddress(lib, dnsServerAddress);
      preferences := preferences[KEY_ADDRESS := raw];
      effects := effects + [Wrote(raw)];
    }

    /** Assigning `dnsServerAddress`, even to the value it already has:
        store it, notify the listener with it, then persist it. */
    method SetDnsServerAddress(address: Option<InetAddress>)
      modifies this`dnsServerAddress, this`preferences, this`effects
      ensures dnsServerAddress == address
      ensures preferences == Persisted(old(preferences), lib, address)
      ensures effects == old(effects) + (if hasOnChange then [Notified(address)] else []) + [Wrote(RawAddress(lib, address))]
    {
      dnsServerAddress := address;
      if hasOnChange {
        effects := effects + [Notified(address)];
      }
      Persist();
    }
  }
}
