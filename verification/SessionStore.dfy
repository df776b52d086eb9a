/** The persisted trading-session store (`utils/session.ts`): one record per
    owner address in browser local storage, under a key derived from the
    lower-cased address. */
module SessionStore {
  import opened Base
  import opened Text

  datatype UserApiCredentials = UserApiCredentials(key: string, secret: string, passphrase: string)

  /** The persisted record. `lastChecked` is the `Date.now()` of the pass
      that wrote it. */
  datatype TradingSession = TradingSession(
    eoaAddress: string,
    safeAddress: string,
    isSafeDeployed: bool,
    hasApiCredentials: bool,
    hasApprovals: bool,
    apiCredentials: Option<UserApiCredentials>,
    lastChecked: int)

  /** UI progress of the orchestrator; never persisted. */
  datatype SessionStep = Idle | Checking | Deploying | Credentials | Approvals | Complete

  /** The text stored under a key, classified by what `JSON.parse` and the
      owner check make of it. `Record` is what `saveSession` writes: parsing
      the serialisation of a session gives that session back. `Foreign` text
      parses to a value whose `eoaAddress` is absent or null, so the owner
      check fails and the entry is cleared. `Malformed` text is empty, makes
      `JSON.parse` throw, or parses to a value on which the owner check throws
      (`null`, or an `eoaAddress` that is neither a string nor null, whose
      `toLowerCase` is missing); the catch keeps such an entry. */
  datatype Entry = Record(session: TradingSession) | Foreign(text: string) | Malformed(text: string)

  type Storage = map<string, Entry>

  /** What `loadSession` returns, with the storage it leaves behind (a record
      owned by someone else is removed as a side effect). */
  datatype Loaded = Loaded(session: Option<TradingSession>, storage: Storage)

  const KeyPrefix: string := "polymarket_trading_session_"

  /** The storage key of an address. */
  function Key(address: string): string
  {
    KeyPrefix + Lower(address)
  }

  /** Two addresses share a key exactly when they agree up to letter case. */
  lemma KeyCaseInsensitive(a: string, b: string)
    ensures Key(a) == Key(b) <==> Lower(a) == Lower(b)
  {
    PrefixCancel(KeyPrefix, Lower(a), Lower(b));
  }

  /** `clearSession`: removes the address's key; a no-op outside a browser. */
  function Clear(inBrowser: bool, st: Storage, address: string): (r: Storage)
    ensures !inBrowser ==> r == st
    ensures inBrowser ==> Key(address) !in r
    ensures forall k :: k != Key(address) ==> (k in r <==> k in st)
    ensures forall k :: k in r ==> r[k] == st[k]
  {
    if inBrowser then st - {Key(address)} else st
  }

  /** `saveSession`: replaces the whole record under the address's key; a
      no-op outside a browser. */
  function Save(inBrowser: bool, st: Storage, address: string, s: TradingSession): (r: Storage)
    ensures !inBrowser ==> r == st
    ensures inBrowser ==> Key(address) in r && r[Key(address)] == Record(s)
    ensures forall k :: k != Key(address) ==> (k in r <==> k in st)
    ensures forall k :: k != Key(address) && k in r ==> r[k] == st[k]
  {
    if inBrowser then st[Key(address) := Record(s)] else st
  }

  /** Whether a stored record belongs to the requested address. */
  predicate OwnedBy(s: TradingSession, address: string)
  {
    Lower(s.eoaAddress) == Lower(address)
  }

  /** `loadSession`: the record stored for the address, if it parses and its
      owner matches; a record owned by someone else is cleared. */
  function Load(inBrowser: bool, st: Storage, address: string): Loaded
  {
    if !inBrowser || Key(address) !in st then Loaded(None, st)
    else
      match st[Key(address)]
      case Malformed(_) => Loaded(None, st)
      case Foreign(_) => Loaded(None, Clear(inBrowser, st, address))
      case Record(s) =>
        if Lower(s.eoaAddress) != Lower(address) then Loaded(None, Clear(inBrowser, st, address))
        else Loaded(Some(s), st)
  }

  /** What a load finds: nothing outside a browser or under a missing key; a
      session exactly when the key holds a parseable record owned by the
      address; malformed text is left alone; the storage is either unchanged
      or has the address's key cleared. */
  lemma LoadOutcome(inBrowser: bool, st: Storage, address: string)
    ensures var r := Load(inBrowser, st, address);
            && (!inBrowser ==> r == Loaded(None, st))
            && (inBrowser && Key(address) !in st ==> r == Loaded(None, st))
            && (r.session.Some? <==>
                  inBrowser && Key(address) in st && st[Key(address)].Record?
                  && OwnedBy(st[Key(address)].session, address))
            && (r.session.Some? ==> r.session.value == st[Key(address)].session && r.storage == st)
            && (inBrowser && Key(address) in st && st[Key(address)].Malformed? ==> r == Loaded(None, st))
            && (r.storage == st || r.storage == Clear(inBrowser, st, address))
  {
  }

  /** A record under the key whose owner does not match the requested address
      is discarded: the load is empty and the key is cleared. */
  lemma LoadDiscardsForeignOwner(st: Storage, address: string)
    requires Key(address) in st
    requires st[Key(address)].Foreign? || (st[Key(address)].Record? && !OwnedBy(st[Key(address)].session, address))
    ensures Load(true, st, address) == Loaded(None, Clear(true, st, address))
    ensures Key(address) !in Load(true, st, address).storage
  {
  }

  /** Round trip: saving a session owned by `a` and loading it back under any
      spelling `b` of the same address returns the session and changes
      nothing. */
  lemma LoadAfterSave(st: Storage, a: string, b: string, s: TradingSession)
    requires OwnedBy(s, a)
    requires Lower(b) == Lower(a)
    ensures Load(true, Save(true, st, a, s), b) == Loaded(Some(s), Save(true, st, a, s))
  {
    KeyCaseInsensitive(a, b);
  }

  /** After clearing `a`, loading any spelling of `a` finds nothing. */
  lemma LoadAfterClear(st: Storage, a: string, b: string)
    requires Lower(b) == Lower(a)
    ensures Load(true, Clear(true, st, a), b) == Loaded(None, Clear(true, st, a))
  {
    KeyCaseInsensitive(a, b);
  }

  /** Saving or clearing one address leaves every other address's load
      unchanged. */
  lemma {:induction false} OtherAddressesIsolated(inBrowser: bool, st: Storage, a: string, b: string, s: TradingSession)
    requires Lower(b) != Lower(a)
    ensures Load(inBrowser, Save(inBrowser, st, a, s), b).session == Load(inBrowser, st, b).session
    ensures Load(inBrowser, Clear(inBrowser, st, a), b).session == Load(inBrowser, st, b).session
  {
    KeyCaseInsensitive(a, b);
  }
}
