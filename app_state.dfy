/**
 * The application state provider (components/AppStateProvider.tsx): the preferences and their
 * defaults, the compiled catalog built from the remote database and the user's own items,
 * the organization and speech switches, and the chain of rebuilds that runs after every
 * state change.
 */
module AppState {
  import opened Wrappers
  import opened Catalog

  // ---------------------------------------------------------------------------
  // Preferences
  // ---------------------------------------------------------------------------

  /** A preference value as stored in the JSON of the saved preferences. */
  datatype PrefValue = Text(s: string) | Number(n: int) | Flag(b: bool)

  type Prefs = map<string, PrefValue>

  /** JavaScript truthiness of a preference value. */
  predicate Truthy(v: PrefValue) {
    match v
    case Text(s) => s != ""
    case Number(n) => n != 0
    case Flag(b) => b
  }

  /** The preference names, in the order of `DEFAULT_PREFS`. */
  const PrefNames: seq<string> := [
    "dbUrl", "userItems", "itemsPerPage", "itemTagPrefix", "organicModifier", "querySeparator",
    "defaultQuery", "resetQueryKey", "speechStartKey", "appNavBackKey", "appNavViewLeftKey",
    "appNavViewRightKey", "appRestartKey", "appToggleCounterKey", "appCounterUpKey",
    "appCounterDownKey", "noCheat", "overrideOrganizationId", "compactBarcodes", "enableSpeech",
    "selectQueryTime", "searchPrefix", "showCounter"]

  /** `DEFAULT_PREFS`; the database address depends on the deployment and is a parameter. */
  function DefaultPrefs(dbUrl: string): (p: Prefs)
    ensures p.Keys == set k | k in PrefNames
  {
    map[
      "dbUrl" := Text(dbUrl),
      "userItems" := Text(""),
      "itemsPerPage" := Number(4),
      "itemTagPrefix" := Text("#"),
      "organicModifier" := Text("!"),
      "querySeparator" := Text(";"),
      "defaultQuery" := Text(""),
      "resetQueryKey" := Text("`"),
      "speechStartKey" := Text("^Space"),
      "appNavBackKey" := Text("Escape"),
      "appNavViewLeftKey" := Text("["),
      "appNavViewRightKey" := Text("]"),
      "appRestartKey" := Text("+Space"),
      "appToggleCounterKey" := Text("^+c"),
      "appCounterUpKey" := Text("!k"),
      "appCounterDownKey" := Text("!j"),
      "noCheat" := Flag(false),
      "overrideOrganizationId" := Text(""),
      "compactBarcodes" := Flag(false),
      "enableSpeech" := Flag(true),
      "selectQueryTime" := Number(0),
      "searchPrefix" := Text(""),
      "showCounter" := Flag(false)]
  }

  /** A text preference; a missing or non-text value reads as empty. */
  function TextPref(p: Prefs, key: string): string {
    if key in p && p[key].Text? then p[key].s else ""
  }

  /** The preferences the state starts with: the saved ones laid over the defaults. */
  function InitialPrefs(defaults: Prefs, saved: Option<Prefs>): Prefs {
    defaults + saved.GetOr(map[])
  }

  /** A saved preference wins over its default, every default is present, and nothing else
      is added. */
  lemma InitialPrefsLayering(dbUrl: string, saved: Option<Prefs>, k: string)
    ensures var p := InitialPrefs(DefaultPrefs(dbUrl), saved);
      && (k in p <==> k in PrefNames || (saved.Some? && k in saved.value))
      && (saved.Some? && k in saved.value ==> p[k] == saved.value[k])
      && (k in PrefNames && !(saved.Some? && k in saved.value) ==> p[k] == DefaultPrefs(dbUrl)[k])
  {
  }

  /** Reading the user items from the initial preferences gives the saved text, or the empty
      default when none was saved. */
  lemma InitialUserItemsText(dbUrl: string, saved: Prefs)
    ensures TextPref(DefaultPrefs(dbUrl) + saved, "userItems") == TextPref(saved, "userItems")
  {
    assert "userItems" in PrefNames;
    assert DefaultPrefs(dbUrl)["userItems"] == Text("");
  }

  // ---------------------------------------------------------------------------
  // Catalog compilation
  // ---------------------------------------------------------------------------

  /** `v.duplicate || v.ignore`. */
  predicate Rejected(v: Item) {
    v.duplicate || v.ignore
  }

  /** `lodash.reject(items, Rejected)`. */
  function Reject(items: seq<Item>): (r: seq<Item>)
    ensures |r| <= |items|
    ensures forall k :: 0 <= k < |r| ==> !Rejected(r[k])
  {
    if items == [] then [] else (if Rejected(items[0]) then [] else [items[0]]) + Reject(items[1..])
  }

  /** An item survives exactly when it is in the input and not flagged. */
  lemma {:induction false} RejectMembers(items: seq<Item>, x: Item)
    ensures x in Reject(items) <==> x in items && !Rejected(x)
  {
    if items != [] {
      RejectMembers(items[1..], x);
      assert items == [items[0]] + items[1..];
    }
  }

  /** Rejecting works piece by piece, so the order of the survivors is the input order. */
  lemma {:induction false} RejectConcat(a: seq<Item>, b: seq<Item>)
    ensures Reject(a + b) == Reject(a) + Reject(b)
  {
    if a == [] {
      assert a + b == b;
    } else {
      assert (a + b)[1..] == a[1..] + b;
      RejectConcat(a[1..], b);
    }
  }

  /** Nothing is removed from a list without flagged items; in particular rejecting twice
      is rejecting once. */
  lemma {:induction false} RejectUnflagged(items: seq<Item>)
    requires forall k :: 0 <= k < |items| ==> !Rejected(items[k])
    ensures Reject(items) == items
  {
    if items != [] {
      RejectUnflagged(items[1..]);
    }
  }

  /** `_buildItemData(remote, user)`. */
  function BuildItemData(remoteData: seq<Item>, userData: seq<Item>): seq<Item> {
    Reject(remoteData + userData)
  }

  /** The compiled catalog is the unflagged remote items, in order, then the unflagged user
      items, in order; compiling is idempotent. */
  lemma BuildItemDataLayout(remoteData: seq<Item>, userData: seq<Item>)
    ensures BuildItemData(remoteData, userData) == Reject(remoteData) + Reject(userData)
    ensures forall x :: x in BuildItemData(remoteData, userData) <==>
      (x in remoteData || x in userData) && !Rejected(x)
    ensures BuildItemData(BuildItemData(remoteData, userData), []) == BuildItemData(remoteData, userData)
  {
    RejectConcat(remoteData, userData);
    forall x ensures x in BuildItemData(remoteData, userData) <==> (x in remoteData || x in userData) && !Rejected(x) {
      RejectMembers(remoteData + userData, x);
    }
    var c := BuildItemData(remoteData, userData);
    assert c + [] == c;
    RejectUnflagged(c);
  }

  /** The item made from one `name: value` line of the user's items. */
  function UserItem(name: string, value: string): Item {
    Item(Some(name), Str(value), Some(["user"]), None, None, None, false, false)
  }

  /** `_buildUserItemsData`: the parsed pairs, in order, as items tagged "user"; nothing
      when the text does not parse. The parse (YAML, then `toPairs`) is a parameter. */
  function BuildUserItemsData(parsed: Option<seq<(string, string)>>): (r: seq<Item>)
    ensures parsed.None? ==> r == []
    ensures parsed.Some? ==> |r| == |parsed.value|
    ensures parsed.Some? ==> forall k :: 0 <= k < |r| ==>
      r[k].name == Some(parsed.value[k].0) && r[k].value == Str(parsed.value[k].1) && HasTag(r[k], "user")
  {
    match parsed
    case None => []
    case Some(ps) => seq(|ps|, k requires 0 <= k < |ps| => UserItem(ps[k].0, ps[k].1))
  }

  /** The user's items are never flagged, so all of them reach the compiled catalog, after
      the remote ones. */
  lemma UserItemsAllCompiled(remoteData: seq<Item>, parsed: Option<seq<(string, string)>>)
    ensures var u := BuildUserItemsData(parsed);
      BuildItemData(remoteData, u) == Reject(remoteData) + u
  {
    var u := BuildUserItemsData(parsed);
    RejectConcat(remoteData, u);
    RejectUnflagged(u);
  }

  // ---------------------------------------------------------------------------
  // Organization and speech
  // ---------------------------------------------------------------------------

  /** `_getOrganization`: the override when set, else the database's organization, else "". */
  function GetOrganization(overrideId: string, dbOrganization: Option<string>): (r: string)
    ensures overrideId != "" ==> r == overrideId
    ensures overrideId == "" ==> r == dbOrganization.GetOr("")
    ensures r == "" <==> overrideId == "" && (dbOrganization.None? || dbOrganization.value == "")
  {
    if overrideId != "" then overrideId
    else if dbOrganization.Some? && dbOrganization.value != "" then dbOrganization.value
    else ""
  }

  // ---------------------------------------------------------------------------
  // The provider
  // ---------------------------------------------------------------------------

  /** A database as fetched or cached: its description and its items. */
  datatype RemoteDb = RemoteDb(name: string, version: string, organization: string, items: seq<Item>)

  datatype DbInfo = DbInfo(name: string, version: string, organization: string)

  function InfoOf(db: RemoteDb): DbInfo {
    DbInfo(db.name, db.version, db.organization)
  }

  // ---------------------------------------------------------------------------
  // The remote items before any database arrives
  // ---------------------------------------------------------------------------

  /** `state.remoteItemData` as the constructor leaves it: only a valid cached database sets
      it, and otherwise it is `undefined` (`None`); the local `remoteItemData ?? []` the
      constructor compiles from is not stored. */
  function StateRemoteAsWritten(cachedDb: Option<RemoteDb>): (r: Option<seq<Item>>)
    ensures r.None? <==> cachedDb.None?
    ensures r.Some? ==> r.value == cachedDb.value.items
  {
    if cachedDb.Some? then Some(cachedDb.value.items) else None
  }

  /** `componentDidMount` on the remote items: with an address they are left for the fetch,
      without one they become `[]`. */
  function RemoteAfterMount(remote: Option<seq<Item>>, hasAddress: bool): (r: Option<seq<Item>>)
    ensures hasAddress ==> r == remote
    ensures !hasAddress ==> r == Some([])
  {
    if hasAddress then remote else Some([])
  }

  /** The answer of the fetch on the remote items: a database replaces them, a failure leaves
      them. */
  function RemoteAfterFetch(remote: Option<seq<Item>>, fetched: Option<RemoteDb>): (r: Option<seq<Item>>)
    ensures fetched.Some? ==> r == Some(fetched.value.items)
    ensures fetched.None? ==> r == remote
  {
    if fetched.Some? then Some(fetched.value.items) else remote
  }

  /** `_buildItemData(remote, user)` on the state as written: spreading an `undefined` list
      throws a `TypeError` (`None`). */
  function BuildItemDataAsWritten(remote: Option<seq<Item>>, user: seq<Item>): (r: Option<seq<Item>>)
    ensures r.None? <==> remote.None?
    ensures r.Some? ==> r.value == Reject(remote.value) + Reject(user)
  {
    if remote.None? then None
    else
      BuildItemDataLayout(remote.value, user);
      Some(BuildItemData(remote.value, user))
  }

  /** As written: without a cached database, with an address whose fetch fails, the first
      edit of the user items makes the catalog rebuild throw. */
  lemma UncachedEditThrows(user: seq<Item>)
    ensures var remote := RemoteAfterFetch(RemoteAfterMount(StateRemoteAsWritten(None), true), None);
      remote.None? && BuildItemDataAsWritten(remote, user).None?
  {
  }

  /** The remote items the state starts with, as the constructor's own `?? []` intends: the
      cached database's items, or none. */
  function InitialRemoteItems(cachedDb: Option<RemoteDb>): (r: seq<Item>)
    ensures cachedDb.Some? ==> r == cachedDb.value.items
    ensures cachedDb.None? ==> r == []
    ensures StateRemoteAsWritten(cachedDb).Some? ==> Some(r) == StateRemoteAsWritten(cachedDb)
  {
    if cachedDb.Some? then cachedDb.value.items else []
  }

  /** Corrected: starting from `InitialRemoteItems`, the remote items are a list after the
      mount and after any fetch, so the catalog rebuild never throws; in the scenario of
      `UncachedEditThrows` the catalog is the user's unflagged items. */
  lemma InitialRemoteNeverThrows(cachedDb: Option<RemoteDb>, hasAddress: bool, fetched: Option<RemoteDb>, user: seq<Item>)
    ensures var remote := RemoteAfterFetch(RemoteAfterMount(Some(InitialRemoteItems(cachedDb)), hasAddress), fetched);
      BuildItemDataAsWritten(remote, user).Some?
    ensures cachedDb.None? && hasAddress && fetched.None? ==>
      var remote := RemoteAfterFetch(RemoteAfterMount(Some(InitialRemoteItems(cachedDb)), hasAddress), fetched);
      BuildItemDataAsWritten(remote, user) == Some(Reject(user))
  {
    if cachedDb.None? && hasAddress && fetched.None? {
      var remote := RemoteAfterFetch(RemoteAfterMount(Some(InitialRemoteItems(cachedDb)), hasAddress), fetched);
      assert remote == Some([]);
      assert Reject([]) + Reject(user) == Reject(user);
    }
  }

  /** The part of the state `componentDidUpdate` compares with the previous state. The lists
      are compared by identity, which the versions stand for. */
  datatype Snapshot = Snapshot(
    userItems: string,
    dbUrl: Option<PrefValue>,
    userVersion: nat,
    remoteVersion: nat,
    compiledVersion: nat)

  class Provider {
    const browserSupportsSpeech: bool
    const defaultPrefs: Prefs
    /** YAML parsing of the user items followed by `toPairs`. */
    const parseUserItems: string -> Option<seq<(string, string)>>

    var prefs: Prefs
    var dbInfo: Option<DbInfo>
    var remoteItemData: seq<Item>
    var remoteVersion: nat
    var userItemData: seq<Item>
    var userVersion: nat
    var compiledItemData: seq<Item>
    var compiledVersion: nat
    /** The catalog the search index (`_fuse`) was built from, and that catalog's version. */
    var indexData: seq<Item>
    var indexVersion: nat
    /** The next unused list identity. */
    var nextVersion: nat

    ghost predicate Valid()
      reads this
    {
      remoteVersion < nextVersion && userVersion < nextVersion && compiledVersion < nextVersion
    }

    /** Every derived list is built from the current sources and the index from the current
        catalog. */
    ghost predicate Settled()
      reads this
    {
      && userItemData == BuildUserItemsData(parseUserItems(TextPref(prefs, "userItems")))
      && compiledItemData == BuildItemData(remoteItemData, userItemData)
      && indexData == compiledItemData && indexVersion == compiledVersion
    }

    function Snap(): Snapshot
      reads this
    {
      Snapshot(TextPref(prefs, "userItems"), DbUrl(), userVersion, remoteVersion, compiledVersion)
    }

    /** What is still to be rebuilt after a render whose previous state was `prev`: 3 when
        the sources of the user items or of the remote items changed, 2 when a list the
        catalog is built from changed, 1 when the catalog changed, 0 when nothing did. */
    function Stage(prev: Snapshot): nat
      reads this
    {
      var cur := Snap();
      if cur.userItems != prev.userItems || cur.dbUrl != prev.dbUrl then 3
      else if cur.userVersion != prev.userVersion || cur.remoteVersion != prev.remoteVersion then 2
      else if cur.compiledVersion != prev.compiledVersion then 1
      else 0
    }

    /** Each derived list is up to date when none of its sources changed since `prev`. */
    ghost predicate Converging(prev: Snapshot)
      reads this
    {
      var cur := Snap();
      var userSame := cur.userItems == prev.userItems;
      var sourcesSame := userSame && cur.userVersion == prev.userVersion && cur.remoteVersion == prev.remoteVersion;
      && (userSame ==> userItemData == BuildUserItemsData(parseUserItems(TextPref(prefs, "userItems"))))
      && (sourcesSame ==> compiledItemData == BuildItemData(remoteItemData, userItemData))
      && (sourcesSame && cur.compiledVersion == prev.compiledVersion ==>
            indexData == compiledItemData && indexVersion == compiledVersion)
    }

    predicate SpeechEnabled()
      reads this
    {
      browserSupportsSpeech && "enableSpeech" in prefs && Truthy(prefs["enableSpeech"])
    }

    function Organization(): string
      reads this
    {
      GetOrganization(TextPref(prefs, "overrideOrganizationId"),
        if dbInfo.Some? then Some(dbInfo.value.organization) else None)
    }

    /** The constructor: defaults, then the saved preferences; the valid cached database if
        any; the user items and the catalog built from them. */
    constructor(dbUrl: string, savedPrefs: Option<Prefs>, cachedDb: Option<RemoteDb>,
                parseUserItems: string -> Option<seq<(string, string)>>, browserSupportsSpeech: bool)
      ensures this.parseUserItems == parseUserItems && this.browserSupportsSpeech == browserSupportsSpeech
      ensures defaultPrefs == DefaultPrefs(dbUrl) && prefs == InitialPrefs(defaultPrefs, savedPrefs)
      ensures remoteItemData == InitialRemoteItems(cachedDb)
      ensures dbInfo == (if cachedDb.Some? then Some(InfoOf(cachedDb.value)) else None)
      ensures Valid() && Settled()
    {
      var saved := savedPrefs.GetOr(map[]);
      var user := BuildUserItemsData(parseUserItems(TextPref(saved, "userItems")));
      var remote := InitialRemoteItems(cachedDb);
      var compiled := BuildItemData(remote, user);
      this.browserSupportsSpeech := browserSupportsSpeech;
      this.parseUserItems := parseUserItems;
      defaultPrefs := DefaultPrefs(dbUrl);
      prefs := DefaultPrefs(dbUrl) + saved;
      dbInfo := if cachedDb.Some? then Some(InfoOf(cachedDb.value)) else None;
      remoteItemData := remote;
      remoteVersion := 0;
      userItemData := user;
      userVersion := 1;
      compiledItemData := compiled;
      compiledVersion := 2;
      indexData := compiled;
      indexVersion := 2;
      nextVersion := 3;
      InitialUserItemsText(dbUrl, saved);
    }

    function DbUrl(): Option<PrefValue>
      reads this
    {
      if "dbUrl" in prefs then Some(prefs["dbUrl"]) else None
    }

    /** The database address changed to an empty one since `prev`. */
    predicate DbUrlCleared(prev: Snapshot)
      reads this
    {
      DbUrl() != prev.dbUrl && !(DbUrl().Some? && Truthy(DbUrl().value))
    }

    /** One `componentDidUpdate(prevState)`. Its `setState` calls take effect after it
        returns, so every rebuild reads the state as it was on entry. */
    method DidUpdate(prev: Snapshot)
      requires Valid()
      modifies this
      ensures Valid() && prefs == old(prefs)
      ensures DbUrlCleared(prev) ==> dbInfo.None? && remoteItemData == [] && remoteVersion != old(remoteVersion)
      ensures !DbUrlCleared(prev) ==> dbInfo == old(dbInfo) && remoteItemData == old(remoteItemData)
      ensures !DbUrlCleared(prev) ==> remoteVersion == old(remoteVersion)
      ensures TextPref(prefs, "userItems") != prev.userItems ==>
        userItemData == BuildUserItemsData(parseUserItems(TextPref(prefs, "userItems")))
        && userVersion != old(userVersion)
      ensures TextPref(prefs, "userItems") == prev.userItems ==>
        userItemData == old(userItemData) && userVersion == old(userVersion)
      ensures old(userVersion) != prev.userVersion || old(remoteVersion) != prev.remoteVersion ==>
        compiledItemData == BuildItemData(old(remoteItemData), old(userItemData))
        && compiledVersion != old(compiledVersion)
      ensures old(userVersion) == prev.userVersion && old(remoteVersion) == prev.remoteVersion ==>
        compiledItemData == old(compiledItemData) && compiledVersion == old(compiledVersion)
      ensures old(compiledVersion) != prev.compiledVersion ==>
        indexData == old(compiledItemData) && indexVersion == old(compiledVersion)
      ensures old(compiledVersion) == prev.compiledVersion ==>
        indexData == old(indexData) && indexVersion == old(indexVersion)
    {
      var clearRemote := DbUrlCleared(prev);
      var rebuildUser := TextPref(prefs, "userItems") != prev.userItems;
      var rebuildCompiled := userVersion != prev.userVersion || remoteVersion != prev.remoteVersion;
      var rebuildIndex := compiledVersion != prev.compiledVersion;
      // Each step reads only what the steps after it leave alone, so all of them see the
      // state as it was on entry.
      if rebuildIndex {
        RebuildIndex();
      }
      if rebuildCompiled {
        RebuildCompiled();
      }
      if rebuildUser {
        RebuildUser();
      }
      if clearRemote {
        ClearRemote();
      }
    }

    /** `this._fuse = this._createFuse(this.state.compiledItemData)`. */
    method RebuildIndex()
      modifies this
      ensures indexData == compiledItemData && indexVersion == compiledVersion
      ensures prefs == old(prefs) && dbInfo == old(dbInfo) && nextVersion == old(nextVersion)
      ensures remoteItemData == old(remoteItemData) && remoteVersion == old(remoteVersion)
      ensures userItemData == old(userItemData) && userVersion == old(userVersion)
      ensures compiledItemData == old(compiledItemData) && compiledVersion == old(compiledVersion)
    {
      indexData, indexVersion := compiledItemData, compiledVersion;
    }

    method RebuildCompiled()
      requires Valid()
      modifies this
      ensures Valid()
      ensures compiledItemData == BuildItemData(remoteItemData, userItemData) && compiledVersion != old(compiledVersion)
      ensures prefs == old(prefs) && dbInfo == old(dbInfo)
      ensures remoteItemData == old(remoteItemData) && remoteVersion == old(remoteVersion)
      ensures userItemData == old(userItemData) && userVersion == old(userVersion)
      ensures indexData == old(indexData) && indexVersion == old(indexVersion)
    {
      compiledItemData, compiledVersion := BuildItemData(remoteItemData, userItemData), nextVersion;
      nextVersion := nextVersion + 1;
    }

    method RebuildUser()
      requires Valid()
      modifies this
      ensures Valid()
      ensures userItemData == BuildUserItemsData(parseUserItems(TextPref(prefs, "userItems")))
      ensures userVersion != old(userVersion)
      ensures prefs == old(prefs) && dbInfo == old(dbInfo)
      ensures remoteItemData == old(remoteItemData) && remoteVersion == old(remoteVersion)
      ensures compiledItemData == old(compiledItemData) && compiledVersion == old(compiledVersion)
      ensures indexData == old(indexData) && indexVersion == old(indexVersion)
    {
      userItemData, userVersion := BuildUserItemsData(parseUserItems(TextPref(prefs, "userItems"))), nextVersion;
      nextVersion := nextVersion + 1;
    }

    /** The address was emptied: `dbInfo: undefined, remoteItemData: []`. */
    method ClearRemote()
      requires Valid()
      modifies this
      ensures Valid()
      ensures dbInfo.None? && remoteItemData == [] && remoteVersion != old(remoteVersion)
      ensures prefs == old(prefs)
      ensures userItemData == old(userItemData) && userVersion == old(userVersion)
      ensures compiledItemData == old(compiledItemData) && compiledVersion == old(compiledVersion)
      ensures indexData == old(indexData) && indexVersion == old(indexVersion)
    {
      dbInfo, remoteItemData, remoteVersion := None, [], nextVersion;
      nextVersion := nextVersion + 1;
    }

    /** One round of the rebuild chain moves it one stage on. */
    method Rerender(prev: Snapshot) returns (entry: Snapshot)
      requires Valid() && Converging(prev)
      modifies this
      ensures Valid() && Converging(entry) && prefs == old(prefs)
      ensures entry == old(Snap())
      ensures Stage(entry) < old(Stage(prev)) || old(Stage(prev)) == 0
      ensures old(Snap()).userItems == prev.userItems ==>
        userItemData == old(userItemData) && userVersion == old(userVersion)
      ensures old(DbUrlCleared(prev)) ==> dbInfo.None? && remoteItemData == []
      ensures !old(DbUrlCleared(prev)) ==> dbInfo == old(dbInfo) && remoteItemData == old(remoteItemData)
    {
      entry := Snap();
      DidUpdate(prev);
    }

    /** The renders that follow a state change, until nothing more is rebuilt. */
    method Settle(prev: Snapshot)
      requires Valid() && Converging(prev)
      modifies this
      ensures Valid() && Settled() && prefs == old(prefs)
      ensures prev.userItems == old(Snap()).userItems ==>
        userItemData == old(userItemData) && userVersion == old(userVersion)
      ensures old(DbUrlCleared(prev)) ==> dbInfo.None? && remoteItemData == []
      ensures !old(DbUrlCleared(prev)) ==> dbInfo == old(dbInfo) && remoteItemData == old(remoteItemData)
    {
      var p := prev;
      ghost var first := true;
      while Stage(p) > 0
        invariant Valid() && Converging(p) && prefs == old(prefs)
        invariant first ==> p == prev && dbInfo == old(dbInfo) && remoteItemData == old(remoteItemData)
        invariant !first ==> p.dbUrl == DbUrl()
        invariant !first && old(DbUrlCleared(prev)) ==> dbInfo.None? && remoteItemData == []
        invariant !first && !old(DbUrlCleared(prev)) ==> dbInfo == old(dbInfo) && remoteItemData == old(remoteItemData)
        invariant prev.userItems == old(Snap()).userItems ==>
          p.userItems == Snap().userItems && userItemData == old(userItemData) && userVersion == old(userVersion)
        decreases Stage(p)
      {
        p := Rerender(p);
        first := false;
      }
    }

    /** `setState({[key]: value})` for a preference, and the rebuilds it causes. */
    method SetPref(key: string, value: PrefValue)
      requires Valid() && Settled()
      modifies this
      ensures Valid() && Settled()
      ensures prefs == old(prefs)[key := value]
      ensures TextPref(prefs, "userItems") == old(TextPref(prefs, "userItems")) ==>
        userItemData == old(userItemData) && userVersion == old(userVersion)
      ensures key == "dbUrl" && old(DbUrl()) != Some(value) && !Truthy(value) ==>
        dbInfo.None? && remoteItemData == []
      ensures !(key == "dbUrl" && old(DbUrl()) != Some(value) && !Truthy(value)) ==>
        dbInfo == old(dbInfo) && remoteItemData == old(remoteItemData)
    {
      var prev := Snap();
      prefs := prefs[key := value];
      Settle(prev);
    }

    /** `resetAll`: every preference back to its default; other state is kept. */
    method ResetAll()
      requires Valid() && Settled()
      modifies this
      ensures Valid() && Settled()
      ensures prefs == old(prefs) + defaultPrefs
      ensures forall k :: k in defaultPrefs ==> prefs[k] == defaultPrefs[k]
      ensures forall k :: k in old(prefs) && k !in defaultPrefs ==> k in prefs && prefs[k] == old(prefs)[k]
      ensures DbUrl() != old(DbUrl()) && !(DbUrl().Some? && Truthy(DbUrl().value)) ==>
        dbInfo.None? && remoteItemData == []
      ensures !(DbUrl() != old(DbUrl()) && !(DbUrl().Some? && Truthy(DbUrl().value))) ==>
        dbInfo == old(dbInfo) && remoteItemData == old(remoteItemData)
    {
      var prev := Snap();
      prefs := prefs + defaultPrefs;
      Settle(prev);
    }

    /** The fetched database arrives: its description and items replace the old ones. A
        failed fetch changes nothing. */
    method ReceiveRemoteDb(fetched: Option<RemoteDb>)
      requires Valid() && Settled()
      modifies this
      ensures Valid() && Settled() && prefs == old(prefs)
      ensures fetched.Some? ==> dbInfo == Some(InfoOf(fetched.value)) && remoteItemData == fetched.value.items
      ensures fetched.None? ==> (dbInfo == old(dbInfo) && remoteItemData == old(remoteItemData)
        && compiledItemData == old(compiledItemData))
    {
      if fetched.Some? {
        var prev := Snap();
        dbInfo := Some(InfoOf(fetched.value));
        remoteItemData := fetched.value.items;
        remoteVersion := nextVersion;
        nextVersion := nextVersion + 1;
        Settle(prev);
      }
    }

    /** `componentDidMount`: without a database address the remote items are cleared (with
        one, the fetch answers later through `ReceiveRemoteDb`); without browser support
        speech is switched off. */
    method Mount()
      requires Valid() && Settled()
      modifies this
      ensures Valid() && Settled()
      ensures prefs == if browserSupportsSpeech then old(prefs) else old(prefs)["enableSpeech" := Flag(false)]
      ensures !browserSupportsSpeech ==> !SpeechEnabled()
      ensures !("dbUrl" in old(prefs) && Truthy(old(prefs)["dbUrl"])) ==> dbInfo.None? && remoteItemData == []
      ensures "dbUrl" in old(prefs) && Truthy(old(prefs)["dbUrl"]) ==>
        dbInfo == old(dbInfo) && remoteItemData == old(remoteItemData)
    {
      var prev := Snap();
      if !("dbUrl" in prefs && Truthy(prefs["dbUrl"])) {
        dbInfo := None;
        remoteItemData := [];
        remoteVersion := nextVersion;
        nextVersion := nextVersion + 1;
      }
      if !browserSupportsSpeech {
        prefs := prefs["enableSpeech" := Flag(false)];
      }
      Settle(prev);
    }
  }
}
