/** The token registry: an index from contract addresses to coins, and one from coins to contracts. */
module Registry {
  import opened Common

  /** Lower-casing of the letters A to Z. */
  function LowerChar(c: char): char {
    if 'A' <= c <= 'Z' then (c as int + 32) as char else c
  }

  function Lower(s: string): string {
    seq(|s|, i requires 0 <= i < |s| => LowerChar(s[i]))
  }

  /** Two strings that differ at most in the case of the letters A to Z. */
  predicate SameLetters(x: string, y: string) {
    |x| == |y| && forall i :: 0 <= i < |x| ==>
      || x[i] == y[i]
      || ('A' <= x[i] <= 'Z' && y[i] as int == x[i] as int + 32)
      || ('A' <= y[i] <= 'Z' && x[i] as int == y[i] as int + 32)
  }

  lemma LowerIgnoresCase(x: string, y: string)
    ensures Lower(x) == Lower(y) <==> SameLetters(x, y)
  {
    if SameLetters(x, y) {
      forall i | 0 <= i < |x| ensures Lower(x)[i] == Lower(y)[i] {
      }
    }
    if Lower(x) == Lower(y) {
      assert |x| == |Lower(x)| == |y|;
      forall i | 0 <= i < |x| ensures LowerChar(x[i]) == LowerChar(y[i]) {
        assert Lower(x)[i] == Lower(y)[i];
      }
    }
  }

  datatype Contract = Contract(chain: string, address: string)

  datatype Entry = Entry(id: string, platforms: map<string, string>)

  function Key(c: Contract): string {
    c.chain + ":" + c.address
  }

  function Normal(chain: string, address: string): Contract {
    Contract(Lower(chain), Lower(address))
  }

  function AddrKey(chain: string, address: string): string {
    Key(Normal(chain, address))
  }

  lemma KeyParts(c: Contract)
    ensures |Key(c)| == |c.chain| + 1 + |c.address| && Key(c)[|c.chain|] == ':'
    ensures Key(c)[..|c.chain|] == c.chain && Key(c)[|c.chain| + 1..] == c.address
  {
  }

  lemma LowerKeepsSeparator(s: string)
    ensures ':' in Lower(s) <==> ':' in s
  {
    if i :| 0 <= i < |s| && s[i] == ':' {
      assert Lower(s)[i] == ':';
    }
    if i :| 0 <= i < |s| && Lower(s)[i] == ':' {
      assert s[i] == ':';
    }
  }

  /** Unless a chain contains the separator, two addresses have one key exactly if they are the same but for case. */
  lemma AddrKeyInFull(chain: string, address: string, chain': string, address': string)
    requires ':' !in chain && ':' !in chain'
    ensures AddrKey(chain, address) == AddrKey(chain', address')
       <==> SameLetters(chain, chain') && SameLetters(address, address')
  {
    var c, c' := Normal(chain, address), Normal(chain', address');
    LowerIgnoresCase(chain, chain');
    LowerIgnoresCase(address, address');
    LowerKeepsSeparator(chain);
    LowerKeepsSeparator(chain');
    KeyParts(c);
    KeyParts(c');
    if Key(c) == Key(c') && |c.chain| < |c'.chain| {
      LongerHasSeparator(c, c');
    } else if Key(c) == Key(c') && |c'.chain| < |c.chain| {
      LongerHasSeparator(c', c);
    }
  }

  lemma LongerHasSeparator(c: Contract, c': Contract)
    requires Key(c) == Key(c') && |c.chain| < |c'.chain|
    ensures ':' in c'.chain
  {
    KeyParts(c);
    KeyParts(c');
    assert Key(c')[..|c'.chain|][|c.chain|] == ':';
  }

  /** The two maps. */
  datatype Index = Index(byAddr: map<string, string>, byCoinID: map<string, seq<Contract>>)

  const EMPTY := Index(map[], map[])

  function Of(m: map<string, seq<Contract>>, coinID: string): seq<Contract> {
    if coinID in m then m[coinID] else []
  }

  /** Set one address and list its contract, whatever was there before. */
  function Put(x: Index, chain: string, address: string, coinID: string): Index {
    Index(x.byAddr[AddrKey(chain, address) := coinID],
          x.byCoinID[coinID := Of(x.byCoinID, coinID) + [Normal(chain, address)]])
  }

  /** An address that is already registered keeps its coin. */
  function Added(x: Index, chain: string, address: string, coinID: string): Index {
    if AddrKey(chain, address) in x.byAddr then x else Put(x, chain, address, coinID)
  }

  predicate NoCapitals(s: string) {
    forall i :: 0 <= i < |s| ==> !('A' <= s[i] <= 'Z')
  }

  /** An address added for the first time resolves to its coin in any case, and its contract is listed in lower case. */
  lemma AddedInFull(x: Index, chain: string, address: string, coinID: string, chain': string, address': string)
    requires SameLetters(chain, chain') && SameLetters(address, address')
    ensures
      var key, y := AddrKey(chain', address'), Added(x, chain, address, coinID);
      if key in x.byAddr then y == x
      else
        && y.byAddr == x.byAddr[key := coinID]
        && |Of(y.byCoinID, coinID)| == |Of(x.byCoinID, coinID)| + 1
        && Of(y.byCoinID, coinID)[..|Of(x.byCoinID, coinID)|] == Of(x.byCoinID, coinID)
        && (forall c :: c != coinID ==> Of(y.byCoinID, c) == Of(x.byCoinID, c))
        && var listed := Of(y.byCoinID, coinID)[|Of(x.byCoinID, coinID)|];
           && SameLetters(listed.chain, chain) && SameLetters(listed.address, address)
           && NoCapitals(listed.chain) && NoCapitals(listed.address)
  {
    LowerIgnoresCase(chain, chain');
    LowerIgnoresCase(address, address');
  }

  /** Is this platform of an entry loaded? */
  predicate Loadable(e: Entry, allowed: set<string>, chain: string) {
    chain in e.platforms && e.platforms[chain] != "" && chain in allowed
  }

  /** The entry gives its coin the address behind `key`. */
  ghost predicate Claims(e: Entry, allowed: set<string>, key: string) {
    exists chain :: Loadable(e, allowed, chain) && AddrKey(chain, e.platforms[chain]) == key
  }

  /** Who owns an address after a catalogue is loaded: its last claimant, else whoever owned it before. */
  ghost function Owner(before: map<string, string>, entries: seq<Entry>, allowed: set<string>, key: string)
    : Option<string>
  {
    if entries == [] then if key in before then Some(before[key]) else None
    else
      var last := entries[|entries| - 1];
      if Claims(last, allowed, key) then Some(last.id) else Owner(before, entries[..|entries| - 1], allowed, key)
  }

  /** The platforms of an entry, among `chains`, whose contract is c. */
  function Giving(e: Entry, allowed: set<string>, chains: set<string>, c: Contract): set<string> {
    set chain | chain in chains && Loadable(e, allowed, chain) && Normal(chain, e.platforms[chain]) == c
  }

  /** How often loading a catalogue lists the contract c under a coin. */
  function Gained(entries: seq<Entry>, allowed: set<string>, coinID: string, c: Contract): nat {
    if entries == [] then 0
    else
      var last := entries[|entries| - 1];
      Gained(entries[..|entries| - 1], allowed, coinID, c)
        + if last.id == coinID then |Giving(last, allowed, last.platforms.Keys, c)| else 0
  }

  function Times(m: map<string, seq<Contract>>, coinID: string, c: Contract): nat {
    multiset(Of(m, coinID))[c]
  }

  /** Each coin's list has gained each contract as often as the catalogue gives it. */
  ghost predicate Gains(after: map<string, seq<Contract>>, before: map<string, seq<Contract>>, entries: seq<Entry>,
                        allowed: set<string>) {
    forall coinID: string, c: Contract ::
      Times(after, coinID, c) == Times(before, coinID, c) + Gained(entries, allowed, coinID, c)
  }

  /** byAddr says of every address what Owner says. */
  ghost predicate Owns(after: map<string, string>, before: map<string, string>, entries: seq<Entry>,
                       allowed: set<string>) {
    forall key :: (if key in after then Some(after[key]) else None) == Owner(before, entries, allowed, key)
  }

  ghost predicate Listed(x: Index, key: string, coinID: string) {
    exists i :: 0 <= i < |Of(x.byCoinID, coinID)| && Key(Of(x.byCoinID, coinID)[i]) == key
  }

  /** Every registered address is among the contracts of the coin it resolves to. */
  ghost predicate Consistent(x: Index) {
    forall key :: key in x.byAddr ==> Listed(x, key, x.byAddr[key])
  }

  /** The contract lists only ever grow. */
  ghost predicate Extends(x: Index, y: Index) {
    && (forall coinID :: Of(x.byCoinID, coinID) <= Of(y.byCoinID, coinID))
    && x.byAddr.Keys <= y.byAddr.Keys
  }

  lemma ListedStays(x: Index, y: Index, key: string, coinID: string)
    requires Extends(x, y) && Listed(x, key, coinID)
    ensures Listed(y, key, coinID)
  {
    var i :| 0 <= i < |Of(x.byCoinID, coinID)| && Key(Of(x.byCoinID, coinID)[i]) == key;
    assert Of(x.byCoinID, coinID) <= Of(y.byCoinID, coinID);
    assert Of(y.byCoinID, coinID)[i] == Of(x.byCoinID, coinID)[i];
  }

  lemma PutKeepsConsistent(x: Index, chain: string, address: string, coinID: string)
    requires Consistent(x)
    ensures Consistent(Put(x, chain, address, coinID)) && Extends(x, Put(x, chain, address, coinID))
  {
    var y := Put(x, chain, address, coinID);
    assert Extends(x, y);
    forall key | key in y.byAddr ensures Listed(y, key, y.byAddr[key]) {
      if key == AddrKey(chain, address) {
        assert Key(Of(y.byCoinID, coinID)[|Of(x.byCoinID, coinID)|]) == key;
      } else {
        ListedStays(x, y, key, x.byAddr[key]);
      }
    }
  }

  // ----- the two indexes as inverses -----

  predicate Resolves(x: Index, key: string, coinID: string) {
    key in x.byAddr && x.byAddr[key] == coinID
  }

  /** Every listed contract resolves to the coin it is listed under. */
  ghost predicate Backed(x: Index) {
    forall coinID, i :: 0 <= i < |Of(x.byCoinID, coinID)| ==> Resolves(x, Key(Of(x.byCoinID, coinID)[i]), coinID)
  }

  ghost predicate NoDuplicates(x: Index) {
    forall coinID, i, j :: 0 <= i < j < |Of(x.byCoinID, coinID)| ==>
      Key(Of(x.byCoinID, coinID)[i]) != Key(Of(x.byCoinID, coinID)[j])
  }

  /** byCoinID is the inverse of byAddr, without duplicates. */
  ghost predicate Inverse(x: Index) {
    Consistent(x) && Backed(x) && NoDuplicates(x)
  }

  lemma PutKeepsBacked(x: Index, chain: string, address: string, coinID: string)
    requires Backed(x) && AddrKey(chain, address) !in x.byAddr
    ensures Backed(Put(x, chain, address, coinID))
  {
    var y := Put(x, chain, address, coinID);
    forall c, i | 0 <= i < |Of(y.byCoinID, c)|
      ensures Key(Of(y.byCoinID, c)[i]) in y.byAddr && y.byAddr[Key(Of(y.byCoinID, c)[i])] == c
    {
      if i < |Of(x.byCoinID, c)| {
        assert Of(y.byCoinID, c)[i] == Of(x.byCoinID, c)[i];
      }
    }
  }

  lemma PutKeepsNoDuplicates(x: Index, chain: string, address: string, coinID: string)
    requires Backed(x) && NoDuplicates(x) && AddrKey(chain, address) !in x.byAddr
    ensures NoDuplicates(Put(x, chain, address, coinID))
  {
    var y := Put(x, chain, address, coinID);
    forall c, i, j | 0 <= i < j < |Of(y.byCoinID, c)|
      ensures Key(Of(y.byCoinID, c)[i]) != Key(Of(y.byCoinID, c)[j])
    {
      assert Of(y.byCoinID, c)[i] == Of(x.byCoinID, c)[i];
      assert Key(Of(x.byCoinID, c)[i]) in x.byAddr;
      if j < |Of(x.byCoinID, c)| {
        assert Of(y.byCoinID, c)[j] == Of(x.byCoinID, c)[j];
      }
    }
  }

  /**
   A write that does not look keeps the inverse exactly when the address is new. An address written
   again is listed twice, and one given to another coin stays listed under the old one.
   */
  lemma PutKeepsInverseIff(x: Index, chain: string, address: string, coinID: string)
    requires Inverse(x)
    ensures Inverse(Put(x, chain, address, coinID)) <==> AddrKey(chain, address) !in x.byAddr
  {
    var key, y := AddrKey(chain, address), Put(x, chain, address, coinID);
    if key in x.byAddr {
      var owner := x.byAddr[key];
      var i :| 0 <= i < |Of(x.byCoinID, owner)| && Key(Of(x.byCoinID, owner)[i]) == key;
      assert Of(y.byCoinID, owner)[i] == Of(x.byCoinID, owner)[i];
      assert Of(y.byCoinID, coinID)[|Of(x.byCoinID, coinID)|] == Normal(chain, address);
    } else {
      PutKeepsConsistent(x, chain, address, coinID);
      PutKeepsBacked(x, chain, address, coinID);
      PutKeepsNoDuplicates(x, chain, address, coinID);
    }
  }

  /** Once broken, the inverse stays broken: nothing is ever taken out of a list. */
  lemma PutStaysBroken(x: Index, chain: string, address: string, coinID: string)
    requires Consistent(x) && !Inverse(x)
    ensures !Inverse(Put(x, chain, address, coinID))
  {
    var y, key := Put(x, chain, address, coinID), AddrKey(chain, address);
    if !NoDuplicates(x) {
      var c, i, j :| 0 <= i < j < |Of(x.byCoinID, c)| && Key(Of(x.byCoinID, c)[i]) == Key(Of(x.byCoinID, c)[j]);
      assert Of(y.byCoinID, c)[i] == Of(x.byCoinID, c)[i] && Of(y.byCoinID, c)[j] == Of(x.byCoinID, c)[j];
    } else {
      var c, i :| 0 <= i < |Of(x.byCoinID, c)| && !Resolves(x, Key(Of(x.byCoinID, c)[i]), c);
      assert Of(y.byCoinID, c)[i] == Of(x.byCoinID, c)[i];
      if Key(Of(x.byCoinID, c)[i]) == key && c == coinID {
        assert Key(Of(y.byCoinID, c)[|Of(x.byCoinID, c)|]) == key;
      }
    }
  }

  /** The addresses an entry gives on the platforms `chains` differ from one another. */
  ghost predicate Differ(e: Entry, allowed: set<string>, chains: set<string>) {
    forall chain, other | chain in chains && other in chains && chain != other ::
      Loadable(e, allowed, chain) && Loadable(e, allowed, other) ==>
        AddrKey(chain, e.platforms[chain]) != AddrKey(other, e.platforms[other])
  }

  /** The addresses an entry gives on the platforms `chains` are unowned so far and differ from one another. */
  ghost predicate EntryFresh(known: map<string, string>, e: Entry, allowed: set<string>, chains: set<string>) {
    && (forall chain :: chain in chains && Loadable(e, allowed, chain) ==>
          AddrKey(chain, e.platforms[chain]) !in known)
    && Differ(e, allowed, chains)
  }

  /** The catalogue's loadable addresses are not registered, and no two of them are the same. */
  ghost predicate Fresh(before: map<string, string>, entries: seq<Entry>, allowed: set<string>) {
    entries == []
    || var n, e := |entries| - 1, entries[|entries| - 1];
       && Fresh(before, entries[..n], allowed)
       && (forall chain :: Loadable(e, allowed, chain) ==>
             Owner(before, entries[..n], allowed, AddrKey(chain, e.platforms[chain])).None?)
       && Differ(e, allowed, e.platforms.Keys)
  }

  /** Whether the inverse has survived so far, in terms of the platforms done. */
  ghost predicate Surviving(now: Index, start: Index, e: Entry, allowed: set<string>, chains: set<string>) {
    Inverse(now) <==> Inverse(start) && EntryFresh(start.byAddr, e, allowed, chains)
  }

  lemma SurvivesOne(now: Index, start: Index, e: Entry, allowed: set<string>, chains: set<string>, chain: string)
    requires Consistent(now) && PartlyLoaded(now.byAddr, start.byAddr, e, allowed, chains)
    requires Surviving(now, start, e, allowed, chains) && chain in e.platforms && chain !in chains
    ensures Surviving(if Loadable(e, allowed, chain) then Put(now, chain, e.platforms[chain], e.id) else now,
                      start, e, allowed, chains + {chain})
  {
    if Loadable(e, allowed, chain) {
      var key := AddrKey(chain, e.platforms[chain]);
      if Inverse(now) {
        PutKeepsInverseIff(now, chain, e.platforms[chain], e.id);
      } else {
        PutStaysBroken(now, chain, e.platforms[chain], e.id);
      }
      assert key in now.byAddr <==> ClaimsVia(e, allowed, chains, key) || key in start.byAddr;
      FreshOneMore(start.byAddr, e, allowed, chains, chain);
    } else {
      assert EntryFresh(start.byAddr, e, allowed, chains + {chain}) <==> EntryFresh(start.byAddr, e, allowed, chains);
    }
  }

  lemma FreshOneMore(known: map<string, string>, e: Entry, allowed: set<string>, chains: set<string>, chain: string)
    requires Loadable(e, allowed, chain) && chain !in chains
    ensures
      var key := AddrKey(chain, e.platforms[chain]);
      EntryFresh(known, e, allowed, chains + {chain}) <==>
        EntryFresh(known, e, allowed, chains) && key !in known && !ClaimsVia(e, allowed, chains, key)
  {
    var key := AddrKey(chain, e.platforms[chain]);
    assert chain in chains + {chain};
    if ClaimsVia(e, allowed, chains, key) {
      var c :| c in chains && Loadable(e, allowed, c) && AddrKey(c, e.platforms[c]) == key;
      assert c in chains + {chain};
    }
    if EntryFresh(known, e, allowed, chains + {chain}) {
      assert forall c :: c in chains ==> c in chains + {chain};
    }
  }

  lemma FreshEntry(start: map<string, string>, before: map<string, string>, entries: seq<Entry>, k: nat,
                   allowed: set<string>)
    requires k < |entries| && Owns(start, before, entries[..k], allowed)
    ensures Fresh(before, entries[..k + 1], allowed) <==>
      Fresh(before, entries[..k], allowed) && EntryFresh(start, entries[k], allowed, entries[k].platforms.Keys)
  {
    var e := entries[k];
    assert entries[..k + 1][..k] == entries[..k];
    forall chain | Loadable(e, allowed, chain)
      ensures AddrKey(chain, e.platforms[chain]) in start <==>
              Owner(before, entries[..k], allowed, AddrKey(chain, e.platforms[chain])).Some?
    {
      var key := AddrKey(chain, e.platforms[chain]);
      assert (if key in start then Some(start[key]) else None) == Owner(before, entries[..k], allowed, key);
    }
  }

  class TokenRegistry {
    var byAddr: map<string, string>
    var byCoinID: map<string, seq<Contract>>

    function View(): Index
      reads this
    {
      Index(byAddr, byCoinID)
    }

    constructor ()
      ensures View() == EMPTY && Consistent(View())
    {
      byAddr, byCoinID := map[], map[];
    }

    method Resolve(chain: string, address: string) returns (coinID: Option<string>)
      requires Consistent(View())
      ensures coinID == if AddrKey(chain, address) in byAddr then Some(byAddr[AddrKey(chain, address)]) else None
      ensures coinID.Some? ==> Listed(View(), AddrKey(chain, address), coinID.value)
    {
      var key := AddrKey(chain, address);
      if key in byAddr {
        coinID := Some(byAddr[key]);
      } else {
        coinID := None;
      }
    }

    method Contracts(coinID: string) returns (cs: seq<Contract>)
      ensures cs == Of(byCoinID, coinID)
    {
      cs := Of(byCoinID, coinID);
    }

    method Count() returns (n: nat)
      ensures n == |byAddr|
    {
      n := |byAddr|;
    }

    method Add(chain: string, address: string, coinID: string)
      requires Consistent(View())
      modifies this
      ensures View() == Added(old(View()), chain, address, coinID) && Consistent(View())
    {
      var key := AddrKey(chain, address);
      if key in byAddr {
        return;
      }
      PutKeepsConsistent(View(), chain, address, coinID);
      byAddr := byAddr[key := coinID];
      byCoinID := byCoinID[coinID := Of(byCoinID, coinID) + [Normal(chain, address)]];
    }

    /** The inner loop visits an entry's platforms in arbitrary order. */
    method LoadEntry(e: Entry, allowed: set<string>)
      requires Consistent(View())
      modifies this
      ensures Partial(View(), old(View()), e, allowed, e.platforms.Keys)
    {
      ghost var start := View();
      var pending := e.platforms.Keys;
      NothingDone(start, e, allowed);
      assert e.platforms.Keys - pending == {};
      while pending != {}
        invariant pending <= e.platforms.Keys
        invariant Partial(View(), start, e, allowed, e.platforms.Keys - pending)
      {
        ghost var some := SomeMember(pending);
        var chain :| chain in pending;
        var addr := e.platforms[chain];
        OneMoreDone(View(), start, e, allowed, e.platforms.Keys - pending, chain);
        assert e.platforms.Keys - (pending - {chain}) == (e.platforms.Keys - pending) + {chain};
        if addr != "" && chain in allowed {
          byAddr := byAddr[AddrKey(chain, addr) := e.id];
          byCoinID := byCoinID[e.id := Of(byCoinID, e.id) + [Normal(chain, addr)]];
        }
        pending := pending - {chain};
      }
      assert e.platforms.Keys - pending == e.platforms.Keys;
    }

    /** On two indexes inverse to each other, loading keeps them so exactly when the catalogue is fresh. */
    method LoadCatalog(entries: seq<Entry>, allowed: set<string>)
      requires Consistent(View())
      modifies this
      ensures Consistent(View()) && Extends(old(View()), View())
      ensures Owns(byAddr, old(byAddr), entries, allowed)
      ensures Gains(byCoinID, old(byCoinID), entries, allowed)
      ensures Inverse(old(View())) ==> (Inverse(View()) <==> Fresh(old(byAddr), entries, allowed))
    {
      for k := 0 to |entries|
        invariant Loaded(View(), old(View()), entries[..k], allowed)
      {
        ghost var start := View();
        LoadEntry(entries[k], allowed);
        OneMoreLoaded(View(), start, old(View()), entries, k, allowed);
      }
      assert entries[..|entries|] == entries;
    }
  }

  /** The indexes after a prefix of the catalogue. */
  ghost predicate Loaded(now: Index, before: Index, entries: seq<Entry>, allowed: set<string>) {
    && Consistent(now) && Extends(before, now)
    && Owns(now.byAddr, before.byAddr, entries, allowed)
    && Gains(now.byCoinID, before.byCoinID, entries, allowed)
    && (Inverse(before) ==> (Inverse(now) <==> Fresh(before.byAddr, entries, allowed)))
  }

  /** The indexes after some platforms of an entry. */
  ghost predicate Partial(now: Index, start: Index, e: Entry, allowed: set<string>, chains: set<string>) {
    && Consistent(now) && Extends(start, now)
    && PartlyLoaded(now.byAddr, start.byAddr, e, allowed, chains)
    && PartlyListed(now.byCoinID, start.byCoinID, e, allowed, chains)
    && Surviving(now, start, e, allowed, chains)
  }

  lemma NothingDone(start: Index, e: Entry, allowed: set<string>)
    requires Consistent(start)
    ensures Partial(start, start, e, allowed, {})
  {
    assert forall c :: Giving(e, allowed, {}, c) == {};
  }

  lemma OneMoreDone(now: Index, start: Index, e: Entry, allowed: set<string>, chains: set<string>, chain: string)
    requires Partial(now, start, e, allowed, chains) && chain in e.platforms && chain !in chains
    ensures Partial(if Loadable(e, allowed, chain) then Put(now, chain, e.platforms[chain], e.id) else now,
                    start, e, allowed, chains + {chain})
  {
    LoadOne(now.byAddr, start.byAddr, e, allowed, chains, chain);
    ListOne(now.byCoinID, start.byCoinID, e, allowed, chains, chain);
    SurvivesOne(now, start, e, allowed, chains, chain);
    if Loadable(e, allowed, chain) {
      PutKeepsConsistent(now, chain, e.platforms[chain], e.id);
      ExtendsTransitive(start, now, Put(now, chain, e.platforms[chain], e.id));
    }
  }

  lemma GainedOne(after: map<string, seq<Contract>>, start: map<string, seq<Contract>>,
                  before: map<string, seq<Contract>>, entries: seq<Entry>, k: nat, allowed: set<string>,
                  coinID: string, c: Contract)
    requires k < |entries| && Gains(start, before, entries[..k], allowed)
    requires PartlyListed(after, start, entries[k], allowed, entries[k].platforms.Keys)
    ensures Times(after, coinID, c) == Times(before, coinID, c) + Gained(entries[..k + 1], allowed, coinID, c)
  {
    assert entries[..k + 1][..k] == entries[..k];
    assert Times(start, coinID, c) == Times(before, coinID, c) + Gained(entries[..k], allowed, coinID, c);
    assert Times(after, coinID, c) == Times(start, coinID, c)
      + if entries[k].id == coinID then |Giving(entries[k], allowed, entries[k].platforms.Keys, c)| else 0;
  }

  lemma GainedEntry(after: map<string, seq<Contract>>, start: map<string, seq<Contract>>,
                    before: map<string, seq<Contract>>, entries: seq<Entry>, k: nat, allowed: set<string>)
    requires k < |entries| && Gains(start, before, entries[..k], allowed)
    requires PartlyListed(after, start, entries[k], allowed, entries[k].platforms.Keys)
    ensures Gains(after, before, entries[..k + 1], allowed)
  {
    forall coinID: string, c: Contract
      ensures Times(after, coinID, c) == Times(before, coinID, c) + Gained(entries[..k + 1], allowed, coinID, c)
    {
      GainedOne(after, start, before, entries, k, allowed, coinID, c);
    }
  }

  lemma OneMoreLoaded(now: Index, start: Index, before: Index, entries: seq<Entry>, k: nat, allowed: set<string>)
    requires k < |entries| && Loaded(start, before, entries[..k], allowed)
    requires Partial(now, start, entries[k], allowed, entries[k].platforms.Keys)
    ensures Loaded(now, before, entries[..k + 1], allowed)
  {
    assert entries[..k + 1][..k] == entries[..k];
    LoadedEntry(now.byAddr, start.byAddr, before.byAddr, entries, k, allowed);
    GainedEntry(now.byCoinID, start.byCoinID, before.byCoinID, entries, k, allowed);
    FreshEntry(start.byAddr, before.byAddr, entries, k, allowed);
    ExtendsTransitive(before, start, now);
  }

  lemma ExtendsTransitive(x: Index, y: Index, z: Index)
    requires Extends(x, y) && Extends(y, z)
    ensures Extends(x, z)
  {
    forall coinID ensures Of(x.byCoinID, coinID) <= Of(z.byCoinID, coinID) {
      assert Of(x.byCoinID, coinID) <= Of(y.byCoinID, coinID) <= Of(z.byCoinID, coinID);
    }
  }

  ghost predicate ClaimsVia(e: Entry, allowed: set<string>, chains: set<string>, key: string) {
    exists chain :: chain in chains && Loadable(e, allowed, chain) && AddrKey(chain, e.platforms[chain]) == key
  }

  /** After some platforms of an entry: the addresses they give belong to it, the others are as before. */
  ghost predicate PartlyLoaded(after: map<string, string>, before: map<string, string>, e: Entry,
                               allowed: set<string>, chains: set<string>) {
    forall key ::
      if ClaimsVia(e, allowed, chains, key) then key in after && after[key] == e.id
      else (key in after <==> key in before) && (key in after ==> after[key] == before[key])
  }

  lemma LoadOne(now: map<string, string>, before: map<string, string>, e: Entry, allowed: set<string>,
                chains: set<string>, chain: string)
    requires PartlyLoaded(now, before, e, allowed, chains) && chain in e.platforms
    ensures PartlyLoaded(if Loadable(e, allowed, chain) then now[AddrKey(chain, e.platforms[chain]) := e.id] else now,
                         before, e, allowed, chains + {chain})
  {
    forall key ensures ClaimsVia(e, allowed, chains + {chain}, key) <==>
      ClaimsVia(e, allowed, chains, key) || (Loadable(e, allowed, chain) && AddrKey(chain, e.platforms[chain]) == key)
    {
      if Loadable(e, allowed, chain) && AddrKey(chain, e.platforms[chain]) == key {
        assert chain in chains + {chain};
      }
      if ClaimsVia(e, allowed, chains, key) {
        var c :| c in chains && Loadable(e, allowed, c) && AddrKey(c, e.platforms[c]) == key;
        assert c in chains + {chain};
      }
    }
  }

  /** After some platforms of an entry: its coin has gained their contracts, other coins nothing. */
  ghost predicate PartlyListed(after: map<string, seq<Contract>>, before: map<string, seq<Contract>>, e: Entry,
                               allowed: set<string>, chains: set<string>) {
    forall coinID, c ::
      Times(after, coinID, c)
        == Times(before, coinID, c) + if e.id == coinID then |Giving(e, allowed, chains, c)| else 0
  }

  function Listing(m: map<string, seq<Contract>>, e: Entry, allowed: set<string>, chain: string)
    : map<string, seq<Contract>>
    requires chain in e.platforms
  {
    if Loadable(e, allowed, chain) then m[e.id := Of(m, e.id) + [Normal(chain, e.platforms[chain])]] else m
  }

  lemma ListOne(now: map<string, seq<Contract>>, before: map<string, seq<Contract>>, e: Entry, allowed: set<string>,
                chains: set<string>, chain: string)
    requires PartlyListed(now, before, e, allowed, chains) && chain in e.platforms && chain !in chains
    ensures PartlyListed(Listing(now, e, allowed, chain), before, e, allowed, chains + {chain})
  {
    var here := Loadable(e, allowed, chain);
    var x := Normal(chain, e.platforms[chain]);
    var after := Listing(now, e, allowed, chain);
    forall coinID, c
      ensures Times(after, coinID, c)
           == Times(before, coinID, c) + if e.id == coinID then |Giving(e, allowed, chains + {chain}, c)| else 0
    {
      GivingMore(e, allowed, chains, chain, c);
      assert Times(now, coinID, c)
          == Times(before, coinID, c) + if e.id == coinID then |Giving(e, allowed, chains, c)| else 0;
      if here && e.id == coinID {
        assert multiset(Of(now, e.id) + [x]) == multiset(Of(now, e.id)) + multiset{x};
      }
    }
  }

  lemma GivingMore(e: Entry, allowed: set<string>, chains: set<string>, chain: string, c: Contract)
    requires chain in e.platforms && chain !in chains
    ensures |Giving(e, allowed, chains + {chain}, c)| == |Giving(e, allowed, chains, c)|
          + if Loadable(e, allowed, chain) && Normal(chain, e.platforms[chain]) == c then 1 else 0
  {
    assert Giving(e, allowed, chains + {chain}, c) == Giving(e, allowed, chains, c)
      + if Loadable(e, allowed, chain) && Normal(chain, e.platforms[chain]) == c then {chain} else {};
  }

  lemma LoadedEntry(after: map<string, string>, start: map<string, string>, before: map<string, string>,
                    entries: seq<Entry>, k: nat, allowed: set<string>)
    requires k < |entries| && Owns(start, before, entries[..k], allowed)
    requires PartlyLoaded(after, start, entries[k], allowed, entries[k].platforms.Keys)
    ensures Owns(after, before, entries[..k + 1], allowed)
  {
    var e := entries[k];
    assert entries[..k + 1][..k] == entries[..k];
    forall key ensures Claims(e, allowed, key) <==> ClaimsVia(e, allowed, e.platforms.Keys, key) {
    }
  }

  // ----- a catalogue, platform by platform -----

  /** Entry i gives its coin an address on an allowed chain. */
  ghost predicate Gives(entries: seq<Entry>, allowed: set<string>, i: int, chain: string, key: string) {
    && 0 <= i < |entries| && chain in entries[i].platforms && chain in allowed
    && entries[i].platforms[chain] != "" && AddrKey(chain, entries[i].platforms[chain]) == key
  }

  /** Entry i is the last to give it. */
  ghost predicate GivesLast(entries: seq<Entry>, allowed: set<string>, i: int, key: string) {
    && (exists chain :: Gives(entries, allowed, i, chain, key))
    && (forall j, chain :: i < j ==> !Gives(entries, allowed, j, chain, key))
  }

  lemma LastClaims(entries: seq<Entry>, allowed: set<string>, key: string, n: nat)
    requires n == |entries| - 1
    ensures Claims(entries[n], allowed, key) <==> exists chain :: Gives(entries, allowed, n, chain, key)
  {
    if c :| Loadable(entries[n], allowed, c) && AddrKey(c, entries[n].platforms[c]) == key {
      assert Gives(entries, allowed, n, c, key);
    }
    if c :| Gives(entries, allowed, n, c, key) {
      assert Loadable(entries[n], allowed, c);
    }
  }

  lemma GivesBefore(entries: seq<Entry>, before: seq<Entry>, allowed: set<string>, key: string, n: nat, i: int)
    requires n == |entries| - 1 && before == entries[..n] && (forall chain :: !Gives(entries, allowed, n, chain, key))
    requires GivesLast(before, allowed, i, key)
    ensures GivesLast(entries, allowed, i, key)
  {
    var c :| Gives(before, allowed, i, c, key);
    assert Gives(entries, allowed, i, c, key);
    forall j, chain | i < j ensures !Gives(entries, allowed, j, chain, key) {
      assert !Gives(before, allowed, j, chain, key);
    }
  }

  lemma NobodyGives(entries: seq<Entry>, before: seq<Entry>, allowed: set<string>, key: string, n: nat)
    requires n == |entries| - 1 && before == entries[..n] && (forall chain :: !Gives(entries, allowed, n, chain, key))
    requires forall i, chain :: !Gives(before, allowed, i, chain, key)
    ensures forall i, chain :: !Gives(entries, allowed, i, chain, key)
  {
    forall i, chain ensures !Gives(entries, allowed, i, chain, key) {
      assert !Gives(before, allowed, i, chain, key);
    }
  }

  lemma {:induction false} OwnerInFull(before: map<string, string>, entries: seq<Entry>, allowed: set<string>,
                                       key: string)
    returns (last: Option<nat>)
    ensures last.Some? ==>
      && last.value < |entries| && GivesLast(entries, allowed, last.value, key)
      && Owner(before, entries, allowed, key) == Some(entries[last.value].id)
    ensures last.None? ==>
      && (forall i, chain :: !Gives(entries, allowed, i, chain, key))
      && Owner(before, entries, allowed, key) == if key in before then Some(before[key]) else None
    decreases |entries|
  {
    last := None;
    if entries != [] {
      var n := |entries| - 1;
      LastClaims(entries, allowed, key, n);
      if Claims(entries[n], allowed, key) {
        last := Some(n);
      } else {
        last := OwnerInFull(before, entries[..n], allowed, key);
        if last.Some? {
          GivesBefore(entries, entries[..n], allowed, key, n, last.value);
        } else {
          NobodyGives(entries, entries[..n], allowed, key, n);
        }
      }
    }
  }

  /**
   After loading, an address belongs to the last entry that gives it on an allowed chain, and to its
   previous owner if none does.
   */
  lemma LoadedInFull(after: map<string, string>, before: map<string, string>, entries: seq<Entry>,
                     allowed: set<string>, key: string)
    returns (last: Option<nat>)
    requires Owns(after, before, entries, allowed)
    ensures last.Some? ==>
      && last.value < |entries| && GivesLast(entries, allowed, last.value, key)
      && key in after && after[key] == entries[last.value].id
    ensures last.None? ==>
      && (forall i, chain :: !Gives(entries, allowed, i, chain, key))
      && (key in after <==> key in before) && (key in before ==> after[key] == before[key])
  {
    last := OwnerInFull(before, entries, allowed, key);
    assert (if key in after then Some(after[key]) else None) == Owner(before, entries, allowed, key);
  }

  // ----- reloading -----

  lemma {:induction false} OwnerIsClaimant(before: map<string, string>, entries: seq<Entry>, allowed: set<string>,
                                           key: string)
    ensures (exists i :: 0 <= i < |entries| && Claims(entries[i], allowed, key)) || Owner(before, entries, allowed, key)
         == if key in before then Some(before[key]) else None
    ensures forall before': map<string, string> ::
      (exists i :: 0 <= i < |entries| && Claims(entries[i], allowed, key)) ==>
        Owner(before', entries, allowed, key) == Owner(before, entries, allowed, key)
    decreases |entries|
  {
    if entries != [] {
      var n := |entries| - 1;
      if !Claims(entries[n], allowed, key) {
        OwnerIsClaimant(before, entries[..n], allowed, key);
        forall i | 0 <= i < n ensures entries[..n][i] == entries[i] {
        }
      }
    }
  }

  /** Loading the same catalogue again leaves the address index as it is. */
  lemma ReloadKeepsOwners(before: map<string, string>, once: map<string, string>, twice: map<string, string>,
                          entries: seq<Entry>, allowed: set<string>)
    requires Owns(once, before, entries, allowed) && Owns(twice, once, entries, allowed)
    ensures twice == once
  {
    forall key ensures Owner(once, entries, allowed, key) == Owner(before, entries, allowed, key) {
      OwnerIsClaimant(once, entries, allowed, key);
      OwnerIsClaimant(before, entries, allowed, key);
    }
    forall key ensures (key in twice <==> key in once) && (key in once ==> twice[key] == once[key]) {
      assert Owner(once, entries, allowed, key) == Owner(before, entries, allowed, key);
    }
  }

  lemma {:induction false} OwnedStays(before: map<string, string>, entries: seq<Entry>, allowed: set<string>,
                                      key: string)
    requires key in before
    ensures Owner(before, entries, allowed, key).Some?
  {
    if entries != [] {
      OwnedStays(before, entries[..|entries| - 1], allowed, key);
    }
  }

  lemma {:induction false} LoadedIsOwned(before: map<string, string>, entries: seq<Entry>, allowed: set<string>,
                                         i: nat, chain: string)
    requires i < |entries| && Loadable(entries[i], allowed, chain)
    ensures Owner(before, entries, allowed, AddrKey(chain, entries[i].platforms[chain])).Some?
  {
    if i < |entries| - 1 {
      LoadedIsOwned(before, entries[..|entries| - 1], allowed, i, chain);
    }
  }

  lemma {:induction false} FreshAt(before: map<string, string>, entries: seq<Entry>, allowed: set<string>,
                                   i: nat, chain: string)
    requires Fresh(before, entries, allowed) && i < |entries| && Loadable(entries[i], allowed, chain)
    ensures AddrKey(chain, entries[i].platforms[chain]) !in before
  {
    var n := |entries| - 1;
    if i < n {
      FreshAt(before, entries[..n], allowed, i, chain);
    } else if AddrKey(chain, entries[i].platforms[chain]) in before {
      OwnedStays(before, entries[..n], allowed, AddrKey(chain, entries[i].platforms[chain]));
    }
  }

  /** So loading any catalogue with a loadable address a second time breaks the inverse. */
  lemma ReloadIsNotFresh(before: map<string, string>, once: map<string, string>, entries: seq<Entry>,
                         allowed: set<string>, i: nat, chain: string)
    requires Owns(once, before, entries, allowed) && i < |entries| && Loadable(entries[i], allowed, chain)
    ensures !Fresh(once, entries, allowed)
  {
    var key := AddrKey(chain, entries[i].platforms[chain]);
    LoadedIsOwned(before, entries, allowed, i, chain);
    assert (if key in once then Some(once[key]) else None) == Owner(before, entries, allowed, key);
    if Fresh(once, entries, allowed) {
      FreshAt(once, entries, allowed, i, chain);
    }
  }

  // ----- registries built by Add alone -----

  /** One call of Add. */
  datatype Addition = Addition(chain: string, address: string, coinID: string)

  function AddAll(x: Index, adds: seq<Addition>): Index {
    if adds == [] then x
    else
      var last := adds[|adds| - 1];
      Added(AddAll(x, adds[..|adds| - 1]), last.chain, last.address, last.coinID)
  }

  lemma AddKeepsInverse(x: Index, chain: string, address: string, coinID: string)
    requires Inverse(x)
    ensures Inverse(Added(x, chain, address, coinID))
  {
    if AddrKey(chain, address) !in x.byAddr {
      PutKeepsInverseIff(x, chain, address, coinID);
    }
  }

  /** After any run of Adds, byCoinID is the duplicate-free inverse of byAddr. */
  lemma {:induction false} AddsKeepInverse(adds: seq<Addition>)
    ensures Inverse(AddAll(EMPTY, adds))
  {
    if adds != [] {
      var last := adds[|adds| - 1];
      AddsKeepInverse(adds[..|adds| - 1]);
      AddKeepsInverse(AddAll(EMPTY, adds[..|adds| - 1]), last.chain, last.address, last.coinID);
    }
  }
}
