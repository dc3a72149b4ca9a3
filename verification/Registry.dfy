/** The destination registry built from the USDT0 deployments feed (evm/oft.rs, models.rs). */
module Registry {
  import opened Wrappers
  import opened Decimal

  datatype Asset = Usdt | Usdt0 | Usdc

  datatype Transport = Evm | Solana | Tron

  datatype Mesh = Native | Legacy

  datatype Bridge = Direct | Oft(mesh: Mesh, eid: nat) | Cctp(domain: nat)

  datatype Destination = Destination(
    chain: string, asset: Asset, transport: Transport, evmChainId: Option<nat>, bridge: Bridge)

  datatype Contract = Contract(name: string, address: string)

  datatype Entry = Entry(name: string, chainId: Option<nat>, lzEid: Option<string>, contracts: seq<Contract>)

  datatype Feed = Feed(native: seq<Entry>, legacy: seq<Entry>)

  datatype Registry = Registry(
    sourceLabel: string, sourceChainId: nat, nativeOft: Option<string>, legacyOft: Option<string>,
    destinations: seq<Destination>)

  datatype RegistryError = TokenNotFound | ChainIdTooBig | SourceNotFound | SubstitutedOft(mesh: Mesh)
                         | SourceNotReachable

  const NATIVE_OFT := "0x14E4A1B13bf7F943c8ff7C51fb60FA964A298D92"
  const LEGACY_OFT := "0x77652D5aba086137b595875263FC200182919B92"

  // ----- text -----

  function LowerChar(c: char): char {
    if 'A' <= c <= 'Z' then c - 'A' + 'a' else c
  }

  /** `eq_ignore_ascii_case`. */
  predicate SameText(a: string, b: string) {
    |a| == |b| && forall i | 0 <= i < |a| :: LowerChar(a[i]) == LowerChar(b[i])
  }

  /** `to_lowercase` folds at least what the ASCII comparison folds. */
  ghost predicate FoldsAscii(lower: string -> string) {
    forall a, b | SameText(a, b) :: lower(a) == lower(b)
  }

  // ----- one feed entry -----

  function FindContract(contracts: seq<Contract>, name: string): Option<string> {
    if contracts == [] then None
    else if contracts[0].name == name then Some(contracts[0].address)
    else FindContract(contracts[1..], name)
  }

  function PrimaryContract(contracts: seq<Contract>): Option<string> {
    var oft, adapter := FindContract(contracts, "OFT"), FindContract(contracts, "OFT Adapter");
    if oft.Some? then oft else if adapter.Some? then adapter else FindContract(contracts, "OFT Program")
  }

  datatype OftInfo = OftInfo(eid: nat, oft: string, token: Option<string>)

  function ResolveChainInfo(entry: Entry): Option<OftInfo> {
    if entry.lzEid.None? then None
    else
      var eid, primary := ParseUnsigned(entry.lzEid.value, U32_MAX), PrimaryContract(entry.contracts);
      if eid.None? || primary.None? then None
      else Some(OftInfo(eid.value, primary.value, FindContract(entry.contracts, "Token")))
  }

  function ClassifyTransport(entry: Entry, lower: string -> string): Option<Transport> {
    if entry.chainId.Some? then Some(Evm)
    else if lower(entry.name) == "solana" then Some(Solana)
    else if lower(entry.name) == "tron" then Some(Tron)
    else None
  }

  function BuildDestination(entry: Entry, mesh: Mesh, source: string, lower: string -> string): Option<Destination> {
    var transport, info := ClassifyTransport(entry, lower), ResolveChainInfo(entry);
    if transport.None? || info.None? then None
    else
      var isSource := SameText(entry.name, source);
      Some(Destination(
        entry.name,
        if isSource || info.value.token.None? then Usdt else Usdt0,
        transport.value,
        entry.chainId,
        if isSource then Direct else Oft(mesh, info.value.eid)))
  }

  // ----- what an entry comes to -----

  predicate Has(entry: Entry, name: string) {
    exists c <- entry.contracts :: c.name == name
  }

  /** The first contract of that name. */
  lemma {:induction false} FindsContract(contracts: seq<Contract>, name: string)
    ensures FindContract(contracts, name).Some? <==> exists c <- contracts :: c.name == name
    ensures FindContract(contracts, name).Some? ==>
              exists i | 0 <= i < |contracts| ::
                && contracts[i] == Contract(name, FindContract(contracts, name).value)
                && forall j | 0 <= j < i :: contracts[j].name != name
  {
    if contracts != [] && contracts[0].name != name {
      FindsContract(contracts[1..], name);
      if FindContract(contracts, name).Some? {
        var i :| 0 <= i < |contracts[1..]|
                 && contracts[1..][i] == Contract(name, FindContract(contracts, name).value)
                 && forall j | 0 <= j < i :: contracts[1..][j].name != name;
        assert contracts[i + 1] == Contract(name, FindContract(contracts, name).value);
        forall j | 0 <= j < i + 1 ensures contracts[j].name != name {
          if j > 0 { assert contracts[j] == contracts[1..][j - 1]; }
        }
      }
      forall c <- contracts ensures c == contracts[0] || c in contracts[1..] {}
    }
  }

  /** The deployment's contract is its "OFT", else its "OFT Adapter", else its "OFT Program". */
  function PrimaryName(entry: Entry): string {
    if Has(entry, "OFT") then "OFT" else if Has(entry, "OFT Adapter") then "OFT Adapter" else "OFT Program"
  }

  /** Exactly which entries are usable, and as what. Only the source chain and deployments without a token of
      their own deliver canonical USDT. */
  lemma DestinationIs(entry: Entry, mesh: Mesh, source: string, lower: string -> string)
    ensures var built := BuildDestination(entry, mesh, source, lower);
            && (built.Some? <==>
                && (entry.chainId.Some? || lower(entry.name) == "solana" || lower(entry.name) == "tron")
                && entry.lzEid.Some? && ParseUnsigned(entry.lzEid.value, 0xFFFF_FFFF).Some?
                && Has(entry, PrimaryName(entry)))
            && (built.Some? ==>
                  var d := built.value;
                  && d.chain == entry.name && d.evmChainId == entry.chainId
                  && d.transport == (if entry.chainId.Some? then Evm
                                     else if lower(entry.name) == "solana" then Solana else Tron)
                  && d.asset == (if SameText(entry.name, source) || !Has(entry, "Token") then Usdt else Usdt0)
                  && (if SameText(entry.name, source) then d.bridge == Direct
                      else d.bridge == Oft(mesh, ParseUnsigned(entry.lzEid.value, 0xFFFF_FFFF).value))
                  && OftOf(Some(entry)).Some?
                  && Contract(PrimaryName(entry), OftOf(Some(entry)).value) in entry.contracts)
  {
    hide FindContract;
    FindsContract(entry.contracts, "OFT");
    FindsContract(entry.contracts, "OFT Adapter");
    FindsContract(entry.contracts, "OFT Program");
    FindsContract(entry.contracts, "Token");
  }

  /** Circle's domains and chain ids. */
  lemma CircleRoutes(i: nat)
    requires i < |CCTP_DESTINATIONS|
    ensures CCTP_DESTINATIONS[i].bridge == Cctp([6, 0, 1, 2, 7, 10, 11, 12, 13, 14, 15, 16, 18, 21, 22, 5][i])
    ensures CCTP_DESTINATIONS[i].evmChainId ==
            if i == 15 then None
            else Some([8453, 1, 43114, 10, 137, 130, 59144, 81224, 146, 480, 143, 1329, 50, 57073, 98866][i])
    ensures CCTP_DESTINATIONS[i].transport == if i == 15 then Solana else Evm
  {
  }

  // ----- deduplication -----

  /** What the loop has collected and marked as seen. */
  datatype Scan = Scan(destinations: seq<Destination>, chainIds: set<nat>, labels: set<string>)

  function Place(s: Scan, dest: Destination, lower: string -> string): Scan {
    if dest.evmChainId.Some? && dest.evmChainId.value in s.chainIds then s
    else
      var marked := if dest.evmChainId.Some? then s.(chainIds := s.chainIds + {dest.evmChainId.value}) else s;
      if lower(dest.chain) in s.labels then marked
      else marked.(destinations := s.destinations + [dest], labels := s.labels + {lower(dest.chain)})
  }

  function ScanEntries(s: Scan, entries: seq<Entry>, mesh: Mesh, source: string, lower: string -> string): Scan
    decreases |entries|
  {
    if entries == [] then s
    else
      var before := ScanEntries(s, entries[..|entries| - 1], mesh, source, lower);
      match BuildDestination(entries[|entries| - 1], mesh, source, lower)
      case Some(dest) => Place(before, dest, lower)
      case None => before
  }

  function ScanFeed(feed: Feed, source: string, lower: string -> string): Scan {
    var native := ScanEntries(Scan([], {}, {}), feed.native, Native, source, lower);
    ScanEntries(native, feed.legacy, Legacy, source, lower)
  }

  // ----- the whole registry -----

  /** Circle's destinations: chain label, transport, chain id and domain. */
  const CCTP_DESTINATIONS: seq<Destination> := [
    CctpDestination("Base", Evm, Some(8453), 6),
    CctpDestination("Ethereum", Evm, Some(1), 0),
    CctpDestination("Avalanche", Evm, Some(43114), 1),
    CctpDestination("Optimism", Evm, Some(10), 2),
    CctpDestination("Polygon PoS", Evm, Some(137), 7),
    CctpDestination("Unichain", Evm, Some(130), 10),
    CctpDestination("Linea", Evm, Some(59144), 11),
    CctpDestination("Codex", Evm, Some(81224), 12),
    CctpDestination("Sonic", Evm, Some(146), 13),
    CctpDestination("World Chain", Evm, Some(480), 14),
    CctpDestination("Monad", Evm, Some(143), 15),
    CctpDestination("Sei", Evm, Some(1329), 16),
    CctpDestination("XDC", Evm, Some(50), 18),
    CctpDestination("Ink", Evm, Some(57073), 21),
    CctpDestination("Plume", Evm, Some(98866), 22),
    CctpDestination("Solana", Solana, None, 5)]

  function CctpDestination(chain: string, transport: Transport, id: Option<nat>, domain: nat): Destination {
    Destination(chain, Usdc, transport, id, Cctp(domain))
  }

  function SourceUsdc(source: string, chainId: nat): Destination {
    Destination(source, Usdc, Evm, Some(chainId), Direct)
  }

  function FindChain(entries: seq<Entry>, chainId: nat): Option<Entry> {
    if entries == [] then None
    else if entries[0].chainId == Some(chainId) then Some(entries[0])
    else FindChain(entries[1..], chainId)
  }

  function OftOf(entry: Option<Entry>): Option<string> {
    if entry.None? || ResolveChainInfo(entry.value).None? then None
    else Some(ResolveChainInfo(entry.value).value.oft)
  }

  /** Absent is fine, the pin in any case is the pin, and anything else is refused. */
  function VerifyPinned(found: Option<string>, pinned: string, mesh: Mesh): Result<Option<string>, RegistryError> {
    if found.None? then Ok(None)
    else if SameText(found.value, pinned) then Ok(Some(pinned))
    else Err(SubstitutedOft(mesh))
  }

  predicate Names(d: Destination, chain: string, asset: Asset) {
    d.asset == asset && SameText(d.chain, chain)
  }

  function Find(destinations: seq<Destination>, chain: string, asset: Asset): Option<Destination> {
    if destinations == [] then None
    else if Names(destinations[0], chain, asset) then Some(destinations[0])
    else Find(destinations[1..], chain, asset)
  }

  function BuildRegistry(feed: Option<Feed>, chainId: nat, lower: string -> string): Result<Registry, RegistryError> {
    if feed.None? then Err(TokenNotFound)
    else if chainId > U32_MAX then Err(ChainIdTooBig)
    else
      var entry := FindChain(feed.value.native, chainId);
      if entry.None? then Err(SourceNotFound)
      else
        var source := entry.value.name;
        match VerifyPinned(OftOf(entry), NATIVE_OFT, Native)
        case Err(e) => Err(e)
        case Ok(nativeOft) =>
          match VerifyPinned(OftOf(FindChain(feed.value.legacy, chainId)), LEGACY_OFT, Legacy)
          case Err(e) => Err(e)
          case Ok(legacyOft) =>
            var scanned := ScanFeed(feed.value, source, lower).destinations;
            if Find(scanned, source, Usdt).None? then Err(SourceNotReachable)
            else Ok(Registry(source, chainId, nativeOft, legacyOft,
                             scanned + CCTP_DESTINATIONS + [SourceUsdc(source, chainId)]))
  }

  /** The first entry of that chain. */
  lemma {:induction false} FindsChain(entries: seq<Entry>, chainId: nat)
    ensures FindChain(entries, chainId).None? <==> forall e <- entries :: e.chainId != Some(chainId)
    ensures FindChain(entries, chainId).Some? ==>
              exists i | 0 <= i < |entries| ::
                && FindChain(entries, chainId) == Some(entries[i]) && entries[i].chainId == Some(chainId)
                && forall j | 0 <= j < i :: entries[j].chainId != Some(chainId)
  {
    if entries != [] && entries[0].chainId != Some(chainId) {
      FindsChain(entries[1..], chainId);
      if FindChain(entries, chainId).Some? {
        var i :| 0 <= i < |entries[1..]|
                 && FindChain(entries[1..], chainId) == Some(entries[1..][i])
                 && entries[1..][i].chainId == Some(chainId)
                 && forall j | 0 <= j < i :: entries[1..][j].chainId != Some(chainId);
        assert entries[i + 1] == entries[1..][i];
        forall j | 0 <= j < i + 1 ensures entries[j].chainId != Some(chainId) {
          if j > 0 { assert entries[j] == entries[1..][j - 1]; }
        }
      }
      forall e <- entries ensures e == entries[0] || e in entries[1..] {}
    }
  }

  /** The contract an entry names is none, or the pin in some case. */
  predicate PinHolds(entry: Option<Entry>, pin: string) {
    OftOf(entry).None? || SameText(OftOf(entry).value, pin)
  }

  /** Why a feed builds no registry, first reason first; and otherwise it builds one for that source. */
  lemma RegistryErrs(feed: Option<Feed>, chainId: nat, lower: string -> string)
    ensures var r := BuildRegistry(feed, chainId, lower);
            if feed.None? then r == Err(TokenNotFound)
            else if chainId > 0xFFFF_FFFF then r == Err(ChainIdTooBig)
            else if forall e <- feed.value.native :: e.chainId != Some(chainId) then r == Err(SourceNotFound)
            else
              var entry := FindChain(feed.value.native, chainId);
              entry.Some? &&
              var scanned := ScanFeed(feed.value, entry.value.name, lower).destinations;
              if !PinHolds(entry, NATIVE_OFT) then r == Err(SubstitutedOft(Native))
              else if !PinHolds(FindChain(feed.value.legacy, chainId), LEGACY_OFT) then r == Err(SubstitutedOft(Legacy))
              else if forall d <- scanned :: !Names(d, entry.value.name, Usdt) then r == Err(SourceNotReachable)
              else r.Ok? && r.value.sourceLabel == entry.value.name && r.value.sourceChainId == chainId
  {
    hide CCTP_DESTINATIONS, ScanFeed, OftOf;
    if feed.Some? && chainId <= U32_MAX {
      FindsChain(feed.value.native, chainId);
      var entry := FindChain(feed.value.native, chainId);
      if entry.Some? {
        var source := entry.value.name;
        FindsNothing(ScanFeed(feed.value, source, lower).destinations, source, Usdt);
      }
    }
  }

  lemma {:induction false} FindsNothing(destinations: seq<Destination>, chain: string, asset: Asset)
    ensures Find(destinations, chain, asset).None? <==> forall d <- destinations :: !Names(d, chain, asset)
  {
    if destinations != [] {
      FindsNothing(destinations[1..], chain, asset);
      forall d <- destinations ensures d == destinations[0] || d in destinations[1..] {}
    }
  }

  /** The two-section loop with its seen-sets. */
  method ScanSections(feed: Feed, source: string, lower: string -> string) returns (destinations: seq<Destination>)
    ensures destinations == ScanFeed(feed, source, lower).destinations
  {
    destinations := [];
    var chainIds: set<nat> := {};
    var labels: set<string> := {};
    var sections := [(feed.native, Native), (feed.legacy, Legacy)];
    ghost var native := ScanEntries(Scan([], {}, {}), feed.native, Native, source, lower);
    for k := 0 to 2
      invariant Scan(destinations, chainIds, labels) ==
                if k == 0 then Scan([], {}, {}) else if k == 1 then native else ScanFeed(feed, source, lower)
    {
      var (entries, mesh) := sections[k];
      ghost var start := Scan(destinations, chainIds, labels);
      for i := 0 to |entries|
        invariant Scan(destinations, chainIds, labels) == ScanEntries(start, entries[..i], mesh, source, lower)
      {
        assert entries[..i + 1][..i] == entries[..i];
        var dest := BuildDestination(entries[i], mesh, source, lower);
        if dest.None? { continue; }
        if dest.value.evmChainId.Some? {
          if dest.value.evmChainId.value in chainIds { continue; }
          chainIds := chainIds + {dest.value.evmChainId.value};
        }
        if lower(dest.value.chain) in labels { continue; }
        labels := labels + {lower(dest.value.chain)};
        destinations := destinations + [dest.value];
      }
      assert entries[..|entries|] == entries;
    }
  }

  method ParseChainRegistry(feed: Option<Feed>, chainId: nat, lower: string -> string)
    returns (r: Result<Registry, RegistryError>)
    ensures r == BuildRegistry(feed, chainId, lower)
  {
    if feed.None? { return Err(TokenNotFound); }
    if chainId > U32_MAX { return Err(ChainIdTooBig); }
    var entry := FindChain(feed.value.native, chainId);
    if entry.None? { return Err(SourceNotFound); }
    var source := entry.value.name;
    var nativeOft := VerifyPinned(OftOf(entry), NATIVE_OFT, Native);
    if nativeOft.Err? { return Err(nativeOft.error); }
    var legacyOft := VerifyPinned(OftOf(FindChain(feed.value.legacy, chainId)), LEGACY_OFT, Legacy);
    if legacyOft.Err? { return Err(legacyOft.error); }
    var destinations := ScanSections(feed.value, source, lower);
    if Find(destinations, source, Usdt).None? { return Err(SourceNotReachable); }
    destinations := destinations + CCTP_DESTINATIONS + [SourceUsdc(source, chainId)];
    r := Ok(Registry(source, chainId, nativeOft.value, legacyOft.value, destinations));
  }

  // ----- what holds of every registry -----

  ghost predicate Distinct(s: Scan, lower: string -> string) {
    && (forall d <- s.destinations :: lower(d.chain) in s.labels && d.asset != Usdc)
    && (forall d <- s.destinations :: d.evmChainId.Some? ==> d.evmChainId.value in s.chainIds)
    && (forall i, j | 0 <= i < j < |s.destinations| ::
          && lower(s.destinations[i].chain) != lower(s.destinations[j].chain)
          && (s.destinations[i].evmChainId.Some? ==> s.destinations[i].evmChainId != s.destinations[j].evmChainId))
  }

  lemma PlaceKeeps(s: Scan, dest: Destination, lower: string -> string)
    requires Distinct(s, lower) && dest.asset != Usdc
    ensures Distinct(Place(s, dest, lower), lower)
  {
  }

  lemma {:induction false} ScanKeeps(s: Scan, entries: seq<Entry>, mesh: Mesh, source: string, lower: string -> string)
    requires Distinct(s, lower)
    ensures Distinct(ScanEntries(s, entries, mesh, source, lower), lower)
    decreases |entries|
  {
    if entries != [] {
      var front, last := entries[..|entries| - 1], entries[|entries| - 1];
      ScanKeeps(s, front, mesh, source, lower);
      var built := BuildDestination(last, mesh, source, lower);
      if built.Some? { PlaceKeeps(ScanEntries(s, front, mesh, source, lower), built.value, lower); }
    }
  }

  ghost predicate Buildable(entry: Entry, mesh: Mesh, source: string, lower: string -> string) {
    BuildDestination(entry, mesh, source, lower).Some?
  }

  ghost predicate BuiltFrom(d: Destination, entries: seq<Entry>, mesh: Mesh, source: string, lower: string -> string) {
    exists entry <- entries :: BuildDestination(entry, mesh, source, lower) == Some(d)
  }

  /** A scan marks the chain of every usable entry, and unmarks none. */
  lemma {:induction false} ScanMarks(s: Scan, entries: seq<Entry>, mesh: Mesh, source: string, lower: string -> string)
    ensures var marked := ScanEntries(s, entries, mesh, source, lower).chainIds;
            && s.chainIds <= marked
            && (forall e <- entries | Buildable(e, mesh, source, lower) && e.chainId.Some? :: e.chainId.value in marked)
    decreases |entries|
  {
    if entries != [] {
      hide ResolveChainInfo, ClassifyTransport;
      ScanMarks(s, entries[..|entries| - 1], mesh, source, lower);
    }
  }

  /** What a scan appends comes from its own section, on chains not seen before it. */
  lemma {:induction false} ScanAppends(s: Scan, entries: seq<Entry>, mesh: Mesh, source: string,
                                       lower: string -> string, d: Destination)
    requires d in ScanEntries(s, entries, mesh, source, lower).destinations
    ensures d in s.destinations
            || (&& BuiltFrom(d, entries, mesh, source, lower)
                && (d.evmChainId.Some? ==> d.evmChainId.value !in s.chainIds))
    decreases |entries|
  {
    if entries != [] {
      hide BuildDestination;
      var front, last := entries[..|entries| - 1], entries[|entries| - 1];
      var before := ScanEntries(s, front, mesh, source, lower);
      if d in before.destinations {
        ScanAppends(s, front, mesh, source, lower, d);
        if d !in s.destinations {
          var entry :| entry in front && BuildDestination(entry, mesh, source, lower) == Some(d);
          assert entry in entries;
        }
      } else {
        assert BuildDestination(last, mesh, source, lower) == Some(d);
        ScanMarks(s, front, mesh, source, lower);
      }
    }
  }

  /** A native deployment wins: no legacy-mesh destination is on a chain that a usable native entry
      names. */
  lemma NativeWins(feed: Feed, source: string, lower: string -> string, d: Destination, e: Entry)
    requires d in ScanFeed(feed, source, lower).destinations && d.bridge.Oft? && d.bridge.mesh.Legacy?
    requires e in feed.native && Buildable(e, Native, source, lower) && e.chainId.Some?
    ensures d.evmChainId != e.chainId
  {
    hide ResolveChainInfo, ClassifyTransport;
    var native := ScanEntries(Scan([], {}, {}), feed.native, Native, source, lower);
    ScanMarks(Scan([], {}, {}), feed.native, Native, source, lower);
    ScanAppends(native, feed.legacy, Legacy, source, lower, d);
    if d in native.destinations {
      ScanAppends(Scan([], {}, {}), feed.native, Native, source, lower, d);
    }
  }

  /** Length and first letter, in any case, tell Circle's labels apart. */
  function LabelIndex(s: string): nat
    requires s != ""
  {
    var c := LowerChar(s[0]);
    if |s| == 3 then if c == 's' then 11 else if c == 'x' then 12 else 13
    else if |s| == 4 then 0
    else if |s| == 5 then
      if c == 'l' then 6 else if c == 'c' then 7 else if c == 's' then 8 else if c == 'm' then 10 else 14
    else if |s| == 6 then 15
    else if |s| == 8 then if c == 'e' then 1 else if c == 'o' then 3 else 5
    else if |s| == 9 then 2
    else if c == 'p' then 4 else 9
  }

  lemma CctpLabelIndex(i: nat)
    requires i < |CCTP_DESTINATIONS|
    ensures CCTP_DESTINATIONS[i].asset == Usdc && CCTP_DESTINATIONS[i].bridge.Cctp?
    ensures CCTP_DESTINATIONS[i].chain != "" && LabelIndex(CCTP_DESTINATIONS[i].chain) == i
  {
  }

  lemma CctpLabelsDiffer(i: nat, j: nat)
    requires i < |CCTP_DESTINATIONS| && j < |CCTP_DESTINATIONS|
    requires SameText(CCTP_DESTINATIONS[i].chain, CCTP_DESTINATIONS[j].chain)
    ensures i == j
  {
    hide CCTP_DESTINATIONS;
    CctpLabelIndex(i);
    CctpLabelIndex(j);
  }

  ghost predicate InCctpTable(chain: string) {
    exists d <- CCTP_DESTINATIONS :: SameText(d.chain, chain)
  }

  lemma {:induction false} FindsFirst(destinations: seq<Destination>, i: nat, chain: string, asset: Asset)
    requires i < |destinations| && Names(destinations[i], chain, asset)
    ensures exists k | 0 <= k <= i ::
              Find(destinations, chain, asset) == Some(destinations[k]) && Names(destinations[k], chain, asset)
  {
    if !Names(destinations[0], chain, asset) {
      FindsFirst(destinations[1..], i - 1, chain, asset);
      var k :| 0 <= k <= i - 1 && Find(destinations[1..], chain, asset) == Some(destinations[1..][k])
               && Names(destinations[1..][k], chain, asset);
      assert destinations[k + 1] == destinations[1..][k];
    }
  }

  /** The feed's own destinations differ by label, and by chain id where they have one. */
  lemma ScannedAreDistinct(feed: Feed, source: string, lower: string -> string)
    ensures Distinct(ScanFeed(feed, source, lower), lower)
  {
    ScanKeeps(Scan([], {}, {}), feed.native, Native, source, lower);
    ScanKeeps(ScanEntries(Scan([], {}, {}), feed.native, Native, source, lower), feed.legacy, Legacy, source, lower);
  }

  /** No two destinations share a label (in any ASCII case) and an asset. */
  ghost predicate IdentitiesDiffer(destinations: seq<Destination>) {
    forall i, j | 0 <= i < j < |destinations| ::
      !Names(destinations[i], destinations[j].chain, destinations[j].asset)
  }

  lemma RegistryIdentities(scanned: seq<Destination>, labels: set<string>, ids: set<nat>, source: string, chainId: nat,
                           lower: string -> string)
    requires FoldsAscii(lower) && Distinct(Scan(scanned, ids, labels), lower) && !InCctpTable(source)
    ensures IdentitiesDiffer(scanned + CCTP_DESTINATIONS + [SourceUsdc(source, chainId)])
  {
    hide CCTP_DESTINATIONS;
    var all := scanned + CCTP_DESTINATIONS + [SourceUsdc(source, chainId)];
    forall i, j | 0 <= i < j < |all|
      ensures !Names(all[i], all[j].chain, all[j].asset)
    {
      if i < |scanned| {
        assert all[i] == scanned[i] && scanned[i] in scanned;
        if j < |scanned| {
          assert all[j] == scanned[j];
        } else if j < |scanned| + |CCTP_DESTINATIONS| {
          CctpLabelIndex(j - |scanned|);
        }
      } else {
        var k := i - |scanned|;
        assert all[i] == CCTP_DESTINATIONS[k] && CCTP_DESTINATIONS[k] in CCTP_DESTINATIONS;
        if j < |scanned| + |CCTP_DESTINATIONS| && SameText(all[i].chain, all[j].chain) {
          CctpLabelsDiffer(k, j - |scanned|);
        }
      }
    }
  }

  /** Looking a destination up by its own label and asset, in whatever ASCII case, finds that one. */
  ghost predicate FindIsFaithful(destinations: seq<Destination>) {
    forall d <- destinations :: Find(destinations, d.chain, d.asset) == Some(d)
  }

  /** Every destination is found under its own identity exactly when the source chain's label is not one
      of Circle's; otherwise Circle's entry hides USDC on the source chain itself. */
  lemma RegistryIsFaithfulExactly(feed: Option<Feed>, chainId: nat, lower: string -> string)
    requires FoldsAscii(lower) && BuildRegistry(feed, chainId, lower).Ok?
    ensures var r := BuildRegistry(feed, chainId, lower).value;
            FindIsFaithful(r.destinations) <==> !InCctpTable(r.sourceLabel)
  {
    hide CCTP_DESTINATIONS, ScanFeed, VerifyPinned, OftOf, FindChain;
    var r := BuildRegistry(feed, chainId, lower).value;
    var source, all := r.sourceLabel, r.destinations;
    var s := ScanFeed(feed.value, source, lower);
    ScannedAreDistinct(feed.value, source, lower);
    if InCctpTable(source) {
      var i :| 0 <= i < |CCTP_DESTINATIONS| && SameText(CCTP_DESTINATIONS[i].chain, source);
      CctpLabelIndex(i);
      assert all[|s.destinations| + i] == CCTP_DESTINATIONS[i];
      SourceUsdcIsHidden(s.destinations, source, chainId, i);
    } else {
      RegistryIdentities(s.destinations, s.labels, s.chainIds, source, chainId, lower);
      forall d | d in all
        ensures Find(all, d.chain, d.asset) == Some(d)
      {
        var i :| 0 <= i < |all| && all[i] == d;
        FindsFirst(all, i, d.chain, d.asset);
      }
    }
  }

  /** No two destinations of a registry share a label, ignoring ASCII case, and an asset, exactly when the
      source chain's label is not one of Circle's. */
  lemma BuiltIdentitiesDiffer(feed: Option<Feed>, chainId: nat, lower: string -> string)
    requires FoldsAscii(lower) && BuildRegistry(feed, chainId, lower).Ok?
    ensures var r := BuildRegistry(feed, chainId, lower).value;
            IdentitiesDiffer(r.destinations) <==> !InCctpTable(r.sourceLabel)
  {
    hide CCTP_DESTINATIONS, ScanFeed, VerifyPinned, OftOf, FindChain;
    var r := BuildRegistry(feed, chainId, lower).value;
    var source, all := r.sourceLabel, r.destinations;
    var s := ScanFeed(feed.value, source, lower);
    ScannedAreDistinct(feed.value, source, lower);
    if InCctpTable(source) {
      var i :| 0 <= i < |CCTP_DESTINATIONS| && SameText(CCTP_DESTINATIONS[i].chain, source);
      CctpLabelIndex(i);
      assert all[|s.destinations| + i] == CCTP_DESTINATIONS[i];
      assert all[|all| - 1] == SourceUsdc(source, chainId);
      assert Names(all[|s.destinations| + i], all[|all| - 1].chain, all[|all| - 1].asset);
    } else {
      RegistryIdentities(s.destinations, s.labels, s.chainIds, source, chainId, lower);
    }
  }

  lemma SourceUsdcIsHidden(scanned: seq<Destination>, source: string, chainId: nat, i: nat)
    requires i < |CCTP_DESTINATIONS| && SameText(CCTP_DESTINATIONS[i].chain, source)
    requires forall d <- scanned :: d.asset != Usdc
    ensures !FindIsFaithful(scanned + CCTP_DESTINATIONS + [SourceUsdc(source, chainId)])
  {
    hide CCTP_DESTINATIONS;
    var all := scanned + CCTP_DESTINATIONS + [SourceUsdc(source, chainId)];
    CctpLabelIndex(i);
    assert all[|scanned| + i] == CCTP_DESTINATIONS[i];
    FindsFirst(all, |scanned| + i, source, Usdc);
    var k :| 0 <= k <= |scanned| + i && Find(all, source, Usdc) == Some(all[k]) && Names(all[k], source, Usdc);
    if k >= |scanned| { CctpLabelIndex(k - |scanned|); }
    assert all[|all| - 1] == SourceUsdc(source, chainId);
    assert SourceUsdc(source, chainId) in all;
  }

  /** The source chain's USDT is in every registry, delivered without a bridge. */
  lemma SourceUsdtIsDirect(feed: Option<Feed>, chainId: nat, lower: string -> string)
    requires BuildRegistry(feed, chainId, lower).Ok?
    ensures var r := BuildRegistry(feed, chainId, lower).value;
            var found := Find(r.destinations, r.sourceLabel, Usdt);
            && found.Some? && found.value.bridge.Direct?
            && found.value in ScanFeed(feed.value, r.sourceLabel, lower).destinations
  {
    hide CCTP_DESTINATIONS, ScanFeed, VerifyPinned, OftOf, FindChain;
    var r := BuildRegistry(feed, chainId, lower).value;
    var scanned := ScanFeed(feed.value, r.sourceLabel, lower).destinations;
    FindInFront(scanned, CCTP_DESTINATIONS + [SourceUsdc(r.sourceLabel, chainId)], r.sourceLabel, Usdt);
    assert scanned + (CCTP_DESTINATIONS + [SourceUsdc(r.sourceLabel, chainId)]) == r.destinations;
    ScannedUsdtIsDirect(feed.value, r.sourceLabel, lower, Find(scanned, r.sourceLabel, Usdt).value);
  }

  lemma {:induction false} FindInFront(front: seq<Destination>, back: seq<Destination>, chain: string, asset: Asset)
    requires Find(front, chain, asset).Some?
    ensures Find(front + back, chain, asset) == Find(front, chain, asset)
    ensures var d := Find(front, chain, asset).value; d in front && Names(d, chain, asset)
  {
    if !Names(front[0], chain, asset) {
      assert (front + back)[1..] == front[1..] + back;
      FindInFront(front[1..], back, chain, asset);
    }
  }

  lemma ScannedUsdtIsDirect(feed: Feed, source: string, lower: string -> string, d: Destination)
    requires d in ScanFeed(feed, source, lower).destinations && Names(d, source, Usdt)
    ensures d.bridge.Direct?
  {
    hide ResolveChainInfo, ClassifyTransport;
    var native := ScanEntries(Scan([], {}, {}), feed.native, Native, source, lower);
    ScanAppends(native, feed.legacy, Legacy, source, lower, d);
    if d in native.destinations {
      ScanAppends(Scan([], {}, {}), feed.native, Native, source, lower, d);
    }
  }

  /** The Router only ever sends through a pinned contract: a registry's source contracts are absent or
      the pins, and a feed that names another one builds no registry. */
  lemma SourceContractsArePinned(feed: Feed, chainId: nat, lower: string -> string)
    ensures var r := BuildRegistry(Some(feed), chainId, lower);
            var native, legacy := OftOf(FindChain(feed.native, chainId)), OftOf(FindChain(feed.legacy, chainId));
            && (r.Ok? ==> r.value.nativeOft == if native.None? then None else Some(NATIVE_OFT))
            && (r.Ok? ==> r.value.legacyOft == if legacy.None? then None else Some(LEGACY_OFT))
            && (native.Some? && !SameText(native.value, NATIVE_OFT) ==> r.Err?)
            && (legacy.Some? && !SameText(legacy.value, LEGACY_OFT) ==> r.Err?)
  {
  }

  /** Where the first usable entry on chain `c` is; the length when there is none. */
  ghost function FirstUse(c: nat, entries: seq<Entry>, mesh: Mesh, source: string, lower: string -> string): (k: nat)
    ensures k <= |entries|
    ensures k < |entries| ==> entries[k].chainId == Some(c) && Buildable(entries[k], mesh, source, lower)
    decreases |entries|
  {
    if entries == [] then 0
    else
      var front, last := entries[..|entries| - 1], entries[|entries| - 1];
      var k := FirstUse(c, front, mesh, source, lower);
      if k < |front| || (last.chainId == Some(c) && Buildable(last, mesh, source, lower)) then k else |entries|
  }

  ghost predicate Lists(destinations: seq<Destination>, c: nat) {
    exists d <- destinations :: d.evmChainId == Some(c)
  }

  /** Not every chain with a usable entry is listed: a dropped repeat of a label still marks its chain as
      seen. A chain is listed exactly when its first usable entry brought a label not yet taken. */
  lemma {:induction false} ChainIsListedExactly(c: nat, s: Scan, entries: seq<Entry>, mesh: Mesh, source: string,
                                                lower: string -> string)
    requires c !in s.chainIds && Distinct(s, lower)
    ensures var r, k := ScanEntries(s, entries, mesh, source, lower), FirstUse(c, entries, mesh, source, lower);
            && (c in r.chainIds <==> k < |entries|)
            && (Lists(r.destinations, c) <==>
                k < |entries| && lower(entries[k].name) !in ScanEntries(s, entries[..k], mesh, source, lower).labels)
    decreases |entries|
  {
    hide ScanEntries, FirstUse, Lists, Distinct, Buildable;
    if entries == [] {
      NothingScanned(c, s, mesh, source, lower);
    } else {
      var front := entries[..|entries| - 1];
      var k := FirstUse(c, front, mesh, source, lower);
      ChainIsListedExactly(c, s, front, mesh, source, lower);
      OneMoreEntry(c, s, entries, mesh, source, lower);
      assert front[..k] == entries[..k];
      if k < |front| { assert front[k] == entries[k]; }
    }
  }

  lemma NothingScanned(c: nat, s: Scan, mesh: Mesh, source: string, lower: string -> string)
    requires c !in s.chainIds && Distinct(s, lower)
    ensures ScanEntries(s, [], mesh, source, lower) == s && FirstUse(c, [], mesh, source, lower) == 0
    ensures !Lists(s.destinations, c)
  {
  }

  /** What the last entry of a scan adds for chain `c`. */
  lemma OneMoreEntry(c: nat, s: Scan, entries: seq<Entry>, mesh: Mesh, source: string, lower: string -> string)
    requires entries != []
    ensures var front, last := entries[..|entries| - 1], entries[|entries| - 1];
            var before, r := ScanEntries(s, front, mesh, source, lower), ScanEntries(s, entries, mesh, source, lower);
            var k := FirstUse(c, front, mesh, source, lower);
            var uses := Buildable(last, mesh, source, lower) && last.chainId == Some(c);
            && FirstUse(c, entries, mesh, source, lower)
               == (if k < |front| then k else if uses then |front| else |entries|)
            && (c in r.chainIds <==> c in before.chainIds || uses)
            && (Lists(r.destinations, c) <==>
                Lists(before.destinations, c)
                || (uses && c !in before.chainIds && lower(last.name) !in before.labels))
  {
    hide ResolveChainInfo, ClassifyTransport, Lists;
    var front, last := entries[..|entries| - 1], entries[|entries| - 1];
    var built := BuildDestination(last, mesh, source, lower);
    if built.Some? { PlaceLists(c, ScanEntries(s, front, mesh, source, lower), built.value, lower); }
  }

  /** What a scan does for a chain already marked: nothing. */
  lemma {:induction false} MarkedIsNotAdded(c: nat, s: Scan, entries: seq<Entry>, mesh: Mesh, source: string,
                                            lower: string -> string)
    requires c in s.chainIds
    ensures var r := ScanEntries(s, entries, mesh, source, lower);
            c in r.chainIds && (Lists(r.destinations, c) <==> Lists(s.destinations, c))
    decreases |entries|
  {
    if entries != [] {
      hide ResolveChainInfo, ClassifyTransport, Lists;
      var front, last := entries[..|entries| - 1], entries[|entries| - 1];
      MarkedIsNotAdded(c, s, front, mesh, source, lower);
      var built := BuildDestination(last, mesh, source, lower);
      if built.Some? { PlaceLists(c, ScanEntries(s, front, mesh, source, lower), built.value, lower); }
    }
  }

  /** In a whole feed: where native has a usable entry on the chain, the first one decides; otherwise the
      first usable legacy one does. Each must bring a label not yet taken. */
  lemma FeedListsExactly(c: nat, feed: Feed, source: string, lower: string -> string)
    ensures var empty := Scan([], {}, {});
            var native := ScanEntries(empty, feed.native, Native, source, lower);
            var k := FirstUse(c, feed.native, Native, source, lower);
            var j := FirstUse(c, feed.legacy, Legacy, source, lower);
            Lists(ScanFeed(feed, source, lower).destinations, c) <==>
            if k < |feed.native| then
              lower(feed.native[k].name) !in ScanEntries(empty, feed.native[..k], Native, source, lower).labels
            else
              && j < |feed.legacy|
              && lower(feed.legacy[j].name) !in ScanEntries(native, feed.legacy[..j], Legacy, source, lower).labels
  {
    hide BuildDestination, Lists;
    var empty := Scan([], {}, {});
    var native := ScanEntries(empty, feed.native, Native, source, lower);
    ScanKeeps(empty, feed.native, Native, source, lower);
    ChainIsListedExactly(c, empty, feed.native, Native, source, lower);
    if c in native.chainIds {
      MarkedIsNotAdded(c, native, feed.legacy, Legacy, source, lower);
    } else {
      ChainIsListedExactly(c, native, feed.legacy, Legacy, source, lower);
    }
  }

  lemma PlaceLists(c: nat, s: Scan, dest: Destination, lower: string -> string)
    ensures var r := Place(s, dest, lower);
            Lists(r.destinations, c) <==>
            || Lists(s.destinations, c)
            || (dest.evmChainId == Some(c) && c !in s.chainIds && lower(dest.chain) !in s.labels)
  {
    var r := Place(s, dest, lower);
    if r.destinations != s.destinations {
      assert r.destinations == s.destinations + [dest];
      assert dest in r.destinations;
      forall d <- s.destinations ensures d in r.destinations {}
    }
  }

  // ----- two feeds -----

  /** A usable entry with the pinned contract. */
  function SampleEntry(name: string, chainId: nat): Entry {
    Entry(name, Some(chainId), Some("1"), [Contract("OFT", NATIVE_OFT)])
  }

  lemma SampleBuilds(name: string, chainId: nat, source: string, lower: string -> string)
    ensures OftOf(Some(SampleEntry(name, chainId))) == Some(NATIVE_OFT)
    ensures BuildDestination(SampleEntry(name, chainId), Native, source, lower)
         == Some(Destination(name, Usdt, Evm, Some(chainId), if SameText(name, source) then Direct else Oft(Native, 1)))
  {
    assert "1"[..0] == "" && Value("1") == 1;
    ParseDigitsOnly("1", U32_MAX);
    assert FindContract([Contract("OFT", NATIVE_OFT)], "Token") == None;
  }

  /** A source chain named after one of Circle's: the registry is built, and looking up USDC on the source
      chain finds Circle's entry. */
  lemma SourceNamedLikeCircles(lower: string -> string)
    ensures var r := BuildRegistry(Some(Feed([SampleEntry("Base", 42161)], [])), 42161, lower);
            r.Ok? && !FindIsFaithful(r.value.destinations)
  {
    hide CCTP_DESTINATIONS, BuildDestination, OftOf;
    var entry := SampleEntry("Base", 42161);
    SampleBuilds("Base", 42161, "Base", lower);
    var scan := ScanFeed(Feed([entry], []), "Base", lower);
    assert scan.destinations == [Destination("Base", Usdt, Evm, Some(42161), Direct)] by {
      ScanMore(Scan([], {}, {}), [], entry, "Base", lower);
      assert [] + [entry] == [entry];
    }
    assert OftOf(None) == None by { NoEntryNoContract(); }
    assert CCTP_DESTINATIONS[0].chain == "Base" by { FirstIsBase(); }
    SourceUsdcIsHidden(scan.destinations, "Base", 42161, 0);
  }

  lemma ScanMore(s: Scan, before: seq<Entry>, entry: Entry, source: string, lower: string -> string)
    ensures ScanEntries(s, before + [entry], Native, source, lower)
         == var scanned := ScanEntries(s, before, Native, source, lower);
            match BuildDestination(entry, Native, source, lower)
            case Some(dest) => Place(scanned, dest, lower)
            case None => scanned
  {
    assert (before + [entry])[..|before|] == before;
  }

  lemma NoLegacy(native: seq<Entry>, source: string, lower: string -> string)
    ensures ScanFeed(Feed(native, []), source, lower)
         == ScanEntries(Scan([], {}, {}), native, Native, source, lower)
  {
  }

  lemma NoEntryNoContract()
    ensures OftOf(None) == None
  {
  }

  lemma FirstIsBase()
    ensures |CCTP_DESTINATIONS| > 0 && CCTP_DESTINATIONS[0].chain == "Base"
  {
  }

  lemma ScanThree(a: Entry, b: Entry, c: Entry, source: string, lower: string -> string)
    requires Buildable(a, Native, source, lower) && Buildable(b, Native, source, lower)
    requires Buildable(c, Native, source, lower)
    ensures ScanFeed(Feed([a, b, c], []), source, lower)
         == Place(Place(Place(Scan([], {}, {}), BuildDestination(a, Native, source, lower).value, lower),
                        BuildDestination(b, Native, source, lower).value, lower),
                  BuildDestination(c, Native, source, lower).value, lower)
  {
    hide BuildDestination, Place;
    NoLegacy([a, b, c], source, lower);
    ScanMore(Scan([], {}, {}), [], a, source, lower);
    ScanMore(Scan([], {}, {}), [a], b, source, lower);
    ScanMore(Scan([], {}, {}), [a, b], c, source, lower);
    assert [] + [a] == [a] && [a] + [b] == [a, b] && [a, b] + [c] == [a, b, c];
  }

  lemma RepeatHidesChain(a: Destination, b: Destination, c: Destination, lower: string -> string)
    requires lower(a.chain) == lower(b.chain) != lower(c.chain)
    requires a.evmChainId == Some(1) && b.evmChainId == Some(2) == c.evmChainId
    ensures Place(Place(Place(Scan([], {}, {}), a, lower), b, lower), c, lower).destinations == [a]
  {
  }

  /** A feed that repeats a label: chain 2 has a usable entry under a label of its own, and is not listed. */
  lemma RepeatedLabelFeed(lower: string -> string)
    requires lower("A") != lower("B")
    ensures var feed := Feed([SampleEntry("A", 1), SampleEntry("A", 2), SampleEntry("B", 2)], []);
            && BuildRegistry(Some(feed), 1, lower).Ok? && Buildable(feed.native[2], Native, "A", lower)
            && !Lists(ScanFeed(feed, "A", lower).destinations, 2)
  {
    hide CCTP_DESTINATIONS, BuildDestination, OftOf, ScanFeed, Place;
    var a, b, c := SampleEntry("A", 1), SampleEntry("A", 2), SampleEntry("B", 2);
    SampleBuilds("A", 1, "A", lower);
    SampleBuilds("A", 2, "A", lower);
    SampleBuilds("B", 2, "A", lower);
    ScanThree(a, b, c, "A", lower);
    RepeatHidesChain(BuildDestination(a, Native, "A", lower).value, BuildDestination(b, Native, "A", lower).value,
                     BuildDestination(c, Native, "A", lower).value, lower);
    assert OftOf(None) == None by { NoEntryNoContract(); }
  }
}
