/** The mount gate of main.user.js: the developer-mode switch and the allow-list of
    PI Vision displays the menu is mounted on. */
module Gate {
  import opened Common
  import Menu

  // ---------------------------------------------------------------------------
  // The gate (main.user.js:33-36, 49-100, 112-119)
  // ---------------------------------------------------------------------------

  /** The parts of `window.location` `DEV_MODE` reads when the script loads. */
  datatype Location = Location(hostname: string, protocol: string)

  /** `DEV_MODE`: served from the local machine or opened as a file. */
  predicate DevMode(loc: Location)
  {
    loc.hostname == "localhost" || loc.hostname == "127.0.0.1" || loc.protocol == "file:"
  }

  /** `ALLOWED_VIEW_HASHES`, station by station. */
  const AllowedViewHashes: seq<string> := [
    // Commun
    Menu.PipelineOverviewKhJorfView,
    Menu.EtatShuntGlobaleView,
    Menu.VueGlobaleSupplyChainView,
    Menu.VueGlobalePipelineView,
    Menu.EtatMarcheGlobalePipelineView,
    Menu.SuiviDesBatchsPipelineView,
    Menu.PipeConsommationElectriqueView,
    Menu.TonnageView,
    Menu.HeureDeMarchePipeView,

    // Head Station
    Menu.HsMainlineOverviewView,
    Menu.VueOperationnelleHsView,
    Menu.FeedersStorageTanksHsView,
    Menu.HsPompeEtanchiteGswView,
    Menu.StationTetePeroniGswView,
    Menu.HsGswView,
    Menu.EtatSimulationHeadStationView,
    Menu.MaintenanceHsTrainAView,
    Menu.MaintenanceHsTrainBView,
    Menu.MaintenanceHsReceptionView,
    Menu.ControleEnergieHsView,

    // Daoui
    Menu.DaouiOverviewView,
    Menu.DaouiGswView,
    Menu.MaintenanceDaouiView,
    Menu.DaouiStationOverviewView,
    Menu.StationDaouiPompesPeroniGswView,
    Menu.ControleEnergieDaView,

    // MEA
    Menu.MeaOverviewView,
    Menu.MeaFeederLinesView,

    // Beni Amir
    Menu.BaOverviewView,
    Menu.BeniAmirGswView,
    Menu.MaintenanceBeniAmirView,
    Menu.BeniAmirOverviewView,
    Menu.StationBeniAmirPompesGswView,
    Menu.ControleEnergieBaView,

    // PMS & Station Vannes
    Menu.PmsEtStationVanneView,
    Menu.SvVibrationsView,

    // Terminal
    Menu.TerminalOverviewView
  ]

  /** `ALLOWED_VIEW_HASHES.some((h) => location.hash.startsWith(h))`: some entry is a
      prefix of the hash, compared character by character (so case matters). */
  predicate IsAllowed(hash: string)
  {
    exists i :: 0 <= i < |AllowedViewHashes| && StartsWith(hash, AllowedViewHashes[i])
  }

  /** The test of main.user.js:112-119: the menu is mounted on an allowed view, or on
      any view in developer mode. `devMode` is `DEV_MODE`, fixed once when the script
      loads; `hash` is `location.hash` at the time of the run. */
  predicate ShouldMount(devMode: bool, hash: string)
  {
    IsAllowed(hash) || devMode
  }

  /** Every entry of the allow-list admits its own view. */
  lemma ListedIsAllowed(k: nat)
    requires k < |AllowedViewHashes|
    ensures IsAllowed(AllowedViewHashes[k])
  {
    assert StartsWith(AllowedViewHashes[k], AllowedViewHashes[k]);
  }

  /** A hash that extends an allowed one (a sub-path or a query) is allowed too. */
  lemma ExtensionIsAllowed(hash: string, suffix: string)
    requires IsAllowed(hash)
    ensures IsAllowed(hash + suffix)
  {
    var i :| 0 <= i < |AllowedViewHashes| && StartsWith(hash, AllowedViewHashes[i]);
    assert (hash + suffix)[..|AllowedViewHashes[i]|] == hash[..|AllowedViewHashes[i]|];
  }

  // ---------------------------------------------------------------------------
  // Every view the menu links to passes the allow-list
  // ---------------------------------------------------------------------------

  predicate AllAllowed(hashes: seq<string>)
  {
    forall h :: h in hashes ==> IsAllowed(h)
  }

  lemma {:induction false} NavHashesAllowed(items: seq<Menu.MenuItem>)
    requires forall k :: 0 <= k < |items| ==> AllAllowed(Menu.ItemNavHashes(items[k]))
    ensures AllAllowed(Menu.NavHashes(items))
  {
    if items != [] {
      NavHashesAllowed(items[1..]);
    }
  }

  /** Every navigation target of the menu (the `data-hash` of each navigation link),
      nested submenus included, is a view the mount gate accepts. */
  lemma MenuViewsAllowed()
    ensures forall g :: 0 <= g < |Menu.MenuData| ==> AllAllowed(Menu.NavHashes(Menu.MenuData[g].items))
  {
    forall k | 0 <= k < |Menu.MenuData| ensures AllAllowed(Menu.NavHashes(Menu.MenuData[k].items)) {
      if k == 0 { CommunAllowed(); } else if k == 1 { StationTeteAllowed(); } else if k == 2 { StationDaouiAllowed(); } else if k == 3 { StationBeniAmirAllowed(); } else if k == 4 { StationMeaAllowed(); } else if k == 5 { PmsSvAllowed(); } else { StationTerminalAllowed(); }
    }
  }

  lemma CommunAllowed0()
    ensures AllAllowed(Menu.ItemNavHashes(Menu.CommunItems[0]))
  {
    ListedIsAllowed(2);
  }

  lemma CommunAllowed1()
    ensures AllAllowed(Menu.ItemNavHashes(Menu.CommunItems[1]))
  {
    ListedIsAllowed(3);
  }

  lemma CommunAllowed2()
    ensures AllAllowed(Menu.ItemNavHashes(Menu.CommunItems[2]))
  {
    ListedIsAllowed(4);
  }

  lemma CommunAllowed3()
    ensures AllAllowed(Menu.ItemNavHashes(Menu.CommunItems[3]))
  {
    ListedIsAllowed(0);
  }

  lemma CommunAllowed4()
    ensures AllAllowed(Menu.ItemNavHashes(Menu.CommunItems[4]))
  {
    ListedIsAllowed(6);
  }

  lemma CommunAllowed5()
    ensures AllAllowed(Menu.ItemNavHashes(Menu.CommunItems[5]))
  {
    ListedIsAllowed(5);
  }

  lemma CommunAllowed6()
    ensures AllAllowed(Menu.ItemNavHashes(Menu.CommunItems[6]))
  {
    ListedIsAllowed(7);
  }

  lemma CommunAllowed7()
    ensures AllAllowed(Menu.ItemNavHashes(Menu.CommunItems[7]))
  {
    ListedIsAllowed(8);
  }

  lemma CommunAllowed8()
    ensures AllAllowed(Menu.ItemNavHashes(Menu.CommunItems[8]))
  {
    ListedIsAllowed(1);
  }

  lemma CommunAllowed9()
    ensures AllAllowed(Menu.ItemNavHashes(Menu.CommunItems[9]))
  {
    var children := Menu.CommunItems[9].children.entries;
    forall k | 0 <= k < |children| ensures AllAllowed(Menu.ItemNavHashes(children[k])) {
      if k == 0 { assert Menu.IsSet(children[0].url); } else if k == 1 { assert Menu.IsSet(children[1].url); } else if k == 2 { assert Menu.IsSet(children[2].url); } else if k == 3 { assert Menu.IsSet(children[3].url); } else if k == 4 { assert Menu.IsSet(children[4].url); } else if k == 5 { assert Menu.IsSet(children[5].url); } else { assert Menu.IsSet(children[6].url); }
    }
    NavHashesAllowed(children);
  }

  /** The views of the group "Commun". */
  lemma CommunAllowed()
    ensures AllAllowed(Menu.NavHashes(Menu.CommunItems))
  {
    forall k | 0 <= k < |Menu.CommunItems| ensures AllAllowed(Menu.ItemNavHashes(Menu.CommunItems[k])) {
      if k == 0 { CommunAllowed0(); } else if k == 1 { CommunAllowed1(); } else if k == 2 { CommunAllowed2(); } else if k == 3 { CommunAllowed3(); } else if k == 4 { CommunAllowed4(); } else if k == 5 { CommunAllowed5(); } else if k == 6 { CommunAllowed6(); } else if k == 7 { CommunAllowed7(); } else if k == 8 { CommunAllowed8(); } else { CommunAllowed9(); }
    }
    NavHashesAllowed(Menu.CommunItems);
  }

  lemma StationTeteAllowed0()
    ensures AllAllowed(Menu.ItemNavHashes(Menu.StationTeteItems[0]))
  {
    ListedIsAllowed(9);
  }

  lemma StationTeteAllowed1()
    ensures AllAllowed(Menu.ItemNavHashes(Menu.StationTeteItems[1]))
  {
    ListedIsAllowed(10);
  }

  lemma StationTeteAllowed2()
    ensures AllAllowed(Menu.ItemNavHashes(Menu.StationTeteItems[2]))
  {
    ListedIsAllowed(15);
  }

  lemma StationTeteAllowed3()
    ensures AllAllowed(Menu.ItemNavHashes(Menu.StationTeteItems[3]))
  {
    ListedIsAllowed(11);
  }

  lemma StationTeteAllowed4()
    ensures AllAllowed(Menu.ItemNavHashes(Menu.StationTeteItems[4]))
  {
    ListedIsAllowed(12);
  }

  lemma StationTeteAllowed5()
    ensures AllAllowed(Menu.ItemNavHashes(Menu.StationTeteItems[5]))
  {
    ListedIsAllowed(19);
  }

  lemma StationTeteAllowed6()
    ensures AllAllowed(Menu.ItemNavHashes(Menu.StationTeteItems[6]))
  {
    var children := Menu.StationTeteItems[6].children.entries;
    forall k | 0 <= k < |children| ensures AllAllowed(Menu.ItemNavHashes(children[k])) {
      if k == 0 { ListedIsAllowed(14); } else if k == 1 { ListedIsAllowed(13); } else { assert Menu.IsSet(children[2].url); }
    }
    NavHashesAllowed(children);
  }

  lemma StationTeteAllowed7()
    ensures AllAllowed(Menu.ItemNavHashes(Menu.StationTeteItems[7]))
  {
    var children := Menu.StationTeteItems[7].children.entries;
    forall k | 0 <= k < |children| ensures AllAllowed(Menu.ItemNavHashes(children[k])) {
      if k == 0 { ListedIsAllowed(16); } else if k == 1 { ListedIsAllowed(17); } else { ListedIsAllowed(18); }
    }
    NavHashesAllowed(children);
  }

  /** The views of the group "Station Tête". */
  lemma StationTeteAllowed()
    ensures AllAllowed(Menu.NavHashes(Menu.StationTeteItems))
  {
    forall k | 0 <= k < |Menu.StationTeteItems| ensures AllAllowed(Menu.ItemNavHashes(Menu.StationTeteItems[k])) {
      if k == 0 { StationTeteAllowed0(); } else if k == 1 { StationTeteAllowed1(); } else if k == 2 { StationTeteAllowed2(); } else if k == 3 { StationTeteAllowed3(); } else if k == 4 { StationTeteAllowed4(); } else if k == 5 { StationTeteAllowed5(); } else if k == 6 { StationTeteAllowed6(); } else { StationTeteAllowed7(); }
    }
    NavHashesAllowed(Menu.StationTeteItems);
  }

  lemma StationDaouiAllowed0()
    ensures AllAllowed(Menu.ItemNavHashes(Menu.StationDaouiItems[0]))
  {
    ListedIsAllowed(23);
  }

  lemma StationDaouiAllowed1()
    ensures AllAllowed(Menu.ItemNavHashes(Menu.StationDaouiItems[1]))
  {
    ListedIsAllowed(20);
  }

  lemma StationDaouiAllowed2()
    ensures AllAllowed(Menu.ItemNavHashes(Menu.StationDaouiItems[2]))
  {
    ListedIsAllowed(22);
  }

  lemma StationDaouiAllowed3()
    ensures AllAllowed(Menu.ItemNavHashes(Menu.StationDaouiItems[3]))
  {
    ListedIsAllowed(25);
  }

  lemma StationDaouiAllowed4()
    ensures AllAllowed(Menu.ItemNavHashes(Menu.StationDaouiItems[4]))
  {
    ListedIsAllowed(24);
  }

  lemma StationDaouiAllowed5()
    ensures AllAllowed(Menu.ItemNavHashes(Menu.StationDaouiItems[5]))
  {
    var children := Menu.StationDaouiItems[5].children.entries;
    forall k | 0 <= k < |children| ensures AllAllowed(Menu.ItemNavHashes(children[k])) {
      if k == 0 { ListedIsAllowed(21); } else { assert Menu.IsSet(children[1].url); }
    }
    NavHashesAllowed(children);
  }

  /** The views of the group "Station Daoui". */
  lemma StationDaouiAllowed()
    ensures AllAllowed(Menu.NavHashes(Menu.StationDaouiItems))
  {
    forall k | 0 <= k < |Menu.StationDaouiItems| ensures AllAllowed(Menu.ItemNavHashes(Menu.StationDaouiItems[k])) {
      if k == 0 { StationDaouiAllowed0(); } else if k == 1 { StationDaouiAllowed1(); } else if k == 2 { StationDaouiAllowed2(); } else if k == 3 { StationDaouiAllowed3(); } else if k == 4 { StationDaouiAllowed4(); } else { StationDaouiAllowed5(); }
    }
    NavHashesAllowed(Menu.StationDaouiItems);
  }

  lemma StationBeniAmirAllowed0()
    ensures AllAllowed(Menu.ItemNavHashes(Menu.StationBeniAmirItems[0]))
  {
    ListedIsAllowed(31);
  }

  lemma StationBeniAmirAllowed1()
    ensures AllAllowed(Menu.ItemNavHashes(Menu.StationBeniAmirItems[1]))
  {
    ListedIsAllowed(28);
  }

  lemma StationBeniAmirAllowed2()
    ensures AllAllowed(Menu.ItemNavHashes(Menu.StationBeniAmirItems[2]))
  {
    ListedIsAllowed(30);
  }

  lemma StationBeniAmirAllowed3()
    ensures AllAllowed(Menu.ItemNavHashes(Menu.StationBeniAmirItems[3]))
  {
    ListedIsAllowed(32);
  }

  lemma StationBeniAmirAllowed4()
    ensures AllAllowed(Menu.ItemNavHashes(Menu.StationBeniAmirItems[4]))
  {
    ListedIsAllowed(33);
  }

  lemma StationBeniAmirAllowed5()
    ensures AllAllowed(Menu.ItemNavHashes(Menu.StationBeniAmirItems[5]))
  {
    var children := Menu.StationBeniAmirItems[5].children.entries;
    forall k | 0 <= k < |children| ensures AllAllowed(Menu.ItemNavHashes(children[k])) {
      if k == 0 { ListedIsAllowed(29); } else { assert Menu.IsSet(children[1].url); }
    }
    NavHashesAllowed(children);
  }

  /** The views of the group "Station Beni Amir". */
  lemma StationBeniAmirAllowed()
    ensures AllAllowed(Menu.NavHashes(Menu.StationBeniAmirItems))
  {
    forall k | 0 <= k < |Menu.StationBeniAmirItems| ensures AllAllowed(Menu.ItemNavHashes(Menu.StationBeniAmirItems[k])) {
      if k == 0 { StationBeniAmirAllowed0(); } else if k == 1 { StationBeniAmirAllowed1(); } else if k == 2 { StationBeniAmirAllowed2(); } else if k == 3 { StationBeniAmirAllowed3(); } else if k == 4 { StationBeniAmirAllowed4(); } else { StationBeniAmirAllowed5(); }
    }
    NavHashesAllowed(Menu.StationBeniAmirItems);
  }

  lemma StationMeaAllowed0()
    ensures AllAllowed(Menu.ItemNavHashes(Menu.StationMeaItems[0]))
  {
    ListedIsAllowed(26);
  }

  lemma StationMeaAllowed1()
    ensures AllAllowed(Menu.ItemNavHashes(Menu.StationMeaItems[1]))
  {
    ListedIsAllowed(27);
  }

  /** The views of the group "Station MEA". */
  lemma StationMeaAllowed()
    ensures AllAllowed(Menu.NavHashes(Menu.StationMeaItems))
  {
    forall k | 0 <= k < |Menu.StationMeaItems| ensures AllAllowed(Menu.ItemNavHashes(Menu.StationMeaItems[k])) {
      if k == 0 { StationMeaAllowed0(); } else { StationMeaAllowed1(); }
    }
    NavHashesAllowed(Menu.StationMeaItems);
  }

  lemma PmsSvAllowed0()
    ensures AllAllowed(Menu.ItemNavHashes(Menu.PmsSvItems[0]))
  {
    ListedIsAllowed(34);
  }

  lemma PmsSvAllowed1()
    ensures AllAllowed(Menu.ItemNavHashes(Menu.PmsSvItems[1]))
  {
    ListedIsAllowed(35);
  }

  /** The views of the group "PMS & S.V". */
  lemma PmsSvAllowed()
    ensures AllAllowed(Menu.NavHashes(Menu.PmsSvItems))
  {
    forall k | 0 <= k < |Menu.PmsSvItems| ensures AllAllowed(Menu.ItemNavHashes(Menu.PmsSvItems[k])) {
      if k == 0 { PmsSvAllowed0(); } else { PmsSvAllowed1(); }
    }
    NavHashesAllowed(Menu.PmsSvItems);
  }

  lemma StationTerminalAllowed0()
    ensures AllAllowed(Menu.ItemNavHashes(Menu.StationTerminalItems[0]))
  {
    ListedIsAllowed(36);
  }

  lemma StationTerminalAllowed1()
    ensures AllAllowed(Menu.ItemNavHashes(Menu.StationTerminalItems[1]))
  {
    ListedIsAllowed(2);
  }

  /** The views of the group "Station Terminal". */
  lemma StationTerminalAllowed()
    ensures AllAllowed(Menu.NavHashes(Menu.StationTerminalItems))
  {
    forall k | 0 <= k < |Menu.StationTerminalItems| ensures AllAllowed(Menu.ItemNavHashes(Menu.StationTerminalItems[k])) {
      if k == 0 { StationTerminalAllowed0(); } else { StationTerminalAllowed1(); }
    }
    NavHashesAllowed(Menu.StationTerminalItems);
  }
}
