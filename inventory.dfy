/**
 * `main`: for every configured account, resolve its id and alias once, then
 * for every configured region list its resources and append one row per
 * resource; finally write the header and the rows.
 */
module Inventory {
  import opened Options
  import opened Pages
  import opened Resources
  import opened Accounts
  import opened Rows

  /** One entry of the configured account list: a credential profile and a fallback alias. */
  datatype Account = Account(profile: string, alias: string)

  /** The two paginated listings of one region. */
  datatype Listing = Listing(instancePages: seq<seq<DbInstance>>, clusterPages: seq<seq<DbCluster>>)

  /**
   * The cloud as a session opened from a profile sees it: the caller's
   * account id, the outcome of the alias lookup, and each region's listings.
   */
  datatype Cloud = Cloud(
    callerAccount: string -> string,
    aliasLookup: string -> AliasLookup,
    listing: (string, string) -> Listing)

  /** The alias every row of the account carries. */
  function AccountAlias(cloud: Cloud, account: Account): string
  {
    EffectiveAlias(RegisteredAlias(cloud.aliasLookup(account.profile)), account.alias)
  }

  /** The records `list_rds_resources` returns for a profile and a region. */
  function RegionRecords(cloud: Cloud, profile: string, region: string): seq<Record>
  {
    var l := cloud.listing(profile, region);
    RegionResources(l.instancePages, l.clusterPages, region)
  }

  /** Instances, plus clusters, plus clusters with a reader endpoint, in one region. */
  function RegionCount(cloud: Cloud, profile: string, region: string): nat
  {
    var l := cloud.listing(profile, region);
    TotalSize(l.instancePages) + TotalSize(l.clusterPages) + ReaderCount(Flatten(l.clusterPages))
  }

  function AccountCount(cloud: Cloud, profile: string, regions: seq<string>): nat
  {
    if regions == [] then 0
    else AccountCount(cloud, profile, regions[..|regions| - 1]) + RegionCount(cloud, profile, regions[|regions| - 1])
  }

  function ReportCount(cloud: Cloud, accounts: seq<Account>, regions: seq<string>): nat
  {
    if accounts == [] then 0
    else ReportCount(cloud, accounts[..|accounts| - 1], regions) + AccountCount(cloud, accounts[|accounts| - 1].profile, regions)
  }

  /** The rows for a run of records of one account, one per record, in order. */
  function RecordRows(profile: string, alias: string, accountId: string, records: seq<Record>): (rows: seq<Row>)
    ensures |rows| == |records|
    ensures forall k :: 0 <= k < |records| ==> rows[k] == JoinRow(profile, alias, accountId, records[k])
  {
    if records == [] then []
    else RecordRows(profile, alias, accountId, records[..|records| - 1])
         + [JoinRow(profile, alias, accountId, records[|records| - 1])]
  }

  /** The rows of one region of an account. */
  function RegionRows(cloud: Cloud, account: Account, region: string): (rows: seq<Row>)
    ensures |rows| == RegionCount(cloud, account.profile, region)
  {
    RecordRows(account.profile, AccountAlias(cloud, account), cloud.callerAccount(account.profile),
               RegionRecords(cloud, account.profile, region))
  }

  /** The rows of one account, region after region. */
  function AccountRows(cloud: Cloud, account: Account, regions: seq<string>): (rows: seq<Row>)
  {
    if regions == [] then []
    else AccountRows(cloud, account, regions[..|regions| - 1]) + RegionRows(cloud, account, regions[|regions| - 1])
  }

  /** All rows of the run, account after account. */
  function Report(cloud: Cloud, accounts: seq<Account>, regions: seq<string>): (rows: seq<Row>)
  {
    if accounts == [] then []
    else Report(cloud, accounts[..|accounts| - 1], regions) + AccountRows(cloud, accounts[|accounts| - 1], regions)
  }

  /** An account contributes one row per record of each of its regions. */
  lemma {:induction false} AccountRowsCount(cloud: Cloud, account: Account, regions: seq<string>)
    ensures |AccountRows(cloud, account, regions)| == AccountCount(cloud, account.profile, regions)
  {
    if regions != [] {
      AccountRowsCount(cloud, account, regions[..|regions| - 1]);
    }
  }

  /**
   * The report has one row per instance, per cluster and per cluster with a
   * reader endpoint, summed over every account and region.
   */
  lemma {:induction false} ReportCountIsSum(cloud: Cloud, accounts: seq<Account>, regions: seq<string>)
    ensures |Report(cloud, accounts, regions)| == ReportCount(cloud, accounts, regions)
  {
    if accounts != [] {
      ReportCountIsSum(cloud, accounts[..|accounts| - 1], regions);
      AccountRowsCount(cloud, accounts[|accounts| - 1], regions);
    }
  }

  /**
   * Every row of an account carries that account's profile, its alias and the
   * account id resolved for it, whatever region it comes from, and a region
   * out of the configured list.
   */
  lemma {:induction false} AccountRowsIdentity(cloud: Cloud, account: Account, regions: seq<string>)
    ensures forall row <- AccountRows(cloud, account, regions) ::
      row.accountProfile == account.profile && row.accountAlias == AccountAlias(cloud, account) &&
      row.accountId == cloud.callerAccount(account.profile) && row.region in regions
  {
    if regions != [] {
      var init, last := regions[..|regions| - 1], regions[|regions| - 1];
      AccountRowsIdentity(cloud, account, init);
      var records := RegionRecords(cloud, account.profile, last);
      var rows := RegionRows(cloud, account, last);
      forall row <- rows
        ensures row.accountProfile == account.profile && row.accountAlias == AccountAlias(cloud, account)
        ensures row.accountId == cloud.callerAccount(account.profile) && row.region == last
      {
        var k :| 0 <= k < |rows| && rows[k] == row;
        assert row.Resource() == records[k];
      }
      forall g | 0 <= g < |init| ensures init[g] in regions {
        assert init[g] == regions[g];
      }
    }
  }

  /** Every row of the report is for one of the configured regions. */
  lemma {:induction false} ReportRegions(cloud: Cloud, accounts: seq<Account>, regions: seq<string>)
    ensures forall row <- Report(cloud, accounts, regions) :: row.region in regions
  {
    if accounts != [] {
      ReportRegions(cloud, accounts[..|accounts| - 1], regions);
      AccountRowsIdentity(cloud, accounts[|accounts| - 1], regions);
    }
  }

  /**
   * The accumulation loop of `main`: accounts in order, each account's id and
   * registered alias resolved once, regions in order, records in order.
   */
  method CollectRows(cloud: Cloud, accounts: seq<Account>, regions: seq<string>) returns (rows: seq<Row>)
    ensures rows == Report(cloud, accounts, regions)
  {
    rows := [];
    var a := 0;
    while a < |accounts|
      invariant 0 <= a <= |accounts|
      invariant rows == Report(cloud, accounts[..a], regions)
    {
      var account := accounts[a];
      var profile := account.profile;
      var aliasHint := account.alias;
      var accountId := cloud.callerAccount(profile);
      var accountAlias := RegisteredAlias(cloud.aliasLookup(profile));
      var effectiveAlias := EffectiveAlias(accountAlias, aliasHint);
      ghost var done := rows;

      var g := 0;
      while g < |regions|
        invariant 0 <= g <= |regions|
        invariant rows == done + AccountRows(cloud, account, regions[..g])
      {
        var region := regions[g];
        var listing := cloud.listing(profile, region);
        var resources := ListRdsResources(region, listing.instancePages, listing.clusterPages);
        ghost var before := rows;
        var k := 0;
        while k < |resources|
          invariant 0 <= k <= |resources|
          invariant rows == before + RecordRows(profile, effectiveAlias, accountId, resources[..k])
        {
          var r := resources[k];
          RecordRowsStep(profile, effectiveAlias, accountId, resources, k);
          AppendAssoc(before, RecordRows(profile, effectiveAlias, accountId, resources[..k]),
                      [JoinRow(profile, effectiveAlias, accountId, r)]);
          rows := rows + [Row(profile, effectiveAlias, accountId, r.region, r.kind, r.identifier,
                              r.engine, r.engineVersion, r.endpoint, r.port)];
          k := k + 1;
        }
        RegionDone(cloud, account, regions, g, done, before, resources);
        g := g + 1;
      }
      AccountDone(cloud, accounts, regions, a, done);
      a := a + 1;
    }
    assert accounts[..a] == accounts;
  }

  lemma RecordRowsStep(profile: string, alias: string, accountId: string, records: seq<Record>, k: nat)
    requires k < |records|
    ensures RecordRows(profile, alias, accountId, records[..k + 1])
         == RecordRows(profile, alias, accountId, records[..k]) + [JoinRow(profile, alias, accountId, records[k])]
  {
    assert records[..k + 1][..k] == records[..k];
  }

  lemma RegionDone(cloud: Cloud, account: Account, regions: seq<string>, g: nat,
                   done: seq<Row>, before: seq<Row>, resources: seq<Record>)
    requires g < |regions|
    requires before == done + AccountRows(cloud, account, regions[..g])
    requires resources == RegionRecords(cloud, account.profile, regions[g])
    ensures before + RecordRows(account.profile, AccountAlias(cloud, account), cloud.callerAccount(account.profile), resources[..|resources|])
         == done + AccountRows(cloud, account, regions[..g + 1])
  {
    assert resources[..|resources|] == resources;
    var upTo := regions[..g + 1];
    assert upTo[..|upTo| - 1] == regions[..g] && upTo[|upTo| - 1] == regions[g];
    assert AccountRows(cloud, account, upTo)
        == AccountRows(cloud, account, regions[..g]) + RegionRows(cloud, account, regions[g]);
    AppendAssoc(done, AccountRows(cloud, account, regions[..g]), RegionRows(cloud, account, regions[g]));
  }

  lemma AccountDone(cloud: Cloud, accounts: seq<Account>, regions: seq<string>, a: nat, done: seq<Row>)
    requires a < |accounts|
    requires done == Report(cloud, accounts[..a], regions)
    ensures done + AccountRows(cloud, accounts[a], regions[..|regions|]) == Report(cloud, accounts[..a + 1], regions)
  {
    assert regions[..|regions|] == regions;
    var upTo := accounts[..a + 1];
    assert upTo[..|upTo| - 1] == accounts[..a] && upTo[|upTo| - 1] == accounts[a];
    assert Report(cloud, upTo, regions) == Report(cloud, accounts[..a], regions) + AccountRows(cloud, accounts[a], regions);
  }

  /**
   * `main` as a whole: the collected rows, written under the header. The
   * written table reads back as exactly those rows.
   */
  method RunInventory(cloud: Cloud, accounts: seq<Account>, regions: seq<string>) returns (table: seq<seq<string>>)
    ensures table == Table(Report(cloud, accounts, regions))
    ensures table[0] == FieldNames
    ensures ParseTable(table) == Some(Report(cloud, accounts, regions))
  {
    var rows := CollectRows(cloud, accounts, regions);
    table := [FieldNames] + DataLines(rows);
    TableRoundTrip(rows);
  }

  /** Accounts are reported in configured order: the report of a longer list extends the shorter one's. */
  lemma {:induction false} ReportAppend(cloud: Cloud, first: seq<Account>, second: seq<Account>, regions: seq<string>)
    ensures Report(cloud, first + second, regions) == Report(cloud, first, regions) + Report(cloud, second, regions)
    decreases |second|
  {
    if second == [] {
      assert first + second == first;
    } else {
      var init := second[..|second| - 1];
      assert (first + second)[..|first + second| - 1] == first + init;
      assert (first + second)[|first + second| - 1] == second[|second| - 1];
      ReportAppend(cloud, first, init, regions);
      AppendAssoc(Report(cloud, first, regions), Report(cloud, init, regions), AccountRows(cloud, second[|second| - 1], regions));
    }
  }

  /** The rows of account `a` form one block, right after the rows of the accounts before it. */
  lemma AccountBlock(cloud: Cloud, accounts: seq<Account>, regions: seq<string>, a: nat)
    requires a < |accounts|
    ensures var at := |Report(cloud, accounts[..a], regions)|;
      var block := AccountRows(cloud, accounts[a], regions);
      at + |block| <= |Report(cloud, accounts, regions)| &&
      Report(cloud, accounts, regions)[at .. at + |block|] == block
  {
    ReportSplit(cloud, accounts, regions, a);
    SliceMiddle(Report(cloud, accounts[..a], regions), AccountRows(cloud, accounts[a], regions),
                Report(cloud, accounts[a + 1..], regions));
  }

  lemma ReportSplit(cloud: Cloud, accounts: seq<Account>, regions: seq<string>, a: nat)
    requires a < |accounts|
    ensures Report(cloud, accounts, regions)
         == Report(cloud, accounts[..a], regions)
            + (AccountRows(cloud, accounts[a], regions) + Report(cloud, accounts[a + 1..], regions))
  {
    var rest := [accounts[a]] + accounts[a + 1..];
    assert accounts == accounts[..a] + rest;
    ReportAppend(cloud, accounts[..a], rest, regions);
    ReportAppend(cloud, [accounts[a]], accounts[a + 1..], regions);
    ReportSingle(cloud, accounts[a], regions);
  }

  lemma ReportSingle(cloud: Cloud, account: Account, regions: seq<string>)
    ensures Report(cloud, [account], regions) == AccountRows(cloud, account, regions)
  {
    assert [account][..0] == [];
    assert [] + AccountRows(cloud, account, regions) == AccountRows(cloud, account, regions);
  }

  /** Regions are reported in configured order within an account. */
  lemma {:induction false} AccountRowsAppend(cloud: Cloud, account: Account, first: seq<string>, second: seq<string>)
    ensures AccountRows(cloud, account, first + second)
         == AccountRows(cloud, account, first) + AccountRows(cloud, account, second)
    decreases |second|
  {
    if second == [] {
      assert first + second == first;
    } else {
      var init := second[..|second| - 1];
      assert (first + second)[..|first + second| - 1] == first + init;
      assert (first + second)[|first + second| - 1] == second[|second| - 1];
      AccountRowsAppend(cloud, account, first, init);
      AppendAssoc(AccountRows(cloud, account, first), AccountRows(cloud, account, init),
                  RegionRows(cloud, account, second[|second| - 1]));
    }
  }

  /**
   * Within an account's rows, the rows of region `g` form one block right after
   * those of the earlier regions.
   */
  lemma RegionBlock(cloud: Cloud, account: Account, regions: seq<string>, g: nat)
    requires g < |regions|
    ensures var at := |AccountRows(cloud, account, regions[..g])|;
      var block := RegionRows(cloud, account, regions[g]);
      at + |block| <= |AccountRows(cloud, account, regions)| &&
      AccountRows(cloud, account, regions)[at .. at + |block|] == block
  {
    RegionSplit(cloud, account, regions, g);
    SliceMiddle(AccountRows(cloud, account, regions[..g]), RegionRows(cloud, account, regions[g]),
                AccountRows(cloud, account, regions[g + 1..]));
  }

  lemma RegionSplit(cloud: Cloud, account: Account, regions: seq<string>, g: nat)
    requires g < |regions|
    ensures AccountRows(cloud, account, regions)
         == AccountRows(cloud, account, regions[..g])
            + (RegionRows(cloud, account, regions[g]) + AccountRows(cloud, account, regions[g + 1..]))
  {
    var rest := [regions[g]] + regions[g + 1..];
    assert regions == regions[..g] + rest;
    AccountRowsAppend(cloud, account, regions[..g], rest);
    AccountRowsAppend(cloud, account, [regions[g]], regions[g + 1..]);
    assert [regions[g]][..0] == [];
    assert [] + RegionRows(cloud, account, regions[g]) == RegionRows(cloud, account, regions[g]);
  }

  /** A failed alias lookup leaves every row of the account with its configured alias. */
  lemma AliasLookupFailure(cloud: Cloud, account: Account, regions: seq<string>)
    requires cloud.aliasLookup(account.profile).Raised?
    ensures forall row <- AccountRows(cloud, account, regions) :: row.accountAlias == account.alias
  {
    AliasFallback(cloud.aliasLookup(account.profile), account.alias);
  }
}
