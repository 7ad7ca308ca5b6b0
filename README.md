# RDS inventory, modelled in Dafny

This project models the core of `scripts/rds_inventory.py`, a batch script that
lists the database instances and database clusters of several cloud accounts
across several regions and writes one CSV report. The model covers three parts:

- **Resource normalisation** (`list_rds_resources`). Two paginated listings of one
  region (instances, then clusters) become uniform resource records. Each instance
  gives one `instance` record. Each cluster gives one `cluster-writer` record. A
  cluster with a truthy reader endpoint also gives a `cluster-reader` record right
  after its writer. Missing engine version, endpoint and port become blank. The
  region comes from the argument.
- **Alias selection** (`get_account_metadata` and `account_alias or alias_hint`).
  The registered alias is the first listed alias, or `""` when the list is empty,
  the key is missing or the lookup raised. The effective alias is the registered
  alias when it is non-empty, and otherwise the configured hint.
- **Row accumulation and the report** (`main`). Rows are appended account by
  account, region by region, record by record. Each row joins a record with the
  account's profile, effective alias and account id. The report is the fixed
  ten-column header followed by the rows.

Layout, one module per file:

| file | module | what it holds |
|---|---|---|
| `options.dfy` | `Options` | `Option`, for keys a response may lack |
| `pages.dfy` | `Pages` | draining a paginated listing (`Flatten`) and its ordering lemmas |
| `decimal.dfy` | `Decimal` | Python's `str` of an `int` (the port cell) and reading it back |
| `resources.dfy` | `Resources` | response shapes, `Record`, `ListRdsResources` and its specification |
| `accounts.dfy` | `Accounts` | the alias lookup outcome, registered and effective alias |
| `rows.dfy` | `Rows` | `Row`, the header `FieldNames`, the cells of a row, the table and reading it back |
| `inventory.dfy` | `Inventory` | the cloud as input, `CollectRows` (the loops of `main`) and `RunInventory` |

The cloud SDK becomes an input value. `Inventory.Cloud` holds three total
functions:

- the caller's account id for a profile (`sts.get_caller_identity`);
- the outcome of the alias lookup for a profile (`iam.list_account_aliases`);
- the pages of both listings for a profile and a region.

A session is identified by the profile it was opened from. The configured
account and region lists are parameters.

The imperative parts stay imperative:

- `Resources.ListRdsResources` has the source's two nested page/record loops and
  appends to `resources`.
- `Inventory.CollectRows` has the source's three nested account/region/resource
  loops and appends to `rows`.

Each is proved equal to a specification function (`RegionResources`, `Report`).
The lemmas state the promised properties about those functions.

## Model

| member | source | states |
|---|---|---|
| `Pages.Flatten` | scripts/rds_inventory.py:49-50 | draining the pages visits exactly as many items as all pages hold |
| `Pages.FlattenAppend` | scripts/rds_inventory.py:49-50 | draining two runs of pages in turn visits the first run's items, then the second's |
| `Pages.FlattenAt` | scripts/rds_inventory.py:66-67 | item `j` of page `i` comes after all items of earlier pages and the `j` before it on its page |
| `Resources.InstanceRecord` | scripts/rds_inventory.py:50-62 | an instance record has kind `instance`, the argument region, and the instance's identifier and engine. A missing engine version is `""`. A missing `Endpoint` makes both endpoint and port blank. A missing address or port inside it is blank. Present values are copied. |
| `Resources.ClusterRecords` | scripts/rds_inventory.py:67-92 | a cluster gives a writer record with its identifier, engine, blank-defaulted version, endpoint and port, and the argument region. When `HasReader` holds it gives a second record equal to the writer except for kind `cluster-reader` and endpoint = the reader endpoint. Otherwise the writer is the only record. |
| `Resources.InstanceRecords` | scripts/rds_inventory.py:49-62 | one record per instance, at the same position |
| `Resources.ClusterRecordsOf` | scripts/rds_inventory.py:66-92 | clusters give `|clusters| + ReaderCount` records, all with the argument region and none of kind `instance` |
| `Resources.RegionResources` | scripts/rds_inventory.py:42-94 | the record count is instances + clusters + clusters with a truthy reader endpoint. Every record has the argument region. A record has kind `instance` exactly when it lies before all cluster-derived records. |
| `Resources.ListRdsResources` | scripts/rds_inventory.py:42-94 | the page-by-page loops return exactly `RegionResources`: instance records in page order, then cluster records in page order |
| `Resources.ClusterRecordsOfAppend` | scripts/rds_inventory.py:66-92 | normalising two runs of clusters in turn gives the first run's records followed by the second's |
| `Resources.ClusterBlock` | scripts/rds_inventory.py:66-92 | the records of cluster `k` appear as one contiguous block, right after the records of the clusters before it, so a reader record directly follows its writer |
| `Resources.ClusterKindCounts` | scripts/rds_inventory.py:69-92 | the clusters' records hold exactly one `cluster-writer` per cluster and one `cluster-reader` per cluster with a truthy reader endpoint |
| `Accounts.RegisteredAlias` | scripts/rds_inventory.py:33-37 | a raised lookup, or an empty or missing alias list, gives `""`. Otherwise the result is the first listed alias. |
| `Accounts.EffectiveAlias` | scripts/rds_inventory.py:108 | a non-empty registered alias wins; an empty one yields the hint |
| `Accounts.AliasFallback` | scripts/rds_inventory.py:33-37 | a raised lookup yields the hint. Otherwise a non-empty first listed alias wins over any hint, and anything else yields the hint. |
| `Decimal.Digits` | scripts/rds_inventory.py:145 | the decimal text of a port number is a non-empty run of digits with no leading zero |
| `Decimal.DigitsRoundTrip` | scripts/rds_inventory.py:145 | the digits written for a number read back as that number |
| `Decimal.IntText` | scripts/rds_inventory.py:145 | the text of an integer is never empty and starts with `-` exactly for negatives |
| `Decimal.IntTextRoundTrip` | scripts/rds_inventory.py:145 | the written text of any integer reads back as that integer |
| `Rows.JoinRow` | scripts/rds_inventory.py:114-127 | a row carries the given profile, alias and account id, and its record fields give back the record unchanged |
| `Rows.PortCell` | scripts/rds_inventory.py:59 | a port cell is empty exactly when the port is absent, never a placeholder |
| `Rows.DataLines` | scripts/rds_inventory.py:145 | one line per row, in row order, each the row's cells |
| `Rows.FieldNamesDistinct` | scripts/rds_inventory.py:129-140 | the header has ten columns with pairwise different names |
| `Rows.CellsRoundTrip` | scripts/rds_inventory.py:114-140 | a row's cells are ten, one per column, and they read back as the row, so each field sits unchanged under its own column |
| `Rows.TableRoundTrip` | scripts/rds_inventory.py:142-145 | the table starts with the header, and the lines after it read back as exactly the rows, in order |
| `Inventory.RecordRows` | scripts/rds_inventory.py:113-127 | one row per record, at the same position, each the record joined with the account |
| `Inventory.RegionRows` | scripts/rds_inventory.py:110-127 | a region contributes instances + clusters + clusters with a reader endpoint rows |
| `Inventory.AccountRowsCount` | scripts/rds_inventory.py:110-127 | an account contributes the sum over its regions of the per-region record counts |
| `Inventory.ReportCountIsSum` | scripts/rds_inventory.py:98-127 | the number of rows is the sum over every account and region of instances + clusters + clusters with a reader endpoint |
| `Inventory.AccountRowsIdentity` | scripts/rds_inventory.py:106-127 | every row of an account, across all its regions, carries that account's profile, its single effective alias and account id, and a configured region |
| `Inventory.ReportRegions` | scripts/rds_inventory.py:110-119 | every row's region is one of the configured regions |
| `Inventory.CollectRows` | scripts/rds_inventory.py:97-127 | the nested account, region and record loops build exactly `Report`: rows in account order, then region order, then record order |
| `Inventory.RunInventory` | scripts/rds_inventory.py:97-145 | the written table is the header followed by the collected rows, and it reads back as exactly the report |
| `Inventory.ReportAppend` | scripts/rds_inventory.py:100-127 | the report of two account lists in turn is the first's rows followed by the second's |
| `Inventory.AccountBlock` | scripts/rds_inventory.py:100-127 | the rows of account `a` form one contiguous block right after the rows of the accounts before it |
| `Inventory.AccountRowsAppend` | scripts/rds_inventory.py:110-127 | an account's rows for two region lists in turn are the first's rows followed by the second's |
| `Inventory.RegionBlock` | scripts/rds_inventory.py:110-127 | within an account, the rows of region `g` form one contiguous block right after those of the earlier regions |
| `Inventory.AliasLookupFailure` | scripts/rds_inventory.py:33-37 | when the alias lookup raises, every row of that account carries the configured alias |

## Left out

- Sessions, clients and paginators are not modelled. They are network calls into
  the cloud SDK. `Inventory.Cloud` supplies their answers: account id, alias lookup
  outcome, and listing pages.
- Failures of the identity lookup or of a listing are not modelled. In the script
  they abort the whole run. `Cloud.callerAccount` and `Cloud.listing` are total, so
  the model describes only complete runs. Alias lookup failure is modelled, as
  `AliasLookup.Raised`.
- A key that is present but holds `null` is not modelled. `Option` covers only a
  key that is present with a value, or absent.
- CSV quoting and escaping, and the bytes written to the file, are not modelled.
  Both are the CSV library's behaviour. The table is modelled as lines of cells.
  Cells are looked up by column name in header order, as the library's dictionary
  writer does.
- The output file name and the timestamp it is built from are not modelled. They
  depend on the clock.
- Console progress messages are not modelled.
- The hard-coded account and region lists are not modelled. They are parameters.
- Re-listing returns the same records: this holds by construction, because
  `Cloud.listing` is a function of profile and region. No separate lemma states it.
