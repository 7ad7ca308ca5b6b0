/**
 * `list_rds_resources`: the database instances and clusters of one region,
 * read page by page from two paginated listings, normalised into uniform
 * resource records.
 */
module Resources {
  import opened Options
  import opened Pages

  /** The `Endpoint` object of an instance; either key may be missing. */
  datatype InstanceEndpoint = InstanceEndpoint(address: Option<string>, port: Option<int>)

  /** One entry of a `DBInstances` page. Identifier and engine are always present. */
  datatype DbInstance = DbInstance(
    identifier: string,
    engine: string,
    engineVersion: Option<string>,
    endpoint: Option<InstanceEndpoint>)

  /** One entry of a `DBClusters` page. Identifier and engine are always present. */
  datatype DbCluster = DbCluster(
    identifier: string,
    engine: string,
    engineVersion: Option<string>,
    endpoint: Option<string>,
    port: Option<int>,
    readerEndpoint: Option<string>)

  /** The `resource_type` of a record. */
  datatype Kind = Instance | ClusterWriter | ClusterReader {
    function Label(): string
    {
      match this
      case Instance => "instance"
      case ClusterWriter => "cluster-writer"
      case ClusterReader => "cluster-reader"
    }
  }

  /** The `port` of a record: the number the response gave, or `""` when it gave none. */
  datatype Port = Blank | Number(n: int)

  function PortOf(p: Option<int>): Port
  {
    match p
    case None => Blank
    case Some(n) => Number(n)
  }

  /** A normalised resource record. */
  datatype Record = Record(
    kind: Kind,
    identifier: string,
    engine: string,
    engineVersion: string,
    endpoint: string,
    port: Port,
    region: string)

  /** Python truthiness of `cluster.get("ReaderEndpoint")`: present and not empty. */
  predicate HasReader(c: DbCluster)
  {
    c.readerEndpoint.Some? && c.readerEndpoint.value != ""
  }

  /** The record of one instance; absent fields become blank. */
  function InstanceRecord(db: DbInstance, region: string): (r: Record)
    ensures r.kind == Instance && r.region == region
    ensures r.identifier == db.identifier && r.engine == db.engine
    ensures db.engineVersion.None? ==> r.engineVersion == ""
    ensures db.engineVersion.Some? ==> r.engineVersion == db.engineVersion.value
    ensures db.endpoint.None? ==> r.endpoint == "" && r.port == Blank
    ensures db.endpoint.Some? && db.endpoint.value.address.None? ==> r.endpoint == ""
    ensures db.endpoint.Some? && db.endpoint.value.address.Some? ==> r.endpoint == db.endpoint.value.address.value
    ensures db.endpoint.Some? && db.endpoint.value.port.None? ==> r.port == Blank
    ensures db.endpoint.Some? && db.endpoint.value.port.Some? ==> r.port == Number(db.endpoint.value.port.value)
  {
    match db.endpoint
    case None =>
      Record(Instance, db.identifier, db.engine, db.engineVersion.GetOr(""), "", Blank, region)
    case Some(e) =>
      Record(Instance, db.identifier, db.engine, db.engineVersion.GetOr(""), e.address.GetOr(""), PortOf(e.port), region)
  }

  /**
   * The records of one cluster: always its writer record and, when its reader
   * endpoint is truthy, a reader record right after it that differs from the
   * writer only in kind and endpoint.
   */
  function ClusterRecords(c: DbCluster, region: string): (rs: seq<Record>)
    ensures |rs| == if HasReader(c) then 2 else 1
    ensures rs[0].kind == ClusterWriter && rs[0].region == region
    ensures rs[0].identifier == c.identifier && rs[0].engine == c.engine
    ensures rs[0].engineVersion == (if c.engineVersion.Some? then c.engineVersion.value else "")
    ensures rs[0].endpoint == (if c.endpoint.Some? then c.endpoint.value else "")
    ensures rs[0].port == (if c.port.Some? then Number(c.port.value) else Blank)
    ensures HasReader(c) ==> rs[1] == rs[0].(kind := ClusterReader, endpoint := c.readerEndpoint.value)
  {
    var writer := Record(ClusterWriter, c.identifier, c.engine, c.engineVersion.GetOr(""),
                         c.endpoint.GetOr(""), PortOf(c.port), region);
    if HasReader(c) then
      [writer, Record(ClusterReader, c.identifier, c.engine, c.engineVersion.GetOr(""),
                      c.readerEndpoint.value, PortOf(c.port), region)]
    else [writer]
  }

  /** The records of a run of instances, one each, in order. */
  function InstanceRecords(dbs: seq<DbInstance>, region: string): (rs: seq<Record>)
    ensures |rs| == |dbs|
    ensures forall k :: 0 <= k < |dbs| ==> rs[k] == InstanceRecord(dbs[k], region)
  {
    if dbs == [] then []
    else InstanceRecords(dbs[..|dbs| - 1], region) + [InstanceRecord(dbs[|dbs| - 1], region)]
  }

  /** The number of clusters with a truthy reader endpoint. */
  function ReaderCount(cs: seq<DbCluster>): nat
  {
    if cs == [] then 0
    else ReaderCount(cs[..|cs| - 1]) + (if HasReader(cs[|cs| - 1]) then 1 else 0)
  }

  /** The number of records of the given kind. */
  function CountKind(rs: seq<Record>, k: Kind): nat
  {
    if rs == [] then 0
    else CountKind(rs[..|rs| - 1], k) + (if rs[|rs| - 1].kind == k then 1 else 0)
  }

  /** The records of a run of clusters, cluster after cluster. */
  function ClusterRecordsOf(cs: seq<DbCluster>, region: string): (rs: seq<Record>)
    ensures |rs| == |cs| + ReaderCount(cs)
    ensures forall k :: 0 <= k < |rs| ==> rs[k].region == region && rs[k].kind != Instance
  {
    if cs == [] then []
    else ClusterRecordsOf(cs[..|cs| - 1], region) + ClusterRecords(cs[|cs| - 1], region)
  }

  /**
   * What `list_rds_resources(session, region)` returns for the given listings:
   * all instance records, then all cluster records.
   */
  function RegionResources(instancePages: seq<seq<DbInstance>>, clusterPages: seq<seq<DbCluster>>,
                           region: string): (rs: seq<Record>)
    ensures |rs| == TotalSize(instancePages) + TotalSize(clusterPages) + ReaderCount(Flatten(clusterPages))
    ensures forall k :: 0 <= k < |rs| ==> rs[k].region == region
    ensures forall k :: 0 <= k < |rs| ==> (rs[k].kind == Instance <==> k < TotalSize(instancePages))
  {
    InstanceRecords(Flatten(instancePages), region) + ClusterRecordsOf(Flatten(clusterPages), region)
  }

  /** Normalises one region's listings, draining the instance pages, then the cluster pages. */
  method ListRdsResources(region: string, instancePages: seq<seq<DbInstance>>,
                          clusterPages: seq<seq<DbCluster>>)
    returns (resources: seq<Record>)
    ensures resources == RegionResources(instancePages, clusterPages, region)
  {
    resources := [];

    var i := 0;
    while i < |instancePages|
      invariant 0 <= i <= |instancePages|
      invariant resources == InstanceRecords(Flatten(instancePages[..i]), region)
    {
      var page := instancePages[i];
      var j := 0;
      while j < |page|
        invariant 0 <= j <= |page|
        invariant resources == InstanceRecords(Flatten(instancePages[..i]) + page[..j], region)
      {
        var db := page[j];
        var endpoint := db.endpoint.GetOr(InstanceEndpoint(None, None));
        var record := Record(Instance, db.identifier, db.engine, db.engineVersion.GetOr(""),
                             endpoint.address.GetOr(""), PortOf(endpoint.port), region);
        assert record == InstanceRecord(db, region);
        InstanceStep(Flatten(instancePages[..i]), page, j, region);
        resources := resources + [record];
        j := j + 1;
      }
      PageDone(instancePages, i);
      i := i + 1;
    }
    assert instancePages[..i] == instancePages;
    ghost var instances := resources;

    i := 0;
    while i < |clusterPages|
      invariant 0 <= i <= |clusterPages|
      invariant resources == instances + ClusterRecordsOf(Flatten(clusterPages[..i]), region)
    {
      var page := clusterPages[i];
      assert Flatten(clusterPages[..i]) + page[..0] == Flatten(clusterPages[..i]);
      var j := 0;
      while j < |page|
        invariant 0 <= j <= |page|
        invariant resources == instances + ClusterRecordsOf(Flatten(clusterPages[..i]) + page[..j], region)
      {
        var cluster := page[j];
        ghost var prev := resources;
        var writer := Record(ClusterWriter, cluster.identifier, cluster.engine, cluster.engineVersion.GetOr(""),
                             cluster.endpoint.GetOr(""), PortOf(cluster.port), region);
        assert writer == ClusterRecords(cluster, region)[0];
        resources := resources + [writer];
        if cluster.readerEndpoint.Some? && cluster.readerEndpoint.value != "" {
          var reader := Record(ClusterReader, cluster.identifier, cluster.engine, cluster.engineVersion.GetOr(""),
                               cluster.readerEndpoint.value, PortOf(cluster.port), region);
          assert HasReader(cluster) && reader == ClusterRecords(cluster, region)[1];
          resources := resources + [reader];
        } else {
          assert !HasReader(cluster);
        }
        ClusterAppended(prev, cluster, region);
        ClusterStep(instances, Flatten(clusterPages[..i]), page, j, region);
        j := j + 1;
      }
      PageDone(clusterPages, i);
      i := i + 1;
    }
    assert clusterPages[..i] == clusterPages;
  }

  /** One more instance of the current page has been normalised. */
  lemma InstanceStep(before: seq<DbInstance>, page: seq<DbInstance>, j: nat, region: string)
    requires j < |page|
    ensures InstanceRecords(before + page[..j + 1], region)
         == InstanceRecords(before + page[..j], region) + [InstanceRecord(page[j], region)]
  {
    assert before + page[..j + 1] == (before + page[..j]) + [page[j]];
    assert (before + page[..j + 1])[..|before + page[..j]|] == before + page[..j];
  }

  /** Appending a cluster's writer record, then its reader record if it has one, appends its records. */
  lemma ClusterAppended(prev: seq<Record>, c: DbCluster, region: string)
    ensures var rs := ClusterRecords(c, region);
      && (HasReader(c) ==> (prev + [rs[0]]) + [rs[1]] == prev + rs)
      && (!HasReader(c) ==> prev + [rs[0]] == prev + rs)
  {
  }

  /** One more cluster of the current page has been normalised. */
  lemma ClusterStep(instances: seq<Record>, before: seq<DbCluster>, page: seq<DbCluster>, j: nat, region: string)
    requires j < |page|
    ensures instances + ClusterRecordsOf(before + page[..j + 1], region)
         == (instances + ClusterRecordsOf(before + page[..j], region)) + ClusterRecords(page[j], region)
  {
    assert before + page[..j + 1] == (before + page[..j]) + [page[j]];
    assert (before + page[..j + 1])[..|before + page[..j]|] == before + page[..j];
  }

  /** A page has been drained: the items seen so far are those of the pages up to and including it. */
  lemma PageDone<T>(pages: seq<seq<T>>, i: nat)
    requires i < |pages|
    ensures Flatten(pages[..i]) + pages[i][..|pages[i]|] == Flatten(pages[..i + 1])
  {
    assert pages[i][..|pages[i]|] == pages[i];
    assert pages[..i + 1][..i] == pages[..i];
  }

  lemma {:induction false} ClusterRecordsOfAppend(a: seq<DbCluster>, b: seq<DbCluster>, region: string)
    ensures ClusterRecordsOf(a + b, region) == ClusterRecordsOf(a, region) + ClusterRecordsOf(b, region)
    decreases |b|
  {
    if b == [] {
      assert a + b == a;
    } else {
      var b' := b[..|b| - 1];
      assert (a + b)[..|a + b| - 1] == a + b';
      assert (a + b)[|a + b| - 1] == b[|b| - 1];
      ClusterRecordsOfAppend(a, b', region);
    }
  }

  /**
   * Cluster fan-out in place: the records of cluster `k` sit, as one block,
   * right after the records of the clusters listed before it.
   */
  lemma ClusterBlock(cs: seq<DbCluster>, k: nat, region: string)
    requires k < |cs|
    ensures var at := |ClusterRecordsOf(cs[..k], region)|;
      at + |ClusterRecords(cs[k], region)| <= |ClusterRecordsOf(cs, region)| &&
      ClusterRecordsOf(cs, region)[at .. at + |ClusterRecords(cs[k], region)|] == ClusterRecords(cs[k], region)
  {
    ClusterSplit(cs, k, region);
    SliceMiddle(ClusterRecordsOf(cs[..k], region), ClusterRecords(cs[k], region),
                ClusterRecordsOf(cs[k + 1..], region));
  }

  lemma ClusterSplit(cs: seq<DbCluster>, k: nat, region: string)
    requires k < |cs|
    ensures ClusterRecordsOf(cs, region)
         == ClusterRecordsOf(cs[..k], region) + (ClusterRecords(cs[k], region) + ClusterRecordsOf(cs[k + 1..], region))
  {
    var rest := [cs[k]] + cs[k + 1..];
    assert cs == cs[..k] + rest;
    ClusterRecordsOfAppend(cs[..k], rest, region);
    ClusterRecordsOfAppend([cs[k]], cs[k + 1..], region);
    assert [cs[k]][..0] == [];
    assert [] + ClusterRecords(cs[k], region) == ClusterRecords(cs[k], region);
  }

  lemma {:induction false} CountKindAppend(a: seq<Record>, b: seq<Record>, k: Kind)
    ensures CountKind(a + b, k) == CountKind(a, k) + CountKind(b, k)
    decreases |b|
  {
    if b == [] {
      assert a + b == a;
    } else {
      var b' := b[..|b| - 1];
      assert (a + b)[..|a + b| - 1] == a + b';
      assert (a + b)[|a + b| - 1] == b[|b| - 1];
      CountKindAppend(a, b', k);
    }
  }

  /** Every cluster yields exactly one writer record, and one reader record exactly when it has a reader. */
  lemma {:induction false} ClusterKindCounts(cs: seq<DbCluster>, region: string)
    ensures CountKind(ClusterRecordsOf(cs, region), ClusterWriter) == |cs|
    ensures CountKind(ClusterRecordsOf(cs, region), ClusterReader) == ReaderCount(cs)
  {
    if cs != [] {
      var init := cs[..|cs| - 1];
      var c := cs[|cs| - 1];
      ClusterKindCounts(init, region);
      var cr := ClusterRecords(c, region);
      CountKindAppend(ClusterRecordsOf(init, region), cr, ClusterWriter);
      CountKindAppend(ClusterRecordsOf(init, region), cr, ClusterReader);
      if HasReader(c) {
        assert cr[..1] == [cr[0]] && [cr[0]][..0] == [];
        assert CountKind([cr[0]], ClusterWriter) == 1;
        assert CountKind([cr[0]], ClusterReader) == 0;
      } else {
        assert cr[..0] == [];
      }
    }
  }
}
