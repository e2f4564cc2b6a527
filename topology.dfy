/** The topology builder of a Pregel execution (createResultGraph): from the
    graph's collections and their shards it derives the result collection
    names, the pairing of original and result shards, the table of edge
    shards each vertex shard must consult, and the shards grouped by server.
    Collection and graph creation are storage side effects and are not part
    of this module; the shard lists of the created result collections are
    an input. */
module Topology {
  import opened Wrappers
  import opened Names

  /** One shard and the server that owns it. Shard lists are kept in the
      order the cluster lists the shards of a collection. */
  datatype Placement = Placement(shard: string, server: string)

  /** What the builder knows about one collection of the graph. */
  datatype CollectionProps = CollectionProps(
    name: string,
    colType: int,
    shardKeys: seq<string>,
    originalShards: seq<Placement>,
    resultShards: seq<Placement>)

  /** Collection type 2 is a document (vertex) collection; any other type is
      treated as an edge collection. */
  const DocumentCollectionType: int := 2

  predicate IsVertex(c: CollectionProps)
  {
    c.colType == DocumentCollectionType
  }

  /** server => collection => shards */
  type ServerShardMap = map<string, map<string, seq<string>>>

  /** The builder's per-collection record: the collection's type, its
      result collection, its shard placements and shard keys, and the
      placements of its result collection's shards. */
  datatype CollectionEntry = CollectionEntry(
    colType: int,
    resultCollection: string,
    originalShards: seq<Placement>,
    shardKeys: seq<string>,
    resultShards: seq<Placement>)

  /** The builder's result. A missing shard (a position beyond the end of a
      shorter shard list) is `None`, as the source stores `undefined` there. */
  datatype ResultGraphMap = ResultGraphMap(
    shardKeyMap: map<string, seq<string>>,
    shardMap: seq<string>,
    serverResultShardMap: ServerShardMap,
    serverShardMap: ServerShardMap,
    edgeShards: map<string, Option<seq<Option<string>>>>,
    resultShards: map<string, Option<string>>,
    collectionMap: map<string, string>,
    entries: map<string, CollectionEntry>)

  /** In single-server mode a collection has one shard, named like the
      collection and owned by "localhost", and no shard keys. */
  function LocalCollection(name: string, colType: int, executionNumber: string): (c: CollectionProps)
    ensures ShardIds(c.originalShards) == [name]
    ensures ShardIds(c.resultShards) == [ResultCollectionName(name, executionNumber)]
  {
    CollectionProps(name, colType, [],
      [Placement(name, "localhost")],
      [Placement(ResultCollectionName(name, executionNumber), "localhost")])
  }

  /** The collections as the builder sees them: on a coordinator as the
      cluster describes them, on a single server reshaped by
      `LocalCollection`. */
  function PlacedCollections(coordinator: bool, executionNumber: string, cols: seq<CollectionProps>)
    : (r: seq<CollectionProps>)
    ensures |r| == |cols|
    ensures forall k :: 0 <= k < |r| ==> r[k].name == cols[k].name && r[k].colType == cols[k].colType
    ensures !coordinator ==> forall k :: 0 <= k < |r| ==>
      r[k].shardKeys == [] && ShardIds(r[k].originalShards) == [cols[k].name]
  {
    if coordinator then cols
    else seq(|cols|, k requires 0 <= k < |cols| => LocalCollection(cols[k].name, cols[k].colType, executionNumber))
  }

  // ---------------------------------------------------------------------
  // Sequence helpers

  function Init<T>(s: seq<T>): seq<T>
    requires |s| > 0
  {
    s[..|s| - 1]
  }

  function Last<T>(s: seq<T>): T
    requires |s| > 0
  {
    s[|s| - 1]
  }

  lemma InitLastOfPrefix<T>(s: seq<T>, k: nat)
    requires k < |s|
    ensures Init(s[..k + 1]) == s[..k] && Last(s[..k + 1]) == s[k]
  {
    assert s[..k + 1][..k] == s[..k];
  }

  lemma InitLastOfAppend<T>(s: seq<T>, x: T)
    ensures Init(s + [x]) == s && Last(s + [x]) == x
  {
    assert (s + [x])[..|s|] == s;
  }

  /** The shard ids of a placement list, in order (Object.keys of the
      source's shard object). */
  function ShardIds(ps: seq<Placement>): (ids: seq<string>)
    ensures |ids| == |ps|
    ensures forall i :: 0 <= i < |ps| ==> ids[i] == ps[i].shard
  {
    seq(|ps|, i requires 0 <= i < |ps| => ps[i].shard)
  }

  /** JavaScript array indexing: out of range gives `undefined`. */
  function At(s: seq<string>, i: int): (r: Option<string>)
    ensures r.Some? <==> 0 <= i < |s|
    ensures r.Some? ==> r.value == s[i]
  {
    if 0 <= i < |s| then Some(s[i]) else None
  }

  function Placements(c: CollectionProps, result: bool): seq<Placement>
  {
    if result then c.resultShards else c.originalShards
  }

  // ---------------------------------------------------------------------
  // Specification: each map as a function of the collections processed so
  // far, in the order the builder visits them.

  function CollectionMapOf(n: string, cols: seq<CollectionProps>): map<string, string>
    decreases |cols|
  {
    if cols == [] then map[]
    else CollectionMapOf(n, Init(cols))[Last(cols).name := ResultCollectionName(Last(cols).name, n)]
  }

  function EntryOf(n: string, c: CollectionProps): CollectionEntry
  {
    CollectionEntry(c.colType, ResultCollectionName(c.name, n), c.originalShards, c.shardKeys, c.resultShards)
  }

  function EntriesOf(n: string, cols: seq<CollectionProps>): map<string, CollectionEntry>
    decreases |cols|
  {
    if cols == [] then map[]
    else EntriesOf(n, Init(cols))[Last(cols).name := EntryOf(n, Last(cols))]
  }

  function ShardKeyMapOf(cols: seq<CollectionProps>): map<string, seq<string>>
    decreases |cols|
  {
    if cols == [] then map[]
    else ShardKeyMapOf(Init(cols))[Last(cols).name := Last(cols).shardKeys]
  }

  function ShardMapOf(cols: seq<CollectionProps>): seq<string>
    decreases |cols|
  {
    if cols == [] then []
    else ShardMapOf(Init(cols)) + ShardIds(Last(cols).originalShards)
  }

  /** The shard lists of the vertex collections, in collection order. */
  function VertexListsOf(cols: seq<CollectionProps>): seq<seq<string>>
    decreases |cols|
  {
    if cols == [] then []
    else
      var own := if IsVertex(Last(cols)) then [ShardIds(Last(cols).originalShards)] else [];
      VertexListsOf(Init(cols)) + own
  }

  /** The shard lists of the edge collections, in collection order. */
  function EdgeListsOf(cols: seq<CollectionProps>): seq<seq<string>>
    decreases |cols|
  {
    if cols == [] then []
    else
      var own := if IsVertex(Last(cols)) then [] else [ShardIds(Last(cols).originalShards)];
      EdgeListsOf(Init(cols)) + own
  }

  /** The shard count of the last vertex collection, 1 when there is none. */
  function NumShardsOf(cols: seq<CollectionProps>): nat
    decreases |cols|
  {
    if cols == [] then 1
    else if IsVertex(Last(cols)) then |Last(cols).originalShards|
    else NumShardsOf(Init(cols))
  }

  /** Looks up server => collection in a server shard map, absent as []. */
  function Lookup(m: ServerShardMap, server: string, collection: string): seq<string>
  {
    if server in m && collection in m[server] then m[server][collection] else []
  }

  /** Appends one shard to the list of its server and collection. */
  function AddShard(m: ServerShardMap, collection: string, p: Placement): ServerShardMap
  {
    var inner := if p.server in m then m[p.server] else map[];
    m[p.server := inner[collection := Lookup(m, p.server, collection) + [p.shard]]]
  }

  function Grouped(m: ServerShardMap, collection: string, ps: seq<Placement>): ServerShardMap
    decreases |ps|
  {
    if ps == [] then m else AddShard(Grouped(m, collection, Init(ps)), collection, Last(ps))
  }

  /** The vertex collections' original (`result == false`) or result shards,
      grouped by server. */
  function ServerMapOf(cols: seq<CollectionProps>, result: bool): ServerShardMap
    decreases |cols|
  {
    if cols == [] then map[]
    else if IsVertex(Last(cols)) then
      Grouped(ServerMapOf(Init(cols), result), Last(cols).name, Placements(Last(cols), result))
    else ServerMapOf(Init(cols), result)
  }

  function PairShards(m: map<string, Option<string>>, orig: seq<string>, res: seq<string>, k: nat)
    : map<string, Option<string>>
    requires k <= |orig|
  {
    if k == 0 then m else PairShards(m, orig, res, k - 1)[orig[k - 1] := At(res, k - 1)]
  }

  function ResultShardsOf(cols: seq<CollectionProps>): map<string, Option<string>>
    decreases |cols|
  {
    if cols == [] then map[]
    else
      var c := Last(cols);
      PairShards(ResultShardsOf(Init(cols)), ShardIds(c.originalShards),
        ShardIds(c.resultShards), |c.originalShards|)
  }

  /** The j-th shard of every edge collection, in collection order. */
  function Column(edgeLists: seq<seq<string>>, j: int): (r: seq<Option<string>>)
  {
    seq(|edgeLists|, m requires 0 <= m < |edgeLists| => At(edgeLists[m], j))
  }

  function AlignedLists(edgeLists: seq<seq<string>>, count: nat): seq<seq<Option<string>>>
  {
    seq(count, j requires 0 <= j < count => Column(edgeLists, j))
  }

  type EdgeTableMap = map<string, Option<seq<Option<string>>>>

  function AssignLists(m: EdgeTableMap, shards: seq<string>, lists: seq<seq<Option<string>>>, k: nat)
    : EdgeTableMap
    requires k <= |shards|
  {
    if k == 0 then m
    else AssignLists(m, shards, lists, k - 1)[shards[k - 1] := if k - 1 < |lists| then Some(lists[k - 1]) else None]
  }

  /** The edge table as the builder fills it, one vertex shard list at a time. */
  function EdgeTable(vertexLists: seq<seq<string>>, lists: seq<seq<Option<string>>>): EdgeTableMap
    decreases |vertexLists|
  {
    if vertexLists == [] then map[]
    else AssignLists(EdgeTable(Init(vertexLists), lists), Last(vertexLists), lists, |Last(vertexLists)|)
  }

  /** The same table, written per collection. */
  function EdgeTableOf(cols: seq<CollectionProps>, lists: seq<seq<Option<string>>>): EdgeTableMap
    decreases |cols|
  {
    if cols == [] then map[]
    else if IsVertex(Last(cols)) then
      AssignLists(EdgeTableOf(Init(cols), lists), ShardIds(Last(cols).originalShards), lists,
        |Last(cols).originalShards|)
    else EdgeTableOf(Init(cols), lists)
  }

  function EdgeShardsOf(cols: seq<CollectionProps>): EdgeTableMap
  {
    EdgeTable(VertexListsOf(cols), AlignedLists(EdgeListsOf(cols), NumShardsOf(cols)))
  }

  function ResultGraphOf(n: string, cols: seq<CollectionProps>): ResultGraphMap
  {
    ResultGraphMap(
      ShardKeyMapOf(cols),
      ShardMapOf(cols),
      ServerMapOf(cols, true),
      ServerMapOf(cols, false),
      EdgeShardsOf(cols),
      ResultShardsOf(cols),
      CollectionMapOf(n, cols),
      EntriesOf(n, cols))
  }

  // ---------------------------------------------------------------------
  // The builder

  /** Appends each placement's shard to the list of its server and
      collection, in order. */
  method GroupByServer(m: ServerShardMap, collection: string, ps: seq<Placement>)
    returns (r: ServerShardMap)
    ensures r == Grouped(m, collection, ps)
  {
    r := m;
    for i := 0 to |ps|
      invariant r == Grouped(m, collection, ps[..i])
    {
      InitLastOfPrefix(ps, i);
      var p := ps[i];
      var inner := if p.server in r then r[p.server] else map[];
      var list := if collection in inner then inner[collection] else [];
      r := r[p.server := inner[collection := list + [p.shard]]];
    }
    assert ps[..|ps|] == ps;
  }

  /** createResultGraph with no collections created: the mapping of the
      execution's graph, visited collection by collection. */
  method CreateResultGraph(executionNumber: string, cols: seq<CollectionProps>)
    returns (g: ResultGraphMap)
    ensures g == ResultGraphOf(executionNumber, cols)
  {
    var shardKeyMap: map<string, seq<string>> := map[];
    var shardMap: seq<string> := [];
    var serverShardMap: ServerShardMap := map[];
    var serverResultShardMap: ServerShardMap := map[];
    var resultShards: map<string, Option<string>> := map[];
    var collectionMap: map<string, string> := map[];
    var entries: map<string, CollectionEntry> := map[];
    var vertexLists: seq<seq<string>> := [];
    var edgeLists: seq<seq<string>> := [];
    var numShards: nat := 1;
    for k := 0 to |cols|
      invariant collectionMap == CollectionMapOf(executionNumber, cols[..k])
      invariant entries == EntriesOf(executionNumber, cols[..k])
      invariant shardKeyMap == ShardKeyMapOf(cols[..k])
      invariant shardMap == ShardMapOf(cols[..k])
      invariant vertexLists == VertexListsOf(cols[..k])
      invariant edgeLists == EdgeListsOf(cols[..k])
      invariant numShards == NumShardsOf(cols[..k])
      invariant serverShardMap == ServerMapOf(cols[..k], false)
      invariant serverResultShardMap == ServerMapOf(cols[..k], true)
      invariant resultShards == ResultShardsOf(cols[..k])
    {
      InitLastOfPrefix(cols, k);
      var c := cols[k];
      collectionMap := collectionMap[c.name := ResultCollectionName(c.name, executionNumber)];
      entries := entries[c.name := CollectionEntry(c.colType, collectionMap[c.name], c.originalShards,
        c.shardKeys, c.resultShards)];
      shardKeyMap := shardKeyMap[c.name := c.shardKeys];
      var origShards := ShardIds(c.originalShards);
      if IsVertex(c) {
        vertexLists := vertexLists + [origShards];
        shardMap := shardMap + origShards;
        numShards := |origShards|;
        serverShardMap := GroupByServer(serverShardMap, c.name, c.originalShards);
        serverResultShardMap := GroupByServer(serverResultShardMap, c.name, c.resultShards);
      } else {
        edgeLists := edgeLists + [origShards];
        shardMap := shardMap + origShards;
      }
      var resShards := ShardIds(c.resultShards);
      ghost var before := resultShards;
      for i := 0 to |origShards|
        invariant resultShards == PairShards(before, origShards, resShards, i)
      {
        resultShards := resultShards[origShards[i] := At(resShards, i)];
      }
    }
    assert cols[..|cols|] == cols;

    var lists: seq<seq<Option<string>>> := [];
    for j := 0 to numShards
      invariant lists == AlignedLists(edgeLists, j)
    {
      var list: seq<Option<string>> := [];
      for m := 0 to |edgeLists|
        invariant list == Column(edgeLists[..m], j)
      {
        list := list + [At(edgeLists[m], j)];
      }
      assert edgeLists[..|edgeLists|] == edgeLists;
      lists := lists + [list];
    }

    var edgeShards: EdgeTableMap := map[];
    for v := 0 to |vertexLists|
      invariant edgeShards == EdgeTable(vertexLists[..v], lists)
    {
      InitLastOfPrefix(vertexLists, v);
      var shards := vertexLists[v];
      ghost var before := edgeShards;
      for i := 0 to |shards|
        invariant edgeShards == AssignLists(before, shards, lists, i)
      {
        edgeShards := edgeShards[shards[i] := if i < |lists| then Some(lists[i]) else None];
      }
    }
    assert vertexLists[..|vertexLists|] == vertexLists;

    g := ResultGraphMap(shardKeyMap, shardMap, serverResultShardMap, serverShardMap,
      edgeShards, resultShards, collectionMap, entries);
  }

  // ---------------------------------------------------------------------
  // What the maps mean

  /** Every collection, and only those, maps to "P_<n>_RESULT_<name>", and
      distinct collections map to distinct result collections. */
  lemma {:induction false} CollectionMapNames(n: string, cols: seq<CollectionProps>)
    ensures CollectionMapOf(n, cols).Keys == set k | 0 <= k < |cols| :: cols[k].name
    ensures forall c :: c in CollectionMapOf(n, cols) ==>
      CollectionMapOf(n, cols)[c] == ResultCollectionName(c, n)
    ensures forall c1, c2 :: c1 in CollectionMapOf(n, cols) && c2 in CollectionMapOf(n, cols) && c1 != c2 ==>
      CollectionMapOf(n, cols)[c1] != CollectionMapOf(n, cols)[c2]
  {
    if cols != [] {
      CollectionMapNames(n, Init(cols));
      var names := set k | 0 <= k < |cols| :: cols[k].name;
      var initNames := set k | 0 <= k < |Init(cols)| :: Init(cols)[k].name;
      assert names == initNames + {Last(cols).name} by {
        forall x | x in names ensures x in initNames + {Last(cols).name} {
          var k :| 0 <= k < |cols| && cols[k].name == x;
          if k < |cols| - 1 { assert Init(cols)[k].name == x; }
        }
      }
    }
    var m := CollectionMapOf(n, cols);
    forall c1, c2 | c1 in m && c2 in m && c1 != c2 ensures m[c1] != m[c2] {
      ResultNamesDistinct(n, c1, c2);
    }
  }

  /** Every collection, and only those, has an entry. */
  lemma {:induction false} EntriesOfKeys(n: string, cols: seq<CollectionProps>)
    ensures EntriesOf(n, cols).Keys == set j | 0 <= j < |cols| :: cols[j].name
    decreases |cols|
  {
    if cols != [] {
      EntriesOfKeys(n, Init(cols));
      var names := set j | 0 <= j < |cols| :: cols[j].name;
      var initNames := set j | 0 <= j < |Init(cols)| :: Init(cols)[j].name;
      assert names == initNames + {Last(cols).name} by {
        forall x | x in names ensures x in initNames + {Last(cols).name} {
          var j :| 0 <= j < |cols| && cols[j].name == x;
          if j < |cols| - 1 { assert Init(cols)[j].name == x; }
        }
      }
    }
  }

  /** The entry of a collection holds its type, its result collection, its
      placements and shard keys, and its result collection's placements,
      taken from the last collection of that name. */
  lemma {:induction false} EntriesOfCollections(n: string, cols: seq<CollectionProps>, k: int)
    requires 0 <= k < |cols|
    requires forall j :: k < j < |cols| ==> cols[j].name != cols[k].name
    ensures cols[k].name in EntriesOf(n, cols)
    ensures EntriesOf(n, cols)[cols[k].name] ==
      CollectionEntry(cols[k].colType, ResultCollectionName(cols[k].name, n), cols[k].originalShards,
        cols[k].shardKeys, cols[k].resultShards)
    decreases |cols|
  {
    if k < |cols| - 1 {
      EntriesOfCollections(n, Init(cols), k);
    }
  }

  /** The shard map of a concatenation of collection lists is the
      concatenation of their shard maps. */
  lemma {:induction false} ShardMapAppend(a: seq<CollectionProps>, b: seq<CollectionProps>)
    ensures ShardMapOf(a + b) == ShardMapOf(a) + ShardMapOf(b)
    decreases |b|
  {
    if b == [] {
      assert a + b == a;
    } else {
      assert Init(a + b) == a + Init(b);
      assert Last(a + b) == Last(b);
      ShardMapAppend(a, Init(b));
    }
  }

  /** The shard map lists all shards of all collections, collection after
      collection: the i-th shard of collection k sits right after the shards
      of the collections before k. */
  lemma ShardMapPosition(cols: seq<CollectionProps>, k: int, i: int)
    requires 0 <= k < |cols| && 0 <= i < |cols[k].originalShards|
    ensures |ShardMapOf(cols[..k])| + i < |ShardMapOf(cols)|
    ensures ShardMapOf(cols)[|ShardMapOf(cols[..k])| + i] == cols[k].originalShards[i].shard
  {
    assert cols == cols[..k] + ([cols[k]] + cols[k + 1..]);
    ShardMapAppend(cols[..k], [cols[k]] + cols[k + 1..]);
    ShardMapAppend([cols[k]], cols[k + 1..]);
    assert Init([cols[k]]) == [];
  }

  /** No shard id occurs twice in the graph (shard ids are unique in a
      cluster; in single-server mode the shard is the collection itself). */
  ghost predicate ShardsDistinct(cols: seq<CollectionProps>)
  {
    forall k1, i1, k2, i2 ::
      0 <= k1 < |cols| && 0 <= i1 < |cols[k1].originalShards| &&
      0 <= k2 < |cols| && 0 <= i2 < |cols[k2].originalShards| &&
      (k1 != k2 || i1 != i2) ==>
      cols[k1].originalShards[i1].shard != cols[k2].originalShards[i2].shard
  }

  lemma {:induction false} PairShardsKeys(m: map<string, Option<string>>, orig: seq<string>, res: seq<string>, k: nat)
    requires k <= |orig|
    ensures PairShards(m, orig, res, k).Keys == m.Keys + set j | 0 <= j < k :: orig[j]
  {
    if k > 0 {
      PairShardsKeys(m, orig, res, k - 1);
      assert (set j | 0 <= j < k :: orig[j]) == (set j | 0 <= j < k - 1 :: orig[j]) + {orig[k - 1]};
    }
  }

  lemma {:induction false} PairShardsOther(m: map<string, Option<string>>, orig: seq<string>, res: seq<string>, k: nat, x: string)
    requires k <= |orig|
    requires forall j :: 0 <= j < k ==> orig[j] != x
    ensures x in PairShards(m, orig, res, k) <==> x in m
    ensures x in m ==> PairShards(m, orig, res, k)[x] == m[x]
  {
    if k > 0 {
      PairShardsOther(m, orig, res, k - 1, x);
    }
  }

  lemma {:induction false} PairShardsHit(m: map<string, Option<string>>, orig: seq<string>, res: seq<string>, k: nat, i: nat)
    requires i < k <= |orig|
    requires forall j :: i < j < k ==> orig[j] != orig[i]
    ensures orig[i] in PairShards(m, orig, res, k)
    ensures PairShards(m, orig, res, k)[orig[i]] == At(res, i)
  {
    if i < k - 1 {
      PairShardsHit(m, orig, res, k - 1, i);
    }
  }

  /** The keys of the result shard map are exactly the shards of the shard map. */
  lemma {:induction false} ResultShardsKeys(cols: seq<CollectionProps>)
    ensures ResultShardsOf(cols).Keys == set x | x in ShardMapOf(cols)
  {
    if cols != [] {
      var c := Last(cols);
      var ids := ShardIds(c.originalShards);
      ResultShardsKeys(Init(cols));
      PairShardsKeys(ResultShardsOf(Init(cols)), ids, ShardIds(c.resultShards), |ids|);
      assert (set j | 0 <= j < |ids| :: ids[j]) == set x | x in ids by {
        forall x | x in ids ensures x in set j | 0 <= j < |ids| :: ids[j] {
          var j :| 0 <= j < |ids| && ids[j] == x;
        }
      }
    }
  }

  /** The i-th original shard of a collection maps to the i-th result shard
      of its result collection (`None` when the result collection has fewer
      shards). */
  lemma {:induction false} ResultShardsPositional(cols: seq<CollectionProps>, k: int, i: int)
    requires ShardsDistinct(cols)
    requires 0 <= k < |cols| && 0 <= i < |cols[k].originalShards|
    ensures cols[k].originalShards[i].shard in ResultShardsOf(cols)
    ensures ResultShardsOf(cols)[cols[k].originalShards[i].shard] == At(ShardIds(cols[k].resultShards), i)
    decreases |cols|
  {
    var c := Last(cols);
    var ids := ShardIds(c.originalShards);
    var x := cols[k].originalShards[i].shard;
    if k == |cols| - 1 {
      PairShardsHit(ResultShardsOf(Init(cols)), ids, ShardIds(c.resultShards), |ids|, i);
    } else {
      assert Init(cols)[k] == cols[k];
      ResultShardsPositional(Init(cols), k, i);
      forall j | 0 <= j < |ids| ensures ids[j] != x {
        assert ids[j] == cols[|cols| - 1].originalShards[j].shard;
      }
      PairShardsOther(ResultShardsOf(Init(cols)), ids, ShardIds(c.resultShards), |ids|, x);
    }
  }

  lemma {:induction false} AssignListsOther(m: EdgeTableMap, shards: seq<string>, lists: seq<seq<Option<string>>>, k: nat, x: string)
    requires k <= |shards|
    requires forall j :: 0 <= j < k ==> shards[j] != x
    ensures x in AssignLists(m, shards, lists, k) <==> x in m
    ensures x in m ==> AssignLists(m, shards, lists, k)[x] == m[x]
  {
    if k > 0 {
      AssignListsOther(m, shards, lists, k - 1, x);
    }
  }

  lemma {:induction false} AssignListsHit(m: EdgeTableMap, shards: seq<string>, lists: seq<seq<Option<string>>>, k: nat, i: nat)
    requires i < k <= |shards|
    requires forall j :: i < j < k ==> shards[j] != shards[i]
    ensures shards[i] in AssignLists(m, shards, lists, k)
    ensures AssignLists(m, shards, lists, k)[shards[i]] == if i < |lists| then Some(lists[i]) else None
  {
    if i < k - 1 {
      AssignListsHit(m, shards, lists, k - 1, i);
    }
  }

  /** Filling the table list by list is filling it collection by collection. */
  lemma {:induction false} EdgeTableBridge(cols: seq<CollectionProps>, lists: seq<seq<Option<string>>>)
    ensures EdgeTable(VertexListsOf(cols), lists) == EdgeTableOf(cols, lists)
  {
    if cols != [] {
      EdgeTableBridge(Init(cols), lists);
      if IsVertex(Last(cols)) {
        InitLastOfAppend(VertexListsOf(Init(cols)), ShardIds(Last(cols).originalShards));
      } else {
        assert VertexListsOf(cols) == VertexListsOf(Init(cols));
      }
    }
  }

  lemma {:induction false} EdgeTableOfHit(cols: seq<CollectionProps>, lists: seq<seq<Option<string>>>, k: int, i: int)
    requires ShardsDistinct(cols)
    requires 0 <= k < |cols| && IsVertex(cols[k]) && 0 <= i < |cols[k].originalShards|
    ensures cols[k].originalShards[i].shard in EdgeTableOf(cols, lists)
    ensures EdgeTableOf(cols, lists)[cols[k].originalShards[i].shard] ==
      if i < |lists| then Some(lists[i]) else None
    decreases |cols|
  {
    var c := Last(cols);
    var ids := ShardIds(c.originalShards);
    var x := cols[k].originalShards[i].shard;
    if k == |cols| - 1 {
      AssignListsHit(EdgeTableOf(Init(cols), lists), ids, lists, |ids|, i);
    } else {
      assert Init(cols)[k] == cols[k];
      EdgeTableOfHit(Init(cols), lists, k, i);
      if IsVertex(c) {
        forall j | 0 <= j < |ids| ensures ids[j] != x {
          assert ids[j] == cols[|cols| - 1].originalShards[j].shard;
        }
        AssignListsOther(EdgeTableOf(Init(cols), lists), ids, lists, |ids|, x);
      }
    }
  }

  /** The i-th shard of every vertex collection maps to the list of the i-th
      shards of all edge collections, in collection order; `None` when i is
      beyond the shard count of the last vertex collection, and a `None`
      entry for an edge collection with fewer shards. */
  lemma EdgeShardsAligned(cols: seq<CollectionProps>, k: int, i: int)
    requires ShardsDistinct(cols)
    requires 0 <= k < |cols| && IsVertex(cols[k]) && 0 <= i < |cols[k].originalShards|
    ensures cols[k].originalShards[i].shard in EdgeShardsOf(cols)
    ensures EdgeShardsOf(cols)[cols[k].originalShards[i].shard] ==
      if i < NumShardsOf(cols) then Some(Column(EdgeListsOf(cols), i)) else None
    ensures i < NumShardsOf(cols) ==>
      var row := EdgeShardsOf(cols)[cols[k].originalShards[i].shard].value;
      |row| == |EdgeListsOf(cols)| &&
      forall m :: 0 <= m < |EdgeListsOf(cols)| ==> row[m] == At(EdgeListsOf(cols)[m], i)
  {
    var lists := AlignedLists(EdgeListsOf(cols), NumShardsOf(cols));
    EdgeTableBridge(cols, lists);
    EdgeTableOfHit(cols, lists, k, i);
  }

  /** The shards of `ps` on `server`, in order. */
  function ShardsOn(ps: seq<Placement>, server: string): seq<string>
    decreases |ps|
  {
    if ps == [] then []
    else
      var own := if Last(ps).server == server then [Last(ps).shard] else [];
      ShardsOn(Init(ps), server) + own
  }

  lemma {:induction false} ShardsOnMembers(ps: seq<Placement>, server: string, s: string)
    ensures s in ShardsOn(ps, server) <==> Placement(s, server) in ps
    decreases |ps|
  {
    if ps != [] {
      ShardsOnMembers(Init(ps), server, s);
      assert ps == Init(ps) + [Last(ps)];
    }
  }

  /** The shards a server owns of the vertex collections named `name`, in
      collection order. */
  function OwnedShards(cols: seq<CollectionProps>, result: bool, server: string, name: string): seq<string>
    decreases |cols|
  {
    if cols == [] then []
    else
      var c := Last(cols);
      var own := if IsVertex(c) && c.name == name then ShardsOn(Placements(c, result), server) else [];
      OwnedShards(Init(cols), result, server, name) + own
  }

  lemma {:induction false} LookupGrouped(m: ServerShardMap, c: string, ps: seq<Placement>, server: string, name: string)
    ensures Lookup(Grouped(m, c, ps), server, name) ==
      Lookup(m, server, name) + (if c == name then ShardsOn(ps, server) else [])
    decreases |ps|
  {
    if ps != [] {
      LookupGrouped(m, c, Init(ps), server, name);
    }
  }

  /** Grouping by server: the list of a server and collection holds that
      server's shards of the collection, in collection and shard order. */
  lemma {:induction false} ServerMapLookup(cols: seq<CollectionProps>, result: bool, server: string, name: string)
    ensures Lookup(ServerMapOf(cols, result), server, name) == OwnedShards(cols, result, server, name)
    decreases |cols|
  {
    if cols != [] {
      ServerMapLookup(Init(cols), result, server, name);
      if IsVertex(Last(cols)) {
        LookupGrouped(ServerMapOf(Init(cols), result), Last(cols).name,
          Placements(Last(cols), result), server, name);
      }
    }
  }

  /** Some vertex collection named `name` places shard `s` on `server`. */
  ghost predicate PlacedOn(cols: seq<CollectionProps>, result: bool, server: string, name: string, s: string)
  {
    exists k :: 0 <= k < |cols| && IsVertex(cols[k]) && cols[k].name == name &&
      Placement(s, server) in Placements(cols[k], result)
  }

  /** A shard is listed under a server and collection exactly when that
      vertex collection places the shard on that server. */
  lemma {:induction false} ServerMapMembership(cols: seq<CollectionProps>, result: bool, server: string, name: string, s: string)
    ensures s in Lookup(ServerMapOf(cols, result), server, name) <==> PlacedOn(cols, result, server, name, s)
    decreases |cols|
  {
    ServerMapLookup(cols, result, server, name);
    if cols != [] {
      var c := Last(cols);
      ServerMapLookup(Init(cols), result, server, name);
      ServerMapMembership(Init(cols), result, server, name, s);
      ShardsOnMembers(Placements(c, result), server, s);
      if PlacedOn(cols, result, server, name, s) {
        var k :| 0 <= k < |cols| && IsVertex(cols[k]) && cols[k].name == name &&
          Placement(s, server) in Placements(cols[k], result);
        if k < |cols| - 1 { assert Init(cols)[k] == cols[k]; }
      }
    }
  }
}
