/**
 * The multi-raft bookkeeping of the metadata server: registering state
 * processors, creating `raftGroupNum` consensus groups per processor at
 * start-up, looking a group up by its routing id, and submitting an
 * operation to a group's node with a closure that forwards the outcome to
 * the caller's closure. The consensus engine itself is opaque: it records
 * the groups it was asked to start and the tasks it was handed.
 */
module RaftServer {
  import opened Wrappers
  import opened JavaLang

  /** The separator `wrapGroupName` puts between category and shard index. */
  const GROUP_SEPARATOR: char := '-'
  /** The separator `getRaftGroupHolder` splits a group id on. */
  const ROUTING_SEPARATOR: char := '%'

  /** A peer address, `host:port`. */
  type PeerId = string
  /** The peer set of a group. */
  type Configuration = seq<PeerId>

  /**
   * A registered `StateProcessor`: `id` stands for the object's identity
   * (the processor set uses identity equality) and `category` is what its
   * `groupCategory()` returns.
   */
  datatype Processor = Processor(id: nat, category: string)

  /** An `MqttStateMachine` as constructed: bound to one processor and one group identity. */
  datatype StateMachine = StateMachine(processor: Processor, groupIdentity: string)

  /** The node the engine hands back when a group is started. */
  datatype NodeId = NodeId(index: nat)

  /**
   * A `RaftGroupService` as constructed for one shard: the group identity,
   * the local peer, and the per-group node options the server sets (state
   * machine, initial configuration, snapshot interval).
   */
  datatype GroupService = GroupService(
    groupId: string,
    peer: PeerId,
    fsm: StateMachine,
    initialConf: Configuration,
    snapshotIntervalSecs: int)

  /** A `RaftGroupHolder`: service, state machine and node of one running shard. */
  datatype Holder = Holder(service: GroupService, machine: StateMachine, node: NodeId)

  /** The exceptions `getRaftGroupHolder` can end in. */
  datatype LookupError =
    | MalformedGroupId   // "Fail to get RaftGroupHolder": the id does not split into two parts
    | NumberFormat       // Integer.parseInt rejects the index part
    | NullPointer        // no list is registered for the category
    | IndexOutOfBounds   // List.get with an index outside the list

  /** A protobuf message; only its serialized form matters here. */
  datatype Message = Message(bytes: seq<Byte>)
  {
    function ToByteArray(): seq<Byte> { bytes }
  }

  datatype Throwable = Throwable(message: string)
  datatype Response = Response(payload: seq<Byte>)

  /** The status an `MqttClosure` is fired with: an optional throwable and an optional response. */
  datatype Status = Status(throwable: Option<Throwable>, response: Option<Response>)

  /** A jraft `Task`: the entry's data and the closure to fire when it is done. */
  datatype Task = Task(data: seq<Byte>, done: MqttClosure)

  /** One `node.apply(task)` call as the engine saw it. */
  datatype Submission = Submission(node: NodeId, task: Task)

  /** The group name `start()` creates: category, '-', the shard index in decimal. */
  function WrapGroupName(category: string, index: Int32): (name: string)
    ensures |name| > |category| + 1
    ensures name[..|category|] == category && name[|category|] == GROUP_SEPARATOR
  {
    category + [GROUP_SEPARATOR] + Decimal(index)
  }

  /**
   * A created name reads back as its parts: the category, then '-', then
   * text that `Integer.parseInt` turns back into the shard index.
   */
  lemma WrapGroupNameParts(category: string, index: Int32)
    ensures var name := WrapGroupName(category, index);
      && |name| > |category| + 1
      && name[..|category|] == category && name[|category|] == GROUP_SEPARATOR
      && ParseInt(name[|category| + 1..]) == Some(index)
  {
    ParseDecimal(index);
    var name := WrapGroupName(category, index);
    assert name[|category| + 1..] == Decimal(index);
  }

  /** Categories without '-' give every (category, index) pair its own name. */
  lemma WrapGroupNameInjective(c1: string, i1: Int32, c2: string, i2: Int32)
    requires GROUP_SEPARATOR !in c1 && GROUP_SEPARATOR !in c2
    requires WrapGroupName(c1, i1) == WrapGroupName(c2, i2)
    ensures c1 == c2 && i1 == i2
  {
    var name := WrapGroupName(c1, i1);
    WrapGroupNameParts(c1, i1);
    WrapGroupNameParts(c2, i2);
    assert c1 == name[..|c1|];
  }

  /**
   * The shard indices `start()` uses are never negative, and for those the
   * name gives back category and index whatever the category holds: the
   * '-' that `wrapGroupName` adds is the last one in the name.
   */
  lemma WrapGroupNameInjectiveShards(c1: string, i1: Int32, c2: string, i2: Int32)
    requires 0 <= i1 && 0 <= i2
    requires WrapGroupName(c1, i1) == WrapGroupName(c2, i2)
    ensures c1 == c2 && i1 == i2
  {
    var name := WrapGroupName(c1, i1);
    WrapGroupNameLastSeparator(c1, i1);
    WrapGroupNameLastSeparator(c2, i2);
    assert |c1| == |c2|;
    assert c1 == name[..|c1|] == c2;
    WrapGroupNameParts(c1, i1);
    WrapGroupNameParts(c2, i2);
  }

  /** For a non-negative index only digits follow the '-' that `wrapGroupName` adds. */
  lemma WrapGroupNameLastSeparator(category: string, index: Int32)
    requires 0 <= index
    ensures var name := WrapGroupName(category, index);
      forall k :: |category| < k < |name| ==> name[k] != GROUP_SEPARATOR
  {
    var name := WrapGroupName(category, index);
    var d := Decimal(index);
    assert name == category + [GROUP_SEPARATOR] + d;
    forall k | |category| < k < |name| ensures name[k] != GROUP_SEPARATOR {
      assert name[k] == d[k - |category| - 1];
    }
  }

  /** A created group name holds '%' only if its category does. */
  lemma WrapGroupNameNoRoutingSeparator(category: string, index: Int32)
    requires ROUTING_SEPARATOR !in category
    ensures ROUTING_SEPARATOR !in WrapGroupName(category, index)
  {
    var name := WrapGroupName(category, index);
    var d := Decimal(index);
    assert name == category + [GROUP_SEPARATOR] + d;
    forall k | 0 <= k < |name| ensures name[k] != ROUTING_SEPARATOR {
      if k > |category| { assert name[k] == d[k - |category| - 1]; }
    }
  }

  /** How many times `for (int i = 0; i < n; ++i)` runs. */
  function Count(n: Int32): (r: nat)
    ensures r <= INT_MAX
  {
    if n > 0 then n else 0
  }

  /** The holder `start()` builds for shard `index` of `p`, whose group the engine started as node `node`. */
  function ShardHolder(p: Processor, index: Int32, node: nat, peer: PeerId, conf: Configuration): Holder
  {
    var identity := WrapGroupName(p.category, index);
    var fsm := StateMachine(p, identity);
    Holder(GroupService(identity, peer, fsm, conf, 0), fsm, NodeId(node))
  }

  /** The holders the inner loop of `start()` builds for `p`: shard `t` of `0..count-1` on node `base + t`. */
  function ShardHolders(p: Processor, count: nat, base: nat, peer: PeerId, conf: Configuration): (r: seq<Holder>)
    requires count <= INT_MAX
    ensures |r| == count
  {
    seq(count, t requires 0 <= t < count => ShardHolder(p, t, base + t, peer, conf))
  }

  /** One more pass of the inner loop appends the next shard's holder. */
  lemma ShardHoldersSnoc(p: Processor, count: nat, base: nat, peer: PeerId, conf: Configuration)
    requires count < INT_MAX
    ensures ShardHolders(p, count + 1, base, peer, conf)
         == ShardHolders(p, count, base, peer, conf) + [ShardHolder(p, count, base + count, peer, conf)]
  {
    var longer := ShardHolders(p, count + 1, base, peer, conf);
    var shorter := ShardHolders(p, count, base, peer, conf);
    assert forall t :: 0 <= t < count ==> longer[t] == shorter[t];
  }

  /**
   * Every holder `start()` builds, in creation order, when it visits the
   * processors in `order`, creates `n` shards for each, and the engine
   * numbers the started nodes from `base`.
   */
  function CreatedHolders(order: seq<Processor>, n: Int32, base: nat, peer: PeerId, conf: Configuration): seq<Holder>
  {
    if |order| == 0 then []
    else
      var m := |order| - 1;
      var prefix := CreatedHolders(order[..m], n, base, peer, conf);
      prefix + ShardHolders(order[m], Count(n), base + |prefix|, peer, conf)
  }

  /** The services handed to the engine, in order. */
  function ServicesOf(hs: seq<Holder>): seq<GroupService>
  {
    seq(|hs|, t requires 0 <= t < |hs| => hs[t].service)
  }

  /** The route table after each holder's group identity is published with its configuration. */
  function PublishRoutes(rt: map<string, Configuration>, hs: seq<Holder>): map<string, Configuration>
  {
    if |hs| == 0 then rt
    else
      var h := hs[|hs| - 1];
      PublishRoutes(rt, hs[..|hs| - 1])[h.service.groupId := h.service.initialConf]
  }

  /** The group identities of the given holders. */
  function GroupIds(hs: seq<Holder>): set<string>
  {
    set t | 0 <= t < |hs| :: hs[t].service.groupId
  }

  /**
   * The registry after `hs` has been added to the list of `p`'s category:
   * only a list the registry already holds grows, since a fresh list is
   * never stored.
   */
  function AddShards(g: map<string, seq<Holder>>, p: Processor, hs: seq<Holder>): map<string, seq<Holder>>
  {
    if p.category in g then g[p.category := g[p.category] + hs] else g
  }

  /** The registry after `start()` has visited the processors in `order`. */
  function RegistryAfter(m: map<string, seq<Holder>>, order: seq<Processor>, n: Int32, base: nat, peer: PeerId, conf: Configuration): map<string, seq<Holder>>
  {
    if |order| == 0 then m
    else
      var k := |order| - 1;
      var prior := CreatedHolders(order[..k], n, base, peer, conf);
      AddShards(RegistryAfter(m, order[..k], n, base, peer, conf), order[k], ShardHolders(order[k], Count(n), base + |prior|, peer, conf))
  }

  /** What `start()` changes: the services handed to the engine, the route table and the registry. */
  datatype Boot = Boot(started: seq<GroupService>, routes: map<string, Configuration>, registry: map<string, seq<Holder>>)

  /**
   * One pass of the outer loop of `start()`: the shards of `p` are started
   * on the next free nodes, published, and added to the registry.
   */
  function AfterProcessor(b: Boot, p: Processor, n: Int32, peer: PeerId, conf: Configuration): Boot
  {
    var block := ShardHolders(p, Count(n), |b.started|, peer, conf);
    Boot(b.started + ServicesOf(block), PublishRoutes(b.routes, block), AddShards(b.registry, p, block))
  }

  /** The whole of `start()` when it visits the processors in `order`. */
  function AfterProcessors(b: Boot, order: seq<Processor>, n: Int32, peer: PeerId, conf: Configuration): Boot
  {
    if |order| == 0 then b
    else AfterProcessor(AfterProcessors(b, order[..|order| - 1], n, peer, conf), order[|order| - 1], n, peer, conf)
  }

  /** The services and routes of one more holder. */
  lemma ServicesSnoc(rt: map<string, Configuration>, hs: seq<Holder>, h: Holder)
    ensures ServicesOf(hs + [h]) == ServicesOf(hs) + [h.service]
    ensures PublishRoutes(rt, hs + [h]) == PublishRoutes(rt, hs)[h.service.groupId := h.service.initialConf]
  {
    assert (hs + [h])[..|hs|] == hs;
    assert forall t :: 0 <= t < |hs| ==> ServicesOf(hs + [h])[t] == ServicesOf(hs)[t];
  }

  /** The services and routes of two runs of holders, one after the other. */
  lemma {:induction false} ServicesAppend(rt: map<string, Configuration>, hs: seq<Holder>, more: seq<Holder>)
    ensures ServicesOf(hs + more) == ServicesOf(hs) + ServicesOf(more)
    ensures PublishRoutes(rt, hs + more) == PublishRoutes(PublishRoutes(rt, hs), more)
  {
    assert forall t :: 0 <= t < |hs + more| ==> ServicesOf(hs + more)[t] == (ServicesOf(hs) + ServicesOf(more))[t];
    if |more| == 0 {
      assert hs + more == hs;
    } else {
      var init := more[..|more| - 1];
      var h := more[|more| - 1];
      assert more == init + [h];
      assert hs + more == (hs + init) + [h];
      ServicesAppend(rt, hs, init);
      ServicesSnoc(rt, hs + init, h);
      ServicesSnoc(PublishRoutes(rt, hs), init, h);
    }
  }

  /**
   * `start()` hands the engine the services of every created holder, in
   * creation order, publishes every one of them, and grows the registry as
   * `RegistryAfter` says.
   */
  lemma {:induction false} AfterProcessorsCreated(b: Boot, order: seq<Processor>, n: Int32, peer: PeerId, conf: Configuration)
    ensures var created := CreatedHolders(order, n, |b.started|, peer, conf);
      AfterProcessors(b, order, n, peer, conf)
        == Boot(b.started + ServicesOf(created), PublishRoutes(b.routes, created), RegistryAfter(b.registry, order, n, |b.started|, peer, conf))
  {
    if |order| > 0 {
      var k := |order| - 1;
      var base := |b.started|;
      var prior := CreatedHolders(order[..k], n, base, peer, conf);
      var block := ShardHolders(order[k], Count(n), base + |prior|, peer, conf);
      AfterProcessorsCreated(b, order[..k], n, peer, conf);
      ServicesAppend(b.routes, prior, block);
      SeqAssoc(b.started, ServicesOf(prior), ServicesOf(block));
    }
  }

  /**
   * Associativity of concatenation as a fact of its own: asserted inline it
   * makes the proof of `AfterProcessorsCreated` several times as costly.
   */
  lemma SeqAssoc<T>(a: seq<T>, b: seq<T>, c: seq<T>)
    ensures (a + b) + c == a + (b + c)
  {
  }

  /** Adding one more holder to a category's list. */
  lemma AddShardsSnoc(g: map<string, seq<Holder>>, p: Processor, hs: seq<Holder>, h: Holder)
    ensures p.category in g ==> AddShards(g, p, hs + [h]) == AddShards(g, p, hs)[p.category := AddShards(g, p, hs)[p.category] + [h]]
    ensures p.category !in g ==> AddShards(g, p, hs + [h]) == g
  {
    if p.category in g {
      assert g[p.category] + (hs + [h]) == (g[p.category] + hs) + [h];
    }
  }

  /** `start()` creates exactly `n` holders per processor visited. */
  lemma {:induction false} CreatedHoldersLength(order: seq<Processor>, n: Int32, base: nat, peer: PeerId, conf: Configuration)
    ensures |CreatedHolders(order, n, base, peer, conf)| == |order| * Count(n)
  {
    if |order| > 0 {
      var m := |order| - 1;
      CreatedHoldersLength(order[..m], n, base, peer, conf);
      assert (m + 1) * Count(n) == m * Count(n) + Count(n);
    }
  }

  /** Shard `t < n` of block `j < m` lies inside the first `m` blocks of `n`. */
  lemma IndexInBlocks(j: nat, m: nat, n: nat, t: nat)
    requires j < m && t < n
    ensures j * n + t < m * n
  {
    assert (j + 1) * n == j * n + n;
    assert (j + 1) * n <= m * n;
  }

  /**
   * The `t`-th holder created for the `j`-th processor visited comes after
   * the `j * n` holders of the processors before it: it is bound to that
   * processor and to the identity `category-t`, and runs on the node
   * numbered by its position.
   */
  lemma {:induction false} CreatedHoldersAt(order: seq<Processor>, n: Int32, base: nat, peer: PeerId, conf: Configuration, j: nat, t: nat)
    requires j < |order| && t < Count(n)
    ensures var off := |CreatedHolders(order[..j], n, base, peer, conf)|;
      && off + t < |CreatedHolders(order, n, base, peer, conf)|
      && CreatedHolders(order, n, base, peer, conf)[off + t] == ShardHolder(order[j], t, base + off + t, peer, conf)
  {
    var m := |order| - 1;
    var prefix := CreatedHolders(order[..m], n, base, peer, conf);
    var last := ShardHolders(order[m], Count(n), base + |prefix|, peer, conf);
    assert CreatedHolders(order, n, base, peer, conf) == prefix + last;
    if j < m {
      assert order[..m][..j] == order[..j];
      CreatedHoldersAt(order[..m], n, base, peer, conf, j, t);
    } else {
      assert order[..j] == order[..m];
      assert |last| == Count(n);
      assert (prefix + last)[|prefix| + t] == last[t];
    }
  }

  /**
   * The holder at position `x` of the created list runs on node `base + x`,
   * so nodes never repeat, and its group starts from the initial configuration.
   */
  lemma {:induction false} CreatedHolderNodes(order: seq<Processor>, n: Int32, base: nat, peer: PeerId, conf: Configuration, x: nat)
    requires x < |CreatedHolders(order, n, base, peer, conf)|
    ensures CreatedHolders(order, n, base, peer, conf)[x].node == NodeId(base + x)
    ensures CreatedHolders(order, n, base, peer, conf)[x].service.initialConf == conf
  {
    var m := |order| - 1;
    var prefix := CreatedHolders(order[..m], n, base, peer, conf);
    var last := ShardHolders(order[m], Count(n), base + |prefix|, peer, conf);
    assert CreatedHolders(order, n, base, peer, conf) == prefix + last;
    if x < |prefix| {
      assert (prefix + last)[x] == prefix[x];
      CreatedHolderNodes(order[..m], n, base, peer, conf, x);
    } else {
      var t := x - |prefix|;
      assert (prefix + last)[x] == last[t];
      assert last[t] == ShardHolder(order[m], t, base + |prefix| + t, peer, conf);
    }
  }

  /** `start()` never adds a category to the registry and never removes one. */
  lemma {:induction false} RegistryAfterKeys(m: map<string, seq<Holder>>, order: seq<Processor>, n: Int32, base: nat, peer: PeerId, conf: Configuration)
    ensures RegistryAfter(m, order, n, base, peer, conf).Keys == m.Keys
  {
    if |order| > 0 {
      RegistryAfterKeys(m, order[..|order| - 1], n, base, peer, conf);
    }
  }

  /** A category no visited processor has keeps its list as it was. */
  lemma {:induction false} RegistryAfterUntouched(m: map<string, seq<Holder>>, order: seq<Processor>, n: Int32, base: nat, peer: PeerId, conf: Configuration, c: string)
    requires forall t :: 0 <= t < |order| ==> order[t].category != c
    requires c in m
    ensures var r := RegistryAfter(m, order, n, base, peer, conf);
      c in r && r[c] == m[c]
  {
    RegistryAfterKeys(m, order, n, base, peer, conf);
    if |order| > 0 {
      var k := |order| - 1;
      assert forall t :: 0 <= t < k ==> order[..k][t] == order[t];
      RegistryAfterUntouched(m, order[..k], n, base, peer, conf, c);
    }
  }

  /**
   * The list of a category that exactly one visited processor has grows by
   * that processor's shards and by nothing else.
   */
  lemma {:induction false} RegistryAfterAt(m: map<string, seq<Holder>>, order: seq<Processor>, n: Int32, base: nat, peer: PeerId, conf: Configuration, c: string, j: nat)
    requires j < |order| && order[j].category == c
    requires forall t :: 0 <= t < |order| && order[t].category == c ==> t == j
    requires c in m
    ensures var r := RegistryAfter(m, order, n, base, peer, conf);
      c in r && r[c] == m[c] + ShardHolders(order[j], Count(n), base + |CreatedHolders(order[..j], n, base, peer, conf)|, peer, conf)
  {
    var k := |order| - 1;
    RegistryAfterKeys(m, order[..k], n, base, peer, conf);
    assert forall t :: 0 <= t < k ==> order[..k][t] == order[t];
    if j == k {
      RegistryAfterUntouched(m, order[..k], n, base, peer, conf, c);
    } else {
      assert order[..k][..j] == order[..j];
      RegistryAfterAt(m, order[..k], n, base, peer, conf, c, j);
    }
  }


  /**
   * The published route table holds every created identity with its
   * group's configuration and keeps every other entry as it was.
   */
  lemma {:induction false} PublishRoutesAt(rt: map<string, Configuration>, hs: seq<Holder>)
    requires forall a, b :: 0 <= a < |hs| && 0 <= b < |hs| && hs[a].service.groupId == hs[b].service.groupId
               ==> hs[a].service.initialConf == hs[b].service.initialConf
    ensures PublishRoutes(rt, hs).Keys == rt.Keys + GroupIds(hs)
    ensures forall t :: 0 <= t < |hs| ==> PublishRoutes(rt, hs)[hs[t].service.groupId] == hs[t].service.initialConf
    ensures forall id :: id in rt && id !in GroupIds(hs) ==> PublishRoutes(rt, hs)[id] == rt[id]
  {
    if |hs| > 0 {
      var init := hs[..|hs| - 1];
      var h := hs[|hs| - 1];
      assert hs == init + [h];
      assert forall t :: 0 <= t < |init| ==> init[t] == hs[t];
      PublishRoutesAt(rt, init);
      GroupIdsSnoc(init, h);
      ServicesSnoc(rt, init, h);
    }
  }

  /** The identities of one more holder. */
  lemma GroupIdsSnoc(hs: seq<Holder>, h: Holder)
    ensures GroupIds(hs + [h]) == GroupIds(hs) + {h.service.groupId}
  {
    var both := hs + [h];
    assert both[|hs|] == h;
    forall id | id in GroupIds(both) ensures id in GroupIds(hs) + {h.service.groupId} {
      var t :| 0 <= t < |both| && both[t].service.groupId == id;
      if t < |hs| { assert both[t] == hs[t]; }
    }
    forall id | id in GroupIds(hs) ensures id in GroupIds(both) {
      var t :| 0 <= t < |hs| && hs[t].service.groupId == id;
      assert both[t] == hs[t];
    }
  }


  /**
   * What `start()` does to a category's list: if exactly one processor has
   * category `c` and the registry already has a list for `c`, that list
   * grows by exactly `n` holders, the `k`-th bound to that processor and to
   * the identity `c-k`; if the registry has no list for `c`, it still has
   * none.
   */
  lemma RegistryAfterStart(m: map<string, seq<Holder>>, order: seq<Processor>, n: Int32, base: nat, peer: PeerId, conf: Configuration, c: string, j: nat)
    requires j < |order| && order[j].category == c
    requires forall t :: 0 <= t < |order| && order[t].category == c ==> t == j
    ensures var r := RegistryAfter(m, order, n, base, peer, conf);
      && (c in r <==> c in m)
      && (c in m ==>
            && |r[c]| == |m[c]| + Count(n)
            && r[c][..|m[c]|] == m[c]
            && forall k :: 0 <= k < Count(n) ==>
                 r[c][|m[c]| + k].machine == StateMachine(order[j], WrapGroupName(c, k)))
  {
    RegistryAfterKeys(m, order, n, base, peer, conf);
    var off := base + |CreatedHolders(order[..j], n, base, peer, conf)|;
    var shards := ShardHolders(order[j], Count(n), off, peer, conf);
    if c in m {
      RegistryAfterAt(m, order, n, base, peer, conf, c, j);
      var r := RegistryAfter(m, order, n, base, peer, conf);
      assert r[c] == m[c] + shards;
      forall k | 0 <= k < Count(n)
        ensures r[c][|m[c]| + k].machine == StateMachine(order[j], WrapGroupName(c, k))
      {
        assert r[c][|m[c]| + k] == shards[k];
        assert shards[k] == ShardHolder(order[j], k, off + k, peer, conf);
      }
    }
  }

  /**
   * After `start()` the route table holds the identity of every created
   * holder, mapped to the initial configuration, and keeps every other entry
   * as it was.
   */
  lemma StartRoutes(b: Boot, order: seq<Processor>, n: Int32, peer: PeerId, conf: Configuration)
    ensures var created := CreatedHolders(order, n, |b.started|, peer, conf);
      var r := AfterProcessors(b, order, n, peer, conf).routes;
      && r.Keys == b.routes.Keys + GroupIds(created)
      && (forall x :: 0 <= x < |created| ==> r[created[x].service.groupId] == conf)
      && (forall id :: id in b.routes && id !in GroupIds(created) ==> r[id] == b.routes[id])
  {
    var created := CreatedHolders(order, n, |b.started|, peer, conf);
    AfterProcessorsCreated(b, order, n, peer, conf);
    forall x | 0 <= x < |created| ensures created[x].service.initialConf == conf {
      CreatedHolderNodes(order, n, |b.started|, peer, conf, x);
    }
    PublishRoutesAt(b.routes, created);
  }

  /**
   * Where `start()` puts shard `t` of the `j`-th processor visited: exactly
   * `n` holders are created per processor, those of the `j` processors
   * before it come first, and this one is that processor's `t`-th.
   */
  lemma CreatedShardPosition(order: seq<Processor>, n: Int32, base: nat, peer: PeerId, conf: Configuration, j: nat, t: nat)
    requires j < |order| && t < Count(n)
    ensures var created := CreatedHolders(order, n, base, peer, conf);
      var x := j * Count(n) + t;
      && |created| == |order| * Count(n)
      && x < |created|
      && created[x] == ShardHolder(order[j], t, base + x, peer, conf)
  {
    CreatedHoldersLength(order, n, base, peer, conf);
    CreatedHoldersLength(order[..j], n, base, peer, conf);
    IndexInBlocks(j, |order|, Count(n), t);
    CreatedHoldersAt(order, n, base, peer, conf, j, t);
  }

  /** The services of the created holders after `pre`, seen from shard `t` of the `j`-th processor visited. */
  lemma CreatedServicesAt(pre: seq<GroupService>, order: seq<Processor>, n: Int32, peer: PeerId, conf: Configuration, j: nat, t: nat)
    requires j < |order| && t < Count(n)
    ensures var started := pre + ServicesOf(CreatedHolders(order, n, |pre|, peer, conf));
      var name := WrapGroupName(order[j].category, t);
      var x := |pre| + j * Count(n) + t;
      && |started| == |pre| + |order| * Count(n)
      && |pre| <= x < |started|
      && started[..|pre|] == pre
      && started[x] == GroupService(name, peer, StateMachine(order[j], name), conf, 0)
  {
    var created := CreatedHolders(order, n, |pre|, peer, conf);
    CreatedShardPosition(order, n, |pre|, peer, conf, j, t);
    var x := j * Count(n) + t;
    assert (pre + ServicesOf(created))[|pre| + x] == ServicesOf(created)[x];
  }

  /** The services `start()` hands the engine, seen from shard `t` of the `j`-th processor visited. */
  lemma StartStartsShard(b: Boot, order: seq<Processor>, n: Int32, peer: PeerId, conf: Configuration, j: nat, t: nat)
    requires j < |order| && t < Count(n)
    ensures var started := AfterProcessors(b, order, n, peer, conf).started;
      var name := WrapGroupName(order[j].category, t);
      var x := |b.started| + j * Count(n) + t;
      && |started| == |b.started| + |order| * Count(n)
      && |b.started| <= x < |started|
      && started[..|b.started|] == b.started
      && started[x] == GroupService(name, peer, StateMachine(order[j], name), conf, 0)
  {
    AfterProcessorsCreated(b, order, n, peer, conf);
    CreatedServicesAt(b.started, order, n, peer, conf, j, t);
  }

  /** Publishing the created holders maps the name of shard `t` of the `j`-th processor to the initial configuration. */
  lemma CreatedRouteAt(rt: map<string, Configuration>, order: seq<Processor>, n: Int32, base: nat, peer: PeerId, conf: Configuration, j: nat, t: nat)
    requires j < |order| && t < Count(n)
    ensures var routes := PublishRoutes(rt, CreatedHolders(order, n, base, peer, conf));
      var name := WrapGroupName(order[j].category, t);
      name in routes && routes[name] == conf
  {
    var created := CreatedHolders(order, n, base, peer, conf);
    forall x | 0 <= x < |created| ensures created[x].service.initialConf == conf {
      CreatedHolderNodes(order, n, base, peer, conf, x);
    }
    PublishRoutesAt(rt, created);
    CreatedShardPosition(order, n, base, peer, conf, j, t);
    var y := j * Count(n) + t;
    assert created[y].service.groupId in GroupIds(created);
  }

  /** The route `start()` publishes for shard `t` of the `j`-th processor visited. */
  lemma StartPublishesShard(b: Boot, order: seq<Processor>, n: Int32, peer: PeerId, conf: Configuration, j: nat, t: nat)
    requires j < |order| && t < Count(n)
    ensures var routes := AfterProcessors(b, order, n, peer, conf).routes;
      var name := WrapGroupName(order[j].category, t);
      name in routes && routes[name] == conf
  {
    AfterProcessorsCreated(b, order, n, peer, conf);
    CreatedRouteAt(b.routes, order, n, |b.started|, peer, conf, j, t);
  }

  /**
   * What `start()` creates for shard `t` of the `j`-th processor visited:
   * the engine is handed `n` services per processor after the ones it
   * already had, this one at position `j * n + t`, named `category-t` and
   * bound to that processor and that name; the route table maps the name to
   * the initial configuration.
   */
  lemma StartCreatesShard(b: Boot, order: seq<Processor>, n: Int32, peer: PeerId, conf: Configuration, j: nat, t: nat)
    requires j < |order| && t < Count(n)
    ensures var r := AfterProcessors(b, order, n, peer, conf);
      var name := WrapGroupName(order[j].category, t);
      var x := |b.started| + j * Count(n) + t;
      && |r.started| == |b.started| + |order| * Count(n)
      && |b.started| <= x < |r.started|
      && r.started[..|b.started|] == b.started
      && r.started[x] == GroupService(name, peer, StateMachine(order[j], name), conf, 0)
      && name in r.routes && r.routes[name] == conf
  {
    StartStartsShard(b, order, n, peer, conf, j, t);
    StartPublishesShard(b, order, n, peer, conf, j, t);
  }

  /**
   * Two processors with the same category both append to its stored list:
   * one shard each turns a list of one holder into a list of three.
   */
  lemma RegistrySharedCategory(h: Holder, peer: PeerId, conf: Configuration)
    ensures var r := RegistryAfter(map["c" := [h]], [Processor(0, "c"), Processor(1, "c")], 1, 0, peer, conf);
      "c" in r && |r["c"]| == 3
  {
    var m := map["c" := [h]];
    var order := [Processor(0, "c"), Processor(1, "c")];
    assert order[..1] == [Processor(0, "c")] && order[..1][..0] == [];
    var none: seq<Processor> := [];
    assert RegistryAfter(m, none, 1, 0, peer, conf) == m && CreatedHolders(none, 1, 0, peer, conf) == [];
    var first := ShardHolders(order[0], Count(1), 0, peer, conf);
    var once := RegistryAfter(m, order[..1], 1, 0, peer, conf);
    assert once == AddShards(m, order[0], first);
    assert once["c"] == [h] + first;
    var prior := CreatedHolders(order[..1], 1, 0, peer, conf);
    assert RegistryAfter(m, order, 1, 0, peer, conf)
        == AddShards(once, order[1], ShardHolders(order[1], Count(1), |prior|, peer, conf));
  }

  /**
   * The order an iterator over the processor set visits its elements in:
   * each element exactly once, in an order the model leaves open.
   */
  method IterationOrder(s: set<Processor>) returns (order: seq<Processor>)
    ensures |order| == |s| && forall q :: q in order <==> q in s
    ensures forall a, b :: 0 <= a < b < |order| ==> order[a] != order[b]
  {
    var remaining := s;
    order := [];
    while remaining != {}
      invariant remaining <= s
      invariant |order| + |remaining| == |s|
      invariant forall q :: q in s ==> q in remaining || q in order
      invariant forall t :: 0 <= t < |order| ==> order[t] in s && order[t] !in remaining
      invariant forall a, b :: 0 <= a < b < |order| ==> order[a] != order[b]
      decreases remaining
    {
      var q :| q in remaining;
      order := order + [q];
      remaining := remaining - {q};
    }
  }

  /** A stand-in for the caller's `FailoverClosure`: it keeps what was set on it and every status it was run with. */
  class FailoverClosure {
    var throwable: Option<Throwable>
    var response: Option<Response>
    var runs: seq<Status>

    constructor ()
      ensures throwable == None && response == None && runs == []
    {
      throwable, response, runs := None, None, [];
    }

    method SetThrowable(t: Option<Throwable>)
      modifies this
      ensures throwable == t && response == old(response) && runs == old(runs)
    {
      throwable := t;
    }

    method SetResponse(r: Option<Response>)
      modifies this
      ensures response == r && throwable == old(throwable) && runs == old(runs)
    {
      response := r;
    }

    method Run(status: Status)
      modifies this
      ensures runs == old(runs) + [status]
      ensures throwable == old(throwable) && response == old(response)
    {
      runs := runs + [status];
    }
  }

  /** The `MqttClosure` `applyOperation` builds: the message and the callback that forwards to the caller's closure. */
  class MqttClosure {
    const data: Message
    const target: FailoverClosure

    constructor (data: Message, target: FailoverClosure)
      ensures this.data == data && this.target == target
    {
      this.data := data;
      this.target := target;
    }

    /** One firing: the caller's closure receives this status's throwable and response and runs once. */
    method Run(status: Status)
      modifies target
      ensures target.throwable == status.throwable && target.response == status.response
      ensures target.runs == old(target.runs) + [status]
    {
      target.SetThrowable(status.throwable);
      target.SetResponse(status.response);
      target.Run(status);
    }
  }

  /** The consensus engine, opaque: it records the groups it starts and the tasks handed to its nodes. */
  class Engine {
    var started: seq<GroupService>
    var applied: seq<Submission>

    constructor ()
      ensures started == [] && applied == []
    {
      started, applied := [], [];
    }

    /** `RaftGroupService.start`: the group is started and a node not handed out before is returned. */
    method StartGroup(service: GroupService) returns (node: NodeId)
      modifies this
      ensures started == old(started) + [service] && applied == old(applied)
      ensures node == NodeId(|old(started)|)
    {
      node := NodeId(|started|);
      started := started + [service];
    }

    /** `Node.apply`: the task is queued on the node. */
    method Apply(node: NodeId, task: Task)
      modifies this
      ensures applied == old(applied) + [Submission(node, task)] && started == old(started)
    {
      applied := applied + [Submission(node, task)];
    }
  }

  class MqttRaftServer {
    /** category -> the holders of its shards, in shard order. */
    var multiRaftGroup: map<string, seq<Holder>>
    var stateProcessors: set<Processor>
    /** The route table the server publishes group configurations to. */
    var routeTable: map<string, Configuration>
    const localPeerId: PeerId
    const initConf: Configuration
    /** The configured number of groups per processor. */
    const raftGroupNum: Int32
    const engine: Engine

    constructor (localPeerId: PeerId, initConf: Configuration, raftGroupNum: Int32, engine: Engine, routeTable: map<string, Configuration>)
      ensures this.localPeerId == localPeerId && this.initConf == initConf
      ensures this.raftGroupNum == raftGroupNum && this.engine == engine
      ensures this.routeTable == routeTable
      ensures multiRaftGroup == map[] && stateProcessors == {}
    {
      this.localPeerId := localPeerId;
      this.initConf := initConf;
      this.raftGroupNum := raftGroupNum;
      this.engine := engine;
      this.routeTable := routeTable;
      multiRaftGroup := map[];
      stateProcessors := {};
    }

    /** Adds the processor to the set; a processor already registered stays there once. */
    method RegisterStateProcessor(processor: Processor)
      modifies this`stateProcessors
      ensures stateProcessors == old(stateProcessors) + {processor}
      ensures processor in old(stateProcessors) ==> stateProcessors == old(stateProcessors)
    {
      stateProcessors := stateProcessors + {processor};
    }

    /**
     * Creates `raftGroupNum` groups for every registered processor. `order`
     * is the order in which the processor set happened to be visited.
     */
    method Start() returns (ghost order: seq<Processor>)
      modifies this`multiRaftGroup, this`routeTable, engine
      ensures |order| == |stateProcessors| && forall q :: q in order <==> q in stateProcessors
      ensures forall a, b :: 0 <= a < b < |order| ==> order[a] != order[b]
      ensures Boot(engine.started, routeTable, multiRaftGroup)
           == AfterProcessors(Boot(old(engine.started), old(routeTable), old(multiRaftGroup)), order, raftGroupNum, localPeerId, initConf)
      ensures engine.applied == old(engine.applied)
    {
      ghost var b0 := Boot(engine.started, routeTable, multiRaftGroup);
      var visit := IterationOrder(stateProcessors);
      order := visit;
      for k := 0 to |visit|
        invariant Boot(engine.started, routeTable, multiRaftGroup) == AfterProcessors(b0, visit[..k], raftGroupNum, localPeerId, initConf)
        invariant engine.applied == old(engine.applied)
      {
        StartShards(visit[k]);
        assert visit[..k + 1][..k] == visit[..k];
      }
      assert visit[..|visit|] == visit;
    }

    /**
     * The inner loop of `start()` for one processor: `raftGroupNum` groups
     * named after its category are started, each published in the route
     * table and, only when the registry already holds a list for the
     * category, appended to that list.
     */
    method StartShards(processor: Processor)
      modifies this`multiRaftGroup, this`routeTable, engine
      ensures Boot(engine.started, routeTable, multiRaftGroup)
           == AfterProcessor(Boot(old(engine.started), old(routeTable), old(multiRaftGroup)), processor, raftGroupNum, localPeerId, initConf)
      ensures engine.applied == old(engine.applied)
    {
      var n := raftGroupNum;
      var category := processor.category;
      ghost var first := |engine.started|;
      ghost var block: seq<Holder> := [];
      var present := category in multiRaftGroup;
      var raftGroupHolderList: seq<Holder> := if present then multiRaftGroup[category] else [];
      var i: Int32 := 0;
      assert AddShards(multiRaftGroup, processor, block) == multiRaftGroup by {
        if present { assert multiRaftGroup[category] + [] == multiRaftGroup[category]; }
      }
      while i < n
        invariant 0 <= i <= Count(n)
        invariant block == ShardHolders(processor, i, first, localPeerId, initConf)
        invariant |engine.started| == first + i
        invariant engine.started == old(engine.started) + ServicesOf(block)
        invariant routeTable == PublishRoutes(old(routeTable), block)
        invariant multiRaftGroup == AddShards(old(multiRaftGroup), processor, block)
        invariant present <==> category in multiRaftGroup
        invariant present ==> raftGroupHolderList == multiRaftGroup[category]
        invariant engine.applied == old(engine.applied)
      {
        var groupIdentity := WrapGroupName(category, i);
        var groupConfiguration := initConf;
        var groupMqttStateMachine := StateMachine(processor, groupIdentity);
        var raftGroupService := GroupService(groupIdentity, localPeerId, groupMqttStateMachine, groupConfiguration, 0);
        var node := engine.StartGroup(raftGroupService);
        routeTable := routeTable[groupIdentity := groupConfiguration];
        var holder := Holder(raftGroupService, groupMqttStateMachine, node);
        raftGroupHolderList := raftGroupHolderList + [holder];
        if present {
          multiRaftGroup := multiRaftGroup[category := raftGroupHolderList];
        }
        assert holder == ShardHolder(processor, i, first + i, localPeerId, initConf);
        ShardHoldersSnoc(processor, i, first, localPeerId, initConf);
        ServicesSnoc(old(routeTable), block, holder);
        AddShardsSnoc(old(multiRaftGroup), processor, block, holder);
        assert old(engine.started) + ServicesOf(block + [holder]) == (old(engine.started) + ServicesOf(block)) + [raftGroupService];
        block := block + [holder];
        i := i + 1;
      }
    }

    /** `init()`'s last two steps: register the counter processor, then start every group. */
    method Init(counter: Processor) returns (ghost order: seq<Processor>)
      modifies this`stateProcessors, this`multiRaftGroup, this`routeTable, engine
      ensures stateProcessors == old(stateProcessors) + {counter}
      ensures |order| == |stateProcessors| && forall q :: q in order <==> q in stateProcessors
      ensures var created := CreatedHolders(order, raftGroupNum, |old(engine.started)|, localPeerId, initConf);
        && engine.started == old(engine.started) + ServicesOf(created)
        && routeTable == PublishRoutes(old(routeTable), created)
      ensures multiRaftGroup == RegistryAfter(old(multiRaftGroup), order, raftGroupNum, |old(engine.started)|, localPeerId, initConf)
      ensures old(multiRaftGroup) == map[] ==> multiRaftGroup == map[]
      ensures engine.applied == old(engine.applied)
    {
      RegisterStateProcessor(counter);
      order := Start();
      AfterProcessorsCreated(Boot(old(engine.started), old(routeTable), old(multiRaftGroup)), order, raftGroupNum, localPeerId, initConf);
      RegistryAfterKeys(old(multiRaftGroup), order, raftGroupNum, |old(engine.started)|, localPeerId, initConf);
    }

    /**
     * Splits the id on '%' and, on exactly two parts, returns the holder at
     * the parsed index of the category's list.
     */
    function GetRaftGroupHolder(groupId: string): (r: Result<Holder, LookupError>)
      reads this
      ensures |Split(groupId, ROUTING_SEPARATOR)| != 2 ==> r == Failure(MalformedGroupId)
      ensures r.Success? ==> exists c :: c in multiRaftGroup && r.value in multiRaftGroup[c]
    {
      var groupParam := Split(groupId, ROUTING_SEPARATOR);
      if |groupParam| != 2 then Failure(MalformedGroupId)
      else
        match ParseInt(groupParam[1])
        case None => Failure(NumberFormat)
        case Some(index) =>
          if groupParam[0] !in multiRaftGroup then Failure(NullPointer)
          else if 0 <= index < |multiRaftGroup[groupParam[0]]| then Success(multiRaftGroup[groupParam[0]][index])
          else Failure(IndexOutOfBounds)
    }

    /**
     * Submits exactly one task to `node`, carrying the message's bytes and a
     * fresh `MqttClosure` that forwards to `closure`.
     */
    method ApplyOperation(node: NodeId, data: Message, closure: FailoverClosure)
      modifies engine
      ensures |engine.applied| == |old(engine.applied)| + 1
      ensures engine.applied[..|old(engine.applied)|] == old(engine.applied)
      ensures var s := engine.applied[|old(engine.applied)|];
        && s.node == node && s.task.data == data.ToByteArray()
        && fresh(s.task.done) && s.task.done.data == data && s.task.done.target == closure
      ensures engine.started == old(engine.started)
    {
      var mqttClosure := new MqttClosure(data, closure);
      var task := Task(data.ToByteArray(), mqttClosure);
      engine.Apply(node, task);
    }
  }

  /**
   * A lookup succeeds only on an id of the form `category%index` followed by
   * any number of '%', for a registered category and an index inside its
   * list, and returns that list's holder at that index.
   */
  lemma LookupSuccessShape(server: MqttRaftServer, groupId: string)
    requires server.GetRaftGroupHolder(groupId).Success?
    ensures var p := Split(groupId, ROUTING_SEPARATOR);
      && |p| == 2 && ROUTING_SEPARATOR !in p[0] && ROUTING_SEPARATOR !in p[1] && p[1] != ""
      && (exists k: nat :: groupId == p[0] + [ROUTING_SEPARATOR] + p[1] + Reps(ROUTING_SEPARATOR, k))
      && p[0] in server.multiRaftGroup && ParseInt(p[1]).Some?
      && server.GetRaftGroupHolder(groupId).value == server.multiRaftGroup[p[0]][ParseInt(p[1]).value]
  {
    SplitTwoShape(groupId, ROUTING_SEPARATOR);
  }

  /**
   * Conversely, every id of that shape is looked up at its category and its
   * parsed index, with Java's exception for each way that fails.
   */
  lemma LookupOfShape(server: MqttRaftServer, category: string, index: string, k: nat)
    requires ROUTING_SEPARATOR !in category && ROUTING_SEPARATOR !in index && index != ""
    ensures var m := server.multiRaftGroup;
      var r := server.GetRaftGroupHolder(category + [ROUTING_SEPARATOR] + index + Reps(ROUTING_SEPARATOR, k));
      && (ParseInt(index).None? ==> r == Failure(NumberFormat))
      && (ParseInt(index).Some? && category !in m ==> r == Failure(NullPointer))
      && (ParseInt(index).Some? && category in m ==>
            r == if 0 <= ParseInt(index).value < |m[category]| then Success(m[category][ParseInt(index).value])
                 else Failure(IndexOutOfBounds))
  {
    SplitOfShape(category, index, ROUTING_SEPARATOR, k);
  }

  /** `category%i`, with `i` printed in decimal, finds the `i`-th holder of a registered category. */
  lemma LookupShardIndex(server: MqttRaftServer, category: string, index: Int32)
    requires ROUTING_SEPARATOR !in category
    requires category in server.multiRaftGroup && 0 <= index < |server.multiRaftGroup[category]|
    ensures server.GetRaftGroupHolder(category + [ROUTING_SEPARATOR] + Decimal(index))
         == Success(server.multiRaftGroup[category][index])
  {
    var d := Decimal(index);
    assert ROUTING_SEPARATOR !in d;
    ParseDecimal(index);
    assert category + [ROUTING_SEPARATOR] + d == category + [ROUTING_SEPARATOR] + d + Reps(ROUTING_SEPARATOR, 0);
    LookupOfShape(server, category, d, 0);
  }

  /** For a category without '%', a name `start()` creates never resolves: it has no '%', so it splits into one part. */
  lemma LookupCreatedNameFails(server: MqttRaftServer, category: string, index: Int32)
    requires ROUTING_SEPARATOR !in category
    ensures server.GetRaftGroupHolder(WrapGroupName(category, index)) == Failure(MalformedGroupId)
  {
    WrapGroupNameNoRoutingSeparator(category, index);
    SplitOfPlain(WrapGroupName(category, index), ROUTING_SEPARATOR);
  }

  /**
   * For a category that holds '%' a created name can resolve, to a holder
   * of another category: shard 0 of `x%` is named `x%-0`, which splits into
   * `x` and `-0`, and `-0` parses to 0.
   */
  lemma LookupCreatedNameWithRoutingSeparator(server: MqttRaftServer)
    requires "x" in server.multiRaftGroup && |server.multiRaftGroup["x"]| > 0
    ensures server.GetRaftGroupHolder(WrapGroupName("x%", 0)) == Success(server.multiRaftGroup["x"][0])
  {
    assert Decimal(0) == "0";
    assert WrapGroupName("x%", 0) == "x" + [ROUTING_SEPARATOR] + "-0" + Reps(ROUTING_SEPARATOR, 0);
    ParseIntAccepts();
    LookupOfShape(server, "x", "-0", 0);
  }

  /** A trailing '%' with nothing after it is dropped by the split, so `category%` is malformed. */
  lemma LookupTrailingSeparatorFails(server: MqttRaftServer, category: string)
    requires ROUTING_SEPARATOR !in category
    ensures server.GetRaftGroupHolder(category + [ROUTING_SEPARATOR]) == Failure(MalformedGroupId)
  {
    SplitTrailingSeparator(category, ROUTING_SEPARATOR);
  }

  /** With nothing registered, as after `init()`, no id resolves. */
  lemma EmptyRegistryLookupFails(server: MqttRaftServer, groupId: string)
    requires server.multiRaftGroup == map[]
    ensures server.GetRaftGroupHolder(groupId).Failure?
  {
  }
}
