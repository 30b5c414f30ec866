# Multi-raft group bookkeeping and MQTT 5 PUBREL handling

This project models two parts of RocketMQ-MQTT in Dafny:

- How the metadata server keeps its consensus groups (`MqttRaftServer`).
- How the connection server answers an MQTT 5 PUBREL (`Mqtt5PubRelHandler`).

**The raft server.** `RaftServer.MqttRaftServer` is a class with the server's state as fields:

- `stateProcessors`, the set of registered state processors;
- `multiRaftGroup`, a map from group category to the list of its holders;
- `routeTable`, the route table group configurations are published to.

The consensus engine is opaque. `RaftServer.Engine` records every group service it was asked to start and hands back node `NodeId(k)` for the `k`-th one. It records every task handed to a node.

`start()` is written as the source writes it, as two nested loops:

- `Start` is the outer loop over the processor set, in the order `IterationOrder` enumerates it.
- `StartShards` is the inner loop over the shard indices `0 .. raftGroupNum - 1`.

The methods are proved against a fold over the processors:

- `AfterProcessor` is one processor's pass.
- `AfterProcessors` folds it over all processors.
- A set of lemmas says what that fold creates. Every processor gets exactly `Count(raftGroupNum)` groups, which is `raftGroupNum` when it is positive and zero otherwise. Shard `t` is named `category-t` and bound to its processor and its name. It is started on a node no other group has, and published with the initial configuration. The registry changes as described next.

Two behaviours of the source are kept as written:

- **The fresh list is never stored.** A category without a list gets a new, empty `ArrayList`. The list is filled and then dropped. So a category that had no list before `start()` has none afterwards (`RegistryAfterStart`, `RegistryAfterKeys`). For a category that exactly one registered processor has, a list that existed grows by exactly `Count(raftGroupNum)` holders. Two processors with the same category are allowed, because the set holds processors by identity, and then both append to the one stored list (`RegistrySharedCategory`).
- **Creation and lookup use different separators.** Group names are built with `-`, but `getRaftGroupHolder` splits its argument on `%`. For a category without '%', a created name therefore never resolves (`LookupCreatedNameFails`), while `category%i` does (`LookupShardIndex`). A category that holds '%' can make a created name resolve to another category's holder: shard 0 of `x%` is `x%-0`, which finds holder 0 of `x` (`LookupCreatedNameWithRoutingSeparator`).

Because `init()` starts from an empty registry, nothing is registered after it, and every lookup fails (`MqttRaftServer.Init`, `EmptyRegistryLookupFails`).

`getRaftGroupHolder` is a function returning a `Result`, with one error per Java exception it can end in. The checks run in Java's order:

- `split` must give exactly two parts. Trailing empty parts are dropped, so `cat%` fails.
- `parseInt` is evaluated before the null check on the category's list.
- `List.get` throws on an index outside the list.

`JavaLang` states exactly the library behaviour this relies on: `Integer.toString`, `Integer.parseInt` and `String.split` with a one-character separator.

`applyOperation` submits exactly one task carrying the message's bytes. Its closure is a new `MqttClosure`. Each firing of that closure copies the status's throwable and response into the caller's closure and runs it once.

**The PUBREL handler.** The handler works on three objects:

- the in-flight cache, a set of (cache type, channel id, packet id) triples;
- the channel, the sequence of PUBCOMP packets written to it;
- the session's receive-quota refill, a counter.

Here is what the handler does:

- If `(PUB, channel, id)` is in flight, it removes the entry and answers PUBCOMP with Success (0x00).
- Otherwise it leaves the cache alone and answers with Packet Identifier not found (0x92).
- On both paths it refills once.

The point of this exchange is the receiver side of QoS 2 delivery in OASIS MQTT Version 5.0: section 3.6 (PUBREL), section 3.7.2.1 (PUBCOMP reason codes) and section 4.3.3. Handling the same PUBREL twice leaves the cache as one handling did and is answered 0x92 (`ReleaseTwice`).

Files:

- `wrappers.dfy` holds `Option` and `Result`.
- `java_lang.dfy` holds the Java library pieces.
- `raft_server.dfy` holds the raft server.
- `pubrel_handler.dfy` holds the PUBREL handler.

## Model

Source paths are abbreviated by their file names in the text above. In the table they are given in full.

| member | source | states |
|---|---|---|
| JavaLang.Decimal | meta/src/main/java/org/apache/rocketmq/mqtt/meta/raft/MqttRaftServer.java:187 | `Integer.toString`: non-empty, digits only except a leading '-', it starts with a digit exactly when the value is non-negative, and the magnitude has no leading '0' unless it is zero |
| JavaLang.ParseDecimal | meta/src/main/java/org/apache/rocketmq/mqtt/meta/raft/MqttRaftServer.java:196 | `Integer.parseInt` reads back every printed `int` |
| JavaLang.ParseInt | meta/src/main/java/org/apache/rocketmq/mqtt/meta/raft/MqttRaftServer.java:196 | a parse succeeds only on an optional sign followed by at least one digit and nothing else; unsigned or '+' text gives its decimal value and '-' text its negation, exactly when that value is an `int` |
| JavaLang.ParseIntRejects | meta/src/main/java/org/apache/rocketmq/mqtt/meta/raft/MqttRaftServer.java:196 | `""`, `"+"`, `"-"`, `"1a"` and `"1-0"` do not parse |
| JavaLang.ParseIntAccepts | meta/src/main/java/org/apache/rocketmq/mqtt/meta/raft/MqttRaftServer.java:196 | `"+7"` and `"007"` parse to 7 and `"-0"` to 0 |
| JavaLang.Split | meta/src/main/java/org/apache/rocketmq/mqtt/meta/raft/MqttRaftServer.java:191 | a string without the separator splits into itself; no part holds the separator; when the separator occurs, the last part is never empty |
| JavaLang.JoinPieces | meta/src/main/java/org/apache/rocketmq/mqtt/meta/raft/MqttRaftServer.java:191 | the pieces between separators, glued back with the separator, give the input back |
| JavaLang.SplitOfPlain | meta/src/main/java/org/apache/rocketmq/mqtt/meta/raft/MqttRaftServer.java:191 | a string without the separator splits into itself alone |
| JavaLang.SplitTrailingSeparator | meta/src/main/java/org/apache/rocketmq/mqtt/meta/raft/MqttRaftServer.java:191-192 | `a` followed by one separator splits into `[a]` (or nothing when `a` is empty), so it is never two parts |
| JavaLang.SplitOfShape | meta/src/main/java/org/apache/rocketmq/mqtt/meta/raft/MqttRaftServer.java:191-192 | `a`, the separator, a non-empty `b`, then any number of separators splits into exactly `[a, b]` |
| JavaLang.SplitTwoShape | meta/src/main/java/org/apache/rocketmq/mqtt/meta/raft/MqttRaftServer.java:191-192 | conversely, every string that splits into two parts has that shape |
| RaftServer.WrapGroupName | meta/src/main/java/org/apache/rocketmq/mqtt/meta/raft/MqttRaftServer.java:186-188 | a group name starts with the category, followed by '-' and at least one more character |
| RaftServer.WrapGroupNameParts | meta/src/main/java/org/apache/rocketmq/mqtt/meta/raft/MqttRaftServer.java:186-188 | a group name is the category, then '-', then decimal text that parses back to the shard index |
| RaftServer.WrapGroupNameInjective | meta/src/main/java/org/apache/rocketmq/mqtt/meta/raft/MqttRaftServer.java:186-188 | for categories without '-', different (category, index) pairs get different names |
| RaftServer.WrapGroupNameLastSeparator | meta/src/main/java/org/apache/rocketmq/mqtt/meta/raft/MqttRaftServer.java:186-188 | for a non-negative index, the '-' after the category is the last '-' in the name |
| RaftServer.WrapGroupNameInjectiveShards | meta/src/main/java/org/apache/rocketmq/mqtt/meta/raft/MqttRaftServer.java:155-156 | for the non-negative indices `start()` uses, any two categories and indices with the same name are equal |
| RaftServer.WrapGroupNameNoRoutingSeparator | meta/src/main/java/org/apache/rocketmq/mqtt/meta/raft/MqttRaftServer.java:187 | a group name contains '%' only if its category does |
| RaftServer.ShardHolders | meta/src/main/java/org/apache/rocketmq/mqtt/meta/raft/MqttRaftServer.java:155-182 | the inner loop builds one holder per iteration |
| RaftServer.ShardHoldersSnoc | meta/src/main/java/org/apache/rocketmq/mqtt/meta/raft/MqttRaftServer.java:155-182 | one more iteration appends the holder of the next shard on the next node |
| RaftServer.CreatedHoldersLength | meta/src/main/java/org/apache/rocketmq/mqtt/meta/raft/MqttRaftServer.java:147-183 | `start()` creates exactly `Count(raftGroupNum)` holders per processor visited: `raftGroupNum` when it is positive, none otherwise |
| RaftServer.CreatedHoldersAt | meta/src/main/java/org/apache/rocketmq/mqtt/meta/raft/MqttRaftServer.java:147-183 | the holders of the `j`-th processor follow those of the processors before it, and its `t`-th holder is shard `t` of that processor |
| RaftServer.CreatedShardPosition | meta/src/main/java/org/apache/rocketmq/mqtt/meta/raft/MqttRaftServer.java:147-183 | shard `t` of the `j`-th processor is created holder number `j * n + t`, out of `|processors| * n` |
| RaftServer.CreatedHolderNodes | meta/src/main/java/org/apache/rocketmq/mqtt/meta/raft/MqttRaftServer.java:158-179 | created holder `x` runs on node `base + x`, so no two share a node, and its group starts from the initial configuration |
| RaftServer.AfterProcessorsCreated | meta/src/main/java/org/apache/rocketmq/mqtt/meta/raft/MqttRaftServer.java:148-183 | the outer loop starts the services of all created holders in creation order, publishes all of them and grows the registry per category |
| RaftServer.CreatedServicesAt | meta/src/main/java/org/apache/rocketmq/mqtt/meta/raft/MqttRaftServer.java:156-173 | service `j * n + t` handed to the engine is named `category-t` and bound to the `j`-th processor and that name |
| RaftServer.StartStartsShard | meta/src/main/java/org/apache/rocketmq/mqtt/meta/raft/MqttRaftServer.java:147-173 | `start()` hands the engine exactly `n` new services per processor, after the ones it had; number `j * n + t` is shard `t` of the `j`-th processor, bound to it and to `category-t` |
| RaftServer.PublishRoutesAt | meta/src/main/java/org/apache/rocketmq/mqtt/meta/raft/MqttRaftServer.java:175 | publishing a run of holders adds exactly their identities, each mapped to its configuration, and keeps every other route |
| RaftServer.StartRoutes | meta/src/main/java/org/apache/rocketmq/mqtt/meta/raft/MqttRaftServer.java:175 | after `start()` the route table holds every created identity, mapped to the initial configuration, and keeps every other entry |
| RaftServer.CreatedRouteAt | meta/src/main/java/org/apache/rocketmq/mqtt/meta/raft/MqttRaftServer.java:156-175 | publishing the created holders maps `category-t` of every visited processor to the initial configuration |
| RaftServer.StartPublishesShard | meta/src/main/java/org/apache/rocketmq/mqtt/meta/raft/MqttRaftServer.java:156-175 | after `start()`, `category-t` of every visited processor is routed to the initial configuration |
| RaftServer.StartCreatesShard | meta/src/main/java/org/apache/rocketmq/mqtt/meta/raft/MqttRaftServer.java:147-183 | both of the above for one shard: its service at position `j * n + t`, bound to its processor and name, and its route |
| RaftServer.RegistryAfterKeys | meta/src/main/java/org/apache/rocketmq/mqtt/meta/raft/MqttRaftServer.java:150-152 | `start()` neither adds a category to the registry nor removes one, because the fresh list is never stored |
| RaftServer.RegistryAfterUntouched | meta/src/main/java/org/apache/rocketmq/mqtt/meta/raft/MqttRaftServer.java:150-179 | the list of a category that no visited processor has stays as it was |
| RaftServer.RegistryAfterAt | meta/src/main/java/org/apache/rocketmq/mqtt/meta/raft/MqttRaftServer.java:150-179 | an existing list of a category that one visited processor has grows by exactly that processor's shards |
| RaftServer.RegistryAfterStart | meta/src/main/java/org/apache/rocketmq/mqtt/meta/raft/MqttRaftServer.java:150-179 | a category has a list after `start()` exactly when it had one before; for a category that exactly one visited processor has, an existing list keeps its prefix and grows by `Count(n)` holders, the `k`-th bound to that processor and to `category-k` |
| RaftServer.RegistrySharedCategory | meta/src/main/java/org/apache/rocketmq/mqtt/meta/raft/MqttRaftServer.java:150-179 | two processors with the same category both append to its stored list: one shard each turns a list of one holder into three |
| RaftServer.IterationOrder | meta/src/main/java/org/apache/rocketmq/mqtt/meta/raft/MqttRaftServer.java:148 | iterating the processor set visits each processor exactly once |
| RaftServer.MqttClosure.Run | meta/src/main/java/org/apache/rocketmq/mqtt/meta/raft/MqttRaftServer.java:201-206 | each firing sets the caller's throwable and response to the status's and runs the caller's closure once with the status |
| RaftServer.Engine.StartGroup | meta/src/main/java/org/apache/rocketmq/mqtt/meta/raft/MqttRaftServer.java:170-173 | the engine records the started service and returns a node it has not returned before |
| RaftServer.Engine.Apply | meta/src/main/java/org/apache/rocketmq/mqtt/meta/raft/MqttRaftServer.java:210 | the engine records the task submitted to the node |
| RaftServer.MqttRaftServer.constructor | meta/src/main/java/org/apache/rocketmq/mqtt/meta/raft/MqttRaftServer.java:64-65 | the registry and the processor set start empty |
| RaftServer.MqttRaftServer.RegisterStateProcessor | meta/src/main/java/org/apache/rocketmq/mqtt/meta/raft/MqttRaftServer.java:137-139 | set insertion: the processor is added, and registering it again changes nothing |
| RaftServer.MqttRaftServer.StartShards | meta/src/main/java/org/apache/rocketmq/mqtt/meta/raft/MqttRaftServer.java:150-182 | the inner loop runs once per shard index below `raftGroupNum`, and its new engine, route table and registry are one `AfterProcessor` step; no task is submitted |
| RaftServer.MqttRaftServer.Start | meta/src/main/java/org/apache/rocketmq/mqtt/meta/raft/MqttRaftServer.java:141-184 | visits every registered processor once, in some order, and leaves engine, route table and registry as `AfterProcessors` over that order; no task is submitted |
| RaftServer.MqttRaftServer.Init | meta/src/main/java/org/apache/rocketmq/mqtt/meta/raft/MqttRaftServer.java:114-115 | registers the counter processor, then starts the services of all created holders and publishes them; an empty registry stays empty; no task is submitted |
| RaftServer.MqttRaftServer.GetRaftGroupHolder | meta/src/main/java/org/apache/rocketmq/mqtt/meta/raft/MqttRaftServer.java:190-197 | an id that does not split into two parts is malformed, and any holder returned is in the registry |
| RaftServer.MqttRaftServer.ApplyOperation | meta/src/main/java/org/apache/rocketmq/mqtt/meta/raft/MqttRaftServer.java:199-211 | exactly one task goes to the node, with the message's bytes and a new closure that forwards to the caller's closure |
| RaftServer.LookupSuccessShape | meta/src/main/java/org/apache/rocketmq/mqtt/meta/raft/MqttRaftServer.java:190-197 | a lookup succeeds only on `category%index` plus trailing '%', with the category registered, and returns the list's holder at the parsed index |
| RaftServer.LookupOfShape | meta/src/main/java/org/apache/rocketmq/mqtt/meta/raft/MqttRaftServer.java:191-196 | on a two-part id: NumberFormat for a non-numeric index, then NullPointer for an absent category, then the holder or IndexOutOfBounds |
| RaftServer.LookupShardIndex | meta/src/main/java/org/apache/rocketmq/mqtt/meta/raft/MqttRaftServer.java:196 | `category%i` finds holder `i` of a registered category |
| RaftServer.LookupCreatedNameFails | meta/src/main/java/org/apache/rocketmq/mqtt/meta/raft/MqttRaftServer.java:187-193 | for a category without '%', looking up a name built by `wrapGroupName` is malformed, since the name holds no '%' |
| RaftServer.LookupCreatedNameWithRoutingSeparator | meta/src/main/java/org/apache/rocketmq/mqtt/meta/raft/MqttRaftServer.java:187-196 | for the category `x%` the created name `x%-0` splits into `x` and `-0` and resolves to holder 0 of category `x` |
| RaftServer.LookupTrailingSeparatorFails | meta/src/main/java/org/apache/rocketmq/mqtt/meta/raft/MqttRaftServer.java:191-194 | `category%` is malformed |
| RaftServer.EmptyRegistryLookupFails | meta/src/main/java/org/apache/rocketmq/mqtt/meta/raft/MqttRaftServer.java:64 | with an empty registry every lookup fails |
| PubRelHandler.Released | mqtt-cs/src/main/java/org/apache/rocketmq/mqtt/cs/protocol/mqtt5/handler/Mqtt5PubRelHandler.java:56-65 | after a PUBREL its entry is not in flight, and every other entry is in flight exactly when it was before |
| PubRelHandler.ReplyFor | mqtt-cs/src/main/java/org/apache/rocketmq/mqtt/cs/protocol/mqtt5/handler/Mqtt5PubRelHandler.java:56-69 | the PUBCOMP carries the PUBREL's identifier; its reason is 0x00 exactly when the entry was in flight and 0x92 exactly when it was not |
| PubRelHandler.ReleasedMissing | mqtt-cs/src/main/java/org/apache/rocketmq/mqtt/cs/protocol/mqtt5/handler/Mqtt5PubRelHandler.java:56-62 | a PUBREL for an entry that is not in flight leaves the cache unchanged |
| PubRelHandler.ReleaseTwice | mqtt-cs/src/main/java/org/apache/rocketmq/mqtt/cs/protocol/mqtt5/handler/Mqtt5PubRelHandler.java:56-69 | a second identical PUBREL leaves the cache as the first left it and is answered 0x92 |
| PubRelHandler.ReleaseCommutes | mqtt-cs/src/main/java/org/apache/rocketmq/mqtt/cs/protocol/mqtt5/handler/Mqtt5PubRelHandler.java:65 | releases of two entries give the same cache in either order |
| PubRelHandler.InFlyCache.Contains | mqtt-cs/src/main/java/org/apache/rocketmq/mqtt/cs/protocol/mqtt5/handler/Mqtt5PubRelHandler.java:56 | a publish entry is in flight exactly when a PUBREL for it would change the cache, and exactly when it would be answered with Success |
| PubRelHandler.InFlyCache.Remove | mqtt-cs/src/main/java/org/apache/rocketmq/mqtt/cs/protocol/mqtt5/handler/Mqtt5PubRelHandler.java:65 | the given triple leaves the cache, and nothing else changes |
| PubRelHandler.Channel.WriteAndFlush | mqtt-cs/src/main/java/org/apache/rocketmq/mqtt/cs/protocol/mqtt5/handler/Mqtt5PubRelHandler.java:57 | the packet is appended to what the channel has carried |
| PubRelHandler.Session.PublishReceiveRefill | mqtt-cs/src/main/java/org/apache/rocketmq/mqtt/cs/protocol/mqtt5/handler/Mqtt5PubRelHandler.java:61 | the refill counter goes up by one |
| PubRelHandler.Mqtt5PubRelHandler.PreHandler | mqtt-cs/src/main/java/org/apache/rocketmq/mqtt/cs/protocol/mqtt5/handler/Mqtt5PubRelHandler.java:46-48 | always accepts and changes nothing |
| PubRelHandler.Mqtt5PubRelHandler.DoHandler | mqtt-cs/src/main/java/org/apache/rocketmq/mqtt/cs/protocol/mqtt5/handler/Mqtt5PubRelHandler.java:51-71 | on both paths: the cache loses exactly the released entry, exactly one PUBCOMP with the identifier and the reason of `ReplyFor` is written, and the quota is refilled exactly once |

## Left out

- Thread pools (`raftExecutor`, `requestExecutor`) are concurrency and resource management.
- `NodeOptions` and `RaftOptions` settings, `NodeManager` address registration and `JRaftUtils` configuration parsing are foreign library calls. The peer id and the initial configuration are constructor parameters instead.
- The RPC server is I/O plumbing. This covers `createRpcServer`, protobuf marshaller registration and the duplicated `rpcServer.init` call. `RaftGroupService` takes the RPC server and a flag, and neither is kept.
- The log, raft-meta and snapshot paths of `start()` are file-system configuration, so they are not modelled.
- `logger.info` and `logger.error` are logging only.
- The internals of `RaftGroupService.start` and `Node.apply` belong to the consensus engine. `Engine` only records the calls; `setNode` shows up as the holder's node.
- `RouteTable.getInstance()` is a process-wide singleton. It is a field of the server, so that the server's own updates can be stated.
- `initConf.copy()` and `nodeOptions.copy()` are modelled as the same value, because configurations are values in the model.
- `MqttStateMachine` and `CounterStateProcessor` are not part of this model. A state machine is the pair (processor, group identity) it is built from, and a processor is its identity and its category.
- The internals of the real `FailoverClosure` class are not modelled. The model's `FailoverClosure` is a stand-in that records what is set on it and every status it is run with.
- The internals of the real `MqttClosure` class are not modelled. The model's `MqttClosure` is a stand-in holding the message and the caller's closure. Its `Run` is the callback at the lines cited; nothing is assumed about how often the engine fires it.
- A `Message` is reduced to its serialized bytes. `ByteBuffer.wrap` is the identity on them.
- RaftServer.IterationOrder: HashSet iteration order is unspecified, so the order is left open. `Start` returns it as a ghost value.
- JavaLang.ParseInt: accepts ASCII digits only. Java's `Character.digit` also accepts other Unicode decimal digits.
- JavaLang.Split: models `split` for a single separator character that is not a regex metacharacter, which is the only use here.
- The `synchronizedSet` and `ConcurrentHashMap` wrappers only matter for concurrency.
- In the PUBREL handler, `ChannelInfo.getId` is replaced by a channel-id input, and the `SessionLoop` lookup by a session parameter. A missing (null) session is not modelled.
- `MqttMessageFactory.buildMqtt5PubCompMessage(..., NO_PROPERTIES)` is modelled by the `PubComp` constructor: a PUBCOMP is (packet id, reason code), with no properties.
- PubRelHandler.PubComp: reason codes are unsigned octets (0x92 = 146). Java's `byteValue()` gives the signed byte -110 with the same bits.
- `upstreamHookResult` and the rest of the hook chain around the handler are left out.
