/**
 * The receiving side of a QoS 2 exchange in MQTT 5: a PUBREL releases the
 * packet identifier the client published under. If the in-flight cache
 * still holds the identifier for this channel it is removed and a PUBCOMP
 * with reason Success goes back; otherwise the PUBCOMP carries reason
 * Packet Identifier not found. Either way the session's receive quota is
 * refilled once (sections 3.6, 3.7 and 4.3.3 of OASIS MQTT Version 5.0).
 */
module PubRelHandler {
  import opened JavaLang

  /** PUBCOMP reason code Success (section 3.7.2.1 of MQTT 5.0). */
  const SUCCESS: Byte := 0x00
  /** PUBCOMP reason code Packet Identifier not found (section 3.7.2.1 of MQTT 5.0). */
  const PACKET_IDENTIFIER_NOT_FOUND: Byte := 0x92

  /** The kinds of in-flight entries; only `Pub` is used by this handler. */
  datatype CacheType = Pub | Other(name: string)

  /** One in-flight entry: its kind, the channel it belongs to and the packet identifier. */
  datatype InFlyKey = InFlyKey(cacheType: CacheType, channelId: string, packetId: int)

  /** A PUBREL as the handler reads it: only the packet identifier of its variable header. */
  datatype PubRel = PubRel(messageId: int)

  /** A PUBCOMP as `buildMqtt5PubCompMessage` builds it with `NO_PROPERTIES`: packet identifier and reason code. */
  datatype PubComp = PubComp(messageId: int, reasonCode: Byte)

  /** The entry a PUBREL on `channelId` for `id` releases. */
  function PubKey(channelId: string, id: int): InFlyKey
  {
    InFlyKey(Pub, channelId, id)
  }

  /**
   * The in-flight set after a PUBREL on `channelId` for `id`: the released
   * entry is gone, and every other entry is present exactly when it was
   * before.
   */
  function Released(entries: set<InFlyKey>, channelId: string, id: int): (r: set<InFlyKey>)
    ensures PubKey(channelId, id) !in r
    ensures forall k :: k != PubKey(channelId, id) ==> (k in r <==> k in entries)
  {
    entries - {PubKey(channelId, id)}
  }

  /**
   * The PUBCOMP answering a PUBREL for `id`: it carries that identifier,
   * and its reason is Success exactly when the entry was in flight and
   * Packet Identifier not found exactly when it was not.
   */
  function ReplyFor(entries: set<InFlyKey>, channelId: string, id: int): (r: PubComp)
    ensures r.messageId == id
    ensures r.reasonCode == SUCCESS <==> PubKey(channelId, id) in entries
    ensures r.reasonCode == PACKET_IDENTIFIER_NOT_FOUND <==> PubKey(channelId, id) !in entries
  {
    PubComp(id, if PubKey(channelId, id) in entries then SUCCESS else PACKET_IDENTIFIER_NOT_FOUND)
  }

  /** When the entry is not in flight, a PUBREL leaves the cache as it was. */
  lemma ReleasedMissing(entries: set<InFlyKey>, channelId: string, id: int)
    requires PubKey(channelId, id) !in entries
    ensures Released(entries, channelId, id) == entries
  {
  }

  /**
   * Handling the same PUBREL twice: the second one leaves the cache as the
   * first left it and is answered with Packet Identifier not found.
   */
  lemma ReleaseTwice(entries: set<InFlyKey>, channelId: string, id: int)
    ensures var once := Released(entries, channelId, id);
      && Released(once, channelId, id) == once
      && ReplyFor(once, channelId, id) == PubComp(id, PACKET_IDENTIFIER_NOT_FOUND)
  {
    ReleasedMissing(Released(entries, channelId, id), channelId, id);
  }

  /** PUBRELs for different entries can be handled in either order. */
  lemma ReleaseCommutes(entries: set<InFlyKey>, c1: string, id1: int, c2: string, id2: int)
    ensures Released(Released(entries, c1, id1), c2, id2) == Released(Released(entries, c2, id2), c1, id1)
  {
  }

  /** The in-flight cache: the set of entries awaiting their release. */
  class InFlyCache {
    var entries: set<InFlyKey>

    constructor (entries: set<InFlyKey>)
      ensures this.entries == entries
    {
      this.entries := entries;
    }

    /**
     * Whether the triple is in flight; for a publish entry, exactly when a
     * PUBREL for it would change the cache and be answered with Success.
     */
    function Contains(cacheType: CacheType, channelId: string, packetId: int): (r: bool)
      reads this
      ensures cacheType == Pub ==> (r <==> Released(entries, channelId, packetId) != entries)
      ensures cacheType == Pub ==> (r <==> ReplyFor(entries, channelId, packetId).reasonCode == SUCCESS)
    {
      InFlyKey(cacheType, channelId, packetId) in entries
    }

    method Remove(cacheType: CacheType, channelId: string, packetId: int)
      modifies this
      ensures entries == old(entries) - {InFlyKey(cacheType, channelId, packetId)}
    {
      entries := entries - {InFlyKey(cacheType, channelId, packetId)};
    }
  }

  /** The client's channel: every message written and flushed to it, in order. */
  class Channel {
    var written: seq<PubComp>

    constructor ()
      ensures written == []
    {
      written := [];
    }

    method WriteAndFlush(message: PubComp)
      modifies this
      ensures written == old(written) + [message]
    {
      written := written + [message];
    }
  }

  /** The client's session; only the number of receive-quota refills is kept. */
  class Session {
    var receiveRefills: nat

    constructor ()
      ensures receiveRefills == 0
    {
      receiveRefills := 0;
    }

    method PublishReceiveRefill()
      modifies this
      ensures receiveRefills == old(receiveRefills) + 1
    {
      receiveRefills := receiveRefills + 1;
    }
  }

  class Mqtt5PubRelHandler {
    const inFlyCache: InFlyCache

    constructor (inFlyCache: InFlyCache)
      ensures this.inFlyCache == inFlyCache
    {
      this.inFlyCache := inFlyCache;
    }

    /** Every PUBREL is accepted; nothing changes. */
    method PreHandler(message: PubRel) returns (accept: bool)
      ensures accept
    {
      accept := true;
    }

    /**
     * Releases the identifier if it is in flight, answers with one PUBCOMP
     * for the same identifier, and refills the session's receive quota once.
     */
    method DoHandler(channel: Channel, channelId: string, message: PubRel, session: Session)
      modifies inFlyCache, channel, session
      ensures inFlyCache.entries == Released(old(inFlyCache.entries), channelId, message.messageId)
      ensures channel.written == old(channel.written) + [ReplyFor(old(inFlyCache.entries), channelId, message.messageId)]
      ensures session.receiveRefills == old(session.receiveRefills) + 1
    {
      var id := message.messageId;
      if !inFlyCache.Contains(Pub, channelId, id) {
        channel.WriteAndFlush(PubComp(id, PACKET_IDENTIFIER_NOT_FOUND));
        session.PublishReceiveRefill();
        return;
      }
      inFlyCache.Remove(Pub, channelId, id);
      channel.WriteAndFlush(PubComp(id, SUCCESS));
      session.PublishReceiveRefill();
    }
  }
}
