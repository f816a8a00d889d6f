/**
 * The bot registry of Backend/discovery.js: a `Map` from the id a bot
 * reports to the record built from its discovery response. The UDP
 * `message` handler upserts a record; `cleanBots`, run every
 * BROADCAST_INTERVAL, deletes every record not refreshed within TIMEOUT_MS.
 * The JSON parse arrives already done (`None` when it threw), and the
 * receive and sweep times come in as `now`.
 */
module Discovery {
  import opened Wrappers

  const BROADCAST_INTERVAL := 5000
  const TIMEOUT_MS := 15000

  /** The scalar JSON values a bot reports. */
  datatype Json = JNull | JBool(b: bool) | JNum(n: int) | JStr(s: string)

  /** A parsed discovery response: a JSON object. */
  type Payload = map<string, Json>

  /**
   * A key of the `bots` map: `data.id`, which is `undefined` when the
   * response has no `id` field (the handler does not check for one).
   */
  datatype BotKey = Undefined | Id(value: Json)

  /**
   * A stored record `{...data, ip, lastSeen}`: the reported fields other than
   * `ip` and `lastSeen`, the source address of the datagram and the receive
   * time.
   */
  datatype BotRecord = BotRecord(reported: map<string, Json>, ip: string, lastSeen: int)

  /** Reading `record[name]` from the stored object. */
  function Field(r: BotRecord, name: string): Option<Json>
  {
    if name == "ip" then Some(JStr(r.ip))
    else if name == "lastSeen" then Some(JNum(r.lastSeen))
    else if name in r.reported then Some(r.reported[name])
    else None
  }

  function Lookup(data: Payload, name: string): Option<Json>
  {
    if name in data then Some(data[name]) else None
  }

  function KeyOf(data: Payload): BotKey
  {
    if "id" in data then Id(data["id"]) else Undefined
  }

  /**
   * `{...data, ip: address, lastSeen: now}`: every reported field is kept,
   * except that the observed address and the receive time overwrite any
   * reported `ip` and `lastSeen`.
   */
  function MakeRecord(data: Payload, address: string, now: int): (r: BotRecord)
    ensures forall name :: (Field(r, name) ==
                             if name == "ip" then Some(JStr(address))
                             else if name == "lastSeen" then Some(JNum(now))
                             else Lookup(data, name))
  {
    BotRecord(data - {"ip", "lastSeen"}, address, now)
  }

  /** The `message` handler's effect on the map; a payload that failed to parse changes nothing. */
  function Upsert(bots: map<BotKey, BotRecord>, parsed: Option<Payload>, address: string, now: int): map<BotKey, BotRecord>
  {
    match parsed
    case None => bots
    case Some(data) => bots[KeyOf(data) := MakeRecord(data, address, now)]
  }

  /**
   * After a parsed response the map holds, under the response's id, a record
   * with the datagram's address and the receive time and every other
   * reported field; every other entry is untouched and no entry is added
   * besides that id. A response that failed to parse leaves the map as it
   * was.
   */
  lemma UpsertRule(bots: map<BotKey, BotRecord>, parsed: Option<Payload>, address: string, now: int)
    ensures var r := Upsert(bots, parsed, address, now);
      && (parsed.None? ==> r == bots)
      && (parsed.Some? ==>
            var key := KeyOf(parsed.value);
            && key in r
            && r[key].ip == address && r[key].lastSeen == now
            && (forall name :: name != "ip" && name != "lastSeen" ==> Field(r[key], name) == Lookup(parsed.value, name))
            && r.Keys == bots.Keys + {key}
            && (forall k :: k in bots && k != key ==> r[k] == bots[k]))
  {
  }

  /** A second response for a known id replaces the old record as a whole: nothing of the earlier response survives. */
  lemma UpsertReplaces(bots: map<BotKey, BotRecord>, first: Payload, second: Payload, a1: string, a2: string, t1: int, t2: int)
    requires KeyOf(first) == KeyOf(second)
    ensures Upsert(Upsert(bots, Some(first), a1, t1), Some(second), a2, t2) == Upsert(bots, Some(second), a2, t2)
  {
  }

  /** The map never holds two entries for one id: a known id keeps the size, a new one adds exactly one entry. */
  lemma UpsertSize(bots: map<BotKey, BotRecord>, data: Payload, address: string, now: int)
    ensures |Upsert(bots, Some(data), address, now)| == |bots| + (if KeyOf(data) in bots then 0 else 1)
  {
  }

  predicate Expired(r: BotRecord, now: int)
  {
    now - r.lastSeen > TIMEOUT_MS
  }

  /** The map as `cleanBots` leaves it at time `now`. */
  function Swept(bots: map<BotKey, BotRecord>, now: int): (r: map<BotKey, BotRecord>)
    ensures r.Keys <= bots.Keys
    ensures forall k :: k in r ==> r[k] == bots[k] && now - r[k].lastSeen <= TIMEOUT_MS
  {
    map k | k in bots && !Expired(bots[k], now) :: bots[k]
  }

  /** A record is swept out exactly when more than TIMEOUT_MS have passed since it was last seen. */
  lemma SweptIff(bots: map<BotKey, BotRecord>, now: int, k: BotKey)
    ensures k in Swept(bots, now) <==> k in bots && now - bots[k].lastSeen <= TIMEOUT_MS
  {
  }

  /** A second sweep at the same time removes nothing more. */
  lemma SweptIdempotent(bots: map<BotKey, BotRecord>, now: int)
    ensures Swept(Swept(bots, now), now) == Swept(bots, now)
  {
  }

  /** A record seen exactly TIMEOUT_MS ago survives a sweep; one seen a millisecond earlier does not. */
  lemma SweptBoundary(bots: map<BotKey, BotRecord>, k: BotKey, now: int)
    requires k in bots
    ensures bots[k].lastSeen == now - 15000 ==> k in Swept(bots, now)
    ensures bots[k].lastSeen == now - 15001 ==> k !in Swept(bots, now)
  {
  }

  /** A bot that answered any of the last three broadcasts survives the sweep. */
  lemma AnsweringBotSurvives(bots: map<BotKey, BotRecord>, k: BotKey, now: int)
    requires k in bots && now - bots[k].lastSeen <= 3 * BROADCAST_INTERVAL
    ensures k in Swept(bots, now)
  {
  }

  /**
   * A record stored by a response at `now` survives, unchanged, every sweep
   * run from `now` up to `now + TIMEOUT_MS`.
   */
  lemma FreshRecordSurvivesSweep(bots: map<BotKey, BotRecord>, data: Payload, address: string, now: int, later: int)
    requires now <= later <= now + TIMEOUT_MS
    ensures var r := Swept(Upsert(bots, Some(data), address, now), later);
      KeyOf(data) in r && r[KeyOf(data)] == MakeRecord(data, address, now)
  {
  }

  /** The registry: the module-level `bots` map. */
  class Registry {
    var bots: map<BotKey, BotRecord>

    constructor ()
      ensures bots == map[]
    {
      bots := map[];
    }

    /** The UDP `message` handler for a response from `address` received at `now`. */
    method OnMessage(parsed: Option<Payload>, address: string, now: int)
      modifies this
      ensures bots == Upsert(old(bots), parsed, address, now)
    {
      match parsed {
        case None =>
        case Some(data) =>
          var id := KeyOf(data);
          bots := bots[id := MakeRecord(data, address, now)];
      }
    }

    /** `cleanBots`: visit every entry and delete the ones that have expired. */
    method CleanBots(now: int)
      modifies this
      ensures bots == Swept(old(bots), now)
    {
      var start := bots;
      var pending := bots.Keys;
      while pending != {}
        invariant pending <= start.Keys
        invariant forall k :: k in bots <==> k in start && (k in pending || !Expired(start[k], now))
        invariant forall k :: k in bots ==> bots[k] == start[k]
        decreases pending
      {
        var id :| id in pending;
        if now - bots[id].lastSeen > TIMEOUT_MS {
          bots := bots - {id};
        }
        pending := pending - {id};
      }
      assert bots.Keys == Swept(start, now).Keys;
    }
  }
}
