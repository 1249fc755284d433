/**
 * The shared configuration of the bot: the global `config` object and the
 * per-guild `responseCache`, both read-only to the two decision engines.
 *
 * A JavaScript `Map`/`Collection` (and an object's own keys) iterate in
 * insertion order, so each is modelled as a sequence of (key, value)
 * entries; lookups find the first entry with a matching key. A real `Map`
 * never holds a key twice, so only sequences with distinct keys stand for
 * a real cache; every property below holds of the others as well.
 */
module Config {
  import opened Wrappers

  type GuildId = string
  type UserId = string
  type RoleId = string

  /** The global configuration: `devGuildId` ("" when unset) and the Wit.ai server tokens keyed by guild. */
  datatype BotConfig = BotConfig(devGuildId: string, witAiServerToken: seq<(string, string)>)

  /** `config.devGuildId` is truthy: JavaScript treats both `undefined` and "" as false. */
  predicate DevMode(cfg: BotConfig) {
    |cfg.devGuildId| > 0
  }

  /** One guild's configuration: intent name to canned response, and the confinement role. */
  datatype GuildConfig = GuildConfig(values: map<string, string>, confinementRole: RoleId)

  /** `responseCache`, in insertion order; an entry may hold `null`/`undefined` (None). */
  type ResponseCache = seq<(GuildId, Option<GuildConfig>)>

  /** Position of the first entry whose key is `k`, or -1 when there is none. */
  function IndexOf<V>(entries: seq<(string, V)>, k: string): (r: int)
    ensures -1 <= r < |entries|
    ensures r == -1 <==> forall i :: 0 <= i < |entries| ==> entries[i].0 != k
    ensures r >= 0 ==> entries[r].0 == k && forall j :: 0 <= j < r ==> entries[j].0 != k
  {
    if |entries| == 0 then -1
    else if entries[0].0 == k then 0
    else
      var r := IndexOf(entries[1..], k);
      if r < 0 then -1 else r + 1
  }

  /** `responseCache.has(guildId)`: true even when the stored value is null. */
  function Has(cache: ResponseCache, g: GuildId): (r: bool)
    ensures r <==> exists i :: 0 <= i < |cache| && cache[i].0 == g
  {
    IndexOf(cache, g) >= 0
  }

  /** `responseCache.get(guildId)`, with a missing key and a null value both read as None. */
  function Get(cache: ResponseCache, g: GuildId): (r: Option<GuildConfig>)
    ensures r.Some? ==> Has(cache, g)
    ensures r.Some? <==> exists i :: 0 <= i < |cache| && cache[i].0 == g && cache[i].1.Some? && forall j :: 0 <= j < i ==> cache[j].0 != g
    ensures forall i :: 0 <= i < |cache| && cache[i].0 == g && (forall j :: 0 <= j < i ==> cache[j].0 != g) ==> r == cache[i].1
    ensures (forall i :: 0 <= i < |cache| ==> cache[i].0 != g) ==> r.None?
  {
    var i := IndexOf(cache, g);
    if i < 0 then None else cache[i].1
  }

  /** `responseCache.get(guildId)?.confinementRole`. */
  function ConfinementRole(cache: ResponseCache, g: GuildId): Option<RoleId> {
    match Get(cache, g)
    case Some(c) => Some(c.confinementRole)
    case None => None
  }

  /** `Object.keys(config.witAiServerToken)[0]`: the first key, or `undefined`. */
  function FirstTokenKey(cfg: BotConfig): Option<string> {
    if |cfg.witAiServerToken| == 0 then None else Some(cfg.witAiServerToken[0].0)
  }

  /** `config.witAiServerToken[key]`; an undefined key finds nothing. */
  function AccessToken(cfg: BotConfig, key: Option<string>): (r: Option<string>)
    ensures r.Some? ==> key.Some? && exists i :: 0 <= i < |cfg.witAiServerToken| && cfg.witAiServerToken[i] == (key.value, r.value)
    ensures key.Some? && (exists i :: 0 <= i < |cfg.witAiServerToken| && cfg.witAiServerToken[i].0 == key.value) ==> r.Some?
  {
    if key.None? then None
    else
      var i := IndexOf(cfg.witAiServerToken, key.value);
      if i < 0 then None else Some(cfg.witAiServerToken[i].1)
  }
}
