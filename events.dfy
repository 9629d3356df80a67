/** The records the pipeline passes around: kill events as the upstream feed
    delivers them, and the Option/Result wrappers used for missing values and
    failed requests. */
module Events {

  datatype Option<T> = None | Some(value: T)

  /** The outcome of a call that may throw: the thrown error's message. */
  datatype Result<T> = Ok(value: T) | Err(message: string)

  /** `Killer` or `Victim` of an event. A missing field is the empty string,
      which is also what `norm` makes of it. */
  datatype Player = Player(name: string, guildName: string, allianceName: string)

  /** An equipment or inventory slot. `itemType` is "" when the slot has no
      `Type`; `count` and `quality` are 0 when missing, and the code turns
      both 0 and missing into 1 (`Count || 1`, `Quality || 1`). */
  datatype Item = Item(itemType: string, count: nat, quality: nat)

  /** `it.Quality || 1`. */
  function QualityOf(it: Item): nat {
    if it.quality == 0 then 1 else it.quality
  }

  /** `it.Count || 1`. */
  function CountOf(it: Item): nat {
    if it.count == 0 then 1 else it.count
  }

  /** One kill event. `eventId` is 0 when the event carries none
      (`kill?.EventId || 0`); `totalVictimKillFame` is None when absent. */
  datatype Kill = Kill(
    eventId: int,
    killer: Player,
    victim: Player,
    totalVictimKillFame: Option<int>,
    killerEquipment: seq<Item>,
    victimEquipment: seq<Item>,
    inventory: seq<Item>)

  /** `Math.pow(2, n)` for a natural exponent, as both backoff schedules use it. */
  function Pow2(n: nat): (r: nat)
    ensures r >= 1
  {
    if n == 0 then 1 else 2 * Pow2(n - 1)
  }
}
