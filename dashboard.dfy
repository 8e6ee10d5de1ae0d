/** The dashboard's figures (src/pages/Dashboard.tsx): the status counters,
    the five most recent records and the per-type counts. */
module Dashboard {
  import opened EquipmentTypes
  import opened Seqs
  import Storage

  /** The counters shown on the dashboard's cards. */
  datatype Stats = Stats(total: nat, active: nat, maintenance: nat, inactive: nat, recentChanges: nat)

  /** `data.filter(e => e.status === s).length`. */
  function CountStatus(data: seq<Equipment>, s: Status): nat
  {
    |Filter(data, (e: Equipment) => e.status == s)|
  }

  /** `equipment.filter(e => e.type === t).length`. */
  function CountType(data: seq<Equipment>, t: EquipmentType): nat
  {
    |Filter(data, (e: Equipment) => e.equipmentType == t)|
  }

  /** The three status counts add up to the number of records, because the
      status enumeration is closed. */
  lemma {:induction false} StatusCountsAddUp(data: seq<Equipment>)
    ensures CountStatus(data, Active) + CountStatus(data, Maintenance) + CountStatus(data, Inactive) == |data|
  {
    if data != [] {
      StatusCountsAddUp(data[1..]);
    }
  }

  /** The status of each record, in store order. */
  function Statuses(data: seq<Equipment>): seq<Status>
  {
    Map(data, (e: Equipment) => e.status)
  }

  /** The type of each record, in store order. */
  function Types(data: seq<Equipment>): seq<EquipmentType>
  {
    Map(data, (e: Equipment) => e.equipmentType)
  }

  /** A status counter is the number of records carrying that status. */
  lemma StatusCountIsOccurrences(data: seq<Equipment>, s: Status)
    ensures CountStatus(data, s) == multiset(Statuses(data))[s]
  {
    FilterCountsKey(data, (e: Equipment) => e.status == s, (e: Equipment) => e.status, s);
  }

  /** A type counter is the number of records carrying that type. */
  lemma TypeCountIsOccurrences(data: seq<Equipment>, t: EquipmentType)
    ensures CountType(data, t) == multiset(Types(data))[t]
  {
    FilterCountsKey(data, (e: Equipment) => e.equipmentType == t, (e: Equipment) => e.equipmentType, t);
  }

  /** The stats the dashboard computes on load: the total, one counter per
      status, and the length of the whole log. */
  function ComputeStats(data: seq<Equipment>, history: seq<HistoryEntry>): (st: Stats)
    ensures st.total == |data| && st.recentChanges == |history|
    ensures st.active == CountStatus(data, Active) == multiset(Statuses(data))[Active]
    ensures st.maintenance == CountStatus(data, Maintenance) == multiset(Statuses(data))[Maintenance]
    ensures st.inactive == CountStatus(data, Inactive) == multiset(Statuses(data))[Inactive]
    ensures st.active + st.maintenance + st.inactive == st.total
  {
    StatusCountsAddUp(data);
    StatusCountIsOccurrences(data, Active);
    StatusCountIsOccurrences(data, Maintenance);
    StatusCountIsOccurrences(data, Inactive);
    Stats(|data|, CountStatus(data, Active), CountStatus(data, Maintenance), CountStatus(data, Inactive), |history|)
  }

  /** Adding a record raises the total, the counter of the record's status
      and the change count by one, and leaves the other counters alone. */
  lemma AddRaisesOneCounter(st: Storage.StoreState, e: Equipment, user: string, entryId: string, timestamp: string, s: Status)
    ensures var after := Storage.AddStep(st, e, user, entryId, timestamp);
      && ComputeStats(after.equipment, after.history).total == |st.equipment| + 1
      && ComputeStats(after.equipment, after.history).recentChanges == |st.history| + 1
      && CountStatus(after.equipment, s) == CountStatus(st.equipment, s) + (if e.status == s then 1 else 0)
  {
    FilterAppend(st.equipment, [e], (x: Equipment) => x.status == s);
  }

  /** `equipment.slice(0, 5)`: the first five records in store order, or
      all of them when there are fewer. */
  function RecentEquipment(data: seq<Equipment>): (r: seq<Equipment>)
    ensures |r| == if |data| < 5 then |data| else 5
    ensures r <= data
  {
    if |data| <= 5 then data else data[..5]
  }

  /** The sum of a sequence of counts. */
  function Sum(counts: seq<nat>): nat
  {
    if counts == [] then 0 else counts[0] + Sum(counts[1..])
  }

  /** The per-type counts, in the order desktop, laptop, server, printer,
      other; they add up to the number of records. */
  function TypeCounts(data: seq<Equipment>): (counts: seq<nat>)
    ensures |counts| == |AllTypes|
    ensures forall k :: 0 <= k < |AllTypes| ==>
      counts[k] == CountType(data, AllTypes[k]) == multiset(Types(data))[AllTypes[k]]
    ensures Sum(counts) == |data|
  {
    TypeCountsAddUp(data);
    forall k | 0 <= k < |AllTypes| ensures CountType(data, AllTypes[k]) == multiset(Types(data))[AllTypes[k]] {
      TypeCountIsOccurrences(data, AllTypes[k]);
    }
    var counts := seq(|AllTypes|, k requires 0 <= k < |AllTypes| => CountType(data, AllTypes[k]));
    SumOfFive(counts);
    counts
  }

  /** The sum of five counts, written out. */
  lemma SumOfFive(c: seq<nat>)
    requires |c| == 5
    ensures Sum(c) == c[0] + c[1] + c[2] + c[3] + c[4]
  {
    assert Sum(c[4..]) == c[4] by { assert c[4..][1..] == []; }
    assert Sum(c[3..]) == c[3] + c[4] by { assert c[3..][1..] == c[4..]; }
    assert Sum(c[2..]) == c[2] + c[3] + c[4] by { assert c[2..][1..] == c[3..]; }
    assert Sum(c[1..]) == c[1] + c[2] + c[3] + c[4] by { assert c[1..][1..] == c[2..]; }
  }

  /** The five type counts add up to the number of records. */
  lemma {:induction false} TypeCountsAddUp(data: seq<Equipment>)
    ensures CountType(data, Desktop) + CountType(data, Laptop) + CountType(data, Server)
          + CountType(data, Printer) + CountType(data, Other) == |data|
  {
    if data != [] {
      TypeCountsAddUp(data[1..]);
    }
  }
}
