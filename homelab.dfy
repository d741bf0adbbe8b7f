/** The homelab status panel (src/components/HomelabSection.tsx): four machines whose cpu, memory
    and network readings drift by a random amount every 5000 ms, clamped to fixed ranges, and the
    colour rules for status and usage badges. */
module Homelab {

  /** The closed union `'online' | 'offline' | 'warning'`. */
  datatype Status = Online | Offline | Warning

  function StatusName(s: Status): string {
    match s
    case Online => "online"
    case Offline => "offline"
    case Warning => "warning"
  }

  /** A `SystemStatus` record. Readings are real numbers; IEEE rounding is not modelled. */
  datatype SystemStatus = SystemStatus(
    name: string, status: Status, uptime: string,
    cpu: real, memory: real, disk: real, network: real,
    lastUpdate: string)

  /** The three random terms `(Math.random() - 0.5) * k` of one update, for k = 10, 5 and 8. */
  datatype Jitter = Jitter(cpu: real, memory: real, network: real)

  /** The values those terms can take, as `Math.random()` lies in [0, 1). */
  predicate JitterInRange(j: Jitter) {
    -5.0 <= j.cpu < 5.0 && -2.5 <= j.memory < 2.5 && -4.0 <= j.network < 4.0
  }

  /** `Math.max(lo, Math.min(hi, x))`. */
  function Clamp(lo: real, hi: real, x: real): (r: real)
    ensures r >= lo
    ensures lo <= hi ==> r <= hi
    ensures lo <= x <= hi ==> r == x
    ensures lo <= hi && x > hi ==> r == hi
    ensures x < lo ==> r == lo
    ensures lo > hi ==> r == lo
    ensures r == lo || r == x || r == hi
  {
    if x > hi then (if hi > lo then hi else lo)
    else if x > lo then x
    else lo
  }

  /** The ranges every reading is clamped into. */
  predicate MetricsInRange(s: SystemStatus) {
    5.0 <= s.cpu <= 95.0 && 10.0 <= s.memory <= 90.0 && 1.0 <= s.network <= 50.0
  }

  /** One system after a tick: `{...system, cpu, memory, network, lastUpdate: 'Just now'}`. */
  function Updated(s: SystemStatus, j: Jitter): (r: SystemStatus)
    ensures MetricsInRange(r)
    ensures r.name == s.name && r.status == s.status && r.uptime == s.uptime && r.disk == s.disk
    ensures r.lastUpdate == "Just now"
    ensures 5.0 <= s.cpu + j.cpu <= 95.0 ==> r.cpu == s.cpu + j.cpu
    ensures 10.0 <= s.memory + j.memory <= 90.0 ==> r.memory == s.memory + j.memory
    ensures 1.0 <= s.network + j.network <= 50.0 ==> r.network == s.network + j.network
    ensures s.cpu + j.cpu > 95.0 ==> r.cpu == 95.0
    ensures s.cpu + j.cpu < 5.0 ==> r.cpu == 5.0
    ensures s.memory + j.memory > 90.0 ==> r.memory == 90.0
    ensures s.memory + j.memory < 10.0 ==> r.memory == 10.0
    ensures s.network + j.network > 50.0 ==> r.network == 50.0
    ensures s.network + j.network < 1.0 ==> r.network == 1.0
  {
    s.(cpu := Clamp(5.0, 95.0, s.cpu + j.cpu),
       memory := Clamp(10.0, 90.0, s.memory + j.memory),
       network := Clamp(1.0, 50.0, s.network + j.network),
       lastUpdate := "Just now")
  }

  /** Clamping never moves a reading that was in range further than its random term did:
      per tick cpu moves at most 5, memory at most 2.5 and network at most 4. */
  lemma UpdateMovesLittle(s: SystemStatus, j: Jitter)
    requires MetricsInRange(s) && JitterInRange(j)
    ensures -5.0 <= Updated(s, j).cpu - s.cpu <= 5.0
    ensures -2.5 <= Updated(s, j).memory - s.memory <= 2.5
    ensures -4.0 <= Updated(s, j).network - s.network <= 4.0
  {
  }

  /** The four machines as first rendered. */
  function InitialSystems(): (r: seq<SystemStatus>)
    ensures |r| == 4 && forall i :: 0 <= i < |r| ==> MetricsInRange(r[i])
  {
    [
      SystemStatus("Proxmox Host", Online, "15 days, 8 hours", 45.0, 67.0, 23.0, 12.0, "2 minutes ago"),
      SystemStatus("Docker Server", Online, "7 days, 12 hours", 28.0, 45.0, 18.0, 8.0, "1 minute ago"),
      SystemStatus("Monitoring Stack", Online, "30 days, 2 hours", 15.0, 32.0, 12.0, 5.0, "30 seconds ago"),
      SystemStatus("Backup Server", Warning, "2 days, 5 hours", 8.0, 25.0, 78.0, 3.0, "5 minutes ago")
    ]
  }

  /** The panel's state: the `systems` list and whether the 5000 ms interval is running. */
  class Dashboard {
    var systems: seq<SystemStatus>
    var intervalActive: bool

    /** Every reading lies in its clamp range. */
    ghost predicate Valid()
      reads this
    {
      forall i :: 0 <= i < |systems| ==> MetricsInRange(systems[i])
    }

    /** The mount: the initial list, and the effect starts the interval. */
    constructor ()
      ensures Valid()
      ensures systems == InitialSystems() && intervalActive
    {
      systems := InitialSystems();
      intervalActive := true;
    }

    /** One interval tick, given one random triple per system: every record is replaced by its
        update, in the same order; after unmount nothing changes. */
    method Tick(jitters: seq<Jitter>)
      requires Valid() && |jitters| == |systems|
      modifies this
      ensures Valid()
      ensures intervalActive == old(intervalActive)
      ensures old(intervalActive) ==> |systems| == |old(systems)|
      ensures old(intervalActive) ==> forall i :: 0 <= i < |systems| ==> systems[i] == Updated(old(systems)[i], jitters[i])
      ensures !old(intervalActive) ==> systems == old(systems)
    {
      if intervalActive {
        var prev := systems;
        systems := seq(|prev|, i requires 0 <= i < |prev| => Updated(prev[i], jitters[i]));
      }
    }

    /** Unmounting clears the interval. */
    method Teardown()
      requires Valid()
      modifies this
      ensures Valid()
      ensures !intervalActive && systems == old(systems)
    {
      intervalActive := false;
    }
  }

  /** `getStatusColor`: a switch over the status text with a grey default. */
  function StatusColor(status: string): (r: string)
    ensures r == "text-gray-400" <==> status !in {"online", "warning", "offline"}
  {
    match status
    case "online" => "text-green-400"
    case "warning" => "text-yellow-400"
    case "offline" => "text-red-400"
    case _ => "text-gray-400"
  }

  /** The three statuses a system can have get three different colours, none of them the default. */
  lemma StatusColorsDistinct(a: Status, b: Status)
    ensures StatusColor(StatusName(a)) != "text-gray-400"
    ensures StatusColor(StatusName(a)) == StatusColor(StatusName(b)) <==> a == b
    ensures StatusColor(StatusName(Online)) == "text-green-400"
    ensures StatusColor(StatusName(Warning)) == "text-yellow-400"
    ensures StatusColor(StatusName(Offline)) == "text-red-400"
  {
  }

  /** `getUsageColor`: green below 50, yellow from 50 up to but not including 80, red from 80. */
  function UsageColor(usage: real): (r: string)
    ensures r == "text-green-400" <==> usage < 50.0
    ensures r == "text-yellow-400" <==> 50.0 <= usage < 80.0
    ensures r == "text-red-400" <==> usage >= 80.0
  {
    if usage < 50.0 then "text-green-400"
    else if usage < 80.0 then "text-yellow-400"
    else "text-red-400"
  }

  /** How alarming a usage colour is: 0 green, 1 yellow, 2 red. */
  function Severity(colour: string): nat {
    if colour == "text-green-400" then 0 else if colour == "text-yellow-400" then 1 else 2
  }

  /** Higher usage never gets a calmer colour. */
  lemma UsageColorMonotone(a: real, b: real)
    requires a <= b
    ensures Severity(UsageColor(a)) <= Severity(UsageColor(b))
  {
  }
}
