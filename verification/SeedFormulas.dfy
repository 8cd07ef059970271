/** The index arithmetic that the seed and the load fixtures share. */
module SeedFormulas {
  import opened Schema

  datatype Profile = Profile(companies: nat, stations: nat, devices: nat, payments: nat)

  const D1 := Profile(10, 50, 500, 100_000)
  const D2 := Profile(50, 500, 5_000, 1_000_000)
  const D3 := Profile(500, 5_000, 50_000, 1_000_000)

  function Max(a: int, b: int): int {
    if a < b then b else a
  }

  // ---- db/seed/seed.py

  /** How many QR codes, and how many RF cards with a wallet. */
  function FixtureCount(p: Profile): int {
    Max(100, p.devices / 5)
  }

  /** How many executions, each with its command. */
  function CommandCount(p: Profile): int {
    Max(10, p.devices / 10)
  }

  /** The station of device, QR code or payment number `g`. */
  function StationOf(p: Profile, g: int): int
    requires p.stations > 0
  {
    (g - 1) % p.stations + 1
  }

  function CompanyOfStation(p: Profile, station: int): int
    requires p.companies > 0
  {
    (station - 1) % p.companies + 1
  }

  function CompanyOfCard(p: Profile, g: int): int
    requires p.companies > 0
  {
    (g - 1) % p.companies + 1
  }

  function CompanyOfProgram(g: int): int {
    (g - 1) / 3 + 1
  }

  function PriceOfProgram(g: int): int {
    1000 + ((g - 1) % 3) * 500
  }

  /** The only program a device of this station is entitled to. */
  function EntitledProgram(p: Profile, station: int): int
    requires p.companies > 0
  {
    (CompanyOfStation(p, station) - 1) * 3 + 1
  }

  function DeviceOfPayment(p: Profile, g: int): int
    requires p.devices > 0
  {
    (g - 1) % p.devices + 1
  }

  function ProgramOfPayment(p: Profile, g: int): int
    requires p.companies > 0 && p.stations > 0
  {
    (CompanyOfStation(p, StationOf(p, g)) - 1) * 3 + (g - 1) % 3 + 1
  }

  // ---- load/common.js

  function PaymentDeviceIdFor(p: Profile, vu: int, iter: int): int
    requires p.devices > CommandCount(p)
  {
    CommandCount(p) + 1 + (vu - 1 + iter) % (p.devices - CommandCount(p))
  }

  function StationProgramId(p: Profile, device: int): int
    requires p.companies > 0 && p.stations > 0
  {
    (CompanyOfStation(p, StationOf(p, device)) - 1) * 3 + 1
  }

  function ContentionIndex(p: Profile, requested: int): int {
    (Max(requested, 1) - 1) % FixtureCount(p) + 1
  }

  function ContentionDeviceId(p: Profile, requested: int): int {
    CommandCount(p) + ContentionIndex(p, requested)
  }

  // ---- the profiles for which the two sides meet

  predicate Fits(p: Profile) {
    && p.companies > 0 && p.stations > 0 && p.devices > 0
    && p.stations % p.companies == 0
    && p.devices % p.stations == 0
    && CommandCount(p) % p.stations == 0
    && CommandCount(p) + FixtureCount(p) <= p.devices
  }

  lemma TheProfilesFit()
    ensures Fits(D1) && Fits(D2) && Fits(D3)
  {
  }

  lemma QuotientIsUnique(x: int, m: int, q: int, r: int)
    requires m > 0 && 0 <= r < m && x == m * q + r
    ensures x / m == q && x % m == r
  {
    var d := q - x / m;
    assert m * d == x % m - r by {
      assert m * d == m * q - m * (x / m);
    }
  }

  /** Adding a multiple of `m` leaves the remainder. */
  lemma ModOfSum(x: int, m: int, n: int)
    requires m > 0 && n % m == 0
    ensures (n + x) % m == x % m
  {
    assert n == m * (n / m) && x == m * (x / m) + x % m;
    assert n + x == m * (n / m + x / m) + x % m;
    QuotientIsUnique(n + x, m, n / m + x / m, x % m);
  }

  /** A remainder modulo a multiple of `m` determines the remainder modulo `m`. */
  lemma ModOfMod(x: int, m: int, n: int)
    requires m > 0 && n > 0 && n % m == 0
    ensures (x % n) % m == x % m
  {
    var k := n / m;
    assert n == m * k && x == n * (x / n) + x % n;
    assert n * (x / n) == m * (k * (x / n)) by {
      Regroup(m, k, x / n);
    }
    QuotientIsUnique(m * (k * (x / n)), m, k * (x / n), 0);
    ModOfSum(x % n, m, m * (k * (x / n)));
  }

  lemma Regroup(a: int, b: int, c: int)
    ensures (a * b) * c == a * (b * c)
  {
  }

  /** The program a station's devices are entitled to belongs to the station's company and costs 1000. */
  lemma EntitledProgramFits(p: Profile, station: int)
    requires p.companies > 0
    ensures var g := EntitledProgram(p, station);
            1 <= g <= p.companies * 3 && CompanyOfProgram(g) == CompanyOfStation(p, station) && PriceOfProgram(g) == 1000
  {
  }

  /** A device whose number is a fixture's plus a multiple of the station count has the fixture's station and company. */
  lemma ShiftedFixture(p: Profile, index: int)
    requires Fits(p) && 1 <= index <= FixtureCount(p)
    ensures var device := CommandCount(p) + index;
            && CommandCount(p) < device <= p.devices
            && StationOf(p, device) == StationOf(p, index)
            && CompanyOfStation(p, StationOf(p, device)) == CompanyOfCard(p, index)
  {
    ModOfSum(index - 1, p.stations, CommandCount(p));
    ModOfMod(index - 1, p.companies, p.stations);
  }

  /** Every seeded execution is for a device of the busy prefix. */
  lemma BusyPrefix(p: Profile, g: int)
    requires Fits(p) && 1 <= g <= CommandCount(p)
    ensures DeviceOfPayment(p, g) == g
  {
    QuotientIsUnique(g - 1, p.devices, 0, g - 1);
  }

  /** Whatever index is asked for, the contention device is free of seeded executions and shares station and company
      with QR code and RF card of that index; the program it asks for is the one it is entitled to, at price 1000.  */
  lemma ContentionFixtureMatches(p: Profile, requested: int)
    requires Fits(p)
    ensures var index, device := ContentionIndex(p, requested), ContentionDeviceId(p, requested);
            && 1 <= index <= FixtureCount(p)
            && CommandCount(p) < device <= p.devices
            && (forall g | 1 <= g <= CommandCount(p) :: DeviceOfPayment(p, g) != device)
            && StationOf(p, device) == StationOf(p, index)
            && CompanyOfStation(p, StationOf(p, device)) == CompanyOfCard(p, index)
            && StationProgramId(p, device) == EntitledProgram(p, StationOf(p, device))
            && CompanyOfProgram(StationProgramId(p, device)) == CompanyOfStation(p, StationOf(p, device))
            && PriceOfProgram(StationProgramId(p, device)) == 1000
  {
    var index := ContentionIndex(p, requested);
    ShiftedFixture(p, index);
    EntitledProgramFits(p, StationOf(p, CommandCount(p) + index));
    forall g | 1 <= g <= CommandCount(p)
      ensures DeviceOfPayment(p, g) == g
    {
      BusyPrefix(p, g);
    }
  }

  /** The same for the devices of the card workload, for every virtual user and iteration. */
  lemma CardFixtureMatches(p: Profile, vu: int, iter: int)
    requires Fits(p) && vu >= 1 && iter >= 0
    ensures var device := PaymentDeviceIdFor(p, vu, iter);
            && CommandCount(p) < device <= p.devices
            && (forall g | 1 <= g <= CommandCount(p) :: DeviceOfPayment(p, g) != device)
            && StationProgramId(p, device) == EntitledProgram(p, StationOf(p, device))
            && CompanyOfProgram(StationProgramId(p, device)) == CompanyOfStation(p, StationOf(p, device))
            && PriceOfProgram(StationProgramId(p, device)) == 1000
  {
    EntitledProgramFits(p, StationOf(p, PaymentDeviceIdFor(p, vu, iter)));
    forall g | 1 <= g <= CommandCount(p)
      ensures DeviceOfPayment(p, g) == g
    {
      BusyPrefix(p, g);
    }
  }

  /** A seeded payment is stored under its device's station, with a program of that station's company. */
  lemma SeededPaymentIsConsistent(p: Profile, g: int)
    requires Fits(p) && g >= 1
    ensures StationOf(p, g) == StationOf(p, DeviceOfPayment(p, g))
    ensures CompanyOfProgram(ProgramOfPayment(p, g)) == CompanyOfStation(p, StationOf(p, g))
  {
    ModOfMod(g - 1, p.stations, p.devices);
    var c := CompanyOfStation(p, StationOf(p, g)) - 1;
    QuotientIsUnique(c * 3 + (g - 1) % 3, 3, c, (g - 1) % 3);
  }
}
