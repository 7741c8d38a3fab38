/** The synthetic row builder that seeds the `Machines` table
    (add_fake_db_mine.py). Each of `num_entries` rows is derived from one
    entry of a fixed table of machines chosen at random: the row gets a
    formatted identifier, copies the machine's name and type, takes a batch
    of random integers, and is stamped with a time that also becomes the
    chosen machine's new date.

    Randomness is an input: every row consumes one `Draw`. A draw from
    `randint(low, high)` is an arbitrary natural reduced into `[low, high)`,
    and `choice` an arbitrary natural reduced modulo the number of machines;
    both reach every value the library can return. Times are whole hours
    since `start_date` (2024-11-03 00:00:00). */
module FakeMineData {
  import opened Wrappers
  import opened TextFormat

  /** A point in time, in hours since `start_date`. */
  type Hours = int

  const StartDate: Hours := 0

  const NumEntries: nat := 4000

  /** The immutable part of one entry of `machine_data`. */
  datatype MachineSpec = MachineSpec(name: string, kind: string)

  /** The ten real machines the rows are drawn from. */
  const MachineTable: seq<MachineSpec> := [
    MachineSpec("CAT 797F", "Excavator"),
    MachineSpec("Komatsu PC8000", "Excavator"),
    MachineSpec("Volvo EC950F", "Excavator"),
    MachineSpec("Sandvik DD422i", "Drill"),
    MachineSpec("Caterpillar MD6310", "Drill"),
    MachineSpec("Joy Overland Conveyor", "Conveyor Belt"),
    MachineSpec("Fenner Dunlop Conveyor Systems", "Conveyor Belt"),
    MachineSpec("Liebherr T 284", "Loader"),
    MachineSpec("CAT 994K", "Loader"),
    MachineSpec("Sandvik LH621i", "Loader")
  ]

  /** One entry of `machine_data`: a dictionary whose `date` the builder
      overwrites in place. */
  class Machine {
    const name: string
    const kind: string
    var date: Hours

    constructor (name: string, kind: string, date: Hours)
      ensures this.name == name && this.kind == kind && this.date == date
    {
      this.name := name;
      this.kind := kind;
      this.date := date;
    }
  }

  predicate Distinct(machines: seq<Machine>) {
    forall i, j :: 0 <= i < j < |machines| ==> machines[i] != machines[j]
  }

  function Specs(machines: seq<Machine>): seq<MachineSpec> {
    seq(|machines|, k requires 0 <= k < |machines| => MachineSpec(machines[k].name, machines[k].kind))
  }

  /** The current `date` of every machine, in table order. */
  function DatesOf(machines: seq<Machine>): seq<Hours>
    reads machines
  {
    seq(|machines|, k requires 0 <= k < |machines| reads machines => machines[k].date)
  }

  /** The random inputs one row consumes. `fuel` stands for the rounded
      float `fuel_consumption` would hold; it is not interpreted. */
  datatype Draw = Draw(pick: nat, operatingHours: nat, fuel: real, load: nat,
                       maintenanceYes: bool, breakdowns: nat, alarms: nat, ore: nat)

  /** The integer, text and time columns of one `Machines` row. */
  datatype Row = Row(
    machineId: string,
    machineName: string,
    machineType: string,
    operatingHours: int,
    fuelConsumption: Option<real>,
    loadCapacityUtilization: int,
    maintenanceStatus: string,
    breakdownFrequency: int,
    safetyAlarmsTriggered: int,
    oreProcessed: int,
    createdAt: Hours)

  /** `np.random.randint(low, high)`: a value in the half-open range. */
  function RandInt(low: int, high: int, raw: nat): (r: int)
    requires low < high
    ensures low <= r < high
  {
    low + raw % (high - low)
  }

  /** Every value of the range is some draw's result, so the model of
      `randint` loses none of the library's outcomes. */
  lemma {:induction false} RandIntCovers(low: int, high: int, v: int)
    requires low <= v < high
    ensures RandInt(low, high, v - low) == v
  {
  }

  /** `np.random.choice` over `n` entries: the index of the chosen one. */
  function Choose(n: nat, raw: nat): (k: nat)
    requires n > 0
    ensures k < n
  {
    raw % n
  }

  /** Every index is some draw's pick, so the model of `choice` loses none
      of the library's outcomes. */
  lemma {:induction false} ChooseCovers(n: nat, k: nat)
    requires k < n
    ensures Choose(n, k) == k
  {
  }

  /** `f"{type[:2].upper()}{str(n).zfill(4)}"`; what it promises is stated
      by `MachineIdParts`, `MachineIdInjective` and `MachineIdLength`. */
  function MachineId(kind: string, n: nat): string {
    Upper(Take(kind, 2)) + ZFill(DecimalString(n), 4)
  }

  /** The identifier splits into the upper-cased two-letter type prefix and
      a digit string that reads back as the row number. */
  lemma {:induction false} MachineIdParts(kind: string, n: nat)
    requires |kind| >= 2
    ensures |MachineId(kind, n)| >= 6
    ensures MachineId(kind, n)[..2] == Upper(kind[..2])
    ensures AllDigits(MachineId(kind, n)[2..])
    ensures ParseDecimal(MachineId(kind, n)[2..]) == n
  {
    var id := MachineId(kind, n);
    assert id[2..] == ZFill(DecimalString(n), 4);
    ZFillParse(n, 4);
  }

  /** Two identifiers built from types of at least two characters are
      equal only for the same row number: the PRIMARY KEY cannot clash. */
  lemma {:induction false} MachineIdInjective(kind1: string, n1: nat, kind2: string, n2: nat)
    requires |kind1| >= 2 && |kind2| >= 2
    requires MachineId(kind1, n1) == MachineId(kind2, n2)
    ensures n1 == n2
  {
    MachineIdParts(kind1, n1);
    MachineIdParts(kind2, n2);
  }

  /** Row numbers up to 9999 give identifiers of exactly six characters. */
  lemma {:induction false} MachineIdLength(kind: string, n: nat)
    requires |kind| >= 2 && n < 10000
    ensures |MachineId(kind, n)| == 6
  {
    DecimalStringLength(n, 4);
  }

  /** The row built for index `i` from machine `spec`, stamped `createdAt`. */
  function NewRow(spec: MachineSpec, i: nat, createdAt: Hours, d: Draw): (row: Row)
    ensures row.machineId == MachineId(spec.kind, i + 1)
    ensures row.machineName == spec.name && row.machineType == spec.kind
    ensures row.createdAt == createdAt
    ensures row.fuelConsumption == None <==> spec.kind == "Conveyor Belt"
    ensures 100 <= row.operatingHours <= 9999
    ensures 50 <= row.loadCapacityUtilization <= 100
    ensures row.maintenanceStatus in {"Yes", "No"}
    ensures 0 <= row.breakdownFrequency <= 10
    ensures 0 <= row.safetyAlarmsTriggered <= 5
    ensures 100 <= row.oreProcessed <= 1000
  {
    Row(MachineId(spec.kind, i + 1), spec.name, spec.kind,
        RandInt(100, 10000, d.operatingHours),
        if spec.kind != "Conveyor Belt" then Some(d.fuel) else None,
        RandInt(50, 101, d.load),
        if d.maintenanceYes then "Yes" else "No",
        RandInt(0, 11, d.breakdowns),
        RandInt(0, 6, d.alarms),
        RandInt(100, 1001, d.ore),
        createdAt)
  }

  /** The index of the machine row `d` chooses. */
  function Pick(specs: seq<MachineSpec>, d: Draw): (m: nat)
    requires |specs| > 0
    ensures m < |specs|
  {
    Choose(|specs|, d.pick)
  }

  /** The machines' dates after the rows of `draws` (numbered from 0) have
      been built, starting from `dates0`. */
  function DatesAfter(specs: seq<MachineSpec>, dates0: seq<Hours>, draws: seq<Draw>): (dates: seq<Hours>)
    requires |specs| > 0 && |dates0| == |specs|
    ensures |dates| == |specs|
    decreases |draws|
  {
    if draws == [] then dates0
    else
      var i := |draws| - 1;
      var before := DatesAfter(specs, dates0, draws[..i]);
      var m := Pick(specs, draws[i]);
      before[m := before[m] + i]
  }

  /** The time row `i` is stamped with: the chosen machine's date before
      row `i`, plus `i` hours. */
  function CreatedAt(specs: seq<MachineSpec>, dates0: seq<Hours>, draws: seq<Draw>, i: nat): Hours
    requires |specs| > 0 && |dates0| == |specs| && i < |draws|
  {
    DatesAfter(specs, dates0, draws[..i])[Pick(specs, draws[i])] + i
  }

  /** Row `i` of the output: built from the machine draw `i` chooses. */
  function RowAt(specs: seq<MachineSpec>, dates0: seq<Hours>, draws: seq<Draw>, i: nat): Row
    requires |specs| > 0 && |dates0| == |specs| && i < |draws|
  {
    NewRow(specs[Pick(specs, draws[i])], i, CreatedAt(specs, dates0, draws, i), draws[i])
  }

  /** Building row `i` moves the chosen machine's date forward to the row's
      time (strictly, after row 0) and leaves every other machine's date
      alone. */
  lemma {:induction false} DateUpdate(specs: seq<MachineSpec>, dates0: seq<Hours>, draws: seq<Draw>, i: nat)
    requires |specs| > 0 && |dates0| == |specs| && i < |draws|
    ensures var m := Pick(specs, draws[i]);
            var before := DatesAfter(specs, dates0, draws[..i]);
            var after := DatesAfter(specs, dates0, draws[..i + 1]);
            && after[m] == CreatedAt(specs, dates0, draws, i)
            && before[m] <= after[m]
            && (i > 0 ==> before[m] < after[m])
            && (forall k :: 0 <= k < |specs| && k != m ==> after[k] == before[k])
  {
    assert draws[..i + 1][..i] == draws[..i];
  }

  /** Dates never move backwards as more rows are built. */
  lemma {:induction false} DatesMonotone(specs: seq<MachineSpec>, dates0: seq<Hours>, draws: seq<Draw>, j: nat, i: nat, k: nat)
    requires |specs| > 0 && |dates0| == |specs|
    requires j <= i <= |draws| && k < |specs|
    ensures DatesAfter(specs, dates0, draws[..j])[k] <= DatesAfter(specs, dates0, draws[..i])[k]
    decreases i - j
  {
    if j < i {
      DatesMonotone(specs, dates0, draws, j, i - 1, k);
      assert draws[..i][..i - 1] == draws[..i - 1];
    }
  }

  /** Per machine, times strictly increase in row order: a later row that
      chooses the same machine is stamped strictly later. */
  lemma {:induction false} CreatedAtIncreasing(specs: seq<MachineSpec>, dates0: seq<Hours>, draws: seq<Draw>, j: nat, i: nat)
    requires |specs| > 0 && |dates0| == |specs|
    requires j < i < |draws| && Pick(specs, draws[j]) == Pick(specs, draws[i])
    ensures CreatedAt(specs, dates0, draws, j) < CreatedAt(specs, dates0, draws, i)
  {
    var m := Pick(specs, draws[i]);
    DateUpdate(specs, dates0, draws, j);
    DatesMonotone(specs, dates0, draws, j + 1, i, m);
  }

  /** Sum of the indices of the rows of `draws` that choose machine `k`. */
  function IndexSum(specs: seq<MachineSpec>, draws: seq<Draw>, k: nat): nat
    requires |specs| > 0
    decreases |draws|
  {
    if draws == [] then 0
    else
      var i := |draws| - 1;
      IndexSum(specs, draws[..i], k) + (if Pick(specs, draws[i]) == k then i else 0)
  }

  /** Closed form of the chain: a machine's date is its starting date plus
      the indices of all rows that chose it so far. */
  lemma {:induction false} DatesAfterSum(specs: seq<MachineSpec>, dates0: seq<Hours>, draws: seq<Draw>, k: nat)
    requires |specs| > 0 && |dates0| == |specs| && k < |specs|
    ensures DatesAfter(specs, dates0, draws)[k] == dates0[k] + IndexSum(specs, draws, k)
    decreases |draws|
  {
    if draws != [] {
      DatesAfterSum(specs, dates0, draws[..|draws| - 1], k);
    }
  }

  /** The loop of add_fake_db_mine.py:65-91: builds one row per draw and
      overwrites the chosen machine's date with the row's time. */
  method BuildRows(machines: seq<Machine>, numEntries: nat, draws: seq<Draw>) returns (data: seq<Row>)
    requires |machines| > 0 && Distinct(machines)
    requires |draws| == numEntries
    modifies machines
    ensures |data| == numEntries
    ensures forall i :: 0 <= i < numEntries ==> data[i] == RowAt(Specs(machines), old(DatesOf(machines)), draws, i)
    ensures DatesOf(machines) == DatesAfter(Specs(machines), old(DatesOf(machines)), draws)
  {
    ghost var specs := Specs(machines);
    ghost var dates0 := DatesOf(machines);
    data := [];
    for i := 0 to numEntries
      invariant |data| == i
      invariant forall k :: 0 <= k < i ==> data[k] == RowAt(specs, dates0, draws, k)
      invariant DatesOf(machines) == DatesAfter(specs, dates0, draws[..i])
    {
      var d := draws[i];
      var machine := machines[Choose(|machines|, d.pick)];
      var createdAt := machine.date + i;
      assert createdAt == CreatedAt(specs, dates0, draws, i);
      machine.date := createdAt;
      var row := NewRow(MachineSpec(machine.name, machine.kind), i, createdAt, d);
      assert row == RowAt(specs, dates0, draws, i);
      data := data + [row];
      DateUpdate(specs, dates0, draws, i);
    }
    assert draws[..numEntries] == draws;
  }

  /** `machine_data` as the script declares it: every date is `start_date`. */
  method NewMachineData() returns (machines: seq<Machine>)
    ensures Distinct(machines) && fresh(set m | m in machines)
    ensures Specs(machines) == MachineTable
    ensures DatesOf(machines) == InitialDates()
  {
    machines := [];
    for k := 0 to |MachineTable|
      invariant |machines| == k && Distinct(machines) && fresh(set m | m in machines)
      invariant forall j :: 0 <= j < k ==> MachineSpec(machines[j].name, machines[j].kind) == MachineTable[j]
      invariant forall j :: 0 <= j < k ==> machines[j].date == StartDate
    {
      var machine := new Machine(MachineTable[k].name, MachineTable[k].kind, StartDate);
      machines := machines + [machine];
    }
  }

  function InitialDates(): seq<Hours> {
    seq(|MachineTable|, _ => StartDate)
  }

  /** Every type in the table has at least two characters, and its
      upper-cased prefix is one of four codes. */
  lemma {:induction false} TablePrefixes(k: nat)
    requires k < |MachineTable|
    ensures |MachineTable[k].kind| >= 2
    ensures Upper(MachineTable[k].kind[..2]) in {"EX", "DR", "CO", "LO"}
  {
    var kind := MachineTable[k].kind;
    assert kind == "Excavator" || kind == "Drill" || kind == "Conveyor Belt" || kind == "Loader";
    var code := Upper(kind[..2]);
    assert code == [UpperChar(kind[0]), UpperChar(kind[1])];
  }

  /** The whole script's rows for 4000 draws: identifiers of six characters
      with a known prefix, pairwise distinct, each row the one the loop
      builds for its index. */
  method GenerateMineData(draws: seq<Draw>) returns (data: seq<Row>)
    requires |draws| == NumEntries
    ensures |data| == NumEntries
    ensures forall i :: 0 <= i < NumEntries ==> data[i] == RowAt(MachineTable, InitialDates(), draws, i)
    ensures forall i :: 0 <= i < |data| ==>
              |data[i].machineId| == 6 && data[i].machineId[..2] in {"EX", "DR", "CO", "LO"}
    ensures forall i, j :: 0 <= i < j < |data| ==> data[i].machineId != data[j].machineId
  {
    var machines := NewMachineData();
    data := BuildRows(machines, NumEntries, draws);
    forall i | 0 <= i < |data|
      ensures |data[i].machineId| == 6 && data[i].machineId[..2] in {"EX", "DR", "CO", "LO"}
    {
      var m := Pick(MachineTable, draws[i]);
      TablePrefixes(m);
      MachineIdLength(MachineTable[m].kind, i + 1);
      MachineIdParts(MachineTable[m].kind, i + 1);
    }
    forall i, j | 0 <= i < j < |data|
      ensures data[i].machineId != data[j].machineId
    {
      var m1 := Pick(MachineTable, draws[i]);
      var m2 := Pick(MachineTable, draws[j]);
      TablePrefixes(m1);
      TablePrefixes(m2);
      if data[i].machineId == data[j].machineId {
        MachineIdInjective(MachineTable[m1].kind, i + 1, MachineTable[m2].kind, j + 1);
      }
    }
  }
}
