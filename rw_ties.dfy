/** The tie file of lib/rw-ties.cpp: the key=value reader `toml_to_tie`, the
    key scheme of the writer `tie_to_toml`, and the formula lines of
    `write_report`.

    The reader ignores section headers and works by key alone. Numbers are
    read with std::stof, given as a parameter (None where it throws
    std::invalid_argument); timestamps with str_to_tm and my_timegm. */
module RwTies {
  import opened Wrappers
  import opened Decimal
  import opened TextLines
  import opened TieStructs
  import opened TimeFunctions
  import RwGeneral
  import LandTie
  import BiasComputation

  /** An index into one of the tie's three-element vectors. */
  type Index = k: nat | k < 3

  /** The occupation groups, and the water heights, by their key letter. */
  datatype Group = GroupA | GroupB | GroupC | GroupH

  datatype TextField = Ship | AltShip | Station | AltStation | Meter | AltMeter | CalFile | Personnel

  datatype NumberField = StationGravity | LandTieValue | ShipLon | ShipLat | ShipElev | MeterTemp
                       | DriftValue | Bias | WaterGrav | AvgDgsGrav | AvgHeight

  /** Where the value of a key goes. */
  datatype Slot =
    | TextSlot(text: TextField)
    | LandtieSlot
    | NumberSlot(number: NumberField)
    | MgalAverageSlot(avg: Index)
    | CountSlot(cgroup: Group, ck: Index)     // `.c`, and `.h` for heights: the `h1` field
    | MgalSlot(mgroup: Group, mk: Index)      // `.m`: the `m1` field
    | StampSlot(prefix: string)               // characters 2 and 3 are `.t`
    | NoSlot

  /** The keys the reader compares against, one `if (key == ...)` each. The
      comparisons are grouped by the key's length and, for four-character
      keys, by its last character; every key compared inside a group has
      that length and character, so the groups hold the source's chain. */
  function KeySlot(key: string): Option<Slot>
  {
    if |key| == 4 then
      if key[3] == 'c' then CountKeySlot(key)
      else if key[3] == 'm' then MgalKeySlot(key)
      else if key[3] == 'h' then HeightKeySlot(key)
      else if key == "bias" then Some(NumberSlot(Bias))
      else None
    else NamedKeySlot(key)
  }

  /** The named keys, by length. */
  function NamedKeySlot(key: string): Option<Slot>
  {
    if |key| == 5 then
      if key == "meter" then Some(TextSlot(Meter))
      else if key == "drift" then Some(NumberSlot(DriftValue))
      else None
    else if |key| == 7 then
      if key == "landtie" then Some(LandtieSlot)
      else None
    else if |key| == 8 then
      if key == "ship_lon" then Some(NumberSlot(ShipLon))
      else if key == "ship_lat" then Some(NumberSlot(ShipLat))
      else if key == "aa.m_avg" then Some(MgalAverageSlot(0))
      else if key == "bb.m_avg" then Some(MgalAverageSlot(1))
      else if key == "cc.m_avg" then Some(MgalAverageSlot(2))
      else None
    else if |key| == 9 then
      if key == "ship_name" then Some(TextSlot(Ship))
      else if key == "alt_meter" then Some(TextSlot(AltMeter))
      else if key == "personnel" then Some(TextSlot(Personnel))
      else if key == "ship_elev" then Some(NumberSlot(ShipElev))
      else None
    else if |key| == 10 then
      if key == "meter_temp" then Some(NumberSlot(MeterTemp))
      else if key == "water_grav" then Some(NumberSlot(WaterGrav))
      else if key == "avg_height" then Some(NumberSlot(AvgHeight))
      else None
    else if |key| == 12 then
      if key == "station_name" then Some(TextSlot(Station))
      else if key == "avg_dgs_grav" then Some(NumberSlot(AvgDgsGrav))
      else None
    else if |key| == 13 then
      if key == "alt_ship_name" then Some(TextSlot(AltShip))
      else if key == "cal_file_path" then Some(TextSlot(CalFile))
      else None
    else if |key| == 14 then
      if key == "land_tie_value" then Some(NumberSlot(LandTieValue))
      else None
    else if |key| == 15 then
      if key == "station_gravity" then Some(NumberSlot(StationGravity))
      else None
    else if |key| == 16 then
      if key == "alt_station_name" then Some(TextSlot(AltStation))
      else None
    else None
  }

  function CountKeySlot(key: string): Option<Slot>
  {
    if key == "a1.c" then Some(CountSlot(GroupA, 0))
    else if key == "a2.c" then Some(CountSlot(GroupA, 1))
    else if key == "a3.c" then Some(CountSlot(GroupA, 2))
    else if key == "b1.c" then Some(CountSlot(GroupB, 0))
    else if key == "b2.c" then Some(CountSlot(GroupB, 1))
    else if key == "b3.c" then Some(CountSlot(GroupB, 2))
    else if key == "c1.c" then Some(CountSlot(GroupC, 0))
    else if key == "c2.c" then Some(CountSlot(GroupC, 1))
    else if key == "c3.c" then Some(CountSlot(GroupC, 2))
    else None
  }

  function MgalKeySlot(key: string): Option<Slot>
  {
    if key == "a1.m" then Some(MgalSlot(GroupA, 0))
    else if key == "a2.m" then Some(MgalSlot(GroupA, 1))
    else if key == "a3.m" then Some(MgalSlot(GroupA, 2))
    else if key == "b1.m" then Some(MgalSlot(GroupB, 0))
    else if key == "b2.m" then Some(MgalSlot(GroupB, 1))
    else if key == "b3.m" then Some(MgalSlot(GroupB, 2))
    else if key == "c1.m" then Some(MgalSlot(GroupC, 0))
    else if key == "c2.m" then Some(MgalSlot(GroupC, 1))
    else if key == "c3.m" then Some(MgalSlot(GroupC, 2))
    else None
  }

  function HeightKeySlot(key: string): Option<Slot>
  {
    if key == "h1.h" then Some(CountSlot(GroupH, 0))
    else if key == "h2.h" then Some(CountSlot(GroupH, 1))
    else if key == "h3.h" then Some(CountSlot(GroupH, 2))
    else None
  }

  /** The key of each text field, as the writer prints it. */
  function TextKey(f: TextField): string
  {
    match f
    case Ship => "ship_name"
    case AltShip => "alt_ship_name"
    case Station => "station_name"
    case AltStation => "alt_station_name"
    case Meter => "meter"
    case AltMeter => "alt_meter"
    case CalFile => "cal_file_path"
    case Personnel => "personnel"
  }

  /** The key of each number field, as the writer prints it. */
  function NumberKey(f: NumberField): string
  {
    match f
    case StationGravity => "station_gravity"
    case LandTieValue => "land_tie_value"
    case ShipLon => "ship_lon"
    case ShipLat => "ship_lat"
    case ShipElev => "ship_elev"
    case MeterTemp => "meter_temp"
    case DriftValue => "drift"
    case Bias => "bias"
    case WaterGrav => "water_grav"
    case AvgDgsGrav => "avg_dgs_grav"
    case AvgHeight => "avg_height"
  }

  /** Where a timestamp goes, by the first two characters of its key. */
  datatype Target = ReadingTime(tgroup: Group, tk: Index) | AverageTime(ak: Index) | Nowhere

  /** The slot of a key; None for a key shorter than two characters, where
      `key.substr(2, 2)` throws std::out_of_range. */
  function SlotOf(key: string): Option<Slot>
  {
    if KeySlot(key).Some? then KeySlot(key)
    else if |key| < 2 then None
    else if |key| >= 4 && key[2..4] == ".t" then Some(StampSlot(key[..2]))
    else Some(NoSlot)
  }

  function RouteOf(prefix: string): Target
  {
    if prefix == "a1" then ReadingTime(GroupA, 0)
    else if prefix == "a2" then ReadingTime(GroupA, 1)
    else if prefix == "a3" then ReadingTime(GroupA, 2)
    else if prefix == "b1" then ReadingTime(GroupB, 0)
    else if prefix == "b2" then ReadingTime(GroupB, 1)
    else if prefix == "b3" then ReadingTime(GroupB, 2)
    else if prefix == "c1" then ReadingTime(GroupC, 0)
    else if prefix == "c2" then ReadingTime(GroupC, 1)
    else if prefix == "c3" then ReadingTime(GroupC, 2)
    else if prefix == "h1" then ReadingTime(GroupH, 0)
    else if prefix == "h2" then ReadingTime(GroupH, 1)
    else if prefix == "h3" then ReadingTime(GroupH, 2)
    else if prefix == "aa" then AverageTime(0)
    else if prefix == "bb" then AverageTime(1)
    else if prefix == "cc" then AverageTime(2)
    else Nowhere
  }

  // ---------------------------------------------------------------------
  // Field updates

  function GroupOf(s: TieState, g: Group): seq<ValTime>
  {
    match g
    case GroupA => s.acounts
    case GroupB => s.bcounts
    case GroupC => s.ccounts
    case GroupH => s.heights
  }

  function WithGroup(s: TieState, g: Group, v: seq<ValTime>): (r: TieState)
    ensures GroupOf(r, g) == v
  {
    match g
    case GroupA => s.(acounts := v)
    case GroupB => s.(bcounts := v)
    case GroupC => s.(ccounts := v)
    case GroupH => s.(heights := v)
  }

  function SetText(s: TieState, f: TextField, v: string): (r: TieState)
    ensures ShapeOk(s) ==> ShapeOk(r)
  {
    match f
    case Ship => s.(shinfo := s.shinfo.(ship := v))
    case AltShip => s.(shinfo := s.shinfo.(altShip := v))
    case Station => s.(stinfo := s.stinfo.(station := v))
    case AltStation => s.(stinfo := s.stinfo.(altStation := v))
    case Meter => s.(lminfo := s.lminfo.(meter := v))
    case AltMeter => s.(lminfo := s.lminfo.(altMeter := v))
    case CalFile => s.(lminfo := s.lminfo.(calFilePath := v))
    case Personnel => s.(prinfo := s.prinfo.(personnel := v))
  }

  function SetNumber(s: TieState, f: NumberField, x: real): (r: TieState)
    ensures ShapeOk(s) ==> ShapeOk(r)
  {
    match f
    case StationGravity => s.(stinfo := s.stinfo.(stationGravity := x))
    case LandTieValue => s.(lminfo := s.lminfo.(landTieValue := x))
    case ShipLon => s.(lminfo := s.lminfo.(shipLon := x))
    case ShipLat => s.(lminfo := s.lminfo.(shipLat := x))
    case ShipElev => s.(lminfo := s.lminfo.(shipElev := x))
    case MeterTemp => s.(lminfo := s.lminfo.(meterTemp := x))
    case DriftValue => s.(drift := x)
    case Bias => s.(bias := x)
    case WaterGrav => s.(waterGrav := x)
    case AvgDgsGrav => s.(avgDgsGrav := x)
    case AvgHeight => s.(avgHeight := x)
  }

  /** The k-th reading of a group with one of its fields replaced. */
  function SetReading(s: TieState, g: Group, k: Index, v: ValTime): (r: TieState)
    requires ShapeOk(s)
    ensures ShapeOk(r)
  {
    WithGroup(s, g, GroupOf(s, g)[k := v])
  }

  /** What the reader has built so far: the tie, and the local vectors
      `mgal_a` and `tmgal_a` that replace the averages at the end. */
  datatype TomlReader = TomlReader(tie: TieState, mgalA: seq<real>, tmgalA: seq<int>)

  predicate ReaderShape(rd: TomlReader)
  {
    ShapeOk(rd.tie) && |rd.mgalA| == 3 && |rd.tmgalA| == 3
  }

  /** `mgal_a{-999,-999,-999}` and `tmgal_a{-999,-999,-999}`. */
  function StartToml(s: TieState): TomlReader
  {
    TomlReader(s, [UnsetReal, UnsetReal, UnsetReal], [Unset, Unset, Unset])
  }

  /** Keys whose value is read with std::stof. */
  predicate IsNumeric(slot: Slot)
  {
    slot.NumberSlot? || slot.MgalAverageSlot? || slot.CountSlot? || slot.MgalSlot?
  }

  /** The assignment of a number read for a numeric key. */
  function StoreNumber(rd: TomlReader, slot: Slot, x: real): (r: TomlReader)
    requires ReaderShape(rd) && IsNumeric(slot)
    ensures ReaderShape(r)
  {
    match slot
    case NumberSlot(f) => rd.(tie := SetNumber(rd.tie, f, x))
    case MgalAverageSlot(k) => rd.(mgalA := rd.mgalA[k := x])
    case CountSlot(g, k) => rd.(tie := SetReading(rd.tie, g, k, GroupOf(rd.tie, g)[k].(h1 := x)))
    case MgalSlot(g, k) => rd.(tie := SetReading(rd.tie, g, k, GroupOf(rd.tie, g)[k].(m1 := x)))
  }

  /** The assignment of a timestamp, by the first two characters of its key. */
  function StoreStamp(rd: TomlReader, prefix: string, secs: int): (r: TomlReader)
    requires ReaderShape(rd)
    ensures ReaderShape(r)
  {
    match RouteOf(prefix)
    case ReadingTime(g, k) => rd.(tie := SetReading(rd.tie, g, k, GroupOf(rd.tie, g)[k].(t1 := secs)))
    case AverageTime(k) => rd.(tmgalA := rd.tmgalA[k := secs])
    case Nowhere => rd
  }

  /** The assignment one key makes. */
  function ApplySlot(rd: TomlReader, slot: Slot, value: string, stof: string -> Option<real>): (r: Result<TomlReader, string>)
    requires ReaderShape(rd)
    ensures r.Ok? ==> ReaderShape(r.value)
  {
    if IsNumeric(slot) then
      match stof(value)
      case None => Err("invalid_argument")
      case Some(x) => Ok(StoreNumber(rd, slot, x))
    else
      match slot
      case TextSlot(f) => Ok(rd.(tie := SetText(rd.tie, f, value)))
      case LandtieSlot =>
        if value == "true" then Ok(rd.(tie := rd.tie.(lminfo := rd.tie.lminfo.(landtie := true))))
        else if value == "false" then Ok(rd.(tie := rd.tie.(lminfo := rd.tie.lminfo.(landtie := false))))
        else Ok(rd)
      case StampSlot(p) =>
        var t := StrToTm(value, 2);
        if !MonthIndexDefined(t) then Err("month index out of range")
        else Ok(StoreStamp(rd, p, MyTimegm(t)))
      case NoSlot => Ok(rd)
  }

  /** One line: empty lines, `[...]` lines and lines without `=` are skipped. */
  function ApplyLine(rd: TomlReader, line: string, stof: string -> Option<real>): (r: Result<TomlReader, string>)
    requires ReaderShape(rd)
    ensures r.Ok? ==> ReaderShape(r.value)
  {
    if line == [] || RwGeneral.IsHeader(line) then Ok(rd)
    else
      match SplitKeyValue(line)
      case None => Ok(rd)
      case Some(kv) =>
        match SlotOf(kv.0)
        case None => Err("out_of_range")
        case Some(slot) => ApplySlot(rd, slot, kv.1, stof)
  }

  function TomlFrom(rd: TomlReader, lines: seq<string>, stof: string -> Option<real>): (r: Result<TomlReader, string>)
    requires ReaderShape(rd)
    ensures r.Ok? ==> ReaderShape(r.value)
    decreases |lines|
  {
    if lines == [] then Ok(rd)
    else
      match TomlFrom(rd, lines[..|lines| - 1], stof)
      case Err(e) => Err(e)
      case Ok(r) => ApplyLine(r, lines[|lines| - 1], stof)
  }

  /** `toml_to_tie`: a file that cannot be opened leaves the tie as it is;
      otherwise every line is applied and the averages are replaced by the
      values read, -999 where a key was missing. */
  function TomlOf(s: TieState, file: RwGeneral.File, stof: string -> Option<real>): (r: Result<TieState, string>)
    requires ShapeOk(s)
    ensures r.Ok? ==> ShapeOk(r.value)
  {
    match file
    case None => Ok(s)
    case Some(lines) =>
      match TomlFrom(StartToml(s), lines, stof)
      case Err(e) => Err(e)
      case Ok(rd) => Ok(rd.tie.(mgalAverages := rd.mgalA, tAverages := rd.tmgalA))
  }

  // ---------------------------------------------------------------------
  // The reader as the source runs it: fields of the tie written in place

  method WriteText(gravtie: Tie, f: TextField, v: string)
    modifies gravtie
    ensures gravtie.State() == SetText(old(gravtie.State()), f, v)
  {
    match f {
      case Ship => gravtie.shinfo := gravtie.shinfo.(ship := v);
      case AltShip => gravtie.shinfo := gravtie.shinfo.(altShip := v);
      case Station => gravtie.stinfo := gravtie.stinfo.(station := v);
      case AltStation => gravtie.stinfo := gravtie.stinfo.(altStation := v);
      case Meter => gravtie.lminfo := gravtie.lminfo.(meter := v);
      case AltMeter => gravtie.lminfo := gravtie.lminfo.(altMeter := v);
      case CalFile => gravtie.lminfo := gravtie.lminfo.(calFilePath := v);
      case Personnel => gravtie.prinfo := gravtie.prinfo.(personnel := v);
    }
  }

  method WriteNumber(gravtie: Tie, f: NumberField, x: real)
    modifies gravtie
    ensures gravtie.State() == SetNumber(old(gravtie.State()), f, x)
  {
    match f {
      case StationGravity => gravtie.stinfo := gravtie.stinfo.(stationGravity := x);
      case LandTieValue => gravtie.lminfo := gravtie.lminfo.(landTieValue := x);
      case ShipLon => gravtie.lminfo := gravtie.lminfo.(shipLon := x);
      case ShipLat => gravtie.lminfo := gravtie.lminfo.(shipLat := x);
      case ShipElev => gravtie.lminfo := gravtie.lminfo.(shipElev := x);
      case MeterTemp => gravtie.lminfo := gravtie.lminfo.(meterTemp := x);
      case DriftValue => gravtie.drift := x;
      case Bias => gravtie.bias := x;
      case WaterGrav => gravtie.waterGrav := x;
      case AvgDgsGrav => gravtie.avgDgsGrav := x;
      case AvgHeight => gravtie.avgHeight := x;
    }
  }

  /** `gravtie->acounts[k].h1 = ...` and the like. */
  method WriteReading(gravtie: Tie, g: Group, k: Index, v: ValTime)
    requires ShapeOk(gravtie.State())
    modifies gravtie
    ensures gravtie.State() == SetReading(old(gravtie.State()), g, k, v)
  {
    match g {
      case GroupA => gravtie.acounts := gravtie.acounts[k := v];
      case GroupB => gravtie.bcounts := gravtie.bcounts[k := v];
      case GroupC => gravtie.ccounts := gravtie.ccounts[k := v];
      case GroupH => gravtie.heights := gravtie.heights[k := v];
    }
  }

  method StoreNumberTo(gravtie: Tie, slot: Slot, x: real, mgalA: seq<real>, tmgalA: seq<int>) returns (mgalA': seq<real>)
    requires ReaderShape(TomlReader(gravtie.State(), mgalA, tmgalA)) && IsNumeric(slot)
    modifies gravtie
    ensures StoreNumber(TomlReader(old(gravtie.State()), mgalA, tmgalA), slot, x) == TomlReader(gravtie.State(), mgalA', tmgalA)
  {
    mgalA' := mgalA;
    match slot {
      case NumberSlot(f) => WriteNumber(gravtie, f, x);
      case MgalAverageSlot(k) => mgalA' := mgalA'[k := x];
      case CountSlot(g, k) => WriteReading(gravtie, g, k, GroupOf(gravtie.State(), g)[k].(h1 := x));
      case MgalSlot(g, k) => WriteReading(gravtie, g, k, GroupOf(gravtie.State(), g)[k].(m1 := x));
    }
  }

  method StoreStampTo(gravtie: Tie, prefix: string, secs: int, mgalA: seq<real>, tmgalA: seq<int>) returns (tmgalA': seq<int>)
    requires ReaderShape(TomlReader(gravtie.State(), mgalA, tmgalA))
    modifies gravtie
    ensures StoreStamp(TomlReader(old(gravtie.State()), mgalA, tmgalA), prefix, secs) == TomlReader(gravtie.State(), mgalA, tmgalA')
  {
    tmgalA' := tmgalA;
    var target := RouteOf(prefix);
    match target {
      case ReadingTime(g, k) => WriteReading(gravtie, g, k, GroupOf(gravtie.State(), g)[k].(t1 := secs));
      case AverageTime(k) => tmgalA' := tmgalA'[k := secs];
      case Nowhere =>
    }
  }

  /** The assignments of one key=value line. */
  method ApplySlotTo(gravtie: Tie, slot: Slot, value: string, mgalA: seq<real>, tmgalA: seq<int>, stof: string -> Option<real>)
    returns (r: Result<TomlReader, string>, mgalA': seq<real>, tmgalA': seq<int>)
    requires ReaderShape(TomlReader(gravtie.State(), mgalA, tmgalA))
    modifies gravtie
    ensures r == ApplySlot(TomlReader(old(gravtie.State()), mgalA, tmgalA), slot, value, stof)
    ensures r.Ok? ==> r.value == TomlReader(gravtie.State(), mgalA', tmgalA')
  {
    mgalA', tmgalA' := mgalA, tmgalA;
    if IsNumeric(slot) {
      var x := stof(value);
      if x.None? {
        return Err("invalid_argument"), mgalA', tmgalA';
      }
      mgalA' := StoreNumberTo(gravtie, slot, x.value, mgalA, tmgalA);
    } else {
      match slot {
        case TextSlot(f) =>
          WriteText(gravtie, f, value);
        case LandtieSlot =>
          if value == "true" {
            gravtie.lminfo := gravtie.lminfo.(landtie := true);
          }
          if value == "false" {
            gravtie.lminfo := gravtie.lminfo.(landtie := false);
          }
        case StampSlot(p) =>
          var timestamp := StrToTm(value, 2);
          if !MonthIndexDefined(timestamp) {
            return Err("month index out of range"), mgalA', tmgalA';
          }
          var outtime := MyTimegm(timestamp);
          tmgalA' := StoreStampTo(gravtie, p, outtime, mgalA, tmgalA);
        case NoSlot =>
      }
    }
    r := Ok(TomlReader(gravtie.State(), mgalA', tmgalA'));
  }

  /** The body of the reader's loop, for one line. */
  method ApplyLineTo(gravtie: Tie, line: string, mgalA: seq<real>, tmgalA: seq<int>, stof: string -> Option<real>)
    returns (r: Result<TomlReader, string>, mgalA': seq<real>, tmgalA': seq<int>)
    requires ReaderShape(TomlReader(gravtie.State(), mgalA, tmgalA))
    modifies gravtie
    ensures r == ApplyLine(TomlReader(old(gravtie.State()), mgalA, tmgalA), line, stof)
    ensures r.Ok? ==> r.value == TomlReader(gravtie.State(), mgalA', tmgalA')
  {
    mgalA', tmgalA' := mgalA, tmgalA;
    r := Ok(TomlReader(gravtie.State(), mgalA, tmgalA));
    if line != [] && !(line[0] == '[' && line[|line| - 1] == ']') {
      var kv := SplitKeyValue(line);
      if kv.Some? {
        var slot := SlotOf(kv.value.0);
        if slot.None? {
          return Err("out_of_range"), mgalA', tmgalA';
        }
        r, mgalA', tmgalA' := ApplySlotTo(gravtie, slot.value, kv.value.1, mgalA, tmgalA, stof);
      }
    }
  }

  lemma TomlStep(rd: TomlReader, lines: seq<string>, i: nat, stof: string -> Option<real>)
    requires ReaderShape(rd) && i < |lines| && TomlFrom(rd, lines[..i], stof).Ok?
    ensures TomlFrom(rd, lines[..i + 1], stof) == ApplyLine(TomlFrom(rd, lines[..i], stof).value, lines[i], stof)
  {
    assert lines[..i + 1][..i] == lines[..i];
  }

  lemma {:induction false} TomlStopsAtError(rd: TomlReader, lines: seq<string>, i: nat, stof: string -> Option<real>)
    requires ReaderShape(rd) && i <= |lines| && TomlFrom(rd, lines[..i], stof).Err?
    ensures TomlFrom(rd, lines, stof) == TomlFrom(rd, lines[..i], stof)
    decreases |lines| - i
  {
    if i < |lines| {
      assert lines[..i + 1][..i] == lines[..i];
      TomlStopsAtError(rd, lines, i + 1, stof);
    } else {
      assert lines[..i] == lines;
    }
  }

  /** `toml_to_tie(filePath, gravtie)`, up to the widget refresh. When the
      reader throws, the error is returned and the tie is left as far as
      the reader got. */
  method TomlToTie(file: RwGeneral.File, gravtie: Tie, stof: string -> Option<real>) returns (r: Result<(), string>)
    requires gravtie.Valid()
    modifies gravtie
    ensures TomlOf(old(gravtie.State()), file, stof).Ok? ==>
              r.Ok? && gravtie.State() == TomlOf(old(gravtie.State()), file, stof).value
    ensures TomlOf(old(gravtie.State()), file, stof).Err? ==>
              r == Err(TomlOf(old(gravtie.State()), file, stof).error)
  {
    if file.None? {
      return Ok(());
    }
    var lines := file.value;
    ghost var start := StartToml(gravtie.State());
    var mgalA: seq<real> := [UnsetReal, UnsetReal, UnsetReal];
    var tmgalA: seq<int> := [Unset, Unset, Unset];
    var i := 0;
    while i < |lines|
      invariant 0 <= i <= |lines|
      invariant ReaderShape(TomlReader(gravtie.State(), mgalA, tmgalA))
      invariant TomlFrom(start, lines[..i], stof) == Ok(TomlReader(gravtie.State(), mgalA, tmgalA))
    {
      TomlStep(start, lines, i, stof);
      var res;
      res, mgalA, tmgalA := ApplyLineTo(gravtie, lines[i], mgalA, tmgalA, stof);
      if res.Err? {
        TomlStopsAtError(start, lines, i + 1, stof);
        return Err(res.error);
      }
      i := i + 1;
    }
    assert lines[..i] == lines;
    gravtie.mgalAverages := mgalA;
    gravtie.tAverages := tmgalA;
    r := Ok(());
  }

  // ---------------------------------------------------------------------
  // The writer `tie_to_toml`. Numbers are printed by `fixed(x, p)`
  // (std::fixed with setprecision(p)) and timestamps by `stamp(t)`
  // (gmtime, strftime "%Y-%m-%dT%H:%M:%S" and the trailing "Z").

  /** std::boolalpha. */
  function BoolText(b: bool): string
  {
    if b then "true" else "false"
  }

  function Line(key: string, text: string): string
  {
    key + "=" + text
  }

  /** `letter << num << ".c"` and the like. */
  function ReadingKey(l: char, num: nat, field: char): string
  {
    [l] + NatToString(num) + ['.', field]
  }

  /** The group letters, `letter++` from 'a'. */
  function Letter(i: nat): char
    requires i < 3
  {
    (('a' as int) + i) as char
  }

  function GroupAt(i: Index): Group
  {
    if i == 0 then GroupA else if i == 1 then GroupB else GroupC
  }

  /** The three lines of one reading. */
  function ReadingLines(l: char, v: ValTime, num: nat, fixed: (real, nat) -> string, stamp: int -> string): seq<string>
  {
    [Line(ReadingKey(l, num, 'c'), fixed(v.h1, 2)),
     Line(ReadingKey(l, num, 't'), stamp(v.t1)),
     Line(ReadingKey(l, num, 'm'), fixed(v.m1, 2))]
  }

  /** The readings of a group, numbered from 1. */
  function GroupLines(l: char, g: seq<ValTime>, fixed: (real, nat) -> string, stamp: int -> string): seq<string>
    decreases |g|
  {
    if g == [] then []
    else GroupLines(l, g[..|g| - 1], fixed, stamp) + ReadingLines(l, g[|g| - 1], |g|, fixed, stamp)
  }

  /** `<ll>.t_avg` and `<ll>.m_avg` after a group's readings. */
  function AverageLines(l: char, t: int, m: real, fixed: (real, nat) -> string, stamp: int -> string): seq<string>
  {
    [Line([l, l] + ".t_avg", stamp(t)), Line([l, l] + ".m_avg", fixed(m, 3))]
  }

  /** The groups in order, each with its averages. */
  function CountsLines(groups: seq<seq<ValTime>>, tavg: seq<int>, mavg: seq<real>,
                       fixed: (real, nat) -> string, stamp: int -> string): seq<string>
    requires |groups| <= 3 && |groups| <= |tavg| && |groups| <= |mavg|
    decreases |groups|
  {
    if groups == [] then []
    else
      var n := |groups| - 1;
      CountsLines(groups[..n], tavg, mavg, fixed, stamp)
        + GroupLines(Letter(n), groups[n], fixed, stamp) + AverageLines(Letter(n), tavg[n], mavg[n], fixed, stamp)
  }

  /** `h<n>.h` and `h<n>.t` per height. */
  function HeightLines(hs: seq<ValTime>, fixed: (real, nat) -> string, stamp: int -> string): seq<string>
    decreases |hs|
  {
    if hs == [] then []
    else
      var v := hs[|hs| - 1];
      HeightLines(hs[..|hs| - 1], fixed, stamp)
        + [Line(ReadingKey('h', |hs|, 'h'), fixed(v.h1, 2)), Line(ReadingKey('h', |hs|, 't'), stamp(v.t1))]
  }

  function ShipLines(s: TieState): seq<string>
  {
    ["[SHIP]", Line(TextKey(Ship), Quote(s.shinfo.ship)), Line(TextKey(AltShip), Quote(s.shinfo.altShip)), ""]
  }

  function StationLines(s: TieState, fixed: (real, nat) -> string): seq<string>
  {
    ["[STATION]", Line(TextKey(Station), Quote(s.stinfo.station)),
     Line(TextKey(AltStation), Quote(s.stinfo.altStation)),
     Line(NumberKey(StationGravity), fixed(s.stinfo.stationGravity, 2)), ""]
  }

  function MeterLines(s: TieState, fixed: (real, nat) -> string): seq<string>
  {
    ["[LANDMETER]", Line("landtie", BoolText(s.lminfo.landtie)),
     Line(TextKey(Meter), Quote(s.lminfo.meter)), Line(TextKey(AltMeter), Quote(s.lminfo.altMeter)),
     Line(TextKey(CalFile), Quote(s.lminfo.calFilePath)),
     Line(NumberKey(ShipLon), fixed(s.lminfo.shipLon, 3)), Line(NumberKey(ShipLat), fixed(s.lminfo.shipLat, 3)),
     Line(NumberKey(ShipElev), fixed(s.lminfo.shipElev, 3)), Line(NumberKey(MeterTemp), fixed(s.lminfo.meterTemp, 3)),
     Line(NumberKey(LandTieValue), fixed(s.lminfo.landTieValue, 2)), Line(NumberKey(DriftValue), fixed(s.drift, 2))]
  }

  function TieLines(s: TieState, fixed: (real, nat) -> string): seq<string>
  {
    ["", "[TIE]", Line(TextKey(Personnel), Quote(s.prinfo.personnel)),
     Line(NumberKey(Bias), fixed(s.bias, 2)), Line(NumberKey(WaterGrav), fixed(s.waterGrav, 2)),
     Line(NumberKey(AvgDgsGrav), fixed(s.avgDgsGrav, 2)), Line(NumberKey(AvgHeight), fixed(s.avgHeight, 2))]
  }

  /** The whole file `tie_to_toml` writes, line by line. */
  function TomlText(s: TieState, fixed: (real, nat) -> string, stamp: int -> string): seq<string>
    requires ShapeOk(s)
  {
    ShipLines(s) + StationLines(s, fixed) + MeterLines(s, fixed)
      + CountsLines([s.acounts, s.bcounts, s.ccounts], s.tAverages, s.mgalAverages, fixed, stamp)
      + TieLines(s, fixed) + HeightLines(s.heights, fixed, stamp) + [""]
  }

  /** One group's readings, as the inner loop of the writer prints them. */
  method WriteGroup(l: char, thesecounts: seq<ValTime>, fixed: (real, nat) -> string, stamp: int -> string)
    returns (lines: seq<string>)
    ensures lines == GroupLines(l, thesecounts, fixed, stamp)
  {
    lines := [];
    var num := 1;
    while num <= |thesecounts|
      invariant 1 <= num <= |thesecounts| + 1
      invariant lines == GroupLines(l, thesecounts[..num - 1], fixed, stamp)
    {
      var thisone := thesecounts[num - 1];
      assert thesecounts[..num][..num - 1] == thesecounts[..num - 1];
      lines := lines + [Line(ReadingKey(l, num, 'c'), fixed(thisone.h1, 2)),
                        Line(ReadingKey(l, num, 't'), stamp(thisone.t1)),
                        Line(ReadingKey(l, num, 'm'), fixed(thisone.m1, 2))];
      num := num + 1;
    }
    assert thesecounts[..num - 1] == thesecounts;
  }

  /** The outer loop of the writer: each group, then its averages, with `letter++`. */
  method WriteCounts(allcounts: seq<seq<ValTime>>, tAverages: seq<int>, mgalAverages: seq<real>,
                     fixed: (real, nat) -> string, stamp: int -> string) returns (lines: seq<string>)
    requires |allcounts| == 3 && |tAverages| == 3 && |mgalAverages| == 3
    ensures lines == CountsLines(allcounts, tAverages, mgalAverages, fixed, stamp)
  {
    lines := [];
    var letter := 'a';
    var itm := 0;
    while itm < |allcounts|
      invariant 0 <= itm <= 3
      invariant itm < 3 ==> letter == Letter(itm)
      invariant lines == CountsLines(allcounts[..itm], tAverages, mgalAverages, fixed, stamp)
    {
      var group := WriteGroup(letter, allcounts[itm], fixed, stamp);
      assert allcounts[..itm + 1][..itm] == allcounts[..itm];
      lines := lines + group
        + [Line([letter, letter] + ".t_avg", stamp(tAverages[itm])),
           Line([letter, letter] + ".m_avg", fixed(mgalAverages[itm], 3))];
      itm := itm + 1;
      letter := ((letter as int) + 1) as char;
    }
    assert allcounts[..itm] == allcounts;
  }

  /** The heights loop of the writer. */
  method WriteHeights(heights: seq<ValTime>, fixed: (real, nat) -> string, stamp: int -> string) returns (lines: seq<string>)
    ensures lines == HeightLines(heights, fixed, stamp)
  {
    lines := [];
    var num := 1;
    while num <= |heights|
      invariant 1 <= num <= |heights| + 1
      invariant lines == HeightLines(heights[..num - 1], fixed, stamp)
    {
      var thisone := heights[num - 1];
      assert heights[..num][..num - 1] == heights[..num - 1];
      lines := lines + [Line(ReadingKey('h', num, 'h'), fixed(thisone.h1, 2)),
                        Line(ReadingKey('h', num, 't'), stamp(thisone.t1))];
      num := num + 1;
    }
    assert heights[..num - 1] == heights;
  }

  /** `tie_to_toml(filepath, gravtie)`, once the file is open: the lines written. */
  method TieToToml(gravtie: Tie, fixed: (real, nat) -> string, stamp: int -> string) returns (lines: seq<string>)
    requires gravtie.Valid()
    ensures lines == TomlText(gravtie.State(), fixed, stamp)
  {
    var s := gravtie.State();
    var counts := WriteCounts([s.acounts, s.bcounts, s.ccounts], s.tAverages, s.mgalAverages, fixed, stamp);
    var heights := WriteHeights(s.heights, fixed, stamp);
    lines := ShipLines(s) + StationLines(s, fixed) + MeterLines(s, fixed) + counts
      + TieLines(s, fixed) + heights + [""];
  }

  // ---------------------------------------------------------------------
  // Every key the writer emits lands where it came from

  /** Two strings that differ at one position differ. */
  lemma Differ(a: string, b: string, i: nat)
    requires i < |a| && i < |b| && a[i] != b[i]
    ensures a != b
  {
  }

  /** A reading key with a one-digit number, character by character. */
  lemma ReadingKeyText(l: char, n: nat, f: char)
    requires 1 <= n <= 9
    ensures ReadingKey(l, n, f) == [l, DigitChar(n), '.', f]
  {
  }

  /** A four-character key ending in `.t` is a timestamp key. */
  lemma StampKeySlot(key: string)
    requires |key| == 4 && key[2] == '.' && key[3] == 't'
    ensures SlotOf(key) == Some(StampSlot(key[..2]))
  {
    Differ(key, "bias", 3);
    assert key[2..4] == ".t";
  }

  /** The timestamp key of the reading `[l, d]` routes to group g, index k. */
  lemma StampKeyOf(l: char, d: char, g: Group, k: Index)
    requires l in "abc" && d in "123"
    requires g == (if l == 'a' then GroupA else if l == 'b' then GroupB else GroupC)
    requires k == (d as int) - ('1' as int)
    ensures SlotOf([l, d, '.', 't']) == Some(StampSlot([l, d]))
    ensures RouteOf([l, d]) == ReadingTime(g, k)
  {
    StampKeySlot([l, d, '.', 't']);
    assert [l, d, '.', 't'][..2] == [l, d];
    if l == 'a' {
      if d == '1' {} else if d == '2' {} else {}
    } else if l == 'b' {
      if d == '1' {} else if d == '2' {} else {}
    } else {
      if d == '1' {} else if d == '2' {} else {}
    }
  }

  /** The count and mgal keys of the reading `[l, d]` land in group g, index k. */
  lemma ValueKeysOf(l: char, d: char, g: Group, k: Index)
    requires l in "abc" && d in "123"
    requires g == (if l == 'a' then GroupA else if l == 'b' then GroupB else GroupC)
    requires k == (d as int) - ('1' as int)
    ensures SlotOf([l, d, '.', 'c']) == Some(CountSlot(g, k))
    ensures SlotOf([l, d, '.', 'm']) == Some(MgalSlot(g, k))
  {
    if l == 'a' {
      if d == '1' {} else if d == '2' {} else {}
    } else if l == 'b' {
      if d == '1' {} else if d == '2' {} else {}
    } else {
      if d == '1' {} else if d == '2' {} else {}
    }
  }

  /** The timestamp average key of the letter l routes to the averages at index k. */
  lemma AverageStampKeyOf(l: char, k: Index)
    requires l in "abc" && k == (l as int) - ('a' as int)
    ensures SlotOf([l, l, '.', 't', '_', 'a', 'v', 'g']) == Some(StampSlot([l, l]))
    ensures RouteOf([l, l]) == AverageTime(k)
  {
    var key := [l, l, '.', 't', '_', 'a', 'v', 'g'];
    Differ(key, "ship_lon", 2);
    Differ(key, "ship_lat", 2);
    Differ(key, "aa.m_avg", 3);
    Differ(key, "bb.m_avg", 3);
    Differ(key, "cc.m_avg", 3);
    assert key[2..4] == ".t" && key[..2] == [l, l];
    if l == 'a' {} else if l == 'b' {} else {}
  }

  /** The mgal average key of the letter l lands in the averages at index k. */
  lemma AverageMgalKeyOf(l: char, k: Index)
    requires l in "abc" && k == (l as int) - ('a' as int)
    ensures SlotOf([l, l, '.', 'm', '_', 'a', 'v', 'g']) == Some(MgalAverageSlot(k))
  {
    if l == 'a' {} else if l == 'b' {} else {}
  }

  lemma SmallNumerals()
    ensures NatToString(1) == "1" && NatToString(2) == "2" && NatToString(3) == "3"
  {
  }

  /** `<l><n>.c`, `<l><n>.t` and `<l><n>.m` for the letters a, b, c and n = 1..3. */
  lemma ReadingKeysHandled(i: Index, n: nat)
    requires 1 <= n <= 3
    ensures SlotOf(ReadingKey(Letter(i), n, 'c')) == Some(CountSlot(GroupAt(i), n - 1))
    ensures SlotOf(ReadingKey(Letter(i), n, 'm')) == Some(MgalSlot(GroupAt(i), n - 1))
    ensures SlotOf(ReadingKey(Letter(i), n, 't')) == Some(StampSlot([Letter(i)] + NatToString(n)))
    ensures RouteOf([Letter(i)] + NatToString(n)) == ReadingTime(GroupAt(i), n - 1)
  {
    ReadingKeyText(Letter(i), n, 'c');
    ReadingKeyText(Letter(i), n, 'm');
    ReadingKeyText(Letter(i), n, 't');
    assert [Letter(i)] + NatToString(n) == [Letter(i), DigitChar(n)];
    ValueKeysOf(Letter(i), DigitChar(n), GroupAt(i), n - 1);
    StampKeyOf(Letter(i), DigitChar(n), GroupAt(i), n - 1);
  }

  /** `<ll>.t_avg` goes to the averages by its two-letter prefix; `<ll>.m_avg` by its own key. */
  lemma AverageKeysHandled(i: Index)
    ensures SlotOf([Letter(i), Letter(i)] + ".t_avg") == Some(StampSlot([Letter(i), Letter(i)]))
    ensures RouteOf([Letter(i), Letter(i)]) == AverageTime(i)
    ensures SlotOf([Letter(i), Letter(i)] + ".m_avg") == Some(MgalAverageSlot(i))
  {
    var l := Letter(i);
    assert [l, l] + ".t_avg" == [l, l, '.', 't', '_', 'a', 'v', 'g'];
    assert [l, l] + ".m_avg" == [l, l, '.', 'm', '_', 'a', 'v', 'g'];
    AverageStampKeyOf(l, i);
    AverageMgalKeyOf(l, i);
  }

  /** `h<n>.h` and `h<n>.t` for n = 1..3. */
  lemma HeightKeysHandled(n: nat)
    requires 1 <= n <= 3
    ensures SlotOf(ReadingKey('h', n, 'h')) == Some(CountSlot(GroupH, n - 1))
    ensures SlotOf(ReadingKey('h', n, 't')) == Some(StampSlot(['h'] + NatToString(n)))
    ensures RouteOf(['h'] + NatToString(n)) == ReadingTime(GroupH, n - 1)
  {
    ReadingKeyText('h', n, 'h');
    ReadingKeyText('h', n, 't');
    assert ['h'] + NatToString(n) == ['h', DigitChar(n)];
  }

  /** The reader looks each text key up to its own field. */
  lemma TextKeyHandled(f: TextField)
    ensures KeySlot(TextKey(f)) == Some(TextSlot(f))
    ensures SlotOf(TextKey(f)) == Some(TextSlot(f))
    ensures '=' !in TextKey(f) && TextKey(f) != [] && TextKey(f)[0] != '['
  {
  }

  /** The reader looks each number key up to its own field. */
  lemma NumberKeyHandled(f: NumberField)
    ensures KeySlot(NumberKey(f)) == Some(NumberSlot(f))
    ensures SlotOf(NumberKey(f)) == Some(NumberSlot(f))
    ensures '=' !in NumberKey(f) && NumberKey(f) != [] && NumberKey(f)[0] != '['
  {
  }
}
