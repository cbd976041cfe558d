/** The readers of lib/rw-general.cpp: the station and land-meter databases
    (INI-like files of `[SECTION]` headers and key="value" lines), a land
    meter's calibration table, and the DGS laptop files of a cruise.

    A file is given as its lines, or None when it cannot be opened. The
    library conversions std::stof and std::stoi are parameters: they yield
    the value of the text, or None where the library throws
    std::invalid_argument. */
module RwGeneral {
  import opened Wrappers
  import opened Decimal
  import opened TextLines
  import opened TieStructs
  import opened TimeFunctions
  import opened Numerics

  type File = Option<seq<string>>

  // =====================================================================
  // stations.db and landmeters.db

  /** Records are keyed by a two-digit counter. For the 101st record the
      counter has three digits, `insert(0, 2 - length, '0')` asks for a
      count that wraps around to a huge size_t, and std::length_error is
      thrown. */
  const MaxRecords: nat := 100

  const StationPrefix: string := "STATION_"
  const MeterPrefix: string := "LAND_METER_"

  /** The key of the n-th record: `to_string(n)` left-padded with '0' to two characters. */
  function RecordKey(n: nat): string
  {
    PaddedDigits(n, 2)
  }

  /** The reader's variables between two lines: the map built so far, the
      key of the record being filled ("" outside a wanted section) and the
      record counter. */
  datatype Reader = Reader(db: Db, current: string, counter: nat)

  const StartReader: Reader := Reader(map[], "", 0)

  /** A line that starts with `[` and ends with `]` (so it has at least two characters). */
  predicate IsHeader(line: string)
  {
    line != [] && line[0] == '[' && line[|line| - 1] == ']'
  }

  /** The text between the brackets (`substr(1, length - 2)`). */
  function Section(line: string): string
    requires IsHeader(line)
  {
    line[1..|line| - 1]
  }

  /** A header whose section name starts with the prefix (`find(prefix) == 0`). */
  predicate OpensRecord(line: string, prefix: string)
  {
    IsHeader(line) && prefix <= Section(line)
  }

  /** `data[key]` read through `operator[]`: a missing record reads as empty. */
  function Record(db: Db, key: string): map<string, string>
  {
    if key in db then db[key] else map[]
  }

  /** What one line does to the reader. */
  function Step(r: Reader, line: string, prefix: string): Result<Reader, string>
  {
    if line == [] then Ok(r)
    else if IsHeader(line) then
      if prefix <= Section(line) then
        if r.counter >= MaxRecords then Err("length_error")
        else
          var k := RecordKey(r.counter);
          Ok(Reader(r.db[k := map[]], k, r.counter + 1))
      else Ok(r.(current := ""))
    else if r.current != [] then
      match SplitKeyValue(line)
      case None => Ok(r)
      case Some(kv) => Ok(r.(db := r.db[r.current := Record(r.db, r.current)[kv.0 := kv.1]]))
    else Ok(r)
  }

  /** The reader after the given lines, or the exception that stopped it. */
  function Scan(lines: seq<string>, prefix: string): Result<Reader, string>
    decreases |lines|
  {
    if lines == [] then Ok(StartReader)
    else
      match Scan(lines[..|lines| - 1], prefix)
      case Err(e) => Err(e)
      case Ok(r) => Step(r, lines[|lines| - 1], prefix)
  }

  /** The map a whole file yields; a file that cannot be opened gives an empty map. */
  function DatabaseOf(file: File, prefix: string): Result<Db, string>
  {
    match file
    case None => Ok(map[])
    case Some(lines) =>
      match Scan(lines, prefix)
      case Err(e) => Err(e)
      case Ok(r) => Ok(r.db)
  }

  lemma {:induction false} ScanStopsAtError(lines: seq<string>, prefix: string, i: nat)
    requires i <= |lines| && Scan(lines[..i], prefix).Err?
    ensures Scan(lines, prefix) == Scan(lines[..i], prefix)
    decreases |lines| - i
  {
    if i < |lines| {
      assert lines[..i + 1][..i] == lines[..i];
      ScanStopsAtError(lines, prefix, i + 1);
    } else {
      assert lines[..i] == lines;
    }
  }

  lemma ScanStep(lines: seq<string>, i: nat, prefix: string)
    requires i < |lines| && Scan(lines[..i], prefix).Ok?
    ensures Scan(lines[..i + 1], prefix) == Step(Scan(lines[..i], prefix).value, lines[i], prefix)
  {
    assert lines[..i + 1][..i] == lines[..i];
  }

  /** readStationFile and readMeterFile share this body; only the section prefix differs. */
  method ReadSections(file: File, prefix: string) returns (result: Result<Db, string>)
    ensures result == DatabaseOf(file, prefix)
  {
    if file.None? {
      return Ok(map[]);
    }
    var lines := file.value;
    var db: Db := map[];
    var current := "";
    var counter := 0;
    var i := 0;
    while i < |lines|
      invariant 0 <= i <= |lines|
      invariant Scan(lines[..i], prefix) == Ok(Reader(db, current, counter))
    {
      ScanStep(lines, i, prefix);
      var line := lines[i];
      if line != [] {
        if line[0] == '[' && line[|line| - 1] == ']' {
          var section := line[1..|line| - 1];
          if prefix <= section {
            if counter >= MaxRecords {
              ScanStopsAtError(lines, prefix, i + 1);
              return Err("length_error");
            }
            current := RecordKey(counter);
            db := db[current := map[]];
            counter := counter + 1;
          } else {
            current := "";
          }
        } else if current != [] {
          match SplitKeyValue(line)
          case Some(kv) =>
            db := db[current := Record(db, current)[kv.0 := kv.1]];
          case None =>
        }
      }
      i := i + 1;
    }
    assert lines[..i] == lines;
    result := Ok(db);
  }

  /** `readStationFile`: the `[STATION_...]` records of stations.db. */
  method ReadStationFile(file: File) returns (result: Result<Db, string>)
    ensures result == DatabaseOf(file, StationPrefix)
  {
    result := ReadSections(file, StationPrefix);
  }

  /** `readMeterFile`: the `[LAND_METER_...]` records of landmeters.db. */
  method ReadMeterFile(file: File) returns (result: Result<Db, string>)
    ensures result == DatabaseOf(file, MeterPrefix)
  {
    result := ReadSections(file, MeterPrefix);
  }

  // ---------------------------------------------------------------------
  // What the database reader guarantees

  /** The keys of the first n records. */
  function RecordKeys(n: nat): set<string>
  {
    if n == 0 then {} else RecordKeys(n - 1) + {RecordKey(n - 1)}
  }

  /** The number of lines that open a record. */
  function HeaderCount(lines: seq<string>, prefix: string): nat
    decreases |lines|
  {
    if lines == [] then 0
    else HeaderCount(lines[..|lines| - 1], prefix) + (if OpensRecord(lines[|lines| - 1], prefix) then 1 else 0)
  }

  /** Record keys are two decimal digits that spell the record's number. */
  lemma RecordKeyShape(n: nat)
    requires n < MaxRecords
    ensures |RecordKey(n)| == 2 && AllDigits(RecordKey(n)) && DigitsValue(RecordKey(n)) == n
  {
    assert Pow10(2) == 100 by {
      assert Pow10(1) == 10;
    }
    PaddedDigitsValue(n, 2);
  }

  /** Different records get different keys. */
  lemma RecordKeyInjective(i: nat, j: nat)
    requires RecordKey(i) == RecordKey(j)
    ensures i == j
  {
    PaddedDigitsValue(i, 2);
    PaddedDigitsValue(j, 2);
  }

  lemma {:induction false} RecordKeysBelow(n: nat)
    ensures forall k :: k in RecordKeys(n) ==> AllDigits(k) && DigitsValue(k) < n
    decreases n
  {
    if n > 0 {
      RecordKeysBelow(n - 1);
      PaddedDigitsValue(n - 1, 2);
    }
  }

  /** n records have n distinct keys. */
  lemma {:induction false} RecordKeysCount(n: nat)
    ensures |RecordKeys(n)| == n
    decreases n
  {
    if n > 0 {
      RecordKeysCount(n - 1);
      RecordKeysBelow(n - 1);
      PaddedDigitsValue(n - 1, 2);
      assert RecordKey(n - 1) !in RecordKeys(n - 1);
    }
  }

  predicate ReaderInvariant(r: Reader)
  {
    r.db.Keys == RecordKeys(r.counter) && (r.current == [] || r.current in r.db) && r.counter <= MaxRecords
  }

  /** The reader fails exactly when more than 100 records are opened; otherwise
      its map holds one record per opening header, keyed "00", "01", ..., and
      the record being filled is one of them. */
  lemma {:induction false} ScanInvariant(lines: seq<string>, prefix: string)
    ensures Scan(lines, prefix).Ok? <==> HeaderCount(lines, prefix) <= MaxRecords
    ensures Scan(lines, prefix).Ok? ==>
              ReaderInvariant(Scan(lines, prefix).value) && Scan(lines, prefix).value.counter == HeaderCount(lines, prefix)
    decreases |lines|
  {
    if lines != [] {
      var init := lines[..|lines| - 1];
      ScanInvariant(init, prefix);
    }
  }

  /** The map read from a file has exactly one record per opening header. */
  lemma DatabaseSize(lines: seq<string>, prefix: string)
    requires DatabaseOf(Some(lines), prefix).Ok?
    ensures DatabaseOf(Some(lines), prefix).value.Keys == RecordKeys(HeaderCount(lines, prefix))
    ensures |DatabaseOf(Some(lines), prefix).value| == HeaderCount(lines, prefix)
  {
    ScanInvariant(lines, prefix);
    RecordKeysCount(HeaderCount(lines, prefix));
  }

  /** An opening header starts a new, empty record under the next key; no
      existing record is touched, since that key is not yet in use. */
  lemma OpenRecord(lines: seq<string>, prefix: string, header: string)
    requires Scan(lines, prefix).Ok? && OpensRecord(header, prefix)
    requires HeaderCount(lines, prefix) < MaxRecords
    ensures var r := Scan(lines, prefix).value;
            RecordKey(r.counter) !in r.db &&
            Scan(lines + [header], prefix) == Ok(Reader(r.db[RecordKey(r.counter) := map[]], RecordKey(r.counter), r.counter + 1))
  {
    ScanInvariant(lines, prefix);
    var r := Scan(lines, prefix).value;
    RecordKeysBelow(r.counter);
    PaddedDigitsValue(r.counter, 2);
    assert (lines + [header])[..|lines|] == lines;
  }

  /** Inside a record, a key=value line sets that key of the current record
      and nothing else; a later line for the same key overwrites it. */
  lemma StoreValue(lines: seq<string>, prefix: string, line: string, key: string, value: string)
    requires Scan(lines, prefix).Ok? && Scan(lines, prefix).value.current != []
    requires line != [] && !IsHeader(line) && SplitKeyValue(line) == Some((key, value))
    ensures var r := Scan(lines, prefix).value;
            var r' := Scan(lines + [line], prefix);
            r'.Ok? && r'.value.current == r.current && r'.value.counter == r.counter &&
            r'.value.db.Keys == r.db.Keys + {r.current} &&
            r'.value.db[r.current] == Record(r.db, r.current)[key := value] &&
            forall k :: k in r.db && k != r.current ==> r'.value.db[k] == r.db[k]
  {
    assert (lines + [line])[..|lines|] == lines;
  }

  /** A line that is neither empty nor a header and has no `=` changes nothing. */
  lemma IgnoreLineWithoutEquals(lines: seq<string>, prefix: string, line: string)
    requires line != [] && !IsHeader(line) && '=' !in line
    ensures Scan(lines + [line], prefix) == Scan(lines, prefix)
  {
    assert (lines + [line])[..|lines|] == lines;
    assert Find(line, '=').None?;
  }

  /** After a header of another kind, key=value lines are dropped until the
      next wanted header: the map stays as it was. */
  lemma SkipForeignSection(lines: seq<string>, prefix: string, header: string, line: string)
    requires Scan(lines, prefix).Ok? && IsHeader(header) && !OpensRecord(header, prefix)
    requires !IsHeader(line)
    ensures Scan(lines + [header, line], prefix) == Ok(Scan(lines, prefix).value.(current := ""))
  {
    assert (lines + [header])[..|lines|] == lines;
    assert (lines + [header, line])[..|lines| + 1] == lines + [header];
  }

  /** Lines before the first header are dropped: no record exists yet to hold them. */
  lemma {:induction false} IgnoreLinesBeforeHeader(lines: seq<string>, prefix: string)
    requires forall k :: 0 <= k < |lines| ==> !IsHeader(lines[k])
    ensures Scan(lines, prefix) == Ok(StartReader)
    decreases |lines|
  {
    if lines != [] {
      IgnoreLinesBeforeHeader(lines[..|lines| - 1], prefix);
    }
  }

  // =====================================================================
  // read_lm_calib

  /** The values of the tokens that std::stof accepts, in order; the others are skipped. */
  function Floats(tokens: seq<string>, stof: string -> Option<real>): (fs: seq<real>)
    ensures |fs| <= |tokens|
    decreases |tokens|
  {
    if tokens == [] then []
    else
      Floats(tokens[..|tokens| - 1], stof) +
      (match stof(tokens[|tokens| - 1]) case None => [] case Some(x) => [x])
  }

  /** The row a line contributes: its floats when there are exactly three. */
  function CalibRow(line: string, stof: string -> Option<real>): Option<(real, real, real)>
  {
    var fs := Floats(Tokens(line), stof);
    if |fs| == 3 then Some((fs[0], fs[1], fs[2])) else None
  }

  function AddRow(c: Calibration, row: (real, real, real)): Calibration
  {
    Calibration(c.brackets + [row.0], c.mgvals + [row.1], c.factors + [row.2])
  }

  /** Two tables one after the other. */
  function Concat(c: Calibration, d: Calibration): Calibration
  {
    Calibration(c.brackets + d.brackets, c.mgvals + d.mgvals, c.factors + d.factors)
  }

  /** The table built from the given lines: one row per line with exactly three floats. */
  function CalibFrom(lines: seq<string>, stof: string -> Option<real>): (c: Calibration)
    ensures WellFormed(c) && |c.brackets| <= |lines|
    decreases |lines|
  {
    if lines == [] then EmptyCalibration
    else
      var c := CalibFrom(lines[..|lines| - 1], stof);
      var line := lines[|lines| - 1];
      if line == [] then c
      else
        match CalibRow(line, stof)
        case None => c
        case Some(row) => AddRow(c, row)
  }

  /** The table of a calibration file; a file that cannot be opened gives an empty table. */
  function CalibrationOf(file: File, stof: string -> Option<real>): (c: Calibration)
    ensures WellFormed(c)
  {
    match file
    case None => EmptyCalibration
    case Some(lines) => CalibFrom(lines, stof)
  }

  /** `while (iss >> token) try { floats.push_back(std::stof(token)); } catch (invalid_argument&) {}` */
  method ParseFloats(tokens: seq<string>, stof: string -> Option<real>) returns (floats: seq<real>)
    ensures floats == Floats(tokens, stof)
  {
    floats := [];
    var i := 0;
    while i < |tokens|
      invariant 0 <= i <= |tokens|
      invariant floats == Floats(tokens[..i], stof)
    {
      assert tokens[..i + 1][..i] == tokens[..i];
      match stof(tokens[i]) {
        case Some(x) => floats := floats + [x];
        case None =>
      }
      i := i + 1;
    }
    assert tokens[..i] == tokens;
  }

  lemma CalibStep(lines: seq<string>, i: nat, stof: string -> Option<real>)
    requires i < |lines|
    ensures var fs := Floats(Tokens(lines[i]), stof);
            CalibFrom(lines[..i + 1], stof) ==
              if lines[i] != [] && |fs| == 3 then AddRow(CalibFrom(lines[..i], stof), (fs[0], fs[1], fs[2]))
              else CalibFrom(lines[..i], stof)
  {
    assert lines[..i + 1][..i] == lines[..i];
  }

  /** `read_lm_calib`. */
  method ReadLmCalib(file: File, stof: string -> Option<real>) returns (calib: Calibration)
    ensures calib == CalibrationOf(file, stof)
  {
    calib := EmptyCalibration;
    if file.None? {
      return;
    }
    var lines := file.value;
    var i := 0;
    while i < |lines|
      invariant 0 <= i <= |lines|
      invariant calib == CalibFrom(lines[..i], stof)
    {
      CalibStep(lines, i, stof);
      var line := lines[i];
      if line != [] {
        var tokens := SplitTokens(line);
        var floats := ParseFloats(tokens, stof);
        if |floats| == 3 {
          calib := AddRow(calib, (floats[0], floats[1], floats[2]));
        }
      }
      i := i + 1;
    }
    assert lines[..i] == lines;
  }

  /** Reading two pieces of a file gives the table of the first followed by that of the second. */
  lemma {:induction false} CalibFromAppend(a: seq<string>, b: seq<string>, stof: string -> Option<real>)
    ensures CalibFrom(a + b, stof) == Concat(CalibFrom(a, stof), CalibFrom(b, stof))
    decreases |b|
  {
    if b == [] {
      assert a + b == a;
      var c := CalibFrom(a, stof);
      assert c.brackets + [] == c.brackets && c.mgvals + [] == c.mgvals && c.factors + [] == c.factors;
    } else {
      var b' := b[..|b| - 1];
      assert (a + b)[..|a + b| - 1] == a + b';
      assert (a + b)[|a + b| - 1] == b[|b| - 1];
      CalibFromAppend(a, b', stof);
      var c := CalibFrom(a, stof);
      var d := CalibFrom(b', stof);
      match CalibRow(b[|b| - 1], stof)
      case None =>
      case Some(row) =>
        assert (c.brackets + d.brackets) + [row.0] == c.brackets + (d.brackets + [row.0]);
        assert (c.mgvals + d.mgvals) + [row.1] == c.mgvals + (d.mgvals + [row.1]);
        assert (c.factors + d.factors) + [row.2] == c.factors + (d.factors + [row.2]);
    }
  }

  /** A single line gives one row when it has exactly three floats, and none otherwise
      (a heading or a comment line with one or two numbers is skipped). */
  lemma CalibOneLine(line: string, stof: string -> Option<real>)
    ensures var fs := Floats(Tokens(line), stof);
            CalibFrom([line], stof) ==
              if |fs| == 3 then Calibration([fs[0]], [fs[1]], [fs[2]]) else EmptyCalibration
  {
    assert [line][..0] == [];
  }

  /** A table line written as three numbers separated by spaces reads back as that row. */
  lemma CalibTableLine(b: string, m: string, f: string, stof: string -> Option<real>, xb: real, xm: real, xf: real)
    requires b != [] && NoSpace(b) && m != [] && NoSpace(m) && f != [] && NoSpace(f)
    requires stof(b) == Some(xb) && stof(m) == Some(xm) && stof(f) == Some(xf)
    ensures CalibRow(JoinWords([b, m, f]), stof) == Some((xb, xm, xf))
  {
    TokensOfJoin([b, m, f]);
    assert [b, m, f][..2] == [b, m];
    assert [b, m][..1] == [b];
    assert [b][..0] == [];
    assert Floats([b], stof) == [xb];
    assert Floats([b, m], stof) == [xb, xm];
    assert Floats([b, m, f], stof) == [xb, xm, xf];
  }

  // =====================================================================
  // read_dat_dgs

  type Series = (seq<real>, seq<int>)

  const LaptopShips: seq<string> := ["R/V Atlantis", "R/V Revelle", "R/V Palmer", "R/V Ride"]
  const ThompsonShip: string := "R/V Thompson"

  predicate DgsSupported(ship: string)
  {
    ship in LaptopShips || ship == ThompsonShip
  }

  /** The values of a run of tokens under std::stoi, or None when one of them throws. */
  function ParseInts(ts: seq<string>, stoi: string -> Option<int>): (r: Option<seq<int>>)
    ensures r.Some? ==> |r.value| == |ts|
    decreases |ts|
  {
    if ts == [] then Some([])
    else
      match stoi(ts[0])
      case None => None
      case Some(x) =>
        match ParseInts(ts[1..], stoi)
        case None => None
        case Some(xs) => Some([x] + xs)
  }

  /** The fixed-layout laptop record: gravity in field 1, the date and time
      of day in fields 19 to 24. */
  function LaptopReading(fs: seq<string>, stof: string -> Option<real>, stoi: string -> Option<int>): Result<(real, int), string>
  {
    if |fs| < 25 then Err("token index out of range")
    else
      match stof(fs[1])
      case None => Err("invalid_argument")
      case Some(g) =>
        match ParseInts(fs[19..25], stoi)
        case None => Err("invalid_argument")
        case Some(v) =>
          var t := Tm(v[5], v[4], v[3], v[2], v[1] - 1, v[0] - 1900, 0);
          if !MonthIndexDefined(t) then Err("month index out of range")
          else Ok((g, MyTimegm(t)))
  }

  /** The Thompson record: date in field 0, time in field 1, gravity in field 3. */
  function ThompsonReading(fs: seq<string>, stof: string -> Option<real>): Result<(real, int), string>
  {
    if |fs| < 4 then Err("token index out of range")
    else
      match stof(fs[3])
      case None => Err("invalid_argument")
      case Some(g) =>
        var t := StrToTm(fs[0] + "-" + fs[1], 1);
        if !MonthIndexDefined(t) then Err("month index out of range")
        else Ok((g, MyTimegm(t)))
  }

  /** The reading of one non-empty line; an unsupported ship reads nothing. */
  function DgsReading(line: string, ship: string, stof: string -> Option<real>, stoi: string -> Option<int>)
    : Result<Option<(real, int)>, string>
  {
    var fs := Fields(line);
    if ship in LaptopShips then
      match LaptopReading(fs, stof, stoi)
      case Err(e) => Err(e)
      case Ok(p) => Ok(Some(p))
    else if ship == ThompsonShip then
      match ThompsonReading(fs, stof)
      case Err(e) => Err(e)
      case Ok(p) => Ok(Some(p))
    else Ok(None)
  }

  function Push(acc: Series, p: Option<(real, int)>): Series
  {
    match p
    case None => acc
    case Some(x) => (acc.0 + [x.0], acc.1 + [x.1])
  }

  function NonEmptyLines(lines: seq<string>): nat
    decreases |lines|
  {
    if lines == [] then 0
    else NonEmptyLines(lines[..|lines| - 1]) + (if lines[|lines| - 1] == [] then 0 else 1)
  }

  /** The series read from the lines of one file, appended to `acc`. */
  function DgsFromLines(acc: Series, lines: seq<string>, ship: string, stof: string -> Option<real>, stoi: string -> Option<int>)
    : Result<Series, string>
    decreases |lines|
  {
    if lines == [] then Ok(acc)
    else
      match DgsFromLines(acc, lines[..|lines| - 1], ship, stof, stoi)
      case Err(e) => Err(e)
      case Ok(a) =>
        var line := lines[|lines| - 1];
        if line == [] then Ok(a)
        else
          match DgsReading(line, ship, stof, stoi)
          case Err(e) => Err(e)
          case Ok(p) => Ok(Push(a, p))
  }

  /** The series read from the files in order; a file that cannot be opened throws. */
  function DgsFromFiles(files: seq<File>, ship: string, stof: string -> Option<real>, stoi: string -> Option<int>)
    : Result<Series, string>
    decreases |files|
  {
    if files == [] then Ok(([], []))
    else
      match DgsFromFiles(files[..|files| - 1], ship, stof, stoi)
      case Err(e) => Err(e)
      case Ok(acc) =>
        match files[|files| - 1]
        case None => Err("Failed to open file")
        case Some(lines) => DgsFromLines(acc, lines, ship, stof, stoi)
  }

  /** `read_dat_dgs`: an unsupported ship gives two empty series without opening any file. */
  function DgsOf(files: seq<File>, ship: string, stof: string -> Option<real>, stoi: string -> Option<int>)
    : Result<Series, string>
  {
    if !DgsSupported(ship) then Ok(([], [])) else DgsFromFiles(files, ship, stof, stoi)
  }

  /** One line: split at commas, then the ship's record layout. */
  method ParseDgsLine(line: string, ship: string, stof: string -> Option<real>, stoi: string -> Option<int>)
    returns (r: Result<Option<(real, int)>, string>)
    ensures r == DgsReading(line, ship, stof, stoi)
  {
    var tokens := SplitFields(line);
    if ship in LaptopShips {
      if |tokens| < 25 {
        return Err("token index out of range");
      }
      var g := stof(tokens[1]);
      if g.None? {
        return Err("invalid_argument");
      }
      var v := ParseInts(tokens[19..25], stoi);
      if v.None? {
        return Err("invalid_argument");
      }
      var year, month, day, hour, minute, second := v.value[0], v.value[1], v.value[2], v.value[3], v.value[4], v.value[5];
      var timestamp := Tm(second, minute, hour, day, month - 1, year - 1900, 0);
      if !MonthIndexDefined(timestamp) {
        return Err("month index out of range");
      }
      r := Ok(Some((g.value, MyTimegm(timestamp))));
    } else if ship == ThompsonShip {
      if |tokens| < 4 {
        return Err("token index out of range");
      }
      var g := stof(tokens[3]);
      if g.None? {
        return Err("invalid_argument");
      }
      var datetime := tokens[0] + "-" + tokens[1];
      var timestamp := StrToTm(datetime, 1);
      if !MonthIndexDefined(timestamp) {
        return Err("month index out of range");
      }
      r := Ok(Some((g.value, MyTimegm(timestamp))));
    } else {
      r := Ok(None);
    }
  }

  lemma {:induction false} DgsLinesStopAtError(acc: Series, lines: seq<string>, ship: string,
                                               stof: string -> Option<real>, stoi: string -> Option<int>, i: nat)
    requires i <= |lines| && DgsFromLines(acc, lines[..i], ship, stof, stoi).Err?
    ensures DgsFromLines(acc, lines, ship, stof, stoi) == DgsFromLines(acc, lines[..i], ship, stof, stoi)
    decreases |lines| - i
  {
    if i < |lines| {
      assert lines[..i + 1][..i] == lines[..i];
      DgsLinesStopAtError(acc, lines, ship, stof, stoi, i + 1);
    } else {
      assert lines[..i] == lines;
    }
  }

  lemma {:induction false} DgsFilesStopAtError(files: seq<File>, ship: string,
                                               stof: string -> Option<real>, stoi: string -> Option<int>, j: nat)
    requires j <= |files| && DgsFromFiles(files[..j], ship, stof, stoi).Err?
    ensures DgsFromFiles(files, ship, stof, stoi) == DgsFromFiles(files[..j], ship, stof, stoi)
    decreases |files| - j
  {
    if j < |files| {
      assert files[..j + 1][..j] == files[..j];
      DgsFilesStopAtError(files, ship, stof, stoi, j + 1);
    } else {
      assert files[..j] == files;
    }
  }

  lemma DgsLinesStep(acc: Series, lines: seq<string>, ship: string, stof: string -> Option<real>, stoi: string -> Option<int>, i: nat)
    requires i < |lines| && DgsFromLines(acc, lines[..i], ship, stof, stoi).Ok?
    ensures var a := DgsFromLines(acc, lines[..i], ship, stof, stoi).value;
            DgsFromLines(acc, lines[..i + 1], ship, stof, stoi) ==
              if lines[i] == [] then Ok(a)
              else match DgsReading(lines[i], ship, stof, stoi)
                   case Err(e) => Err(e)
                   case Ok(p) => Ok(Push(a, p))
  {
    assert lines[..i + 1][..i] == lines[..i];
  }

  /** The lines of one file, pushed onto the series read so far. */
  method ReadDgsFile(acc: Series, lines: seq<string>, ship: string, stof: string -> Option<real>, stoi: string -> Option<int>)
    returns (r: Result<Series, string>)
    ensures r == DgsFromLines(acc, lines, ship, stof, stoi)
  {
    var rgrav, stamps := acc.0, acc.1;
    var i := 0;
    while i < |lines|
      invariant 0 <= i <= |lines|
      invariant DgsFromLines(acc, lines[..i], ship, stof, stoi) == Ok((rgrav, stamps))
    {
      DgsLinesStep(acc, lines, ship, stof, stoi, i);
      var line := lines[i];
      if line != [] {
        var reading := ParseDgsLine(line, ship, stof, stoi);
        if reading.Err? {
          DgsLinesStopAtError(acc, lines, ship, stof, stoi, i + 1);
          return Err(reading.error);
        }
        if reading.value.Some? {
          rgrav := rgrav + [reading.value.value.0];
          stamps := stamps + [reading.value.value.1];
        }
      }
      i := i + 1;
    }
    assert lines[..i] == lines;
    r := Ok((rgrav, stamps));
  }

  /** `read_dat_dgs(file_paths, ship)`. */
  method ReadDatDgs(files: seq<File>, ship: string, stof: string -> Option<real>, stoi: string -> Option<int>)
    returns (r: Result<Series, string>)
    ensures r == DgsOf(files, ship, stof, stoi)
  {
    if !(ship in LaptopShips || ship == ThompsonShip) {
      return Ok(([], []));
    }
    var acc: Series := ([], []);
    var j := 0;
    while j < |files|
      invariant 0 <= j <= |files|
      invariant DgsFromFiles(files[..j], ship, stof, stoi) == Ok(acc)
    {
      assert files[..j + 1][..j] == files[..j];
      if files[j].None? {
        DgsFilesStopAtError(files, ship, stof, stoi, j + 1);
        return Err("Failed to open file");
      }
      var next := ReadDgsFile(acc, files[j].value, ship, stof, stoi);
      if next.Err? {
        DgsFilesStopAtError(files, ship, stof, stoi, j + 1);
        return next;
      }
      acc := next.value;
      j := j + 1;
    }
    assert files[..j] == files;
    r := Ok(acc);
  }

  // ---------------------------------------------------------------------
  // What the DGS reader guarantees

  /** For a supported ship, every non-empty line adds one gravity value and one
      timestamp: the two series stay parallel. */
  lemma {:induction false} DgsLinesParallel(acc: Series, lines: seq<string>, ship: string,
                                            stof: string -> Option<real>, stoi: string -> Option<int>)
    requires DgsSupported(ship) && |acc.0| == |acc.1|
    requires DgsFromLines(acc, lines, ship, stof, stoi).Ok?
    ensures var s := DgsFromLines(acc, lines, ship, stof, stoi).value;
            |s.0| == |s.1| == |acc.0| + NonEmptyLines(lines) && s.0[..|acc.0|] == acc.0 && s.1[..|acc.1|] == acc.1
    decreases |lines|
  {
    if lines != [] {
      var init := lines[..|lines| - 1];
      DgsLinesParallel(acc, init, ship, stof, stoi);
      var a := DgsFromLines(acc, init, ship, stof, stoi).value;
      var line := lines[|lines| - 1];
      if line != [] {
        var p := DgsReading(line, ship, stof, stoi).value;
        assert p.Some?;
        assert (a.0 + [p.value.0])[..|acc.0|] == a.0[..|acc.0|];
        assert (a.1 + [p.value.1])[..|acc.1|] == a.1[..|acc.1|];
      }
    }
  }

  /** The whole read: as many gravity values as timestamps. */
  lemma {:induction false} DgsFilesParallel(files: seq<File>, ship: string, stof: string -> Option<real>, stoi: string -> Option<int>)
    requires DgsSupported(ship) && DgsFromFiles(files, ship, stof, stoi).Ok?
    ensures |DgsFromFiles(files, ship, stof, stoi).value.0| == |DgsFromFiles(files, ship, stof, stoi).value.1|
    decreases |files|
  {
    if files != [] {
      var init := files[..|files| - 1];
      DgsFilesParallel(init, ship, stof, stoi);
      var acc := DgsFromFiles(init, ship, stof, stoi).value;
      DgsLinesParallel(acc, files[|files| - 1].value, ship, stof, stoi);
    }
  }

  /** A read that succeeds opened every file. */
  lemma {:induction false} DgsFilesAllOpen(files: seq<File>, ship: string, stof: string -> Option<real>, stoi: string -> Option<int>)
    requires DgsFromFiles(files, ship, stof, stoi).Ok?
    ensures forall k :: 0 <= k < |files| ==> files[k].Some?
    decreases |files|
  {
    if files != [] {
      var init := files[..|files| - 1];
      DgsFilesAllOpen(init, ship, stof, stoi);
      assert forall k :: 0 <= k < |init| ==> files[k] == init[k];
    }
  }

  /** A laptop record whose date fields spell a calendar date from 1968 on
      is stamped with the seconds since the Unix epoch of that UTC time. */
  lemma LaptopStampIsUtc(fs: seq<string>, stof: string -> Option<real>, stoi: string -> Option<int>,
                         g: real, year: int, month: int, day: int, hour: int, minute: int, second: int)
    requires |fs| >= 25 && stof(fs[1]) == Some(g)
    requires ParseInts(fs[19..25], stoi) == Some([year, month, day, hour, minute, second])
    requires 1 <= month <= 12 && year >= 1968
    ensures LaptopReading(fs, stof, stoi) == Ok((g, UtcSeconds(year, month - 1, day, hour, minute, second)))
  {
    var v := [year, month, day, hour, minute, second];
    var t := Tm(second, minute, hour, day, month - 1, year - 1900, 0);
    assert Tm(v[5], v[4], v[3], v[2], v[1] - 1, v[0] - 1900, 0) == t;
    TimegmOfFields(year, month, day, hour, minute, second, 0);
    assert LaptopReading(fs, stof, stoi) == Ok((g, MyTimegm(t)));
  }

  /** my_timegm of the broken-down time the readers build from a date from 1968 on. */
  lemma TimegmOfFields(year: int, month: int, day: int, hour: int, minute: int, second: int, dst: int)
    requires 1 <= month <= 12 && year >= 1968 && dst != 1
    ensures var t := Tm(second, minute, hour, day, month - 1, year - 1900, dst);
            MonthIndexDefined(t) && MyTimegm(t) == UtcSeconds(year, month - 1, day, hour, minute, second)
  {
    var t := Tm(second, minute, hour, day, month - 1, year - 1900, dst);
    CDivNonNegative(month - 1, 12);
    assert CDiv(month - 1, 12) == 0 && CMod(month - 1, 12) == month - 1;
    MyTimegmAgrees(t);
  }

  /** A Thompson record whose date and time fields scan completely as
      month/day/year-hour:minute:second, with a month from 1 to 12 and a year
      from 1968 on, is stamped with the seconds since the epoch of that UTC time. */
  lemma ThompsonStampIsUtc(fs: seq<string>, stof: string -> Option<real>,
                           g: real, year: int, month: int, day: int, hour: int, minute: int, second: int)
    requires |fs| >= 4 && stof(fs[3]) == Some(g)
    requires Scanf(fs[0] + "-" + fs[1], UsFormat) == [month, day, year, hour, minute, second]
    requires 1 <= month <= 12 && year >= 1968
    ensures ThompsonReading(fs, stof) == Ok((g, UtcSeconds(year, month - 1, day, hour, minute, second)))
  {
    UsTimeFields(fs[0] + "-" + fs[1], year, month, day, hour, minute, second);
    TimegmOfFields(year, month, day, hour, minute, second, -1);
  }

  /** A complete month/day/year-hour:minute:second scan gives years since 1900, months from 0 and DST unknown. */
  lemma UsTimeFields(datestr: string, year: int, month: int, day: int, hour: int, minute: int, second: int)
    requires Scanf(datestr, UsFormat) == [month, day, year, hour, minute, second]
    ensures StrToTm(datestr, 1) == Tm(second, minute, hour, day, month - 1, year - 1900, -1)
  {
  }
}
