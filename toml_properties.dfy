/** What `toml_to_tie` in lib/rw-ties.cpp guarantees about the lines it
    reads: which lines it skips, how it treats the landtie flag and the
    timestamp keys, that the averages are replaced as a whole, and which
    fields of the tie it never touches. */
module TomlProperties {
  import opened Wrappers
  import opened TextLines
  import opened TieStructs
  import opened TimeFunctions
  import opened RwTies
  import RwGeneral

  /** The slot a line writes to, if it is a key=value line whose key does
      not throw. */
  function LineSlot(line: string): Option<Slot>
  {
    if line == [] || RwGeneral.IsHeader(line) then None
    else
      match SplitKeyValue(line)
      case None => None
      case Some(kv) => SlotOf(kv.0)
  }

  /** Empty lines, section headers and lines without `=` change nothing. */
  lemma SkippedLines(rd: TomlReader, line: string, stof: string -> Option<real>)
    requires ReaderShape(rd)
    requires line == [] || RwGeneral.IsHeader(line) || '=' !in line
    ensures ApplyLine(rd, line, stof) == Ok(rd)
  {
  }

  /** A line is read as its key, then `=`, then the value. */
  lemma KeyValueLine(rd: TomlReader, key: string, text: string, stof: string -> Option<real>)
    requires ReaderShape(rd) && '=' !in key && key != [] && key[0] != '['
    ensures ApplyLine(rd, Line(key, text), stof) ==
              match SlotOf(key)
              case None => Err("out_of_range")
              case Some(slot) => ApplySlot(rd, slot, Unquote(text), stof)
  {
    SplitKeyValueParts(key, text);
    assert Line(key, text)[0] == key[0];
  }

  /** A quoted text value is stored without its quotes. */
  lemma ReadsQuotedText(rd: TomlReader, f: TextField, v: string, stof: string -> Option<real>)
    requires ReaderShape(rd)
    ensures ApplyLine(rd, Line(TextKey(f), Quote(v)), stof) == Ok(rd.(tie := SetText(rd.tie, f, v)))
  {
    TextKeyHandled(f);
    KeyValueLine(rd, TextKey(f), Quote(v), stof);
    UnquoteQuote(v);
  }

  /** `landtie` becomes true only for "true", false only for "false", and
      any other value leaves the reader as it was. */
  lemma LandtieValues(rd: TomlReader, text: string, stof: string -> Option<real>)
    requires ReaderShape(rd)
    ensures var r := ApplyLine(rd, Line("landtie", text), stof);
            var v := Unquote(text);
            && r.Ok?
            && r.value == rd.(tie := rd.tie.(lminfo := rd.tie.lminfo.(landtie := r.value.tie.lminfo.landtie)))
            && (v == "true" ==> r.value.tie.lminfo.landtie)
            && (v == "false" ==> !r.value.tie.lminfo.landtie)
            && (v != "true" && v != "false" ==> r.value == rd)
  {
    assert KeySlot("landtie") == Some(LandtieSlot);
    KeyValueLine(rd, "landtie", text, stof);
  }

  /** Any key whose characters 2 and 3 are `.t` is a timestamp key,
      routed by its first two characters; none of the exact keys has that
      shape. */
  lemma StampKeys(key: string)
    requires |key| >= 4 && key[2..4] == ".t"
    ensures SlotOf(key) == Some(StampSlot(key[..2]))
  {
    assert key[2] == '.' && key[3] == 't';
    if |key| == 4 {
      Differ(key, "bias", 3);
    }
  }

  /** A key shorter than two characters makes `substr(2, 2)` throw. */
  lemma ShortKeyThrows(rd: TomlReader, key: string, text: string, stof: string -> Option<real>)
    requires ReaderShape(rd) && |key| < 2 && '=' !in key && (key == [] || key[0] != '[')
    ensures ApplyLine(rd, Line(key, text), stof) == Err("out_of_range")
  {
    SplitKeyValueParts(key, text);
    assert Line(key, text)[0] == (if key == [] then '=' else key[0]);
  }

  // ---------------------------------------------------------------------
  // The averages are replaced as a whole

  function WithAverages(rd: TomlReader, a: seq<real>, b: seq<int>): TomlReader
  {
    rd.(tie := rd.tie.(mgalAverages := a, tAverages := b))
  }

  lemma SetTextIgnoresAverages(t: TieState, f: TextField, v: string, a: seq<real>, b: seq<int>)
    ensures SetText(t.(mgalAverages := a, tAverages := b), f, v) == SetText(t, f, v).(mgalAverages := a, tAverages := b)
  {
  }

  lemma SetNumberIgnoresAverages(t: TieState, f: NumberField, x: real, a: seq<real>, b: seq<int>)
    ensures SetNumber(t.(mgalAverages := a, tAverages := b), f, x) == SetNumber(t, f, x).(mgalAverages := a, tAverages := b)
  {
  }

  lemma SetReadingIgnoresAverages(t: TieState, g: Group, k: Index, v: ValTime, a: seq<real>, b: seq<int>)
    requires ShapeOk(t) && |a| == 3 && |b| == 3
    ensures GroupOf(t.(mgalAverages := a, tAverages := b), g) == GroupOf(t, g)
    ensures SetReading(t.(mgalAverages := a, tAverages := b), g, k, v) == SetReading(t, g, k, v).(mgalAverages := a, tAverages := b)
  {
  }

  lemma StoreNumberIgnoresAverages(rd: TomlReader, slot: Slot, x: real, a: seq<real>, b: seq<int>)
    requires ReaderShape(rd) && IsNumeric(slot) && |a| == 3 && |b| == 3
    ensures StoreNumber(WithAverages(rd, a, b), slot, x) == WithAverages(StoreNumber(rd, slot, x), a, b)
  {
    match slot {
      case NumberSlot(f) => SetNumberIgnoresAverages(rd.tie, f, x, a, b);
      case MgalAverageSlot(k) =>
      case CountSlot(g, k) =>
        SetReadingIgnoresAverages(rd.tie, g, k, GroupOf(rd.tie, g)[k].(h1 := x), a, b);
      case MgalSlot(g, k) =>
        SetReadingIgnoresAverages(rd.tie, g, k, GroupOf(rd.tie, g)[k].(m1 := x), a, b);
    }
  }

  lemma StoreStampIgnoresAverages(rd: TomlReader, p: string, secs: int, a: seq<real>, b: seq<int>)
    requires ReaderShape(rd) && |a| == 3 && |b| == 3
    ensures StoreStamp(WithAverages(rd, a, b), p, secs) == WithAverages(StoreStamp(rd, p, secs), a, b)
  {
    match RouteOf(p) {
      case ReadingTime(g, k) =>
        SetReadingIgnoresAverages(rd.tie, g, k, GroupOf(rd.tie, g)[k].(t1 := secs), a, b);
      case AverageTime(k) =>
      case Nowhere =>
    }
  }

  lemma ApplySlotIgnoresAverages(rd: TomlReader, slot: Slot, value: string, a: seq<real>, b: seq<int>, stof: string -> Option<real>)
    requires ReaderShape(rd) && |a| == 3 && |b| == 3
    ensures ApplySlot(WithAverages(rd, a, b), slot, value, stof) ==
              match ApplySlot(rd, slot, value, stof)
              case Err(e) => Err(e)
              case Ok(r) => Ok(WithAverages(r, a, b))
  {
    if IsNumeric(slot) {
      if stof(value).Some? {
        StoreNumberIgnoresAverages(rd, slot, stof(value).value, a, b);
      }
    } else if slot.TextSlot? {
      SetTextIgnoresAverages(rd.tie, slot.text, value, a, b);
    } else if slot.StampSlot? {
      var t := StrToTm(value, 2);
      if MonthIndexDefined(t) {
        StoreStampIgnoresAverages(rd, slot.prefix, MyTimegm(t), a, b);
      }
    }
  }

  lemma ApplyLineIgnoresAverages(rd: TomlReader, line: string, a: seq<real>, b: seq<int>, stof: string -> Option<real>)
    requires ReaderShape(rd) && |a| == 3 && |b| == 3
    ensures ApplyLine(WithAverages(rd, a, b), line, stof) ==
              match ApplyLine(rd, line, stof)
              case Err(e) => Err(e)
              case Ok(r) => Ok(WithAverages(r, a, b))
  {
    if line != [] && !RwGeneral.IsHeader(line) && SplitKeyValue(line).Some? {
      var kv := SplitKeyValue(line).value;
      if SlotOf(kv.0).Some? {
        ApplySlotIgnoresAverages(rd, SlotOf(kv.0).value, kv.1, a, b, stof);
      }
    }
  }

  lemma {:induction false} TomlFromIgnoresAverages(rd: TomlReader, lines: seq<string>, a: seq<real>, b: seq<int>, stof: string -> Option<real>)
    requires ReaderShape(rd) && |a| == 3 && |b| == 3
    ensures TomlFrom(WithAverages(rd, a, b), lines, stof) ==
              match TomlFrom(rd, lines, stof)
              case Err(e) => Err(e)
              case Ok(r) => Ok(WithAverages(r, a, b))
    decreases |lines|
  {
    if lines != [] {
      var init := lines[..|lines| - 1];
      TomlFromIgnoresAverages(rd, init, a, b, stof);
      if TomlFrom(rd, init, stof).Ok? {
        ApplyLineIgnoresAverages(TomlFrom(rd, init, stof).value, lines[|lines| - 1], a, b, stof);
      }
    }
  }

  /** The averages held by the tie before the read do not matter: the
      result is the same whatever they were. */
  lemma AveragesReplaced(s: TieState, a: seq<real>, b: seq<int>, lines: seq<string>, stof: string -> Option<real>)
    requires ShapeOk(s) && |a| == 3 && |b| == 3
    ensures TomlOf(s.(mgalAverages := a, tAverages := b), Some(lines), stof) == TomlOf(s, Some(lines), stof)
  {
    assert StartToml(s.(mgalAverages := a, tAverages := b)) == WithAverages(StartToml(s), a, b);
    TomlFromIgnoresAverages(StartToml(s), lines, a, b, stof);
  }

  /** The line writes the mgal average k. */
  predicate WritesMgalAverage(line: string, k: Index)
  {
    LineSlot(line) == Some(MgalAverageSlot(k))
  }

  /** The line is a timestamp routed to the average time k. */
  predicate WritesAverageTime(line: string, k: Index)
  {
    match LineSlot(line)
    case Some(StampSlot(p)) => RouteOf(p) == AverageTime(k)
    case _ => false
  }

  lemma AverageSlotStep(rd: TomlReader, slot: Slot, value: string, k: Index, stof: string -> Option<real>)
    requires ReaderShape(rd) && ApplySlot(rd, slot, value, stof).Ok?
    ensures slot != MgalAverageSlot(k) ==> ApplySlot(rd, slot, value, stof).value.mgalA[k] == rd.mgalA[k]
    ensures !(slot.StampSlot? && RouteOf(slot.prefix) == AverageTime(k)) ==>
              ApplySlot(rd, slot, value, stof).value.tmgalA[k] == rd.tmgalA[k]
  {
  }

  lemma AverageLineStep(rd: TomlReader, line: string, k: Index, stof: string -> Option<real>)
    requires ReaderShape(rd) && ApplyLine(rd, line, stof).Ok?
    ensures !WritesMgalAverage(line, k) ==> ApplyLine(rd, line, stof).value.mgalA[k] == rd.mgalA[k]
    ensures !WritesAverageTime(line, k) ==> ApplyLine(rd, line, stof).value.tmgalA[k] == rd.tmgalA[k]
  {
    if line != [] && !RwGeneral.IsHeader(line) && SplitKeyValue(line).Some? {
      var kv := SplitKeyValue(line).value;
      if SlotOf(kv.0).Some? {
        AverageSlotStep(rd, SlotOf(kv.0).value, kv.1, k, stof);
      }
    }
  }

  lemma {:induction false} AveragesUntouched(rd: TomlReader, lines: seq<string>, k: Index, stof: string -> Option<real>)
    requires ReaderShape(rd) && TomlFrom(rd, lines, stof).Ok?
    ensures (forall i :: 0 <= i < |lines| ==> !WritesMgalAverage(lines[i], k)) ==>
              TomlFrom(rd, lines, stof).value.mgalA[k] == rd.mgalA[k]
    ensures (forall i :: 0 <= i < |lines| ==> !WritesAverageTime(lines[i], k)) ==>
              TomlFrom(rd, lines, stof).value.tmgalA[k] == rd.tmgalA[k]
    decreases |lines|
  {
    if lines != [] {
      var init := lines[..|lines| - 1];
      AveragesUntouched(rd, init, k, stof);
      AverageLineStep(TomlFrom(rd, init, stof).value, lines[|lines| - 1], k, stof);
      assert forall i :: 0 <= i < |init| ==> init[i] == lines[i];
    }
  }

  /** An average no line of the file writes ends up as -999, whatever the
      tie held before. */
  lemma MissingAverageIsUnset(s: TieState, lines: seq<string>, k: Index, stof: string -> Option<real>)
    requires ShapeOk(s) && TomlOf(s, Some(lines), stof).Ok?
    ensures (forall i :: 0 <= i < |lines| ==> !WritesMgalAverage(lines[i], k)) ==>
              TomlOf(s, Some(lines), stof).value.mgalAverages[k] == UnsetReal
    ensures (forall i :: 0 <= i < |lines| ==> !WritesAverageTime(lines[i], k)) ==>
              TomlOf(s, Some(lines), stof).value.tAverages[k] == Unset
  {
    AveragesUntouched(StartToml(s), lines, k, stof);
  }

  // ---------------------------------------------------------------------
  // Fields no key names

  /** The parts of the tie the file does not hold: the gravity series, the
      databases, the calibration and the `m1` of the heights. */
  predicate SameUnkeyed(a: TieState, b: TieState)
    requires ShapeOk(a) && ShapeOk(b)
  {
    && a.shinfo.gravgrav == b.shinfo.gravgrav && a.shinfo.gravtime == b.shinfo.gravtime
    && a.stinfo.stationDb == b.stinfo.stationDb && a.stinfo.thisStation == b.stinfo.thisStation
    && a.lminfo.landmeterDb == b.lminfo.landmeterDb && a.lminfo.calib == b.lminfo.calib
    && a.heights[0].m1 == b.heights[0].m1 && a.heights[1].m1 == b.heights[1].m1
    && a.heights[2].m1 == b.heights[2].m1
  }

  /** No key writes the `m1` of a height. */
  lemma NoHeightMgalKey(key: string)
    ensures !(SlotOf(key).Some? && SlotOf(key).value.MgalSlot? && SlotOf(key).value.mgroup == GroupH)
  {
  }

  lemma SetTextKeepsUnkeyed(t: TieState, f: TextField, v: string)
    requires ShapeOk(t)
    ensures SameUnkeyed(t, SetText(t, f, v))
  {
  }

  lemma SetNumberKeepsUnkeyed(t: TieState, f: NumberField, x: real)
    requires ShapeOk(t)
    ensures SameUnkeyed(t, SetNumber(t, f, x))
  {
  }

  lemma SetReadingKeepsUnkeyed(t: TieState, g: Group, k: Index, v: ValTime)
    requires ShapeOk(t) && (g == GroupH ==> v.m1 == t.heights[k].m1)
    ensures SameUnkeyed(t, SetReading(t, g, k, v))
  {
  }

  lemma StoreNumberKeepsUnkeyed(rd: TomlReader, slot: Slot, x: real)
    requires ReaderShape(rd) && IsNumeric(slot)
    requires !(slot.MgalSlot? && slot.mgroup == GroupH)
    ensures SameUnkeyed(rd.tie, StoreNumber(rd, slot, x).tie)
  {
    match slot {
      case NumberSlot(f) => SetNumberKeepsUnkeyed(rd.tie, f, x);
      case MgalAverageSlot(k) =>
      case CountSlot(g, k) =>
        SetReadingKeepsUnkeyed(rd.tie, g, k, GroupOf(rd.tie, g)[k].(h1 := x));
      case MgalSlot(g, k) =>
        SetReadingKeepsUnkeyed(rd.tie, g, k, GroupOf(rd.tie, g)[k].(m1 := x));
    }
  }

  lemma StoreStampKeepsUnkeyed(rd: TomlReader, p: string, secs: int)
    requires ReaderShape(rd)
    ensures SameUnkeyed(rd.tie, StoreStamp(rd, p, secs).tie)
  {
    match RouteOf(p) {
      case ReadingTime(g, k) =>
        SetReadingKeepsUnkeyed(rd.tie, g, k, GroupOf(rd.tie, g)[k].(t1 := secs));
      case AverageTime(k) =>
      case Nowhere =>
    }
  }

  lemma UnkeyedSlotStep(rd: TomlReader, slot: Slot, value: string, stof: string -> Option<real>)
    requires ReaderShape(rd) && ApplySlot(rd, slot, value, stof).Ok?
    requires !(slot.MgalSlot? && slot.mgroup == GroupH)
    ensures SameUnkeyed(rd.tie, ApplySlot(rd, slot, value, stof).value.tie)
  {
    if IsNumeric(slot) {
      StoreNumberKeepsUnkeyed(rd, slot, stof(value).value);
    } else if slot.TextSlot? {
      SetTextKeepsUnkeyed(rd.tie, slot.text, value);
    } else if slot.StampSlot? {
      StoreStampKeepsUnkeyed(rd, slot.prefix, MyTimegm(StrToTm(value, 2)));
    }
  }

  lemma UnkeyedLineStep(rd: TomlReader, line: string, stof: string -> Option<real>)
    requires ReaderShape(rd) && ApplyLine(rd, line, stof).Ok?
    ensures SameUnkeyed(rd.tie, ApplyLine(rd, line, stof).value.tie)
  {
    if line != [] && !RwGeneral.IsHeader(line) && SplitKeyValue(line).Some? {
      var kv := SplitKeyValue(line).value;
      NoHeightMgalKey(kv.0);
      if SlotOf(kv.0).Some? {
        UnkeyedSlotStep(rd, SlotOf(kv.0).value, kv.1, stof);
      }
    }
  }

  lemma {:induction false} UnkeyedFold(rd: TomlReader, lines: seq<string>, stof: string -> Option<real>)
    requires ReaderShape(rd) && TomlFrom(rd, lines, stof).Ok?
    ensures SameUnkeyed(rd.tie, TomlFrom(rd, lines, stof).value.tie)
    decreases |lines|
  {
    if lines != [] {
      var init := lines[..|lines| - 1];
      UnkeyedFold(rd, init, stof);
      UnkeyedLineStep(TomlFrom(rd, init, stof).value, lines[|lines| - 1], stof);
    }
  }

  /** The reader leaves every field that has no key as it was. */
  lemma ReaderKeepsUnkeyed(s: TieState, file: RwGeneral.File, stof: string -> Option<real>)
    requires ShapeOk(s) && TomlOf(s, file, stof).Ok?
    ensures SameUnkeyed(s, TomlOf(s, file, stof).value)
  {
    if file.Some? {
      UnkeyedFold(StartToml(s), file.value, stof);
    }
  }
}
