/** The data model of a gravity tie: the value records of lib/tie_structs.h,
    the "unset" sentinels every guard relies on, and the `tie` aggregate that
    the computations update in place. Widget handles are not modelled. */
module TieStructs {

  /** Sentinel for an unset reading, height, gravity or time (-999). */
  const Unset: int := -999
  const UnsetReal: real := -999.0
  /** Sentinel of the averaged meter gravity before any bias computation. */
  const UnsetDgsGrav: real := -99999.0
  /** Sentinel of the drift before any land tie. */
  const UnsetDrift: real := -999999.0
  /** Free-air correction factor, mGal per metre (grav-constants.h). */
  const FaaFactor: real := 0.3086

  /** A number with the time it was taken (`val_time`): `h1` is a water height
      or a meter count, `m1` the count converted to mGal (land ties only). */
  datatype ValTime = ValTime(t1: int, h1: real, m1: real)

  /** A freshly constructed `val_time`: everything unset. */
  const FreshValTime: ValTime := ValTime(Unset, UnsetReal, UnsetReal)

  /** The calibration table of a land meter: three parallel columns. */
  datatype Calibration = Calibration(brackets: seq<real>, mgvals: seq<real>, factors: seq<real>)

  predicate WellFormed(c: Calibration)
  {
    |c.mgvals| == |c.brackets| && |c.factors| == |c.brackets|
  }

  const EmptyCalibration: Calibration := Calibration([], [], [])

  type Db = map<string, map<string, string>>

  /** `ship_info`: the ship and the meter's raw gravity series. */
  datatype ShipInfo = ShipInfo(ship: string, altShip: string, gravgrav: seq<real>, gravtime: seq<int>)

  /** `sta_info`: the reference station and its absolute gravity. */
  datatype StaInfo = StaInfo(station: string, altStation: string, stationGravity: real,
                             stationDb: Db, thisStation: map<string, string>)

  /** `pers_info`: who did the tie. */
  datatype PersInfo = PersInfo(personnel: string)

  /** `lm_info`: everything about the land tie. */
  datatype LmInfo = LmInfo(meter: string, altMeter: string, calFilePath: string,
                           shipLon: real, shipLat: real, shipElev: real, meterTemp: real,
                           landtie: bool, landTieValue: real, landmeterDb: Db, calib: Calibration)

  const FreshShipInfo: ShipInfo := ShipInfo("", "", [], [])
  const FreshStaInfo: StaInfo := StaInfo("", "", UnsetReal, map[], map[])
  const FreshPersInfo: PersInfo := PersInfo("")
  const FreshLmInfo: LmInfo := LmInfo("", "", "", UnsetReal, UnsetReal, UnsetReal, UnsetReal,
                                      false, UnsetReal, map[], EmptyCalibration)

  /** The whole tie as one value: what the persistence reader transforms. */
  datatype TieState = TieState(
    shinfo: ShipInfo, stinfo: StaInfo, prinfo: PersInfo, lminfo: LmInfo,
    heights: seq<ValTime>, acounts: seq<ValTime>, bcounts: seq<ValTime>, ccounts: seq<ValTime>,
    mgalAverages: seq<real>, tAverages: seq<int>,
    bias: real, avgHeight: real, waterGrav: real, avgDgsGrav: real, drift: real)

  /** The shape every tie keeps: three readings per group, three averages,
      a calibration with parallel columns, and one time per gravity sample. */
  predicate ShapeOk(s: TieState)
  {
    && |s.heights| == 3 && |s.acounts| == 3 && |s.bcounts| == 3 && |s.ccounts| == 3
    && |s.mgalAverages| == 3 && |s.tAverages| == 3
    && WellFormed(s.lminfo.calib)
    && |s.shinfo.gravgrav| == |s.shinfo.gravtime|
  }

  /** The `tie` aggregate, shared by every callback and updated in place. */
  class Tie {
    var shinfo: ShipInfo
    var stinfo: StaInfo
    var prinfo: PersInfo
    var lminfo: LmInfo
    var heights: seq<ValTime>
    var acounts: seq<ValTime>
    var bcounts: seq<ValTime>
    var ccounts: seq<ValTime>
    var mgalAverages: seq<real>
    var tAverages: seq<int>
    var bias: real
    var avgHeight: real
    var waterGrav: real
    var avgDgsGrav: real
    var drift: real

    function State(): TieState
      reads this
    {
      TieState(shinfo, stinfo, prinfo, lminfo, heights, acounts, bcounts, ccounts,
               mgalAverages, tAverages, bias, avgHeight, waterGrav, avgDgsGrav, drift)
    }

    ghost predicate Valid()
      reads this
    {
      ShapeOk(State())
    }

    /** Writes back the three occupation groups. */
    method SetGroups(a: seq<ValTime>, b: seq<ValTime>, c: seq<ValTime>)
      modifies this
      ensures State() == old(State()).(acounts := a, bcounts := b, ccounts := c)
    {
      acounts, bcounts, ccounts := a, b, c;
    }

    /** Writes back the land tie results. */
    method SetLandTieResults(m: seq<real>, t: seq<int>, d: real, value: real)
      modifies this
      ensures State() == old(State()).(mgalAverages := m, tAverages := t, drift := d,
                                       lminfo := old(lminfo).(landTieValue := value))
    {
      lminfo := lminfo.(landTieValue := value);
      drift := d;
      mgalAverages := m;
      tAverages := t;
    }

    /** A new tie: three unset readings everywhere and every result at its sentinel. */
    constructor ()
      ensures Valid()
      ensures shinfo == FreshShipInfo && stinfo == FreshStaInfo && prinfo == FreshPersInfo
      ensures lminfo == FreshLmInfo
      ensures lminfo.landTieValue == -999.0 && !lminfo.landtie && stinfo.stationGravity == -999.0
      ensures heights == [FreshValTime, FreshValTime, FreshValTime]
      ensures acounts == heights && bcounts == heights && ccounts == heights
      ensures mgalAverages == [-999.0, -999.0, -999.0] && tAverages == [-999, -999, -999]
      ensures bias == -999.0 && avgHeight == -999.0 && waterGrav == -999.0
      ensures avgDgsGrav == -99999.0 && drift == -999999.0
    {
      shinfo, stinfo, prinfo, lminfo := FreshShipInfo, FreshStaInfo, FreshPersInfo, FreshLmInfo;
      heights := [FreshValTime, FreshValTime, FreshValTime];
      acounts := [FreshValTime, FreshValTime, FreshValTime];
      bcounts := [FreshValTime, FreshValTime, FreshValTime];
      ccounts := [FreshValTime, FreshValTime, FreshValTime];
      mgalAverages := [UnsetReal, UnsetReal, UnsetReal];
      tAverages := [Unset, Unset, Unset];
      bias, avgHeight, waterGrav := UnsetReal, UnsetReal, UnsetReal;
      avgDgsGrav := UnsetDgsGrav;
      drift := UnsetDrift;
    }
  }
}
