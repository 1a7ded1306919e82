/**
 * The sensor unit's temperature endpoint (sensorunit/router/temperatures.go): the readings
 * are mapped to the "oven" and "material" values the back-end serves. The oven value is the
 * higher of the two oven sensors, or the only valid one, or the invalid reading.
 */
module SensorRouter {
  import opened Wrappers
  import opened ApiTypes
  import opened SensorSerial

  /** The position of the last reading called `name`, or -1 when there is none. */
  function LastIndex(temps: seq<Temperature>, name: string): (r: int)
    ensures -1 <= r < |temps|
    ensures r == -1 ==> forall i :: 0 <= i < |temps| ==> temps[i].name != name
    ensures r >= 0 ==> temps[r].name == name && forall j :: r < j < |temps| ==> temps[j].name != name
  {
    if temps == [] then -1
    else if temps[|temps| - 1].name == name then |temps| - 1
    else LastIndex(temps[..|temps| - 1], name)
  }

  /** The value of the last reading called `name`: a later reading of the same sensor replaces an earlier one. */
  function LastNamed(temps: seq<Temperature>, name: string): (r: Option<real>)
    ensures r.None? <==> forall i :: 0 <= i < |temps| ==> temps[i].name != name
  {
    var k := LastIndex(temps, name);
    if k < 0 then None else Some(temps[k].value)
  }

  /** One more reading replaces the value for its own name and leaves the others alone. */
  lemma LastNamedStep(temps: seq<Temperature>, i: nat, name: string)
    requires i < |temps|
    ensures LastNamed(temps[..i + 1], name) == if temps[i].name == name then Some(temps[i].value) else LastNamed(temps[..i], name)
  {
    assert temps[..i + 1][..i] == temps[..i];
  }

  /** A missing oven reading is the zero value 0, which counts as valid. */
  function OrZero(r: Option<real>): real {
    match r
    case None => 0.0
    case Some(v) => v
  }

  /** The oven value: the higher of two valid readings, else the valid one, else the invalid reading. */
  function OvenValue(primary: real, secondary: real): (r: real)
    ensures primary != InvalidTemperatureReading && secondary != InvalidTemperatureReading ==>
              r == (if primary > secondary then primary else secondary) && r >= primary && r >= secondary
    ensures primary != InvalidTemperatureReading && secondary == InvalidTemperatureReading ==> r == primary
    ensures primary == InvalidTemperatureReading && secondary != InvalidTemperatureReading ==> r == secondary
    ensures primary == InvalidTemperatureReading && secondary == InvalidTemperatureReading ==> r == InvalidTemperatureReading
    ensures r == primary || r == secondary
  {
    if primary != InvalidTemperatureReading && secondary != InvalidTemperatureReading then
      if primary > secondary then primary else secondary
    else if primary != InvalidTemperatureReading then primary
    else if secondary != InvalidTemperatureReading then secondary
    else InvalidTemperatureReading
  }

  /**
   * The response `getTemperatures` builds from the readings: "oven" always, and "material"
   * exactly when there is a "Wood" reading, the last one; other names are ignored.
   */
  method SelectTemperatures(temps: seq<Temperature>) returns (response: map<string, real>)
    ensures response.Keys == {"oven"} + (if LastNamed(temps, "Wood").Some? then {"material"} else {})
    ensures response["oven"] == OvenValue(OrZero(LastNamed(temps, "OvenPrimary")), OrZero(LastNamed(temps, "OvenSecondary")))
    ensures "material" in response ==> response["material"] == LastNamed(temps, "Wood").value
  {
    response := map[];
    var ovenPrimary: real := 0.0;
    var ovenSecondary: real := 0.0;
    assert "OvenPrimary" != "OvenSecondary" && "OvenPrimary" != "Wood" && "OvenSecondary" != "Wood" by {
      assert "OvenPrimary"[4] != "OvenSecondary"[4];
    }
    for i := 0 to |temps|
      invariant ovenPrimary == OrZero(LastNamed(temps[..i], "OvenPrimary"))
      invariant ovenSecondary == OrZero(LastNamed(temps[..i], "OvenSecondary"))
      invariant response.Keys <= {"material"}
      invariant "material" in response <==> LastNamed(temps[..i], "Wood").Some?
      invariant "material" in response ==> response["material"] == LastNamed(temps[..i], "Wood").value
    {
      var temp := temps[i];
      LastNamedStep(temps, i, "OvenPrimary");
      LastNamedStep(temps, i, "OvenSecondary");
      LastNamedStep(temps, i, "Wood");
      if temp.name == "OvenPrimary" {
        ovenPrimary := temp.value;
      } else if temp.name == "OvenSecondary" {
        ovenSecondary := temp.value;
      } else if temp.name == "Wood" {
        response := response["material" := temp.value];
      }
    }
    assert temps[..|temps|] == temps;
    response := response["oven" := OvenValue(ovenPrimary, ovenSecondary)];
    assert response.Keys == {"oven"} + (if LastNamed(temps, "Wood").Some? then {"material"} else {});
  }

  /** With one oven sensor missing and the other valid, the oven reads at least 0: the missing one counts as a valid 0. */
  lemma MissingOvenCountsAsZero(temps: seq<Temperature>)
    requires LastNamed(temps, "OvenPrimary").None?
    requires LastNamed(temps, "OvenSecondary").Some? && LastNamed(temps, "OvenSecondary").value != InvalidTemperatureReading
    ensures var oven := OvenValue(OrZero(LastNamed(temps, "OvenPrimary")), OrZero(LastNamed(temps, "OvenSecondary")));
      oven >= 0.0 && oven >= LastNamed(temps, "OvenSecondary").value
  {
  }
}
