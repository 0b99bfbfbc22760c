/**
 * The pan, tilt and zoom controls of the UVC camera: three current values
 * kept by the firmware, read back by the UVC control requests and set by
 * them. Setting a value shows it on the bottom line of the display; setting
 * the zoom also drives the sensor's lens. Nothing is clamped here: the UVC
 * ranges are advertised to the host but a value outside them is stored as
 * it comes.
 */
module Ptz {
  import opened Bytes
  import Ssd1306
  import Mt9dSensor
  import Mt9d111
  import Mt9d112
  import SensorBus

  /** The advertised zoom range (objective focal length) and its default. */
  const ZOOM_MIN: u16 := 0
  const ZOOM_MAX: u16 := 255
  const ZOOM_DEFAULT: u16 := 0

  /** The advertised range of pan and of tilt, in arc seconds. */
  const PANTILT_MIN: i32 := -648000
  const PANTILT_MAX: i32 := 648000

  predicate PanTiltInRange(v: int)
  {
    PANTILT_MIN <= v <= PANTILT_MAX
  }

  predicate ZoomInRange(v: int)
  {
    ZOOM_MIN <= v <= ZOOM_MAX
  }

  /**
   * Zoom values from 254 up drive the MT9D111 lens identically: the sensor
   * clamps its PWM on time at 254, so the advertised maximum 255 and every
   * out-of-range zoom the controls store act like 254.
   */
  lemma ZoomSaturates(v: u16)
    requires v >= 254
    ensures Mt9d111.Focus(v) == Mt9d111.Focus(254)
  {
  }

  /** Below the clamp, different zooms drive the lens with different PWM on times. */
  lemma ZoomDistinguishes(v: u16, w: u16)
    requires 1 < v < w <= 254
    ensures Mt9d111.Focus(v) != Mt9d111.Focus(w)
  {
    assert Mt9d111.Focus(v)[|Mt9d111.Focus(v)| - 1] == SensorBus.RegWrite(Mt9d111.MCU_VARS.dataReg, v);
    assert Mt9d111.Focus(w)[|Mt9d111.Focus(w)| - 1] == SensorBus.RegWrite(Mt9d111.MCU_VARS.dataReg, w);
  }

  class Controls {
    /** `pan_cur`, `tilt_cur` and `zoom_cur`. */
    var pan: i32
    var tilt: i32
    var zoom: u16
    /** The bands line3 has drawn, oldest first. */
    var shown: seq<Ssd1306.TextBand>
    /** The sensor that sensorFocus drives. */
    const sensor: Mt9dSensor.DualSensor

    /** The statics start out zero, as C's zero-initialised storage does. */
    constructor (sensor: Mt9dSensor.DualSensor)
      ensures this.sensor == sensor
      ensures pan == 0 && tilt == 0 && zoom == 0 && shown == []
    {
      this.sensor := sensor;
      pan, tilt, zoom := 0, 0, 0;
      shown := [];
    }

    /** CyFxUvcAppGetCurrentZoom. */
    function CurrentZoom(): u16
      reads this
    {
      zoom
    }

    /** CyFxUvcAppGetCurrentPan. */
    function CurrentPan(): i32
      reads this
    {
      pan
    }

    /** CyFxUvcAppGetCurrentTilt. */
    function CurrentTilt(): i32
      reads this
    {
      tilt
    }

    /** All three values within the ranges the controls advertise. */
    predicate InRange()
      reads this
    {
      PanTiltInRange(pan) && PanTiltInRange(tilt) && ZoomInRange(zoom)
    }

    /** PTZInit: zoom back to its default, pan and tilt to 0; afterwards all three are in range. */
    method Init()
      modifies this
      ensures CurrentZoom() == ZOOM_DEFAULT && CurrentPan() == 0 && CurrentTilt() == 0
      ensures InRange()
      ensures shown == old(shown)
    {
      zoom := ZOOM_DEFAULT;
      pan := 0;
      tilt := 0;
    }

    /** line3 as these controls call it: the label and value formatted and drawn in the bottom band. */
    method ShowLine3(str: seq<char>, value: i32)
      requires |str| <= 23
      modifies this`shown
      ensures shown == old(shown) + [Ssd1306.Line3(str, value)]
    {
      var text := Ssd1306.Display.FormatLine3(str, value);
      shown := shown + [Ssd1306.TextBand(text, 0, 42, 128, 21)];
    }

    /**
     * CyFxUvcAppModifyPan: the pan takes the value as given, in range or
     * not, tilt and zoom are untouched, and "pan" with the value is shown.
     */
    method ModifyPan(panValue: i32)
      modifies this`pan, this`shown
      ensures CurrentPan() == panValue
      ensures shown == old(shown) + [Ssd1306.Line3("pan", panValue)]
      ensures old(InRange()) ==> (InRange() <==> PanTiltInRange(panValue))
    {
      pan := panValue;
      ShowLine3("pan", panValue);
    }

    /** CyFxUvcAppModifyTilt: as ModifyPan, for the tilt. */
    method ModifyTilt(tiltValue: i32)
      modifies this`tilt, this`shown
      ensures CurrentTilt() == tiltValue
      ensures shown == old(shown) + [Ssd1306.Line3("tilt", tiltValue)]
      ensures old(InRange()) ==> (InRange() <==> PanTiltInRange(tiltValue))
    {
      tilt := tiltValue;
      ShowLine3("tilt", tiltValue);
    }

    /**
     * CyFxUvcAppModifyZoom: the zoom takes the value as given, "zoom" with
     * the value is shown, and then the sensor's lens is driven with it.
     */
    method ModifyZoom(zoomValue: u16)
      modifies this`zoom, this`shown, sensor`bus
      ensures CurrentZoom() == zoomValue
      ensures shown == old(shown) + [Ssd1306.Line3("zoom", zoomValue)]
      ensures sensor.bus == old(sensor.bus) + Mt9dSensor.Frames(sensor.mt9d111,
        if sensor.mt9d111 then Mt9d111.Focus(zoomValue) else Mt9d112.Focus(zoomValue))
      ensures old(InRange()) ==> (InRange() <==> ZoomInRange(zoomValue))
    {
      zoom := zoomValue;
      ShowLine3("zoom", zoomValue);
      sensor.Focus(zoomValue);
    }
  }
}
