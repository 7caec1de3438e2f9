/**
 * The light entity of the current integration: which colour modes a light
 * offers, how brightness is scaled between the device's 0..100 and Home
 * Assistant's 0..255, and how a colour travels as one packed 24-bit RGB
 * integer.
 */
module CustomLight {
  import opened Wrappers
  import opened PyMath

  datatype ColorMode = Hs | ColorTemp | Brightness | OnOff

  /** Three colour channels. */
  datatype Rgb = Rgb(red: int, green: int, blue: int)

  predicate IsChannel(c: int) { 0 <= c <= 255 }

  predicate IsRgb(c: Rgb) { IsChannel(c.red) && IsChannel(c.green) && IsChannel(c.blue) }

  datatype Request =
    | WriteBrightness(brightness: int)
    | WriteColor(mired: int)
    | WriteRgb(raw: int)
    | WriteBinaryState(on: bool)

  /** A dimmable or coloured light and the writes sent to it. */
  class Light {
    const supportsColorHsb: bool
    const supportsColorTemp: bool
    const supportsBrightness: bool
    var binarystate: bool
    var brightness: int
    var color: int
    var rgb: int
    var requests: seq<Request>

    constructor (supportsColorHsb: bool, supportsColorTemp: bool, supportsBrightness: bool)
      ensures this.supportsColorHsb == supportsColorHsb
      ensures this.supportsColorTemp == supportsColorTemp
      ensures this.supportsBrightness == supportsBrightness
      ensures requests == []
    {
      this.supportsColorHsb := supportsColorHsb;
      this.supportsColorTemp := supportsColorTemp;
      this.supportsBrightness := supportsBrightness;
      requests := [];
    }
  }

  /** `((raw >> 16) & 0xFF, (raw >> 8) & 0xFF, raw & 0xFF)`; Python's shift and mask floor like Dafny's `/` and `%` here. */
  function Unpack(raw: int): (c: Rgb)
    ensures IsRgb(c)
    ensures 0 <= raw < 0x100_0000 ==> raw == c.red * 0x1_0000 + c.green * 0x100 + c.blue
  {
    var c := Rgb((raw / 0x1_0000) % 0x100, (raw / 0x100) % 0x100, raw % 0x100);
    UnpackDigits(raw);
    c
  }

  lemma UnpackDigits(raw: int)
    ensures 0 <= raw < 0x100_0000 ==>
      raw == ((raw / 0x1_0000) % 0x100) * 0x1_0000 + ((raw / 0x100) % 0x100) * 0x100 + raw % 0x100
  {
    if 0 <= raw < 0x100_0000 {
      var high := raw / 0x1_0000;
      var rest := raw % 0x1_0000;
      assert raw == high * 0x1_0000 + rest;
      assert high < 0x100;
      assert high % 0x100 == high;
      assert rest / 0x100 == (raw / 0x100) % 0x100;
      assert rest == (rest / 0x100) * 0x100 + rest % 0x100;
      assert rest % 0x100 == raw % 0x100;
    }
  }

  /** `(r << 16) + (g << 8) + b`: a 24-bit value for three channels. */
  function Pack(c: Rgb): (raw: int)
    ensures IsRgb(c) ==> 0 <= raw < 0x100_0000
  {
    c.red * 0x1_0000 + c.green * 0x100 + c.blue
  }

  /** Unpacking a packed colour gives back its channels. */
  lemma UnpackPack(c: Rgb)
    requires IsRgb(c)
    ensures Unpack(Pack(c)) == c
  {
    var raw := Pack(c);
    var low := c.green * 0x100 + c.blue;
    assert raw == c.red * 0x1_0000 + low && 0 <= low < 0x1_0000;
    assert raw / 0x1_0000 == c.red;
    assert raw % 0x1_0000 == low;
    assert raw / 0x100 == c.red * 0x100 + c.green;
    assert (raw / 0x100) % 0x100 == c.green;
    assert raw % 0x100 == c.blue;
  }

  /** Packing the channels of a 24-bit value gives back that value. */
  lemma PackUnpack(raw: int)
    requires 0 <= raw < 0x100_0000
    ensures Pack(Unpack(raw)) == raw
  {
  }

  /** `round(d * 255 / 100)`: the device's 0..100 brightness on Home Assistant's 0..255 scale. */
  function BrightnessFromDevice(d: int): (b: int)
    ensures 0 <= d <= 100 ==> 0 <= b <= 255
    ensures d as real * 2.55 - 0.5 <= b as real <= d as real * 2.55 + 0.5
  {
    var x := d as real * 255.0 / 100.0;
    RoundWithin(x, 0, 255);
    Round(x)
  }

  /** `max(round(b * 100 / 255), 1)`: a 0..255 brightness on the device's scale, never below 1. */
  function BrightnessToDevice(b: int): (d: int)
    ensures d >= 1
    ensures 0 <= b <= 255 ==> 1 <= d <= 100
    ensures b <= 1 ==> d == 1
    ensures b >= 2 ==> b as real * 100.0 / 255.0 - 0.5 <= d as real <= b as real * 100.0 / 255.0 + 0.5
  {
    var x := b as real * 100.0 / 255.0;
    RoundWithin(x, 0, 100);
    RoundWithin(x, 0, 0);
    var r := Round(x);
    if r >= 1 then r else 1
  }

  /** A brightness of at least 2, written and read back, comes back within one step. */
  lemma BrightnessRoundTrip(b: int)
    requires 2 <= b <= 255
    ensures -1 <= BrightnessFromDevice(BrightnessToDevice(b)) - b <= 1
  {
    var d := BrightnessToDevice(b);
    var back := BrightnessFromDevice(d);
    var br := b as real;
    var dr := d as real;
    assert br * 100.0 / 255.0 - 0.5 <= dr <= br * 100.0 / 255.0 + 0.5;
    assert dr * 2.55 <= br + 1.275;
    assert dr * 2.55 >= br - 1.275;
    assert back as real <= br + 1.775;
    assert back as real >= br - 1.775;
  }

  /** The colour modes a light with these capabilities offers. */
  function SupportedColorModes(hsb: bool, colorTemp: bool, brightness: bool): (modes: set<ColorMode>)
    ensures modes != {}
    ensures Hs in modes <==> hsb
    ensures ColorTemp in modes <==> colorTemp
    ensures Brightness in modes ==> modes == {Brightness}
    ensures OnOff in modes ==> modes == {OnOff}
    ensures Brightness in modes <==> !hsb && !colorTemp && brightness
    ensures OnOff in modes <==> !hsb && !colorTemp && !brightness
  {
    (if hsb then {Hs} else {})
    + (if colorTemp then {ColorTemp} else {})
    + (if !hsb && !colorTemp then (if brightness then {Brightness} else {OnOff}) else {})
  }

  /** The colour mode reported: colour temperature wins over HS, the plain modes come last. */
  function ColorModeFor(hsb: bool, colorTemp: bool, brightness: bool): (mode: ColorMode)
    ensures mode in SupportedColorModes(hsb, colorTemp, brightness)
    ensures hsb && colorTemp ==> mode == ColorTemp
  {
    if colorTemp then ColorTemp
    else if hsb then Hs
    else if brightness then Brightness
    else OnOff
  }

  class LightSwitch {
    const device: Light
    var supportedColorModes: set<ColorMode>
    var colorMode: Option<ColorMode>

    /** Adds the modes one capability at a time, each later one overriding the reported mode. */
    constructor (device: Light)
      ensures this.device == device
      ensures supportedColorModes == SupportedColorModes(device.supportsColorHsb, device.supportsColorTemp, device.supportsBrightness)
      ensures colorMode == Some(ColorModeFor(device.supportsColorHsb, device.supportsColorTemp, device.supportsBrightness))
    {
      this.device := device;
      var modes: set<ColorMode> := {};
      var mode: Option<ColorMode> := None;
      if device.supportsColorHsb {
        modes := modes + {Hs};
        mode := Some(Hs);
      }
      if device.supportsColorTemp {
        modes := modes + {ColorTemp};
        mode := Some(ColorTemp);
      }
      if device.supportsBrightness {
        if modes == {} {
          modes := modes + {Brightness};
          mode := Some(Brightness);
        }
      } else {
        if modes == {} {
          modes := modes + {OnOff};
          mode := Some(OnOff);
        }
      }
      supportedColorModes := modes;
      colorMode := mode;
    }

    function IsOn(): (on: bool)
      reads device
      ensures on <==> device.binarystate
    {
      device.binarystate
    }

    /** The brightness on Home Assistant's scale; a percentage maps into 0..255. */
    function BrightnessLevel(): (b: int)
      reads device
      ensures 0 <= device.brightness <= 100 ==> 0 <= b <= 255
    {
      BrightnessFromDevice(device.brightness)
    }

    /** The colour channels of the device's packed RGB value, each within 0..255 whatever the value. */
    function Channels(): (c: Rgb)
      reads device
      ensures IsRgb(c)
      ensures 0 <= device.rgb < 0x100_0000 ==> Pack(c) == device.rgb
    {
      Unpack(device.rgb)
    }

    /**
     * Writes the brightness, the colour temperature (already in mireds) and
     * the colour (already in channels) each only when given and supported,
     * then switches the light on unless it already is.
     */
    method TurnOn(rgb: Option<Rgb>, mired: Option<int>, brightness: Option<int>)
      modifies device`brightness, device`color, device`rgb, device`binarystate, device`requests
      ensures IsOn()
      ensures device.requests == old(device.requests)
        + (if brightness.Some? && device.supportsBrightness then [WriteBrightness(BrightnessToDevice(brightness.value))] else [])
        + (if mired.Some? && device.supportsColorTemp then [WriteColor(mired.value)] else [])
        + (if rgb.Some? && device.supportsColorHsb then [WriteRgb(Pack(rgb.value))] else [])
        + (if old(device.binarystate) then [] else [WriteBinaryState(true)])
      ensures brightness.Some? && device.supportsBrightness && 0 <= brightness.value <= 255 ==>
        1 <= device.brightness <= 100
      ensures brightness.Some? && device.supportsBrightness ==> device.brightness == BrightnessToDevice(brightness.value)
      ensures !(brightness.Some? && device.supportsBrightness) ==> device.brightness == old(device.brightness)
      ensures mired.Some? && device.supportsColorTemp ==> device.color == mired.value
      ensures rgb.Some? && device.supportsColorHsb ==> device.rgb == Pack(rgb.value)
      ensures !(mired.Some? && device.supportsColorTemp) ==> device.color == old(device.color)
      ensures rgb.Some? && device.supportsColorHsb && IsRgb(rgb.value) ==> Channels() == rgb.value
      ensures !(rgb.Some? && device.supportsColorHsb) ==> device.rgb == old(device.rgb)
    {
      if brightness.Some? && device.supportsBrightness {
        device.brightness := BrightnessToDevice(brightness.value);
        device.requests := device.requests + [WriteBrightness(device.brightness)];
      }
      if mired.Some? && device.supportsColorTemp {
        device.color := mired.value;
        device.requests := device.requests + [WriteColor(mired.value)];
      }
      if rgb.Some? && device.supportsColorHsb {
        var raw := Pack(rgb.value);
        device.rgb := raw;
        device.requests := device.requests + [WriteRgb(raw)];
        if IsRgb(rgb.value) {
          UnpackPack(rgb.value);
        }
      }
      if !IsOn() {
        device.binarystate := true;
        device.requests := device.requests + [WriteBinaryState(true)];
      }
    }

    method TurnOff()
      modifies device`binarystate, device`requests
      ensures !IsOn()
      ensures device.requests == old(device.requests) + [WriteBinaryState(false)]
    {
      device.binarystate := false;
      device.requests := device.requests + [WriteBinaryState(false)];
    }
  }
}
