/** One MiLight lamp zone (a MiLightAccessory of index.js): how a requested power
    state, brightness or hue becomes an ordered sequence of bridge commands, and
    the accessory object whose only effect is to append that sequence to its
    controller's command log. */
module Accessory {
  import opened Commands

  /** The configuration an accessory copies when it is created. */
  datatype LampSettings = LampSettings(name: string, zone: int, lampType: LampType)

  /** The command `setPowerState(powerOn)` sends. */
  function PowerStateCommands(t: LampType, z: int, powerOn: bool): (r: seq<Step>)
    ensures |r| == 1 && r[0].Send? && r[0].family == t
    ensures ProtocolLegal(r, z) && FamilyConsistent(r, t)
  {
    if powerOn then [Send(t, On(z))] else [Send(t, Off(z))]
  }

  /** The commands `setBrightness(level)` sends. */
  function BrightnessCommands(t: LampType, z: int, level: real): (r: seq<Step>)
    ensures 1 <= |r| <= 3
    ensures r[0] == Send(t, On(z)) || r[0] == Send(t, Off(z))
    ensures ProtocolLegal(r, z) && FamilyConsistent(r, t)
  {
    if level == 0.0 then
      [Send(t, Off(z))]
    else if level <= 2.0 && (t == Rgbw || t == White) then
      [Send(t, Off(z)), Pause(100), Send(t, NightMode(z))]
    else
      [Send(t, On(z))]
      + if t == Rgbw then
          [Send(Rgbw, Brightness(level))]
        else if level >= 50.0 then
          if t == White && level == 100.0 then [Send(White, MaxBright(z))] else [Send(t, BrightUp)]
        else
          [Send(t, BrightDown)]
  }

  /** The commands `setHue(value)` sends. */
  function HueCommands(t: LampType, z: int, value: real): (r: seq<Step>)
    ensures |r| == 2 && r[0] == Send(t, On(z))
    ensures ProtocolLegal(r, z) && FamilyConsistent(r, t)
    ensures forall i :: 0 <= i < |r| && r[i].Send? && r[i].op.Hue? ==>
              r[i].op.code == HsvToMilightColor(value, 0.0, 0.0)
  {
    [Send(t, On(z))]
    + if t == Rgbw then
        if value == 0.0 then [Send(Rgbw, WhiteMode(z))]
        else [Send(Rgbw, Hue(HsvToMilightColor(value, 0.0, 0.0)))]
      else if t == Rgb then
        [Send(Rgb, Hue(HsvToMilightColor(value, 0.0, 0.0)))]
      else
        if value >= 180.0 then [Send(White, Cooler)] else [Send(White, Warmer)]
  }

  /** Switching on sends exactly `on(zone)`, switching off exactly `off(zone)`. */
  lemma PowerStateChoice(t: LampType, z: int, powerOn: bool)
    ensures PowerStateCommands(t, z, powerOn) == [Send(t, On(z))] <==> powerOn
    ensures PowerStateCommands(t, z, powerOn) == [Send(t, Off(z))] <==> !powerOn
  {
  }

  /** Brightness 0 turns the lamp off and does nothing else, for every family;
      no other level gives that sequence. */
  lemma BrightnessZeroIsOff(t: LampType, z: int, level: real)
    ensures BrightnessCommands(t, z, level) == [Send(t, Off(z))] <==> level == 0.0
  {
  }

  /** Night mode is sent exactly for a non-zero level of at most 2 on an rgbw or a
      white lamp (an rgb lamp never receives it), and then the whole sequence is
      `off`, a 100 ms pause, `nightMode`. */
  lemma BrightnessNightMode(t: LampType, z: int, level: real)
    ensures var r := BrightnessCommands(t, z, level);
      (exists i :: 0 <= i < |r| && r[i].Send? && r[i].op.NightMode?)
      <==> level != 0.0 && level <= 2.0 && t != Rgb
    ensures level != 0.0 && level <= 2.0 && t != Rgb ==>
      BrightnessCommands(t, z, level) == [Send(t, Off(z)), Pause(100), Send(t, NightMode(z))]
  {
    var r := BrightnessCommands(t, z, level);
    if level != 0.0 && level <= 2.0 && t != Rgb {
      assert r[2].Send? && r[2].op.NightMode?;
    }
  }

  /** Outside the off and night-mode cases the lamp is addressed with `on(zone)`
      and receives exactly one more command; an rgbw lamp gets the absolute level. */
  lemma BrightnessAddressed(t: LampType, z: int, level: real)
    requires level != 0.0 && !(level <= 2.0 && t != Rgb)
    ensures var r := BrightnessCommands(t, z, level);
      |r| == 2 && r[0] == Send(t, On(z))
      && (t == Rgbw ==> r[1] == Send(Rgbw, Brightness(level)))
  {
  }

  /** For lamps without absolute brightness, the second command is `maxBright` for a
      white lamp at 100, otherwise `brightUp` from 50 up and `brightDown` below 50. */
  lemma BrightnessSteps(t: LampType, z: int, level: real)
    requires t != Rgbw && level != 0.0 && !(level <= 2.0 && t == White)
    ensures var r := BrightnessCommands(t, z, level);
      |r| == 2
      && (t == White && level == 100.0 ==> r[1] == Send(White, MaxBright(z)))
      && (!(t == White && level == 100.0) && level >= 50.0 ==> r[1] == Send(t, BrightUp))
      && (level < 50.0 ==> r[1] == Send(t, BrightDown))
  {
  }

  /** An rgbw lamp goes to white mode exactly for hue 0 and otherwise gets the
      colour code of `(value, 0, 0)`. */
  lemma HueRgbw(z: int, value: real)
    ensures HueCommands(Rgbw, z, value)[1] == Send(Rgbw, WhiteMode(z)) <==> value == 0.0
    ensures value != 0.0 ==>
      HueCommands(Rgbw, z, value)[1] == Send(Rgbw, Hue(HsvToMilightColor(value, 0.0, 0.0)))
  {
  }

  /** An rgb lamp always gets the (rgbw) colour code of `(value, 0, 0)`, hue 0 included. */
  lemma HueRgb(z: int, value: real)
    ensures HueCommands(Rgb, z, value)[1] == Send(Rgb, Hue(HsvToMilightColor(value, 0.0, 0.0)))
  {
  }

  /** A white lamp steps cooler exactly when the hue is at least 180, warmer otherwise. */
  lemma HueWhite(z: int, value: real)
    ensures HueCommands(White, z, value)[1] == Send(White, Cooler) <==> value >= 180.0
    ensures HueCommands(White, z, value)[1] == Send(White, Warmer) <==> value < 180.0
  {
  }

  /** A lamp zone. `log` is what the accessory has handed to its bridge controller,
      in order; `acknowledged` counts the completion callbacks it has invoked. */
  class MiLightAccessory {
    const name: string
    const zone: int
    const lampType: LampType
    var log: seq<Step>
    var acknowledged: nat

    /** The log is legal for this zone and uses only this lamp family's commands. */
    ghost predicate Valid()
      reads this
    {
      ProtocolLegal(log, zone) && FamilyConsistent(log, lampType)
    }

    function Settings(): LampSettings
    {
      LampSettings(name, zone, lampType)
    }

    constructor (settings: LampSettings)
      ensures Settings() == settings
      ensures log == [] && acknowledged == 0
      ensures Valid()
    {
      name := settings.name;
      zone := settings.zone;
      lampType := settings.lampType;
      log := [];
      acknowledged := 0;
    }

    method SetPowerState(powerOn: bool)
      requires Valid()
      modifies this
      ensures Valid()
      ensures log == old(log) + PowerStateCommands(lampType, zone, powerOn)
      ensures acknowledged == old(acknowledged) + 1
    {
      if powerOn {
        log := log + [Send(lampType, On(zone))];
      } else {
        log := log + [Send(lampType, Off(zone))];
      }
      LegalAppend(old(log), PowerStateCommands(lampType, zone, powerOn), zone);
      ConsistentAppend(old(log), PowerStateCommands(lampType, zone, powerOn), lampType);
      acknowledged := acknowledged + 1;
    }

    method SetBrightness(level: real)
      requires Valid()
      modifies this
      ensures Valid()
      ensures log == old(log) + BrightnessCommands(lampType, zone, level)
      ensures acknowledged == old(acknowledged) + 1
    {
      if level == 0.0 {
        log := log + [Send(lampType, Off(zone))];
      } else if level <= 2.0 && (lampType == Rgbw || lampType == White) {
        log := log + [Send(lampType, Off(zone))];
        log := log + [Pause(100)];
        log := log + [Send(lampType, NightMode(zone))];
      } else {
        log := log + [Send(lampType, On(zone))];
        if lampType == Rgbw {
          log := log + [Send(Rgbw, Brightness(level))];
        } else {
          if level >= 50.0 {
            if lampType == White && level == 100.0 {
              log := log + [Send(White, MaxBright(zone))];
            } else {
              log := log + [Send(lampType, BrightUp)];
            }
          } else {
            log := log + [Send(lampType, BrightDown)];
          }
        }
      }
      assert log == old(log) + BrightnessCommands(lampType, zone, level);
      LegalAppend(old(log), BrightnessCommands(lampType, zone, level), zone);
      ConsistentAppend(old(log), BrightnessCommands(lampType, zone, level), lampType);
      acknowledged := acknowledged + 1;
    }

    method SetHue(value: real)
      requires Valid()
      modifies this
      ensures Valid()
      ensures log == old(log) + HueCommands(lampType, zone, value)
      ensures acknowledged == old(acknowledged) + 1
    {
      var hue := HsvToMilightColor(value, 0.0, 0.0);
      log := log + [Send(lampType, On(zone))];
      if lampType == Rgbw {
        if value == 0.0 {
          log := log + [Send(Rgbw, WhiteMode(zone))];
        } else {
          log := log + [Send(Rgbw, Hue(hue))];
        }
      } else if lampType == Rgb {
        log := log + [Send(Rgb, Hue(hue))];
      } else if lampType == White {
        if value >= 180.0 {
          log := log + [Send(White, Cooler)];
        } else {
          log := log + [Send(White, Warmer)];
        }
      }
      assert log == old(log) + HueCommands(lampType, zone, value);
      LegalAppend(old(log), HueCommands(lampType, zone, value), zone);
      ConsistentAppend(old(log), HueCommands(lampType, zone, value), lampType);
      acknowledged := acknowledged + 1;
    }
  }
}
