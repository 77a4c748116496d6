/** The vocabulary of bridge commands that the MiLight accessory hands to its
    controller, and the two shape invariants every emitted command log keeps:
    it is legal for the zone it addresses, and it uses only the commands its
    lamp family offers. */
module Commands {

  /** The three lamp families of the command library the accessory dispatches on. */
  datatype LampType = Rgbw | Rgb | White

  /** The colour code computed by the rgbw colour codec from an HSV triple. The
      codec belongs to the command library; the model records it symbolically, as
      the triple it was applied to, so distinct triples are distinct terms (the real
      codec maps many triples onto one code byte). Components are JavaScript
      numbers, hence `real`. */
  datatype ColorCode = HsvToMilightColor(hue: real, saturation: real, value: real)

  /** One command of a lamp family. Commands that take a zone carry it. */
  datatype Op =
    | On(zone: int)
    | Off(zone: int)
    | NightMode(zone: int)
    | Brightness(level: real)
    | BrightUp
    | BrightDown
    | MaxBright(zone: int)
    | WhiteMode(zone: int)
    | Hue(code: ColorCode)
    | Cooler
    | Warmer

  /** One entry of the controller's log: a command of one family, or a pause
      (in milliseconds) before the next command. */
  datatype Step = Send(family: LampType, op: Op) | Pause(ms: nat)

  /** The commands index.js sends to each family: absolute brightness and white
      mode only to rgbw lamps, night mode only to rgbw and white lamps ("for lamps
      that support it", index.js:109), brightness steps only to rgb and white lamps
      (index.js:127), maximum brightness and colour-temperature steps only to white
      lamps (index.js:131, 161), and hue only to rgbw and rgb lamps. This is the
      command set of this file, not a statement about the library. */
  predicate Offers(t: LampType, op: Op)
  {
    match op
    case On(_) => true
    case Off(_) => true
    case NightMode(_) => t != Rgb
    case Brightness(_) => t == Rgbw
    case BrightUp => t != Rgbw
    case BrightDown => t != Rgbw
    case MaxBright(_) => t == White
    case WhiteMode(_) => t == Rgbw
    case Hue(_) => t != White
    case Cooler => t == White
    case Warmer => t == White
  }

  /** A command that names a zone names zone `z`. */
  predicate TargetsZone(op: Op, z: int)
  {
    match op
    case On(y) => y == z
    case Off(y) => y == z
    case NightMode(y) => y == z
    case MaxBright(y) => y == z
    case WhiteMode(y) => y == z
    case _ => true
  }

  /** Commands that only reach the intended lamp when its zone was just addressed
      by an `on` command. */
  predicate NeedsAddressing(op: Op)
  {
    !op.On? && !op.Off? && !op.NightMode?
  }

  /** Entry `i` of `log` is legal for zone `z`: it targets `z`; a command that needs
      addressing comes right after `on(z)` of its family; night mode comes right after
      `off(z)` of its family and a 100 ms pause; and a pause only ever follows `off(z)`. */
  predicate LegalAt(log: seq<Step>, i: nat, z: int)
    requires i < |log|
  {
    match log[i]
    case Pause(ms) =>
      ms == 100 && i >= 1 && log[i - 1].Send? && log[i - 1].op == Off(z)
    case Send(f, op) =>
      TargetsZone(op, z)
      && (NeedsAddressing(op) ==> i >= 1 && log[i - 1] == Send(f, On(z)))
      && (op.NightMode? ==> i >= 2 && log[i - 1] == Pause(100) && log[i - 2] == Send(f, Off(z)))
  }

  /** Every entry of `log` is legal for zone `z`. */
  predicate ProtocolLegal(log: seq<Step>, z: int)
  {
    forall i :: 0 <= i < |log| ==> LegalAt(log, i, z)
  }

  /** Every command of `log` is one of family `t` that `t` offers. */
  predicate FamilyConsistent(log: seq<Step>, t: LampType)
  {
    forall i :: 0 <= i < |log| && log[i].Send? ==> log[i].family == t && Offers(t, log[i].op)
  }

  /** Appending a legal sequence to a legal log keeps it legal: the first entry of a
      legal sequence never depends on what precedes it. */
  lemma {:induction false} LegalAppend(a: seq<Step>, b: seq<Step>, z: int)
    requires ProtocolLegal(a, z) && ProtocolLegal(b, z)
    ensures ProtocolLegal(a + b, z)
  {
    var ab := a + b;
    forall i | 0 <= i < |ab|
      ensures LegalAt(ab, i, z)
    {
      if i < |a| {
        assert LegalAt(a, i, z);
        assert ab[i] == a[i];
        if i >= 1 { assert ab[i - 1] == a[i - 1]; }
        if i >= 2 { assert ab[i - 2] == a[i - 2]; }
      } else {
        var j := i - |a|;
        assert LegalAt(b, j, z);
        assert ab[i] == b[j];
        if j >= 1 { assert ab[i - 1] == b[j - 1]; }
        if j >= 2 { assert ab[i - 2] == b[j - 2]; }
      }
    }
  }

  /** Appending commands of family `t` to a log of family `t` keeps it consistent. */
  lemma {:induction false} ConsistentAppend(a: seq<Step>, b: seq<Step>, t: LampType)
    requires FamilyConsistent(a, t) && FamilyConsistent(b, t)
    ensures FamilyConsistent(a + b, t)
  {
    var ab := a + b;
    forall i | 0 <= i < |ab| && ab[i].Send?
      ensures ab[i].family == t && Offers(t, ab[i].op)
    {
      if i < |a| { assert ab[i] == a[i]; } else { assert ab[i] == b[i - |a|]; }
    }
  }
}
