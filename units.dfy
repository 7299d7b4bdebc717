/** The unit taxonomy: a flat enumeration of known units grouped by family,
    with an open `Custom` fallback, decoding from a token, the time test and
    the conversion of a unit to the base unit of its family. */
module Units {
  import opened Wrappers
  import opened Strings

  datatype Unit =
    // Mass
    | Gram | Kilogram | Ounce | Pound
    // Volume
    | Milliliter | Centiliter | Liter | Teaspoon | Tablespoon | FluidOunce | Cup | Gallon
    // Distance
    | Millimeter | Centimeter | Inches
    // Temperature
    | Celsius | Farenheit
    // Time
    | Second | Minute | Hour
    // Unknown
    | Custom(text: string)

  datatype Family = Mass | Volume | Distance | Temperature | Time | Unknown

  /** The family each unit belongs to, as the enumeration groups them. */
  function FamilyOf(u: Unit): Family {
    match u
    case Gram | Kilogram | Ounce | Pound => Mass
    case Milliliter | Centiliter | Liter | Teaspoon | Tablespoon | FluidOunce | Cup | Gallon => Volume
    case Millimeter | Centimeter | Inches => Distance
    case Celsius | Farenheit => Temperature
    case Second | Minute | Hour => Time
    case Custom(_) => Unknown
  }

  /** The lower-case spellings `Decode` accepts for each known unit. */
  function Spellings(u: Unit): set<string> {
    match u
    case Gram => {"g"} case Kilogram => {"kg"} case Ounce => {"oz"} case Pound => {"lbs"}
    case Milliliter => {"ml"} case Centiliter => {"cl"} case Liter => {"l"} case Teaspoon => {"tsp"}
    case Tablespoon => {"tbsp"} case FluidOunce => {"fl oz", "fl. oz."} case Cup => {"cup"} case Gallon => {"gal"}
    case Millimeter => {"mm"} case Centimeter => {"cm"} case Inches => {"in"}
    case Celsius => {"°c"} case Farenheit => {"°f"}
    case Second => {"s", "sec", "sec.", "second", "seconds"}
    case Minute => {"min", "min.", "minute", "minutes"}
    case Hour => {"h", "hour"}
    case Custom(_) => {}
  }

  /** The part of the decoding table that names units of family `f`. */
  function DecodeIn(f: Family, t: string): (r: Option<Unit>)
    ensures r.Some? ==> FamilyOf(r.value) == f && t in Spellings(r.value)
    ensures r.None? ==> forall v: Unit :: FamilyOf(v) == f ==> t !in Spellings(v)
  {
    match f
    case Mass =>
      if t == "g" then Some(Gram)
      else if t == "kg" then Some(Kilogram)
      else if t == "oz" then Some(Ounce)
      else if t == "lbs" then Some(Pound)
      else None
    case Volume =>
      if t == "ml" then Some(Milliliter)
      else if t == "cl" then Some(Centiliter)
      else if t == "l" then Some(Liter)
      else if t == "tsp" then Some(Teaspoon)
      else if t == "tbsp" then Some(Tablespoon)
      else if t == "fl oz" || t == "fl. oz." then Some(FluidOunce)
      else if t == "cup" then Some(Cup)
      else if t == "gal" then Some(Gallon)
      else None
    case Distance =>
      if t == "mm" then Some(Millimeter)
      else if t == "cm" then Some(Centimeter)
      else if t == "in" then Some(Inches)
      else None
    case Temperature =>
      if t == "°c" then Some(Celsius)
      else if t == "°f" then Some(Farenheit)
      else None
    case Time =>
      if t == "s" || t == "sec" || t == "sec." || t == "second" || t == "seconds" then Some(Second)
      else if t == "min" || t == "min." || t == "minute" || t == "minutes" then Some(Minute)
      else if t == "h" || t == "hour" then Some(Hour)
      else None
    case Unknown => None
  }

  /** `Unit::decode`: matches the lower-cased token against the fixed list of
      spellings; anything else is kept, as written, as a custom unit. The
      spellings of different families are disjoint, so trying the families
      one after the other is the single `match` of the source. */
  function Decode(text: string): (u: Unit)
    ensures !u.Custom? ==> Lower(text) in Spellings(u)
    ensures u.Custom? ==> u.text == text && forall v: Unit :: !v.Custom? ==> Lower(text) !in Spellings(v)
  {
    var t := Lower(text);
    match DecodeIn(Mass, t)
    case Some(u) => u
    case None =>
      match DecodeIn(Volume, t)
      case Some(u) => u
      case None =>
        match DecodeIn(Distance, t)
        case Some(u) => u
        case None =>
          match DecodeIn(Temperature, t)
          case Some(u) => u
          case None =>
            match DecodeIn(Time, t)
            case Some(u) => u
            case None => Custom(text)
  }

  /** Decoding depends only on the lower-cased token: tokens that differ in
      case alone decode to the same known unit, and a custom unit keeps the
      original spelling. */
  lemma DecodeCaseInsensitive(a: string, b: string)
    requires Lower(a) == Lower(b)
    ensures Decode(a).Custom? <==> Decode(b).Custom?
    ensures !Decode(a).Custom? ==> Decode(a) == Decode(b)
    ensures Decode(a).Custom? ==> Decode(a).text == a && Decode(b).text == b
  {
  }

  /** Lower-casing a token first does not change which known unit it names. */
  lemma {:induction false} DecodeLowered(text: string)
    requires !Decode(text).Custom?
    ensures Decode(Lower(text)) == Decode(text)
  {
    LowerIdempotent(text);
  }

  /** No spelling names two units. */
  lemma SpellingsDisjoint(u: Unit, v: Unit, t: string)
    requires t in Spellings(u) && t in Spellings(v)
    ensures u == v
  {
    match FamilyOf(u)
    case Mass =>
    case Volume =>
    case Distance =>
    case Temperature =>
    case Time =>
    case Unknown =>
  }

  lemma LowerOfSpelling(u: Unit, t: string)
    requires t in Spellings(u)
    ensures Lower(t) == t
  {
    match u
    case Gram => assert Lower("g") == "g";
    case Kilogram => assert Lower("kg") == "kg";
    case Ounce => assert Lower("oz") == "oz";
    case Pound => assert Lower("lbs") == "lbs";
    case Milliliter => assert Lower("ml") == "ml";
    case Centiliter => assert Lower("cl") == "cl";
    case Liter => assert Lower("l") == "l";
    case Teaspoon => assert Lower("tsp") == "tsp";
    case Tablespoon => assert Lower("tbsp") == "tbsp";
    case FluidOunce =>
      assert Lower("fl oz") == "fl oz";
      assert Lower("fl. oz.") == "fl. oz.";
    case Cup => assert Lower("cup") == "cup";
    case Gallon => assert Lower("gal") == "gal";
    case Millimeter => assert Lower("mm") == "mm";
    case Centimeter => assert Lower("cm") == "cm";
    case Inches => assert Lower("in") == "in";
    case Celsius => assert Lower("°c") == "°c";
    case Farenheit => assert Lower("°f") == "°f";
    case Second =>
      assert Lower("s") == "s";
      assert Lower("sec") == "sec";
      assert Lower("sec.") == "sec.";
      assert Lower("second") == "second";
      assert Lower("seconds") == "seconds";
    case Minute =>
      assert Lower("min") == "min";
      assert Lower("min.") == "min.";
      assert Lower("minute") == "minute";
      assert Lower("minutes") == "minutes";
    case Hour =>
      assert Lower("h") == "h";
      assert Lower("hour") == "hour";
    case Custom(_) =>
  }

  /** Every listed spelling decodes to its unit; in particular "fl oz" and
      "fl. oz." both name FluidOunce, the five second and four minute
      spellings name Second and Minute, and only "h" and "hour" name Hour. */
  lemma DecodeSpelling(u: Unit, t: string)
    requires t in Spellings(u)
    ensures Decode(t) == u
  {
    LowerOfSpelling(u, t);
    var d := Decode(t);
    if !d.Custom? {
      SpellingsDisjoint(u, d, t);
    }
  }

  /** A token names a known unit exactly when its lower-cased form is one of
      that unit's spellings. */
  lemma DecodeKnown(text: string, u: Unit)
    requires !u.Custom?
    ensures Decode(text) == u <==> Lower(text) in Spellings(u)
  {
    var d := Decode(text);
    if Lower(text) in Spellings(u) && !d.Custom? {
      SpellingsDisjoint(u, d, Lower(text));
    }
  }

  /** Upper-case spellings are accepted too; "hours" is not a spelling. */
  lemma DecodeAliases()
    ensures Decode("fl oz") == FluidOunce && Decode("fl. oz.") == FluidOunce && Decode("FL OZ") == FluidOunce
    ensures Decode("hours") == Custom("hours")
  {
    assert Lower("FL OZ") == "fl oz";
    assert Lower("fl oz") == "fl oz";
    assert Lower("fl. oz.") == "fl. oz.";
    assert DecodeIn(Mass, "fl oz") == None && DecodeIn(Volume, "fl oz") == Some(FluidOunce);
    assert DecodeIn(Mass, "fl. oz.") == None && DecodeIn(Volume, "fl. oz.") == Some(FluidOunce);
    assert Lower("hours") == "hours";
  }

  /** `Unit::is_time`: the time units are exactly the units of the time
      family. */
  predicate IsTime(u: Unit): (r: bool)
    ensures r <==> FamilyOf(u) == Time
  {
    match u
    case Second | Minute | Hour => true
    case _ => false
  }

  /** A token decodes to a time unit exactly when its lower-cased form is
      one of the time spellings. */
  lemma DecodeIsTime(text: string)
    ensures IsTime(Decode(text)) <==> Lower(text) in Spellings(Second) + Spellings(Minute) + Spellings(Hour)
  {
    DecodeKnown(text, Second);
    DecodeKnown(text, Minute);
    DecodeKnown(text, Hour);
  }

  /** The units `Sanitize` leaves as they are. */
  predicate IsBase(u: Unit) {
    !(u.Ounce? || u.Pound? || u.Teaspoon? || u.Tablespoon? || u.Cup? || u.FluidOunce?
      || u.Gallon? || u.Farenheit? || u.Inches?)
  }

  /** `Unit::sanitize`: converts an amount in a non-base unit to the base unit
      of the same family (amounts are exact reals here). */
  function Sanitize(u: Unit, q: real): (r: (Unit, real))
    ensures IsBase(r.0)
    ensures FamilyOf(r.0) == FamilyOf(u)
    ensures IsBase(u) ==> r == (u, q)
  {
    match u
    case Ounce => (Gram, 28.0 * q)
    case Pound => (Gram, 450.0 * q)
    case Teaspoon => (Milliliter, 5.0 * q)
    case Tablespoon => (Milliliter, 15.0 * q)
    case Cup => (Milliliter, 240.0 * q)
    case FluidOunce => (Milliliter, 29.0 * q)
    case Gallon => (Liter, 3.785 * q)
    case Farenheit => (Celsius, (q - 32.0) * 5.0 / 9.0)
    case Inches => (Centimeter, 2.5 * q)
    case _ => (u, q)
  }

  /** The conversion table: each non-base unit goes to its family's base
      unit by a fixed factor, Farenheit by the affine formula. */
  lemma SanitizeConversions(q: real)
    ensures Sanitize(Ounce, q) == (Gram, 28.0 * q)
    ensures Sanitize(Pound, q) == (Gram, 450.0 * q)
    ensures Sanitize(Teaspoon, q) == (Milliliter, 5.0 * q)
    ensures Sanitize(Tablespoon, q) == (Milliliter, 15.0 * q)
    ensures Sanitize(Cup, q) == (Milliliter, 240.0 * q)
    ensures Sanitize(FluidOunce, q) == (Milliliter, 29.0 * q)
    ensures Sanitize(Gallon, q) == (Liter, 3.785 * q)
    ensures Sanitize(Inches, q) == (Centimeter, 2.5 * q)
    ensures Sanitize(Farenheit, q) == (Celsius, (q - 32.0) * 5.0 / 9.0)
  {
  }

  /** Sanitizing twice is sanitizing once. */
  lemma SanitizeIdempotent(u: Unit, q: real)
    ensures Sanitize(Sanitize(u, q).0, Sanitize(u, q).1) == Sanitize(u, q)
  {
  }

  /** Every unit other than Farenheit is converted by a fixed factor, so the
      conversion is additive and keeps the sign of the amount. */
  lemma SanitizeLinear(u: Unit, a: real, b: real)
    requires !u.Farenheit?
    ensures Sanitize(u, a + b).1 == Sanitize(u, a).1 + Sanitize(u, b).1
    ensures a >= 0.0 ==> Sanitize(u, a).1 >= 0.0
    ensures Sanitize(u, a).0 == Sanitize(u, b).0
  {
  }

  /** The Farenheit conversion fixes the freezing and boiling points of water
      and is strictly increasing. */
  lemma SanitizeFarenheit(a: real, b: real)
    requires a < b
    ensures Sanitize(Farenheit, 32.0) == (Celsius, 0.0)
    ensures Sanitize(Farenheit, 212.0) == (Celsius, 100.0)
    ensures Sanitize(Farenheit, a).1 < Sanitize(Farenheit, b).1
  {
  }
}
