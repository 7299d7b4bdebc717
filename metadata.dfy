/** The front-matter metadata of a recipe: tags, the quantity the recipe
    makes, named sizes and free-form string entries, read from an already
    loaded YAML document. */
module MetadataParser {
  import opened Wrappers
  import opened Strings
  import opened MdParser
  import opened Quantities

  /** An already loaded YAML value: a string scalar, a sequence, a mapping
      with its entries in document order, or any other kind of value. */
  datatype Yaml = Str(value: string) | Seq(items: seq<Yaml>) | Mapping(entries: seq<(Yaml, Yaml)>) | OtherValue

  const TagsKey: string := "tags"
  const QuantityKey: string := "quantity"
  const SizePrefix: string := "size | "

  /** `char::is_alphanumeric` restricted to ASCII. */
  predicate IsAlphanumeric(c: char) {
    ('a' <= c <= 'z') || ('A' <= c <= 'Z') || ('0' <= c <= '9')
  }

  predicate IsTagChar(c: char) {
    IsAlphanumeric(c) || c == '/' || c == '-' || c == '_'
  }

  /** A tag as written: '#' and then only tag characters. */
  predicate IsValidTag(tag: string) {
    |tag| > 0 && tag[0] == '#' && forall i :: 1 <= i < |tag| ==> IsTagChar(tag[i])
  }

  /** `Metadata::get_tag`: a valid tag without its leading '#'. */
  function GetTag(tag: string): (r: MDResult<string>)
    ensures r.Ok? <==> IsValidTag(tag)
    ensures r.Ok? ==> "#" + r.value == tag
  {
    if !StartsWith(tag, "#") then Err(MDError("tag must start with '#' character", None))
    else
      var noHash := tag[1..];
      if exists i :: 0 <= i < |noHash| && !IsTagChar(noHash[i]) then
        Err(MDError("tag \"" + tag + "\" contains forbidden characters", None))
      else Ok(noHash)
  }

  /** Writing '#' before a run of tag characters and reading it back gives
      the run. */
  lemma GetTagOfHash(t: string)
    requires forall i :: 0 <= i < |t| ==> IsTagChar(t[i])
    ensures GetTag("#" + t) == Ok(t)
  {
    assert ("#" + t)[1..] == t;
  }

  /** A missing '#', a doubled '#' and a '.' are rejected; '/', '-' and '_'
      are accepted. The YAML lines `- "tag"`, `- "##tag"` and `- "#tag.1"`,
      taken literally as tags, are rejected too: none starts with '#'. */
  lemma GetTagExamples()
    ensures GetTag("tag").Err? && GetTag("##tag").Err? && GetTag("#tag.1").Err?
    ensures GetTag("- \"tag\"").Err? && GetTag("- \"##tag\"").Err? && GetTag("- \"#tag.1\"").Err?
    ensures GetTag("#t/a/g") == Ok("t/a/g") && GetTag("#t-a_g") == Ok("t-a_g")
  {
    assert !IsValidTag("##tag") by { assert "##tag"[1] == '#'; }
    assert !IsValidTag("#tag.1") by { assert "#tag.1"[4] == '.'; }
    GetTagOfHash("t/a/g");
    assert "#" + "t/a/g" == "#t/a/g";
    GetTagOfHash("t-a_g");
    assert "#" + "t-a_g" == "#t-a_g";
  }

  /** One element of the tag sequence: a string holding a valid tag. */
  function TagOf(y: Yaml): MDResult<string> {
    if y.Str? then GetTag(y.value) else Err(MDError("expected string tag", None))
  }

  /** The loop of `Metadata::parse_tags` over `items`: the tags pushed, one
      per element, in order and without de-duplication, up to the first
      element that is not a valid tag; and the outcome. */
  function ScanTags(items: seq<Yaml>): (r: (seq<string>, MDResult<()>))
    ensures |r.0| <= |items|
    ensures forall i :: 0 <= i < |r.0| ==> TagOf(items[i]) == Ok(r.0[i])
    ensures r.1.Ok? ==> |r.0| == |items|
    ensures r.1.Err? ==> |r.0| < |items| && TagOf(items[|r.0|]).Err? && r.1.error == TagOf(items[|r.0|]).error
    ensures r.1.Ok? <==> forall i :: 0 <= i < |items| ==> TagOf(items[i]).Ok?
    decreases |items|
  {
    if |items| == 0 then ([], Ok(()))
    else
      var prev := ScanTags(items[..|items| - 1]);
      if prev.1.Err? then prev
      else
        match TagOf(items[|items| - 1])
        case Err(e) => (prev.0, Err(e))
        case Ok(t) => (prev.0 + [t], Ok(()))
  }

  /** Once the scan has failed on a prefix, the rest is never looked at. */
  lemma {:induction false} ScanTagsStops(items: seq<Yaml>, k: nat)
    requires k <= |items| && ScanTags(items[..k]).1.Err?
    ensures ScanTags(items) == ScanTags(items[..k])
    decreases |items| - k
  {
    if k < |items| {
      var init := items[..|items| - 1];
      assert init[..k] == items[..k];
      ScanTagsStops(init, k);
    } else {
      assert items[..k] == items;
    }
  }

  /** Valid tags are kept in input order with their '#' removed. */
  lemma ScanValidTags(items: seq<Yaml>)
    requires forall i :: 0 <= i < |items| ==> items[i].Str? && IsValidTag(items[i].value)
    ensures ScanTags(items).1 == Ok(())
    ensures ScanTags(items).0 == seq(|items|, i requires 0 <= i < |items| => items[i].value[1..])
  {
  }

  /** `UnitMod`: the only modifier, a trailing '°', marks a radial distance. */
  datatype UnitMod = RadialDistance

  /** `SizeInfo { quantity, unit_mod }`. */
  datatype SizeInfo = SizeInfo(quantity: DistanceQuantity, unitMod: Option<UnitMod>)

  /** The text `SizeInfo::from_str` hands to the distance parser: the trimmed
      input with one trailing '°' removed. */
  function SizeText(s: string): string {
    var t := Trim(s);
    if EndsWith(t, "°") then t[..|t| - 1] else t
  }

  /** `SizeInfo::from_str`: a distance with the radial modifier exactly when
      the trimmed text ends in '°'. */
  function SizeInfoFromStr(s: string, distance: string -> MDResult<DistanceQuantity>): (r: MDResult<SizeInfo>)
    ensures r.Ok? <==> distance(SizeText(s)).Ok?
    ensures r.Ok? ==> r.value.quantity == distance(SizeText(s)).value
    ensures r.Ok? ==> (r.value.unitMod == Some(RadialDistance) <==> EndsWith(Trim(s), "°"))
    ensures r.Err? ==> r.error.place == None
  {
    var unitMod := if EndsWith(Trim(s), "°") then Some(RadialDistance) else None;
    match distance(SizeText(s))
    case Ok(q) => Ok(SizeInfo(q, unitMod))
    case Err(e) => Err(MDError("failed to parse quantity: " + e.msg, None))
  }

  /** White space around a size does not change how it is read. */
  lemma SizeInfoPadded(w1: string, s: string, w2: string, distance: string -> MDResult<DistanceQuantity>)
    requires AllWhitespace(w1) && AllWhitespace(w2)
    ensures SizeInfoFromStr(w1 + s + w2, distance) == SizeInfoFromStr(s, distance)
  {
    TrimPadded(w1, s, w2);
  }

  /** A size without white space around it: a trailing '°' is removed and
      marks a radial distance. */
  lemma SizeInfoOfTrimmed(t: string, distance: string -> MDResult<DistanceQuantity>)
    requires IsTrimmed(t)
    ensures EndsWith(t, "°") && distance(t[..|t| - 1]).Ok? ==>
              SizeInfoFromStr(t, distance) == Ok(SizeInfo(distance(t[..|t| - 1]).value, Some(RadialDistance)))
    ensures !EndsWith(t, "°") && distance(t).Ok? ==>
              SizeInfoFromStr(t, distance) == Ok(SizeInfo(distance(t).value, None))
  {
    TrimOfTrimmed(t);
  }

  /** "10cm°" is a radial distance of "10cm". */
  lemma SizeInfoRadialExample(distance: string -> MDResult<DistanceQuantity>)
    ensures distance("10cm").Ok? ==>
              SizeInfoFromStr("10cm°", distance) == Ok(SizeInfo(distance("10cm").value, Some(RadialDistance)))
  {
    var t := "10cm°";
    assert IsTrimmed(t);
    assert t[|t| - 1..] == "°";
    assert t[..|t| - 1] == "10cm";
    SizeInfoOfTrimmed(t, distance);
  }

  /** Of a radial size, only the white space before the text and after the
      '°' is trimmed: white space between the text and the '°' reaches the
      distance parser. */
  lemma SizeInfoRadial(w1: string, q: string, w2: string, distance: string -> MDResult<DistanceQuantity>)
    requires AllWhitespace(w1) && AllWhitespace(w2)
    requires |q| == 0 || !IsWhitespace(q[0])
    ensures distance(q).Ok? ==>
              SizeInfoFromStr(w1 + (q + "°") + w2, distance) == Ok(SizeInfo(distance(q).value, Some(RadialDistance)))
  {
    var t := q + "°";
    SizeInfoPadded(w1, t, w2, distance);
    assert t[|t| - 1] == '°';
    assert t[|t| - 1..] == "°";
    assert t[..|t| - 1] == q;
    SizeInfoOfTrimmed(t, distance);
  }

  /** The state `Metadata` holds, as a value. */
  datatype MetadataValue = MetadataValue(
    tags: seq<string>,
    quantity: Quantity,
    sizes: map<string, SizeInfo>,
    others: map<string, string>)

  /** `Metadata::default`: no tags, one nominal item, no sizes and no other
      entries. */
  const DefaultValue: MetadataValue := MetadataValue([], OneNominal, map[], map[])

  /** What `parse_tags` does to the tag list: the scan of a sequence, or an
      error and no change for any other value. */
  function TagsEntry(tags: seq<string>, value: Yaml): (r: (seq<string>, MDResult<()>))
    ensures !value.Seq? ==> r.0 == tags && r.1.Err?
    ensures value.Seq? ==> r == (tags + ScanTags(value.items).0, ScanTags(value.items).1)
  {
    match value
    case Seq(items) =>
      var scan := ScanTags(items);
      (tags + scan.0, scan.1)
    case _ => (tags, Err(MDError("expected sequence under \"tags\"", None)))
  }

  /** What `parse_quantity` does: a string that parses replaces the
      quantity; anything else is an error and changes nothing. */
  function QuantityEntry(quantity: Quantity, value: Yaml, parse: string -> MDResult<Quantity>): (r: (Quantity, MDResult<()>))
    ensures r.1.Ok? <==> value.Str? && parse(value.value).Ok?
    ensures r.1.Ok? ==> r.0 == parse(value.value).value
    ensures r.1.Err? ==> r.0 == quantity
  {
    match value
    case Str(s) =>
      (match parse(s)
       case Ok(q) => (q, Ok(()))
       case Err(e) => (quantity, Err(e)))
    case _ => (quantity, Err(MDError("expected string under \"quantity\"", None)))
  }

  /** What `parse_size` does: a named size whose string reads as a size is
      inserted, replacing an earlier entry of that name; anything else is an
      error and changes nothing. */
  function SizeEntry(sizes: map<string, SizeInfo>, name: string, value: Yaml,
                     distance: string -> MDResult<DistanceQuantity>): (r: (map<string, SizeInfo>, MDResult<()>))
    ensures r.1.Ok? <==> name != "" && value.Str? && SizeInfoFromStr(value.value, distance).Ok?
    ensures r.1.Ok? ==> r.0 == sizes[name := SizeInfoFromStr(value.value, distance).value]
    ensures r.1.Err? ==> r.0 == sizes
  {
    if name == "" then (sizes, Err(MDError("sized object must have a name", None)))
    else
      match value
      case Str(s) =>
        (match SizeInfoFromStr(s, distance)
         case Ok(info) => (sizes[name := info], Ok(()))
         case Err(e) => (sizes, Err(e)))
      case _ => (sizes, Err(MDError("expected string size attribute for \"" + name + "\"", None)))
  }

  /** What `parse_others` does: a string value is inserted under its key;
      the key having been present already is an error, reported after the
      new value has replaced the old one. */
  function OthersEntry(others: map<string, string>, key: string, value: Yaml): (r: (map<string, string>, MDResult<()>))
    ensures !value.Str? ==> r.0 == others && r.1.Err?
    ensures value.Str? ==> r.0 == others[key := value.value]
    ensures value.Str? ==> (r.1.Err? <==> key in others)
  {
    match value
    case Str(s) =>
      var duplicate := key in others;
      (others[key := s], if duplicate then Err(MDError("duplicate metadata key \"" + key + "\"", None)) else Ok(()))
    case _ => (others, Err(MDError("for unknown keys, only string values are supported", None)))
  }

  /** A later size of the same name replaces an earlier one. */
  lemma SizeLastWins(sizes: map<string, SizeInfo>, name: string, first: Yaml, second: Yaml,
                     distance: string -> MDResult<DistanceQuantity>)
    requires SizeEntry(sizes, name, first, distance).1.Ok?
    requires SizeEntry(SizeEntry(sizes, name, first, distance).0, name, second, distance).1.Ok?
    ensures SizeEntry(SizeEntry(sizes, name, first, distance).0, name, second, distance).0
         == sizes[name := SizeInfoFromStr(second.value, distance).value]
  {
  }

  /** One entry of the top-level mapping of `Metadata::parse`: the key must be
      a string; "tags", "quantity", "size | <name>" and every other key each
      update their own field and nothing else. */
  function ApplyEntry(v: MetadataValue, key: Yaml, value: Yaml, p: Parsers): (r: MDResult<MetadataValue>)
    ensures !key.Str? ==> r == Err(MDError("expected string key", None))
    ensures key.Str? && key.value == TagsKey ==> (r.Ok? <==> value.Seq? && ScanTags(value.items).1.Ok?)
    ensures key.Str? && key.value == QuantityKey ==> (r.Ok? <==> value.Str? && p.quantity(value.value).Ok?)
    ensures key.Str? && key.value != TagsKey && key.value != QuantityKey && StartsWith(key.value, SizePrefix) ==>
              (r.Ok? <==> |key.value| > |SizePrefix| && value.Str? && SizeInfoFromStr(value.value, p.distance).Ok?)
    ensures r.Ok? ==> v.tags <= r.value.tags && v.sizes.Keys <= r.value.sizes.Keys && v.others.Keys <= r.value.others.Keys
    ensures r.Ok? && key.value == TagsKey ==>
              value.Seq? && ScanTags(value.items).1.Ok? && r.value == v.(tags := v.tags + ScanTags(value.items).0)
    ensures r.Ok? && key.value == QuantityKey ==>
              value.Str? && p.quantity(value.value).Ok? && r.value == v.(quantity := p.quantity(value.value).value)
    ensures r.Ok? && key.value != TagsKey && key.value != QuantityKey && StartsWith(key.value, SizePrefix) ==>
              value.Str? && SizeInfoFromStr(value.value, p.distance).Ok?
              && r.value == v.(sizes := v.sizes[key.value[|SizePrefix|..] := SizeInfoFromStr(value.value, p.distance).value])
    ensures key.Str? && key.value != TagsKey && key.value != QuantityKey && !StartsWith(key.value, SizePrefix) ==>
              (r.Ok? <==> value.Str? && key.value !in v.others)
    ensures r.Ok? && key.value != TagsKey && key.value != QuantityKey && !StartsWith(key.value, SizePrefix) ==>
              value.Str? && r.value == v.(others := v.others[key.value := value.value])
  {
    match key
    case Str(k) =>
      if k == TagsKey then
        var (tags, res) := TagsEntry(v.tags, value);
        if res.Err? then Err(res.error) else Ok(v.(tags := tags))
      else if k == QuantityKey then
        var (quantity, res) := QuantityEntry(v.quantity, value, p.quantity);
        if res.Err? then Err(res.error) else Ok(v.(quantity := quantity))
      else if StartsWith(k, SizePrefix) then
        var (sizes, res) := SizeEntry(v.sizes, k[|SizePrefix|..], value, p.distance);
        if res.Err? then Err(res.error) else Ok(v.(sizes := sizes))
      else
        var (others, res) := OthersEntry(v.others, k, value);
        if res.Err? then Err(res.error) else Ok(v.(others := others))
    case _ => Err(MDError("expected string key", None))
  }

  /** The entries of the mapping applied in document order, stopping at the
      first error. */
  function ApplyEntries(v: MetadataValue, entries: seq<(Yaml, Yaml)>, p: Parsers): (r: MDResult<MetadataValue>)
    ensures r.Ok? ==> forall i :: 0 <= i < |entries| ==> entries[i].0.Str?
    ensures r.Ok? ==> v.tags <= r.value.tags && v.sizes.Keys <= r.value.sizes.Keys && v.others.Keys <= r.value.others.Keys
    ensures r.Ok? ==> forall i :: 0 <= i < |entries| ==>
                        entries[i].0.Str? && !(entries[i].0.value in {TagsKey, QuantityKey}) && !StartsWith(entries[i].0.value, SizePrefix)
                        ==> entries[i].0.value in r.value.others
    decreases |entries|
  {
    if |entries| == 0 then Ok(v)
    else
      var prev :- ApplyEntries(v, entries[..|entries| - 1], p);
      var (key, value) := entries[|entries| - 1];
      ApplyEntry(prev, key, value, p)
  }

  /** Once an entry has failed, the entries after it are never looked at. */
  lemma {:induction false} ApplyEntriesStops(v: MetadataValue, entries: seq<(Yaml, Yaml)>, k: nat, p: Parsers)
    requires k <= |entries| && ApplyEntries(v, entries[..k], p).Err?
    ensures ApplyEntries(v, entries, p) == ApplyEntries(v, entries[..k], p)
    decreases |entries| - k
  {
    if k < |entries| {
      var init := entries[..|entries| - 1];
      assert init[..k] == entries[..k];
      ApplyEntriesStops(v, init, k, p);
    } else {
      assert entries[..k] == entries;
    }
  }

  /** `Metadata::parse` from the loaded documents: exactly one document,
      which must be a mapping, whose entries are applied to the default. */
  function ParseSpec(docs: seq<Yaml>, p: Parsers): (r: MDResult<MetadataValue>)
    ensures |docs| != 1 ==> r == Err(MDError("expected single YAML document in frontmatter", None))
    ensures |docs| == 1 && !docs[0].Mapping? ==> r == Err(MDError("expected top-level element to be mapping", None))
    ensures |docs| == 1 && docs[0].Mapping? ==> r == ApplyEntries(DefaultValue, docs[0].entries, p)
  {
    if |docs| != 1 then Err(MDError("expected single YAML document in frontmatter", None))
    else
      match docs[0]
      case Mapping(entries) => ApplyEntries(DefaultValue, entries, p)
      case _ => Err(MDError("expected top-level element to be mapping", None))
  }

  /** `Metadata`: the fields the parse fills in place. */
  class Metadata {
    var tags: seq<string>
    var quantity: Quantity
    var sizes: map<string, SizeInfo>
    var others: map<string, string>

    function Value(): MetadataValue
      reads this
    {
      MetadataValue(tags, quantity, sizes, others)
    }

    /** `Metadata::default`. */
    constructor Default()
      ensures Value() == DefaultValue
    {
      tags := [];
      quantity := OneNominal;
      sizes := map[];
      others := map[];
    }

    /** `Metadata::parse_tags`: pushes each valid tag, in order, and stops
        at the first element that is not one. */
    method ParseTags(value: Yaml) returns (r: MDResult<()>)
      modifies this`tags
      ensures (tags, r) == TagsEntry(old(tags), value)
    {
      if !value.Seq? {
        return Err(MDError("expected sequence under \"tags\"", None));
      }
      var items := value.items;
      var i := 0;
      while i < |items|
        invariant 0 <= i <= |items|
        invariant ScanTags(items[..i]).1.Ok?
        invariant tags == old(tags) + ScanTags(items[..i]).0
      {
        assert items[..i + 1][..i] == items[..i];
        var tag := items[i];
        if !tag.Str? {
          ScanTagsStops(items, i + 1);
          return Err(MDError("expected string tag", None));
        }
        var t := GetTag(tag.value);
        if t.Err? {
          ScanTagsStops(items, i + 1);
          return Err(t.error);
        }
        tags := tags + [t.value];
        i := i + 1;
      }
      assert items[..i] == items;
      r := Ok(());
    }

    /** `Metadata::parse_quantity`. */
    method ParseQuantity(value: Yaml, parse: string -> MDResult<Quantity>) returns (r: MDResult<()>)
      modifies this`quantity
      ensures (quantity, r) == QuantityEntry(old(quantity), value, parse)
    {
      if !value.Str? {
        return Err(MDError("expected string under \"quantity\"", None));
      }
      var q := parse(value.value);
      if q.Err? {
        return Err(q.error);
      }
      quantity := q.value;
      r := Ok(());
    }

    /** `Metadata::parse_size`. */
    method ParseSize(name: string, value: Yaml, distance: string -> MDResult<DistanceQuantity>) returns (r: MDResult<()>)
      modifies this`sizes
      ensures (sizes, r) == SizeEntry(old(sizes), name, value, distance)
    {
      if name == "" {
        return Err(MDError("sized object must have a name", None));
      }
      if !value.Str? {
        return Err(MDError("expected string size attribute for \"" + name + "\"", None));
      }
      var info := SizeInfoFromStr(value.value, distance);
      if info.Err? {
        return Err(info.error);
      }
      sizes := sizes[name := info.value];
      r := Ok(());
    }

    /** `Metadata::parse_others`: the insertion happens before the
        duplicate check. */
    method ParseOthers(key: string, value: Yaml) returns (r: MDResult<()>)
      modifies this`others
      ensures (others, r) == OthersEntry(old(others), key, value)
    {
      if !value.Str? {
        return Err(MDError("for unknown keys, only string values are supported", None));
      }
      var duplicate := key in others;
      others := others[key := value.value];
      if duplicate {
        return Err(MDError("duplicate metadata key \"" + key + "\"", None));
      }
      r := Ok(());
    }

    /** One entry of the mapping in `Metadata::parse`: the key picks the
        method that updates the fields. */
    method ParseEntry(key: Yaml, value: Yaml, p: Parsers) returns (r: MDResult<()>)
      modifies this
      ensures r.Ok? <==> ApplyEntry(old(Value()), key, value, p).Ok?
      ensures r.Err? ==> r.error == ApplyEntry(old(Value()), key, value, p).error
      ensures r.Ok? ==> Value() == ApplyEntry(old(Value()), key, value, p).value
    {
      if !key.Str? {
        return Err(MDError("expected string key", None));
      }
      var k := key.value;
      if k == TagsKey {
        r := ParseTags(value);
      } else if k == QuantityKey {
        r := ParseQuantity(value, p.quantity);
      } else if StartsWith(k, SizePrefix) {
        r := ParseSize(k[|SizePrefix|..], value, p.distance);
      } else {
        r := ParseOthers(k, value);
      }
    }

    /** `Metadata::parse`: starts from the default and applies the entries
        of the single mapping document in order, each through its method. */
    static method Parse(docs: seq<Yaml>, p: Parsers) returns (r: MDResult<Metadata>)
      ensures r.Ok? <==> ParseSpec(docs, p).Ok?
      ensures r.Err? ==> r.error == ParseSpec(docs, p).error
      ensures r.Ok? ==> fresh(r.value) && r.value.Value() == ParseSpec(docs, p).value
    {
      if |docs| != 1 {
        return Err(MDError("expected single YAML document in frontmatter", None));
      }
      if !docs[0].Mapping? {
        return Err(MDError("expected top-level element to be mapping", None));
      }
      var entries := docs[0].entries;
      var meta := new Metadata.Default();
      var i := 0;
      while i < |entries|
        invariant 0 <= i <= |entries|
        invariant fresh(meta)
        invariant ApplyEntries(DefaultValue, entries[..i], p) == Ok(meta.Value())
      {
        assert entries[..i + 1][..i] == entries[..i];
        var (key, value) := entries[i];
        var res := meta.ParseEntry(key, value, p);
        if res.Err? {
          ApplyEntriesStops(DefaultValue, entries, i + 1, p);
          return Err(res.error);
        }
        i := i + 1;
      }
      assert entries[..i] == entries;
      r := Ok(meta);
    }
  }
}
