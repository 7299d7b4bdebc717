/** The ingredient grammar wired into the recipe parser: a flat list whose
    items read `<name>, <quantity>[, <attribute>]*`. The item grammar
    (`Ingredient::from_str` and the list-item check) is shared, unchanged,
    by the grouped grammar of the `IngredientsParser` module. */
module IngredientParser {
  import opened Wrappers
  import opened Strings
  import opened MdParser
  import opened Quantities

  /** `Ingredient { name, quantity, attributes }`. */
  datatype Ingredient = Ingredient(name: string, quantity: Option<Quantity>, attributes: seq<string>)

  function TrimAll(parts: seq<string>): (r: seq<string>)
    ensures |r| == |parts|
    ensures forall i :: 0 <= i < |parts| ==> r[i] == Trim(parts[i])
  {
    seq(|parts|, i requires 0 <= i < |parts| => Trim(parts[i]))
  }

  /** The text between the first and the second comma (or the end), which
      holds the quantity. */
  function QuantitySegment(text: string): string
    requires ',' in text
  {
    var after := text[IndexOf(text, ',').value + 1..];
    match IndexOf(after, ',')
    case None => after
    case Some(j) => after[..j]
  }

  /** `Ingredient::from_str`: splits on every comma and trims each piece; the
      first piece is the name, the second the quantity (kept only when it
      parses), the rest are attributes. Fails only when there is no comma. */
  function FromStr(text: string, parseQuantity: string -> MDResult<Quantity>): (r: MDResult<Ingredient>)
    ensures r.Err? <==> ',' !in text
    ensures r.Ok? ==> r.value.name == Trim(text[..IndexOf(text, ',').value])
    ensures r.Ok? ==> (r.value.quantity.Some? <==> parseQuantity(Trim(QuantitySegment(text))).Ok?)
    ensures r.Ok? && r.value.quantity.Some? ==> r.value.quantity.value == parseQuantity(Trim(QuantitySegment(text))).value
    ensures r.Ok? ==> |r.value.attributes| == |Split(text, ',')| - 2
    ensures r.Ok? ==> forall k :: 0 <= k < |r.value.attributes| ==> IsTrimmed(r.value.attributes[k]) && ',' !in r.value.attributes[k]
  {
    var components := TrimAll(Split(text, ','));
    if |components| < 2 then
      Err(MDError("ingredient must be formatted as <name>, <quantity> [, <leftover>]*", None))
    else
      SplitSecond(text);
      TrimmedPieces(Split(text, ','));
      Ok(Ingredient(components[0], ToOption(parseQuantity(components[1])), components[2..]))
  }

  /** Trimmed pieces of a split are trimmed and hold no separator. */
  lemma TrimmedPieces(parts: seq<string>)
    requires forall i :: 0 <= i < |parts| ==> ',' !in parts[i]
    ensures forall k :: 0 <= k < |parts| ==> IsTrimmed(TrimAll(parts)[k]) && ',' !in TrimAll(parts)[k]
  {
    forall k | 0 <= k < |parts|
      ensures ',' !in TrimAll(parts)[k]
    {
      TrimIsInfix(parts[k]);
    }
  }

  /** The first two pieces of a split at the commas are the text before the
      first comma and the quantity segment. */
  lemma SplitSecond(text: string)
    requires ',' in text
    ensures Split(text, ',')[0] == text[..IndexOf(text, ',').value]
    ensures Split(text, ',')[1] == QuantitySegment(text)
  {
    var i := IndexOf(text, ',').value;
    var after := text[i + 1..];
    assert Split(text, ',') == [text[..i]] + Split(after, ',');
    assert Split(text, ',')[1] == Split(after, ',')[0];
    SplitHead(after, ',');
  }

  /** Formatting the pieces with commas and parsing again gives back the
      trimmed pieces: the name, the parsed quantity and the attributes. */
  lemma {:induction false} FromStrOfJoin(parts: seq<string>, parseQuantity: string -> MDResult<Quantity>)
    requires |parts| >= 2
    requires forall i :: 0 <= i < |parts| ==> ',' !in parts[i]
    ensures FromStr(Join(parts, ','), parseQuantity)
         == Ok(Ingredient(Trim(parts[0]), ToOption(parseQuantity(Trim(parts[1]))), TrimAll(parts[2..])))
  {
    var text := Join(parts, ',');
    SplitJoin(parts, ',');
    assert Split(text, ',') == parts;
    var components := TrimAll(parts);
    assert components[0] == Trim(parts[0]) && components[1] == Trim(parts[1]);
    assert components[2..] == TrimAll(parts[2..]);
    assert FromStr(text, parseQuantity)
        == Ok(Ingredient(components[0], ToOption(parseQuantity(components[1])), components[2..]));
  }

  /** Nothing checks the name: a text that starts with a comma is accepted
      with an empty name. */
  lemma FromStrEmptyName(text: string, parseQuantity: string -> MDResult<Quantity>)
    requires |text| > 0 && text[0] == ','
    ensures FromStr(text, parseQuantity).Ok? && FromStr(text, parseQuantity).value.name == ""
  {
    assert IndexOf(text, ',') == Some(0);
    assert Trim(text[..0]) == "";
  }

  /** The item shape both ingredient grammars accept: a list item holding a
      single paragraph that holds a single text. */
  predicate IsIngredientItem(n: Node) {
    n.ListItem? && |n.children| == 1 && GetTextFromParagraph(n.children[0]).Ok?
  }

  /** The per-item check of `IngredientList::from_mdast` (and, unchanged,
      `Ingredient::parse`): a list item with exactly one child, a paragraph
      with a single text, whose text is read by `FromStr`. */
  function ParseListItem(n: Node, parseQuantity: string -> MDResult<Quantity>): (r: MDResult<Ingredient>)
    ensures r.Ok? <==> IsIngredientItem(n) && ',' in n.children[0].children[0].value
    ensures r.Ok? ==> r == FromStr(n.children[0].children[0].value, parseQuantity)
    ensures !n.ListItem? ==> r == Err(MDError("expected list item", Some(n)))
  {
    match n
    case ListItem(children) =>
      if ExpectChildren(n, 1).Err? then Err(ExpectChildren(n, 1).error)
      else
        match GetTextFromParagraph(children[0]) {
        case Err(e) => Err(e)
        case Ok(text) => FromStr(text, parseQuantity)
      }
    case _ => Err(MDError("expected list item", Some(n)))
  }

  /** `IngredientList::from_mdast`: no node gives the empty list; a single
      list node gives one ingredient per item, in order; anything else fails. */
  function FromMdast(nodes: seq<Node>, parseQuantity: string -> MDResult<Quantity>): (r: MDResult<seq<Ingredient>>)
    ensures |nodes| == 0 ==> r == Ok([])
    ensures |nodes| > 1 ==> r.Err?
    ensures |nodes| == 1 && !nodes[0].List? ==> r.Err?
    ensures |nodes| == 1 && nodes[0].List? ==>
              (r.Ok? <==> forall i :: 0 <= i < |nodes[0].children| ==> ParseListItem(nodes[0].children[i], parseQuantity).Ok?)
    ensures r.Ok? && |nodes| == 1 ==>
              |r.value| == |nodes[0].children|
              && forall i :: 0 <= i < |r.value| ==> Ok(r.value[i]) == ParseListItem(nodes[0].children[i], parseQuantity)
  {
    if |nodes| == 0 then Ok([])
    else if |nodes| == 1 then
      match nodes[0]
      case List(children) => MapAll(children, n => ParseListItem(n, parseQuantity))
      case _ => Err(MDError("ingredients must be list", Some(nodes[0])))
    else Err(MDError("expected single list node for ingredients", None))
  }

  /** A list every item of which is a one-paragraph text holding a comma is
      always accepted, whatever the quantity parser says. */
  lemma FromMdastCommaItems(texts: seq<string>, parseQuantity: string -> MDResult<Quantity>)
    requires forall i :: 0 <= i < |texts| ==> ',' in texts[i]
    ensures var items := seq(|texts|, i requires 0 <= i < |texts| => ListItem([Paragraph([Text(texts[i])])]));
            var r := FromMdast([List(items)], parseQuantity);
            r.Ok? && |r.value| == |texts|
  {
  }
}
