/** The step grammar wired into the recipe parser: a list whose items are
    steps, each a paragraph of inline elements optionally followed by a
    nested list of sub-steps. Timers are read with the amount-and-unit
    parser and must carry a time unit. */
module StepParser {
  import opened Wrappers
  import opened Units
  import opened MdParser

  /** `TextElem`: plain text, a reference to an ingredient, or a timer. */
  datatype TextElem = Text(text: string) | IngredientRef(name: string) | Timer(amount: real, unit: Unit)

  /** `Step { description, substeps }`; `Steps` is the sequence of steps. */
  datatype Step = Step(description: seq<TextElem>, substeps: seq<Step>)

  /** The amount-and-unit reading of a timer text is a timer exactly when a
      unit was found and it is a time unit. */
  predicate IsTimerReading(res: MDResult<(real, Option<Unit>)>) {
    res.Ok? && res.value.1.Some? && IsTime(res.value.1.value)
  }

  /** The inline nodes `TextElemFromNode` accepts. */
  predicate IsInline(n: Node, amountAndUnit: string -> MDResult<(real, Option<Unit>)>) {
    n.Text?
    || (n.Emphasis? && (|n.children| == 0 || (|n.children| == 1 && n.children[0].Text?)))
    || (n.Strong? && (|n.children| == 0
                      || (|n.children| == 1 && n.children[0].Text? && IsTimerReading(amountAndUnit(n.children[0].value)))))
  }

  /** `TextElem::from_node`: text is kept, emphasis is an ingredient
      reference, strong text is a timer whose unit must be a time unit. A
      reading that carries no unit at all is an error here (the source
      unwraps it). */
  function TextElemFromNode(n: Node, amountAndUnit: string -> MDResult<(real, Option<Unit>)>): (r: MDResult<TextElem>)
    ensures r.Ok? <==> IsInline(n, amountAndUnit)
    ensures r.Ok? && n.Text? ==> r.value == TextElem.Text(n.value)
    ensures r.Ok? && (n.Emphasis? || n.Strong?) && |n.children| == 0 ==> r.value == IngredientRef("")
    ensures r.Ok? && n.Emphasis? && |n.children| == 1 ==> r.value == IngredientRef(n.children[0].value)
    ensures r.Ok? && n.Strong? && |n.children| == 1 ==>
              var reading := amountAndUnit(n.children[0].value).value;
              r.value == Timer(reading.0, reading.1.value)
    ensures r.Ok? && r.value.Timer? ==> IsTime(r.value.unit)
    ensures !(n.Text? || n.Emphasis? || n.Strong?) ==> r == Err(MDError("unsupported element in step", Some(n)))
  {
    match n
    case Text(value) => Ok(TextElem.Text(value))
    case Emphasis(children) =>
      if |children| == 0 then Ok(IngredientRef(""))
      else if |children| == 1 then
        (match children[0]
         case Text(value) => Ok(IngredientRef(value))
         case _ => Err(MDError("expected ingrdient ref to be text", Some(children[0]))))
      else Err(MDError("expected single children", Some(n)))
    case Strong(children) =>
      if |children| == 0 then Ok(IngredientRef(""))
      else if |children| == 1 then
        (match children[0]
         case Text(value) =>
           var reading :- amountAndUnit(value);
           (match reading.1
            case None => Err(MDError("timer has no unit", Some(children[0])))
            case Some(unit) =>
              if IsTime(unit) then Ok(Timer(reading.0, unit))
              else Err(MDError("expected time unit", Some(children[0]))))
         case _ => Err(MDError("expected ingrdient ref to be text", Some(children[0]))))
      else Err(MDError("expected single children", Some(n)))
    case _ => Err(MDError("unsupported element in step", Some(n)))
  }

  /** `Steps::from_mdast`: no node gives no steps; a single list node gives
      one step per item; anything else fails. */
  function StepsFromMdast(nodes: seq<Node>, amountAndUnit: string -> MDResult<(real, Option<Unit>)>): (r: MDResult<seq<Step>>)
    ensures |nodes| == 0 ==> r == Ok([])
    ensures |nodes| > 1 ==> r == Err(MDError("expected single list node for steps", None))
    ensures |nodes| == 1 && !nodes[0].List? ==> r == Err(MDError("steps must be list", Some(nodes[0])))
    ensures r.Ok? && |nodes| == 1 ==> |r.value| == |nodes[0].children|
  {
    if |nodes| == 0 then Ok([])
    else if |nodes| == 1 then
      match nodes[0]
      case List(children) => StepItems(children, amountAndUnit)
      case _ => Err(MDError("steps must be list", Some(nodes[0])))
    else Err(MDError("expected single list node for steps", None))
  }

  /** The item-by-item collection inside `Steps::from_mdast`. */
  function StepItems(items: seq<Node>, amountAndUnit: string -> MDResult<(real, Option<Unit>)>): (r: MDResult<seq<Step>>)
    ensures r.Ok? ==> |r.value| == |items|
  {
    if |items| == 0 then Ok([])
    else
      var first :- StepOfItem(items[0], amountAndUnit);
      var rest :- StepItems(items[1..], amountAndUnit);
      Ok([first] + rest)
  }

  /** The check that each list child is a list item, then
      `Step::from_list_item`. */
  function StepOfItem(n: Node, amountAndUnit: string -> MDResult<(real, Option<Unit>)>): (r: MDResult<Step>)
    ensures !n.ListItem? ==> r == Err(MDError("expected list item", Some(n)))
    ensures r.Ok? ==> n.ListItem? && Ok(r.value) == FromListItem(n.children, amountAndUnit)
  {
    match n
    case ListItem(children) => FromListItem(children, amountAndUnit)
    case _ => Err(MDError("expected list item", Some(n)))
  }

  /** `Step::from_list_item`: an empty item is an empty step; otherwise the
      first child is the paragraph of the description and the rest are read
      as the sub-step list. */
  function FromListItem(children: seq<Node>, amountAndUnit: string -> MDResult<(real, Option<Unit>)>): (r: MDResult<Step>)
    ensures |children| == 0 ==> r == Ok(Step([], []))
    ensures |children| > 0 && !children[0].Paragraph? ==> r == Err(MDError("expected paragraph", Some(children[0])))
    ensures |children| > 2 ==> r.Err?
    ensures r.Ok? && |children| > 0 ==>
              Ok(r.value.description) == ParseDescription(children[0].children, amountAndUnit)
              && Ok(r.value.substeps) == StepsFromMdast(children[1..], amountAndUnit)
  {
    if |children| == 0 then
      // the source reads the sub-steps of an empty slice, which are none
      Ok(Step([], []))
    else
      match children[0]
      case Paragraph(inline) =>
        var description :- ParseDescription(inline, amountAndUnit);
        var substeps :- StepsFromMdast(children[1..], amountAndUnit);
        Ok(Step(description, substeps))
      case _ => Err(MDError("expected paragraph", Some(children[0])))
  }

  /** `Step::parse_description`: one element per inline node, in order. */
  function ParseDescription(nodes: seq<Node>, amountAndUnit: string -> MDResult<(real, Option<Unit>)>): (r: MDResult<seq<TextElem>>)
    ensures r.Ok? <==> forall i :: 0 <= i < |nodes| ==> IsInline(nodes[i], amountAndUnit)
    ensures r.Ok? ==> |r.value| == |nodes| && forall i :: 0 <= i < |nodes| ==> Ok(r.value[i]) == TextElemFromNode(nodes[i], amountAndUnit)
  {
    MapAll(nodes, n => TextElemFromNode(n, amountAndUnit))
  }

  function ItemParser(amountAndUnit: string -> MDResult<(real, Option<Unit>)>): Node -> MDResult<Step> {
    n => StepOfItem(n, amountAndUnit)
  }

  /** The explicit recursion over the items is the collection of the
      per-item results: one step per item, in order, or the first error. */
  lemma {:induction false} StepItemsCollect(items: seq<Node>, amountAndUnit: string -> MDResult<(real, Option<Unit>)>)
    ensures StepItems(items, amountAndUnit) == MapAll(items, ItemParser(amountAndUnit))
    decreases |items|
  {
    if |items| > 0 {
      StepItemsCollect(items[1..], amountAndUnit);
    }
  }

  /** A single list is accepted exactly when every child is a list item that
      forms a step, and then gives one step per child, in order; a child
      that is not a list item makes the whole list fail. */
  lemma StepsOfList(children: seq<Node>, amountAndUnit: string -> MDResult<(real, Option<Unit>)>)
    ensures var r := StepsFromMdast([List(children)], amountAndUnit);
            (r.Ok? <==> forall i :: 0 <= i < |children| ==> children[i].ListItem? && FromListItem(children[i].children, amountAndUnit).Ok?)
            && (r.Ok? ==> forall i :: 0 <= i < |children| ==> Ok(r.value[i]) == FromListItem(children[i].children, amountAndUnit))
  {
    StepItemsCollect(children, amountAndUnit);
  }

  /** A non-empty item is accepted exactly when its first child is a
      paragraph of accepted inline nodes and what follows is either nothing
      or a single accepted list, whose steps become the sub-steps. */
  lemma FromListItemParts(children: seq<Node>, amountAndUnit: string -> MDResult<(real, Option<Unit>)>)
    requires |children| > 0
    ensures var r := FromListItem(children, amountAndUnit);
            r.Ok? <==> children[0].Paragraph? && ParseDescription(children[0].children, amountAndUnit).Ok?
                       && StepsFromMdast(children[1..], amountAndUnit).Ok?
    ensures var r := FromListItem(children, amountAndUnit);
            r.Ok? ==> |r.value.description| == |children[0].children|
                      && (forall i :: 0 <= i < |children[0].children| ==>
                            Ok(r.value.description[i]) == TextElemFromNode(children[0].children[i], amountAndUnit))
                      && (|children| == 1 ==> r.value.substeps == [])
                      && (|children| == 2 ==>
                            children[1].List? && |r.value.substeps| == |children[1].children|
                            && forall i :: 0 <= i < |children[1].children| ==>
                                 Ok(r.value.substeps[i]) == StepOfItem(children[1].children[i], amountAndUnit))
  {
    if |children| == 2 && children[1].List? {
      StepItemsCollect(children[1].children, amountAndUnit);
    }
  }
}
