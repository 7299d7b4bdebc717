/** The newer step grammar: a single list of steps, each a list item with a
    description paragraph and at most one nested list of sub-steps. Timers
    are read with the time-quantity parser. */
module InstructionsParser {
  import opened Wrappers
  import opened MdParser
  import opened Quantities

  /** `TextElem`: plain text, a reference to an ingredient, or a timer. */
  datatype TextElem = Text(text: string) | IngredientRef(name: string) | Timer(quantity: TimeQuantity)

  /** `Step { description, substeps }`. */
  datatype Step = Step(description: seq<TextElem>, substeps: seq<Step>)

  /** The inline nodes `TextElemFromNode` accepts. */
  predicate IsInline(n: Node, time: string -> MDResult<TimeQuantity>) {
    n.Text?
    || (n.Emphasis? && (|n.children| == 0 || (|n.children| == 1 && n.children[0].Text?)))
    || (n.Strong? && (|n.children| == 0 || (|n.children| == 1 && n.children[0].Text? && time(n.children[0].value).Ok?)))
  }

  /** `TextElem::from_node`: text is kept, emphasis is an ingredient
      reference, strong text is a timer when it reads as a time quantity; an
      empty emphasis or strong node is an empty ingredient reference. */
  function TextElemFromNode(n: Node, time: string -> MDResult<TimeQuantity>): (r: MDResult<TextElem>)
    ensures r.Ok? <==> IsInline(n, time)
    ensures r.Ok? && n.Text? ==> r.value == TextElem.Text(n.value)
    ensures r.Ok? && (n.Emphasis? || n.Strong?) && |n.children| == 0 ==> r.value == IngredientRef("")
    ensures r.Ok? && n.Emphasis? && |n.children| == 1 ==> r.value == IngredientRef(n.children[0].value)
    ensures r.Ok? && n.Strong? && |n.children| == 1 ==> r.value == Timer(time(n.children[0].value).value)
    ensures !(n.Text? || n.Emphasis? || n.Strong?) ==> r == Err(MDError("unsupported element in step", Some(n)))
  {
    match n
    case Text(value) => Ok(TextElem.Text(value))
    case Emphasis(children) =>
      if |children| == 0 then Ok(IngredientRef(""))
      else if |children| == 1 then
        (match children[0]
         case Text(value) => Ok(IngredientRef(value))
         case _ => Err(MDError("expected ingrdient ref to be text", Some(children[0]))))
      else Err(MDError("expected single children", Some(n)))
    case Strong(children) =>
      if |children| == 0 then Ok(IngredientRef(""))
      else if |children| == 1 then
        (match children[0]
         case Text(value) =>
           (match time(value)
            case Ok(quantity) => Ok(Timer(quantity))
            case Err(_) => Err(MDError("expected time information but got \"" + value + "\"", Some(children[0]))))
         case _ => Err(MDError("expected ingrdient ref to be text", Some(children[0]))))
      else Err(MDError("expected single children", Some(n)))
    case _ => Err(MDError("unsupported element in step", Some(n)))
  }

  /** `Step::parse_description`: a paragraph, read as one element per inline
      child, in order. */
  function ParseDescription(n: Node, time: string -> MDResult<TimeQuantity>): (r: MDResult<seq<TextElem>>)
    ensures !n.Paragraph? ==> r == Err(MDError("expected paragraph", Some(n)))
    ensures r.Ok? <==> n.Paragraph? && forall i :: 0 <= i < |n.children| ==> IsInline(n.children[i], time)
    ensures r.Ok? ==> |r.value| == |n.children|
                      && forall i :: 0 <= i < |n.children| ==> Ok(r.value[i]) == TextElemFromNode(n.children[i], time)
  {
    match n
    case Paragraph(children) => MapAll(children, c => TextElemFromNode(c, time))
    case _ => Err(MDError("expected paragraph", Some(n)))
  }

  /** `Step::parse_step`: a list item with no child is an empty step, with
      one child a description, with two a description and the sub-steps of
      the second child; more children, or another node kind, fail. */
  function ParseStep(n: Node, time: string -> MDResult<TimeQuantity>): (r: MDResult<Step>)
    ensures !n.ListItem? ==> r == Err(MDError("expected list item", Some(n)))
    ensures n.ListItem? && |n.children| == 0 ==> r == Ok(Step([], []))
    ensures n.ListItem? && |n.children| > 2 ==> r.Err?
    ensures r.Ok? && |n.children| > 0 ==> Ok(r.value.description) == ParseDescription(n.children[0], time)
    ensures r.Ok? && |n.children| == 1 ==> r.value.substeps == []
    ensures n.ListItem? && 1 <= |n.children| <= 2 ==>
              (r.Ok? <==> ParseDescription(n.children[0], time).Ok?
                          && (|n.children| == 2 ==> ParseStepList(n.children[1], time).Ok?))
    ensures r.Ok? && |n.children| == 2 ==> Ok(r.value.substeps) == ParseStepList(n.children[1], time)
  {
    match n
    case ListItem(children) =>
      if |children| == 0 then Ok(Step([], []))
      else if |children| == 1 then
        var description :- ParseDescription(children[0], time);
        Ok(Step(description, []))
      else if |children| == 2 then
        var description :- ParseDescription(children[0], time);
        var substeps :- ParseStepList(children[1], time);
        Ok(Step(description, substeps))
      else Err(MDError("too many children to list item, expected at most 2", None))
    case _ => Err(MDError("expected list item", Some(n)))
  }

  /** `Step::parse_step_list`: a list node, read as one step per child. */
  function ParseStepList(n: Node, time: string -> MDResult<TimeQuantity>): (r: MDResult<seq<Step>>)
    ensures !n.List? ==> r == Err(MDError("expected list", Some(n)))
    ensures r.Ok? ==> |r.value| == |n.children|
  {
    match n
    case List(children) => ParseSteps(children, time)
    case _ => Err(MDError("expected list", Some(n)))
  }

  /** The child-by-child collection inside `parse_step_list`. */
  function ParseSteps(items: seq<Node>, time: string -> MDResult<TimeQuantity>): (r: MDResult<seq<Step>>)
    ensures r.Ok? ==> |r.value| == |items|
  {
    if |items| == 0 then Ok([])
    else
      var first :- ParseStep(items[0], time);
      var rest :- ParseSteps(items[1..], time);
      Ok([first] + rest)
  }

  /** `Instructions::from_mdast`: no node gives no steps, one node is read
      as the step list, more nodes fail. */
  function FromMdast(nodes: seq<Node>, time: string -> MDResult<TimeQuantity>): (r: MDResult<seq<Step>>)
    ensures |nodes| == 0 ==> r == Ok([])
    ensures |nodes| == 1 ==> r == ParseStepList(nodes[0], time)
    ensures |nodes| > 1 ==> r == Err(MDError("expected single list node for steps", None))
  {
    if |nodes| == 0 then Ok([])
    else if |nodes| == 1 then ParseStepList(nodes[0], time)
    else Err(MDError("expected single list node for steps", None))
  }

  function StepOfNode(time: string -> MDResult<TimeQuantity>): Node -> MDResult<Step> {
    n => ParseStep(n, time)
  }

  /** The explicit recursion over the children is the collection of the
      per-child results: one step per child, in order, or the first error. */
  lemma {:induction false} ParseStepsCollect(items: seq<Node>, time: string -> MDResult<TimeQuantity>)
    ensures ParseSteps(items, time) == MapAll(items, StepOfNode(time))
    decreases |items|
  {
    if |items| > 0 {
      ParseStepsCollect(items[1..], time);
    }
  }

  /** A list is accepted exactly when every child is accepted as a step, and
      then gives one step per child, in order. */
  lemma StepListOneToOne(n: Node, time: string -> MDResult<TimeQuantity>)
    requires n.List?
    ensures var r := ParseStepList(n, time);
            (r.Ok? <==> forall i :: 0 <= i < |n.children| ==> ParseStep(n.children[i], time).Ok?)
            && (r.Ok? ==> forall i :: 0 <= i < |n.children| ==> Ok(r.value[i]) == ParseStep(n.children[i], time))
  {
    ParseStepsCollect(n.children, time);
  }

  /** How deeply lists are nested inside a node; the contents of node kinds
      the grammar never enters are not counted. */
  function ListDepth(n: Node): nat {
    match n
    case List(children) => 1 + MaxListDepth(children)
    case Root(children) => MaxListDepth(children)
    case Heading(_, children) => MaxListDepth(children)
    case Paragraph(children) => MaxListDepth(children)
    case ListItem(children) => MaxListDepth(children)
    case Emphasis(children) => MaxListDepth(children)
    case Strong(children) => MaxListDepth(children)
    case _ => 0
  }

  function MaxListDepth(nodes: seq<Node>): nat {
    if |nodes| == 0 then 0
    else
      var d := ListDepth(nodes[0]);
      var rest := MaxListDepth(nodes[1..]);
      if d < rest then rest else d
  }

  /** How deeply steps are nested: a step with no sub-step has depth 1. */
  function StepDepth(s: Step): nat {
    1 + MaxStepDepth(s.substeps)
  }

  function MaxStepDepth(steps: seq<Step>): nat {
    if |steps| == 0 then 0
    else
      var d := StepDepth(steps[0]);
      var rest := MaxStepDepth(steps[1..]);
      if d < rest then rest else d
  }

  /** The step tree is no deeper than the list nesting of its input: every
      level of sub-steps comes from one more level of nested list. */
  lemma {:induction false} ParseStepListDepth(n: Node, time: string -> MDResult<TimeQuantity>)
    requires ParseStepList(n, time).Ok?
    ensures MaxStepDepth(ParseStepList(n, time).value) <= ListDepth(n)
    decreases n, 2
  {
    ParseStepsDepth(n.children, time);
  }

  lemma {:induction false} ParseStepsDepth(items: seq<Node>, time: string -> MDResult<TimeQuantity>)
    requires ParseSteps(items, time).Ok?
    ensures MaxStepDepth(ParseSteps(items, time).value) <= 1 + MaxListDepth(items)
    decreases items, 1
  {
    if |items| > 0 {
      ParseStepDepth(items[0], time);
      ParseStepsDepth(items[1..], time);
    }
  }

  lemma {:induction false} ParseStepDepth(n: Node, time: string -> MDResult<TimeQuantity>)
    requires ParseStep(n, time).Ok?
    ensures StepDepth(ParseStep(n, time).value) <= 1 + ListDepth(n)
    decreases n, 0
  {
    if |n.children| == 2 {
      ParseStepListDepth(n.children[1], time);
      assert ListDepth(n.children[1]) <= MaxListDepth(n.children) by {
        assert MaxListDepth(n.children) == (if ListDepth(n.children[0]) < MaxListDepth(n.children[1..]) then MaxListDepth(n.children[1..]) else ListDepth(n.children[0]));
        assert n.children[1..][0] == n.children[1];
      }
    }
  }
}
