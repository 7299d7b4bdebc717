/** Assembly of a recipe document: a title, an "Ingredients" section and a
    "Steps" section, read in that order from the top-level nodes with a
    forward-only cursor. */
module RecipeParser {
  import opened Wrappers
  import opened MdParser
  import opened Quantities
  import IngredientParser
  import StepParser

  /** `Recipe { name, ingredients, steps }`. */
  datatype Recipe = Recipe(name: string, ingredients: seq<IngredientParser.Ingredient>, steps: seq<StepParser.Step>)

  /** The layout a recipe is read from: the ingredient run starts at node 2
      and ends at the next depth-2 heading, which is "Steps", and the step
      run follows it up to the next depth-2 heading or the end; the recipe
      holds what the two runs parse to. */
  predicate ParsedFrom(ns: seq<Node>, recipe: Recipe, p: Parsers)
    requires |ns| > 2
  {
    var k := 2 + FindHeading(ns[2..], 2);
    k < |ns|
    && GetHeading(ns[k], 2, Some("Steps")).Ok?
    && IngredientParser.FromMdast(ns[2..k], p.quantity) == Ok(recipe.ingredients)
    && StepParser.StepsFromMdast(ns[k + 1..k + 1 + FindHeading(ns[k + 1..], 2)], p.amountAndUnit) == Ok(recipe.steps)
  }

  /** What `Recipe::from_mdast` computes: no top-level node list is the
      "empty file" error; otherwise the nodes are read as a document. */
  function ParseRecipe(root: Node, p: Parsers): (r: MDResult<Recipe>)
    ensures Children(root).None? ==> r == Err(MDError("empty file", None))
    ensures Children(root) == Some([]) ==> r == Err(EOF)
  {
    match Children(root)
    case None => Err(MDError("empty file", None))
    case Some(ns) => ParseDocument(ns, p)
  }

  /** The title at node 0 and the "Ingredients" heading at node 1; running
      out of nodes before either is the EOF error. */
  function ParseDocument(ns: seq<Node>, p: Parsers): (r: MDResult<Recipe>)
    ensures |ns| <= 1 && (|ns| == 0 || GetHeading(ns[0], 1, None).Ok?) ==> r == Err(EOF)
  {
    if |ns| == 0 then Err(EOF)
    else
      var name :- GetHeading(ns[0], 1, None);
      if |ns| == 1 then Err(EOF)
      else
        var _ :- GetHeading(ns[1], 2, Some("Ingredients"));
        ParseSections(name, ns, 2 + FindHeading(ns[2..], 2), p)
  }

  /** The ingredients are nodes 2 up to `k`, the first depth-2 heading after
      them, or the end. */
  function ParseSections(name: string, ns: seq<Node>, k: nat, p: Parsers): (r: MDResult<Recipe>)
    requires 2 <= k <= |ns|
    ensures r.Ok? ==> r.value.name == name && Ok(r.value.ingredients) == IngredientParser.FromMdast(ns[2..k], p.quantity)
    ensures IngredientParser.FromMdast(ns[2..k], p.quantity).Ok? && k == |ns| ==> r == Err(EOF)
  {
    var ingredients :- IngredientParser.FromMdast(ns[2..k], p.quantity);
    ParseSteps(name, ingredients, ns, k, p)
  }

  /** Node `k` must be the "Steps" heading, and the steps are the nodes after
      it up to the next depth-2 heading or the end. */
  function ParseSteps(name: string, ingredients: seq<IngredientParser.Ingredient>, ns: seq<Node>, k: nat, p: Parsers): (r: MDResult<Recipe>)
    requires k <= |ns|
    ensures k == |ns| ==> r == Err(EOF)
    ensures r.Ok? ==> r.value.name == name && r.value.ingredients == ingredients
  {
    if k == |ns| then Err(EOF)
    else
      var _ :- GetHeading(ns[k], 2, Some("Steps"));
      ParseStepRun(name, ingredients, ns, k + 1, p)
  }

  /** The steps are the nodes from `j` up to the next depth-2 heading or the
      end. */
  function ParseStepRun(name: string, ingredients: seq<IngredientParser.Ingredient>, ns: seq<Node>, j: nat, p: Parsers): (r: MDResult<Recipe>)
    requires j <= |ns|
    ensures r.Ok? ==> r.value.name == name && r.value.ingredients == ingredients
    ensures j + FindHeading(ns[j..], 2) == j ==> r == Ok(Recipe(name, ingredients, []))
  {
    var m := j + FindHeading(ns[j..], 2);
    var steps :- StepParser.StepsFromMdast(ns[j..m], p.amountAndUnit);
    Ok(Recipe(name, ingredients, steps))
  }

  /** The title and the "Ingredients" heading are checked: a document is
      rejected with the heading's own error when either is wrong, and is
      only accepted when both are right. */
  lemma ParseDocumentHeadings(ns: seq<Node>, p: Parsers)
    ensures |ns| > 0 && GetHeading(ns[0], 1, None).Err? ==> ParseDocument(ns, p) == Err(GetHeading(ns[0], 1, None).error)
    ensures |ns| > 1 && GetHeading(ns[0], 1, None).Ok? && GetHeading(ns[1], 2, Some("Ingredients")).Err? ==>
              ParseDocument(ns, p) == Err(GetHeading(ns[1], 2, Some("Ingredients")).error)
    ensures ParseDocument(ns, p).Ok? ==>
              |ns| > 2 && GetHeading(ns[0], 1, None) == Ok(ParseDocument(ns, p).value.name)
              && GetHeading(ns[1], 2, Some("Ingredients")).Ok?
              && ParseDocument(ns, p) == ParseSections(ParseDocument(ns, p).value.name, ns, 2 + FindHeading(ns[2..], 2), p)
  {
    if |ns| > 1 && GetHeading(ns[0], 1, None).Ok? && GetHeading(ns[1], 2, Some("Ingredients")).Ok? {
      var name := GetHeading(ns[0], 1, None).value;
      var k := 2 + FindHeading(ns[2..], 2);
      assert ParseDocument(ns, p) == ParseSections(name, ns, k, p);
      if |ns| == 2 {
        assert k == |ns|;
        assert ParseSections(name, ns, k, p).Err?;
      }
    }
  }

  /** The "Steps" heading is checked: the section is rejected with the
      heading's own error when node `k` is not that heading, and when it is
      accepted, node `k` is that heading and the steps are those of the run
      after it. */
  lemma ParseStepsHeading(name: string, ingredients: seq<IngredientParser.Ingredient>, ns: seq<Node>, k: nat, p: Parsers)
    requires k <= |ns|
    ensures k < |ns| && GetHeading(ns[k], 2, Some("Steps")).Err? ==>
              ParseSteps(name, ingredients, ns, k, p) == Err(GetHeading(ns[k], 2, Some("Steps")).error)
    ensures ParseSteps(name, ingredients, ns, k, p).Ok? ==>
              k < |ns| && GetHeading(ns[k], 2, Some("Steps")).Ok?
              && k + 1 + FindHeading(ns[k + 1..], 2) <= |ns|
              && StepParser.StepsFromMdast(ns[k + 1..k + 1 + FindHeading(ns[k + 1..], 2)], p.amountAndUnit)
                 == Ok(ParseSteps(name, ingredients, ns, k, p).value.steps)
  {
  }

  /** `Recipe::from_mdast`, from the node tree onwards: one cursor over the
      top-level nodes, moved by `next` and `consume_to_next_heading`. */
  method FromMdast(root: Node, p: Parsers) returns (r: MDResult<Recipe>)
    ensures r == ParseRecipe(root, p)
  {
    if Children(root).None? {
      return Err(MDError("empty file", None));
    }
    var children := Children(root).value;
    var cons := new AstConsumer(children);
    r := ReadDocument(cons, p);
  }

  /** The fixed sequence of cursor moves of `Recipe::from_mdast`, from a
      fresh cursor. */
  method ReadDocument(cons: AstConsumer, p: Parsers) returns (r: MDResult<Recipe>)
    requires cons.Valid() && cons.idx == 0
    modifies cons`idx
    ensures r == ParseDocument(cons.nodes, p)
  {
    ghost var ns := cons.nodes;
    var title :- cons.Next();
    var name :- GetHeading(title, 1, None);
    var ingredientsHeading :- cons.Next();
    var _ :- GetHeading(ingredientsHeading, 2, Some("Ingredients"));
    assert cons.idx == 2;
    var ingredientNodes := cons.ConsumeToNextHeading(2);
    assert ParseDocument(ns, p) == ParseSections(name, ns, cons.idx, p);
    r := ReadSections(cons, name, ingredientNodes, p);
  }

  /** The rest of `Recipe::from_mdast`, once the cursor has passed the
      ingredients. */
  method ReadSections(cons: AstConsumer, name: string, ingredientNodes: seq<Node>, p: Parsers) returns (r: MDResult<Recipe>)
    requires cons.Valid() && 2 <= cons.idx && ingredientNodes == cons.nodes[2..cons.idx]
    requires cons.idx == |cons.nodes| || IsHeadingOf(cons.nodes[cons.idx], 2)
    modifies cons`idx
    ensures r == ParseSections(name, cons.nodes, old(cons.idx), p)
  {
    var ingredients :- IngredientParser.FromMdast(ingredientNodes, p.quantity);
    r := ReadSteps(cons, name, ingredients, p);
  }

  /** The "Steps" heading and the run after it. */
  method ReadSteps(cons: AstConsumer, name: string, ingredients: seq<IngredientParser.Ingredient>, p: Parsers) returns (r: MDResult<Recipe>)
    requires cons.Valid()
    modifies cons`idx
    ensures r == ParseSteps(name, ingredients, cons.nodes, old(cons.idx), p)
  {
    var next := cons.Next();
    if next.Err? {
      return Err(next.error);
    }
    var heading := GetHeading(next.value, 2, Some("Steps"));
    if heading.Err? {
      return Err(heading.error);
    }
    r := ReadStepRun(cons, name, ingredients, p);
  }

  /** The run of step nodes after the "Steps" heading. */
  method ReadStepRun(cons: AstConsumer, name: string, ingredients: seq<IngredientParser.Ingredient>, p: Parsers) returns (r: MDResult<Recipe>)
    requires cons.Valid()
    modifies cons`idx
    ensures r == ParseStepRun(name, ingredients, cons.nodes, old(cons.idx), p)
  {
    var stepNodes := cons.ConsumeToNextHeading(2);
    var steps :- StepParser.StepsFromMdast(stepNodes, p.amountAndUnit);
    r := Ok(Recipe(name, ingredients, steps));
  }

  /** A heading holding a single text. */
  function H(depth: u8, title: string): Node {
    Heading(depth, [Text(title)])
  }

  /** The top-level nodes of a document laid out as the recipe grammar
      expects, followed by `rest`. */
  function Document(title: string, ingredientNodes: seq<Node>, stepNodes: seq<Node>, rest: seq<Node>): seq<Node> {
    [H(1, title), H(2, "Ingredients")] + (ingredientNodes + ([H(2, "Steps")] + (stepNodes + rest)))
  }

  /** A run of nodes none of which is a depth-2 heading: the recursive form
      of the quantified statement in `HeadingFreeAt`, kept recursive because
      it unfolds one node at a time in the proofs. */
  predicate HeadingFree(run: seq<Node>) {
    |run| == 0 || (!IsHeadingOf(run[0], 2) && HeadingFree(run[1..]))
  }

  /** A heading-free run holds no depth-2 heading at any position. */
  lemma {:induction false} HeadingFreeAt(run: seq<Node>)
    requires HeadingFree(run)
    ensures forall i :: 0 <= i < |run| ==> !IsHeadingOf(run[i], 2)
    decreases |run|
  {
    if |run| > 0 {
      HeadingFreeAt(run[1..]);
      assert forall i :: 1 <= i < |run| ==> run[i] == run[1..][i - 1];
    }
  }

  /** A run without depth-2 heading, followed by nothing or by a depth-2
      heading, is where the search for the next depth-2 heading ends. */
  lemma RunBeforeHeading(run: seq<Node>, tail: seq<Node>)
    requires HeadingFree(run)
    requires |tail| == 0 || IsHeadingOf(tail[0], 2)
    ensures FindHeading(run + tail, 2) == |run|
  {
    HeadingFreeAt(run);
    assert forall i :: 0 <= i < |run| ==> (run + tail)[i] == run[i];
    FindHeadingUnique(run + tail, 2, |run|);
  }

  /** A run without depth-2 heading starting at node `j` and followed by
      nothing or by a depth-2 heading is what the cursor consumes from `j`. */
  lemma RunAt(ns: seq<Node>, j: nat, run: seq<Node>, tail: seq<Node>)
    requires j <= |ns| && ns[j..] == run + tail
    requires HeadingFree(run)
    requires |tail| == 0 || IsHeadingOf(tail[0], 2)
    ensures FindHeading(ns[j..], 2) == |run| && j + |run| <= |ns| && ns[j..j + |run|] == run
  {
    RunBeforeHeading(run, tail);
    assert ns[j..j + |run|] == ns[j..][..|run|];
    assert (run + tail)[..|run|] == run;
  }

  /** The parts of a document laid out by `Document`, by position. */
  lemma DocumentParts(title: string, ingredientNodes: seq<Node>, stepNodes: seq<Node>, rest: seq<Node>)
    ensures var ns := Document(title, ingredientNodes, stepNodes, rest);
            var k := 2 + |ingredientNodes|;
            |ns| == k + 1 + |stepNodes| + |rest|
            && ns[0] == H(1, title) && ns[1] == H(2, "Ingredients")
            && ns[2..] == ingredientNodes + ([H(2, "Steps")] + (stepNodes + rest))
            && ns[k] == H(2, "Steps") && ns[k + 1..] == stepNodes + rest
  {
    var ns := Document(title, ingredientNodes, stepNodes, rest);
    var head := [H(1, title), H(2, "Ingredients")];
    var tail := [H(2, "Steps")] + (stepNodes + rest);
    var k := 2 + |ingredientNodes|;
    assert ns == head + (ingredientNodes + tail);
    assert ns[2..] == ingredientNodes + tail;
    assert ns[k..] == tail by {
      assert ns[k..] == ns[2..][k - 2..];
      assert (ingredientNodes + tail)[|ingredientNodes|..] == tail;
    }
    assert ns[k] == tail[0];
    assert ns[k + 1..] == tail[1..];
  }

  /** Where the cursor finds each part of a document laid out by
      `Document`. */
  lemma DocumentLayout(title: string, ingredientNodes: seq<Node>, stepNodes: seq<Node>, rest: seq<Node>)
    requires HeadingFree(ingredientNodes) && HeadingFree(stepNodes)
    requires |rest| == 0 || IsHeadingOf(rest[0], 2)
    ensures var ns := Document(title, ingredientNodes, stepNodes, rest);
            var k := 2 + |ingredientNodes|;
            k < |ns| && ns[0] == H(1, title) && ns[1] == H(2, "Ingredients")
            && FindHeading(ns[2..], 2) == |ingredientNodes| && ns[2..k] == ingredientNodes
            && ns[k] == H(2, "Steps")
            && k + 1 + FindHeading(ns[k + 1..], 2) <= |ns|
            && FindHeading(ns[k + 1..], 2) == |stepNodes| && ns[k + 1..k + 1 + |stepNodes|] == stepNodes
  {
    var ns := Document(title, ingredientNodes, stepNodes, rest);
    var k := 2 + |ingredientNodes|;
    DocumentParts(title, ingredientNodes, stepNodes, rest);
    RunAt(ns, 2, ingredientNodes, [H(2, "Steps")] + (stepNodes + rest));
    RunAt(ns, k + 1, stepNodes, rest);
  }

  /** The steps section read from a "Steps" heading at node `k`. */
  lemma ParseStepsAt(name: string, ingredients: seq<IngredientParser.Ingredient>, ns: seq<Node>, k: nat, stepNodes: seq<Node>, p: Parsers)
    requires k < |ns| && ns[k] == H(2, "Steps")
    requires k + 1 + FindHeading(ns[k + 1..], 2) <= |ns| && ns[k + 1..k + 1 + FindHeading(ns[k + 1..], 2)] == stepNodes
    ensures ParseSteps(name, ingredients, ns, k, p)
            == (var steps :- StepParser.StepsFromMdast(stepNodes, p.amountAndUnit); Ok(Recipe(name, ingredients, steps)))
  {
    GetHeadingOfTitle(2, "Steps");
  }

  /** A document made of a title, the "Ingredients" heading, a run of nodes
      without depth-2 heading, the "Steps" heading, another such run, and
      then anything that starts with a depth-2 heading, reads as the two runs;
      what follows the steps is never examined. */
  lemma ParseOfSections(title: string, ingredientNodes: seq<Node>, stepNodes: seq<Node>, rest: seq<Node>, p: Parsers)
    requires HeadingFree(ingredientNodes) && HeadingFree(stepNodes)
    requires |rest| == 0 || IsHeadingOf(rest[0], 2)
    ensures ParseRecipe(Root(Document(title, ingredientNodes, stepNodes, rest)), p)
            == (var ingredients :- IngredientParser.FromMdast(ingredientNodes, p.quantity);
                var steps :- StepParser.StepsFromMdast(stepNodes, p.amountAndUnit);
                Ok(Recipe(title, ingredients, steps)))
  {
    var ns := Document(title, ingredientNodes, stepNodes, rest);
    var k := 2 + |ingredientNodes|;
    DocumentLayout(title, ingredientNodes, stepNodes, rest);
    GetHeadingOfTitle(1, title);
    GetHeadingOfTitle(2, "Ingredients");
    assert GetHeading(ns[0], 1, None) == Ok(title);
    assert GetHeading(ns[1], 2, Some("Ingredients")).Ok?;
    assert ParseRecipe(Root(ns), p) == ParseDocument(ns, p);
    assert ParseDocument(ns, p) == ParseSections(title, ns, k, p);
    assert ns[2..k] == ingredientNodes;
    match IngredientParser.FromMdast(ingredientNodes, p.quantity)
    case Err(_) =>
    case Ok(ingredients) =>
      assert ParseSections(title, ns, k, p) == ParseSteps(title, ingredients, ns, k, p);
      ParseStepsAt(title, ingredients, ns, k, stepNodes, p);
  }

  /** Conversely, a recipe is only ever read from a document of that layout,
      and holds what its runs parse to. */
  lemma ParsedLayout(root: Node, p: Parsers)
    requires ParseRecipe(root, p).Ok?
    ensures Children(root).Some? && |Children(root).value| > 2
    ensures ParsedFrom(Children(root).value, ParseRecipe(root, p).value, p)
  {
    var ns := Children(root).value;
    var r := ParseRecipe(root, p);
    assert r == ParseDocument(ns, p);
    ParseDocumentHeadings(ns, p);
    var name := GetHeading(ns[0], 1, None).value;
    var k := 2 + FindHeading(ns[2..], 2);
    assert r == ParseSections(name, ns, k, p);
    var ingredients := IngredientParser.FromMdast(ns[2..k], p.quantity).value;
    assert r == ParseSteps(name, ingredients, ns, k, p);
    ParseStepsHeading(name, ingredients, ns, k, p);
  }

  /** A document whose "Steps" heading is its last node reads as the
      ingredients of its list and no steps; with the three comma-separated
      items "Lemons, 1", "Milk, 50 mL" and "Paprika powder, 1 tbsp, optional,
      [spicy]" it is accepted whatever the quantity parser says. */
  lemma EmptyStepsSection(title: string, texts: seq<string>, p: Parsers)
    requires forall i :: 0 <= i < |texts| ==> ',' in texts[i]
    ensures var items := seq(|texts|, i requires 0 <= i < |texts| => ListItem([Paragraph([Text(texts[i])])]));
            var r := ParseRecipe(Root(Document(title, [List(items)], [], [])), p);
            r.Ok? && r.value.name == title && |r.value.ingredients| == |texts| && r.value.steps == []
  {
    var items := seq(|texts|, i requires 0 <= i < |texts| => ListItem([Paragraph([Text(texts[i])])]));
    IngredientParser.FromMdastCommaItems(texts, p.quantity);
    ParseOfSections(title, [List(items)], [], [], p);
    var ingredients := IngredientParser.FromMdast([List(items)], p.quantity);
    assert StepParser.StepsFromMdast([], p.amountAndUnit) == Ok([]);
    assert ParseRecipe(Root(Document(title, [List(items)], [], [])), p) == Ok(Recipe(title, ingredients.value, []));
  }

  lemma TestRecipeDocument(p: Parsers)
    ensures var texts := ["Lemons, 1", "Milk, 50 mL", "Paprika powder, 1 tbsp, optional, [spicy]"];
            var items := seq(|texts|, i requires 0 <= i < |texts| => ListItem([Paragraph([Text(texts[i])])]));
            var r := ParseRecipe(Root(Document("Test recipe", [List(items)], [], [])), p);
            r.Ok? && r.value.name == "Test recipe" && |r.value.ingredients| == 3 && r.value.steps == []
  {
    var texts := ["Lemons, 1", "Milk, 50 mL", "Paprika powder, 1 tbsp, optional, [spicy]"];
    assert texts[0][6] == ',' && texts[1][4] == ',' && texts[2][14] == ',';
    EmptyStepsSection("Test recipe", texts, p);
  }
}
