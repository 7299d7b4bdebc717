/** The newer ingredient grammar: either one flat list, or a sequence of
    groups, each a depth-3 heading naming the group followed by its list. The
    item grammar is the one of `IngredientParser`. */
module IngredientsParser {
  import opened Wrappers
  import opened MdParser
  import opened Quantities
  import opened IngredientParser

  /** `IngredientGroup { name, ingredients }`. */
  datatype IngredientGroup = IngredientGroup(name: string, ingredients: seq<Ingredient>)

  /** `Ingredients`: a flat list, or named groups. */
  datatype Ingredients =
    | IngredientList(items: seq<Ingredient>)
    | IngredientGroups(groups: seq<IngredientGroup>)

  /** `Ingredients::parse_ingredient_list`: a list node whose every item is
      an ingredient item, read one-to-one and in order. */
  function ParseIngredientList(node: Node, parseQuantity: string -> MDResult<Quantity>): (r: MDResult<seq<Ingredient>>)
    ensures !node.List? ==> r == Err(MDError("ingredients must be list", Some(node)))
    ensures node.List? ==>
              (r.Ok? <==> forall i :: 0 <= i < |node.children| ==> ParseListItem(node.children[i], parseQuantity).Ok?)
    ensures r.Ok? ==>
              |r.value| == |node.children|
              && forall i :: 0 <= i < |r.value| ==> Ok(r.value[i]) == ParseListItem(node.children[i], parseQuantity)
  {
    match node
    case List(children) => MapAll(children, n => ParseListItem(n, parseQuantity))
    case _ => Err(MDError("ingredients must be list", Some(node)))
  }

  /** `IngredientGroup::parse`: a depth-3 heading with a single text, which
      names the group, and an ingredient list. */
  function ParseGroup(heading: Node, list: Node, parseQuantity: string -> MDResult<Quantity>): (r: MDResult<IngredientGroup>)
    ensures r.Ok? <==> GetHeading(heading, 3, None).Ok? && ParseIngredientList(list, parseQuantity).Ok?
    ensures r.Ok? ==> IsHeadingOf(heading, 3) && r.value.name == heading.children[0].value
    ensures r.Ok? ==> Ok(r.value.ingredients) == ParseIngredientList(list, parseQuantity)
  {
    var name :- GetHeading(heading, 3, None);
    var ingredients :- ParseIngredientList(list, parseQuantity);
    Ok(IngredientGroup(name, ingredients))
  }

  /** One element of `chunks(2)`: a first node and, unless it is the last
      node of an odd-length sequence, a second one. */
  datatype Chunk = Chunk(first: Node, second: Option<Node>)

  /** `<[T]>::chunks(2)`: consecutive pairs, the last one a single node when
      the length is odd. */
  function Chunks(s: seq<Node>): (r: seq<Chunk>)
    ensures |r| == (|s| + 1) / 2
    decreases |s|
  {
    if |s| == 0 then []
    else if |s| == 1 then [Chunk(s[0], None)]
    else [Chunk(s[0], Some(s[1]))] + Chunks(s[2..])
  }

  /** Chunk `i` holds node `2 * i` and, when there is one, node `2 * i + 1`. */
  lemma {:induction false} ChunksShape(s: seq<Node>)
    ensures forall i :: 0 <= i < |Chunks(s)| ==> 2 * i < |s| && Chunks(s)[i].first == s[2 * i]
    ensures forall i :: 0 <= i < |Chunks(s)| ==> (Chunks(s)[i].second.Some? <==> 2 * i + 1 < |s|)
    ensures forall i :: 0 <= i < |Chunks(s)| && 2 * i + 1 < |s| ==> Chunks(s)[i].second == Some(s[2 * i + 1])
    decreases |s|
  {
    if |s| >= 2 {
      ChunksShape(s[2..]);
      var r := Chunks(s);
      var rest := Chunks(s[2..]);
      forall i | 1 <= i < |r|
        ensures 2 * i < |s| && r[i].first == s[2 * i]
        ensures r[i].second.Some? <==> 2 * i + 1 < |s|
        ensures 2 * i + 1 < |s| ==> r[i].second == Some(s[2 * i + 1])
      {
        var j := i - 1;
        assert r[i] == rest[j];
        assert 2 * i == 2 * j + 2;
      }
    }
  }

  function Flatten(chunks: seq<Chunk>): seq<Node> {
    if |chunks| == 0 then []
    else
      [chunks[0].first] + (match chunks[0].second case Some(n) => [n] case None => [])
      + Flatten(chunks[1..])
  }

  /** Chunking loses and reorders nothing. */
  lemma {:induction false} ChunksFlatten(s: seq<Node>)
    ensures Flatten(Chunks(s)) == s
    decreases |s|
  {
    if |s| >= 2 {
      ChunksFlatten(s[2..]);
      assert s == [s[0], s[1]] + s[2..];
    }
  }

  /** The per-chunk step of `Ingredients::parse`: a lone trailing node is a
      malformed group. */
  function ParseChunk(chunk: Chunk, parseQuantity: string -> MDResult<Quantity>): (r: MDResult<IngredientGroup>)
    ensures chunk.second.None? ==> r == Err(MDError("malformed ingredient group", Some(chunk.first)))
    ensures r.Ok? <==> chunk.second.Some? && GetHeading(chunk.first, 3, None).Ok?
                       && ParseIngredientList(chunk.second.value, parseQuantity).Ok?
    ensures r.Ok? ==> r.value.name == chunk.first.children[0].value
                      && Ok(r.value.ingredients) == ParseIngredientList(chunk.second.value, parseQuantity)
  {
    match chunk.second
    case None => Err(MDError("malformed ingredient group", Some(chunk.first)))
    case Some(list) => ParseGroup(chunk.first, list, parseQuantity)
  }

  function ChunkParser(parseQuantity: string -> MDResult<Quantity>): Chunk -> MDResult<IngredientGroup> {
    c => ParseChunk(c, parseQuantity)
  }

  /** Every (heading, list) pair of `nodes` forms a group that parses. */
  predicate PairsParse(nodes: seq<Node>, parseQuantity: string -> MDResult<Quantity>) {
    forall i :: 0 <= i < |nodes| / 2 ==> ParseGroup(nodes[2 * i], nodes[2 * i + 1], parseQuantity).Ok?
  }

  /** Chunk `i` of a sequence is parsed as the group of nodes `2 * i` and
      `2 * i + 1`, and a lone last chunk is the malformed-group error. */
  lemma ChunkParses(nodes: seq<Node>, parseQuantity: string -> MDResult<Quantity>)
    ensures forall i :: 0 <= i < |nodes| / 2 ==>
              ChunkParser(parseQuantity)(Chunks(nodes)[i]) == ParseGroup(nodes[2 * i], nodes[2 * i + 1], parseQuantity)
    ensures |nodes| % 2 == 1 ==>
              ChunkParser(parseQuantity)(Chunks(nodes)[|nodes| / 2])
              == Err(MDError("malformed ingredient group", Some(nodes[|nodes| - 1])))
  {
    ChunksShape(nodes);
  }

  /** What parsing the chunks of `nodes` gives: the groups of the pairs, in
      order, exactly when the length is even and every pair parses. */
  lemma ParseChunks(nodes: seq<Node>, parseQuantity: string -> MDResult<Quantity>)
    ensures var m := MapAll(Chunks(nodes), ChunkParser(parseQuantity));
            (m.Ok? <==> |nodes| % 2 == 0 && PairsParse(nodes, parseQuantity))
            && (m.Ok? ==> |m.value| == |nodes| / 2
                          && forall i :: 0 <= i < |nodes| / 2 ==> Ok(m.value[i]) == ParseGroup(nodes[2 * i], nodes[2 * i + 1], parseQuantity))
  {
    ChunkParses(nodes, parseQuantity);
    var chunks := Chunks(nodes);
    var f := ChunkParser(parseQuantity);
    var m := MapAll(chunks, f);
    if |nodes| % 2 == 1 {
      assert f(chunks[|nodes| / 2]).Err?;
    } else {
      assert |chunks| == |nodes| / 2;
      if PairsParse(nodes, parseQuantity) {
        assert forall i :: 0 <= i < |chunks| ==> f(chunks[i]).Ok?;
      }
      if m.Ok? {
        forall i | 0 <= i < |nodes| / 2
          ensures ParseGroup(nodes[2 * i], nodes[2 * i + 1], parseQuantity).Ok?
        {
          assert f(chunks[i]).Ok?;
        }
      }
    }
  }

  /** `Ingredients::parse`: no node gives an empty flat list, one node a flat
      list, and two or more nodes are read as (heading, list) pairs; the
      groups follow the order of the pairs. */
  function Parse(nodes: seq<Node>, parseQuantity: string -> MDResult<Quantity>): (r: MDResult<Ingredients>)
    ensures |nodes| == 0 ==> r == Ok(IngredientList([]))
    ensures |nodes| == 1 ==> (r.Ok? <==> ParseIngredientList(nodes[0], parseQuantity).Ok?)
    ensures |nodes| == 1 && r.Ok? ==> r.value == IngredientList(ParseIngredientList(nodes[0], parseQuantity).value)
    ensures |nodes| >= 2 ==> (r.Ok? <==> (|nodes| % 2 == 0 && PairsParse(nodes, parseQuantity)))
    ensures |nodes| >= 2 && r.Ok? ==>
              r.value.IngredientGroups? && |r.value.groups| == |nodes| / 2
              && forall i :: 0 <= i < |nodes| / 2 ==> Ok(r.value.groups[i]) == ParseGroup(nodes[2 * i], nodes[2 * i + 1], parseQuantity)
  {
    if |nodes| == 0 then Ok(IngredientList([]))
    else if |nodes| == 1 then
      var items :- ParseIngredientList(nodes[0], parseQuantity);
      Ok(IngredientList(items))
    else
      ParseChunks(nodes, parseQuantity);
      var groups :- MapAll(Chunks(nodes), ChunkParser(parseQuantity));
      Ok(IngredientGroups(groups))
  }

  /** A trailing heading without its list makes the whole parse fail, with
      the malformed-group error when every complete pair before it parses. */
  lemma OddGroupsFail(nodes: seq<Node>, parseQuantity: string -> MDResult<Quantity>)
    requires |nodes| >= 2 && |nodes| % 2 == 1
    ensures Parse(nodes, parseQuantity).Err?
    ensures PairsParse(nodes, parseQuantity) ==>
              Parse(nodes, parseQuantity).error == MDError("malformed ingredient group", Some(nodes[|nodes| - 1]))
  {
    var chunks := Chunks(nodes);
    var f := ChunkParser(parseQuantity);
    ChunkParses(nodes, parseQuantity);
    var last := |nodes| / 2;
    assert |chunks| == last + 1;
    var e := MDError("malformed ingredient group", Some(nodes[|nodes| - 1]));
    assert f(chunks[last]) == Err(e);
    var m := MapAll(chunks, f);
    assert !m.Ok?;
    assert Parse(nodes, parseQuantity) == Err(m.error);
    if PairsParse(nodes, parseQuantity) {
      var k := FirstFailure(chunks, f);
      forall i | 0 <= i < last
        ensures f(chunks[i]).Ok?
      {
        assert f(chunks[i]) == ParseGroup(nodes[2 * i], nodes[2 * i + 1], parseQuantity);
      }
      assert k == last;
    }
  }
}
