/** The markdown layer the recipe grammar reads: the node kinds it
    recognises, the single error kind, the forward-only cursor over the
    top-level nodes of a document, and the structural checks that decide
    whether a node is accepted. */
module MdParser {
  import opened Wrappers
  import opened Strings

  newtype u8 = x: int | 0 <= x < 256

  /** The markdown syntax tree produced by the markdown library. A node
      kind the grammar never inspects is `Other`, with or without children. */
  datatype Node =
    | Root(children: seq<Node>)
    | Heading(depth: u8, children: seq<Node>)
    | Paragraph(children: seq<Node>)
    | Text(value: string)
    | List(children: seq<Node>)
    | ListItem(children: seq<Node>)
    | Emphasis(children: seq<Node>)
    | Strong(children: seq<Node>)
    | Yaml(value: string)
    | Other(kids: Option<seq<Node>>)

  /** `Node::children()`: the children of a node kind that can have them. */
  function Children(n: Node): Option<seq<Node>> {
    match n
    case Text(_) => None
    case Yaml(_) => None
    case Other(kids) => kids
    case _ => Some(n.children)
  }

  /** `MDError`: a message and the node whose source position it reports
      (positions themselves are not modelled). `MDError::new(msg, node)` is
      the constructor. */
  datatype MDError = MDError(msg: string, place: Option<Node>)

  type MDResult<T> = Result<T, MDError>

  const EOF: MDError := MDError("EOF", None)

  /** Decimal rendering of a count, for error messages. */
  function NatToString(n: nat): string {
    if n < 10 then ["0123456789"[n]] else NatToString(n / 10) + ["0123456789"[n % 10]]
  }

  predicate IsHeadingOf(n: Node, depth: u8) {
    n.Heading? && n.depth == depth
  }

  /** Position of the first heading of the given depth in `s`, or `|s|`. */
  function FindHeading(s: seq<Node>, depth: u8): (k: nat)
    ensures k <= |s|
    ensures forall i :: 0 <= i < k ==> !IsHeadingOf(s[i], depth)
    ensures k < |s| ==> IsHeadingOf(s[k], depth)
  {
    if |s| == 0 || IsHeadingOf(s[0], depth) then 0 else 1 + FindHeading(s[1..], depth)
  }

  /** The three properties of `FindHeading` determine it. */
  lemma FindHeadingUnique(s: seq<Node>, depth: u8, k: nat)
    requires k <= |s|
    requires forall i :: 0 <= i < k ==> !IsHeadingOf(s[i], depth)
    requires k < |s| ==> IsHeadingOf(s[k], depth)
    ensures k == FindHeading(s, depth)
  {
  }

  /** Searching a concatenation stops inside the first part when that part
      holds a heading, and otherwise continues into the second. */
  lemma {:induction false} FindHeadingAppend(a: seq<Node>, b: seq<Node>, depth: u8)
    ensures FindHeading(a, depth) < |a| ==> FindHeading(a + b, depth) == FindHeading(a, depth)
    ensures FindHeading(a, depth) == |a| ==> FindHeading(a + b, depth) == |a| + FindHeading(b, depth)
  {
    var k := FindHeading(a, depth);
    if k < |a| {
      FindHeadingUnique(a + b, depth, k);
    } else {
      var j := FindHeading(b, depth);
      assert forall i :: |a| <= i < |a| + j ==> (a + b)[i] == b[i - |a|];
      FindHeadingUnique(a + b, depth, |a| + j);
    }
  }

  /** A run of nodes without a heading of the given depth, ending at the end
      or at such a heading, is what `FindHeading` measures. */
  lemma RunToHeading(nodes: seq<Node>, from: nat, to: nat, depth: u8)
    requires from <= to <= |nodes|
    requires forall i :: from <= i < to ==> !IsHeadingOf(nodes[i], depth)
    requires to == |nodes| || IsHeadingOf(nodes[to], depth)
    ensures nodes[from..to] + nodes[to..] == nodes[from..]
    ensures to - from == FindHeading(nodes[from..], depth)
  {
    FindHeadingUnique(nodes[from..], depth, to - from);
  }

  /** `ASTConsumer`: a forward-only index into an immutable sequence of
      top-level nodes. */
  class AstConsumer {
    const nodes: seq<Node>
    var idx: nat

    ghost predicate Valid()
      reads this
    {
      idx <= |nodes|
    }

    /** `ASTConsumer::new`. */
    constructor (nodes: seq<Node>)
      ensures Valid()
      ensures this.nodes == nodes && idx == 0
    {
      this.nodes := nodes;
      idx := 0;
    }

    /** `ASTConsumer::get_remaining`: the nodes not consumed yet. */
    function GetRemaining(): (r: seq<Node>)
      reads this
      requires Valid()
      ensures r == nodes[idx..]
    {
      if idx == |nodes| then [] else nodes[idx..]
    }

    /** `ASTConsumer::next`: the node under the cursor, which then moves by
        one; at the end, the EOF error and no move. */
    method Next() returns (r: MDResult<Node>)
      requires Valid()
      modifies this`idx
      ensures Valid()
      ensures r.Err? <==> old(idx) == |nodes|
      ensures r.Err? ==> r.error == EOF && idx == old(idx)
      ensures r.Ok? ==> r.value == nodes[old(idx)] && idx == old(idx) + 1
    {
      if idx == |nodes| {
        r := Err(EOF);
      } else {
        var node := nodes[idx];
        idx := idx + 1;
        r := Ok(node);
      }
    }

    /** `ASTConsumer::consume_to_next_heading`: consumes and returns the run
        of nodes from the cursor up to, not including, the next heading of
        the given depth, or all remaining nodes when there is none. */
    method ConsumeToNextHeading(depth: u8) returns (slice: seq<Node>)
      requires Valid()
      modifies this`idx
      ensures Valid() && old(idx) <= idx
      ensures slice == nodes[old(idx)..idx]
      ensures forall i :: 0 <= i < |slice| ==> !IsHeadingOf(slice[i], depth)
      ensures idx == |nodes| || IsHeadingOf(nodes[idx], depth)
      ensures old(idx) < |nodes| && IsHeadingOf(nodes[old(idx)], depth) ==> slice == [] && idx == old(idx)
      ensures slice + GetRemaining() == old(GetRemaining())
      ensures idx - old(idx) == FindHeading(old(GetRemaining()), depth)
    {
      ghost var before := GetRemaining();
      if idx == |nodes| {
        slice := [];
      } else {
        // `self.nodes[self.idx..].iter().enumerate().find(...)`
        var j := 0;
        while idx + j < |nodes| && !IsHeadingOf(nodes[idx + j], depth)
          invariant idx + j <= |nodes|
          invariant forall i :: idx <= i < idx + j ==> !IsHeadingOf(nodes[i], depth)
        {
          j := j + 1;
        }
        var found: Option<nat> := if idx + j < |nodes| then Some(j) else None;
        match found
        case Some(off) =>
          slice := nodes[idx..idx + off];
          idx := idx + off;
        case None =>
          slice := nodes[idx..];
          idx := |nodes|;
      }
      RunToHeading(nodes, old(idx), idx, depth);
    }
  }

  /** `expect_children`: the node can have children and has exactly `num`. */
  function ExpectChildren(n: Node, num: nat): (r: MDResult<()>)
    ensures r.Ok? <==> Children(n).Some? && |Children(n).value| == num
    ensures r.Err? ==> r.error.place == Some(n)
  {
    match Children(n)
    case Some(children) =>
      if |children| != num then
        Err(MDError("expected node to have " + NatToString(num) + " children, but got "
                    + NatToString(|children|), Some(n)))
      else Ok(())
    case None => Err(MDError("node cannot have children", Some(n)))
  }

  /** `get_heading`: the node is a heading of depth `depth` whose only child
      is a text, equal to `name` when a name is given; yields that text. */
  function GetHeading(n: Node, depth: u8, name: Option<string>): (r: MDResult<string>)
    ensures r.Ok? <==> IsHeadingOf(n, depth) && |n.children| == 1 && n.children[0].Text?
                       && (name.Some? ==> n.children[0].value == name.value)
    ensures r.Ok? ==> r.value == n.children[0].value
  {
    if n.Heading? then
      if n.depth != depth then
        Err(MDError("expected heading at depth " + NatToString(depth as nat) + ", but got "
                    + NatToString(n.depth as nat), Some(n)))
      else if ExpectChildren(n, 1).Err? then
        Err(ExpectChildren(n, 1).error)
      else if n.children[0].Text? then
        var text := n.children[0].value;
        match name
        case Some(requested) =>
          if text != requested then
            Err(MDError("expected heading \"" + requested + "\", but got \"" + text + "\"",
                        Some(n.children[0])))
          else Ok(text)
        case None => Ok(text)
      else Err(MDError("expected heading to have text child", Some(n)))
    else Err(MDError("expected first node to be heading", Some(n)))
  }

  /** A one-text heading is read back by `GetHeading`, with or without the
      expected name. */
  lemma GetHeadingOfTitle(depth: u8, title: string)
    ensures GetHeading(Heading(depth, [Text(title)]), depth, None) == Ok(title)
    ensures GetHeading(Heading(depth, [Text(title)]), depth, Some(title)) == Ok(title)
  {
  }

  /** `get_text_from_paragraph`: the node is a paragraph whose only child is
      a text; yields that text. */
  function GetTextFromParagraph(n: Node): (r: MDResult<string>)
    ensures r.Ok? <==> n.Paragraph? && |n.children| == 1 && n.children[0].Text?
    ensures r.Ok? ==> r.value == n.children[0].value
  {
    if n.Paragraph? then
      if ExpectChildren(n, 1).Err? then
        Err(ExpectChildren(n, 1).error)
      else if n.children[0].Text? then
        Ok(n.children[0].value)
      else Err(MDError("expected child to to be text", Some(n.children[0])))
    else Err(MDError("expected paragraph", Some(n)))
  }
}
