# down-to-cook recipe grammar, in Dafny

This project models the layer of down-to-cook that turns a markdown node tree
into a typed recipe:

- the unit table: `Unit::decode`, `is_time` and `sanitize`;
- the forward-only `ASTConsumer` cursor over the top-level nodes;
- the structural checks `expect_children`, `get_heading` and
  `get_text_from_paragraph`;
- both ingredient grammars:
  - the flat list of `ingredient.rs`, which `recipe.rs` uses;
  - the grouped grammar of `ingredients.rs`, with depth-3 headings;
- both step grammars:
  - `step.rs`, which `recipe.rs` uses;
  - `instructions.rs`;
- the front-matter metadata of `metadata.rs`;
- the document driver `Recipe::from_mdast`.

Modules follow the source files:

| module | models |
|---|---|
| `Units` | `unit.rs` |
| `MdParser` | `md_parser.rs`: nodes, errors, the cursor class, structural checks |
| `IngredientParser` | `ingredient.rs`, and the item grammar `ingredients.rs` repeats |
| `IngredientsParser` | `ingredients.rs` |
| `StepParser` | `step.rs` |
| `InstructionsParser` | `instructions.rs` |
| `MetadataParser` | `metadata.rs`, with the `Metadata` class |
| `RecipeParser` | `recipe.rs` |
| `Wrappers` | `Option`, `Result`, and `collect::<Result<Vec<_>, _>>()` as `MapAll` |
| `Strings` | the `str` operations the grammar uses |
| `Quantities` | the quantity types the grammar refers to, and the record of quantity parsers |

Parsing functions are pure functions over nodes. Code that updates state in
place is imperative Dafny:

- `ASTConsumer` is a class whose `idx` field its methods advance. Each method
  states the new index and what it returns.
- `Metadata` is a class whose four fields `parse_tags`, `parse_quantity`,
  `parse_size` and `parse_others` update. `ParseTags` has the push loop, and
  `Parse` has the loop over the mapping entries.
- `Recipe::from_mdast` is a method that drives one cursor.

Each of these methods is proved equal to a specification function
(`TagsEntry`, `ApplyEntries`, `ParseRecipe`, …), and the properties are
proved about those functions.

The quantity parsers are passed in a `Parsers` record as total functions from
text to a result. These are `Quantity::from_str`, `QuantityOf::<Distance>`,
`QuantityOf::<Time>` and `parse_quantity`. Their definitions are not part of
this model. Every property holds for every choice of these parsers.

Where the recipe grammar the crate intends and its code differ, the model
follows the code:

- `decode` has no "hours", "c" or "f" spellings and no Nominal family
  (`DecodeAliases`).
- The document driver reads an "Ingredients" section and then a "Steps"
  section, with no front matter.
- It ignores everything from the depth-2 heading after the steps onwards
  (`ParseOfSections`).
- It reports "empty file" only for a root without child list. An empty child
  list fails with EOF (`ParseRecipe`).
- The ingredient grammar is the comma split. It accepts an empty name
  (`FromStrEmptyName`), and it reads a repeated quantity as an attribute
  (`FromStrOfJoin`).
- A strong node whose reading carries no unit makes `step.rs` panic. Here it
  is an error value.
- The step tree of `instructions.rs` is proved no deeper than the list
  nesting; equality is not claimed.

`recipe.rs` calls `consume_next` on the cursor, and `md_parser.rs` names that
method `next`. The model uses `Next`.

## Model

| member | source | states |
|---|---|---|
| Units.DecodeIn | src/recipe/unit.rs:35-54 | a hit names a unit of the requested family under one of its listed spellings; a miss means no unit of that family has that spelling |
| Units.Decode | src/recipe/unit.rs:33-56 | total; a known unit is returned only when the lower-cased token is one of its spellings; `Custom` keeps the original, un-lowered text and is returned only when no known unit has the lower-cased token as spelling |
| Units.DecodeCaseInsensitive | src/recipe/unit.rs:34 | tokens equal after lower-casing both decode to the same known unit, or both to `Custom`, each keeping its own spelling |
| Units.DecodeLowered | src/recipe/unit.rs:34 | lower-casing a token before decoding does not change the known unit it names |
| Units.SpellingsDisjoint | src/recipe/unit.rs:35-54 | no spelling in the table names two units, so the order of the match arms is immaterial |
| Units.LowerOfSpelling | src/recipe/unit.rs:35-54 | every spelling in the table is already lower case, so every arm is reachable |
| Units.DecodeSpelling | src/recipe/unit.rs:35-54 | every listed spelling decodes to its unit, including both FluidOunce spellings, the five Second and four Minute spellings, and "h"/"hour" for Hour |
| Units.DecodeKnown | src/recipe/unit.rs:33-56 | a token decodes to a given known unit exactly when its lower-cased form is one of that unit's spellings |
| Units.DecodeAliases | src/recipe/unit.rs:44-54 | "fl oz", "fl. oz." and "FL OZ" decode to FluidOunce; "hours" is a custom unit |
| Units.IsTime | src/recipe/unit.rs:59-64 | `is_time` holds exactly for the units of the time family: Second, Minute, Hour |
| Units.DecodeIsTime | src/recipe/unit.rs:52-64 | a token decodes to a time unit exactly when its lower-cased form is one of the eleven time spellings |
| Units.Sanitize | src/recipe/unit.rs:66-82 | the result unit is a base unit of the same family; base units, custom and time units come back unchanged with their amount |
| Units.SanitizeConversions | src/recipe/unit.rs:69-78 | the conversion table: Ounce and Pound to Gram by 28 and 450; Teaspoon, Tablespoon, Cup and FluidOunce to Milliliter by 5, 15, 240 and 29; Gallon to Liter by 3.785; Inches to Centimeter by 2.5; Farenheit to Celsius by (q - 32) * 5 / 9 |
| Units.SanitizeIdempotent | src/recipe/unit.rs:66-82 | sanitizing twice is sanitizing once |
| Units.SanitizeLinear | src/recipe/unit.rs:69-78 | every conversion except Farenheit is a fixed factor: additive in the amount, sign-preserving, target unit independent of the amount |
| Units.SanitizeFarenheit | src/recipe/unit.rs:77 | 32 °F is 0 °C, 212 °F is 100 °C, and the conversion is strictly increasing |
| Strings.Lower | src/recipe/unit.rs:34 | lower-casing keeps the length and maps each character on its own |
| Strings.LowerIdempotent | src/recipe/unit.rs:34 | lower-casing twice is lower-casing once |
| Strings.TrimStart | src/recipe/ingredient.rs:53 | the result is a suffix of the input that does not start with white space |
| Strings.TrimEnd | src/recipe/ingredient.rs:53 | the result is a prefix of the input that does not end with white space |
| Strings.Trim | src/recipe/ingredient.rs:53 | the result is no longer than the input and has no white space at either end |
| Strings.TrimIsInfix | src/recipe/ingredient.rs:53 | every character of the trimmed text occurs in the input |
| Strings.TrimStartOfTrimmed | src/recipe/metadata.rs:158 | a text not starting with white space is left alone by `trim_start` |
| Strings.TrimEndOfTrimmed | src/recipe/metadata.rs:158 | a text not ending with white space is left alone by `trim_end` |
| Strings.TrimOfTrimmed | src/recipe/metadata.rs:158 | trimming an already trimmed text changes nothing |
| Strings.TrimStartPadded | src/recipe/metadata.rs:158 | leading white space does not change `trim_start` |
| Strings.TrimEndPadded | src/recipe/metadata.rs:158 | trailing white space does not change `trim_end` |
| Strings.TrimStartOfWhitespace | src/recipe/metadata.rs:158 | an all-white-space text trims to nothing |
| Strings.TrimPaddedEnd | src/recipe/metadata.rs:158 | trailing white space does not change `trim` |
| Strings.TrimPadded | src/recipe/metadata.rs:158 | white space on both sides does not change `trim` |
| Strings.IndexOf | src/recipe/ingredient.rs:53 | the position of the first occurrence of the character, or none exactly when it does not occur |
| Strings.Split | src/recipe/ingredient.rs:53 | at least one piece; exactly one when the separator does not occur; no piece holds the separator; joining the pieces with the separator gives the input back |
| Strings.SplitHead | src/recipe/ingredient.rs:53 | the first piece is the text before the first separator, or all of it |
| Strings.SplitJoin | src/recipe/ingredient.rs:53 | splitting the join of separator-free pieces gives the pieces back |
| Wrappers.ToOption | src/recipe/ingredient.rs:63 | a quantity that fails to parse becomes `None`, one that parses becomes `Some` of it |
| Wrappers.FirstFailure | src/recipe/ingredient.rs:18-32 | the index of the first element the per-element parser rejects, or the length |
| Wrappers.MapAll | src/recipe/ingredient.rs:18-32 | collecting succeeds exactly when every element parses, with one result per element in order; otherwise it is the error of the first failing element |
| MdParser.FindHeading | src/recipe/md_parser.rs:81-87 | the position of the first heading of the given depth, or the length; no such heading before it |
| MdParser.FindHeadingUnique | src/recipe/md_parser.rs:81-87 | any position with those properties is the one `FindHeading` finds |
| MdParser.FindHeadingAppend | src/recipe/md_parser.rs:81-87 | the search in a concatenation stops in the first part if it can, and continues into the second otherwise |
| MdParser.RunToHeading | src/recipe/md_parser.rs:88-94 | a heading-free run ending at the end or at a heading of the depth is exactly what the search measures |
| MdParser.AstConsumer.constructor | src/recipe/md_parser.rs:64-66 | a new cursor is at index 0 over the given nodes |
| MdParser.AstConsumer.GetRemaining | src/recipe/md_parser.rs:98-104 | the nodes from the cursor to the end, empty at the end |
| MdParser.AstConsumer.Next | src/recipe/md_parser.rs:68-76 | fails with EOF and does not move exactly at the end; otherwise returns the node under the cursor and moves by exactly one; the cursor stays in bounds |
| MdParser.AstConsumer.ConsumeToNextHeading | src/recipe/md_parser.rs:78-96 | returns exactly the nodes passed over and never moves back; the slice holds no heading of the depth; afterwards the cursor is at the end or on such a heading; on such a heading already it returns nothing and stays; the slice followed by the new remainder is the old remainder |
| MdParser.ExpectChildren | src/recipe/md_parser.rs:107-125 | succeeds exactly when the node can have children and has the given number of them; an error names the node |
| MdParser.GetHeading | src/recipe/md_parser.rs:127-169 | succeeds exactly when the node is a heading of the depth with a single text child that matches the requested name, if any, and returns that text |
| MdParser.GetHeadingOfTitle | src/recipe/md_parser.rs:127-169 | a one-text heading of the right depth is accepted, with or without its own title as the requested name |
| MdParser.GetTextFromParagraph | src/recipe/md_parser.rs:171-186 | succeeds exactly when the node is a paragraph with a single text child, and returns that text |
| IngredientParser.TrimAll | src/recipe/ingredient.rs:53 | one trimmed piece per piece, in order |
| IngredientParser.FromStr | src/recipe/ingredient.rs:52-66 | fails exactly when there is no comma; the name is the trimmed text before the first comma; the quantity is present exactly when the trimmed second segment parses; the attributes are the remaining pieces, each trimmed and comma-free; `ingredients.rs` repeats this function unchanged |
| IngredientParser.TrimmedPieces | src/recipe/ingredient.rs:53 | trimmed comma-free pieces are trimmed and comma-free |
| IngredientParser.SplitSecond | src/recipe/ingredient.rs:53-63 | the first two pieces are the name text and the quantity segment |
| IngredientParser.FromStrOfJoin | src/recipe/ingredient.rs:52-66 | joining pieces with commas and parsing gives back the trimmed name, the parsed quantity and the trimmed remaining pieces as attributes |
| IngredientParser.FromStrEmptyName | src/recipe/ingredient.rs:52-66 | a text starting with a comma is accepted with an empty name |
| IngredientParser.ParseListItem | src/recipe/ingredient.rs:22-30 | an item is accepted exactly when it is a list item with one single-text paragraph holding a comma, and then reads as that text; `Ingredient::parse` of `ingredients.rs` is the same check |
| IngredientParser.FromMdast | src/recipe/ingredient.rs:12-41 | no node is the empty list; several nodes or a non-list fail; a list is accepted exactly when every item is, with one ingredient per item in order |
| IngredientParser.FromMdastCommaItems | src/recipe/ingredient.rs:117-126 | a list of one-paragraph items that each hold a comma is always accepted, one ingredient per item, whatever the quantity parser says |
| IngredientsParser.ParseIngredientList | src/recipe/ingredients.rs:39-48 | a non-list fails; a list is accepted exactly when every child is an ingredient item, mapped one-to-one in order |
| IngredientsParser.ParseGroup | src/recipe/ingredients.rs:57-62 | accepted exactly when the heading is a one-text depth-3 heading and the list parses; the name is the heading text and the ingredients are those of the list |
| IngredientsParser.Chunks | src/recipe/ingredients.rs:24-25 | one chunk per pair of nodes, rounding up |
| IngredientsParser.ChunksShape | src/recipe/ingredients.rs:24-25 | chunk i holds node 2i and, exactly when it exists, node 2i+1, so the last chunk is single exactly when the length is odd |
| IngredientsParser.ChunksFlatten | src/recipe/ingredients.rs:24-25 | chunking loses and reorders no node |
| IngredientsParser.ParseChunk | src/recipe/ingredients.rs:26-32 | a chunk without second node is the "malformed ingredient group" error on its node; a chunk is accepted exactly when it has a second node, the first is a one-text depth-3 heading and the second parses as an ingredient list; the group is named by the heading text and holds that list's ingredients |
| IngredientsParser.ChunkParses | src/recipe/ingredients.rs:26-32 | chunk i is the group of nodes 2i and 2i+1; a lone last chunk is the "malformed ingredient group" error |
| IngredientsParser.ParseChunks | src/recipe/ingredients.rs:23-33 | the chunks parse exactly when the length is even and every pair forms a group, giving one group per pair in order |
| IngredientsParser.Parse | src/recipe/ingredients.rs:13-37 | no node is an empty flat list; one node is the flat list of that node; two or more are accepted exactly when they form (heading, list) pairs that all parse, giving half as many groups in node order |
| IngredientsParser.OddGroupsFail | src/recipe/ingredients.rs:27-28 | an odd number of nodes always fails, with "malformed ingredient group" on the trailing node when the complete pairs parse |
| StepParser.TextElemFromNode | src/recipe/step.rs:44-82 | text, emphasis with at most one text child, and strong text with a time-unit reading are accepted; what each becomes; a timer's unit is always a time unit; other node kinds are "unsupported element in step" |
| StepParser.StepsFromMdast | src/recipe/step.rs:13-33 | no node is no steps; several nodes or a non-list fail; an accepted list gives one step per child |
| StepParser.StepOfItem | src/recipe/step.rs:21-26 | a child that is not a list item is "expected list item" on that child; an accepted child is a list item and gives the step of its children |
| StepParser.StepItems | src/recipe/step.rs:18-27 | an accepted run of items gives one step per item |
| StepParser.FromListItem | src/recipe/step.rs:92-106 | an empty item is the empty step; a first child that is not a paragraph is "expected paragraph" on that child; more than two children fail; an accepted non-empty item has the description of its first child's inline nodes and the steps of the rest as sub-steps |
| StepParser.ParseDescription | src/recipe/step.rs:108-113 | accepted exactly when every inline node is, with one element per node in order |
| StepParser.StepItemsCollect | src/recipe/step.rs:18-27 | the item-by-item recursion is the collection of the per-item results |
| StepParser.StepsOfList | src/recipe/step.rs:16-28 | a list is accepted exactly when every child is a list item that forms a step, one step per child in order |
| StepParser.FromListItemParts | src/recipe/step.rs:92-106 | a non-empty item is accepted exactly when its first child is a paragraph whose description parses and the rest is an accepted step run; the description holds, in order, the element of each inline node; one child gives no sub-steps; two children mean the second is a list, and the sub-steps are, in order, the step of each of its items |
| InstructionsParser.TextElemFromNode | src/recipe/instructions.rs:89-122 | text, emphasis with at most one text child, and strong text that reads as a time quantity are accepted; empty strong is an empty ingredient reference; other node kinds are "unsupported element in step" |
| InstructionsParser.ParseDescription | src/recipe/instructions.rs:58-67 | a non-paragraph fails; a paragraph is accepted exactly when every child is, with one element per child in order |
| InstructionsParser.ParseStep | src/recipe/instructions.rs:33-56 | a non-list-item fails; zero children give the empty step; more than two fail; one or two children are accepted exactly when the first reads as a description and any second as a step list; the description is that of the first child, and the sub-steps are none for one child and the second child's step list for two |
| InstructionsParser.ParseStepList | src/recipe/instructions.rs:69-78 | a non-list fails; an accepted list gives one step per child |
| InstructionsParser.ParseSteps | src/recipe/instructions.rs:71-75 | an accepted run gives one step per node |
| InstructionsParser.FromMdast | src/recipe/instructions.rs:15-23 | no node is no steps, one node is its step list, several nodes fail |
| InstructionsParser.ParseStepsCollect | src/recipe/instructions.rs:69-78 | the child-by-child recursion is the collection of the per-child results |
| InstructionsParser.StepListOneToOne | src/recipe/instructions.rs:69-78 | a list is accepted exactly when every child is an accepted step, mapped one-to-one in order |
| InstructionsParser.ParseStepListDepth | src/recipe/instructions.rs:69-78 | the steps of a list are no deeper than its list nesting |
| InstructionsParser.ParseStepsDepth | src/recipe/instructions.rs:71-75 | the steps of a run are at most one deeper than the list nesting of its nodes |
| InstructionsParser.ParseStepDepth | src/recipe/instructions.rs:45-48 | a step is at most one deeper than the list nesting of its item |
| MetadataParser.GetTag | src/recipe/metadata.rs:59-77 | accepted exactly when the tag is '#' followed only by alphanumerics, '/', '-' and '_'; the result with '#' put back is the tag |
| MetadataParser.GetTagOfHash | src/recipe/metadata.rs:59-77 | '#' before a run of tag characters reads back as the run |
| MetadataParser.GetTagExamples | src/recipe/metadata.rs:215-223 | a missing '#', a doubled '#' and a '.' are rejected, both on the bare tags and on the literal YAML lines of the test, which have no leading '#'; "#t/a/g" and "#t-a_g" are accepted |
| MetadataParser.ScanTags | src/recipe/metadata.rs:84-89 | the tags pushed are those of the leading valid elements, in order and without de-duplication; the scan fails at the first invalid element, with its error, and succeeds exactly when every element is valid |
| MetadataParser.ScanTagsStops | src/recipe/metadata.rs:84-89 | after the first failure no further element is looked at |
| MetadataParser.ScanValidTags | src/recipe/metadata.rs:196-213 | valid tags are all kept, in order, without their '#' |
| MetadataParser.SizeInfoFromStr | src/recipe/metadata.rs:157-168 | accepted exactly when the trimmed text, minus one trailing '°', reads as a distance; radial exactly when the trimmed text ends in '°'; errors carry no position |
| MetadataParser.SizeInfoPadded | src/recipe/metadata.rs:158 | white space around a size does not change how it is read |
| MetadataParser.SizeInfoOfTrimmed | src/recipe/metadata.rs:158-162 | a trimmed text ending in '°' is a radial distance of the text before it; otherwise a plain distance of the text |
| MetadataParser.SizeInfoRadialExample | src/recipe/metadata.rs:246-249 | "10cm°" is a radial distance of "10cm" |
| MetadataParser.SizeInfoRadial | src/recipe/metadata.rs:251-254 | white space before the text and after the '°' is ignored; white space between the text and the '°' reaches the distance parser |
| MetadataParser.TagsEntry | src/recipe/metadata.rs:79-91 | a non-sequence fails and adds nothing; a sequence appends the tags of the scan, even when the scan then fails |
| MetadataParser.QuantityEntry | src/recipe/metadata.rs:93-100 | accepted exactly when the value is a string that parses, which then replaces the quantity; otherwise the quantity is unchanged |
| MetadataParser.SizeEntry | src/recipe/metadata.rs:102-116 | accepted exactly when the name is non-empty and the value is a string that reads as a size, which is then stored under the name; otherwise nothing changes |
| MetadataParser.OthersEntry | src/recipe/metadata.rs:118-134 | a non-string changes nothing and fails; a string is stored under the key, and the call fails exactly when the key was already present, after the new value has replaced the old |
| MetadataParser.SizeLastWins | src/recipe/metadata.rs:114 | a second size of the same name replaces the first |
| MetadataParser.ApplyEntry | src/recipe/metadata.rs:40-53 | a non-string key is "expected string key"; "tags" is accepted exactly when the value is a sequence whose scan succeeds, and appends its tags; "quantity" exactly when the value is a string that parses, and replaces the quantity; other keys with the size prefix exactly when the name after the prefix is non-empty and the value is a string that reads as a size, stored under that name; all other keys exactly when the value is a string and the key is new, stored under the key; each updates only its own field, and no accepted entry drops a tag, size or other key |
| MetadataParser.ApplyEntries | src/recipe/metadata.rs:39-54 | when all entries are accepted, every key is a string, no earlier tag, size or other key is lost, and every key that is not "tags", "quantity" or size-prefixed ends up among the other entries |
| MetadataParser.ApplyEntriesStops | src/recipe/metadata.rs:39-54 | once an entry fails, the later entries are never looked at |
| MetadataParser.ParseSpec | src/recipe/metadata.rs:22-57 | not exactly one document, or a document that is not a mapping, fails; otherwise the entries are applied in order to the default |
| MetadataParser.Metadata.Default | src/recipe/metadata.rs:137-146 | no tags, one nominal item, no sizes, no other entries |
| MetadataParser.Metadata.ParseTags | src/recipe/metadata.rs:79-91 | the tag list and result are those of `TagsEntry` on the old tag list |
| MetadataParser.Metadata.ParseQuantity | src/recipe/metadata.rs:93-100 | the quantity and result are those of `QuantityEntry` on the old quantity |
| MetadataParser.Metadata.ParseSize | src/recipe/metadata.rs:102-116 | the size map and result are those of `SizeEntry` on the old map |
| MetadataParser.Metadata.ParseOthers | src/recipe/metadata.rs:118-134 | the map and result are those of `OthersEntry`, with the insertion before the duplicate check |
| MetadataParser.Metadata.ParseEntry | src/recipe/metadata.rs:40-53 | fails exactly when `ApplyEntry` does, with its error, and otherwise leaves the fields at `ApplyEntry`'s value |
| MetadataParser.Metadata.Parse | src/recipe/metadata.rs:22-57 | succeeds exactly when `ParseSpec` does, with its error, and otherwise returns a new object whose fields are `ParseSpec`'s value |
| RecipeParser.ParseRecipe | src/recipe.rs:18-36 | a root without child list is "empty file"; an empty child list is EOF; the rejection of a wrong layout is in `ParseDocumentHeadings`, `ParseStepsHeading` and `ParsedLayout` |
| RecipeParser.ParseDocument | src/recipe.rs:23-24 | running out of nodes before the title or the "Ingredients" heading is EOF; the heading checks are in `ParseDocumentHeadings` |
| RecipeParser.ParseSections | src/recipe.rs:25 | the ingredients are exactly those of the nodes between the "Ingredients" heading and the next depth-2 heading; running out of nodes before "Steps" is EOF |
| RecipeParser.ParseSteps | src/recipe.rs:26 | running out of nodes before the "Steps" heading is EOF; the name and ingredients are kept; the heading check is in `ParseStepsHeading` |
| RecipeParser.ParseStepRun | src/recipe.rs:27 | an empty steps run gives no steps; the name and ingredients are kept |
| RecipeParser.ParseDocumentHeadings | src/recipe.rs:23-24 | a wrong title fails with the title check's own error, and a right title with a wrong "Ingredients" heading with that heading check's error; an accepted document has more than two nodes, its name is the title, the second node is the "Ingredients" heading, and the rest is read as the sections |
| RecipeParser.ParseStepsHeading | src/recipe.rs:26-27 | a node that is not the "Steps" heading fails with the heading check's own error; an accepted section has that heading at the cursor, and its steps are those of the run after it up to the next depth-2 heading |
| RecipeParser.FromMdast | src/recipe.rs:18-36 | the cursor-driven parse gives exactly `ParseRecipe` |
| RecipeParser.ReadDocument | src/recipe.rs:22-27 | from a fresh cursor, the fixed sequence of cursor moves gives `ParseDocument` |
| RecipeParser.ReadSections | src/recipe.rs:25-27 | from the end of the ingredients run, gives `ParseSections` |
| RecipeParser.ReadSteps | src/recipe.rs:26-27 | from the expected "Steps" heading, gives `ParseSteps` |
| RecipeParser.ReadStepRun | src/recipe.rs:27-32 | from after the "Steps" heading, gives `ParseStepRun` |
| RecipeParser.RunBeforeHeading | src/recipe/md_parser.rs:81-87 | a heading-free run followed by nothing or a depth-2 heading is where the search stops |
| RecipeParser.HeadingFreeAt | src/recipe/md_parser.rs:81-87 | a heading-free run holds no depth-2 heading at any position |
| RecipeParser.RunAt | src/recipe/md_parser.rs:81-96 | a heading-free run at position j, followed by nothing or a depth-2 heading, is exactly what the cursor consumes from j |
| RecipeParser.DocumentParts | src/recipe.rs:23-27 | in a document built from the parts, the title, the two headings and the two runs sit at the expected positions |
| RecipeParser.DocumentLayout | src/recipe.rs:23-27 | in a well-laid-out document, the cursor finds the title, the two headings and the two runs where they were put |
| RecipeParser.ParseStepsAt | src/recipe.rs:26-32 | from a "Steps" heading, the recipe is the steps of the following run |
| RecipeParser.ParseOfSections | src/recipe.rs:23-32 | a title, "Ingredients", a heading-free run, "Steps", another run and anything from a depth-2 heading on reads as the two runs; what follows the steps is never examined |
| RecipeParser.ParsedLayout | src/recipe.rs:18-36 | conversely, an accepted recipe comes from a child list of more than two nodes in which the ingredient run ends at the "Steps" heading, and its ingredients and steps are what the two runs parse to |
| RecipeParser.EmptyStepsSection | src/recipe.rs:45-62 | a document ending at the "Steps" heading, with a list of comma items, is accepted with one ingredient per item and no steps |
| RecipeParser.TestRecipeDocument | src/recipe.rs:45-62 | the three-item test document is accepted with its title, three ingredients and no steps |

## Left out

- Markdown parsing (`markdown::to_mdast`), `get_parse_options` and source positions belong to the markdown library. The model starts from the node tree. `RecipeParser.FromMdast` takes the root node instead of the text, and the library's own error is not modelled.
- YAML loading (`saphyr`) belongs to the YAML library. `MetadataParser.Metadata.Parse` starts from the loaded documents, and mapping entries are taken in document order.
- The bodies of `Quantity::from_str`, `QuantityOf::<_>::from_str` and `parse_quantity` are not part of this model. They are parameters in the `Parsers` record.
- `f32` arithmetic: amounts are exact reals, so rounding in `sanitize` is not modelled.
- Unicode: `to_lowercase`, `is_alphanumeric` and the white space of `trim` are modelled on ASCII.
- Errors:
  - `MDError` keeps the offending node instead of its source position.
  - `Display` and the `From` conversions are not modelled.
  - Messages that the source formats with `{:?}` are written with plain quotes and no escaping.
- StepParser.TextElemFromNode: the source panics when a timer reading has no unit. The model returns the error "timer has no unit" instead. The non-time-unit error does not render the unit.
- MetadataParser.SizeInfoFromStr: the error message holds the distance parser's message, not its `Display` rendering with position and newline.
- Strings.Trim: the contract states only that the result is no longer and has no white space at either end. That only white space is removed is in the body, and is used through `TrimOfTrimmed` and `TrimPadded` rather than stated.
- IngredientParser.FromMdast: the "not a list" and "more than one node" cases are stated as failures without their messages.
- InstructionsParser.ParseStepListDepth: the list nesting counts no lists inside node kinds the grammar never enters (`Other`).
