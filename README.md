# Production chains: report and editor

A model, in Dafny, of the production-chain command of motki
(`cli/command/product.go`). A production chain is a tree of items. The root
is the item to sell. Its materials are the items one production run of it
consumes. Each node is either bought (`Buy`) or made from its own materials
(`Manufacture`).

The model covers:

- the arithmetic of the chain report: the quantity each material line
  requires after material efficiency, the line total, and the root's cost
  per batch, batch quantity, revenue, profit, margin and unit label;
- the shared line counter that numbers the report's lines;
- the line index through which the editor resolves line numbers;
- the promotion to `Manufacture` of every direct material that has materials
  of its own, done before a new chain is shown;
- the editor's five field edits (C, F, M, B, P);
- the dispatch of subcommand words and of the editor's operation letters.

Modules, one per file:

- `Numeric` (`numeric.dfy`): rounding half away from zero, which is what
  `Round(0)` of the decimal library does, and the decimal string of a whole
  number.
- `Model` (`model.dfy`): the `Product` node as a class. The command edits
  nodes in place through the references it holds. `State()` snapshots every
  field, so an edit can be specified as "one field changed".
- `ProductInfo` (`product_info.dfy`): `printProductInfo` and
  `printChildProductInfo` without the terminal output.
- `ProductEditor` (`product_editor.dfy`): `getProductLineIndex` and the
  editor session as a class holding the root and the index.
- `ProductCommand` (`product_command.dfy`): `Handle`, the editor prompt's
  operation letters, and the promotion loop of `previewProduct`.

Decimals are Dafny `real`s. The decimal library is exact for addition,
subtraction and multiplication, and the model treats its division as exact
too. `Product.Cost()` is defined in `model/product.go`, which is not part of
this model. By `cli/command/product.go:108` its value already includes the
node's `Quantity`. The model takes that value as one the caller supplies:
a `real` argument, or a `Product -> real` function for the material lines.

Two details of `cli/command/product.go` shape the report:

- The report's cost figure is the value of `Cost()` times `BatchSize`
  (`cli/command/product.go:108`).
- `printChildProductInfo` returns unconditionally
  (`cli/command/product.go:167`) before its loop over the node's own
  materials. The report therefore lists only the root's direct materials, and
  that loop is unreachable code.

## Model

| member | source | states |
|---|---|---|
| `Numeric.RoundHalfAway` | cli/command/product.go:151-152 | the result is within one half of the value, and an exact half goes away from zero |
| `Numeric.RoundingIsUnique` | cli/command/product.go:151-152 | exactly one whole number satisfies the rounding rule, so the rule fully defines `Round(0)` |
| `Numeric.NatToString` | cli/command/product.go:118 | the text of a whole number is a non-empty string of decimal digits, with no leading zero unless the number is 0 |
| `Numeric.DigitsValueOfNatToString` | cli/command/product.go:118 | reading back the printed digits of a batch quantity gives the quantity |
| `ProductInfo.QtyAfterME` | cli/command/product.go:151-152 | the required quantity is `Quantity × parentBatchSize / (1 + parentME)` rounded half away from zero |
| `ProductInfo.QtyWithoutEfficiency` | cli/command/product.go:151-152 | with ME 0 and batch size 1, the required quantity equals the material's own quantity |
| `ProductInfo.QtyNonIncreasingInEfficiency` | cli/command/product.go:151-152 | for non-negative quantities and batch sizes, a higher parent ME never raises the required quantity |
| `ProductInfo.QtyExampleWithEfficiency` | cli/command/product.go:151-152 | 100 units, batch size 10, ME 0.1 require 909 units |
| `ProductInfo.QtyExampleTie` | cli/command/product.go:151-152 | an exact half unit (1 unit at ME 1) rounds up to 1 |
| `ProductInfo.IsLineOf` | cli/command/product.go:150-166 | a line of a material has a quantity that is the material's quantity scaled by the parent's batch size over `1 + parentME`, rounded half away from zero, and a total of cost each × quantity |
| `ProductInfo.LineCounter.constructor` | cli/command/product.go:129 | the shared line counter starts at 0, so the first line printed is numbered 1 |
| `ProductInfo.PrintChildProductInfo` | cli/command/product.go:148-167 | bumps the shared counter by exactly one and numbers the line with it; the cost is the node's cost; the quantity is `QtyAfterME`; the total is cost × quantity; the "M" flag is shown iff `Kind == Manufacture` |
| `ProductInfo.MaterialLines` | cli/command/product.go:129-132 | one line per direct material, in order, numbered 1..n; afterwards the counter equals the number of materials; a node without materials prints no line whatever its ME |
| `ProductInfo.UnitLabel` | cli/command/product.go:116-119 | the label is `"unit"` iff the batch quantity is at most 1; otherwise it is the quantity's decimal digits, without a leading zero, followed by `" units"` |
| `ProductInfo.Summarize` | cli/command/product.go:107-119 | batch quantity = `Quantity × BatchSize`; cost per batch = `Cost()` × `BatchSize`; revenue = `MarketPrice × batchQuantity`; cost per batch + profit = revenue; the margin is `MarginPercent` of profit on revenue |
| `ProductInfo.SummaryCostRecoversNodeCost` | cli/command/product.go:107-108 | for a non-zero batch size, the cost per batch divided by `BatchSize` gives back the `Cost()` value |
| `ProductInfo.MarginPercent` | cli/command/product.go:112-115 | the margin is exactly 0 when revenue is 0, and otherwise margin × revenue = 100 × profit |
| `ProductInfo.MarginZeroAtBreakEven` | cli/command/product.go:111-115 | the margin on revenue minus cost is 0 exactly when revenue is 0 or revenue equals the cost per batch |
| `ProductInfo.MarginAtMostHundred` | cli/command/product.go:111-115 | with positive revenue and non-negative cost, the margin is at most 100, and equals 100 only if the batch costs nothing |
| `ProductEditor.GetProductLineIndex` | cli/command/product.go:176-185 | the index has exactly the keys `0..len(Materials)`; key 0 maps to the root and key i to `Materials[i-1]` |
| `ProductEditor.LineIndexIsInjective` | cli/command/product.go:176-185 | when the root and its materials are distinct nodes, different line numbers select different nodes |
| `ProductEditor.Editor.constructor` | cli/command/product.go:300-301 | the session edits the given root through its line index |
| `ProductEditor.Editor.ValidLineNumber` | cli/command/product.go:303-309 | a line number is accepted iff it lies in `0..len(Materials)`, and it then selects the root (0) or the material shown on that line |
| `ProductEditor.Editor.EditCost` | cli/command/product.go:362-373 | on a valid line, only the selected node's `MarketPrice` changes; nothing changes otherwise |
| `ProductEditor.Editor.EditMaterialEfficiency` | cli/command/product.go:375-386 | on a valid line, only the selected node's `MaterialEfficiency` changes; nothing changes otherwise |
| `ProductEditor.Editor.EditMode` | cli/command/product.go:388-403 | accepted iff the line is valid and the mode is "buy" or "build"; then only `Kind` changes, and it becomes `Buy` iff the mode is "buy" |
| `ProductEditor.Editor.EditBatchSize` | cli/command/product.go:405-416 | accepted iff the line is valid and the size is greater than 0; then only `BatchSize` changes |
| `ProductEditor.Editor.EditSellPrice` | cli/command/product.go:418-425 | only the root's `MarketPrice` changes; every other line's node is unchanged |
| `ProductCommand.Handle` | cli/command/product.go:36-60 | a word selects a subcommand iff it is one of that subcommand's aliases ("" for help; new/add/create; show; list; edit; view/preview); any other word is unknown |
| `ProductCommand.ParseOperation` | cli/command/product.go:327-336 | a typed command selects the operation whose letter it equals after upper-casing; anything else is refused |
| `ProductCommand.ParseLetter` | cli/command/product.go:327-336 | every operation letter, upper- or lower-case, selects its own operation |
| `ProductCommand.PrintedLinesResolve` | cli/command/product.go:176-185 | every line number the report prints resolves in the editor to the material printed on it, and every non-zero line the editor accepts is printed |
| `ProductCommand.PromoteMaterials` | cli/command/product.go:232-236 | every direct material with materials of its own becomes `Manufacture`; the other materials keep their `Kind`; no other field changes, and the root is untouched |

## Left out

- Terminal output and layout (`fmt.Print*`, padding, centring, wrapping, `StringFixed`, the help texts) are presentation only. The model computes the values printed and the unit label text, not the layout of the lines.
- Interactive prompts become method arguments. A prompt the operator cancels has the same effect as a refused value: the command changes nothing. Where a prompt would ask again after a refused answer (a line number out of range, an M mode other than "buy" or "build", a B size not greater than 0), the model takes one answer and refuses it.
- Item and region names (`getProductName`, `getRegionName`) are catalog database lookups and are not modelled.
- Persistence and pricing (`NewProduct`, `GetProduct`, `SaveProduct`, `GetAllProducts`, `UpdateProductMarketPrices`) are not modelled. This leaves out the editor commands S, U and R, `newProduct`, `editProduct`, `showProduct`, `listProducts` and the price update in `previewProduct`.
- `Product.Cost()` is not modelled. It lives in `model/product.go`, which is not part of this model, so its value is supplied by the caller.
- The editor's D command (a nested editor session on one line's node) is the same loop on a subtree and is not modelled separately. V and ? only print.
- `Prefixes` and `Description` are constants and are not modelled.
- Numeric details of the decimal library are not modelled: `Div` rounds to 16 fractional digits, where the model divides exactly, and `NewFromFloat(float64(n))` is taken to be exact for the integers used.
- `ProductInfo.QtyAfterME`: requires `parentME != -1`. At `-1` the decimal library panics on division by zero, and the model does not describe that panic. The F command accepts any decimal, so the source can reach that state. `ProductInfo.PrintChildProductInfo` requires the same. `ProductInfo.MaterialLines` and `ProductCommand.PrintedLinesResolve` need it only when the node has materials, since a node without materials divides nothing.
- `ProductCommand.ParseOperation`: upper-cases ASCII letters only. `strings.ToUpper` also maps a few non-ASCII letters onto accepted letters (the long s `ſ` becomes `S`); the model refuses those inputs. The prompt's own upper-casing transform is not part of this model.
- `ProductCommand.PromoteMaterials` and `ProductEditor.Editor` require the root and its direct materials to be distinct objects, as they are in a chain built from a bill of materials.
