/** The "product" command: which subcommand a word selects, which editor
    operation a typed letter selects, and the preparation of a freshly built
    chain before it is shown. */
module ProductCommand {
  import opened Numeric
  import opened Model
  import opened ProductInfo
  import opened ProductEditor

  /** What `Handle` does with a subcommand word. */
  datatype Subcommand = PrintHelp | NewProduct | ShowProduct | ListProducts | EditProduct | PreviewProduct | Unknown

  /** The words each subcommand answers to; the empty word asks for help. */
  function Aliases(a: Subcommand): set<string> {
    match a
    case PrintHelp => {""}
    case NewProduct => {"new", "add", "create"}
    case ShowProduct => {"show"}
    case ListProducts => {"list"}
    case EditProduct => {"edit"}
    case PreviewProduct => {"view", "preview"}
    case Unknown => {}
  }

  function Handle(subcmd: string): (a: Subcommand)
    ensures forall b :: subcmd in Aliases(b) <==> b == a && a != Unknown
  {
    if |subcmd| == 0 then PrintHelp
    else if subcmd == "new" || subcmd == "add" || subcmd == "create" then NewProduct
    else if subcmd == "show" then ShowProduct
    else if subcmd == "list" then ListProducts
    else if subcmd == "edit" then EditProduct
    else if subcmd == "view" || subcmd == "preview" then PreviewProduct
    else Unknown
  }

  /** The operations of the editor prompt. */
  datatype Operation = Quit | Save | View | Detail | Update | Region | Cost | Batch | Efficiency | Mode | SellPrice | Help

  function Letter(op: Operation): string {
    match op
    case Quit => "Q"
    case Save => "S"
    case View => "V"
    case Detail => "D"
    case Update => "U"
    case Region => "R"
    case Cost => "C"
    case Batch => "B"
    case Efficiency => "F"
    case Mode => "M"
    case SellPrice => "P"
    case Help => "?"
  }

  function UpperChar(c: char): char {
    if 'a' <= c <= 'z' then (c as int - 'a' as int + 'A' as int) as char else c
  }

  /** Upper-cases the ASCII letters of `s`: no lower-case ASCII letter
      remains, and every other character is kept in place. */
  function ToUpper(s: string): (u: string)
    ensures |u| == |s|
    ensures forall i :: 0 <= i < |u| ==> !('a' <= u[i] <= 'z')
    ensures forall i :: 0 <= i < |s| && !('a' <= s[i] <= 'z') ==> u[i] == s[i]
  {
    seq(|s|, i requires 0 <= i < |s| => UpperChar(s[i]))
  }

  /** The operation a typed command selects, in either case; the prompt
      refuses anything that is not one of the listed letters. */
  function ParseOperation(cmd: string): (r: Option<Operation>)
    ensures r.Some? ==> ToUpper(cmd) == Letter(r.value)
    ensures r.None? ==> forall op :: ToUpper(cmd) != Letter(op)
  {
    var u := ToUpper(cmd);
    if u == "Q" then Some(Quit)
    else if u == "S" then Some(Save)
    else if u == "V" then Some(View)
    else if u == "D" then Some(Detail)
    else if u == "U" then Some(Update)
    else if u == "R" then Some(Region)
    else if u == "C" then Some(Cost)
    else if u == "B" then Some(Batch)
    else if u == "F" then Some(Efficiency)
    else if u == "M" then Some(Mode)
    else if u == "P" then Some(SellPrice)
    else if u == "?" then Some(Help)
    else None
  }

  /** Each operation's letter selects it, typed upper- or lower-case. */
  lemma ParseLetter(op: Operation)
    ensures ParseOperation(Letter(op)) == Some(op)
    ensures op != Help ==> ParseOperation([(Letter(op)[0] as int - 'A' as int + 'a' as int) as char]) == Some(op)
  {
    var l := Letter(op);
    assert ToUpper(l) == l;
    if op != Help {
      var lower := [(l[0] as int - 'A' as int + 'a' as int) as char];
      assert ToUpper(lower) == l;
    }
  }

  /** The line numbers the report prints are the line numbers the editor
      resolves, and each resolves to the material printed on it. */
  lemma PrintedLinesResolve(p: Product, cost: Product -> real, lines: seq<Line>, index: map<int, Product>)
    requires |p.materials| > 0 ==> p.materialEfficiency != -1.0
    requires IsLineIndex(index, p, p.materials)
    requires |lines| == |p.materials|
    requires forall i :: 0 <= i < |lines| ==>
      IsLineOf(lines[i], p.materials[i], i + 1, p.batchSize, p.materialEfficiency, cost(p.materials[i]))
    ensures forall i :: 0 <= i < |lines| ==>
      lines[i].number in index && index[lines[i].number] == p.materials[i]
    ensures forall k :: k in index ==> k == 0 || exists i :: 0 <= i < |lines| && lines[i].number == k
  {
    forall k | k in index && k != 0
      ensures exists i :: 0 <= i < |lines| && lines[i].number == k
    {
      assert lines[k - 1].number == k;
    }
  }

  /** The preparation in `previewProduct`: every direct material that has
      materials of its own is switched to manufacture; no other field, no
      other material and not the root change. */
  method PromoteMaterials(p: Product)
    requires p !in p.materials
    modifies set m | m in p.materials
    ensures p.State() == old(p.State())
    ensures forall m :: m in p.materials ==>
      m.State() == old(m.State()).(kind := if |old(m.materials)| > 0 then Manufacture else old(m.kind))
  {
    var materials := p.materials;
    for k := 0 to |materials|
      invariant forall m :: m in materials ==>
        m.State() == old(m.State()).(kind := if m in materials[..k] && |old(m.materials)| > 0 then Manufacture else old(m.kind))
    {
      var mat := materials[k];
      if |mat.materials| > 0 {
        mat.kind := Manufacture;
      }
      assert materials[..k + 1] == materials[..k] + [mat];
    }
    assert materials[..|materials|] == materials;
  }
}
