/** The production-chain editor: line numbers resolve through an index
    built once from the chain (line 0 is the root item, line i its i-th
    direct material), and each edit command overwrites one field of the node
    a line number selects. */
module ProductEditor {
  import opened Model

  /** `index` maps exactly the line numbers 0..|materials| to the nodes
      shown on them: 0 to `root`, i to the i-th material. */
  ghost predicate IsLineIndex(index: map<int, Product>, root: Product, materials: seq<Product>) {
    && (forall k :: k in index <==> 0 <= k <= |materials|)
    && 0 in index && index[0] == root
    && forall i :: 1 <= i <= |materials| ==> i in index && index[i] == materials[i - 1]
  }

  /** The line index of the chain rooted at `p`. */
  method GetProductLineIndex(p: Product) returns (index: map<int, Product>)
    ensures IsLineIndex(index, p, p.materials)
  {
    var materials := p.materials;
    index := map[];
    var curr := 0;
    index := index[curr := p];
    for k := 0 to |materials|
      invariant curr == k
      invariant forall j :: j in index <==> 0 <= j <= k
      invariant index[0] == p
      invariant forall i :: 1 <= i <= k ==> index[i] == materials[i - 1]
    {
      curr := curr + 1;
      index := index[curr := materials[k]];
    }
  }

  /** Different line numbers of a chain whose nodes are distinct select
      different nodes. */
  lemma LineIndexIsInjective(index: map<int, Product>, root: Product, j: int, k: int)
    requires Distinct(root) && IsLineIndex(index, root, root.materials)
    requires j in index && k in index && j != k
    ensures index[j] != index[k]
  {
    if j != 0 && k != 0 {
      if j < k {
        assert root.materials[j - 1] != root.materials[k - 1];
      } else {
        assert root.materials[k - 1] != root.materials[j - 1];
      }
    } else if j == 0 {
      assert index[k] in root.materials;
    } else {
      assert index[j] in root.materials;
    }
  }

  /** The editor session on one chain. */
  class Editor {
    const root: Product
    const lineIndex: map<int, Product>

    ghost predicate Valid()
      reads this, root
    {
      Distinct(root) && IsLineIndex(lineIndex, root, root.materials)
    }

    constructor (p: Product)
      requires Distinct(p)
      ensures root == p && Valid()
    {
      var index := GetProductLineIndex(p);
      root, lineIndex := p, index;
    }

    /** The validity check applied to every line number the operator gives:
        it is accepted exactly when it is a line of the report. */
    function ValidLineNumber(line: int): (ok: bool)
      reads this, root
      requires Valid()
      ensures ok <==> 0 <= line <= |root.materials|
      ensures ok ==> (line == 0 ==> lineIndex[line] == root) && (line > 0 ==> lineIndex[line] == root.materials[line - 1])
    {
      line in lineIndex
    }

    /** "C": set the market price of the node on `line`. */
    method EditCost(line: int, price: real) returns (ok: bool)
      requires Valid()
      modifies if line in lineIndex then {lineIndex[line]} else {}
      ensures Valid()
      ensures ok == ValidLineNumber(line)
      ensures ok ==> lineIndex[line].State() == old(lineIndex[line].State()).(marketPrice := price)
      ensures forall k :: k in lineIndex && (!ok || k != line) ==> lineIndex[k].State() == old(lineIndex[k].State())
    {
      ok := ValidLineNumber(line);
      if ok {
        var prod := lineIndex[line];
        prod.marketPrice := price;
        forall k | k in lineIndex && k != line
          ensures lineIndex[k] != prod
        {
          LineIndexIsInjective(lineIndex, root, k, line);
        }
      }
    }

    /** "F": set the material efficiency of the node on `line`. */
    method EditMaterialEfficiency(line: int, me: real) returns (ok: bool)
      requires Valid()
      modifies if line in lineIndex then {lineIndex[line]} else {}
      ensures Valid()
      ensures ok == ValidLineNumber(line)
      ensures ok ==> lineIndex[line].State() == old(lineIndex[line].State()).(materialEfficiency := me)
      ensures forall k :: k in lineIndex && (!ok || k != line) ==> lineIndex[k].State() == old(lineIndex[k].State())
    {
      ok := ValidLineNumber(line);
      if ok {
        var prod := lineIndex[line];
        prod.materialEfficiency := me;
        forall k | k in lineIndex && k != line
          ensures lineIndex[k] != prod
        {
          LineIndexIsInjective(lineIndex, root, k, line);
        }
      }
    }

    /** "M": set the production mode of the node on `line`; the prompt only
        takes "buy" or "build", and anything but "buy" means manufacture. */
    method EditMode(line: int, mode: string) returns (ok: bool)
      requires Valid()
      modifies if line in lineIndex then {lineIndex[line]} else {}
      ensures Valid()
      ensures ok <==> ValidLineNumber(line) && (mode == "buy" || mode == "build")
      ensures ok ==> lineIndex[line].State() == old(lineIndex[line].State()).(kind := if mode == "buy" then Buy else Manufacture)
      ensures ok ==> (lineIndex[line].kind == Buy <==> mode == "buy")
      ensures forall k :: k in lineIndex && (!ok || k != line) ==> lineIndex[k].State() == old(lineIndex[k].State())
    {
      ok := ValidLineNumber(line) && (mode == "buy" || mode == "build");
      if ok {
        var prod := lineIndex[line];
        if mode == "buy" {
          prod.kind := Buy;
        } else {
          prod.kind := Manufacture;
        }
        forall k | k in lineIndex && k != line
          ensures lineIndex[k] != prod
        {
          LineIndexIsInjective(lineIndex, root, k, line);
        }
      }
    }

    /** "B": set the batch size of the node on `line`; the prompt only takes
        a whole number greater than zero. */
    method EditBatchSize(line: int, size: int) returns (ok: bool)
      requires Valid()
      modifies if line in lineIndex then {lineIndex[line]} else {}
      ensures Valid()
      ensures ok <==> ValidLineNumber(line) && size > 0
      ensures ok ==> lineIndex[line].State() == old(lineIndex[line].State()).(batchSize := size)
      ensures forall k :: k in lineIndex && (!ok || k != line) ==> lineIndex[k].State() == old(lineIndex[k].State())
    {
      ok := ValidLineNumber(line) && size > 0;
      if ok {
        var prod := lineIndex[line];
        prod.batchSize := size;
        forall k | k in lineIndex && k != line
          ensures lineIndex[k] != prod
        {
          LineIndexIsInjective(lineIndex, root, k, line);
        }
      }
    }

    /** "P": set the sell price of the root item. */
    method EditSellPrice(price: real)
      requires Valid()
      modifies root
      ensures Valid()
      ensures root.State() == old(root.State()).(marketPrice := price)
      ensures forall k :: k in lineIndex && k != 0 ==> lineIndex[k].State() == old(lineIndex[k].State())
    {
      root.marketPrice := price;
      forall k | k in lineIndex && k != 0
        ensures lineIndex[k] != root
      {
        LineIndexIsInjective(lineIndex, root, k, 0);
      }
    }
  }
}
